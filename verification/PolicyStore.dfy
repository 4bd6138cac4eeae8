/** The policy table and the three calls that update it in place. */
module PolicyStore {
  import opened Common
  import opened PolicyVersions

  class ConfigurationTable {
    var rows: seq<Version>

    ghost predicate Valid()
      reads this
    {
      TableInv(rows)
    }

    constructor ()
      ensures Valid() && rows == []
    {
      rows := [];
      new;
      EmptyInOrder([]);
    }

    method ActiveVersion(user: string, category: Category) returns (found: Option<nat>)
      ensures found == FindActive(rows, user, category)
    {
      found := None;
      for i := 0 to |rows|
        invariant found == FindActive(rows[..i], user, category)
      {
        assert rows[..i + 1][..i] == rows[..i];
        if Line(rows[i], user, category) && rows[i].state == Active {
          found := Some(i);
        }
      }
      assert rows[..|rows|] == rows;
    }

    method LatestSequence(user: string, category: Category) returns (m: nat)
      ensures m == MaxSequence(rows, user, category)
    {
      m := 0;
      for i := 0 to |rows|
        invariant m == MaxSequence(rows[..i], user, category)
      {
        assert rows[..i + 1][..i] == rows[..i];
        if Line(rows[i], user, category) {
          m := Max(m, rows[i].sequence);
        }
      }
      assert rows[..|rows|] == rows;
    }

    method CreateDraftVersion(user: string, category: Category, reason: string) returns (reply: Reply)
      requires Valid()
      modifies this
      ensures Valid() && (rows, reply) == CreateDraft(old(rows), user, category, reason)
    {
      hide FindActive, MaxSequence, TableInv, Strip, Advances;
      DraftKeeps(rows, user, category, reason);
      var normalized := Strip(reason);
      if normalized == "" {
        return Failed(ReasonRequired);
      }
      var current := ActiveVersion(user, category);
      var sequence := LatestSequence(user, category);
      reply := Done(|rows|);
      rows := rows + [Version(user, category, sequence + 1, Draft, current, normalized)];
    }

    method ValidateVersion(user: string, category: Category, id: nat) returns (reply: Reply)
      requires Valid()
      modifies this
      ensures Valid() && (rows, reply) == ValidateDraft(old(rows), user, category, id)
    {
      hide TableInv, Advances;
      ValidateKeeps(rows, user, category, id);
      if id >= |rows| || !Line(rows[id], user, category) {
        return Failed(VersionNotFound);
      }
      if rows[id].state == Validated {
        return Done(id);
      }
      if rows[id].state != Draft {
        return Failed(StateInvalid);
      }
      rows := rows[id := rows[id].(state := Validated)];
      reply := Done(id);
    }

    method ActivateVersion(user: string, category: Category, id: nat) returns (reply: Reply)
      requires Valid()
      modifies this
      ensures Valid() && (rows, reply) == Activate(old(rows), user, category, id)
      ensures reply.Done? ==> FindActive(rows, user, category) == Some(id)
    {
      hide TableInv, Advances;
      ActivateKeeps(rows, user, category, id);
      ghost var after := Activate(rows, user, category, id).0;
      if Activate(rows, user, category, id).1.Done? {
        ActiveIsUnique(after, id);
      }
      if id >= |rows| || !Line(rows[id], user, category) {
        return Failed(VersionNotFound);
      }
      if rows[id].state == Active {
        return Done(id);
      }
      if rows[id].state != Validated {
        return Failed(NotValidated);
      }
      var current := ActiveVersion(user, category);
      if rows[id].base != current {
        return Failed(VersionConflict);
      }
      if current.Some? {
        rows := rows[current.value := rows[current.value].(state := Superseded)];
      }
      rows := rows[id := rows[id].(state := Active)];
      reply := Done(id);
    }
  }
}
