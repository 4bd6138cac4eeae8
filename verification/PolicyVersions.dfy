/**
 * Versioned policies: risk and execution policies share one table and one
 * protocol. A draft remembers which version was active when it was written and
 * can only be activated while that one still is.
 */
module PolicyVersions {
  import opened Common

  datatype Category = RiskPolicy | ExecutionPolicy

  datatype VersionState = Draft | Validated | Active | Superseded

  datatype Version = Version(user: string, category: Category, sequence: nat, state: VersionState, base: Option<nat>,
                             reason: string)

  type Table = seq<Version>

  datatype PolicyError = ReasonRequired | VersionNotFound | StateInvalid | NotValidated | VersionConflict

  datatype Reply = Done(id: nat) | Failed(error: PolicyError)

  predicate Line(v: Version, user: string, category: Category) {
    v.user == user && v.category == category
  }

  predicate SameLine(a: Version, b: Version) {
    Line(a, b.user, b.category)
  }

  function FindActive(t: Table, user: string, category: Category): (found: Option<nat>)
    ensures found.Some? ==> found.value < |t| && t[found.value].state == Active && Line(t[found.value], user, category)
    ensures found.None? ==> forall i :: 0 <= i < |t| && Line(t[i], user, category) ==> t[i].state != Active
  {
    if t == [] then None
    else if Line(t[|t| - 1], user, category) && t[|t| - 1].state == Active then Some(|t| - 1)
    else FindActive(t[..|t| - 1], user, category)
  }

  function MaxSequence(t: Table, user: string, category: Category): (m: nat)
    ensures forall i :: 0 <= i < |t| && Line(t[i], user, category) ==> t[i].sequence <= m
  {
    if t == [] then 0
    else
      var before := MaxSequence(t[..|t| - 1], user, category);
      if Line(t[|t| - 1], user, category) then Max(before, t[|t| - 1].sequence) else before
  }

  /** White space as Unicode knows it. */
  predicate Space(c: char) {
    var n := c as int;
    || 0x9 <= n <= 0xD || 0x1C <= n <= 0x20 || n == 0x85 || n == 0xA0 || n == 0x1680 || 0x2000 <= n <= 0x200A
    || n == 0x2028 || n == 0x2029 || n == 0x202F || n == 0x205F || n == 0x3000
  }

  /** The text without the white space around it. */
  function Strip(text: string): (stripped: string)
    ensures stripped != "" ==> !Space(stripped[0]) && !Space(stripped[|stripped| - 1])
    ensures stripped == "" <==> forall i :: 0 <= i < |text| ==> Space(text[i])
    decreases |text|
  {
    if text == "" then text
    else if Space(text[0]) then Strip(text[1..])
    else if Space(text[|text| - 1]) then Strip(text[..|text| - 1])
    else text
  }

  const WHITE_SPACE :=
    "\t\n\U{B}\U{C}\r\U{1C}\U{1D}\U{1E}\U{1F} \U{85}\U{A0}\U{1680}\U{2000}\U{2001}\U{2002}\U{2003}\U{2004}\U{2005}"
    + "\U{2006}\U{2007}\U{2008}\U{2009}\U{200A}\U{2028}\U{2029}\U{202F}\U{205F}\U{3000}"

  lemma SpaceIsListed(c: char)
    ensures Space(c) <==> c in WHITE_SPACE
  {
  }

  /** Around the part from i to j there is only white space. */
  ghost predicate Surrounded(text: string, i: nat, j: nat) {
    && i <= j <= |text|
    && forall k :: 0 <= k < i || j <= k < |text| ==> Space(text[k])
  }

  lemma SpaceInFront(text: string, i: nat, j: nat)
    requires text != "" && Space(text[0]) && Surrounded(text[1..], i, j)
    ensures Surrounded(text, i + 1, j + 1) && text[1..][i..j] == text[i + 1..j + 1]
  {
    hide Space;
    forall k | 0 < k < |text|
      ensures text[k] == text[1..][k - 1]
    {
    }
  }

  lemma SpaceAtEnd(text: string, i: nat, j: nat)
    requires text != "" && Space(text[|text| - 1]) && Surrounded(text[..|text| - 1], i, j)
    ensures Surrounded(text, i, j) && text[..|text| - 1][i..j] == text[i..j]
  {
    hide Space;
    forall k | 0 <= k < |text| - 1
      ensures text[k] == text[..|text| - 1][k]
    {
    }
  }

  /** Only white space is stripped, and nothing in between. */
  lemma {:induction false} StripsEndsOnly(text: string) returns (i: nat, j: nat)
    ensures Surrounded(text, i, j) && i <= j <= |text| && Strip(text) == text[i..j]
    decreases |text|
  {
    hide Space, Surrounded;
    if text == "" {
      i, j := 0, 0;
      AllOfIt(text);
    } else if Space(text[0]) {
      i, j := StripsEndsOnly(text[1..]);
      SpaceInFront(text, i, j);
      i, j := i + 1, j + 1;
    } else if Space(text[|text| - 1]) {
      i, j := StripsEndsOnly(text[..|text| - 1]);
      SpaceAtEnd(text, i, j);
    } else {
      i, j := 0, |text|;
      AllOfIt(text);
    }
  }

  lemma AllOfIt(text: string)
    ensures Surrounded(text, 0, |text|) && text[0..|text|] == text
  {
  }

  // ---------------------------------------------------------------- the calls

  function CreateDraft(t: Table, user: string, category: Category, reason: string): (Table, Reply) {
    if Strip(reason) == "" then (t, Failed(ReasonRequired))
    else
      (t + [Version(user, category, MaxSequence(t, user, category) + 1, Draft, FindActive(t, user, category),
                    Strip(reason))], Done(|t|))
  }

  function ValidateDraft(t: Table, user: string, category: Category, id: nat): (Table, Reply) {
    if id >= |t| || !Line(t[id], user, category) then (t, Failed(VersionNotFound))
    else if t[id].state == Validated then (t, Done(id))
    else if t[id].state != Draft then (t, Failed(StateInvalid))
    else (t[id := t[id].(state := Validated)], Done(id))
  }

  function Activate(t: Table, user: string, category: Category, id: nat): (Table, Reply) {
    if id >= |t| || !Line(t[id], user, category) then (t, Failed(VersionNotFound))
    else if t[id].state == Active then (t, Done(id))
    else if t[id].state != Validated then (t, Failed(NotValidated))
    else
      var current := FindActive(t, user, category);
      if t[id].base != current then (t, Failed(VersionConflict))
      else
        var retired := if current.Some? then t[current.value := t[current.value].(state := Superseded)] else t;
        (retired[id := t[id].(state := Active)], Done(id))
  }

  datatype Call =
    | DraftCall(user: string, category: Category, reason: string)
    | ValidateCall(user: string, category: Category, id: nat)
    | ActivateCall(user: string, category: Category, id: nat)

  function Step(t: Table, call: Call): Table {
    match call
    case DraftCall(user, category, reason) => CreateDraft(t, user, category, reason).0
    case ValidateCall(user, category, id) => ValidateDraft(t, user, category, id).0
    case ActivateCall(user, category, id) => Activate(t, user, category, id).0
  }

  function Run(t: Table, calls: seq<Call>): Table {
    if calls == [] then t else Step(Run(t, calls[..|calls| - 1]), calls[|calls| - 1])
  }

  // ---------------------------------------------------------------- what every call keeps

  /** The version was active at some time. */
  predicate Activated(v: Version) {
    v.state == Active || v.state == Superseded
  }

  ghost predicate OneActive(t: Table) {
    forall i, j :: 0 <= i < j < |t| && t[i].state == Active && t[j].state == Active ==> !SameLine(t[i], t[j])
  }

  ghost predicate SequencesRise(t: Table) {
    forall i, j :: 0 <= i < j < |t| && SameLine(t[i], t[j]) ==> t[i].sequence < t[j].sequence
  }

  /** A base is an earlier version of the same line that has been active. */
  ghost predicate BasesKnown(t: Table) {
    forall i :: 0 <= i < |t| && t[i].base.Some? ==>
      t[i].base.value < i && SameLine(t[t[i].base.value], t[i]) && Activated(t[t[i].base.value])
  }

  /** Whoever was activated retired its base. */
  ghost predicate BasesRetired(t: Table) {
    forall i :: 0 <= i < |t| && Activated(t[i]) && t[i].base.Some? && t[i].base.value < |t| ==>
      t[t[i].base.value].state == Superseded
  }

  predicate Succeeds(t: Table, j: nat, i: nat)
    requires j < |t|
  {
    i < j && Activated(t[j]) && t[j].base == Some(i)
  }

  /** Whoever was retired has a successor. */
  ghost predicate RetiredSucceeded(t: Table) {
    forall i :: 0 <= i < |t| && t[i].state == Superseded ==> exists j :: 0 <= j < |t| && Succeeds(t, j, i)
  }

  /** A line that ever had an active version has one now. */
  ghost predicate LinesStayActive(t: Table) {
    forall i :: 0 <= i < |t| && Activated(t[i]) ==> FindActive(t, t[i].user, t[i].category).Some?
  }

  /** No two versions drafted from the same base, or from none, were ever activated in one line. */
  ghost predicate BasesDiffer(t: Table) {
    forall i, j :: 0 <= i < j < |t| && Activated(t[i]) && Activated(t[j]) && SameLine(t[i], t[j]) ==>
      t[i].base != t[j].base
  }

  ghost predicate TableInv(t: Table) {
    && OneActive(t) && SequencesRise(t) && BasesKnown(t)
    && BasesRetired(t) && RetiredSucceeded(t) && LinesStayActive(t) && BasesDiffer(t)
  }

  /** Versions never lose their place and only move forward through their states. */
  predicate Reached(before: VersionState, after: VersionState) {
    match before
    case Draft => true
    case Validated => after != Draft
    case Active => after == Active || after == Superseded
    case Superseded => after == Superseded
  }

  ghost predicate Advances(before: Table, after: Table) {
    && |before| <= |after|
    && forall i :: 0 <= i < |before| ==>
         after[i] == before[i].(state := after[i].state) && Reached(before[i].state, after[i].state)
  }

  lemma ActiveIsFound(t: Table, i: nat)
    requires OneActive(t) && i < |t| && t[i].state == Active
    ensures FindActive(t, t[i].user, t[i].category) == Some(i)
  {
    var found := FindActive(t, t[i].user, t[i].category).value;
    if found != i {
      assert SameLine(t[found], t[i]);
    }
  }

  /** Neither a draft nor a validation touches a version that was ever active. */
  ghost predicate Quiet(before: Table, after: Table) {
    && |before| <= |after|
    && (forall i :: 0 <= i < |before| ==>
          && after[i] == before[i].(state := after[i].state)
          && (after[i].state == before[i].state || (!Activated(before[i]) && !Activated(after[i]))))
    && (forall i :: |before| <= i < |after| ==> !Activated(after[i]))
  }

  lemma QuietKeepsActive(before: Table, after: Table)
    requires Quiet(before, after) && OneActive(before) && LinesStayActive(before)
    ensures OneActive(after) && LinesStayActive(after)
  {
    forall i | 0 <= i < |after| && Activated(after[i])
      ensures FindActive(after, after[i].user, after[i].category).Some?
    {
      assert Activated(before[i]);
      var active := FindActive(before, before[i].user, before[i].category).value;
      assert after[active].state == Active && Line(after[active], after[i].user, after[i].category);
    }
    forall i, j | 0 <= i < j < |after| && after[i].state == Active && after[j].state == Active
      ensures !SameLine(after[i], after[j])
    {
      assert before[i].state == Active && before[j].state == Active;
    }
  }

  lemma QuietKeepsChain(before: Table, after: Table)
    requires Quiet(before, after) && BasesKnown(before) && BasesRetired(before) && RetiredSucceeded(before)
             && BasesDiffer(before)
    ensures BasesRetired(after) && RetiredSucceeded(after) && BasesDiffer(after)
  {
    forall i | 0 <= i < |after| && after[i].state == Superseded
      ensures exists j :: 0 <= j < |after| && Succeeds(after, j, i)
    {
      var j :| 0 <= j < |before| && Succeeds(before, j, i);
      assert Succeeds(after, j, i);
    }
  }

  lemma DraftKeeps(t: Table, user: string, category: Category, reason: string)
    requires TableInv(t)
    ensures TableInv(CreateDraft(t, user, category, reason).0) && Advances(t, CreateDraft(t, user, category, reason).0)
  {
    hide Strip, Space, MaxSequence, FindActive, OneActive, BasesRetired, RetiredSucceeded, LinesStayActive, BasesDiffer;
    var after := CreateDraft(t, user, category, reason).0;
    assert Quiet(t, after);
    QuietKeepsActive(t, after);
    QuietKeepsChain(t, after);
  }

  lemma ValidateKeeps(t: Table, user: string, category: Category, id: nat)
    requires TableInv(t)
    ensures TableInv(ValidateDraft(t, user, category, id).0) && Advances(t, ValidateDraft(t, user, category, id).0)
  {
    hide OneActive, BasesRetired, RetiredSucceeded, LinesStayActive, BasesDiffer;
    var after := ValidateDraft(t, user, category, id).0;
    assert Quiet(t, after);
    QuietKeepsActive(t, after);
    QuietKeepsChain(t, after);
  }

  /** The activation went through: the version's base was the active one, and has been retired. */
  ghost predicate Activation(t: Table, after: Table, id: nat) {
    && id < |t| && |after| == |t|
    && t[id].state == Validated && after[id] == t[id].(state := Active)
    && t[id].base == FindActive(t, t[id].user, t[id].category)
    && (forall i :: 0 <= i < |t| && i != id ==>
          after[i] == if t[id].base == Some(i) then t[i].(state := Superseded) else t[i])
  }

  lemma ActivationKeepsActive(t: Table, after: Table, id: nat)
    requires Activation(t, after, id) && OneActive(t) && LinesStayActive(t)
    ensures OneActive(after) && LinesStayActive(after)
  {
    forall i | 0 <= i < |t| && i != id && t[i].state == Active
      ensures SameLine(t[i], t[id]) <==> t[id].base == Some(i)
    {
      ActiveIsFound(t, i);
    }
    forall i | 0 <= i < |after| && Activated(after[i])
      ensures FindActive(after, after[i].user, after[i].category).Some?
    {
      if SameLine(t[i], t[id]) {
        assert Line(after[id], after[i].user, after[i].category);
      } else {
        var active := FindActive(t, t[i].user, t[i].category).value;
        assert after[active].state == Active && Line(after[active], after[i].user, after[i].category);
      }
    }
  }

  lemma ActivationKeepsBases(t: Table, after: Table, id: nat)
    requires Activation(t, after, id) && BasesKnown(t)
    ensures BasesKnown(after)
  {
    forall i | 0 <= i < |after| && after[i].base.Some?
      ensures after[i].base.value < i && SameLine(after[after[i].base.value], after[i])
              && Activated(after[after[i].base.value])
    {
      var base := t[i].base.value;
      assert Activated(t[base]) && SameLine(t[base], t[i]);
    }
  }

  lemma ActivationKeepsRetired(t: Table, after: Table, id: nat)
    requires Activation(t, after, id) && BasesKnown(t) && BasesRetired(t)
    ensures BasesRetired(after)
  {
    forall i | 0 <= i < |after| && Activated(after[i]) && after[i].base.Some? && after[i].base.value < |after|
      ensures after[after[i].base.value].state == Superseded
    {
      var base := t[i].base.value;
      if i != id {
        assert t[base].state == Superseded;
      }
    }
  }

  lemma ActivationKeepsSuccessors(t: Table, after: Table, id: nat)
    requires Activation(t, after, id) && BasesKnown(t) && RetiredSucceeded(t)
    ensures RetiredSucceeded(after)
  {
    forall i | 0 <= i < |after| && after[i].state == Superseded
      ensures exists j :: 0 <= j < |after| && Succeeds(after, j, i)
    {
      if t[id].base == Some(i) {
        assert Succeeds(after, id, i);
      } else {
        var j :| 0 <= j < |t| && Succeeds(t, j, i);
        assert Succeeds(after, j, i);
      }
    }
  }

  /** The base just retired was active until now, so nobody was activated from it before. */
  lemma ActivationKeepsBasesDifferent(t: Table, after: Table, id: nat)
    requires Activation(t, after, id) && TableInv(t)
    ensures BasesDiffer(after)
  {
    hide OneActive, RetiredSucceeded, SequencesRise;
    forall i | 0 <= i < |t| && i != id && Activated(t[i]) && SameLine(t[i], t[id])
      ensures t[i].base != t[id].base
    {
      assert FindActive(t, t[i].user, t[i].category) == t[id].base;
    }
  }

  lemma ActivatesOrNot(t: Table, user: string, category: Category, id: nat)
    ensures var after := Activate(t, user, category, id).0;
            after == t || Activation(t, after, id)
  {
  }

  lemma ActivationAdvances(t: Table, after: Table, id: nat)
    requires Activation(t, after, id) && SequencesRise(t)
    ensures SequencesRise(after) && Advances(t, after)
  {
    forall i | 0 <= i < |t|
      ensures after[i] == t[i].(state := after[i].state) && Reached(t[i].state, after[i].state)
    {
      if i != id && t[id].base == Some(i) {
        assert t[i].state == Active;
      }
    }
  }

  lemma ActivateKeeps(t: Table, user: string, category: Category, id: nat)
    requires TableInv(t)
    ensures TableInv(Activate(t, user, category, id).0) && Advances(t, Activate(t, user, category, id).0)
  {
    hide OneActive, BasesKnown, BasesRetired, RetiredSucceeded, LinesStayActive, BasesDiffer, SequencesRise, Activation,
      Activate, Advances;
    var after := Activate(t, user, category, id).0;
    if after == t {
      SelfAdvances(t);
    } else {
      ActivatesOrNot(t, user, category, id);
      ActivationAdvances(t, after, id);
      ActivationKeepsActive(t, after, id);
      ActivationKeepsBases(t, after, id);
      ActivationKeepsRetired(t, after, id);
      ActivationKeepsSuccessors(t, after, id);
      ActivationKeepsBasesDifferent(t, after, id);
    }
  }

  lemma StepKeeps(t: Table, call: Call)
    requires TableInv(t)
    ensures TableInv(Step(t, call)) && Advances(t, Step(t, call))
  {
    hide TableInv, CreateDraft, ValidateDraft, Activate, Advances;
    match call
    case DraftCall(user, category, reason) => DraftKeeps(t, user, category, reason);
    case ValidateCall(user, category, id) => ValidateKeeps(t, user, category, id);
    case ActivateCall(user, category, id) => ActivateKeeps(t, user, category, id);
  }

  lemma AdvancesTransitive(a: Table, b: Table, c: Table)
    requires Advances(a, b) && Advances(b, c)
    ensures Advances(a, c)
  {
  }

  lemma SelfAdvances(t: Table)
    ensures Advances(t, t)
  {
  }

  lemma {:induction false} RunKeeps(t: Table, calls: seq<Call>)
    requires TableInv(t)
    ensures TableInv(Run(t, calls)) && Advances(t, Run(t, calls))
  {
    hide TableInv, Step, Advances;
    if calls == [] {
      SelfAdvances(t);
    } else {
      RunKeeps(t, calls[..|calls| - 1]);
      StepKeeps(Run(t, calls[..|calls| - 1]), calls[|calls| - 1]);
      AdvancesTransitive(t, Run(t, calls[..|calls| - 1]), Run(t, calls));
    }
  }

  lemma EmptyInOrder(calls: seq<Call>)
    ensures TableInv(Run([], calls))
  {
    RunKeeps([], calls);
  }

  // ---------------------------------------------------------------- what holds in every run

  /** Of all versions a user drafted from the same base at most one is ever activated, and at most one is active. */
  lemma OneActivationPerBase(calls: seq<Call>, i: nat, j: nat)
    requires i < j < |Run([], calls)| && SameLine(Run([], calls)[i], Run([], calls)[j])
    ensures var t := Run([], calls);
            && (Activated(t[i]) && Activated(t[j]) ==> t[i].base != t[j].base)
            && !(t[i].state == Active && t[j].state == Active)
            && t[i].sequence < t[j].sequence
  {
    hide Run, BasesKnown, BasesRetired, RetiredSucceeded, LinesStayActive;
    EmptyInOrder(calls);
  }

  lemma {:induction false} RunSplits(t: Table, first: seq<Call>, more: seq<Call>)
    ensures Run(t, first + more) == Run(Run(t, first), more)
  {
    hide Step;
    if more == [] {
      assert first + more == first;
    } else {
      var n := |more| - 1;
      RunSplits(t, first, more[..n]);
      assert (first + more)[..|first| + n] == first + more[..n];
    }
  }

  /** A superseded version stays superseded, and no version is ever rewritten but in its state. */
  lemma SupersededNeverReturns(calls: seq<Call>, more: seq<Call>, id: nat)
    requires id < |Run([], calls)|
    ensures var before, after := Run([], calls), Run([], calls + more);
            && id < |after| && after[id] == before[id].(state := after[id].state)
            && (before[id].state == Superseded ==> after[id].state == Superseded)
            && (before[id].state == Active ==> after[id].state == Active || after[id].state == Superseded)
  {
    hide Run, TableInv;
    RunSplits([], calls, more);
    EmptyInOrder(calls);
    RunKeeps(Run([], calls), more);
  }

  /** The version, its base, the base of its base and so on. */
  function Lineage(t: Table, id: nat): seq<nat>
    requires id < |t|
    decreases id
  {
    [id] + if t[id].base.Some? && t[id].base.value < id then Lineage(t, t[id].base.value) else []
  }

  /**
   * Following successors from any version that was ever active leads to the active
   * one, so that one descends from it.
   */
  lemma {:induction false} ActiveDescendsFromAll(t: Table, id: nat)
    requires TableInv(t) && id < |t| && Activated(t[id])
    ensures var active := FindActive(t, t[id].user, t[id].category);
            active.Some? && id in Lineage(t, active.value)
    decreases |t| - id
  {
    hide SequencesRise, BasesRetired, BasesDiffer, OneActive;
    if t[id].state == Active {
      ActiveIsUnique(t, id);
    } else {
      var j :| 0 <= j < |t| && Succeeds(t, j, id);
      ActiveDescendsFromAll(t, j);
      var active := FindActive(t, t[id].user, t[id].category).value;
      LineageContinues(t, active, j);
    }
  }

  lemma ActiveIsUnique(t: Table, i: nat)
    requires TableInv(t) && i < |t| && t[i].state == Active
    ensures FindActive(t, t[i].user, t[i].category) == Some(i)
  {
    hide SequencesRise, BasesKnown, BasesRetired, RetiredSucceeded, LinesStayActive, BasesDiffer;
    ActiveIsFound(t, i);
  }

  lemma {:induction false} LineageContinues(t: Table, id: nat, j: nat)
    requires id < |t| && j < |t| && j in Lineage(t, id) && t[j].base.Some? && t[j].base.value < j
    ensures t[j].base.value in Lineage(t, id)
    decreases id
  {
    if j == id {
      assert Lineage(t, t[j].base.value)[0] == t[j].base.value;
    } else {
      LineageContinues(t, t[id].base.value, j);
    }
  }

  /** Along a lineage the sequence numbers strictly fall, within one line. */
  lemma {:induction false} LineageFalls(t: Table, id: nat, k: nat)
    requires TableInv(t) && id < |t| && 0 < k < |Lineage(t, id)|
    ensures var l := Lineage(t, id);
            && l[k - 1] < |t| && l[k] < l[k - 1]
            && t[l[k - 1]].base == Some(l[k])
            && SameLine(t[l[k]], t[id]) && Activated(t[l[k]])
            && t[l[k]].sequence < t[l[k - 1]].sequence
    decreases id
  {
    hide OneActive, BasesRetired, RetiredSucceeded, LinesStayActive, BasesDiffer;
    var base := t[id].base.value;
    assert Lineage(t, base)[0] == base;
    if k > 1 {
      LineageFalls(t, base, k - 1);
    }
  }

  /** In every run, the versions of a line that were ever active are exactly the lineage of the one active now. */
  lemma ActivationsFormOneChain(calls: seq<Call>, active: nat, id: nat)
    requires active < |Run([], calls)| && Run([], calls)[active].state == Active
    requires id < |Run([], calls)|
    ensures var t := Run([], calls);
            id in Lineage(t, active) <==> SameLine(t[id], t[active]) && Activated(t[id])
  {
    hide Run, TableInv;
    var t := Run([], calls);
    EmptyInOrder(calls);
    if SameLine(t[id], t[active]) && Activated(t[id]) {
      ActiveIsUnique(t, active);
      ActiveDescendsFromAll(t, id);
    }
    if id in Lineage(t, active) && id != active {
      var k :| 0 <= k < |Lineage(t, active)| && Lineage(t, active)[k] == id;
      LineageFalls(t, active, k);
    }
  }
}
