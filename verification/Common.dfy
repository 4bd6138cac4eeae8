/** Types shared by every model. */
module Common {
  datatype Option<+T> = None | Some(value: T)

  function Min(a: int, b: int): (m: int)
    ensures m <= a && m <= b && (m == a || m == b)
  {
    if a < b then a else b
  }

  function Max(a: int, b: int): (m: int)
    ensures m >= a && m >= b && (m == a || m == b)
  {
    if a > b then a else b
  }

  /** Whether the account may trade, as the reconciliation last left it. */
  datatype GateStatus = Starting | GateReconciling | Ready | Degraded | Halted
}
