/** The row type shared by the recalculation kernel and the decision layer:
    one precomputed vessel–cargo combination of the baseline table. */
module Records {

  /** A column that may be absent from a row. */
  datatype Option<+T> = None | Some(value: T) {

    /** The value of the column, or `default` when the column is absent
        (a dictionary lookup with a default). */
    function GetOr(default: T): T {
      match this
      case Some(v) => v
      case None => default
    }
  }

  /** One baseline voyage record. `vessel` and `cargo` are read by index and
      so must be present; every numeric column is read with a default. */
  datatype VoyageRecord = VoyageRecord(
    vessel: string,
    cargo: string,
    days: Option<real>,
    profit: Option<real>,
    tce: Option<real>,
    totalVlsfoMt: Option<real>,
    totalMgoMt: Option<real>,
    vlsfoPrice: Option<real>,
    mgoPrice: Option<real>,
    speedKnots: Option<real>)

  /** The record is the assignment of `vessel` to `cargo`. */
  predicate SameKey(a: VoyageRecord, vessel: string, cargo: string) {
    a.vessel == vessel && a.cargo == cargo
  }

  function Max(a: real, b: real): (m: real)
    ensures m >= a && m >= b && (m == a || m == b)
  {
    if a >= b then a else b
  }

  function Abs(x: real): (a: real)
    ensures a >= 0.0 && (a == x || a == -x)
  {
    if x >= 0.0 then x else -x
  }
}
