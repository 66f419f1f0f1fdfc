/** Python-level values the calculator works with: optional values, the
    exceptions the scripts can raise, spreadsheet/JSON cells that may be
    null or NaN, and the first-match search every table lookup uses. */
module PyValues {

  datatype Option<+T> = None | Some(value: T)

  /** The Python exception a lookup raises when it cannot proceed. */
  datatype Failure =
    | IndexError    // `list[-1]` or `.iloc[0]` on an empty selection
    | KeyError      // `dict[key]` or `series[key]` for an absent key
    | UnboundLocal  // a local read before any branch assigned it

  datatype Result<+T> = Ok(value: T) | Err(error: Failure)

  /** A numeric cell as loaded from JSON or a spreadsheet. */
  datatype Value = Null | NaN | Num(v: real)

  /** `nan_to_zero`: None and NaN become 0, a number stays itself. */
  function NanToZero(x: Value): (r: real)
    ensures x.Num? ==> r == x.v
    ensures !x.Num? ==> r == 0.0
  {
    match x
    case Num(v) => v
    case _ => 0.0
  }

  /** `row.get(key, default)` on a record where `field` is None when the
      key is absent. */
  function Get(field: Option<Value>, default: real): (v: Value)
    ensures field.None? ==> v == Num(default)
    ensures field.Some? ==> v == field.value
  {
    match field
    case None => Num(default)
    case Some(x) => x
  }

  function Min(a: real, b: real): real { if a <= b then a else b }

  function Max(a: real, b: real): real { if a >= b then a else b }

  /** Index of the first element satisfying `p`, or `|s|` when none does. */
  function FirstIndex<T>(s: seq<T>, p: T -> bool): (k: nat)
    ensures k <= |s|
    ensures forall j :: 0 <= j < k ==> !p(s[j])
    ensures k < |s| ==> p(s[k])
  {
    if s == [] then 0
    else if p(s[0]) then 0
    else 1 + FirstIndex(s[1..], p)
  }

  /** The characterisation of FirstIndex determines it. */
  lemma FirstIndexUnique<T>(s: seq<T>, p: T -> bool, i: nat)
    requires i <= |s|
    requires forall j :: 0 <= j < i ==> !p(s[j])
    requires i < |s| ==> p(s[i])
    ensures FirstIndex(s, p) == i
  {
  }

  /** Scaling by a non-negative factor keeps the order. */
  lemma MulMonotone(a: real, b: real, r: real)
    requires a <= b && r >= 0.0
    ensures a * r <= b * r
    ensures r * a <= r * b
  {
  }

  lemma MulNonNegative(a: real, b: real)
    ensures 0.0 <= a && 0.0 <= b ==> 0.0 <= a * b && 0.0 <= b * a
  {
    if 0.0 <= a && 0.0 <= b {
      MulMonotone(0.0, a, b);
    }
  }

  lemma Distribute(a: real, b: real, c: real)
    ensures a * b + a * c == a * (b + c)
  {
  }

  lemma SumMonotone(a1: real, a2: real, b1: real, b2: real)
    requires a1 <= a2 && b1 <= b2
    ensures a1 + b1 <= a2 + b2
  {
  }
}
