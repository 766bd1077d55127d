/** The few Python and numpy semantics the modelled code depends on. */
module Python {
  import opened Wrappers

  /** The exceptions the modelled code can raise. */
  datatype PyError =
    | ZeroDivisionError        // float division by zero
    | IndexError               // fancy indexing past the end of an array
    | ValueError(msg: string)  // e.g. a negative shift count, a tuple of the wrong arity

  /** `f"{x}"` of an optional string: Python renders a missing value as `None`. */
  function Str(s: Option<string>): string
  {
    match s
    case Some(v) => v
    case None => "None"
  }

  /** `int(np.ceil(r))`: the least integer not below `r`. */
  function Ceil(r: real): (c: int)
    ensures r <= c as real < r + 1.0
  {
    -((-r).Floor)
  }

  /** `int(r)` on a float truncates toward zero (unlike Dafny's `Floor`). */
  function Trunc(r: real): (t: int)
    ensures 0.0 <= r ==> 0 <= t && t as real <= r < t as real + 1.0
    ensures r < 0.0 ==> t <= 0 && t as real - 1.0 < r <= t as real
  {
    if r >= 0.0 then r.Floor else -((-r).Floor)
  }

  function Max(a: int, b: int): int { if a < b then b else a }

  function Min(a: int, b: int): int { if a < b then a else b }

  /** Where a slice bound `i` lands in a sequence of length `n`: a negative bound
      counts from the end, and every bound is clipped to `[0, n]`. */
  function SliceIndex(n: nat, i: int): (k: nat)
    ensures k <= n
    ensures 0 <= i ==> k == Min(i, n)
    ensures i < 0 ==> k == Max(i + n, 0)
  {
    if i < 0 then (if i + n < 0 then 0 else i + n) else if i < n then i else n
  }

  /** The index range `[lo, hi)` that `s[a:b]` selects from a sequence of length `n`. */
  function SliceBounds(n: nat, a: int, b: int): (r: (nat, nat))
    ensures r.0 <= r.1 <= n
    ensures r.0 == SliceIndex(n, a)
    ensures r.1 == Max(SliceIndex(n, a), SliceIndex(n, b))
  {
    var lo, hi := SliceIndex(n, a), SliceIndex(n, b);
    if lo < hi then (lo, hi) else (lo, lo)
  }
}
