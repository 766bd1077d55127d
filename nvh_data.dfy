/** Data nodes of the NVH (noise, vibration, harshness) module: spectra,
    short-time spectra, order lists and order slices, and the index and mask
    rules their methods apply. Frequencies are reals; spectral samples are of a
    type parameter `T` (complex in the source) with a caller-supplied zero and
    magnitude. */
module NvhData {
  import opened Wrappers
  import opened Python

  // ---------------------------------------------------------------------------
  // Spectra

  /** A spectrum: sample `y[i]` belongs to frequency `i * df`. */
  datatype FreqDomainData<T> = FreqDomainData(name: Option<string>, y: seq<T>, df: real, yUnit: string)

  /** The frequency of bin `i`. */
  function Freq(i: nat, df: real): real
  {
    i as real * df
  }

  /** Number of frequency lines of a spectrum: one per sample. */
  function SpectrumLines<T>(s: FreqDomainData<T>): (n: nat)
    ensures n == |X(s)|
  {
    |s.y|
  }

  /** The frequency axis of a spectrum, one point per sample. */
  function X<T>(s: FreqDomainData<T>): (x: seq<real>)
    ensures |x| == |s.y|
    ensures forall i :: 0 <= i < |x| ==> x[i] == Freq(i, s.df)
  {
    seq(|s.y|, i requires 0 <= i => Freq(i, s.df))
  }

  ghost predicate Ascending(xs: seq<real>)
  {
    forall i, j :: 0 <= i <= j < |xs| ==> xs[i] <= xs[j]
  }

  /** With a non-negative resolution the frequency axis never decreases. */
  lemma {:induction false} XAscending<T>(s: FreqDomainData<T>)
    requires s.df >= 0.0
    ensures Ascending(X(s))
  {
    var x := X(s);
    forall i, j | 0 <= i <= j < |x| ensures x[i] <= x[j] {
      assert x[j] - x[i] == (j - i) as real * s.df;
    }
  }

  // ---------------------------------------------------------------------------
  // Removing and keeping frequency bands

  /** A closed frequency band `[lo, hi]`, given as `(ffrom, fto)`. */
  datatype Band = Band(lo: real, hi: real)

  predicate InBand(f: real, b: Band)
  {
    b.lo <= f <= b.hi
  }

  predicate InAnyBand(f: real, bands: seq<Band>)
  {
    exists k :: 0 <= k < |bands| && InBand(f, bands[k])
  }

  /** The spectrum with every line that falls in some band set to `zero`. */
  function Removed<T>(s: FreqDomainData<T>, bands: seq<Band>, zero: T): FreqDomainData<T>
  {
    FreqDomainData(
      Some(Str(s.name) + "-FiltF"),
      seq(|s.y|, i requires 0 <= i < |s.y| => if InAnyBand(Freq(i, s.df), bands) then zero else s.y[i]),
      s.df, s.yUnit)
  }

  /** The spectrum with every line outside all bands set to `zero`. */
  function Kept<T>(s: FreqDomainData<T>, bands: seq<Band>, zero: T): FreqDomainData<T>
  {
    FreqDomainData(
      Some(Str(s.name) + "-ExtractF"),
      seq(|s.y|, i requires 0 <= i < |s.y| => if InAnyBand(Freq(i, s.df), bands) then s.y[i] else zero),
      s.df, s.yUnit)
  }

  /** `remove_spec`: copies the samples, then zeroes the lines of each band in turn.
      The input spectrum is a value and so is left as it was. */
  method RemoveSpec<T>(s: FreqDomainData<T>, bands: seq<Band>, zero: T) returns (r: FreqDomainData<T>)
    ensures r == Removed(s, bands, zero)
    ensures r.name == Some(Str(s.name) + "-FiltF") && r.df == s.df && r.yUnit == s.yUnit
    ensures |r.y| == |s.y|
    ensures forall i :: 0 <= i < |s.y| ==>
      r.y[i] == if InAnyBand(Freq(i, s.df), bands) then zero else s.y[i]
  {
    var y := new T[|s.y|](i requires 0 <= i < |s.y| => s.y[i]);
    for k := 0 to |bands|
      invariant forall i :: 0 <= i < y.Length ==>
        y[i] == if InAnyBand(Freq(i, s.df), bands[..k]) then zero else s.y[i]
    {
      var band := bands[k];
      forall i | 0 <= i < y.Length && InBand(Freq(i, s.df), band) {
        y[i] := zero;
      }
      InAnyBandStep(bands, k, s.df, y.Length);
    }
    assert bands[..|bands|] == bands;
    r := FreqDomainData(Some(Str(s.name) + "-FiltF"), y[..], s.df, s.yUnit);
  }

  /** `keep_spec`: starts from all-zero samples, then copies back the lines of
      each band in turn. */
  method KeepSpec<T>(s: FreqDomainData<T>, bands: seq<Band>, zero: T) returns (r: FreqDomainData<T>)
    ensures r == Kept(s, bands, zero)
    ensures r.name == Some(Str(s.name) + "-ExtractF") && r.df == s.df && r.yUnit == s.yUnit
    ensures |r.y| == |s.y|
    ensures forall i :: 0 <= i < |s.y| ==>
      r.y[i] == if InAnyBand(Freq(i, s.df), bands) then s.y[i] else zero
  {
    var y := new T[|s.y|](i => zero);
    for k := 0 to |bands|
      invariant forall i :: 0 <= i < y.Length ==>
        y[i] == if InAnyBand(Freq(i, s.df), bands[..k]) then s.y[i] else zero
    {
      var band := bands[k];
      forall i | 0 <= i < y.Length && InBand(Freq(i, s.df), band) {
        y[i] := s.y[i];
      }
      InAnyBandStep(bands, k, s.df, y.Length);
    }
    assert bands[..|bands|] == bands;
    r := FreqDomainData(Some(Str(s.name) + "-ExtractF"), y[..], s.df, s.yUnit);
  }

  /** Taking one more band into account adds exactly that band's lines. */
  lemma {:induction false} InAnyBandStep(bands: seq<Band>, k: nat, df: real, n: nat)
    requires k < |bands|
    ensures forall i :: 0 <= i < n ==>
      (InAnyBand(Freq(i, df), bands[..k + 1]) <==>
       InAnyBand(Freq(i, df), bands[..k]) || InBand(Freq(i, df), bands[k]))
  {
    forall i | 0 <= i < n
      ensures InAnyBand(Freq(i, df), bands[..k + 1]) <==>
              InAnyBand(Freq(i, df), bands[..k]) || InBand(Freq(i, df), bands[k])
    {
      InAnyBandConcat(Freq(i, df), bands[..k], [bands[k]]);
      assert bands[..k] + [bands[k]] == bands[..k + 1];
    }
  }

  /** A frequency lies in some band of `b1 + b2` iff it lies in some band of `b1` or of `b2`. */
  lemma {:induction false} InAnyBandConcat(f: real, b1: seq<Band>, b2: seq<Band>)
    ensures InAnyBand(f, b1 + b2) <==> InAnyBand(f, b1) || InAnyBand(f, b2)
  {
    if InAnyBand(f, b1 + b2) {
      var k :| 0 <= k < |b1 + b2| && InBand(f, (b1 + b2)[k]);
      if k < |b1| {
        assert InBand(f, b1[k]);
      } else {
        assert InBand(f, b2[k - |b1|]);
      }
    }
    if InAnyBand(f, b1) {
      var k :| 0 <= k < |b1| && InBand(f, b1[k]);
      assert (b1 + b2)[k] == b1[k];
    }
    if InAnyBand(f, b2) {
      var k :| 0 <= k < |b2| && InBand(f, b2[k]);
      assert (b1 + b2)[|b1| + k] == b2[k];
    }
  }

  /** Removing bands in two passes zeroes the same lines as removing them all
      at once, so neither the order of the bands nor the way they are grouped
      into filter steps matters. */
  lemma {:induction false} RemovedComposes<T>(s: FreqDomainData<T>, b1: seq<Band>, b2: seq<Band>, zero: T)
    ensures Removed(Removed(s, b1, zero), b2, zero).y == Removed(s, b1 + b2, zero).y
    ensures Removed(s, b1 + b2, zero).y == Removed(s, b2 + b1, zero).y
  {
    var once := Removed(s, b1 + b2, zero).y;
    var twice := Removed(Removed(s, b1, zero), b2, zero).y;
    var swapped := Removed(s, b2 + b1, zero).y;
    forall i | 0 <= i < |s.y| ensures twice[i] == once[i] && swapped[i] == once[i] {
      InAnyBandConcat(Freq(i, s.df), b1, b2);
      InAnyBandConcat(Freq(i, s.df), b2, b1);
    }
  }

  /** Keeping `b1` and then `b2` keeps exactly the lines that lie both in some
      band of `b1` and in some band of `b2`. */
  lemma {:induction false} KeptComposes<T>(s: FreqDomainData<T>, b1: seq<Band>, b2: seq<Band>, zero: T)
    ensures |Kept(Kept(s, b1, zero), b2, zero).y| == |s.y|
    ensures forall i :: 0 <= i < |s.y| ==>
      Kept(Kept(s, b1, zero), b2, zero).y[i] ==
        if InAnyBand(Freq(i, s.df), b1) && InAnyBand(Freq(i, s.df), b2) then s.y[i] else zero
  {
  }

  /** Removing and keeping the same bands split every line between them: one
      result holds the original sample and the other holds zero. */
  lemma {:induction false} RemoveKeepPartition<T>(s: FreqDomainData<T>, bands: seq<Band>, zero: T, i: nat)
    requires i < |s.y|
    ensures |Removed(s, bands, zero).y| == |Kept(s, bands, zero).y| == |s.y|
    ensures (Removed(s, bands, zero).y[i], Kept(s, bands, zero).y[i]) ==
      if InAnyBand(Freq(i, s.df), bands) then (zero, s.y[i]) else (s.y[i], zero)
  {
  }

  // ---------------------------------------------------------------------------
  // Peak search near given frequencies

  /** numpy's `searchsorted(xs, f)`: on an ascending axis, the first index whose
      point is not below `f` (so the number of points strictly below `f`). */
  function SearchSorted(xs: seq<real>, f: real): (i: nat)
    ensures i <= |xs|
    ensures forall j :: 0 <= j < i ==> xs[j] < f
    ensures i < |xs| ==> f <= xs[i]
  {
    if xs == [] || f <= xs[0] then 0 else 1 + SearchSorted(xs[1..], f)
  }

  /** On an ascending axis, `SearchSorted` splits the points into those below `f`
      and those at or above it. */
  lemma {:induction false} SearchSortedSplits(xs: seq<real>, f: real)
    requires Ascending(xs)
    ensures forall j :: 0 <= j < SearchSorted(xs, f) ==> xs[j] < f
    ensures forall j :: SearchSorted(xs, f) <= j < |xs| ==> f <= xs[j]
  {
    var i := SearchSorted(xs, f);
    forall j | i <= j < |xs| ensures f <= xs[j] {
      assert xs[i] <= xs[j];
    }
  }

  /** The magnitudes of a run of samples. */
  function Mags<T>(ys: seq<T>, mag: T -> real): (m: seq<real>)
    ensures |m| == |ys|
    ensures forall i :: 0 <= i < |ys| ==> m[i] == mag(ys[i])
  {
    seq(|ys|, i requires 0 <= i < |ys| => mag(ys[i]))
  }

  /** numpy's `argmax`: the first index holding the largest value. */
  function FirstArgMax(m: seq<real>): (k: nat)
    requires |m| > 0
    ensures k < |m|
    ensures forall j :: 0 <= j < |m| ==> m[j] <= m[k]
    ensures forall j :: 0 <= j < k ==> m[j] < m[k]
  {
    if |m| == 1 then 0
    else
      var k := FirstArgMax(m[..|m| - 1]);
      if m[k] < m[|m| - 1] then |m| - 1 else k
  }

  /** The lines searched around `f`: the Python slice `[max(i - lines, 0) : i + lines]`
      of the spectrum, where `i` is the search-sorted position of `f`. */
  function PeakWindow<T>(s: FreqDomainData<T>, f: real, lines: int): (w: (nat, nat))
    ensures w.0 <= w.1 <= |s.y|
  {
    var i := SearchSorted(X(s), f);
    SliceBounds(|s.y|, Max(i - lines, 0), i + lines)
  }

  /** The first index in `[lo, hi)` whose sample has the largest magnitude there. */
  function WindowArgMax<T>(ys: seq<T>, lo: nat, hi: nat, mag: T -> real): (k: nat)
    requires lo < hi <= |ys|
    ensures lo <= k < hi
    ensures forall j :: lo <= j < hi ==> mag(ys[j]) <= mag(ys[k])
    ensures forall j :: lo <= j < k ==> mag(ys[j]) < mag(ys[k])
  {
    var m := Mags(ys[lo..hi], mag);
    assert forall j :: lo <= j < hi ==> m[j - lo] == mag(ys[j]);
    lo + FirstArgMax(m)
  }

  /** The index of the peak in a non-empty window. */
  function PeakIndex<T>(s: FreqDomainData<T>, f: real, lines: int, mag: T -> real): (k: nat)
    requires PeakWindow(s, f, lines).0 < PeakWindow(s, f, lines).1
    ensures var w := PeakWindow(s, f, lines);
      && w.0 <= k < w.1
      && (forall j :: w.0 <= j < w.1 ==> mag(s.y[j]) <= mag(s.y[k]))
      && (forall j :: w.0 <= j < k ==> mag(s.y[j]) < mag(s.y[k]))
  {
    var w := PeakWindow(s, f, lines);
    WindowArgMax(s.y, w.0, w.1, mag)
  }

  /** The peak found near one frequency: `None` for an empty window, otherwise the
      frequency and sample of the first line of largest magnitude in the window. */
  function PeakAt<T>(s: FreqDomainData<T>, f: real, lines: int, mag: T -> real): (r: Option<(real, T)>)
    ensures r.None? <==> PeakWindow(s, f, lines).0 == PeakWindow(s, f, lines).1
    ensures r.Some? ==>
      var k := PeakIndex(s, f, lines, mag);
      r.value == (Freq(k, s.df), s.y[k])
  {
    var (lo, hi) := PeakWindow(s, f, lines);
    if lo == hi then None
    else
      var k := PeakIndex(s, f, lines, mag);
      Some((X(s)[k], s.y[k]))
  }

  /** On an axis with a non-negative line spacing, `searchsorted` counts the
      lines below `f`: every line before the index is below it, every line
      from the index on is at or above it. */
  lemma {:induction false} SearchSortedOnAxis<T>(s: FreqDomainData<T>, f: real)
    requires s.df >= 0.0
    ensures var i := SearchSorted(X(s), f);
      && i <= |s.y|
      && (forall j :: 0 <= j < i ==> Freq(j, s.df) < f)
      && (forall j :: i <= j < |s.y| ==> f <= Freq(j, s.df))
  {
    XAscending(s);
    SearchSortedSplits(X(s), f);
  }

  /** For a non-negative `lines` the window is the clipped range
      `[max(i - lines, 0), min(i + lines, n))`, with `i` the number of axis
      points below `f`; it is empty (and the search yields `None`) exactly when
      that range is. */
  lemma {:induction false} PeakWindowClipped<T>(s: FreqDomainData<T>, f: real, lines: int)
    requires lines >= 0
    ensures var i := SearchSorted(X(s), f);
      var lo, hi := Max(i - lines, 0), Min(i + lines, |s.y|);
      && (PeakWindow(s, f, lines).0 == PeakWindow(s, f, lines).1 <==> hi <= lo)
      && (lo < hi ==> PeakWindow(s, f, lines) == (lo, hi))
  {
    ClippedSlice(|s.y|, SearchSorted(X(s), f), lines);
  }

  /** Slicing `[max(i - lines, 0) : i + lines]` of `n` items around an index
      `i <= n` clips only at the top. */
  lemma {:induction false} ClippedSlice(n: nat, i: int, lines: int)
    requires 0 <= i <= n && lines >= 0
    ensures var lo, hi := Max(i - lines, 0), Min(i + lines, n);
      SliceBounds(n, Max(i - lines, 0), i + lines) == (lo, Max(lo, hi))
  {
    var lo, hi := Max(i - lines, 0), Min(i + lines, n);
    assert SliceIndex(n, lo) == lo;
    assert SliceIndex(n, i + lines) == hi;
  }

  /** How many lines `get_amplitudes_at` searches on each side: a given `width`
      overrides `lines` with `ceil(width / df)`, which divides by zero when `df` is zero. */
  function SearchLines(lines: int, width: Option<real>, df: real): (r: Result<int, PyError>)
    ensures width.None? ==> r == Ok(lines)
    ensures width.Some? && df != 0.0 ==> r.Ok? && r.value as real >= width.value / df > r.value as real - 1.0
    ensures r.Err? <==> width.Some? && df == 0.0
  {
    match width
    case None => Ok(lines)
    case Some(w) => if df == 0.0 then Err(ZeroDivisionError) else Ok(Ceil(w / df))
  }

  /** `get_amplitudes_at`: one peak search per requested frequency, in request order. */
  method GetAmplitudesAt<T>(s: FreqDomainData<T>, frequencies: seq<real>, lines: int, width: Option<real>,
                            mag: T -> real)
    returns (r: Result<seq<Option<(real, T)>>, PyError>)
    requires s.df >= 0.0
    ensures r.Err? <==> width.Some? && s.df == 0.0
    ensures r.Ok? ==> |r.value| == |frequencies|
    ensures r.Ok? ==> forall j :: 0 <= j < |frequencies| ==>
      r.value[j] == PeakAt(s, frequencies[j], SearchLines(lines, width, s.df).value, mag)
  {
    var n := lines;
    if width.Some? {
      if s.df == 0.0 {
        return Err(ZeroDivisionError);
      }
      n := Ceil(width.value / s.df);
    }
    var fas: seq<Option<(real, T)>> := [];
    for j := 0 to |frequencies|
      invariant |fas| == j
      invariant forall t :: 0 <= t < j ==> fas[t] == PeakAt(s, frequencies[t], n, mag)
    {
      fas := fas + [PeakAt(s, frequencies[j], n, mag)];
    }
    r := Ok(fas);
  }

  // ---------------------------------------------------------------------------
  // Short-time spectra

  /** A stack of spectra (one per batch) over reference bins. Only the shape of
      the sample array `z` matters to the rules modelled here. */
  datatype FreqIntermediateData = FreqIntermediateData(name: Option<string>, shape: seq<nat>, df: real, zUnit: string)

  /** The number of samples an array of this shape holds. */
  function Size(shape: seq<nat>): nat
  {
    if shape == [] then 1 else shape[0] * Size(shape[1..])
  }

  /** `_bl`: (batches, lines) read from the shape of `z`. A scalar counts as no
      data, a vector as one batch, a matrix as batches by lines; a shape with more
      than two axes cannot be unpacked into two names. */
  function BatchesLines(shape: seq<nat>): (r: Result<(nat, nat), PyError>)
    ensures r.Ok? <==> |shape| <= 2
    ensures r.Ok? && shape != [] ==> r.value.1 == shape[|shape| - 1]
    ensures r.Ok? && |shape| == 2 ==> r.value.0 == shape[0]
    ensures r.Ok? && |shape| < 2 ==> r.value.0 == |shape|
  {
    if |shape| == 0 then Ok((0, 0))
    else if |shape| == 1 then Ok((1, shape[0]))
    else if |shape| == 2 then Ok((shape[0], shape[1]))
    else Err(ValueError("too many values to unpack (expected 2)"))
  }

  /** `lines`: the length of the last axis, 0 for a scalar. */
  function IntermediateLines(d: FreqIntermediateData): (r: Result<nat, PyError>)
    ensures r.Ok? <==> |d.shape| <= 2
    ensures r.Ok? ==> r.value == if d.shape == [] then 0 else d.shape[|d.shape| - 1]
  {
    match BatchesLines(d.shape)
    case Ok(bl) => Ok(bl.1)
    case Err(e) => Err(e)
  }

  /** `batches`: the length of the first of two axes, 1 for a vector, 0 for a scalar. */
  function IntermediateBatches(d: FreqIntermediateData): (r: Result<nat, PyError>)
    ensures r.Ok? <==> |d.shape| <= 2
    ensures r.Ok? ==> r.value == if |d.shape| == 2 then d.shape[0] else |d.shape|
  {
    match BatchesLines(d.shape)
    case Ok(bl) => Ok(bl.0)
    case Err(e) => Err(e)
  }

  /** The rule fails only for arrays of more than two axes; for one or two axes
      batches times lines counts every sample, while a scalar reports no
      batches and no lines although it holds one sample. `lines` and `batches`
      are its two halves and fail with it. */
  lemma {:induction false} BatchesLinesCoverSamples(d: FreqIntermediateData)
    ensures BatchesLines(d.shape).Ok? <==> |d.shape| <= 2
    ensures 1 <= |d.shape| <= 2 ==>
      BatchesLines(d.shape).value.0 * BatchesLines(d.shape).value.1 == Size(d.shape)
    ensures |d.shape| == 0 ==> BatchesLines(d.shape) == Ok((0, 0)) && Size(d.shape) == 1
    ensures |d.shape| == 1 ==> BatchesLines(d.shape) == Ok((1, d.shape[0]))
    ensures |d.shape| == 2 ==> BatchesLines(d.shape) == Ok((d.shape[0], d.shape[1]))
    ensures IntermediateLines(d).Ok? == IntermediateBatches(d).Ok? == BatchesLines(d.shape).Ok?
    ensures BatchesLines(d.shape).Ok? ==>
      IntermediateBatches(d).value == BatchesLines(d.shape).value.0 &&
      IntermediateLines(d).value == BatchesLines(d.shape).value.1
  {
    if |d.shape| == 2 {
      assert d.shape[1..][1..] == [];
      assert Size(d.shape[1..]) == d.shape[1];
    } else if |d.shape| == 1 {
      assert d.shape[1..] == [];
    }
  }

  // ---------------------------------------------------------------------------
  // Orders and order slices

  /** An order: its label, the ratio between frequency and reference speed, and
      the ratio shown to the user. */
  datatype OrderInfo = OrderInfo(name: string, value: real, dispValue: real)

  datatype OrderList = OrderList(name: Option<string>, orders: seq<OrderInfo>)

  /** The peaks along one order line: frequency, reference value and amplitude per point. */
  datatype SliceData<A> = SliceData(f: seq<real>, ref: seq<real>, amplitude: seq<A>)

  /** The order slices of one short-time spectrum, keyed by order. */
  datatype OrderSliceData = OrderSliceData(name: Option<string>, slices: map<OrderInfo, SliceData<real>>,
                                           refSource: Option<FreqIntermediateData>)

  /** Pairs `keys[i]` with `vals[i]` for every key. */
  function Zip<A>(keys: seq<real>, vals: seq<A>): (ps: seq<(real, A)>)
    requires |keys| <= |vals|
    ensures |ps| == |keys|
    ensures forall i :: 0 <= i < |keys| ==> ps[i] == (keys[i], vals[i])
  {
    seq(|keys|, i requires 0 <= i < |keys| => (keys[i], vals[i]))
  }

  function Firsts<A>(ps: seq<(real, A)>): (ks: seq<real>)
    ensures |ks| == |ps| && forall i :: 0 <= i < |ps| ==> ks[i] == ps[i].0
  {
    seq(|ps|, i requires 0 <= i < |ps| => ps[i].0)
  }

  function Seconds<A>(ps: seq<(real, A)>): (vs: seq<A>)
    ensures |vs| == |ps| && forall i :: 0 <= i < |ps| ==> vs[i] == ps[i].1
  {
    seq(|ps|, i requires 0 <= i < |ps| => ps[i].1)
  }

  ghost predicate SortedByKey<A>(ps: seq<(real, A)>)
  {
    forall i, j :: 0 <= i < j < |ps| ==> ps[i].0 <= ps[j].0
  }

  /** Places `p` before the first pair whose key is not smaller. */
  function Insert<A>(p: (real, A), ps: seq<(real, A)>): seq<(real, A)>
  {
    if ps == [] || p.0 <= ps[0].0 then [p] + ps else [ps[0]] + Insert(p, ps[1..])
  }

  /** Orders pairs by key (insertion sort). */
  function SortByKey<A>(ps: seq<(real, A)>): seq<(real, A)>
  {
    if ps == [] then [] else Insert(ps[0], SortByKey(ps[1..]))
  }

  lemma {:induction false} InsertSortedPermutation<A>(p: (real, A), ps: seq<(real, A)>)
    requires SortedByKey(ps)
    ensures SortedByKey(Insert(p, ps))
    ensures multiset(Insert(p, ps)) == multiset(ps) + multiset{p}
  {
    InsertSorted(p, ps);
    InsertPermutation(p, ps);
  }

  lemma {:induction false} InsertSorted<A>(p: (real, A), ps: seq<(real, A)>)
    requires SortedByKey(ps)
    ensures SortedByKey(Insert(p, ps))
  {
    if ps == [] || p.0 <= ps[0].0 {
      assert Insert(p, ps) == [p] + ps;
    } else {
      var rest := Insert(p, ps[1..]);
      InsertSorted(p, ps[1..]);
      InsertBounded(p, ps[1..], ps[0].0);
      assert Insert(p, ps) == [ps[0]] + rest;
    }
  }

  lemma {:induction false} InsertPermutation<A>(p: (real, A), ps: seq<(real, A)>)
    ensures multiset(Insert(p, ps)) == multiset(ps) + multiset{p}
  {
    if ps == [] || p.0 <= ps[0].0 {
      assert Insert(p, ps) == [p] + ps;
    } else {
      InsertPermutation(p, ps[1..]);
      assert ps == [ps[0]] + ps[1..];
      assert Insert(p, ps) == [ps[0]] + Insert(p, ps[1..]);
    }
  }

  /** Inserting a pair at or above a bound into pairs at or above it keeps every key at or above it. */
  lemma {:induction false} InsertBounded<A>(p: (real, A), ps: seq<(real, A)>, b: real)
    requires b <= p.0
    requires forall j :: 0 <= j < |ps| ==> b <= ps[j].0
    ensures |Insert(p, ps)| == |ps| + 1
    ensures forall j :: 0 <= j < |Insert(p, ps)| ==> b <= Insert(p, ps)[j].0
  {
    if ps != [] && ps[0].0 < p.0 {
      InsertBounded(p, ps[1..], b);
    }
  }

  lemma {:induction false} SortByKeySortedPermutation<A>(ps: seq<(real, A)>)
    ensures SortedByKey(SortByKey(ps))
    ensures multiset(SortByKey(ps)) == multiset(ps)
  {
    if ps != [] {
      SortByKeySortedPermutation(ps[1..]);
      InsertSortedPermutation(ps[0], SortByKey(ps[1..]));
      assert ps == [ps[0]] + ps[1..];
    }
  }

  /** Reorders `keys` ascending and `amps` by the same permutation (`x[argsort(keys)]`).
      Indexing the amplitudes with a permutation of the keys' indices fails
      when there are fewer amplitudes than keys. */
  function AlignBy<A>(keys: seq<real>, amps: seq<A>): (r: Result<(seq<real>, seq<A>), PyError>)
    ensures r.Err? <==> |amps| < |keys|
    ensures r.Ok? ==>
      && |r.value.0| == |r.value.1| == |keys|
      && (forall i, j :: 0 <= i < j < |keys| ==> r.value.0[i] <= r.value.0[j])
      && multiset(Zip(r.value.0, r.value.1)) == multiset(Zip(keys, amps))
  {
    if |amps| < |keys| then Err(IndexError)
    else
      var ps := SortByKey(Zip(keys, amps));
      SortByKeySortedPermutation(Zip(keys, amps));
      assert |ps| == |keys| by {
        assert |multiset(ps)| == |multiset(Zip(keys, amps))|;
      }
      assert Zip(Firsts(ps), Seconds(ps)) == ps;
      Ok((Firsts(ps), Seconds(ps)))
  }

  /** `get_aligned_f`: the slice ordered by frequency. */
  function GetAlignedF<A>(d: SliceData<A>): (r: Result<(seq<real>, seq<A>), PyError>)
    ensures r.Err? <==> |d.amplitude| < |d.f|
    ensures r.Ok? ==>
      && |r.value.0| == |r.value.1| == |d.f|
      && (forall i, j :: 0 <= i < j < |d.f| ==> r.value.0[i] <= r.value.0[j])
      && multiset(Zip(r.value.0, r.value.1)) == multiset(Zip(d.f, d.amplitude))
  {
    AlignBy(d.f, d.amplitude)
  }

  /** `get_aligned_ref`: the slice ordered by reference value. */
  function GetAlignedRef<A>(d: SliceData<A>): (r: Result<(seq<real>, seq<A>), PyError>)
    ensures r.Err? <==> |d.amplitude| < |d.ref|
    ensures r.Ok? ==>
      && |r.value.0| == |r.value.1| == |d.ref|
      && (forall i, j :: 0 <= i < j < |d.ref| ==> r.value.0[i] <= r.value.0[j])
      && multiset(Zip(r.value.0, r.value.1)) == multiset(Zip(d.ref, d.amplitude))
  {
    AlignBy(d.ref, d.amplitude)
  }
}
