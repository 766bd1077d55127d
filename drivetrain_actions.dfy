/** Drivetrain actions: orders of a gearbox, and the two interactive views that
    mark a gearbox's characteristic frequencies on a spectrum or a time plot.
    The gearbox's frequency table (`get_freqs_labels_at`), the mean speed, and
    the evaluation of user format lines are inputs here, not computed. */
module DrivetrainActions {
  import opened Wrappers
  import opened Python
  import opened Bits
  import opened NvhData

  /** A gearbox definition; only its name is used by the modelled actions. */
  datatype GearboxDefinition = GearboxDefinition(name: Option<string>)

  /** A characteristic frequency and its label, as the gearbox lists them. */
  type FreqLabel = (real, string)

  // ---------------------------------------------------------------------------
  // Orders of a gearbox

  /** `CreateOrdersOfGearbox`: one order per characteristic frequency at the
      reference speed 60, in the gearbox's order; the ratio is the frequency over
      60 and the display ratio the frequency itself. */
  method CreateOrdersOfGearbox(gearbox: GearboxDefinition, refOutput: bool,
                               freqsLabelsAt: (real, bool) -> seq<FreqLabel>)
    returns (ol: OrderList)
    ensures ol.name == Some("Orders-" + Str(gearbox.name))
    ensures |ol.orders| == |freqsLabelsAt(60.0, refOutput)|
    ensures forall i :: 0 <= i < |ol.orders| ==>
      var fl := freqsLabelsAt(60.0, refOutput)[i];
      ol.orders[i].name == fl.1 && ol.orders[i].dispValue == fl.0 &&
      ol.orders[i].value * 60.0 == ol.orders[i].dispValue
  {
    var lines := freqsLabelsAt(60.0, refOutput);
    var orders: seq<OrderInfo> := [];
    for k := 0 to |lines|
      invariant |orders| == k
      invariant forall i :: 0 <= i < k ==> orders[i] == OrderInfo(lines[i].1, lines[i].0 / 60.0, lines[i].0)
    {
      var freq, caption := lines[k].0, lines[k].1;
      orders := orders + [OrderInfo(caption, freq / 60.0, freq)];
    }
    ol := OrderList(Some("Orders-" + Str(gearbox.name)), orders);
  }

  // ---------------------------------------------------------------------------
  // Stage selection bitmask

  /** `bits |= 1 << (stage - 1)` over the listed stages, failing at the first
      stage whose shift count is negative. */
  function StageMask(stages: seq<int>): (r: Result<nat, PyError>)
    ensures r.Err? ==> r.error == ValueError("negative shift count")
    ensures r.Ok? ==> forall k :: 0 <= k < |stages| ==> stages[k] > 0
  {
    if stages == [] then Ok(0)
    else
      match StageMask(stages[..|stages| - 1])
      case Err(e) => Err(e)
      case Ok(bits) =>
        var stage := stages[|stages| - 1];
        if stage <= 0 then Err(ValueError("negative shift count"))
        else Ok(Or(bits, Pow2(stage - 1)))
  }

  /** The accumulation loop of both views. */
  method StageBitmask(stages: seq<int>) returns (r: Result<nat, PyError>)
    ensures r == StageMask(stages)
  {
    var bits := 0;
    for k := 0 to |stages|
      invariant StageMask(stages[..k]) == Ok(bits)
    {
      assert stages[..k + 1][..k] == stages[..k];
      if stages[k] - 1 < 0 {
        StageMaskErrSticks(stages, k + 1);
        return Err(ValueError("negative shift count"));
      }
      bits := Or(bits, Pow2(stages[k] - 1));
    }
    assert stages[..|stages|] == stages;
    r := Ok(bits);
  }

  /** Once the mask of a prefix has failed, the whole mask fails with the same error. */
  lemma {:induction false} StageMaskErrSticks(stages: seq<int>, k: nat)
    requires k <= |stages| && StageMask(stages[..k]).Err?
    ensures StageMask(stages) == StageMask(stages[..k])
    decreases |stages| - k
  {
    if k < |stages| {
      assert stages[..k + 1][..k] == stages[..k];
      StageMaskErrSticks(stages, k + 1);
    } else {
      assert stages[..k] == stages;
    }
  }

  /** The mask fails exactly when some listed stage is zero or negative. */
  lemma {:induction false} StageMaskFails(stages: seq<int>)
    ensures StageMask(stages).Err? <==> exists k :: 0 <= k < |stages| && stages[k] <= 0
  {
    if stages != [] {
      var init := stages[..|stages| - 1];
      StageMaskFails(init);
      if exists k :: 0 <= k < |init| && init[k] <= 0 {
        var k :| 0 <= k < |init| && init[k] <= 0;
        assert stages[k] <= 0;
      }
      if exists k :: 0 <= k < |stages| && stages[k] <= 0 {
        var k :| 0 <= k < |stages| && stages[k] <= 0;
        if k < |init| {
          assert init[k] <= 0;
        }
      }
    }
  }

  /** Bit `j` of the mask is set exactly when stage `j + 1` is listed. */
  lemma {:induction false} StageMaskBits(stages: seq<int>, j: nat)
    requires StageMask(stages).Ok?
    ensures TestBit(StageMask(stages).value, j) <==> (j + 1) in stages
  {
    if stages == [] {
      ZeroHasNoBits(j);
    } else {
      var init := stages[..|stages| - 1];
      var stage := stages[|stages| - 1];
      assert stages == init + [stage];
      assert StageMask(init).Ok? && stage > 0;
      assert StageMask(stages).value == Or(StageMask(init).value, Pow2(stage - 1));
      StageMaskBits(init, j);
      OrBits(StageMask(init).value, Pow2(stage - 1), j);
      Pow2Bits(stage - 1, j);
      assert (j + 1) in stages <==> (j + 1) in init || j + 1 == stage;
    }
  }

  /** Only which stages are listed matters: reordering or repeating them gives the same mask. */
  lemma {:induction false} StageMaskSameStages(s1: seq<int>, s2: seq<int>)
    requires forall k :: k in s1 <==> k in s2
    ensures StageMask(s1).Err? <==> StageMask(s2).Err?
    ensures StageMask(s1).Ok? ==> StageMask(s1) == StageMask(s2)
  {
    StageMaskFails(s1);
    StageMaskFails(s2);
    if StageMask(s1).Err? {
      var k :| 0 <= k < |s1| && s1[k] <= 0;
      assert s1[k] in s2;
      var t :| 0 <= t < |s2| && s2[t] == s1[k];
    }
    if StageMask(s2).Err? {
      var k :| 0 <= k < |s2| && s2[k] <= 0;
      assert s2[k] in s1;
      var t :| 0 <= t < |s1| && s1[t] == s2[k];
    }
    if StageMask(s1).Ok? {
      forall j: nat ensures TestBit(StageMask(s1).value, j) == TestBit(StageMask(s2).value, j) {
        StageMaskBits(s1, j);
        StageMaskBits(s2, j);
      }
      SameBitsSameNumber(StageMask(s1).value, StageMask(s2).value);
    }
  }

  // ---------------------------------------------------------------------------
  // Format lines

  /** `line.split(",", maxsplit=1)`: the text before the first comma, and
      everything after it when there is a comma. */
  function SplitFmtLine(line: string): (r: (string, Option<string>))
    ensures ',' !in r.0
    ensures r.1.None? <==> ',' !in line
    ensures r.1.None? ==> r.0 == line
    ensures r.1.Some? ==> line == r.0 + "," + r.1.value
  {
    if line == [] then ([], None)
    else if line[0] == ',' then ([], Some(line[1..]))
    else
      var (caption, rest) := SplitFmtLine(line[1..]);
      ([line[0]] + caption, rest)
  }

  /** A label and an optional remainder written back as one format line. */
  function JoinFmtLine(caption: string, rest: Option<string>): string
  {
    if rest.Some? then caption + "," + rest.value else caption
  }

  /** A line made of a comma-free head, a comma and a remainder splits into exactly those. */
  lemma {:induction false} SplitAtFirstComma(head: string, rest: string)
    requires ',' !in head
    ensures SplitFmtLine(head + "," + rest) == (head, Some(rest))
  {
    var line := head + "," + rest;
    if head == [] {
      assert line[0] == ',' && line[1..] == rest;
    } else {
      assert head[0] in head;
      assert line[0] == head[0] != ',';
      assert line[1..] == head[1..] + "," + rest;
      SplitAtFirstComma(head[1..], rest);
      assert [head[0]] + head[1..] == head;
    }
  }

  /** Splitting undoes joining whenever the label has no comma. */
  lemma {:induction false} SplitJoin(caption: string, rest: Option<string>)
    requires ',' !in caption
    ensures SplitFmtLine(JoinFmtLine(caption, rest)) == (caption, rest)
  {
    if rest.Some? {
      SplitAtFirstComma(caption, rest.value);
    }
  }

  /** Joining undoes splitting. */
  lemma {:induction false} JoinSplit(line: string)
    ensures JoinFmtLine(SplitFmtLine(line).0, SplitFmtLine(line).1) == line
  {
  }

  /** Where a format line's frequency comes from: the text after the comma, or
      the caption itself as a formula over the gearbox's labels. */
  datatype FreqSource = Given(text: string) | Formula(template: string)

  function ParseFmtLine(line: string): (r: (string, FreqSource))
    ensures r.1.Formula? <==> ',' !in line
    ensures r.1.Formula? ==> r.0 == line && r.1.template == line
    ensures r.1.Given? ==> line == r.0 + "," + r.1.text
  {
    var (caption, rest) := SplitFmtLine(line);
    if rest.Some? then (caption, Given(rest.value)) else (caption, Formula(caption))
  }

  // ---------------------------------------------------------------------------
  // Markers

  /** What the views draw: vertical lines up to a height (axes fraction) and labels. */
  datatype Widget = VLine(x: real, ymax: real) | Text(x: real, y: real, text: string)

  /** One frequency to mark, with its label and the height of its marker. */
  datatype Mark = Mark(freq: real, caption: string, height: real)

  /** The frequency offsets drawn: the frequency alone, or on both sides of the start. */
  function DeltaFactors(sideband: bool): (fs: seq<real>)
    ensures |fs| >= 1 && fs[0] == 1.0
    ensures forall f :: f in fs ==> f == 1.0 || f == -1.0
    ensures -1.0 in fs <==> sideband
  {
    if sideband then [1.0, -1.0] else [1.0]
  }

  /** Gearbox frequencies are marked at full height. */
  function GearMarks(lines: seq<FreqLabel>): (ms: seq<Mark>)
    ensures |ms| == |lines|
    ensures forall i :: 0 <= i < |lines| ==> ms[i] == Mark(lines[i].0, lines[i].1, 1.0)
  {
    seq(|lines|, i requires 0 <= i < |lines| => Mark(lines[i].0, lines[i].1, 1.0))
  }

  /** Format lines alternate between two heights so that neighbouring labels do not overlap. */
  function FmtHeight(i: nat): (h: real)
    ensures i % 2 == 0 ==> h == 0.95
    ensures i % 2 == 1 ==> h == 0.90
  {
    0.95 - 0.05 * (i % 2) as real
  }

  /** The marks of the format lines, their frequencies given by `fmtFreq`. */
  function FmtMarks(fmtLines: seq<string>, fmtFreq: FreqSource -> real): (ms: seq<Mark>)
    ensures |ms| == |fmtLines|
    ensures forall i :: 0 <= i < |fmtLines| ==>
      ms[i] == Mark(fmtFreq(ParseFmtLine(fmtLines[i]).1), ParseFmtLine(fmtLines[i]).0, FmtHeight(i))
  {
    seq(|fmtLines|, i requires 0 <= i < |fmtLines| =>
      Mark(fmtFreq(ParseFmtLine(fmtLines[i]).1), ParseFmtLine(fmtLines[i]).0, FmtHeight(i)))
  }

  /** Where a mark is drawn for one factor. */
  function Shift(start: real, freq: real, factor: real): real
  {
    start + freq * factor
  }

  /** The factor 1 draws at the frequency above the start, -1 below it. */
  lemma {:induction false} ShiftSides(start: real, freq: real)
    ensures Shift(start, freq, 1.0) == start + freq
    ensures Shift(start, freq, -1.0) == start - freq
  {
  }

  /** A line and a label for one mark at each factor, in factor order. */
  function FactorMarkers(start: real, m: Mark, factors: seq<real>): seq<Widget>
  {
    if factors == [] then []
    else
      var x := Shift(start, m.freq, factors[|factors| - 1]);
      FactorMarkers(start, m, factors[..|factors| - 1]) + [VLine(x, m.height), Text(x, m.height, m.caption)]
  }

  /** The markers of all marks, mark by mark. */
  function Markers(start: real, marks: seq<Mark>, factors: seq<real>): seq<Widget>
  {
    if marks == [] then []
    else Markers(start, marks[..|marks| - 1], factors) + FactorMarkers(start, marks[|marks| - 1], factors)
  }

  lemma {:induction false} FactorMarkersAt(start: real, m: Mark, factors: seq<real>, c: nat)
    requires c < |factors|
    ensures |FactorMarkers(start, m, factors)| == 2 * |factors|
    ensures FactorMarkers(start, m, factors)[2 * c] == VLine(Shift(start, m.freq, factors[c]), m.height)
    ensures FactorMarkers(start, m, factors)[2 * c + 1] == Text(Shift(start, m.freq, factors[c]), m.height, m.caption)
  {
    var init := factors[..|factors| - 1];
    if c < |factors| - 1 {
      FactorMarkersAt(start, m, init, c);
    } else if |factors| > 1 {
      FactorMarkersAt(start, m, init, 0);
    }
  }

  /** One more factor appends one more line and label. */
  lemma {:induction false} FactorMarkersSnoc(start: real, m: Mark, factors: seq<real>, c: nat)
    requires c < |factors|
    ensures FactorMarkers(start, m, factors[..c + 1]) ==
      FactorMarkers(start, m, factors[..c]) +
      [VLine(Shift(start, m.freq, factors[c]), m.height), Text(Shift(start, m.freq, factors[c]), m.height, m.caption)]
  {
    var fs := factors[..c + 1];
    assert fs[..|fs| - 1] == factors[..c];
    assert fs[|fs| - 1] == factors[c];
  }

  lemma {:induction false} MarkersLength(start: real, marks: seq<Mark>, factors: seq<real>)
    ensures |Markers(start, marks, factors)| == 2 * |factors| * |marks|
  {
    if marks != [] {
      var n := |marks|;
      MarkersLength(start, marks[..n - 1], factors);
      FactorMarkersLength(start, marks[n - 1], factors);
      MulStep(2 * |factors|, n);
    }
  }

  lemma {:induction false} FactorMarkersLength(start: real, m: Mark, factors: seq<real>)
    ensures |FactorMarkers(start, m, factors)| == 2 * |factors|
  {
    if factors != [] {
      FactorMarkersLength(start, m, factors[..|factors| - 1]);
    }
  }

  lemma {:induction false} MulStep(a: int, n: int)
    ensures a * (n - 1) + a == a * n
  {
  }

  /** One more mark appends its markers. */
  lemma {:induction false} MarkersSnoc(start: real, marks: seq<Mark>, factors: seq<real>, k: nat)
    requires k < |marks|
    ensures Markers(start, marks[..k + 1], factors) == Markers(start, marks[..k], factors) + FactorMarkers(start, marks[k], factors)
  {
    assert marks[..k + 1][..k] == marks[..k];
  }

  /** The markers of the first `k` marks come first. */
  lemma {:induction false} MarkersPrefix(start: real, marks: seq<Mark>, factors: seq<real>, k: nat)
    requires k <= |marks|
    ensures Markers(start, marks[..k], factors) <= Markers(start, marks, factors)
    decreases |marks| - k
  {
    if k < |marks| {
      var n := |marks|;
      assert marks[..n - 1][..k] == marks[..k];
      MarkersPrefix(start, marks[..n - 1], factors, k);
    } else {
      assert marks[..k] == marks;
    }
  }

  /** The markers of mark `m` come right after the markers of the marks before it. */
  lemma {:induction false} MarkersAt(start: real, marks: seq<Mark>, factors: seq<real>, m: nat, j: nat)
    requires m < |marks| && j < |FactorMarkers(start, marks[m], factors)|
    ensures var q := |Markers(start, marks[..m], factors)| + j;
      && q < |Markers(start, marks, factors)|
      && Markers(start, marks, factors)[q] == FactorMarkers(start, marks[m], factors)[j]
  {
    var before := Markers(start, marks[..m], factors);
    var here := FactorMarkers(start, marks[m], factors);
    assert Markers(start, marks[..m + 1], factors) == before + here by {
      assert marks[..m + 1][..m] == marks[..m];
    }
    MarkersPrefix(start, marks, factors, m + 1);
    PrefixConcatAt(before, here, Markers(start, marks, factors), j);
  }

  /** An element of the second part of a prefix `a + b` of `all`. */
  lemma {:induction false} PrefixConcatAt<X>(a: seq<X>, b: seq<X>, all: seq<X>, j: nat)
    requires a + b <= all && j < |b|
    ensures |a| + j < |all| && all[|a| + j] == b[j]
  {
    assert (a + b)[|a| + j] == b[j];
  }

  /** Everything the spectrum view draws for one start frequency. */
  function SpectrumWidgets(start: real, sideband: bool, gear: seq<FreqLabel>, fmtMarks: seq<Mark>): seq<Widget>
  {
    Markers(start, GearMarks(gear), DeltaFactors(sideband)) +
    Markers(start, fmtMarks, DeltaFactors(sideband)) +
    (if sideband then [VLine(start, 1.0)] else [])
  }

  /** With the frequency alone, each mark is a line and a label at `start + freq`. */
  lemma {:induction false} MarkersOneSide(start: real, marks: seq<Mark>)
    ensures |Markers(start, marks, [1.0])| == 2 * |marks|
    ensures forall i :: 0 <= i < |marks| ==>
      && Markers(start, marks, [1.0])[2 * i] == VLine(start + marks[i].freq, marks[i].height)
      && Markers(start, marks, [1.0])[2 * i + 1] == Text(start + marks[i].freq, marks[i].height, marks[i].caption)
  {
    MarkersLength(start, marks, [1.0]);
    forall i | 0 <= i < |marks|
      ensures Markers(start, marks, [1.0])[2 * i] == VLine(start + marks[i].freq, marks[i].height)
      ensures Markers(start, marks, [1.0])[2 * i + 1] == Text(start + marks[i].freq, marks[i].height, marks[i].caption)
    {
      MarkOneSide(start, marks, i);
    }
  }

  lemma {:induction false} MarkOneSide(start: real, marks: seq<Mark>, i: nat)
    requires i < |marks|
    ensures var w := Markers(start, marks, [1.0]);
      && 2 * i + 1 < |w|
      && w[2 * i] == VLine(start + marks[i].freq, marks[i].height)
      && w[2 * i + 1] == Text(start + marks[i].freq, marks[i].height, marks[i].caption)
  {
    var fs := [1.0];
    var here := FactorMarkers(start, marks[i], fs);
    FactorMarkersAt(start, marks[i], fs, 0);
    ShiftSides(start, marks[i].freq);
    assert here == [VLine(start + marks[i].freq, marks[i].height), Text(start + marks[i].freq, marks[i].height, marks[i].caption)];
    MarkersLength(start, marks[..i], fs);
    assert |Markers(start, marks[..i], fs)| == 2 * i;
    MarkersAt(start, marks, fs, i, 0);
    MarkersAt(start, marks, fs, i, 1);
  }

  /** With sidebands, each mark is a line and a label at `start + freq`, then
      a line and a label at `start - freq`. */
  lemma {:induction false} MarkersTwoSides(start: real, marks: seq<Mark>)
    ensures |Markers(start, marks, [1.0, -1.0])| == 4 * |marks|
    ensures forall i :: 0 <= i < |marks| ==>
      && Markers(start, marks, [1.0, -1.0])[4 * i] == VLine(start + marks[i].freq, marks[i].height)
      && Markers(start, marks, [1.0, -1.0])[4 * i + 1] == Text(start + marks[i].freq, marks[i].height, marks[i].caption)
      && Markers(start, marks, [1.0, -1.0])[4 * i + 2] == VLine(start - marks[i].freq, marks[i].height)
      && Markers(start, marks, [1.0, -1.0])[4 * i + 3] == Text(start - marks[i].freq, marks[i].height, marks[i].caption)
  {
    var fs := [1.0, -1.0];
    MarkersLength(start, marks, fs);
    forall i | 0 <= i < |marks|
      ensures Markers(start, marks, fs)[4 * i] == VLine(start + marks[i].freq, marks[i].height)
      ensures Markers(start, marks, fs)[4 * i + 1] == Text(start + marks[i].freq, marks[i].height, marks[i].caption)
      ensures Markers(start, marks, fs)[4 * i + 2] == VLine(start - marks[i].freq, marks[i].height)
      ensures Markers(start, marks, fs)[4 * i + 3] == Text(start - marks[i].freq, marks[i].height, marks[i].caption)
    {
      MarkTwoSides(start, marks, i);
    }
  }

  lemma {:induction false} MarkTwoSides(start: real, marks: seq<Mark>, i: nat)
    requires i < |marks|
    ensures var w := Markers(start, marks, [1.0, -1.0]);
      && 4 * i + 3 < |w|
      && w[4 * i] == VLine(start + marks[i].freq, marks[i].height)
      && w[4 * i + 1] == Text(start + marks[i].freq, marks[i].height, marks[i].caption)
      && w[4 * i + 2] == VLine(start - marks[i].freq, marks[i].height)
      && w[4 * i + 3] == Text(start - marks[i].freq, marks[i].height, marks[i].caption)
  {
    var fs := [1.0, -1.0];
    var here := FactorMarkers(start, marks[i], fs);
    FactorMarkersAt(start, marks[i], fs, 0);
    FactorMarkersAt(start, marks[i], fs, 1);
    ShiftSides(start, marks[i].freq);
    assert here == [VLine(start + marks[i].freq, marks[i].height), Text(start + marks[i].freq, marks[i].height, marks[i].caption),
                    VLine(start - marks[i].freq, marks[i].height), Text(start - marks[i].freq, marks[i].height, marks[i].caption)];
    MarkersLength(start, marks[..i], fs);
    assert |Markers(start, marks[..i], fs)| == 4 * i;
    MarkersAt(start, marks, fs, i, 0);
    MarkersAt(start, marks, fs, i, 1);
    MarkersAt(start, marks, fs, i, 2);
    MarkersAt(start, marks, fs, i, 3);
  }

  /** Without sidebands (a right click, or the first drawing, from 0 Hz) each
      gearbox frequency and then each format line is drawn once, as a line and a
      label at its offset from the start, and nothing else is drawn. */
  lemma {:induction false} AbsoluteWidgets(start: real, gear: seq<FreqLabel>, fmtMarks: seq<Mark>)
    ensures var w := SpectrumWidgets(start, false, gear, fmtMarks);
      && |w| == 2 * (|gear| + |fmtMarks|)
      && (forall i :: 0 <= i < |gear| ==>
            w[2 * i] == VLine(start + gear[i].0, 1.0) && w[2 * i + 1] == Text(start + gear[i].0, 1.0, gear[i].1))
      && (forall i :: 0 <= i < |fmtMarks| ==>
            w[2 * (|gear| + i)] == VLine(start + fmtMarks[i].freq, fmtMarks[i].height) &&
            w[2 * (|gear| + i) + 1] == Text(start + fmtMarks[i].freq, fmtMarks[i].height, fmtMarks[i].caption))
  {
    var w := SpectrumWidgets(start, false, gear, fmtMarks);
    AbsoluteParts(start, gear, fmtMarks);
    forall i | 0 <= i < |gear|
      ensures w[2 * i] == VLine(start + gear[i].0, 1.0) && w[2 * i + 1] == Text(start + gear[i].0, 1.0, gear[i].1)
    {
      AbsoluteGearAt(start, gear, fmtMarks, i);
    }
    forall i | 0 <= i < |fmtMarks|
      ensures w[2 * (|gear| + i)] == VLine(start + fmtMarks[i].freq, fmtMarks[i].height)
      ensures w[2 * (|gear| + i) + 1] == Text(start + fmtMarks[i].freq, fmtMarks[i].height, fmtMarks[i].caption)
    {
      AbsoluteFmtAt(start, gear, fmtMarks, i);
    }
  }

  lemma {:induction false} AbsoluteParts(start: real, gear: seq<FreqLabel>, fmtMarks: seq<Mark>)
    ensures var w1 := Markers(start, GearMarks(gear), [1.0]);
      var w2 := Markers(start, fmtMarks, [1.0]);
      && SpectrumWidgets(start, false, gear, fmtMarks) == w1 + w2 + []
      && |w1| == 2 * |gear| && |w2| == 2 * |fmtMarks|
  {
    MarkersLength(start, GearMarks(gear), [1.0]);
    MarkersLength(start, fmtMarks, [1.0]);
  }

  lemma {:induction false} AbsoluteGearAt(start: real, gear: seq<FreqLabel>, fmtMarks: seq<Mark>, i: nat)
    requires i < |gear|
    ensures var w := SpectrumWidgets(start, false, gear, fmtMarks);
      && 2 * i + 1 < |w|
      && w[2 * i] == VLine(start + gear[i].0, 1.0) && w[2 * i + 1] == Text(start + gear[i].0, 1.0, gear[i].1)
  {
    var w := SpectrumWidgets(start, false, gear, fmtMarks);
    var gm := GearMarks(gear);
    var w1 := Markers(start, gm, [1.0]);
    var w2 := Markers(start, fmtMarks, [1.0]);
    assert w == w1 + w2 + [] by {
      AbsoluteParts(start, gear, fmtMarks);
    }
    assert 2 * i + 1 < |w1| && w1[2 * i] == VLine(start + gear[i].0, 1.0)
      && w1[2 * i + 1] == Text(start + gear[i].0, 1.0, gear[i].1) by {
      MarkOneSide(start, gm, i);
    }
    ConcatFront(w1, w2, [], 2 * i);
    ConcatFront(w1, w2, [], 2 * i + 1);
  }

  lemma {:induction false} AbsoluteFmtAt(start: real, gear: seq<FreqLabel>, fmtMarks: seq<Mark>, i: nat)
    requires i < |fmtMarks|
    ensures var w := SpectrumWidgets(start, false, gear, fmtMarks);
      && 2 * (|gear| + i) + 1 < |w|
      && w[2 * (|gear| + i)] == VLine(start + fmtMarks[i].freq, fmtMarks[i].height)
      && w[2 * (|gear| + i) + 1] == Text(start + fmtMarks[i].freq, fmtMarks[i].height, fmtMarks[i].caption)
  {
    var w := SpectrumWidgets(start, false, gear, fmtMarks);
    var w1 := Markers(start, GearMarks(gear), [1.0]);
    var w2 := Markers(start, fmtMarks, [1.0]);
    assert w == w1 + w2 + [] && |w1| == 2 * |gear| by {
      AbsoluteParts(start, gear, fmtMarks);
    }
    assert 2 * i + 1 < |w2| && w2[2 * i] == VLine(start + fmtMarks[i].freq, fmtMarks[i].height)
      && w2[2 * i + 1] == Text(start + fmtMarks[i].freq, fmtMarks[i].height, fmtMarks[i].caption) by {
      MarkOneSide(start, fmtMarks, i);
    }
    PairAfter(w1, w2, [], w, |gear|, i);
  }

  /** Entries `2i` and `2i + 1` of the middle part of `w1 + w2 + w3`, with `|w1| == 2n`. */
  lemma {:induction false} PairAfter<X>(w1: seq<X>, w2: seq<X>, w3: seq<X>, w: seq<X>, n: nat, i: nat)
    requires w == w1 + w2 + w3 && |w1| == 2 * n && 2 * i + 1 < |w2|
    ensures 2 * (n + i) + 1 < |w| && w[2 * (n + i)] == w2[2 * i] && w[2 * (n + i) + 1] == w2[2 * i + 1]
  {
    ConcatMiddle(w1, w2, w3, 2 * i);
    ConcatMiddle(w1, w2, w3, 2 * i + 1);
  }

  /** Widgets `k` to `k + 3` draw mark `m` on both sides of `start`: a line and
      a label at `start + freq`, then a line and a label at `start - freq`. */
  predicate TwoSidesAt(w: seq<Widget>, k: nat, start: real, m: Mark)
  {
    && k + 3 < |w|
    && w[k] == VLine(start + m.freq, m.height)
    && w[k + 1] == Text(start + m.freq, m.height, m.caption)
    && w[k + 2] == VLine(start - m.freq, m.height)
    && w[k + 3] == Text(start - m.freq, m.height, m.caption)
  }

  /** With sidebands (a left click at `start`) each gearbox frequency and then
      each format line is drawn on both sides of the start, each side as a line
      and a label, and a line at the start itself is drawn last. */
  lemma {:induction false} SidebandWidgets(start: real, gear: seq<FreqLabel>, fmtMarks: seq<Mark>)
    ensures var w := SpectrumWidgets(start, true, gear, fmtMarks);
      && |w| == 4 * (|gear| + |fmtMarks|) + 1
      && w[|w| - 1] == VLine(start, 1.0)
      && (forall i :: 0 <= i < |gear| ==> TwoSidesAt(w, 4 * i, start, Mark(gear[i].0, gear[i].1, 1.0)))
      && (forall i :: 0 <= i < |fmtMarks| ==> TwoSidesAt(w, 4 * (|gear| + i), start, fmtMarks[i]))
  {
    var w := SpectrumWidgets(start, true, gear, fmtMarks);
    SidebandParts(start, gear, fmtMarks);
    forall i | 0 <= i < |gear|
      ensures TwoSidesAt(w, 4 * i, start, Mark(gear[i].0, gear[i].1, 1.0))
    {
      SidebandGearAt(start, gear, fmtMarks, i);
    }
    forall i | 0 <= i < |fmtMarks|
      ensures TwoSidesAt(w, 4 * (|gear| + i), start, fmtMarks[i])
    {
      SidebandFmtAt(start, gear, fmtMarks, i);
    }
  }

  lemma {:induction false} SidebandParts(start: real, gear: seq<FreqLabel>, fmtMarks: seq<Mark>)
    ensures var w1 := Markers(start, GearMarks(gear), [1.0, -1.0]);
      var w2 := Markers(start, fmtMarks, [1.0, -1.0]);
      && SpectrumWidgets(start, true, gear, fmtMarks) == w1 + w2 + [VLine(start, 1.0)]
      && |w1| == 4 * |gear| && |w2| == 4 * |fmtMarks|
  {
    MarkersLength(start, GearMarks(gear), [1.0, -1.0]);
    MarkersLength(start, fmtMarks, [1.0, -1.0]);
  }

  lemma {:induction false} SidebandGearAt(start: real, gear: seq<FreqLabel>, fmtMarks: seq<Mark>, i: nat)
    requires i < |gear|
    ensures TwoSidesAt(SpectrumWidgets(start, true, gear, fmtMarks), 4 * i, start, Mark(gear[i].0, gear[i].1, 1.0))
  {
    var w := SpectrumWidgets(start, true, gear, fmtMarks);
    var gm := GearMarks(gear);
    var w1 := Markers(start, gm, [1.0, -1.0]);
    var w2 := Markers(start, fmtMarks, [1.0, -1.0]);
    assert w == w1 + w2 + [VLine(start, 1.0)] by {
      SidebandParts(start, gear, fmtMarks);
    }
    assert TwoSidesAt(w1, 4 * i, start, gm[i]) by {
      MarkTwoSides(start, gm, i);
    }
    QuadAfter([], w1, w2 + [VLine(start, 1.0)], w, 0, i);
  }

  lemma {:induction false} SidebandFmtAt(start: real, gear: seq<FreqLabel>, fmtMarks: seq<Mark>, i: nat)
    requires i < |fmtMarks|
    ensures TwoSidesAt(SpectrumWidgets(start, true, gear, fmtMarks), 4 * (|gear| + i), start, fmtMarks[i])
  {
    var w := SpectrumWidgets(start, true, gear, fmtMarks);
    var w1 := Markers(start, GearMarks(gear), [1.0, -1.0]);
    var w2 := Markers(start, fmtMarks, [1.0, -1.0]);
    assert w == w1 + w2 + [VLine(start, 1.0)] && |w1| == 4 * |gear| by {
      SidebandParts(start, gear, fmtMarks);
    }
    assert TwoSidesAt(w2, 4 * i, start, fmtMarks[i]) by {
      MarkTwoSides(start, fmtMarks, i);
    }
    QuadAfter(w1, w2, [VLine(start, 1.0)], w, |gear|, i);
  }

  /** Entries `4i` to `4i + 3` of the middle part of `w1 + w2 + w3`, with `|w1| == 4n`. */
  lemma {:induction false} QuadAfter<X>(w1: seq<X>, w2: seq<X>, w3: seq<X>, w: seq<X>, n: nat, i: nat)
    requires w == w1 + w2 + w3 && |w1| == 4 * n && 4 * i + 3 < |w2|
    ensures 4 * (n + i) + 3 < |w|
    ensures w[4 * (n + i)] == w2[4 * i] && w[4 * (n + i) + 1] == w2[4 * i + 1]
    ensures w[4 * (n + i) + 2] == w2[4 * i + 2] && w[4 * (n + i) + 3] == w2[4 * i + 3]
  {
    ConcatMiddle(w1, w2, w3, 4 * i);
    ConcatMiddle(w1, w2, w3, 4 * i + 1);
    ConcatMiddle(w1, w2, w3, 4 * i + 2);
    ConcatMiddle(w1, w2, w3, 4 * i + 3);
  }

  lemma {:induction false} AppendAssoc<X>(a: seq<X>, b: seq<X>, c: seq<X>)
    ensures a + b + c == a + (b + c)
  {
  }

  /** An element of the first of three concatenated parts. */
  lemma {:induction false} ConcatFront<X>(a: seq<X>, b: seq<X>, c: seq<X>, i: nat)
    requires i < |a|
    ensures (a + b + c)[i] == a[i]
  {
  }

  /** An element of the middle of three concatenated parts. */
  lemma {:induction false} ConcatMiddle<X>(a: seq<X>, b: seq<X>, c: seq<X>, i: nat)
    requires i < |b|
    ensures (a + b + c)[|a| + i] == b[i]
  {
  }

  // ---------------------------------------------------------------------------
  // Markers on a time plot

  /** The moment one period of `freq` after `moment`, `moment + 1 / freq`. */
  function PeriodAfter(moment: real, freq: real): real
    requires freq != 0.0
  {
    moment + 1.0 / freq
  }

  /** No mark has frequency zero. */
  predicate NoZero(marks: seq<Mark>)
  {
    forall i :: 0 <= i < |marks| ==> marks[i].freq != 0.0
  }

  /** The index of the first mark with frequency zero, or the number of marks
      when there is none. */
  function FirstZero(marks: seq<Mark>): (k: nat)
    ensures k <= |marks|
    ensures forall i :: 0 <= i < k ==> marks[i].freq != 0.0
    ensures k < |marks| ==> marks[k].freq == 0.0
  {
    if marks == [] then 0
    else if marks[0].freq == 0.0 then 0
    else 1 + FirstZero(marks[1..])
  }

  /** A line and a label one period `1 / freq` after the clicked moment, mark by mark. */
  function TimeMarkers(moment: real, marks: seq<Mark>): seq<Widget>
    requires NoZero(marks)
  {
    if marks == [] then []
    else
      var m := marks[|marks| - 1];
      var x := PeriodAfter(moment, m.freq);
      TimeMarkers(moment, marks[..|marks| - 1]) + [VLine(x, m.height), Text(x, m.height, m.caption)]
  }

  /** Each mark is drawn as a line and a label, in mark order, exactly one
      period of its frequency after the moment. */
  lemma {:induction false} TimeMarkPeriod(moment: real, marks: seq<Mark>, i: nat)
    requires i < |marks| && NoZero(marks)
    ensures var w := TimeMarkers(moment, marks);
      && 2 * i + 1 < |w|
      && w[2 * i].VLine? && w[2 * i].ymax == marks[i].height
      && (w[2 * i].x - moment) * marks[i].freq == 1.0
      && w[2 * i + 1] == Text(w[2 * i].x, marks[i].height, marks[i].caption)
  {
    TimeMarkAt(moment, marks, i);
    var w := TimeMarkers(moment, marks);
    OnePeriod(moment, w[2 * i].x, marks[i].freq);
  }

  lemma {:induction false} TimeMarkersLength(moment: real, marks: seq<Mark>)
    requires NoZero(marks)
    ensures |TimeMarkers(moment, marks)| == 2 * |marks|
  {
    if marks != [] {
      TimeMarkersLength(moment, marks[..|marks| - 1]);
    }
  }

  /** The markers of the first `k` marks come first. */
  lemma {:induction false} TimeMarkersPrefixOf(moment: real, marks: seq<Mark>, k: nat)
    requires k <= |marks|
    requires NoZero(marks)
    ensures TimeMarkers(moment, marks[..k]) <= TimeMarkers(moment, marks)
    decreases |marks| - k
  {
    if k < |marks| {
      var n := |marks|;
      assert marks[..n - 1][..k] == marks[..k];
      TimeMarkersPrefixOf(moment, marks[..n - 1], k);
    } else {
      assert marks[..k] == marks;
    }
  }

  lemma {:induction false} TimeMarkAt(moment: real, marks: seq<Mark>, i: nat)
    requires i < |marks|
    requires NoZero(marks)
    ensures var w := TimeMarkers(moment, marks);
      && 2 * i + 1 < |w|
      && w[2 * i] == VLine(PeriodAfter(moment, marks[i].freq), marks[i].height)
      && w[2 * i + 1] == Text(PeriodAfter(moment, marks[i].freq), marks[i].height, marks[i].caption)
  {
    var x := PeriodAfter(moment, marks[i].freq);
    var before := TimeMarkers(moment, marks[..i]);
    var here := [VLine(x, marks[i].height), Text(x, marks[i].height, marks[i].caption)];
    TimeMarkersSnoc(moment, marks, i);
    TimeMarkersPrefixOf(moment, marks, i + 1);
    TimeMarkersLength(moment, marks[..i]);
    PrefixConcatAt(before, here, TimeMarkers(moment, marks), 0);
    PrefixConcatAt(before, here, TimeMarkers(moment, marks), 1);
  }

  /** One period after a moment is one period after it. */
  lemma {:induction false} OnePeriod(moment: real, x: real, freq: real)
    requires freq != 0.0 && x == PeriodAfter(moment, freq)
    ensures (x - moment) * freq == 1.0
  {
    assert x - moment == 1.0 / freq;
  }

  /** One more mark appends its line and label. */
  lemma {:induction false} TimeMarkersSnoc(moment: real, marks: seq<Mark>, k: nat)
    requires k < |marks|
    requires NoZero(marks[..k + 1])
    ensures TimeMarkers(moment, marks[..k + 1]) ==
      TimeMarkers(moment, marks[..k]) +
      [VLine(PeriodAfter(moment, marks[k].freq), marks[k].height),
       Text(PeriodAfter(moment, marks[k].freq), marks[k].height, marks[k].caption)]
  {
    assert marks[..k + 1][..k] == marks[..k];
  }

  /** What a click on the time plot leaves drawn: the markers up to the first
      zero frequency, whose period `1 / 0` fails; without one, all markers and a
      line at the moment itself. */
  function TimeWidgets(moment: real, marks: seq<Mark>): (r: (seq<Widget>, Result<(), PyError>))
  {
    var k := FirstZero(marks);
    if k < |marks| then (TimeMarkers(moment, marks[..k]), Err(ZeroDivisionError))
    else (TimeMarkers(moment, marks) + [VLine(moment, 1.0)], Ok(()))
  }

  /** A click fails exactly when some frequency is zero; otherwise two widgets
      per mark and the moment's line are drawn, and the moment's line is last. */
  lemma {:induction false} TimeWidgetsOutcome(moment: real, marks: seq<Mark>)
    ensures TimeWidgets(moment, marks).1.Err? <==> exists i :: 0 <= i < |marks| && marks[i].freq == 0.0
    ensures TimeWidgets(moment, marks).1.Err? ==> |TimeWidgets(moment, marks).0| == 2 * FirstZero(marks)
    ensures TimeWidgets(moment, marks).1.Ok? ==>
      |TimeWidgets(moment, marks).0| == 2 * |marks| + 1 &&
      TimeWidgets(moment, marks).0[2 * |marks|] == VLine(moment, 1.0)
  {
    var k := FirstZero(marks);
    if k < |marks| {
      TimeMarkersLength(moment, marks[..k]);
    } else {
      TimeMarkersLength(moment, marks);
    }
  }

  // ---------------------------------------------------------------------------
  // The interactive views

  datatype MouseButton = Left | Right | Middle

  /** A mouse press: whether it fell inside the axes, the button, and the x
      position in data coordinates. */
  datatype MouseEvent = MouseEvent(inAxes: bool, button: MouseButton, xdata: real)

  /** The spectrum view: a right click (and the first drawing) marks the
      gearbox's frequencies from 0 Hz, a left click marks them as sidebands
      around the clicked frequency. The fields are the state the view's press
      handler keeps between clicks. */
  class ShowFreqLinesFreq {
    /** What is drawn now. */
    var widgets: seq<Widget>
    var stages: seq<int>
    var fmtLines: seq<string>
    /** Whether the press handler is connected to the canvas. */
    var connected: bool
    /** The gearbox's frequencies and labels at the channel's mean speed, for a stage bitmask. */
    var lookup: nat -> seq<FreqLabel>
    /** The frequency of a format line. */
    var fmtFreq: FreqSource -> real

    /** A view before it is called: nothing drawn, nothing connected. */
    constructor(lookup: nat -> seq<FreqLabel>, fmtFreq: FreqSource -> real)
      ensures widgets == [] && stages == [] && fmtLines == [] && !connected
      ensures this.lookup == lookup && this.fmtFreq == fmtFreq
    {
      widgets := [];
      stages := [];
      fmtLines := [];
      connected := false;
      this.lookup := lookup;
      this.fmtFreq := fmtFreq;
    }

    /** The marks of the format lines, in their order. */
    function FmtLineMarks(): seq<Mark>
      reads this
    {
      FmtMarks(fmtLines, fmtFreq)
    }

    /** `plot_lines`: clears what was drawn and draws the markers from `start`. */
    method PlotLines(start: real, sideband: bool) returns (r: Result<(), PyError>)
      modifies this`widgets
      ensures StageMask(stages).Err? ==> r == Err(StageMask(stages).error) && widgets == []
      ensures StageMask(stages).Ok? ==>
        r == Ok(()) && widgets == SpectrumWidgets(start, sideband, lookup(StageMask(stages).value), FmtLineMarks())
    {
      widgets := [];
      var bits := StageBitmask(stages);
      if bits.Err? {
        return Err(bits.error);
      }
      var factors := DeltaFactors(sideband);
      ghost var gearDrawn := Markers(start, GearMarks(lookup(bits.value)), factors);
      ghost var fmtDrawn := Markers(start, FmtLineMarks(), factors);
      DrawMarks(start, GearMarks(lookup(bits.value)), factors);
      assert widgets == gearDrawn;
      DrawMarks(start, FmtLineMarks(), factors);
      assert widgets == gearDrawn + fmtDrawn;
      if sideband {
        widgets := widgets + [VLine(start, 1.0)];
      }
      r := Ok(());
    }

    /** Appends a line and a label for each mark at each factor. */
    method DrawMarks(start: real, marks: seq<Mark>, factors: seq<real>)
      modifies this`widgets
      ensures widgets == old(widgets) + Markers(start, marks, factors)
    {
      ghost var before := widgets;
      for k := 0 to |marks|
        invariant widgets == before + Markers(start, marks[..k], factors)
      {
        MarkersSnoc(start, marks, factors, k);
        DrawFactors(start, marks[k], factors);
        AppendAssoc(before, Markers(start, marks[..k], factors), FactorMarkers(start, marks[k], factors));
      }
      assert marks[..|marks|] == marks;
    }

    /** Appends a line and a label for one mark at each factor. */
    method DrawFactors(start: real, m: Mark, factors: seq<real>)
      modifies this`widgets
      ensures widgets == old(widgets) + FactorMarkers(start, m, factors)
    {
      ghost var before := widgets;
      for c := 0 to |factors|
        invariant widgets == before + FactorMarkers(start, m, factors[..c])
      {
        FactorMarkersSnoc(start, m, factors, c);
        var x := Shift(start, m.freq, factors[c]);
        widgets := widgets + [VLine(x, m.height), Text(x, m.height, m.caption)];
      }
      assert factors[..|factors|] == factors;
    }

    /** `__call__`: without a gearbox or a speed channel nothing happens; a
        missing stage or format-line list counts as empty; the view is drawn
        from 0 Hz, and only when that succeeds is the press handler connected. */
    method Call(gearbox: Option<GearboxDefinition>, speedChannel: Option<seq<real>>,
                stages: Option<seq<int>>, fmtLines: Option<seq<string>>)
      returns (r: Result<(), PyError>)
      modifies this`widgets, this`stages, this`fmtLines, this`connected
      ensures gearbox.None? || speedChannel.None? ==>
        r == Ok(()) && unchanged(this)
      ensures gearbox.Some? && speedChannel.Some? ==>
        && this.stages == (if stages.Some? then stages.value else [])
        && this.fmtLines == (if fmtLines.Some? then fmtLines.value else [])
        && (StageMask(this.stages).Err? ==>
              r == Err(StageMask(this.stages).error) && widgets == [] && connected == old(connected))
        && (StageMask(this.stages).Ok? ==>
              r == Ok(()) && connected &&
              widgets == SpectrumWidgets(0.0, false, lookup(StageMask(this.stages).value), FmtLineMarks()))
    {
      if gearbox.None? || speedChannel.None? {
        return Ok(());
      }
      this.stages := if stages.Some? then stages.value else [];
      this.fmtLines := if fmtLines.Some? then fmtLines.value else [];
      r := PlotLines(0.0, false);
      if r.Ok? {
        connected := true;
      }
    }

    /** `on_press`: ignored outside the axes or while the canvas is locked;
        a left click draws sidebands around the clicked frequency, a right click
        redraws from 0 Hz, any other button does nothing. */
    method OnPress(event: MouseEvent, locked: bool) returns (r: Result<(), PyError>)
      requires connected
      modifies this`widgets
      ensures !event.inAxes || locked || event.button.Middle? ==> r == Ok(()) && widgets == old(widgets)
      ensures event.inAxes && !locked && !event.button.Middle? ==>
        var start := if event.button.Left? then event.xdata else 0.0;
        var sideband := event.button.Left?;
        (StageMask(stages).Err? ==> r == Err(StageMask(stages).error) && widgets == []) &&
        (StageMask(stages).Ok? ==>
           r == Ok(()) && widgets == SpectrumWidgets(start, sideband, lookup(StageMask(stages).value), FmtLineMarks()))
    {
      r := Ok(());
      if !event.inAxes || locked {
        return;
      }
      if event.button.Left? {
        r := PlotLines(event.xdata, true);
      } else if event.button.Right? {
        r := PlotLines(0.0, false);
      }
    }
  }

  /** The time view: a left click marks, one period after the clicked moment,
      each of the gearbox's frequencies and each format line. */
  class ShowFreqLinesTime {
    var widgets: seq<Widget>
    var stages: seq<int>
    var fmtLines: seq<string>
    var connected: bool
    var lookup: nat -> seq<FreqLabel>
    var fmtFreq: FreqSource -> real

    constructor(lookup: nat -> seq<FreqLabel>, fmtFreq: FreqSource -> real)
      ensures widgets == [] && stages == [] && fmtLines == [] && !connected
      ensures this.lookup == lookup && this.fmtFreq == fmtFreq
    {
      widgets := [];
      stages := [];
      fmtLines := [];
      connected := false;
      this.lookup := lookup;
      this.fmtFreq := fmtFreq;
    }

    /** The marks drawn for a stage bitmask: the gearbox's, then the format lines'. */
    function AllMarks(bits: nat): seq<Mark>
      reads this
    {
      GearMarks(lookup(bits)) + FmtMarks(fmtLines, fmtFreq)
    }

    /** `__call__`: without a gearbox or a speed channel nothing happens; a
        missing stage or format-line list counts as empty; then the press
        handler is connected, and nothing is drawn until a click. */
    method Call(gearbox: Option<GearboxDefinition>, speedChannel: Option<seq<real>>,
                stages: Option<seq<int>>, fmtLines: Option<seq<string>>)
      modifies this`stages, this`fmtLines, this`connected
      ensures gearbox.None? || speedChannel.None? ==> unchanged(this)
      ensures gearbox.Some? && speedChannel.Some? ==>
        && this.stages == (if stages.Some? then stages.value else [])
        && this.fmtLines == (if fmtLines.Some? then fmtLines.value else [])
        && connected
    {
      if gearbox.None? || speedChannel.None? {
        return;
      }
      this.stages := if stages.Some? then stages.value else [];
      this.fmtLines := if fmtLines.Some? then fmtLines.value else [];
      connected := true;
    }

    /** Appends the markers of `marks` one period after `moment`, stopping
        with a division by zero at the first zero frequency. */
    method DrawPeriods(moment: real, marks: seq<Mark>) returns (r: Result<(), PyError>)
      modifies this`widgets
      ensures var k := FirstZero(marks);
        && (r.Err? <==> k < |marks|)
        && (r.Err? ==> r == Err(ZeroDivisionError))
        && widgets == old(widgets) + TimeMarkers(moment, marks[..k])
    {
      ghost var before := widgets;
      for k := 0 to |marks|
        invariant forall i :: 0 <= i < k ==> marks[i].freq != 0.0
        invariant widgets == before + TimeMarkers(moment, marks[..k])
      {
        if marks[k].freq == 0.0 {
          return Err(ZeroDivisionError);
        }
        TimeMarkersSnoc(moment, marks, k);
        var x := PeriodAfter(moment, marks[k].freq);
        widgets := widgets + [VLine(x, marks[k].height), Text(x, marks[k].height, marks[k].caption)];
      }
      assert marks[..|marks|] == marks;
      r := Ok(());
    }

    /** The two drawing loops of a click: the gearbox's marks, then the format
        lines' marks, then a line at the moment, stopping at the first division
        by zero. */
    method DrawClick(moment: real, gear: seq<Mark>, fmt: seq<Mark>) returns (r: Result<(), PyError>)
      modifies this`widgets
      ensures widgets == old(widgets) + TimeWidgets(moment, gear + fmt).0
      ensures r == TimeWidgets(moment, gear + fmt).1
    {
      ghost var w0 := widgets;
      r := DrawPeriods(moment, gear);
      if r.Err? {
        TimeWidgetsStopFirst(moment, gear, fmt);
        return;
      }
      assert gear[..|gear|] == gear;
      ghost var w1 := widgets;
      assert w1 == w0 + TimeMarkers(moment, gear);
      r := DrawPeriods(moment, fmt);
      if r.Err? {
        TimeWidgetsStopSecond(moment, gear, fmt);
        AppendAssoc(w0, TimeMarkers(moment, gear), TimeMarkers(moment, fmt[..FirstZero(fmt)]));
        return;
      }
      assert fmt[..|fmt|] == fmt;
      TimeWidgetsAll(moment, gear, fmt);
      AppendAssoc(w0, TimeMarkers(moment, gear), TimeMarkers(moment, fmt));
      AppendAssoc(w0, TimeMarkers(moment, gear) + TimeMarkers(moment, fmt), [VLine(moment, 1.0)]);
      widgets := widgets + [VLine(moment, 1.0)];
      r := Ok(());
    }

    /** `on_press`: only a left click inside the axes while the canvas is not
        locked does anything; it clears the previous markers and draws new ones
        one period after the clicked moment. */
    method OnPress(event: MouseEvent, locked: bool) returns (r: Result<(), PyError>)
      requires connected
      modifies this`widgets
      ensures !event.inAxes || !event.button.Left? || locked ==> r == Ok(()) && widgets == old(widgets)
      ensures event.inAxes && event.button.Left? && !locked ==>
        (StageMask(stages).Err? ==> r == Err(StageMask(stages).error) && widgets == []) &&
        (StageMask(stages).Ok? ==>
           (widgets, r) == TimeWidgets(event.xdata, AllMarks(StageMask(stages).value)))
    {
      r := Ok(());
      if !event.inAxes || !event.button.Left? || locked {
        return;
      }
      widgets := [];
      var bits := StageBitmask(stages);
      if bits.Err? {
        return Err(bits.error);
      }
      var gear, fmt := GearMarks(lookup(bits.value)), FmtMarks(fmtLines, fmtFreq);
      assert AllMarks(bits.value) == gear + fmt;
      r := DrawClick(event.xdata, gear, fmt);
      assert widgets == TimeWidgets(event.xdata, gear + fmt).0;
    }
  }

  /** A click on marks given in two parts that stops in the first part. */
  lemma {:induction false} TimeWidgetsStopFirst(moment: real, a: seq<Mark>, b: seq<Mark>)
    requires FirstZero(a) < |a|
    ensures TimeWidgets(moment, a + b) == (TimeMarkers(moment, a[..FirstZero(a)]), Err(ZeroDivisionError))
  {
    FirstZeroConcat(a, b);
    assert (a + b)[..FirstZero(a + b)] == a[..FirstZero(a)];
  }

  /** A click on marks given in two parts that stops in the second part, after all of the first. */
  lemma {:induction false} TimeWidgetsStopSecond(moment: real, a: seq<Mark>, b: seq<Mark>)
    requires FirstZero(a) == |a| && FirstZero(b) < |b|
    ensures TimeWidgets(moment, a + b) == (TimeMarkers(moment, a) + TimeMarkers(moment, b[..FirstZero(b)]), Err(ZeroDivisionError))
  {
    FirstZeroConcat(a, b);
    assert (a + b)[..FirstZero(a + b)] == a + b[..FirstZero(b)];
    TimeMarkersConcat(moment, a, b[..FirstZero(b)]);
  }

  /** A click on marks given in two parts, none of them zero, draws both and the moment's line. */
  lemma {:induction false} TimeWidgetsAll(moment: real, a: seq<Mark>, b: seq<Mark>)
    requires FirstZero(a) == |a| && FirstZero(b) == |b|
    ensures TimeWidgets(moment, a + b) == (TimeMarkers(moment, a) + TimeMarkers(moment, b) + [VLine(moment, 1.0)], Ok(()))
  {
    FirstZeroConcat(a, b);
    TimeMarkersConcat(moment, a, b);
  }

  /** The first zero of a concatenation: in the first part, or after all of it. */
  lemma {:induction false} FirstZeroConcat(a: seq<Mark>, b: seq<Mark>)
    ensures FirstZero(a) < |a| ==> FirstZero(a + b) == FirstZero(a)
    ensures FirstZero(a) == |a| ==> FirstZero(a + b) == |a| + FirstZero(b)
  {
    if a != [] {
      assert (a + b)[1..] == a[1..] + b;
      FirstZeroConcat(a[1..], b);
    } else {
      assert a + b == b;
    }
  }

  /** Drawing two lists of marks one after the other draws their concatenation. */
  lemma {:induction false} TimeMarkersConcat(moment: real, a: seq<Mark>, b: seq<Mark>)
    requires NoZero(a)
    requires NoZero(b)
    ensures NoZero(a + b)
    ensures TimeMarkers(moment, a + b) == TimeMarkers(moment, a) + TimeMarkers(moment, b)
  {
    if b != [] {
      var n := |b|;
      assert (a + b)[..|a + b| - 1] == a + b[..n - 1];
      TimeMarkersConcat(moment, a, b[..n - 1]);
    } else {
      assert a + b == a;
    }
  }
}
