# DAC core rules in Dafny

DAC (data action context) is a Python GUI application for measurement data analysis with nodes and a container. In it, data nodes (time signals, spectra, order lists) are processed by action nodes. This project models the parts of its core implemented in `dac/core/__init__.py`, `dac/modules/nvh/data.py`, `dac/modules/nvh/actions.py` and `dac/modules/drivetrain/actions.py`, and proves properties about them:

- **Node identity and hash cache** (`Core`). `NodeBase` keeps its name and uuid. A missing or empty uuid is replaced by a fresh one. `get_hash` calls `calc_hash` and stores its result when the stored value is `None` or a recomputation is forced; otherwise it returns the stored value. This is a class whose methods update its fields.
- **Spectra and short-time spectra** (`NvhData`). This covers:
  - the frequency axis of a spectrum;
  - band removal and band keeping (`remove_spec`, `keep_spec`);
  - the windowed peak search `get_amplitudes_at`, which combines `searchsorted`, a clipped slice and a first `argmax`;
  - the shape-to-(batches, lines) rule of short-time spectra;
  - sorting order-slice data by frequency or by reference (`get_aligned_f`, `get_aligned_ref`).

  Frequencies are reals, and bin `i` sits at `i * df`. Complex samples are a type parameter with a caller-supplied zero and magnitude.
- **NVH actions** (`NvhActions`). `CreateOrders` applies its display-ratio defaulting rule. The filter, average, order-slice and to-time actions map each channel to one result, in channel order. The numerical kernels they call are function parameters.
- **Drivetrain actions** (`DrivetrainActions`). This covers:
  - the orders of a gearbox at reference speed 60;
  - the stage bitmask built with `bits |= 1 << (stage - 1)`;
  - splitting a format line at its first comma;
  - the two interactive frequency-line views.

  The views are classes. Their fields are the state the source's closures capture: the drawn widgets, the stages, the format lines, and whether the press handler is connected. Drawing is modelled as the list of lines and labels placed on the axes. The functions `SpectrumWidgets` (frequency view) and `TimeWidgets` (time view) are the reference definitions of what one drawing places. The view methods are proved to draw exactly that, and the widget lemmas state what it contains.

Python and numpy semantics that matter are written out in `Python`:

- `f"{None}"` renders as `None`.
- `int()` truncates and `np.ceil` rounds up.
- Slice bounds are clipped, and a negative bound counts from the end.
- `1 / 0` raises `ZeroDivisionError`.
- Out-of-range fancy indexing raises `IndexError`.
- A negative shift count raises `ValueError`.

Python's unbounded integers as bit sets are in `Bits`. `Option` and `Result` are in `Wrappers`.

Two consequences of the code as it stands:

- `NodeBase.calc_hash` (`dac/core/__init__.py:10-11`) has an empty body and returns `None`. No class in these modules overrides it, so `get_hash` never stores a hash and every call recomputes (`Core.StubNeverMemoises`).
- A non-empty uuid passed to the constructor is kept as given and is not checked for uniqueness.

## Model

| member | source | states |
|---|---|---|
| Core.NodeBase.constructor | dac/core/__init__.py:4-8 | the name is stored verbatim; a non-empty uuid is kept verbatim, a missing or empty one is replaced by the fresh id, so the uuid is never empty; the hash cache starts empty |
| Core.NodeBase.CalcHash | dac/core/__init__.py:10-11 | the base hash computation yields `None` |
| Core.NodeBase.GetHash | dac/core/__init__.py:13-16 | `calc_hash` runs exactly when the cache is empty or recomputation is forced, and its result is stored; otherwise the cache is left as it was; the value returned is the cache's content |
| Core.StubNeverMemoises | dac/core/__init__.py:10-16 | with the base `calc_hash`, a node whose cache is empty recomputes on every `get_hash` and the cache stays empty |
| NvhData.X | dac/modules/nvh/data.py:66-76 | the frequency axis has one point per sample, and point `i` is `i * df` |
| NvhData.SpectrumLines | dac/modules/nvh/data.py:83-92 | the number of lines equals the number of points on the frequency axis |
| NvhData.XAscending | dac/modules/nvh/data.py:66-76 | with a non-negative resolution the frequency axis is ascending |
| NvhData.RemoveSpec | dac/modules/nvh/data.py:120-146 | the result keeps length, `df` and unit and is named `<name>-FiltF`; sample `i` is zero iff `i * df` lies in some closed band, otherwise it is the original sample; the input is a value and stays as it was |
| NvhData.KeepSpec | dac/modules/nvh/data.py:148-174 | the result keeps length, `df` and unit and is named `<name>-ExtractF`; sample `i` is the original iff `i * df` lies in some closed band, otherwise zero |
| NvhData.InAnyBandConcat | dac/modules/nvh/data.py:137-139 | a frequency lies in a band of `b1 + b2` iff it lies in a band of `b1` or of `b2` (the per-band loop accumulates a union) |
| NvhData.RemovedComposes | dac/modules/nvh/data.py:120-146 | removing `b1` then `b2` zeroes the same samples as removing `b1 + b2` at once, and band order does not matter |
| NvhData.KeptComposes | dac/modules/nvh/data.py:148-174 | keeping `b1` then `b2` keeps exactly the samples lying in a band of each |
| NvhData.RemoveKeepPartition | dac/modules/nvh/data.py:120-174 | for the same bands, each sample survives in exactly one of the removed and kept results and is zero in the other |
| NvhData.SearchSorted | dac/modules/nvh/data.py:285 | `searchsorted` returns an index at most the length; every point before it is below `f`, and the point at it (if any) is not |
| NvhData.SearchSortedSplits | dac/modules/nvh/data.py:285 | on an ascending axis every point from the index on is at or above `f` |
| NvhData.SearchSortedOnAxis | dac/modules/nvh/data.py:280-285 | on a spectrum's axis, the search index is the number of lines strictly below `f` |
| NvhData.FirstArgMax | dac/modules/nvh/data.py:291 | `argmax` returns an index holding the largest value, and no earlier index holds it |
| NvhData.PeakWindowClipped | dac/modules/nvh/data.py:285-290 | with `i` the number of axis points below `f` and `lines` non-negative, the searched window is `[max(i - lines, 0), min(i + lines, n))`, and it is empty (so the search yields `None`) iff that range is |
| NvhData.ClippedSlice | dac/modules/nvh/data.py:286-287 | the Python slice `[max(i - lines, 0) : i + lines]` around an in-range index clips only at the top |
| NvhData.PeakAt | dac/modules/nvh/data.py:285-292 | the result is `None` iff the window is empty; otherwise it is the frequency and sample of the first line in the window with the largest magnitude |
| NvhData.SearchLines | dac/modules/nvh/data.py:277-278 | without a width the given line count is used; with a width it becomes `ceil(width / df)`, the least integer at or above `width / df`; a zero `df` fails with a division by zero |
| NvhData.GetAmplitudesAt | dac/modules/nvh/data.py:252-294 | fails iff a width is given and `df` is zero; otherwise exactly one result per requested frequency, in request order, each the peak search around that frequency |
| NvhData.BatchesLines | dac/modules/nvh/data.py:346-362 | unpacking succeeds iff the shape has at most two axes; lines is the length of the last axis; batches is the first axis of a matrix, 1 for a vector and 0 for a scalar |
| NvhData.IntermediateLines | dac/modules/nvh/data.py:364-374 | `lines` fails iff the shape has more than two axes, and is otherwise the length of the last axis, 0 for a scalar |
| NvhData.IntermediateBatches | dac/modules/nvh/data.py:376-386 | `batches` fails iff the shape has more than two axes, and is otherwise the first axis of a matrix, 1 for a vector, 0 for a scalar |
| NvhData.BatchesLinesCoverSamples | dac/modules/nvh/data.py:346-386 | a 0-d shape gives (0, 0), a 1-d shape `(n)` gives (1, n), a 2-d shape `(b, l)` gives (b, l), and more axes fail to unpack; `lines` and `batches` are its two halves; for one or two axes batches times lines is the sample count |
| NvhData.SortByKeySortedPermutation | dac/modules/nvh/data.py:637-649 | sorting pairs by key yields pairs in ascending key order and the same multiset of pairs |
| NvhData.AlignBy | dac/modules/nvh/data.py:637-638 | indexing with the argsort fails iff there are fewer amplitudes than keys; otherwise keys come out ascending, with the amplitudes moved by the same permutation (same length, same multiset of key-amplitude pairs) |
| NvhData.GetAlignedF | dac/modules/nvh/data.py:629-638 | the frequencies come out ascending, the amplitudes carried along with them |
| NvhData.GetAlignedRef | dac/modules/nvh/data.py:640-649 | the reference values come out ascending, the amplitudes carried along with them |
| NvhActions.CreateOrders | dac/modules/nvh/actions.py:393-400 | an order list named `Orders` with one order per triple, in order; name and ratio are kept; the display ratio is the given one, or the ratio when none is given |
| NvhActions.CreateOrdersRoundTrip | dac/modules/nvh/actions.py:395-398 | re-entering the orders of a list, display ratios included, reproduces the list |
| NvhActions.FilterSpectrum | dac/modules/nvh/actions.py:624-631 | one result per channel, in order: the removed spectrum when `remove` is set, the kept spectrum otherwise |
| NvhActions.ExtractOrderSlices | dac/modules/nvh/actions.py:431-437 | one order slice per channel, in order, extracted with tolerance `int(tol_value)` whatever `tol_type` is, and renamed `OrderSlice-<channel name>` |
| NvhActions.AverageIntermediate | dac/modules/nvh/actions.py:162-165 | one averaged spectrum per channel, in channel order |
| NvhActions.SpectrumToTime | dac/modules/nvh/actions.py:649-652 | one time signal per spectrum, in channel order |
| DrivetrainActions.CreateOrdersOfGearbox | dac/modules/drivetrain/actions.py:92-97 | a list named `Orders-<gearbox name>` with, for each frequency and label at speed 60 in order, an order with that label, display ratio the frequency, and ratio times 60 equal to it |
| DrivetrainActions.StageMask | dac/modules/drivetrain/actions.py:258-260 | a failing mask fails with a negative shift count; a mask that succeeds comes from stages that are all positive |
| DrivetrainActions.StageBitmask | dac/modules/drivetrain/actions.py:156-158 | the accumulation loop computes the stage mask, failing at the first non-positive stage |
| DrivetrainActions.StageMaskFails | dac/modules/drivetrain/actions.py:158 | the mask fails iff some listed stage is zero or negative (a negative shift count) |
| DrivetrainActions.StageMaskErrSticks | dac/modules/drivetrain/actions.py:157-158 | once the mask of a prefix has failed, the whole loop fails with that error |
| DrivetrainActions.StageMaskBits | dac/modules/drivetrain/actions.py:258-260 | bit `j` of the mask is set iff stage `j + 1` is listed |
| DrivetrainActions.StageMaskSameStages | dac/modules/drivetrain/actions.py:258-260 | lists with the same stages, in any order and with any repetition, give the same mask or both fail |
| DrivetrainActions.SplitFmtLine | dac/modules/drivetrain/actions.py:173 | the label is the text before the first comma, or the whole line when there is none; the remainder exists iff there is a comma and holds everything after the first one |
| DrivetrainActions.SplitAtFirstComma | dac/modules/drivetrain/actions.py:277 | a comma-free head, a comma and any remainder split into exactly those two parts |
| DrivetrainActions.SplitJoin | dac/modules/drivetrain/actions.py:277 | splitting undoes joining a comma-free label with a remainder |
| DrivetrainActions.JoinSplit | dac/modules/drivetrain/actions.py:277 | joining the two parts gives back the line |
| DrivetrainActions.ParseFmtLine | dac/modules/drivetrain/actions.py:173-178 | the frequency comes from the text after the comma when there is one, and from the label as a formula iff there is none |
| DrivetrainActions.DeltaFactors | dac/modules/drivetrain/actions.py:265 | the frequency itself (factor 1) is always drawn first, every factor is 1 or -1, and the mirrored side (-1) is drawn iff sidebands are asked for |
| DrivetrainActions.FmtHeight | dac/modules/drivetrain/actions.py:285-286 | even-numbered format lines are drawn at height 0.95, odd-numbered ones at 0.90 |
| DrivetrainActions.FmtMarks | dac/modules/drivetrain/actions.py:276-286 | one mark per format line, in order, with the parsed label, the frequency of its source and a height alternating 0.95, 0.90 |
| DrivetrainActions.GearMarks | dac/modules/drivetrain/actions.py:267-273 | one full-height mark per gearbox frequency and label, in order |
| DrivetrainActions.MarkersLength | dac/modules/drivetrain/actions.py:267-286 | every mark gives a line and a label per factor |
| DrivetrainActions.AbsoluteWidgets | dac/modules/drivetrain/actions.py:265-289 | without sideband: a line and a label at `start + freq` for each gearbox frequency, then for each format line at its height, and nothing else |
| DrivetrainActions.SidebandWidgets | dac/modules/drivetrain/actions.py:265-289 | with sideband: each gearbox frequency and then each format line is drawn as a line and a label (its caption, at its height) at `start + freq` and then at `start - freq`, and a line at the start is drawn last |
| DrivetrainActions.FirstZero | dac/modules/drivetrain/actions.py:164-180 | the index of the first zero frequency, where `1 / freq` fails, or the number of marks |
| DrivetrainActions.TimeMarkPeriod | dac/modules/drivetrain/actions.py:164-184 | each mark is drawn, in order, as a line at its height and a label at exactly one period `1 / freq` after the moment |
| DrivetrainActions.TimeWidgetsOutcome | dac/modules/drivetrain/actions.py:164-186 | a click fails iff some frequency is zero, leaving the markers drawn before it; otherwise it draws two widgets per mark and ends with a line at the moment |
| DrivetrainActions.TimeMarkersConcat | dac/modules/drivetrain/actions.py:164-184 | drawing the gearbox marks and then the format-line marks draws their concatenation |
| DrivetrainActions.ShowFreqLinesFreq.constructor | dac/modules/drivetrain/actions.py:237-238 | a new view has drawn nothing and is not connected |
| DrivetrainActions.ShowFreqLinesFreq.PlotLines | dac/modules/drivetrain/actions.py:240-290 | clears the drawing; a failing mask leaves it empty and fails; otherwise draws exactly the markers from `start`, sidebands included when asked |
| DrivetrainActions.ShowFreqLinesFreq.DrawMarks | dac/modules/drivetrain/actions.py:267-286 | appends a line and a label for each mark at each factor |
| DrivetrainActions.ShowFreqLinesFreq.DrawFactors | dac/modules/drivetrain/actions.py:271-273 | appends, for one mark, a line and a label at `start + freq * factor` for each factor in order |
| DrivetrainActions.ShowFreqLinesFreq.Call | dac/modules/drivetrain/actions.py:221-312 | without a gearbox or speed channel nothing changes; missing stages or format lines become empty; the view is drawn from 0 Hz without sidebands and is connected only if that drawing succeeds |
| DrivetrainActions.ShowFreqLinesFreq.OnPress | dac/modules/drivetrain/actions.py:292-308 | a press outside the axes, while locked, or with another button changes nothing; a left click draws sidebands around the clicked frequency; a right click draws from 0 Hz |
| DrivetrainActions.ShowFreqLinesTime.constructor | dac/modules/drivetrain/actions.py:136-137 | a new view has drawn nothing and is not connected |
| DrivetrainActions.ShowFreqLinesTime.Call | dac/modules/drivetrain/actions.py:128-189 | without a gearbox or speed channel nothing changes; missing stages or format lines become empty; the handler is connected and nothing is drawn |
| DrivetrainActions.ShowFreqLinesTime.DrawPeriods | dac/modules/drivetrain/actions.py:164-184 | appends the markers one period after the moment up to the first zero frequency, and fails with a division by zero iff there is one |
| DrivetrainActions.ShowFreqLinesTime.DrawClick | dac/modules/drivetrain/actions.py:164-186 | the gearbox loop, the format-line loop and the final line at the moment together draw exactly what a click draws, and fail exactly when a click fails |
| DrivetrainActions.ShowFreqLinesTime.OnPress | dac/modules/drivetrain/actions.py:150-186 | only a left click inside the axes while unlocked acts: it clears the drawing; a failing mask leaves it empty; otherwise the result is the click's markers one period after the clicked moment |

## Left out

- Container, contexts, the type registry, parameter resolution and save/load are not implemented in `dac/core/__init__.py`: `DataNode` and `ActionNode` are empty subclasses of `NodeBase` and `Context` is an empty class (`dac/core/__init__.py:18-25`), so nothing about them is modelled.
- Sequence actions (`SAB`): `dac/core/actions.py` defines no `SAB`, so there is nothing to model.
- FFT, power-spectrum averaging, the inverse FFT and order-slice peak extraction are numerical kernels. The actions receive them as function parameters.
- `extract_orderslice` indexing, `rectify_to` and the stub actions are not part of this model.
- Matplotlib drawing is not modelled. Axes, transforms, line styles, `draw_idle` and widget removal are reduced to a list of lines and labels that is cleared and appended to.
- Canvas callbacks are not modelled. Connecting is a boolean field, and a press is passed to `OnPress` directly.
- A format line's frequency comes from `float` or from `eval` of a formatted label. Both are the abstract `fmtFreq`, and their parse and evaluation errors are not modelled.
- `gearbox.get_freqs_labels_at` and the mean speed of the speed channel are the abstract `lookup` from a stage bitmask to frequencies and labels. `GearboxDefinition` (`dac/modules/drivetrain/__init__.py:11-15`) defines no `get_freqs_labels_at`.
- `uuid4()` is the `freshId` parameter of the node constructor. It is non-empty because a UUID's text is.
- The truthiness of `speed_channel` and `gearbox` is modelled as present or absent (`Option`). Neither class defines `__len__` or `__bool__`, so only a missing (`None`) speed channel or gearbox returns early. The mean speed of an empty channel (a NaN) belongs to the abstract `lookup`.
- Default argument values belong to the caller, and the model receives every such argument explicitly: stages `[1, 2]` and the two default format lines of both views, `lines=3` of `get_amplitudes_at`, `remove=True` of the spectrum filter, `tol_value=3` of the order-slice extraction, `ref_output=True` of the gearbox orders, `average_by=AverageType.Energy` of the averaging, `force_recalc=False` of `get_hash` and `sideband=False` of `plot_lines`.
- Floating-point rounding, infinities and NaN are not modelled, because frequencies are reals. One consequence: on numpy floats, `width / df` with `df == 0` gives a warning and an infinity, and `int(np.ceil(inf))` then raises `OverflowError`. The call still fails; the model reports this failure as `ZeroDivisionError`.
- DrivetrainActions.TimeWidgets: gearbox frequencies are taken to be Python floats, so a zero one raises `ZeroDivisionError` at `1 / freq`. The speed passed to `get_freqs_labels_at` is a numpy float; if the frequencies it returns are numpy floats too, `1 / 0` gives an infinity and a warning, and the marker is drawn at an infinite time instead of failing. A format line whose frequency is given after the comma goes through `float`, so a zero there does raise.
- DrivetrainActions.ShowFreqLinesFreq.Call, DrivetrainActions.ShowFreqLinesTime.Call: each view is modelled for a single `__call__`. In Python every call builds a new `on_press` closure with its own fresh `widgets` list and appends one more connection id to `_cids`; the model keeps one `widgets` field and one `connected` flag per view, so the handlers of earlier calls, which stay connected and keep their own widgets, are not captured.
- NvhData.GetAmplitudesAt: requires a non-negative `df`. numpy's binary search on a descending axis is not modelled.
- NvhData.AlignBy: it does not fix the order of equal keys. numpy's default argsort is not stable, so only "ascending keys, same multiset of pairs" is stated.
- Core.NodeBase.GetHash: the cached branch is stated but never reached, because `NodeBase.calc_hash` returns `None` and no class in these modules overrides it.
- Enumeration members other than those the modelled code uses (`AverageType`, `ToleranceType`) are not modelled.
