# Pink-Noise-Test trial engine in Dafny

This project models the trial-evaluation core of a pointing-task tester written in Python with PyQt. One trial works as follows:

- A configured trial has:
  - a time limit;
  - a sample rate;
  - a source circle and a destination circle;
  - intermediate circles, which must all be visited;
  - obstacle rectangles, which must all be avoided.
- It is read from one numeric input row, and its regions are scaled from centimetres to pixels.
- Pointer samples are recorded while the trial runs. Each sample sets a hit flag for every region it falls into.
- Tracking stops on one of three conditions:
  - time-out;
  - reaching the destination;
  - passing beyond the destination by a configured offset.
- Once tracking stops, the trial gets a 0/1 verdict and a record: a header and a first row.
- A separate utility builds the input rows from spreadsheet rows. It prunes empty circle and rectangle groups and writes a count in front of each group list.

The modules follow the program's files:

- `common.dfy`, module `Common`: Python's `int()` on floats, `sum()`, and 0/1 flag lists.
- `shapes.dfy`, module `Shapes`: shapes.py.
  - `Circle` has a truncating constructor and a distance hit test.
  - `Rectangle` is a class with a bouncing `update_pos`.
- `models.dfy`, module `Models`: models.py.
  - Screen scale factors, cm-to-pixel conversion, and hit-flag accumulation.
  - `State` and `Data` are classes updated in place.
- `pages.dfy`, module `Pages`: pages.py.
  - The row parser, the row-skipping generator, the sampling rate, the stop test, the verdict and the record header.
  - The timer-driven `TestPage`.
- `test_page.dfy`, module `PagesTestPage`: pages/test_page.py.
  - The 6-field rectangle parser, `check_end_test`, the time-out column, the 9-column header and `save_diffs`.
  - The threaded `TestPage`, read as sequential steps.
- `utils.dfy`, module `Utils`: utils.py.
  - The per-row prune-and-combine loops exactly as written, and `zip`.
  - The intended pruning, beside them.

Python semantics are written out:

- `int()` truncates toward zero (`Trunc`).
- `//` rounds toward negative infinity (`FloorDiv`).
- Slices are cut off at the end of a list (`Slice`).
- `range(n)` with a negative `n` does not iterate (`Count`).
- `not start_time` holds for both `None` and `0` (`NotStarted`).

The hit tests work point by point, in pixel coordinates with the y axis pointing down:

- `process_new_point` tests circles against their axis-aligned box.
- `Circle.check_hit` compares the distance to the centre against `max(rx, ry)`. It is exact on reals through the squared comparison.

The code contains no swept (segment) hit test and no flipped vertical axis, so the model has neither.

## Model

| member | source | states |
|---|---|---|
| Common.Trunc | pages.py:38-39 | `int()` of a float: an integer no farther from zero than the argument and less than one from it, for both signs |
| Common.SumOfFlags | pages.py:198-201 | for a list of 0/1 flags, `sum == len` exactly when every flag is 1 and `sum > 0` exactly when some flag is 1 |
| Shapes.NewCircle | shapes.py:18-21 | the constructor stores the `int()` truncation of x, y, rx and ry |
| Shapes.CheckHitIsDistanceTest | shapes.py:45-46 | the squared comparison holds exactly when the Euclidean distance is at most `max(rx, ry)` |
| Shapes.CheckHitAtCentre | shapes.py:45-46 | the centre is a hit whenever one radius is non-negative |
| Shapes.CheckHitReflection | shapes.py:45-46 | reflecting the query point through the centre leaves the verdict unchanged |
| Shapes.VerticalStep | shapes.py:92-100 | with `0 <= h <= H`, y lands in `[0, H - h]`; dy is negated at or past a boundary and both are unchanged otherwise |
| Shapes.Rectangle.constructor | shapes.py:69-74 | x, y, w, h are kept as given; only dx and dy are truncated |
| Shapes.Rectangle.UpdatePos | shapes.py:91-100 | x moves by dx; dx, w and h are unchanged; `abs(dy)` is preserved; with `0 <= h <= H` the rectangle stays inside the window |
| Models.ScaleFactorsReciprocal | models.py:29-32 | on each axis the cm-to-pixel and pixel-to-cm factors multiply to 1 |
| Models.ProcessInputCircleData | models.py:49-55 | scaling back by the pixel-to-cm factors gives x, y and r again, each axis with its own factor; a non-negative radius gives non-negative rx and ry |
| Models.ProcessInputRectData | models.py:58-64 | scaling back gives x, y, w and h again, x and w on the x axis and y and h on the y axis; non-negative extents stay non-negative |
| Models.CircleRoundTrip | models.py:49-55 | converting a configured circle to pixels and back to centimetres gives its three fields |
| Models.BoxRoundTrip | models.py:58-64 | converting a configured rectangle to pixels and back to centimetres gives its four fields |
| Models.ZeroFlags | models.py:103-106 | the flags of a fresh state: source and destination 0, one 0 per circle and one 0 per rectangle |
| Models.CheckHitInsideBox | models.py:71-77 | for a round circle, a `check_hit` hit always lies inside the box that `process_new_point` tests |
| Models.ReplayCharacterised | models.py:67-87 | after a run of samples, each flag is 1 if some sample fell in its region and keeps its earlier value otherwise |
| Models.FlagsFromZero | models.py:67-110 | from a fresh state, a flag is 1 exactly when some sample hit its region; all flags stay 0/1 |
| Models.FlagsMonotone | models.py:71-87 | a flag set after a prefix of the samples stays set after all of them |
| Models.State.constructor | models.py:102-110 | all flags 0, one flag per circle and per rectangle, no time, no points, status 0 |
| Models.Data.constructor | models.py:36-46 | every region is scaled to pixels in order; the state is fresh and consistent with its (empty) samples |
| Models.Data.ProcessNewPoint | models.py:67-87 | appends exactly `(x, y, p, t)`; each flag becomes 1 on a hit and is unchanged otherwise; lengths, time and status unchanged; the flags stay those of the recorded samples replayed from a fresh state |
| Models.MarkCircles | models.py:79-82 | each middle-circle flag becomes 1 when the point lies in that circle's box and keeps its value otherwise; the list keeps its length |
| Models.MarkRects | models.py:84-87 | each rectangle flag becomes 1 when the point lies in that rectangle and keeps its value otherwise; the list keeps its length |
| Pages.Count | pages.py:47-50 | `range(int(v))` runs `int(v)` times, and not at all for a negative count |
| Pages.ParseRow | pages.py:34-61 | IndexError at index 0, 1, 8 or `9 + 3n` when that count field is missing; it succeeds exactly when the row reaches the rectangle count, and the result holds `int(data[0])`, `int(data[1])`, the two fixed triples, `int(data[8])` circle slices at `9 + 3k` and the rectangle slices after the count |
| Pages.ReadGroups | pages.py:46-60 | the `count` groups read from `index` on are the slices of `size` fields at `index + size * k`, and reading ends at `index + size * count` |
| Pages.CirclesComplete | pages.py:46-52 | in a parsable row every circle group has three fields |
| Pages.RectanglesCompleteIffConsumed | pages.py:55-61 | every rectangle group is full exactly when the row holds all `10 + 3n + s·m` fields it describes |
| Pages.WellShapedIffConsumed | pages.py:42-61 | a parsed row unpacks into whole groups exactly when it holds every field it describes |
| Pages.TrailingFieldsIgnored | pages.py:34-61 | fields after the described ones never change what is read |
| Pages.ReadTrial | models.py:36-64 | a parsed row yields a Data exactly when every rectangle group has four fields, and ValueError otherwise; a short row is IndexError; the source, destination, every middle circle and every rectangle are the scaled fields of their group, and its time, rate, counts and fresh state come from the row |
| Pages.GetDataFromInputRow | pages.py:34-63 | a row yields a trial exactly when it reaches its rectangle count and holds all `10 + 3n + 4m` fields; a missing count is IndexError, a short group ValueError; the trial's regions are scaled from the row's groups in order |
| Pages.TrialRecoversRow | pages.py:34-63 | the regions of a trial read from a row convert back to the row: source and destination to fields 2-4 and 5-7, middle circle k to circle group k, rectangle k to rectangle group k |
| Pages.ScheduleClosedForm | pages.py:66-77 | the rows the generator parses and yields are exactly those from ordinal INDEX_OF_START_TEST on, in file order, each with its ordinal as test_number |
| Pages.ScheduleOrdinals | pages.py:71-77 | yielded ordinals increase strictly and never fall below INDEX_OF_START_TEST |
| Pages.PageManager.constructor | pages.py:31 | test_number starts at 0 |
| Pages.PageManager.DataGeneratorFunction | pages.py:66-89 | test_number goes up by one per row read; the trials yielded are those read from the scheduled rows, in order and with their test_number; the first row that fails to parse ends the generator with its IndexError or ValueError, and no later row is read |
| Pages.FloorDiv | pages.py:121 | Python's `//`: the quotient rounded toward negative infinity, for either sign of the divisor |
| Pages.SamplingRateMs | pages.py:121 | the sampling period is at least 1 ms, is the floor of 1000/rate for rates 1..1000, and is 1 otherwise |
| Pages.StopCause | pages.py:182-188 | stop on time-out when elapsed reaches the limit; otherwise on a destination hit; otherwise when x is past the destination's right edge by the offset |
| Pages.SuccessStatusMeaning | pages.py:190-204 | with 0/1 flags the verdict is 1 exactly when the time limit was kept, the destination was hit, every circle was hit and no rectangle was |
| Pages.DeterminStatus | pages.py:190-204 | the method's status is that verdict, both directions, for the same code at pages/test_page.py:204-214 too |
| Pages.VerdictOfSamples | pages.py:190-204 | on the replayed flags, success exactly when in time, some sample entered the destination, every circle was entered and no rectangle was touched |
| Pages.StopCauseDecidesVerdict | pages.py:182-204 | passing the destination always fails; a time-out past the limit fails; reaching the destination succeeds exactly when all circles and no rectangles were hit |
| Pages.NatToString | pages.py:244-247 | the decimal form of a number is non-empty, all digits, and has no leading zero |
| Pages.NatToStringValue | pages.py:244-247 | the digits of `str(n)` spell n |
| Pages.NatToStringInjective | pages.py:244-247 | distinct numbers print differently |
| Pages.AppendHitColumns | pages.py:244-247 | the loops append `circle_1_hit` .. `circle_n_hit`, then `rect_1_hit` .. `rect_m_hit` |
| Pages.HitColumnsLayout | pages.py:244-247 | the hit columns number `n + m`; column i names circle `i + 1` and column `n + j` names rectangle `j + 1` |
| Pages.HeaderNamesDistinct | pages.py:241-248 | no two header columns share a name |
| Pages.GenerateHeaderAndFirstRow | pages.py:241-248 | the header is the 8 fixed names plus the hit columns; the first row is the first sample, the time, the status and all flags |
| Pages.HeaderMatchesFirstRow | pages.py:241-248 | header and first row both have `8 + n + m` columns, and each circle or rectangle column holds that region's flag |
| Pages.TestPage.constructor | pages.py:121-127 | the sampling period follows SamplingRateMs; no start time; timer stopped |
| Pages.TestPage.OnTrackingStart | pages.py:206-210 | records the start time and starts the timer |
| Pages.TestPage.MousePressEvent | pages.py:157-161 | the first press starts tracking; presses after the start change nothing |
| Pages.TestPage.OnTrackingStop | pages.py:212-216 | records the elapsed time, sets the determin_status verdict and stops the timer; flags and points unchanged |
| Pages.TestPage.ReadPositions | pages.py:164-188 | one tick records the cursor sample at elapsed time and updates the flags; it stops with the verdict exactly when StopCause holds and changes nothing else otherwise |
| PagesTestPage.GetDataFromInputRow | pages/test_page.py:34-63 | with 6-field rectangles and models.py unpacking four fields, a parsable row is accepted exactly when it has no rectangles or one rectangle cut to four fields by the row's end; the trial's regions are scaled from the row's groups |
| PagesTestPage.SixFieldRectangles | pages/test_page.py:55-61 | every 6-field rectangle group has four fields exactly when there are no rectangles, or one that the row cuts short after four |
| PagesTestPage.CompleteRectangleRejected | pages/test_page.py:55-63 | a row holding a complete 6-field rectangle is rejected |
| PagesTestPage.CheckEndTest | pages/test_page.py:193-202 | returns 1 exactly on time-out, a destination hit, or passing beyond the destination, and 0 otherwise |
| PagesTestPage.CheckEndTestAgreesWithStopCause | pages/test_page.py:193-202 | the threaded page ends a trial on exactly the samples that the timer page does |
| PagesTestPage.TimeOut | pages/test_page.py:267 | the time_out column is 1 exactly when the time is over the limit, and 0 otherwise |
| PagesTestPage.TimeOutMeansFailure | pages/test_page.py:206-207 | a time-out implies the verdict is 0 |
| PagesTestPage.GenerateHeaderAndFirstRow | pages/test_page.py:265-272 | the header is the 9 fixed names plus the hit columns; the first row carries the time in ms and the time-out flag |
| PagesTestPage.HeaderMatchesFirstRow9 | pages/test_page.py:265-272 | header and first row both have `9 + n + m` columns; total_test_time holds time/10⁶; time_out holds 1 exactly on time-out; each hit column holds its region's flag |
| PagesTestPage.SaveDiffs | pages/test_page.py:296-301 | `len(points) - 1` differences, entry i being `t[i+1] - t[i]`, summing to `last.t - first.t` |
| PagesTestPage.TakeSample | pages/test_page.py:164-172 | a sample's time is its clock reading minus the start time; it has a pressure exactly when the tablet is connected at that poll |
| PagesTestPage.SampledFromTaken | pages/test_page.py:157-172 | every queued sample comes from one poll of the loop and carries that poll's position and elapsed time |
| PagesTestPage.TakenCadence | pages/test_page.py:160-163 | the polls that give samples are in order, and each is more than 5 ms after the previous sample; every other poll is at most 5 ms after the sample before it, so no poll that is due is missed |
| PagesTestPage.TestPage.constructor | pages/test_page.py:121-127 | no tablet, no pen data, no start time, not running |
| PagesTestPage.TestPage.StartTracking | pages/test_page.py:149-155 | records the start time and sets is_running |
| PagesTestPage.TestPage.TabletEvent | pages/test_page.py:133-142 | every event latches tablet_connected and the pen data; tracking starts exactly on a press inside the source circle before the start |
| PagesTestPage.TestPage.MousePressEvent | pages/test_page.py:144-146 | a click starts tracking exactly when no tablet has been seen and tracking has not started |
| PagesTestPage.TestPage.ReadData | pages/test_page.py:157-172 | the loop queues one sample each time more than 5 ms have passed since the last, from the pen stored at that poll if the tablet is connected by then and otherwise from the cursor |
| PagesTestPage.TestPage.StopTracking | pages/test_page.py:220-224 | clears is_running, records the time and sets the verdict; flags and points unchanged |
| PagesTestPage.TestPage.ProcessData | pages/test_page.py:180-190 | every queued sample is recorded and replayed into the flags; tracking stays on exactly when no sample ends the trial, and otherwise time and verdict are those of the first sample that does |
| PagesTestPage.TestPage.ProcessSample | pages/test_page.py:184-190 | the sample is recorded and replayed into the flags; tracking stops, with this sample's time and verdict, exactly when it was on and the sample ends the trial; otherwise tracking, time and verdict are unchanged |
| Utils.PruneKeepsBalance | utils.py:40-56 | `len(list) - size·count` never changes while pruning |
| Utils.PruneRemovesDroppable | utils.py:41-56 | only zero-radius circle groups and all-zero rectangle groups are cut; the fields removed are exactly theirs; the count drops by one per cut |
| Utils.PruneIdentity | utils.py:41-56 | if no visited group is empty, the list and the count are unchanged |
| Utils.PruneMiddleCircles | utils.py:39-44 | the circle loop, with its bound fixed at `len // 3` and i stepping by 3, computes the pruning above without an IndexError |
| Utils.FourZeros | utils.py:50-54 | the zero count of a rectangle group is 4 exactly when all four fields are 0 |
| Utils.PruneRectangles | utils.py:47-56 | the rectangle loop, with its bound fixed at `len // 4` and i stepping by 4, computes the pruning above without an IndexError |
| Utils.CombineRow | utils.py:38-63 | the row is general fields, circle count, circles, rectangle count, rectangles, after pruning |
| Utils.CreateInputFromRows | utils.py:32-64 | one output row per index up to the shortest sheet, the k-th combining the k-th rows |
| Utils.LayoutReadBack | utils.py:59-63 | the reader of pages.py gets back the general fields and the written circle and rectangle groups, and the row holds every field it describes |
| Utils.CombinedRowReadBack | utils.py:38-64 | every combined row is accepted by the reader of pages.py and reads back as the pruned groups |
| Utils.ZeroRadiusCircleKept | utils.py:40-44 | as written, `[1,1,1, 2,2,0, 3,3,3]` keeps its zero-radius circle and the count 3 |
| Utils.FilterGroups | utils.py:41-56 | intended pruning: it never makes a list longer |
| Utils.FilterGroupsLength | utils.py:41-56 | intended pruning changes the length by a multiple of the group size |
| Utils.FilterGroupsRemovesEmpty | utils.py:41-56 | intended pruning removes only empty groups: the fields removed are exactly those of the dropped groups, each a whole group the combiner drops |
| Utils.FilterGroupsNoneEmpty | utils.py:41-56 | intended pruning leaves no empty group anywhere in the list |
| Utils.FilterGroupsIdentity | utils.py:41-56 | a list without empty groups passes the intended pruning unchanged |
| Utils.ZeroRadiusCircleDropped | utils.py:40-44 | on the same input the intended pruning drops the zero-radius circle, giving count 2 |
| Utils.CombinedRowIntendedReadBack | utils.py:38-64 | the intended combined row reads back in pages.py with no zero-radius circle and no all-zero rectangle |

## Left out

- Qt widgets, painting, the window geometry and `QApplication` screen queries are not modelled. The screen size in pixels and centimetres is a parameter (`ScreenDimensions`), assumed positive.
- Clocks (`time.perf_counter_ns`), `QTimer` and `QCursor.pos` are not modelled. The current time and the cursor position are parameters of each step.
- Audio (`pysine`), the CSV, TXT and Excel file I/O, `pandas`, and `os.makedirs` are left out because they are I/O. The record is modelled as values (`Cell`), and the diff file as the list of differences.
- Concurrency is not modelled: the reading, processing, drawing and stop threads, the `Queue` and the joins. The threaded page is read as sequential steps:
  - a run of polls gives the queued samples;
  - processing drains them in order;
  - `stop_tracking` takes effect at once.

  - `tabletEvent` (pages/test_page.py:133-142) writes `tablet_connected` and `tablet_data` while the loop runs; each poll carries the values it reads (`Reading.pen`).

  Interleavings are not covered. Two examples: `is_running` changing in the middle of a poll loop, and a sample processed before the stop thread has written the time.
- `float()` on a non-numeric CSV cell (ValueError) is not modelled, because rows are given as reals. Floating point is modelled by exact reals. `int()` of NaN or infinity is not modelled.
- The tablet handler of pages.py is commented out in the source (pages.py:133-154), so no model is needed. Pages.TestPage records cursor samples without pressure.
- `move_rects` in pages/test_page.py is an empty body (`pass`), and `Rectangle.update_pos` is never called in the core. Nothing moves the rectangles during a trial.
- Pages.TestPage.constructor requires a non-zero rate. With rate 0, pages.py:121 raises ZeroDivisionError, and the model does not reproduce that crash.
- Starting tracking twice in pages/test_page.py is not modelled. This happens when `start_time` is 0, so `not start_time` holds and a thread is started again (RuntimeError). The start guards do model `NotStarted` for 0.
- pages/test_page.py reads `dest.x` and calls `source_circle.check_hit`, and it builds `TabletData`. The models.py in this repository builds plain tuples and defines no `TabletData`. The model reads both through the `Circle` datatype, with the pixel-space values and without truncation, and models `TabletData` as a datatype.
- The same models.py unpacks four fields per rectangle, while pages/test_page.py slices six. This is modelled as written: such rows fail with ValueError unless they have no rectangles or one cut short (PagesTestPage.SixFieldRectangles).
- Utils.CombinedRowReadBack: needs a general row of exactly the eight fields pages.py reads first (time, rate, source and destination circles), and a circle row whose length is a multiple of 3. A longer or shorter general row moves every later field. With a remainder, the leftover fields written after the circles shift the rectangle count.
- `next_test`, the Qt signals, `to_dict`, `calc_output_path` and `save_data` are plumbing around the core and are not modelled.
- The pandas rows may hold NaN cells for missing groups. The model takes the rows as lists of reals.

## Findings

| source | as written | input that shows it | evidently intended | confidence | as-written member | corrected member |
|---|---|---|---|---|---|---|
| utils.py:41-44 (and 49-56) | `range(0, num, size)` runs i over field offsets below the group count `len // size`, and after a removal the group shifted into offset i is skipped | circle fields `[1,1,1, 2,2,0, 3,3,3]`: only offset 0 is visited, so the zero-radius second circle is kept with count 3 | every empty group removed and the count equal to the groups kept | not executed | Utils.ZeroRadiusCircleKept | Utils.FilterGroups |

The corrected pruning is `Utils.FilterGroups` with `Utils.FilterAll`. Five lemmas are proved about it:

- **Utils.FilterGroupsRemovesEmpty:** only empty groups are removed, each a whole group.
- **Utils.FilterGroupsNoneEmpty:** no empty group remains.
- **Utils.FilterGroupsIdentity:** a list with no empty group is left as it is.
- **Utils.ZeroRadiusCircleDropped:** the example above now drops the zero-radius circle.
- **Utils.CombinedRowIntendedReadBack:** the intended row reads back in pages.py without empty groups.

`Utils.CombineRow` and `Utils.CreateInputFromRows` keep the loops exactly as written, because that is what utils.py does.
