/** The timer-driven test pages of pages.py: reading one trial per input
    row, deciding when tracking stops and whether the trial succeeded, and
    shaping the header and first row of the trial's record. */
module Pages {
  import opened Common
  import opened Shapes
  import opened Models

  datatype ParseError =
    | IndexError(index: nat)   // a count field is missing from the row
    | ValueError               // a group has the wrong number of fields for Data

  /** What get_data_from_input_row reads from a row, before Data is built:
      the groups are Python slices, so a short row gives short groups. */
  datatype RawRow = RawRow(
    time: int, rate: int, source: seq<real>, dest: seq<real>,
    circles: seq<seq<real>>, rects: seq<seq<real>>)

  /** Python's data[lo:hi] for 0 <= lo <= hi: cut off at the end of data. */
  function Slice(data: seq<real>, lo: nat, hi: nat): (r: seq<real>)
    requires lo <= hi
    ensures hi <= |data| ==> r == data[lo..hi]
    ensures hi <= |data| ==> |r| == hi - lo
    ensures hi > |data| && lo < hi ==> |r| < hi - lo
  {
    if hi <= |data| then data[lo..hi] else if lo <= |data| then data[lo..] else []
  }

  /** The k-th group of size fields from start on, as Python slices it. */
  function Group(data: seq<real>, start: nat, size: nat, k: nat): seq<real>
  {
    Slice(data, start + size * k, start + size * k + size)
  }

  /** The number of iterations of `range(int(v))`. */
  function Count(v: real): (n: nat)
    ensures Trunc(v) >= 0 ==> n == Trunc(v)
    ensures Trunc(v) < 0 ==> n == 0
  {
    if Trunc(v) < 0 then 0 else Trunc(v)
  }

  /** Where the rectangle count lives: after the 8 fixed fields, the circle
      count and three fields per circle. */
  function RectCountIndex(data: seq<real>): nat
    requires |data| > 8
  {
    9 + 3 * Count(data[8])
  }

  /** The row is long enough for get_data_from_input_row to finish. */
  predicate Parses(data: seq<real>)
  {
    |data| > 8 && |data| > RectCountIndex(data)
  }

  /** row is what get_data_from_input_row reads from data when each
      rectangle has rectangleSize fields. */
  predicate Describes(data: seq<real>, rectangleSize: nat, row: RawRow)
  {
    && Parses(data)
    && row.time == Trunc(data[0]) && row.rate == Trunc(data[1])
    && row.source == data[2..5] && row.dest == data[5..8]
    && |row.circles| == Count(data[8])
    && (forall k :: 0 <= k < |row.circles| ==> row.circles[k] == Group(data, 9, 3, k))
    && |row.rects| == Count(data[RectCountIndex(data)])
    && (forall k :: 0 <= k < |row.rects| ==> row.rects[k] == Group(data, RectCountIndex(data) + 1, rectangleSize, k))
  }

  /** The number of fields a described row is made of. */
  function Consumed(data: seq<real>, rectangleSize: nat): nat
    requires Parses(data)
  {
    RectCountIndex(data) + 1 + rectangleSize * Count(data[RectCountIndex(data)])
  }

  /** The `for _ in range(count)` loops of get_data_from_input_row: count
      groups of size fields are sliced from index on, which then points
      just past them. */
  method ReadGroups(data: seq<real>, index: nat, size: nat, count: nat)
    returns (groups: seq<seq<real>>, next: nat)
    ensures |groups| == count && next == index + size * count
    ensures forall k :: 0 <= k < count ==> groups[k] == Group(data, index, size, k)
  {
    groups := [];
    next := index;
    while |groups| < count
      invariant |groups| <= count
      invariant next == index + size * |groups|
      invariant forall k :: 0 <= k < |groups| ==> groups[k] == Group(data, index, size, k)
    {
      groups := groups + [Slice(data, next, next + size)];
      next := next + size;
      assert size * |groups| == size * (|groups| - 1) + size;
    }
  }

  /** The index walk of get_data_from_input_row (pages.py uses 4 fields per
      rectangle, pages/test_page.py 6). Only the count fields are indexed;
      a missing one raises IndexError, every group is a slice. */
  method ParseRow(data: seq<real>, rectangleSize: nat) returns (r: Result<RawRow, ParseError>)
    ensures |data| == 0 ==> r == Failure(IndexError(0))
    ensures |data| == 1 ==> r == Failure(IndexError(1))
    ensures 2 <= |data| <= 8 ==> r == Failure(IndexError(8))
    ensures |data| > 8 && !Parses(data) ==> r == Failure(IndexError(RectCountIndex(data)))
    ensures r.Success? <==> Parses(data)
    ensures r.Success? ==> Describes(data, rectangleSize, r.value)
  {
    if |data| == 0 {
      return Failure(IndexError(0));
    }
    var time := Trunc(data[0]);
    if |data| == 1 {
      return Failure(IndexError(1));
    }
    var rate := Trunc(data[1]);

    var circleSize := 3;
    var sourceCircle := Slice(data, 2, 2 + circleSize);
    var destCircle := Slice(data, 2 + circleSize, 2 + 2 * circleSize);

    var index := 2 + 2 * circleSize;
    if index >= |data| {
      return Failure(IndexError(index));
    }
    var middleCircles;
    middleCircles, index := ReadGroups(data, index + 1, circleSize, Count(data[index]));

    if index >= |data| {
      return Failure(IndexError(index));
    }
    var rectangles;
    rectangles, index := ReadGroups(data, index + 1, rectangleSize, Count(data[index]));

    return Success(RawRow(time, rate, sourceCircle, destCircle, middleCircles, rectangles));
  }

  /** Data.__init__ unpacks every group into a fixed number of fields; a
      group of another length raises ValueError. */
  predicate WellShaped(row: RawRow, rectangleSize: nat)
  {
    && |row.source| == 3 && |row.dest| == 3
    && (forall k :: 0 <= k < |row.circles| ==> |row.circles[k]| == 3)
    && (forall k :: 0 <= k < |row.rects| ==> |row.rects[k]| == rectangleSize)
  }

  /** Group k of size fields ends no later than the first m groups do. */
  lemma GroupEnd(size: nat, k: nat, m: nat)
    requires k < m
    ensures size * k + size <= size * m
  {
    assert size * k + size == size * (k + 1);
  }

  /** A group is complete exactly when the row reaches its last field. */
  lemma GroupLength(data: seq<real>, start: nat, size: nat, k: nat)
    ensures start + size * k + size <= |data| ==> |Group(data, start, size, k)| == size
    ensures start + size * k + size > |data| && size > 0 ==> |Group(data, start, size, k)| < size
  {
  }

  /** The first count groups of size fields from start on all have length
      want. */
  predicate GroupsOfLength(data: seq<real>, start: nat, size: nat, count: nat, want: nat)
  {
    forall k :: 0 <= k < count ==> |Group(data, start, size, k)| == want
  }

  /** The circle groups of a parsed row are always complete: the rectangle
      count lies behind them. */
  lemma CirclesComplete(data: seq<real>)
    requires Parses(data)
    ensures GroupsOfLength(data, 9, 3, Count(data[8]), 3)
  {
    forall k | 0 <= k < Count(data[8]) ensures |Group(data, 9, 3, k)| == 3 {
      GroupEnd(3, k, Count(data[8]));
      GroupLength(data, 9, 3, k);
    }
  }

  /** Every rectangle group is complete exactly when the row holds all
      10 + 3n + s*m fields it describes, with n circles and m rectangles of
      s fields each. */
  lemma {:induction false} RectanglesCompleteIffConsumed(data: seq<real>, rectangleSize: nat)
    requires Parses(data)
    ensures GroupsOfLength(data, RectCountIndex(data) + 1, rectangleSize, Count(data[RectCountIndex(data)]), rectangleSize)
        <==> |data| >= Consumed(data, rectangleSize)
  {
    var b := RectCountIndex(data) + 1;
    var m := Count(data[RectCountIndex(data)]);
    if |data| >= Consumed(data, rectangleSize) {
      forall k | 0 <= k < m ensures |Group(data, b, rectangleSize, k)| == rectangleSize {
        GroupEnd(rectangleSize, k, m);
        GroupLength(data, b, rectangleSize, k);
      }
    } else {
      assert rectangleSize * (m - 1) + rectangleSize == rectangleSize * m;
      GroupLength(data, b, rectangleSize, m - 1);
    }
  }

  /** A parsed row can be unpacked into groups of its own rectangle size
      exactly when it holds every field it describes. */
  lemma WellShapedIffConsumed(data: seq<real>, rectangleSize: nat, row: RawRow)
    requires Describes(data, rectangleSize, row)
    ensures WellShaped(row, rectangleSize) <==> |data| >= Consumed(data, rectangleSize)
  {
    CirclesComplete(data);
    RectanglesCompleteIffConsumed(data, rectangleSize);
    RowShapes(data, rectangleSize, row, rectangleSize);
  }

  /** The groups of a described row are the groups of the data: all its
      rectangles have want fields exactly when the data's rectangle groups
      do. */
  lemma RowShapes(data: seq<real>, rectangleSize: nat, row: RawRow, want: nat)
    requires Describes(data, rectangleSize, row)
    ensures WellShaped(row, want) <==>
      GroupsOfLength(data, RectCountIndex(data) + 1, rectangleSize, Count(data[RectCountIndex(data)]), want)
  {
    CirclesComplete(data);
    var b := RectCountIndex(data) + 1;
    assert forall k :: 0 <= k < |row.circles| ==> row.circles[k] == Group(data, 9, 3, k);
    assert forall k :: 0 <= k < |row.rects| ==> row.rects[k] == Group(data, b, rectangleSize, k);
  }

  /** What Data accepts from a parsed row: every rectangle group has the
      four fields process_input_rect_data unpacks. */
  predicate RectanglesAreBoxes(data: seq<real>, rectangleSize: nat)
    requires Parses(data)
  {
    GroupsOfLength(data, RectCountIndex(data) + 1, rectangleSize, Count(data[RectCountIndex(data)]), 4)
  }

  lemma GroupOfPrefix(data: seq<real>, extra: seq<real>, start: nat, size: nat, k: nat)
    requires start + size * k + size <= |data|
    ensures Group(data + extra, start, size, k) == Group(data, start, size, k)
  {
    var lo, hi := start + size * k, start + size * k + size;
    assert (data + extra)[lo..hi] == data[lo..hi];
  }

  /** Fields after the described ones are never read. */
  lemma TrailingFieldsIgnored(data: seq<real>, extra: seq<real>, rectangleSize: nat, row: RawRow)
    requires Describes(data, rectangleSize, row) && |data| >= Consumed(data, rectangleSize)
    ensures Describes(data + extra, rectangleSize, row)
  {
    var d := data + extra;
    var b := RectCountIndex(data) + 1;
    assert d[..|data|] == data;
    assert d[8] == data[8];
    assert RectCountIndex(d) == RectCountIndex(data);
    assert d[b - 1] == data[b - 1];
    assert d[0] == data[0] && d[1] == data[1];
    assert d[2..5] == data[2..5] && d[5..8] == data[5..8];
    forall k | 0 <= k < |row.circles| ensures row.circles[k] == Group(d, 9, 3, k) {
      GroupEnd(3, k, |row.circles|);
      GroupOfPrefix(data, extra, 9, 3, k);
    }
    forall k | 0 <= k < |row.rects| ensures row.rects[k] == Group(d, b, rectangleSize, k) {
      GroupEnd(rectangleSize, k, |row.rects|);
      GroupOfPrefix(data, extra, b, rectangleSize, k);
    }
  }

  function Triple(g: seq<real>): (real, real, real)
    requires |g| == 3
  {
    (g[0], g[1], g[2])
  }

  function Quad(g: seq<real>): (real, real, real, real)
    requires |g| == 4
  {
    (g[0], g[1], g[2], g[3])
  }

  /** d is the trial get_data_from_input_row builds from data, with
      rectangleSize fields per rectangle group: time and rate truncated,
      the source, the destination and every middle circle scaled from
      their three fields, every rectangle scaled from the four fields its
      group holds. */
  predicate TrialOf(d: Data, data: seq<real>, rectangleSize: nat, dimensions: ScreenDimensions, passingOffset: real)
  {
    && Parses(data) && dimensions.Valid()
    && d.dimensions == dimensions && d.passingOffset == passingOffset
    && d.timeToFinish == Trunc(data[0]) && d.rate == Trunc(data[1])
    && d.sourceCircle == ProcessInputCircleData((data[2], data[3], data[4]), dimensions)
    && d.destCircle == ProcessInputCircleData((data[5], data[6], data[7]), dimensions)
    && |d.middleCircles| == Count(data[8])
    && (forall k :: 0 <= k < |d.middleCircles| ==>
          d.middleCircles[k] == ProcessInputCircleData(Triple(Group(data, 9, 3, k)), dimensions))
    && |d.rects| == Count(data[RectCountIndex(data)])
    && (forall k :: 0 <= k < |d.rects| ==>
          && |Group(data, RectCountIndex(data) + 1, rectangleSize, k)| == 4
          && d.rects[k] == ProcessInputRectData(Quad(Group(data, RectCountIndex(data) + 1, rectangleSize, k)), dimensions))
  }

  /** A circle read from a group of three fields converts back to them. */
  lemma CircleFromGroup(g: seq<real>, c: Circle, dimensions: ScreenDimensions)
    requires dimensions.Valid() && |g| == 3
    requires c == ProcessInputCircleData(Triple(g), dimensions)
    ensures CircleToCm(c, dimensions) == g
  {
    CircleRoundTrip(Triple(g), dimensions);
    assert [g[0], g[1], g[2]] == g;
  }

  /** A box read from a group of four fields converts back to them. */
  lemma BoxFromGroup(g: seq<real>, b: Box, dimensions: ScreenDimensions)
    requires dimensions.Valid() && |g| == 4
    requires b == ProcessInputRectData(Quad(g), dimensions)
    ensures BoxToCm(b, dimensions) == g
  {
    BoxRoundTrip(Quad(g), dimensions);
    assert [g[0], g[1], g[2], g[3]] == g;
  }

  /** The regions of a trial convert back to the row they were read from:
      the source and destination to their three fields, every middle
      circle to its group of three and every rectangle to its group. */
  lemma TrialRecoversRow(d: Data, data: seq<real>, rectangleSize: nat, dimensions: ScreenDimensions, passingOffset: real)
    requires TrialOf(d, data, rectangleSize, dimensions, passingOffset)
    ensures CircleToCm(d.sourceCircle, dimensions) == data[2..5]
    ensures CircleToCm(d.destCircle, dimensions) == data[5..8]
    ensures forall k :: 0 <= k < |d.middleCircles| ==>
      CircleToCm(d.middleCircles[k], dimensions) == Group(data, 9, 3, k)
    ensures forall k :: 0 <= k < |d.rects| ==>
      BoxToCm(d.rects[k], dimensions) == Group(data, RectCountIndex(data) + 1, rectangleSize, k)
  {
    CircleFromGroup(data[2..5], d.sourceCircle, dimensions);
    CircleFromGroup(data[5..8], d.destCircle, dimensions);
    forall k | 0 <= k < |d.middleCircles|
      ensures CircleToCm(d.middleCircles[k], dimensions) == Group(data, 9, 3, k)
    {
      GroupEnd(3, k, Count(data[8]));
      GroupLength(data, 9, 3, k);
      CircleFromGroup(Group(data, 9, 3, k), d.middleCircles[k], dimensions);
    }
    forall k | 0 <= k < |d.rects|
      ensures BoxToCm(d.rects[k], dimensions) == Group(data, RectCountIndex(data) + 1, rectangleSize, k)
    {
      BoxFromGroup(Group(data, RectCountIndex(data) + 1, rectangleSize, k), d.rects[k], dimensions);
    }
  }

  /** get_data_from_input_row after the index walk: Data unpacks the
      source, the destination and every circle into three fields and every
      rectangle into four, failing with ValueError otherwise. The screen and
      the passing offset that Data takes from its environment are
      parameters. */
  method ReadTrial(data: seq<real>, rectangleSize: nat, dimensions: ScreenDimensions, passingOffset: real)
    returns (r: Result<Data, ParseError>)
    requires dimensions.Valid()
    ensures r.Success? <==> Parses(data) && RectanglesAreBoxes(data, rectangleSize)
    ensures !Parses(data) ==> r.Failure? && r.error.IndexError?
    ensures Parses(data) && !RectanglesAreBoxes(data, rectangleSize) ==> r == Failure(ValueError)
    ensures r.Success? ==> fresh(r.value) && fresh(r.value.state) && r.value.Valid()
    ensures r.Success? ==> TrialOf(r.value, data, rectangleSize, dimensions, passingOffset)
    ensures r.Success? ==> r.value.state.points == [] && r.value.state.time == None
    ensures r.Success? ==> r.value.state.Flags() == ZeroFlags(Count(data[8]), Count(data[RectCountIndex(data)]))
  {
    var parsed := ParseRow(data, rectangleSize);
    if parsed.Failure? {
      return Failure(parsed.error);
    }
    var row := parsed.value;
    RowShapes(data, rectangleSize, row, 4);
    if !WellShaped(row, 4) {
      return Failure(ValueError);
    }
    var circles := seq(|row.circles|, k requires 0 <= k < |row.circles| => Triple(row.circles[k]));
    var rects := seq(|row.rects|, k requires 0 <= k < |row.rects| => Quad(row.rects[k]));
    var d := new Data(row.time, row.rate, Triple(row.source), Triple(row.dest), circles, rects,
                      dimensions, passingOffset);
    return Success(d);
  }

  /** PageManager.get_data_from_input_row of pages.py, with four fields per
      rectangle: a row yields a trial exactly when it holds every field it
      describes; a missing count is an IndexError, a short group a
      ValueError. */
  method GetDataFromInputRow(data: seq<real>, dimensions: ScreenDimensions, passingOffset: real)
    returns (r: Result<Data, ParseError>)
    requires dimensions.Valid()
    ensures r.Success? <==> Parses(data) && |data| >= Consumed(data, 4)
    ensures !Parses(data) ==> r.Failure? && r.error.IndexError?
    ensures Parses(data) && |data| < Consumed(data, 4) ==> r == Failure(ValueError)
    ensures r.Success? ==> fresh(r.value) && fresh(r.value.state) && r.value.Valid()
    ensures r.Success? ==> TrialOf(r.value, data, 4, dimensions, passingOffset)
    ensures r.Success? ==> r.value.state.points == [] && r.value.state.time == None
    ensures r.Success? ==> r.value.state.Flags() == ZeroFlags(Count(data[8]), Count(data[RectCountIndex(data)]))
  {
    if Parses(data) {
      RectanglesCompleteIffConsumed(data, 4);
    }
    r := ReadTrial(data, 4, dimensions, passingOffset);
  }

  /** The rows the generator yields, each with the value test_number has
      when it is yielded; `before` is test_number when reading starts. */
  function Schedule(rows: seq<seq<real>>, indexOfStartTest: int, before: int): seq<(int, seq<real>)>
  {
    if |rows| == 0 then []
    else
      var n := before + |rows|;
      Schedule(rows[..|rows| - 1], indexOfStartTest, before)
        + (if n < indexOfStartTest then [] else [(n, rows[|rows| - 1])])
  }

  /** How many leading rows are skipped. */
  function Skipped(count: nat, indexOfStartTest: int, before: int): (k: nat)
    ensures k <= count
  {
    if indexOfStartTest - before - 1 <= 0 then 0
    else if indexOfStartTest - before - 1 >= count then count
    else indexOfStartTest - before - 1
  }

  /** The generator yields every row from the one whose ordinal is
      INDEX_OF_START_TEST on, in file order, each numbered by its ordinal. */
  lemma {:induction false} ScheduleClosedForm(rows: seq<seq<real>>, indexOfStartTest: int, before: int)
    ensures var k := Skipped(|rows|, indexOfStartTest, before);
      var s := Schedule(rows, indexOfStartTest, before);
      && |s| == |rows| - k
      && forall i :: 0 <= i < |s| ==> s[i] == (before + k + i + 1, rows[k + i])
  {
    if |rows| > 0 {
      var p := rows[..|rows| - 1];
      ScheduleClosedForm(p, indexOfStartTest, before);
      var kp := Skipped(|p|, indexOfStartTest, before);
      var k := Skipped(|rows|, indexOfStartTest, before);
      var sp := Schedule(p, indexOfStartTest, before);
      var s := Schedule(rows, indexOfStartTest, before);
      var n := before + |rows|;
      if n < indexOfStartTest {
        assert k == |rows| && kp == |p|;
      } else {
        assert k == kp;
        forall i | 0 <= i < |s| ensures s[i] == (before + k + i + 1, rows[k + i]) {
          if i < |sp| {
            assert s[i] == sp[i];
            assert rows[k + i] == p[k + i];
          }
        }
      }
    }
  }

  /** The yielded ordinals are increasing and never below INDEX_OF_START_TEST. */
  lemma ScheduleOrdinals(rows: seq<seq<real>>, indexOfStartTest: int, before: int)
    ensures var s := Schedule(rows, indexOfStartTest, before);
      && (forall i :: 0 <= i < |s| ==> s[i].0 >= indexOfStartTest && before < s[i].0 <= before + |rows|)
      && (forall i, j :: 0 <= i < j < |s| ==> s[i].0 < s[j].0)
  {
    ScheduleClosedForm(rows, indexOfStartTest, before);
  }

  /** PageManager: only its test_number counter is state. */
  class PageManager {
    var testNumber: int

    constructor ()
      ensures testNumber == 0
    {
      testNumber := 0;
    }

    /** PageManager.data_generator_function, run until it ends: every row
        read increments test_number, rows numbered below INDEX_OF_START_TEST
        are skipped, the others are parsed with get_data_from_input_row and
        the trial is yielded. A row that fails to parse raises out of the
        generator, which next_test does not catch, so nothing after it is
        read; the error is returned with the trials yielded before it. */
    method DataGeneratorFunction(rows: seq<seq<real>>, indexOfStartTest: int,
                                 dimensions: ScreenDimensions, passingOffset: real)
      returns (yielded: seq<(int, Data)>, error: Option<ParseError>)
      requires dimensions.Valid()
      modifies this
      ensures old(testNumber) <= testNumber <= old(testNumber) + |rows|
      ensures error.None? ==> testNumber == old(testNumber) + |rows|
      ensures var s := Schedule(rows[..testNumber - old(testNumber)], indexOfStartTest, old(testNumber));
        && |yielded| + (if error.Some? then 1 else 0) == |s|
        && Trials(yielded, s, dimensions, passingOffset)
        && (error.Some? ==> s[|yielded|].0 == testNumber && RowFails(s[|yielded|].1, error.value))
      ensures forall j :: 0 <= j < |yielded| ==> fresh(yielded[j].1) && fresh(yielded[j].1.state) && Unplayed(yielded[j].1)
    {
      yielded := [];
      error := None;
      var n, i := testNumber, 0;
      while i < |rows|
        invariant 0 <= i <= |rows|
        invariant n == old(testNumber) + i && testNumber == old(testNumber)
        invariant |yielded| == |Schedule(rows[..i], indexOfStartTest, old(testNumber))|
        invariant Trials(yielded, Schedule(rows[..i], indexOfStartTest, old(testNumber)), dimensions, passingOffset)
        invariant forall j :: 0 <= j < |yielded| ==> fresh(yielded[j].1) && fresh(yielded[j].1.state) && Unplayed(yielded[j].1)
      {
        assert rows[..i + 1][..i] == rows[..i];
        n, i := n + 1, i + 1;
        if n < indexOfStartTest {
          continue;
        }
        var r := GetDataFromInputRow(rows[i - 1], dimensions, passingOffset);
        if r.Failure? {
          testNumber, error := n, Some(r.error);
          return;
        }
        yielded := yielded + [(n, r.value)];
      }
      testNumber := n;
      assert rows[..|rows|] == rows;
    }
  }

  /** A trial as get_data_from_input_row leaves it: consistent, with a
      State that has no points, no time and zero hit flags. */
  ghost predicate Unplayed(d: Data)
    reads d, d.state
  {
    && d.Valid() && d.state.points == [] && d.state.time == None
    && d.state.Flags() == ZeroFlags(|d.middleCircles|, |d.rects|)
  }

  /** trials pairs each scheduled row, in order, with the trial read from
      it under the same test_number. */
  predicate Trials(trials: seq<(int, Data)>, s: seq<(int, seq<real>)>,
                   dimensions: ScreenDimensions, passingOffset: real)
  {
    && |trials| <= |s|
    && forall j :: 0 <= j < |trials| ==>
         trials[j].0 == s[j].0 && TrialOf(trials[j].1, s[j].1, 4, dimensions, passingOffset)
  }

  /** get_data_from_input_row raises e on data: an IndexError when a count
      field is missing, otherwise a ValueError because some rectangle group
      is short. */
  predicate RowFails(data: seq<real>, e: ParseError)
  {
    if Parses(data) then |data| < Consumed(data, 4) && e == ValueError else e.IndexError?
  }

  /** Python's // (rounding toward negative infinity). */
  function FloorDiv(a: int, b: int): (q: int)
    requires b != 0
    ensures b > 0 ==> q * b <= a < q * b + b
    ensures b < 0 ==> q * b + b < a <= q * b
  {
    if b > 0 || a % b == 0 then a / b else a / b - 1
  }

  /** TestPage's sampling_rate_ms: max(1000 // rate, 1) milliseconds. */
  function SamplingRateMs(rate: int): (r: int)
    requires rate != 0
    ensures r >= 1
    ensures rate < 0 || rate > 1000 ==> r == 1
    ensures 0 < rate <= 1000 ==> r * rate <= 1000 < r * rate + rate
  {
    var q := FloorDiv(1000, rate);
    if q >= 1 then q else 1
  }

  /** Why tracking ends, checked in this order. */
  datatype StopReason = Timeout | DestReached | PassedDestination

  /** The stop test of TestPage.read_postions: time is up, the destination
      has been hit, or the pointer is beyond the destination's right edge
      by more than the passing offset. */
  function StopCause(elapsed: int, timeToFinish: int, destHit: int, x: real, dest: Circle,
                     passingOffset: real, xCmToPixel: real): (r: Option<StopReason>)
    ensures r == Some(Timeout) <==> elapsed >= timeToFinish * 1000000
    ensures r == Some(DestReached) <==> elapsed < timeToFinish * 1000000 && destHit != 0
    ensures r == Some(PassedDestination) <==>
      elapsed < timeToFinish * 1000000 && destHit == 0 && x - (dest.x + dest.rx) >= passingOffset * xCmToPixel
  {
    if elapsed >= timeToFinish * 1000000 then Some(Timeout)
    else if destHit != 0 then Some(DestReached)
    else if x - (dest.x + dest.rx) >= passingOffset * xCmToPixel then Some(PassedDestination)
    else None
  }

  /** The verdict of determin_status, as a value. */
  function SuccessStatus(time: int, timeToFinish: int, destHit: int, circlesHit: seq<int>, rectsHit: seq<int>): (r: int)
    ensures r == 0 || r == 1
  {
    if time <= timeToFinish * 1000000 && destHit != 0 && Sum(circlesHit) == |circlesHit| && Sum(rectsHit) <= 0
    then 1 else 0
  }

  /** With 0/1 flags the verdict is success exactly when the time limit
      was kept, the destination was hit, every intermediate circle was hit
      and no rectangle was. */
  lemma SuccessStatusMeaning(time: int, timeToFinish: int, destHit: int, circlesHit: seq<int>, rectsHit: seq<int>)
    requires Binary(circlesHit) && Binary(rectsHit)
    ensures SuccessStatus(time, timeToFinish, destHit, circlesHit, rectsHit) == 1 <==>
      && time <= timeToFinish * 1000000
      && destHit != 0
      && (forall i :: 0 <= i < |circlesHit| ==> circlesHit[i] == 1)
      && (forall j :: 0 <= j < |rectsHit| ==> rectsHit[j] == 0)
  {
    SumOfFlags(circlesHit);
    SumOfFlags(rectsHit);
  }

  /** TestPage.determin_status: start from success and clear it on each
      violated condition (same code in pages/test_page.py). */
  method DeterminStatus(time: int, timeToFinish: int, destHit: int, circlesHit: seq<int>, rectsHit: seq<int>)
    returns (status: int)
    ensures status == SuccessStatus(time, timeToFinish, destHit, circlesHit, rectsHit)
    ensures Binary(circlesHit) && Binary(rectsHit) ==>
      (status == 1 <==>
        && time <= timeToFinish * 1000000 && destHit != 0
        && (forall i :: 0 <= i < |circlesHit| ==> circlesHit[i] == 1)
        && (forall j :: 0 <= j < |rectsHit| ==> rectsHit[j] == 0))
  {
    status := 1;
    if time > timeToFinish * 1000000 {
      status := 0;
    }
    if destHit == 0 {
      status := 0;
    }
    if Sum(circlesHit) != |circlesHit| {
      status := 0;
    }
    if Sum(rectsHit) > 0 {
      status := 0;
    }
    if Binary(circlesHit) && Binary(rectsHit) {
      SuccessStatusMeaning(time, timeToFinish, destHit, circlesHit, rectsHit);
    }
  }

  /** The verdict of a trial whose flags come from its samples: success
      exactly when the time limit was kept, some sample entered the
      destination, every intermediate circle was entered by some sample and
      no sample touched a rectangle. */
  lemma VerdictOfSamples(g: Layout, pts: seq<Sample>, time: int, timeToFinish: int)
    ensures var f := Replay(ZeroFlags(|g.circles|, |g.rects|), g, pts);
      SuccessStatus(time, timeToFinish, f.destHit, f.circlesHit, f.rectsHit) == 1 <==>
        && time <= timeToFinish * 1000000
        && Visited(g.dest, pts)
        && (forall i :: 0 <= i < |g.circles| ==> Visited(g.circles[i], pts))
        && (forall j :: 0 <= j < |g.rects| ==> !Touched(g.rects[j], pts))
  {
    var f := Replay(ZeroFlags(|g.circles|, |g.rects|), g, pts);
    FlagsFromZero(g, pts);
    SuccessStatusMeaning(time, timeToFinish, f.destHit, f.circlesHit, f.rectsHit);
  }

  /** How tracking stopped decides much of the verdict: passing the
      destination always fails, running over the limit always fails, and
      reaching the destination in time succeeds exactly when every circle
      and no rectangle was hit. */
  lemma StopCauseDecidesVerdict(elapsed: int, timeToFinish: int, destHit: int, x: real, dest: Circle,
                                passingOffset: real, xCmToPixel: real, circlesHit: seq<int>, rectsHit: seq<int>)
    requires Binary(circlesHit) && Binary(rectsHit)
    ensures var cause := StopCause(elapsed, timeToFinish, destHit, x, dest, passingOffset, xCmToPixel);
      var status := SuccessStatus(elapsed, timeToFinish, destHit, circlesHit, rectsHit);
      && (cause == Some(PassedDestination) ==> status == 0)
      && (cause == Some(Timeout) && elapsed > timeToFinish * 1000000 ==> status == 0)
      && (cause == Some(DestReached) ==>
              (status == 1 <==> ((forall i :: 0 <= i < |circlesHit| ==> circlesHit[i] == 1)
                            && (forall j :: 0 <= j < |rectsHit| ==> rectsHit[j] == 0))))
  {
    SuccessStatusMeaning(elapsed, timeToFinish, destHit, circlesHit, rectsHit);
  }

  function Digit(d: nat): char
    requires d < 10
  {
    "0123456789"[d]
  }

  /** Python's str() of a natural number: its decimal digits, with no
      leading zero. */
  function NatToString(n: nat): (s: string)
    ensures |s| >= 1
    ensures forall i :: 0 <= i < |s| ==> '0' <= s[i] <= '9'
    ensures s[0] == '0' ==> n == 0
  {
    if n < 10 then [Digit(n)] else NatToString(n / 10) + [Digit(n % 10)]
  }

  /** The number a string of decimal digits spells, most significant first. */
  function DecimalValue(s: string): nat
    requires forall i :: 0 <= i < |s| ==> '0' <= s[i] <= '9'
  {
    if |s| == 0 then 0
    else DecimalValue(s[..|s| - 1]) * 10 + (s[|s| - 1] as int - '0' as int)
  }

  /** str(n) spells n. */
  lemma {:induction false} NatToStringValue(n: nat)
    ensures DecimalValue(NatToString(n)) == n
    decreases n
  {
    if n < 10 {
      DigitValue(n);
    } else {
      var q, r := n / 10, n % 10;
      var p, s := NatToString(q), NatToString(n);
      assert s == p + [Digit(r)];
      assert s[..|s| - 1] == p;
      NatToStringValue(q);
      DigitValue(r);
      assert n == q * 10 + r;
    }
  }

  /** Digit d spells d. */
  lemma DigitValue(d: nat)
    requires d < 10
    ensures Digit(d) as int - '0' as int == d
  {
  }

  function CircleColumn(number: nat): string
  {
    "circle_" + NatToString(number) + "_hit"
  }

  function RectColumn(number: nat): string
  {
    "rect_" + NatToString(number) + "_hit"
  }

  /** The hit columns of the header: circle_1_hit .. circle_n_hit, then
      rect_1_hit .. rect_m_hit. */
  function HitColumns(n: nat, m: nat): seq<string>
  {
    seq(n, i requires 0 <= i < n => CircleColumn(i + 1)) + seq(m, j requires 0 <= j < m => RectColumn(j + 1))
  }

  /** The loops of generate_header_and_first_row that extend the header. */
  method AppendHitColumns(header: seq<string>, n: nat, m: nat) returns (h: seq<string>)
    ensures h == header + HitColumns(n, m)
  {
    h := header;
    for i := 0 to n
      invariant h == header + seq(i, k requires 0 <= k < i => CircleColumn(k + 1))
    {
      assert seq(i + 1, k requires 0 <= k < i + 1 => CircleColumn(k + 1))
          == seq(i, k requires 0 <= k < i => CircleColumn(k + 1)) + [CircleColumn(i + 1)];
      h := h + [CircleColumn(i + 1)];
    }
    ghost var circles := seq(n, k requires 0 <= k < n => CircleColumn(k + 1));
    for j := 0 to m
      invariant h == header + circles + seq(j, k requires 0 <= k < j => RectColumn(k + 1))
    {
      assert seq(j + 1, k requires 0 <= k < j + 1 => RectColumn(k + 1))
          == seq(j, k requires 0 <= k < j => RectColumn(k + 1)) + [RectColumn(j + 1)];
      h := h + [RectColumn(j + 1)];
    }
  }

  /** Column i + 1 of the hit columns names circle i + 1, column n + j + 1
      names rectangle j + 1. */
  lemma HitColumnsLayout(n: nat, m: nat)
    ensures |HitColumns(n, m)| == n + m
    ensures forall i :: 0 <= i < n ==> HitColumns(n, m)[i] == CircleColumn(i + 1)
    ensures forall j :: n <= j < n + m ==> HitColumns(n, m)[j] == RectColumn(j - n + 1)
  {
  }

  /** The hit columns placed after a fixed header. */
  lemma HitColumnsAfter(base: seq<string>, n: nat, m: nat)
    ensures var h := base + HitColumns(n, m);
      && |h| == |base| + n + m
      && (forall i :: |base| <= i < |base| + n ==> h[i] == CircleColumn(i - |base| + 1))
      && (forall j :: |base| + n <= j < |h| ==> h[j] == RectColumn(j - |base| - n + 1))
  {
    var h := base + HitColumns(n, m);
    HitColumnsLayout(n, m);
    forall i | |base| <= i < |h| ensures h[i] == HitColumns(n, m)[i - |base|] {
    }
  }

  /** The flag cells placed after the fixed cells of a row. */
  lemma FlagCellsAfter(pre: seq<Cell>, c: seq<int>, r: seq<int>)
    ensures var row := pre + FlagCells(c) + FlagCells(r);
      && |row| == |pre| + |c| + |r|
      && row[..|pre|] == pre
      && (forall i :: |pre| <= i < |pre| + |c| ==> row[i] == Num(c[i - |pre|] as real))
      && (forall j :: |pre| + |c| <= j < |row| ==> row[j] == Num(r[j - |pre| - |c|] as real))
  {
    var fc, fr := FlagCells(c), FlagCells(r);
    var row := pre + fc + fr;
    forall i | |pre| <= i < |pre| + |c| ensures row[i] == fc[i - |pre|] {
    }
    forall j | |pre| + |c| <= j < |row| ensures row[j] == fr[j - |pre| - |c|] {
    }
    assert row[..|pre|] == pre;
  }

  /** A fixed header over fixed cells of the same width, each followed by
      the hit columns and the flags: the column named for circle k + 1
      (rectangle k + 1) holds that circle's (rectangle's) flag. */
  lemma HitCellsLineUp(base: seq<string>, pre: seq<Cell>, c: seq<int>, r: seq<int>)
    requires |base| == |pre|
    ensures var header := base + HitColumns(|c|, |r|);
      var row := pre + FlagCells(c) + FlagCells(r);
      var b, n := |base|, |c|;
      && |header| == |row| == b + n + |r|
      && row[..b] == pre
      && (forall i :: b <= i < b + n ==> header[i] == CircleColumn(i - b + 1) && row[i] == Num(c[i - b] as real))
      && (forall j :: b + n <= j < |row| ==> header[j] == RectColumn(j - b - n + 1) && row[j] == Num(r[j - b - n] as real))
  {
    HitColumnsAfter(base, |c|, |r|);
    FlagCellsAfter(pre, c, r);
  }

  lemma DigitInjective(a: nat, b: nat)
    requires a < 10 && b < 10 && Digit(a) == Digit(b)
    ensures a == b
  {
  }

  /** Distinct numbers print differently. */
  lemma {:induction false} NatToStringInjective(a: nat, b: nat)
    requires NatToString(a) == NatToString(b)
    ensures a == b
    decreases a
  {
    var sa, sb := NatToString(a), NatToString(b);
    if a < 10 && b < 10 {
      DigitInjective(a, b);
    } else if a >= 10 && b >= 10 {
      var pa, pb := NatToString(a / 10), NatToString(b / 10);
      assert sa == pa + [Digit(a % 10)] && sb == pb + [Digit(b % 10)];
      assert sa[..|sa| - 1] == pa && sb[..|sb| - 1] == pb;
      DigitInjective(a % 10, b % 10);
      NatToStringInjective(a / 10, b / 10);
    }
  }

  lemma ColumnInjective(prefix: string, a: nat, b: nat)
    requires prefix + NatToString(a) + "_hit" == prefix + NatToString(b) + "_hit"
    ensures a == b
  {
    var sa, sb := prefix + NatToString(a) + "_hit", prefix + NatToString(b) + "_hit";
    assert |NatToString(a)| == |NatToString(b)|;
    assert NatToString(a) == sa[|prefix|..|sa| - 4];
    assert NatToString(b) == sb[|prefix|..|sb| - 4];
    NatToStringInjective(a, b);
  }

  /** The fixed names are distinct and none starts with 'c' or 'r'. */
  lemma BaseHeaderNames()
    ensures |BaseHeader| == 8
    ensures forall i :: 0 <= i < 8 ==> BaseHeader[i][0] != 'c' && BaseHeader[i][0] != 'r'
    ensures forall i, j :: 0 <= i < j < 8 ==> BaseHeader[i] != BaseHeader[j]
  {
  }

  /** Hit columns start with 'c' or 'r'. */
  lemma HitColumnsInitials(n: nat, m: nat)
    ensures forall i :: 0 <= i < n + m ==> HitColumns(n, m)[i][0] == 'c' || HitColumns(n, m)[i][0] == 'r'
  {
    HitColumnsLayout(n, m);
  }

  /** No two hit columns share a name. */
  lemma HitColumnsDistinct(n: nat, m: nat)
    ensures forall i, j :: 0 <= i < j < n + m ==> HitColumns(n, m)[i] != HitColumns(n, m)[j]
  {
    var t := HitColumns(n, m);
    HitColumnsLayout(n, m);
    forall i, j | 0 <= i < j < n + m ensures t[i] != t[j] {
      if j < n && t[i] == t[j] {
        ColumnInjective("circle_", i + 1, j + 1);
      } else if i >= n && t[i] == t[j] {
        ColumnInjective("rect_", i - n + 1, j - n + 1);
      } else if i < n && j >= n {
        assert t[i][0] == 'c' && t[j][0] == 'r';
      }
    }
  }

  /** No two columns of a header share a name: the fixed names begin with
      neither "c" nor "r", circle and rectangle columns differ in their
      first letter, and the numbers differ within each kind. */
  lemma HeaderNamesDistinct(n: nat, m: nat)
    ensures var h := BaseHeader + HitColumns(n, m);
      forall i, j :: 0 <= i < j < |h| ==> h[i] != h[j]
  {
    var h := BaseHeader + HitColumns(n, m);
    var t := HitColumns(n, m);
    assert |t| == n + m;
    BaseHeaderNames();
    HitColumnsInitials(n, m);
    HitColumnsDistinct(n, m);
    forall i, j | 0 <= i < j < |h| ensures h[i] != h[j] {
      if i >= 8 {
        assert h[i] == t[i - 8] && h[j] == t[j - 8];
      } else if j >= 8 {
        assert h[j] == t[j - 8] && h[i] == BaseHeader[i];
        assert h[i][0] != 'c' && h[i][0] != 'r';
      } else {
        assert h[i] == BaseHeader[i] && h[j] == BaseHeader[j];
      }
    }
  }

  /** A value written to the record; Blank is what the csv writer makes of
      None. */
  datatype Cell = Num(v: real) | Blank

  function SampleCells(s: Sample): (r: seq<Cell>)
    ensures |r| == 4
  {
    [Num(s.x), Num(s.y), if s.p.Some? then Num(s.p.value) else Blank, Num(s.t as real)]
  }

  function FlagCells(flags: seq<int>): (r: seq<Cell>)
    ensures |r| == |flags|
    ensures forall i :: 0 <= i < |flags| ==> r[i] == Num(flags[i] as real)
  {
    seq(|flags|, i requires 0 <= i < |flags| => Num(flags[i] as real))
  }

  const BaseHeader: seq<string> :=
    ["x", "y", "pressure", "time", "total_test_time", "success", "source_hit", "dest_hit"]

  /** TestPage.generate_header_and_first_row of pages.py: the header names
      every column of the first row, which is the first sample followed by
      the trial's outcome and its flags. */
  method GenerateHeaderAndFirstRow(points: seq<Sample>, time: int, successStatus: int, sourceHit: int,
                                   destHit: int, circlesHit: seq<int>, rectsHit: seq<int>)
    returns (header: seq<string>, firstRow: seq<Cell>)
    requires |points| > 0
    ensures header == BaseHeader + HitColumns(|circlesHit|, |rectsHit|)
    ensures firstRow == FirstRow(points[0], time, successStatus, sourceHit, destHit, circlesHit, rectsHit)
  {
    header := BaseHeader;
    firstRow := SampleCells(points[0])
      + [Num(time as real), Num(successStatus as real), Num(sourceHit as real), Num(destHit as real)]
      + FlagCells(circlesHit) + FlagCells(rectsHit);
    header := AppendHitColumns(header, |circlesHit|, |rectsHit|);
  }

  /** The values of the first row: the first sample, the outcome of the
      trial, then its flags. */
  function FirstRow(s: Sample, time: int, successStatus: int, sourceHit: int, destHit: int,
                    circlesHit: seq<int>, rectsHit: seq<int>): seq<Cell>
  {
    SampleCells(s) + [Num(time as real), Num(successStatus as real), Num(sourceHit as real), Num(destHit as real)]
      + FlagCells(circlesHit) + FlagCells(rectsHit)
  }

  /** The header and the first row line up: both have 8 + n + m columns,
      the fixed columns hold the sample and the outcome, and the column
      named for circle i (rectangle j) holds that circle's (rectangle's)
      flag. */
  lemma HeaderMatchesFirstRow(s: Sample, time: int, successStatus: int, sourceHit: int, destHit: int,
                              circlesHit: seq<int>, rectsHit: seq<int>)
    ensures var header := BaseHeader + HitColumns(|circlesHit|, |rectsHit|);
      var row := FirstRow(s, time, successStatus, sourceHit, destHit, circlesHit, rectsHit);
      var n := |circlesHit|;
      && |header| == |row| == 8 + n + |rectsHit|
      && row[..8] == SampleCells(s) + [Num(time as real), Num(successStatus as real), Num(sourceHit as real), Num(destHit as real)]
      && (forall i :: 8 <= i < 8 + n ==> header[i] == CircleColumn(i - 7) && row[i] == Num(circlesHit[i - 8] as real))
      && (forall j :: 8 + n <= j < |row| ==>
            header[j] == RectColumn(j - 7 - n) && row[j] == Num(rectsHit[j - 8 - n] as real))
  {
    var pre := SampleCells(s) + [Num(time as real), Num(successStatus as real), Num(sourceHit as real), Num(destHit as real)];
    assert |BaseHeader| == 8 && |pre| == 8;
    HitCellsLineUp(BaseHeader, pre, circlesHit, rectsHit);
    assert FirstRow(s, time, successStatus, sourceHit, destHit, circlesHit, rectsHit)
        == pre + FlagCells(circlesHit) + FlagCells(rectsHit);
  }

  /** The timer-driven TestPage of pages.py, without the widget: the
      tablet handler is commented out there, so every sample comes from the
      cursor and carries no pressure. */
  class TestPage {
    const data: Data
    const samplingRateMs: int
    var startTime: Option<int>
    var timerRunning: bool

    ghost predicate Valid()
      reads this, data, data.state
    {
      data.Valid() && (timerRunning ==> startTime.Some?)
    }

    constructor (data: Data)
      requires data.Valid() && data.rate != 0
      ensures Valid() && this.data == data
      ensures samplingRateMs == SamplingRateMs(data.rate)
      ensures startTime == None && !timerRunning
    {
      this.data := data;
      samplingRateMs := SamplingRateMs(data.rate);
      startTime := None;
      timerRunning := false;
    }

    /** TestPage.on_tracking_start at clock reading now. */
    method OnTrackingStart(now: int)
      requires Valid()
      modifies this
      ensures Valid()
      ensures startTime == Some(now) && timerRunning
    {
      startTime := Some(now);
      timerRunning := true;
    }

    /** TestPage.mousePressEvent: the first press starts tracking, later
        ones do nothing. */
    method MousePressEvent(now: int)
      requires Valid()
      modifies this
      ensures Valid()
      ensures old(startTime).None? ==> startTime == Some(now) && timerRunning
      ensures old(startTime).Some? ==> startTime == old(startTime) && timerRunning == old(timerRunning)
    {
      if startTime.None? {
        OnTrackingStart(now);
      }
    }

    /** TestPage.on_tracking_stop: record the elapsed time, decide the
        verdict and stop the timer. */
    method OnTrackingStop(elapsed: int)
      requires Valid()
      modifies this, data.state
      ensures Valid()
      ensures data.state.time == Some(elapsed) && !timerRunning && startTime == old(startTime)
      ensures data.state.successStatus ==
        SuccessStatus(elapsed, data.timeToFinish, data.state.destHit, data.state.circlesHit, data.state.rectsHit)
      ensures data.state.Flags() == old(data.state.Flags()) && data.state.points == old(data.state.points)
    {
      data.state.time := Some(elapsed);
      var status := DeterminStatus(elapsed, data.timeToFinish, data.state.destHit,
                                   data.state.circlesHit, data.state.rectsHit);
      data.state.successStatus := status;
      timerRunning := false;
    }

    /** TestPage.read_postions, one timer tick with the cursor at (x, y)
        and the clock at now: record the sample, then stop if StopCause
        says so. */
    method ReadPositions(x: real, y: real, now: int)
      requires Valid() && timerRunning
      modifies this, data.state
      ensures Valid() && startTime == old(startTime)
      ensures data.state.points == old(data.state.points) + [Sample(x, y, None, now - old(startTime).value)]
      ensures data.state.Flags() == Step(old(data.state.Flags()), data.Geometry(), x, y)
      ensures var elapsed := now - old(startTime).value;
        var cause := StopCause(elapsed, data.timeToFinish, data.state.destHit, x, data.destCircle,
                               data.passingOffset, data.dimensions.XCmToPixel());
        && (cause.Some? ==>
              && !timerRunning && data.state.time == Some(elapsed)
              && data.state.successStatus == SuccessStatus(elapsed, data.timeToFinish, data.state.destHit,
                                                           data.state.circlesHit, data.state.rectsHit))
        && (cause.None? ==>
              && timerRunning && data.state.time == old(data.state.time)
              && data.state.successStatus == old(data.state.successStatus))
    {
      var elapsed := now - startTime.value;
      data.ProcessNewPoint(x, y, None, elapsed);
      var dest := data.destCircle;
      if elapsed >= data.timeToFinish * 1000000 {
        OnTrackingStop(elapsed);
      } else if data.state.destHit != 0 {
        OnTrackingStop(elapsed);
      } else if x - (dest.x + dest.rx) >= data.passingOffset * data.dimensions.XCmToPixel() {
        OnTrackingStop(elapsed);
      }
    }
  }
}
