/** The threaded TestPage of pages/test_page.py, read sequentially: a
    reading loop puts samples on a queue at a fixed cadence, a processing
    loop drains it, and the first sample that ends the trial stops
    tracking. Rows of its input file describe rectangles with six fields. */
module PagesTestPage {
  import opened Common
  import opened Shapes
  import opened Models
  import opened Pages

  /** PageManager.get_data_from_input_row of pages/test_page.py: the same
      index walk as in pages.py with six fields per rectangle, after which
      Data (models.py) unpacks each rectangle group into four fields. */
  method GetDataFromInputRow(data: seq<real>, dimensions: ScreenDimensions, passingOffset: real)
    returns (r: Result<Data, ParseError>)
    requires dimensions.Valid()
    ensures !Parses(data) ==> r.Failure? && r.error.IndexError?
    ensures Parses(data) ==>
      (r.Success? <==> var m := Count(data[RectCountIndex(data)]);
                       m == 0 || (m == 1 && |data| == RectCountIndex(data) + 5))
    ensures r.Success? ==> fresh(r.value) && fresh(r.value.state) && r.value.Valid()
    ensures r.Success? ==> TrialOf(r.value, data, 6, dimensions, passingOffset)
    ensures r.Success? ==> r.value.state.points == [] && r.value.state.time == None
    ensures r.Success? ==> r.value.state.Flags() == ZeroFlags(Count(data[8]), Count(data[RectCountIndex(data)]))
  {
    if Parses(data) {
      SixFieldRectangles(data);
    }
    r := ReadTrial(data, 6, dimensions, passingOffset);
  }

  /** With six fields per rectangle and four unpacked, a row with
      rectangles is accepted only when it holds one rectangle cut short
      after four fields by the end of the row. */
  lemma SixFieldRectangles(data: seq<real>)
    requires Parses(data)
    ensures var m := Count(data[RectCountIndex(data)]);
      RectanglesAreBoxes(data, 6) <==> m == 0 || (m == 1 && |data| == RectCountIndex(data) + 5)
  {
    var b := RectCountIndex(data) + 1;
    var m := Count(data[RectCountIndex(data)]);
    if m >= 1 && RectanglesAreBoxes(data, 6) {
      assert |Group(data, b, 6, 0)| == 4;
      assert |data| == b + 4;
      assert m >= 2 ==> |Group(data, b, 6, 1)| == 0;
    }
  }

  /** A complete six-field rectangle group makes the row fail. */
  lemma CompleteRectangleRejected(data: seq<real>)
    requires Parses(data)
    requires Count(data[RectCountIndex(data)]) >= 1 && |data| >= RectCountIndex(data) + 7
    ensures !RectanglesAreBoxes(data, 6)
  {
    SixFieldRectangles(data);
  }

  /** A tablet sample: position and pen pressure. */
  datatype TabletData = TabletData(x: real, y: real, p: real)

  /** TestPage.check_end_test: 1 when the sample at time t ends tracking. */
  function CheckEndTest(x: real, t: int, d: Layout, destHit: int, timeToFinish: int,
                        passingOffset: real, xCmToPixel: real): (r: int)
    ensures r == 0 || r == 1
    ensures r == 1 <==>
      t >= timeToFinish * 1000000 || destHit != 0 || x - (d.dest.x + d.dest.rx) >= passingOffset * xCmToPixel
  {
    if t >= timeToFinish * 1000000 then 1
    else if destHit != 0 then 1
    else if x - (d.dest.x + d.dest.rx) >= passingOffset * xCmToPixel then 1
    else 0
  }

  /** Both pages use the same end-of-trial test. */
  lemma CheckEndTestAgreesWithStopCause(x: real, t: int, d: Layout, destHit: int, timeToFinish: int,
                                        passingOffset: real, xCmToPixel: real)
    ensures CheckEndTest(x, t, d, destHit, timeToFinish, passingOffset, xCmToPixel) == 1 <==>
      StopCause(t, timeToFinish, destHit, x, d.dest, passingOffset, xCmToPixel).Some?
  {
  }

  /** The time_out column: 1 when the recorded time is over the limit. */
  function TimeOut(time: int, timeToFinish: int): (r: int)
    ensures r == 0 || r == 1
    ensures r == 1 <==> time > timeToFinish * 1000000
  {
    if time > timeToFinish * 1000000 then 1 else 0
  }

  /** A timed-out trial never succeeds. */
  lemma TimeOutMeansFailure(time: int, timeToFinish: int, destHit: int, circlesHit: seq<int>, rectsHit: seq<int>)
    ensures TimeOut(time, timeToFinish) == 1 ==> SuccessStatus(time, timeToFinish, destHit, circlesHit, rectsHit) == 0
  {
  }

  const BaseHeader9: seq<string> :=
    ["x", "y", "pressure", "time", "total_test_time", "success", "time_out", "source_hit", "dest_hit"]

  /** The first row of pages/test_page.py: the first sample, the total
      time in milliseconds, the verdict, the time-out flag, then the
      trial's flags. */
  function FirstRow9(s: Sample, time: int, timeToFinish: int, successStatus: int, sourceHit: int, destHit: int,
                     circlesHit: seq<int>, rectsHit: seq<int>): seq<Cell>
  {
    SampleCells(s)
      + [Num(time as real / 1000000.0), Num(successStatus as real), Num(TimeOut(time, timeToFinish) as real),
         Num(sourceHit as real), Num(destHit as real)]
      + FlagCells(circlesHit) + FlagCells(rectsHit)
  }

  /** TestPage.generate_header_and_first_row of pages/test_page.py. */
  method GenerateHeaderAndFirstRow(points: seq<Sample>, time: int, timeToFinish: int, successStatus: int,
                                   sourceHit: int, destHit: int, circlesHit: seq<int>, rectsHit: seq<int>)
    returns (header: seq<string>, firstRow: seq<Cell>)
    requires |points| > 0
    ensures header == BaseHeader9 + HitColumns(|circlesHit|, |rectsHit|)
    ensures firstRow == FirstRow9(points[0], time, timeToFinish, successStatus, sourceHit, destHit, circlesHit, rectsHit)
  {
    header := BaseHeader9;
    firstRow := FirstRow9(points[0], time, timeToFinish, successStatus, sourceHit, destHit, circlesHit, rectsHit);
    header := AppendHitColumns(header, |circlesHit|, |rectsHit|);
  }

  /** The fixed cells of the first row: nine of them, the total time in
      milliseconds fifth and the time-out flag seventh. */
  lemma FixedColumns9(s: Sample, time: int, timeToFinish: int, successStatus: int, sourceHit: int, destHit: int)
    ensures var pre := SampleCells(s)
      + [Num(time as real / 1000000.0), Num(successStatus as real), Num(TimeOut(time, timeToFinish) as real),
         Num(sourceHit as real), Num(destHit as real)];
      && |pre| == 9 && pre[4] == Num(time as real / 1000000.0)
      && (pre[6] == Num(1.0) <==> time > timeToFinish * 1000000)
  {
    var t := TimeOut(time, timeToFinish);
    assert Num(t as real) == Num(1.0) <==> t == 1;
  }

  /** Header and first row line up: 9 + n + m columns each, total time in
      milliseconds under total_test_time, the time-out flag under time_out,
      and each circle's and rectangle's flag under its own name. */
  lemma HeaderMatchesFirstRow9(s: Sample, time: int, timeToFinish: int, successStatus: int, sourceHit: int,
                               destHit: int, circlesHit: seq<int>, rectsHit: seq<int>)
    ensures |BaseHeader9 + HitColumns(|circlesHit|, |rectsHit|)| == 9 + |circlesHit| + |rectsHit|
    ensures var row := FirstRow9(s, time, timeToFinish, successStatus, sourceHit, destHit, circlesHit, rectsHit);
      |row| == 9 + |circlesHit| + |rectsHit|
    ensures var header := BaseHeader9 + HitColumns(|circlesHit|, |rectsHit|);
      header[4] == "total_test_time" && header[6] == "time_out"
    ensures var row := FirstRow9(s, time, timeToFinish, successStatus, sourceHit, destHit, circlesHit, rectsHit);
      && row[4] == Num(time as real / 1000000.0)
      && (row[6] == Num(1.0) <==> time > timeToFinish * 1000000)
    ensures var header := BaseHeader9 + HitColumns(|circlesHit|, |rectsHit|);
      var row := FirstRow9(s, time, timeToFinish, successStatus, sourceHit, destHit, circlesHit, rectsHit);
      var n := |circlesHit|;
      && (forall i :: 9 <= i < 9 + n ==> header[i] == CircleColumn(i - 8) && row[i] == Num(circlesHit[i - 9] as real))
      && (forall j :: 9 + n <= j < |row| ==>
            header[j] == RectColumn(j - 8 - n) && row[j] == Num(rectsHit[j - 9 - n] as real))
  {
    var pre := SampleCells(s)
      + [Num(time as real / 1000000.0), Num(successStatus as real), Num(TimeOut(time, timeToFinish) as real),
         Num(sourceHit as real), Num(destHit as real)];
    FixedColumns9(s, time, timeToFinish, successStatus, sourceHit, destHit);
    assert |BaseHeader9| == 9;
    HitCellsLineUp(BaseHeader9, pre, circlesHit, rectsHit);
    var row := pre + FlagCells(circlesHit) + FlagCells(rectsHit);
    assert FirstRow9(s, time, timeToFinish, successStatus, sourceHit, destHit, circlesHit, rectsHit) == row;
    assert row[4] == row[..9][4] == pre[4] && row[6] == row[..9][6] == pre[6];
    var header := BaseHeader9 + HitColumns(|circlesHit|, |rectsHit|);
    assert header[4] == BaseHeader9[4] && header[6] == BaseHeader9[6];
  }

  /** TestPage.save_diffs: the time between each pair of consecutive
      samples. The differences add up to the span of the whole trial. */
  method SaveDiffs(points: seq<Sample>) returns (diffs: seq<int>)
    ensures |points| == 0 ==> diffs == []
    ensures |points| > 0 ==> |diffs| == |points| - 1
    ensures forall i :: 0 <= i < |diffs| ==> diffs[i] == points[i + 1].t - points[i].t
    ensures |points| > 0 ==> Sum(diffs) == points[|points| - 1].t - points[0].t
  {
    diffs := [];
    if |points| == 0 {
      return;
    }
    for i := 1 to |points|
      invariant |diffs| == i - 1
      invariant forall k :: 0 <= k < |diffs| ==> diffs[k] == points[k + 1].t - points[k].t
      invariant Sum(diffs) == points[i - 1].t - points[0].t
    {
      SumAppend(diffs, points[i].t - points[i - 1].t);
      diffs := diffs + [points[i].t - points[i - 1].t];
    }
  }

  /** `not self.start_time`: true before tracking starts, and also for a
      start time of 0. */
  predicate NotStarted(startTime: Option<int>)
  {
    startTime.None? || startTime.value == 0
  }

  /** One poll of the reading loop: the clock reading that decides the
      cadence, the cursor position, what tabletEvent has last stored by
      then (tablet_data while tablet_connected holds, None before the
      first tablet event), and the later clock reading the sample's
      elapsed time is taken from. */
  datatype Reading = Reading(now: int, cursorX: real, cursorY: real, pen: Option<TabletData>, stamp: int)

  /** The samples the reading loop queues from a run of polls, given the
      time of the last sample taken. */
  function Sampled(polls: seq<Reading>, last: int, start: int): seq<Sample>
  {
    if |polls| == 0 then []
    else if polls[0].now - last > SamplingIntervalNs then
      [TakeSample(polls[0], start)] + Sampled(polls[1..], polls[0].now, start)
    else Sampled(polls[1..], last, start)
  }

  /** sampling_rate_ms of pages/test_page.py is fixed at 5 ms. */
  const SamplingIntervalNs: int := 5 * 1000000

  function TakeSample(poll: Reading, start: int): (s: Sample)
    ensures s.t == poll.stamp - start
    ensures s.p.Some? <==> poll.pen.Some?
  {
    if poll.pen.Some? then Sample(poll.pen.value.x, poll.pen.value.y, Some(poll.pen.value.p), poll.stamp - start)
    else Sample(poll.cursorX, poll.cursorY, None, poll.stamp - start)
  }

  /** The polls that produce a sample, as indices. */
  function Taken(polls: seq<Reading>, last: int): seq<nat>
  {
    if |polls| == 0 then []
    else if polls[0].now - last > SamplingIntervalNs then
      [0] + Shift(Taken(polls[1..], polls[0].now))
    else Shift(Taken(polls[1..], last))
  }

  function Shift(s: seq<nat>): (r: seq<nat>)
    ensures |r| == |s| && forall i :: 0 <= i < |s| ==> r[i] == s[i] + 1
  {
    seq(|s|, i requires 0 <= i < |s| => s[i] + 1)
  }

  /** out[i] is the sample taken from poll idx[i]. */
  ghost predicate SampledBy(polls: seq<Reading>, idx: seq<nat>, out: seq<Sample>, start: int)
  {
    && |idx| == |out|
    && forall i :: 0 <= i < |idx| ==> idx[i] < |polls| && out[i] == TakeSample(polls[idx[i]], start)
  }

  /** A poll skipped in front shifts the indices of the rest by one. */
  lemma SkipSampled(p0: Reading, rest: seq<Reading>, ri: seq<nat>, out: seq<Sample>, start: int)
    requires SampledBy(rest, ri, out, start)
    ensures SampledBy([p0] + rest, Shift(ri), out, start)
  {
    var polls := [p0] + rest;
    assert forall i :: 0 <= i < |ri| ==> polls[Shift(ri)[i]] == rest[ri[i]];
  }

  /** A poll taken in front adds its sample at index 0. */
  lemma TakeSampled(p0: Reading, rest: seq<Reading>, ri: seq<nat>, out: seq<Sample>, start: int)
    requires SampledBy(rest, ri, out, start)
    ensures SampledBy([p0] + rest, [0] + Shift(ri), [TakeSample(p0, start)] + out, start)
  {
    var polls := [p0] + rest;
    var idx, o := [0] + Shift(ri), [TakeSample(p0, start)] + out;
    forall i | 0 <= i < |idx| ensures idx[i] < |polls| && o[i] == TakeSample(polls[idx[i]], start) {
      if i > 0 {
        assert idx[i] == Shift(ri)[i - 1] && o[i] == out[i - 1] && polls[idx[i]] == rest[ri[i - 1]];
      }
    }
  }

  /** Every queued sample comes from a taken poll and carries that poll's
      time since the start. */
  lemma {:induction false} SampledFromTaken(polls: seq<Reading>, last: int, start: int)
    ensures var idx := Taken(polls, last);
      var out := Sampled(polls, last, start);
      && |idx| == |out|
      && forall i :: 0 <= i < |idx| ==> idx[i] < |polls| && out[i] == TakeSample(polls[idx[i]], start)
  {
    if |polls| > 0 {
      var rest := polls[1..];
      assert polls == [polls[0]] + rest;
      var taken := polls[0].now - last > SamplingIntervalNs;
      var l' := if taken then polls[0].now else last;
      SampledFromTaken(rest, l', start);
      assert SampledBy(rest, Taken(rest, l'), Sampled(rest, l', start), start);
      if taken {
        assert Taken(polls, last) == [0] + Shift(Taken(rest, l'));
        assert Sampled(polls, last, start) == [TakeSample(polls[0], start)] + Sampled(rest, l', start);
        TakeSampled(polls[0], rest, Taken(rest, l'), Sampled(rest, l', start), start);
      } else {
        assert Taken(polls, last) == Shift(Taken(rest, l'));
        assert Sampled(polls, last, start) == Sampled(rest, l', start);
        SkipSampled(polls[0], rest, Taken(rest, l'), Sampled(rest, l', start), start);
      }
      assert SampledBy(polls, Taken(polls, last), Sampled(polls, last, start), start);
    }
  }

  /** idx picks polls in order: the first more than 5 ms after last, and
      each later one more than 5 ms after the one before it. */
  ghost predicate Cadenced(polls: seq<Reading>, idx: seq<nat>, last: int)
  {
    && (forall i :: 0 <= i < |idx| ==> idx[i] < |polls|)
    && (|idx| > 0 ==> polls[idx[0]].now - last > SamplingIntervalNs)
    && (forall i :: 0 < i < |idx| ==> idx[i - 1] < idx[i] && polls[idx[i]].now - polls[idx[i - 1]].now > SamplingIntervalNs)
  }

  /** A poll skipped in front keeps the picks of the rest at the cadence. */
  lemma SkipCadenced(p0: Reading, rest: seq<Reading>, ri: seq<nat>, last: int)
    requires Cadenced(rest, ri, last)
    ensures Cadenced([p0] + rest, Shift(ri), last)
  {
    var polls := [p0] + rest;
    assert forall i :: 0 <= i < |ri| ==> polls[Shift(ri)[i]] == rest[ri[i]];
  }

  /** A poll taken in front, more than 5 ms after last, does too. */
  lemma TakeCadenced(p0: Reading, rest: seq<Reading>, ri: seq<nat>, last: int)
    requires Cadenced(rest, ri, p0.now) && p0.now - last > SamplingIntervalNs
    ensures Cadenced([p0] + rest, [0] + Shift(ri), last)
  {
    var polls := [p0] + rest;
    var si := Shift(ri);
    var idx := [0] + si;
    assert forall i :: 0 <= i < |ri| ==> polls[si[i]] == rest[ri[i]];
    forall i | 0 < i < |idx|
      ensures idx[i - 1] < idx[i] && polls[idx[i]].now - polls[idx[i - 1]].now > SamplingIntervalNs
    {
      if i > 1 {
        assert idx[i] == si[i - 1] && idx[i - 1] == si[i - 2];
      } else {
        assert idx[1] == si[0] && polls[si[0]] == rest[ri[0]] && idx[0] == 0;
      }
    }
  }

  /** Where the run of polls after pick i ends: at the next pick, or at
      end after the final one. */
  function NextPick(idx: seq<nat>, i: nat, end: nat): nat
    requires i < |idx|
  {
    if i + 1 == |idx| then end else idx[i + 1]
  }

  /** No poll is missed: every poll before the first pick is at most 5 ms
      after last, and every poll between two picks, or after the final
      one, is at most 5 ms after the pick before it. */
  ghost predicate NoneMissed(polls: seq<Reading>, idx: seq<nat>, last: int)
  {
    && (forall j :: 0 <= j < |polls| && (|idx| == 0 || j < idx[0]) ==> polls[j].now - last <= SamplingIntervalNs)
    && (forall i, j :: 0 <= i < |idx| && idx[i] < j < |polls| && j < NextPick(idx, i, |polls|) ==>
          polls[j].now - polls[idx[i]].now <= SamplingIntervalNs)
  }

  /** A poll skipped in front, at most 5 ms after last, misses nothing. */
  lemma SkipNoneMissed(p0: Reading, rest: seq<Reading>, ri: seq<nat>, last: int)
    requires NoneMissed(rest, ri, last) && p0.now - last <= SamplingIntervalNs
    ensures NoneMissed([p0] + rest, Shift(ri), last)
  {
    var polls, si := [p0] + rest, Shift(ri);
    forall j | 0 <= j < |polls| && (|si| == 0 || j < si[0])
      ensures polls[j].now - last <= SamplingIntervalNs
    {
      if j > 0 {
        assert polls[j] == rest[j - 1];
      }
    }
    forall i, j | 0 <= i < |si| && si[i] < j < |polls| && j < NextPick(si, i, |polls|)
      ensures polls[j].now - polls[si[i]].now <= SamplingIntervalNs
    {
      assert polls[j] == rest[j - 1] && polls[si[i]] == rest[ri[i]];
    }
  }

  /** A poll taken in front misses nothing when the rest, measured from
      it, misses nothing. */
  lemma TakeNoneMissed(p0: Reading, rest: seq<Reading>, ri: seq<nat>, last: int)
    requires NoneMissed(rest, ri, p0.now)
    ensures NoneMissed([p0] + rest, [0] + Shift(ri), last)
  {
    var polls, si := [p0] + rest, Shift(ri);
    var idx := [0] + si;
    forall i, j | 0 <= i < |idx| && idx[i] < j < |polls| && j < NextPick(idx, i, |polls|)
      ensures polls[j].now - polls[idx[i]].now <= SamplingIntervalNs
    {
      assert polls[j] == rest[j - 1];
      if i == 0 {
        assert polls[idx[0]] == p0;
        assert |ri| == 0 || j - 1 < ri[0];
      } else {
        assert idx[i] == si[i - 1] && polls[idx[i]] == rest[ri[i - 1]];
        assert i == |ri| || j - 1 < ri[i];
      }
    }
  }

  /** The induction behind the completeness half of TakenCadence. */
  lemma {:induction false} TakenMissesNone(polls: seq<Reading>, last: int)
    ensures NoneMissed(polls, Taken(polls, last), last)
  {
    if |polls| > 0 {
      var rest := polls[1..];
      assert polls == [polls[0]] + rest;
      var taken := polls[0].now - last > SamplingIntervalNs;
      var l' := if taken then polls[0].now else last;
      TakenMissesNone(rest, l');
      if taken {
        assert Taken(polls, last) == [0] + Shift(Taken(rest, l'));
        TakeNoneMissed(polls[0], rest, Taken(rest, l'), last);
      } else {
        assert Taken(polls, last) == Shift(Taken(rest, l'));
        SkipNoneMissed(polls[0], rest, Taken(rest, l'), last);
      }
    }
  }

  /** The induction behind TakenCadence, one poll at a time. */
  lemma {:induction false} TakenIsCadenced(polls: seq<Reading>, last: int)
    ensures Cadenced(polls, Taken(polls, last), last)
  {
    if |polls| > 0 {
      var rest := polls[1..];
      assert polls == [polls[0]] + rest;
      var taken := polls[0].now - last > SamplingIntervalNs;
      var l' := if taken then polls[0].now else last;
      TakenIsCadenced(rest, l');
      if taken {
        assert Taken(polls, last) == [0] + Shift(Taken(rest, l'));
        TakeCadenced(polls[0], rest, Taken(rest, l'), last);
      } else {
        assert Taken(polls, last) == Shift(Taken(rest, l'));
        SkipCadenced(polls[0], rest, Taken(rest, l'), last);
      }
    }
  }

  /** Samples are taken exactly at the cadence: the taken polls are in
      order, the first is more than 5 ms after the last sample before them
      and each later one more than 5 ms after the one before it; and every
      poll not taken is at most 5 ms after the sample before it. */
  lemma TakenCadence(polls: seq<Reading>, last: int)
    ensures var idx := Taken(polls, last);
      && (forall i :: 0 <= i < |idx| ==> idx[i] < |polls|)
      && (|idx| > 0 ==> polls[idx[0]].now - last > SamplingIntervalNs)
      && (forall i :: 0 < i < |idx| ==> idx[i - 1] < idx[i] && polls[idx[i]].now - polls[idx[i - 1]].now > SamplingIntervalNs)
    ensures var idx := Taken(polls, last);
      forall j :: 0 <= j < |polls| && (|idx| == 0 || j < idx[0]) ==> polls[j].now - last <= SamplingIntervalNs
    ensures var idx := Taken(polls, last);
      forall i, j :: 0 <= i < |idx| && idx[i] < j < |polls| && j < NextPick(idx, i, |polls|) ==>
        polls[j].now - polls[idx[i]].now <= SamplingIntervalNs
  {
    TakenIsCadenced(polls, last);
    TakenMissesNone(polls, last);
  }

  /** Whether sample k of a queue ends tracking, judged on the flags after
      processing it. */
  function EndsAt(d: Data, f: HitFlags, queue: seq<Sample>, k: nat): int
    requires d.dimensions.Valid() && Fits(f, d.Geometry()) && k < |queue|
  {
    CheckEndTest(queue[k].x, queue[k].t, d.Geometry(), Replay(f, d.Geometry(), queue[..k + 1]).destHit,
                 d.timeToFinish, d.passingOffset, d.dimensions.XCmToPixel())
  }

  /** TestPage without the widget and the sound. Its threads are read as
      sequential steps: the reading loop is ReadData, the processing loop
      ProcessData, and stop_tracking runs at once when started. */
  class TestPage {
    const data: Data
    var tabletConnected: bool
    var tabletData: Option<TabletData>
    var startTime: Option<int>
    var isRunning: bool

    ghost predicate Valid()
      reads this, data, data.state
    {
      data.Valid() && (isRunning ==> startTime.Some?)
    }

    constructor (data: Data)
      requires data.Valid()
      ensures Valid() && this.data == data
      ensures !tabletConnected && tabletData == None && startTime == None && !isRunning
    {
      this.data := data;
      tabletConnected := false;
      tabletData := None;
      startTime := None;
      isRunning := false;
    }

    /** TestPage.start_tracking at clock reading now. */
    method StartTracking(now: int)
      requires Valid()
      modifies this
      ensures Valid()
      ensures startTime == Some(now) && isRunning
      ensures tabletConnected == old(tabletConnected) && tabletData == old(tabletData)
    {
      startTime := Some(now);
      isRunning := true;
    }

    /** TestPage.tabletEvent: any tablet event marks the tablet connected
        and records the pen; a press inside the source circle starts
        tracking if it has not started. */
    method TabletEvent(isPress: bool, x: real, y: real, p: real, now: int)
      requires Valid()
      modifies this
      ensures Valid()
      ensures tabletConnected && tabletData == Some(TabletData(x, y, p))
      ensures isPress && CheckHit(data.sourceCircle, x, y) && NotStarted(old(startTime)) ==>
        startTime == Some(now) && isRunning
      ensures !(isPress && CheckHit(data.sourceCircle, x, y) && NotStarted(old(startTime))) ==>
        startTime == old(startTime) && isRunning == old(isRunning)
    {
      tabletConnected := true;
      tabletData := Some(TabletData(x, y, p));
      if isPress && CheckHit(data.sourceCircle, x, y) && NotStarted(startTime) {
        StartTracking(now);
      }
    }

    /** TestPage.mousePressEvent: with no tablet, the first click starts
        tracking. */
    method MousePressEvent(now: int)
      requires Valid()
      modifies this
      ensures Valid()
      ensures !old(tabletConnected) && NotStarted(old(startTime)) ==> startTime == Some(now) && isRunning
      ensures old(tabletConnected) || !NotStarted(old(startTime)) ==>
        startTime == old(startTime) && isRunning == old(isRunning)
      ensures tabletConnected == old(tabletConnected) && tabletData == old(tabletData)
    {
      if !tabletConnected && NotStarted(startTime) {
        StartTracking(now);
      }
    }

    /** TestPage.read_data over a run of polls while tracking: a sample is
        queued whenever more than 5 ms have passed since the last one,
        taken from the pen when the tablet is connected at that poll and
        from the cursor otherwise. */
    method ReadData(polls: seq<Reading>) returns (queued: seq<Sample>)
      requires isRunning && startTime.Some?
      ensures queued == Sampled(polls, startTime.value, startTime.value)
    {
      var start := startTime.value;
      var last := start;
      queued := [];
      for i := 0 to |polls|
        invariant queued + Sampled(polls[i..], last, start) == Sampled(polls, start, start)
      {
        assert polls[i..][1..] == polls[i + 1..];
        if polls[i].now - last > SamplingIntervalNs {
          last := polls[i].now;
          queued := queued + [TakeSample(polls[i], start)];
        }
      }
    }

    /** TestPage.stop_tracking: stop the loops, record the time and decide
        the verdict. */
    method StopTracking(t: int)
      requires Valid()
      modifies this, data.state
      ensures Valid()
      ensures !isRunning && data.state.time == Some(t)
      ensures data.state.successStatus ==
        SuccessStatus(t, data.timeToFinish, data.state.destHit, data.state.circlesHit, data.state.rectsHit)
      ensures data.state.Flags() == old(data.state.Flags()) && data.state.points == old(data.state.points)
      ensures startTime == old(startTime) && tabletConnected == old(tabletConnected) && tabletData == old(tabletData)
    {
      isRunning := false;
      data.state.time := Some(t);
      var status := DeterminStatus(t, data.timeToFinish, data.state.destHit, data.state.circlesHit, data.state.rectsHit);
      data.state.successStatus := status;
    }

    /** One pass of the processing loop: record the sample, then stop
        tracking if it ends the trial while tracking is on. */
    method ProcessSample(s: Sample)
      requires Valid()
      modifies this, data.state
      ensures Valid()
      ensures data.state.points == old(data.state.points) + [s]
      ensures data.state.Flags() == Step(old(data.state.Flags()), data.Geometry(), s.x, s.y)
      ensures var ends := CheckEndTest(s.x, s.t, data.Geometry(), data.state.destHit, data.timeToFinish,
                                        data.passingOffset, data.dimensions.XCmToPixel());
        && (old(isRunning) && ends == 1 ==>
              && !isRunning && data.state.time == Some(s.t)
              && data.state.successStatus ==
                   SuccessStatus(s.t, data.timeToFinish, data.state.destHit, data.state.circlesHit, data.state.rectsHit))
        && (!(old(isRunning) && ends == 1) ==>
              && isRunning == old(isRunning) && data.state.time == old(data.state.time)
              && data.state.successStatus == old(data.state.successStatus))
      ensures startTime == old(startTime) && tabletConnected == old(tabletConnected) && tabletData == old(tabletData)
    {
      data.ProcessNewPoint(s.x, s.y, s.p, s.t);
      if isRunning && CheckEndTest(s.x, s.t, data.Geometry(), data.state.destHit, data.timeToFinish,
                                   data.passingOffset, data.dimensions.XCmToPixel()) == 1 {
        StopTracking(s.t);
      }
    }

    /** TestPage.process_data over the queued samples: every sample is
        recorded, and the first one that ends the trial while tracking
        stops it; later samples are still recorded. */
    method ProcessData(queue: seq<Sample>)
      requires Valid()
      modifies this, data.state
      ensures Valid()
      ensures data.state.points == old(data.state.points) + queue
      ensures data.state.Flags() == Replay(old(data.state.Flags()), data.Geometry(), queue)
      ensures !old(isRunning) ==>
        (!isRunning && data.state.time == old(data.state.time) && data.state.successStatus == old(data.state.successStatus))
      ensures old(isRunning) ==>
        (isRunning <==> forall k :: 0 <= k < |queue| ==> EndsAt(data, old(data.state.Flags()), queue, k) == 0)
      ensures old(isRunning) && !isRunning ==>
        exists k :: StoppedAt(data, old(data.state.Flags()), queue, k, data.state.time, data.state.successStatus)
      ensures startTime == old(startTime) && tabletConnected == old(tabletConnected) && tabletData == old(tabletData)
    {
      ghost var f0 := data.state.Flags();
      ghost var p0 := data.state.points;
      ghost var running0 := isRunning;
      ghost var time0, status0 := data.state.time, data.state.successStatus;
      ghost var stop: nat := 0;
      for i := 0 to |queue|
        invariant Valid()
        invariant data.state.points == p0 + queue[..i]
        invariant data.state.Flags() == Replay(f0, data.Geometry(), queue[..i])
        invariant Tracked(data, f0, queue, i, running0, time0, status0, stop, isRunning, data.state.time, data.state.successStatus)
        invariant startTime == old(startTime) && tabletConnected == old(tabletConnected) && tabletData == old(tabletData)
      {
        ghost var running, time, status := isRunning, data.state.time, data.state.successStatus;
        ReplaySnoc(f0, data.Geometry(), queue[..i], queue[i]);
        assert queue[..i + 1] == queue[..i] + [queue[i]];
        ProcessSample(queue[i]);
        ghost var g := data.state.Flags();
        assert g == Replay(f0, data.Geometry(), queue[..i + 1]);
        TrackedStep(data, f0, queue, i, running0, time0, status0, stop, running, time, status,
                    isRunning, data.state.time, data.state.successStatus);
        if running && !isRunning {
          stop := i;
        }
      }
      assert queue[..|queue|] == queue;
    }
  }

  /** Sample k was the first to end the trial: the earlier ones did not,
      and the recorded time and verdict are those of sample k, judged on
      the flags right after it. */
  predicate StoppedAt(d: Data, f: HitFlags, queue: seq<Sample>, k: nat, time: Option<int>, status: int)
    requires d.dimensions.Valid() && Fits(f, d.Geometry())
  {
    && k < |queue|
    && EndsAt(d, f, queue, k) == 1
    && (forall j :: 0 <= j < k ==> EndsAt(d, f, queue, j) == 0)
    && time == Some(queue[k].t)
    && var g := Replay(f, d.Geometry(), queue[..k + 1]);
      status == SuccessStatus(queue[k].t, d.timeToFinish, g.destHit, g.circlesHit, g.rectsHit)
  }

  /** What ProcessData knows about tracking after the first i samples,
      starting from flags f and the tracking state running0, time0,
      status0: off stays off with nothing recorded; on and still on means
      none of them ended the trial; on and now off means sample stop was
      the first to end it. */
  ghost predicate Tracked(d: Data, f: HitFlags, queue: seq<Sample>, i: nat, running0: bool, time0: Option<int>,
                          status0: int, stop: nat, running: bool, time: Option<int>, status: int)
    requires d.dimensions.Valid() && Fits(f, d.Geometry()) && i <= |queue|
  {
    && (!running0 ==> !running && time == time0 && status == status0)
    && (running0 && running ==> forall k :: 0 <= k < i ==> EndsAt(d, f, queue, k) == 0)
    && (running0 && !running ==> stop < i && StoppedAt(d, f, queue, stop, time, status))
  }

  /** One sample keeps Tracked: it stops tracking exactly when tracking
      was on and the sample ends the trial. */
  lemma TrackedStep(d: Data, f: HitFlags, queue: seq<Sample>, i: nat, running0: bool, time0: Option<int>,
                    status0: int, stop: nat, running: bool, time: Option<int>, status: int,
                    running': bool, time': Option<int>, status': int)
    requires d.dimensions.Valid() && Fits(f, d.Geometry()) && i < |queue|
    requires Tracked(d, f, queue, i, running0, time0, status0, stop, running, time, status)
    requires var g := Replay(f, d.Geometry(), queue[..i + 1]);
      && (running && EndsAt(d, f, queue, i) == 1 ==>
            !running' && time' == Some(queue[i].t)
            && status' == SuccessStatus(queue[i].t, d.timeToFinish, g.destHit, g.circlesHit, g.rectsHit))
      && (!(running && EndsAt(d, f, queue, i) == 1) ==> running' == running && time' == time && status' == status)
    ensures Tracked(d, f, queue, i + 1, running0, time0, status0, if running && !running' then i else stop,
                    running', time', status')
  {
    if running && !running' {
      assert StoppedAt(d, f, queue, i, time', status');
    }
  }
}
