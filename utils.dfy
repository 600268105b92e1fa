/** The row combiner of utils.py (create_input_file_from_excel, per row):
    the general fields of a trial, its circle fields and its rectangle
    fields are joined into one input row with a count in front of each
    group list, after empty groups are pruned: circles whose radius is 0
    and rectangles whose four fields are all 0. */
module Utils {
  import opened Common
  import opened Pages

  /** The two kinds of group a row holds. */
  datatype GroupKind = CircleGroup | RectGroup
  {
    /** circle_data_size and rect_data_size. */
    function Size(): (n: nat)
      ensures n == 3 || n == 4
    {
      if CircleGroup? then 3 else 4
    }
  }

  /** The group at field offset p is one the combiner drops: a circle
      with radius (third field) 0, or a rectangle of four zeros. */
  predicate DroppableAt(kind: GroupKind, s: seq<real>, p: nat)
  {
    && p + kind.Size() <= |s|
    && match kind
       case CircleGroup => s[p + 2] == 0.0
       case RectGroup => s[p] == 0.0 && s[p + 1] == 0.0 && s[p + 2] == 0.0 && s[p + 3] == 0.0
  }

  /** No field read by the loop lies past the end: with bound the initial
      group count, size * bound <= |cur| + i holds throughout. */
  lemma InBounds(size: nat, bound: nat, i: nat, len: nat)
    requires size >= 2 && i < bound && size * bound <= len + i
    ensures i + size <= len
  {
    assert size * bound == size * (bound - 1) + size;
    assert size * (bound - 1) >= size * i;
  }

  /** The pruning loop of utils.py as written, from offset i on:
      `for i in range(0, bound, size)`, where bound is the group count at
      the start. A dropped group is cut out of the list, the counter goes
      down by one, and i moves on by size in any case. */
  function Prune(kind: GroupKind, cur: seq<real>, num: int, i: nat, bound: nat): (int, seq<real>)
    requires kind.Size() * bound <= |cur| + i
    decreases bound - i
  {
    if i >= bound then (num, cur)
    else
      InBounds(kind.Size(), bound, i, |cur|);
      if DroppableAt(kind, cur, i) then
        Prune(kind, cur[..i] + cur[i + kind.Size()..], num - 1, i + kind.Size(), bound)
      else Prune(kind, cur, num, i + kind.Size(), bound)
  }

  /** The groups Prune cuts out, in order. */
  function Dropped(kind: GroupKind, cur: seq<real>, i: nat, bound: nat): seq<seq<real>>
    requires kind.Size() * bound <= |cur| + i
    decreases bound - i
  {
    if i >= bound then []
    else
      InBounds(kind.Size(), bound, i, |cur|);
      if DroppableAt(kind, cur, i) then
        [cur[i..i + kind.Size()]] + Dropped(kind, cur[..i] + cur[i + kind.Size()..], i + kind.Size(), bound)
      else Dropped(kind, cur, i + kind.Size(), bound)
  }

  /** Pruning a whole list of groups, starting from len // size. */
  function PruneAll(kind: GroupKind, row: seq<real>): (r: (int, seq<real>))
  {
    Prune(kind, row, |row| / kind.Size(), 0, |row| / kind.Size())
  }

  function Flatten(gs: seq<seq<real>>): seq<real>
  {
    if |gs| == 0 then [] else gs[0] + Flatten(gs[1..])
  }

  /** Each removal takes exactly size fields and one off the count, so
      `len - size * count` never changes. */
  lemma {:induction false} PruneKeepsBalance(kind: GroupKind, cur: seq<real>, num: int, i: nat, bound: nat)
    requires kind.Size() * bound <= |cur| + i
    ensures var r := Prune(kind, cur, num, i, bound);
      |r.1| - kind.Size() * r.0 == |cur| - kind.Size() * num
    decreases bound - i
  {
    if i < bound {
      InBounds(kind.Size(), bound, i, |cur|);
      if DroppableAt(kind, cur, i) {
        var next := cur[..i] + cur[i + kind.Size()..];
        PruneKeepsBalance(kind, next, num - 1, i + kind.Size(), bound);
      } else {
        PruneKeepsBalance(kind, cur, num, i + kind.Size(), bound);
      }
    }
  }

  /** Cutting fields i .. i + n out of a list. */
  lemma CutOut(cur: seq<real>, i: nat, n: nat)
    requires i + n <= |cur|
    ensures multiset(cur) == multiset(cur[..i] + cur[i + n..]) + multiset(cur[i..i + n])
  {
    assert cur == cur[..i] + cur[i..i + n] + cur[i + n..];
  }

  /** A droppable group is droppable on its own. */
  lemma DroppableGroup(kind: GroupKind, cur: seq<real>, i: nat)
    requires DroppableAt(kind, cur, i)
    ensures DroppableAt(kind, cur[i..i + kind.Size()], 0)
  {
    var g := cur[i..i + kind.Size()];
    assert g[0] == cur[i] && g[1] == cur[i + 1] && g[2] == cur[i + 2];
    if kind.RectGroup? {
      assert g[3] == cur[i + 3];
    }
  }

  lemma FlattenCons(g: seq<real>, rest: seq<seq<real>>)
    ensures Flatten([g] + rest) == g + Flatten(rest)
  {
    assert ([g] + rest)[1..] == rest;
  }

  /** Every group of gs is a whole group that is droppable. */
  predicate WholeGroups(kind: GroupKind, gs: seq<seq<real>>)
  {
    forall k :: 0 <= k < |gs| ==> |gs[k]| == kind.Size() && DroppableAt(kind, gs[k], 0)
  }

  /** Every dropped group is a whole group that is droppable. */
  lemma {:induction false} DroppedWhole(kind: GroupKind, cur: seq<real>, i: nat, bound: nat)
    requires kind.Size() * bound <= |cur| + i
    ensures WholeGroups(kind, Dropped(kind, cur, i, bound))
    decreases bound - i
  {
    if i < bound {
      var n := kind.Size();
      InBounds(n, bound, i, |cur|);
      if DroppableAt(kind, cur, i) {
        var next := cur[..i] + cur[i + n..];
        DroppedWhole(kind, next, i + n, bound);
        var rest := Dropped(kind, next, i + n, bound);
        var gone := [cur[i..i + n]] + rest;
        assert Dropped(kind, cur, i, bound) == gone;
        DroppableGroup(kind, cur, i);
        forall k | 0 <= k < |gone| ensures |gone[k]| == n && DroppableAt(kind, gone[k], 0) {
          if k > 0 {
            assert gone[k] == rest[k - 1];
          }
        }
      } else {
        DroppedWhole(kind, cur, i + n, bound);
      }
    }
  }

  /** The count goes down by one per dropped group. */
  lemma {:induction false} PruneCount(kind: GroupKind, cur: seq<real>, num: int, i: nat, bound: nat)
    requires kind.Size() * bound <= |cur| + i
    ensures Prune(kind, cur, num, i, bound).0 == num - |Dropped(kind, cur, i, bound)|
    decreases bound - i
  {
    if i < bound {
      var n := kind.Size();
      InBounds(n, bound, i, |cur|);
      if DroppableAt(kind, cur, i) {
        PruneCount(kind, cur[..i] + cur[i + n..], num - 1, i + n, bound);
      } else {
        PruneCount(kind, cur, num, i + n, bound);
      }
    }
  }

  /** The fields that go are exactly the fields of the dropped groups. */
  lemma {:induction false} PruneFields(kind: GroupKind, cur: seq<real>, num: int, i: nat, bound: nat)
    requires kind.Size() * bound <= |cur| + i
    ensures multiset(cur) == multiset(Prune(kind, cur, num, i, bound).1) + multiset(Flatten(Dropped(kind, cur, i, bound)))
    decreases bound - i
  {
    if i < bound {
      var n := kind.Size();
      InBounds(n, bound, i, |cur|);
      if DroppableAt(kind, cur, i) {
        var next := cur[..i] + cur[i + n..];
        PruneFields(kind, next, num - 1, i + n, bound);
        var g := cur[i..i + n];
        var rest := Dropped(kind, next, i + n, bound);
        var after := Prune(kind, next, num - 1, i + n, bound).1;
        assert Prune(kind, cur, num, i, bound).1 == after;
        assert Dropped(kind, cur, i, bound) == [g] + rest;
        FlattenCons(g, rest);
        CutOut(cur, i, n);
        assert multiset(cur) == multiset(next) + multiset(g);
        assert multiset(next) == multiset(after) + multiset(Flatten(rest));
      } else {
        PruneFields(kind, cur, num, i + n, bound);
        assert Prune(kind, cur, num, i, bound) == Prune(kind, cur, num, i + n, bound);
        assert Dropped(kind, cur, i, bound) == Dropped(kind, cur, i + n, bound);
      }
    }
  }

  /** Pruning only removes groups the combiner is meant to drop: the
      fields that go are exactly the fields of the dropped groups, each of
      which is a whole droppable group, and the count goes down by one per
      dropped group. */
  lemma PruneRemovesDroppable(kind: GroupKind, cur: seq<real>, num: int, i: nat, bound: nat)
    requires kind.Size() * bound <= |cur| + i
    ensures var r := Prune(kind, cur, num, i, bound);
      var gone := Dropped(kind, cur, i, bound);
      && multiset(cur) == multiset(r.1) + multiset(Flatten(gone))
      && r.0 == num - |gone|
      && forall k :: 0 <= k < |gone| ==> |gone[k]| == kind.Size() && DroppableAt(kind, gone[k], 0)
  {
    PruneFields(kind, cur, num, i, bound);
    PruneCount(kind, cur, num, i, bound);
    DroppedWhole(kind, cur, i, bound);
    assert WholeGroups(kind, Dropped(kind, cur, i, bound));
  }

  /** When no group the loop visits is droppable, nothing changes. */
  lemma {:induction false} PruneIdentity(kind: GroupKind, cur: seq<real>, num: int, i: nat, bound: nat)
    requires kind.Size() * bound <= |cur| + i
    requires forall p :: i <= p < bound && (p - i) % kind.Size() == 0 ==> !DroppableAt(kind, cur, p)
    ensures Prune(kind, cur, num, i, bound) == (num, cur)
    decreases bound - i
  {
    if i < bound {
      InBounds(kind.Size(), bound, i, |cur|);
      assert (i - i) % kind.Size() == 0;
      forall p | i + kind.Size() <= p < bound && (p - (i + kind.Size())) % kind.Size() == 0
        ensures !DroppableAt(kind, cur, p)
      {
        ModAddSize(p - (i + kind.Size()), kind.Size());
      }
      PruneIdentity(kind, cur, num, i + kind.Size(), bound);
    }
  }

  /** The loops of utils.py lines 39-44, proved against Prune. */
  method PruneMiddleCircles(circleRow: seq<real>) returns (numMiddleCircles: int, middleCircles: seq<real>)
    ensures (numMiddleCircles, middleCircles) == PruneAll(CircleGroup, circleRow)
  {
    var circleDataSize := 3;
    middleCircles := circleRow;
    numMiddleCircles := |middleCircles| / circleDataSize;
    var bound := numMiddleCircles;
    var i := 0;
    while i < bound
      invariant 3 * bound <= |middleCircles| + i
      invariant Prune(CircleGroup, middleCircles, numMiddleCircles, i, bound) == PruneAll(CircleGroup, circleRow)
      decreases bound - i
    {
      InBounds(3, bound, i, |middleCircles|);
      if middleCircles[i + 2] == 0.0 {
        numMiddleCircles := numMiddleCircles - 1;
        middleCircles := middleCircles[..i] + middleCircles[i + circleDataSize..];
      }
      i := i + circleDataSize;
    }
  }

  /** How many of the k fields from offset i on are 0. */
  function ZerosIn(s: seq<real>, i: nat, k: nat): (z: nat)
    requires i + k <= |s|
    ensures z <= k
  {
    if k == 0 then 0 else ZerosIn(s, i, k - 1) + (if s[i + k - 1] == 0.0 then 1 else 0)
  }

  /** A rectangle group is dropped exactly when its zero count is 4. */
  lemma FourZeros(s: seq<real>, i: nat)
    requires i + 4 <= |s|
    ensures ZerosIn(s, i, 4) == 4 <==> DroppableAt(RectGroup, s, i)
  {
    assert ZerosIn(s, i, 1) <= 1 && ZerosIn(s, i, 2) <= 2 && ZerosIn(s, i, 3) <= 3;
  }

  /** The loops of utils.py lines 47-56, proved against Prune: each
      visited group's zeros are counted and a group of four zeros goes. */
  method PruneRectangles(rectRow: seq<real>) returns (numRectangles: int, rectangles: seq<real>)
    ensures (numRectangles, rectangles) == PruneAll(RectGroup, rectRow)
  {
    var rectDataSize := 4;
    rectangles := rectRow;
    numRectangles := |rectangles| / rectDataSize;
    var bound := numRectangles;
    var i := 0;
    while i < bound
      invariant 4 * bound <= |rectangles| + i
      invariant Prune(RectGroup, rectangles, numRectangles, i, bound) == PruneAll(RectGroup, rectRow)
      decreases bound - i
    {
      InBounds(4, bound, i, |rectangles|);
      var zeros := 0;
      for j := 0 to rectDataSize
        invariant zeros == ZerosIn(rectangles, i, j)
      {
        if rectangles[i + j] == 0.0 {
          zeros := zeros + 1;
        }
      }
      FourZeros(rectangles, i);
      if zeros == rectDataSize {
        numRectangles := numRectangles - 1;
        rectangles := rectangles[..i] + rectangles[i + rectDataSize..];
      }
      i := i + rectDataSize;
    }
  }

  /** The combined row: general fields, circle count, circle fields,
      rectangle count, rectangle fields. */
  function RowLayout(gen: seq<real>, numCircles: int, circles: seq<real>, numRects: int, rects: seq<real>): seq<real>
  {
    gen + [numCircles as real] + circles + [numRects as real] + rects
  }

  /** The row utils.py writes for one trial. */
  function CombinedRow(gen: seq<real>, circleRow: seq<real>, rectRow: seq<real>): seq<real>
  {
    var c := PruneAll(CircleGroup, circleRow);
    var r := PruneAll(RectGroup, rectRow);
    RowLayout(gen, c.0, c.1, r.0, r.1)
  }

  /** The body of the zip loop for one trial (utils.py lines 38-64). */
  method CombineRow(gen: seq<real>, circleRow: seq<real>, rectRow: seq<real>) returns (row: seq<real>)
    ensures row == CombinedRow(gen, circleRow, rectRow)
  {
    var numMiddleCircles, middleCircles := PruneMiddleCircles(circleRow);
    var numRectangles, rectangles := PruneRectangles(rectRow);
    row := gen + [numMiddleCircles as real] + middleCircles + [numRectangles as real] + rectangles;
  }

  function Min3(a: nat, b: nat, c: nat): (m: nat)
    ensures m <= a && m <= b && m <= c && (m == a || m == b || m == c)
  {
    if a <= b && a <= c then a else if b <= c then b else c
  }

  /** create_input_file_from_excel without the files: zip stops at the
      shortest of the three sheets, and the k-th output row combines the
      k-th rows of all three. */
  method CreateInputFromRows(gens: seq<seq<real>>, circles: seq<seq<real>>, rects: seq<seq<real>>)
    returns (output: seq<seq<real>>)
    ensures |output| == Min3(|gens|, |circles|, |rects|)
    ensures forall k :: 0 <= k < |output| ==> output[k] == CombinedRow(gens[k], circles[k], rects[k])
  {
    output := [];
    var n := Min3(|gens|, |circles|, |rects|);
    for k := 0 to n
      invariant |output| == k
      invariant forall q :: 0 <= q < k ==> output[q] == CombinedRow(gens[q], circles[q], rects[q])
    {
      var row := CombineRow(gens[k], circles[k], rects[k]);
      output := output + [row];
    }
  }

  /** The groups of a field list, size fields each. */
  function GroupsOf(s: seq<real>, size: nat, count: nat): seq<seq<real>>
    requires size * count <= |s|
  {
    seq(count, k requires 0 <= k < count => GroupEnd(size, k, count); s[size * k..size * k + size])
  }

  /** Whatever the pruning leaves, the reader of pages.py gets back what
      the combiner wrote: with eight general fields and nc whole circle
      groups, the row parses to those fields, those circles and the first
      nr rectangle groups, and holds all the fields it describes. */
  lemma {:induction false} LayoutReadBack(gen: seq<real>, nc: nat, circles: seq<real>, nr: nat, rects: seq<real>)
    requires |gen| == 8 && |circles| == 3 * nc && |rects| >= 4 * nr
    ensures var data := RowLayout(gen, nc, circles, nr, rects);
      && Parses(data)
      && Describes(data, 4, RawRow(Trunc(gen[0]), Trunc(gen[1]), gen[2..5], gen[5..8],
                                   GroupsOf(circles, 3, nc), GroupsOf(rects, 4, nr)))
      && |data| >= Consumed(data, 4)
  {
    var data := RowLayout(gen, nc, circles, nr, rects);
    assert data[..8] == gen;
    assert data[8] == nc as real;
    TruncOfInt(nc);
    assert Count(data[8]) == nc;
    var rci := 9 + 3 * nc;
    assert RectCountIndex(data) == rci;
    assert data[rci] == nr as real;
    TruncOfInt(nr);
    assert data[0] == gen[0] && data[1] == gen[1];
    assert data[2..5] == gen[2..5] && data[5..8] == gen[5..8];
    var gc := GroupsOf(circles, 3, nc);
    forall k | 0 <= k < nc ensures gc[k] == Group(data, 9, 3, k) {
      GroupEnd(3, k, nc);
      assert data[9 + 3 * k..12 + 3 * k] == circles[3 * k..3 * k + 3];
    }
    var gr := GroupsOf(rects, 4, nr);
    forall k | 0 <= k < nr ensures gr[k] == Group(data, rci + 1, 4, k) {
      GroupEnd(4, k, nr);
      assert data[rci + 1 + 4 * k..rci + 1 + 4 * k + 4] == rects[4 * k..4 * k + 4];
    }
  }

  /** The combined row reads back, provided the circle sheet's row has a
      whole number of groups; the counts come from the pruning. */
  lemma CombinedRowReadBack(gen: seq<real>, circleRow: seq<real>, rectRow: seq<real>)
    requires |gen| == 8 && |circleRow| % 3 == 0
    ensures var c := PruneAll(CircleGroup, circleRow);
      var r := PruneAll(RectGroup, rectRow);
      var data := CombinedRow(gen, circleRow, rectRow);
      && c.0 >= 0 && r.0 >= 0 && |c.1| == 3 * c.0 && 4 * r.0 <= |r.1|
      && Describes(data, 4, RawRow(Trunc(gen[0]), Trunc(gen[1]), gen[2..5], gen[5..8],
                                   GroupsOf(c.1, 3, c.0), GroupsOf(r.1, 4, r.0)))
      && |data| >= Consumed(data, 4)
  {
    var c := PruneAll(CircleGroup, circleRow);
    var r := PruneAll(RectGroup, rectRow);
    PruneKeepsBalance(CircleGroup, circleRow, |circleRow| / 3, 0, |circleRow| / 3);
    PruneKeepsBalance(RectGroup, rectRow, |rectRow| / 4, 0, |rectRow| / 4);
    LayoutReadBack(gen, c.0, c.1, r.0, r.1);
  }

  /** Example of the loop bound: nine circle fields give the bound 3, so
      only the field offset 0 is visited and the second circle, whose
      radius is 0, is kept. */
  lemma ZeroRadiusCircleKept()
    ensures var row := [1.0, 1.0, 1.0, 2.0, 2.0, 0.0, 3.0, 3.0, 3.0];
      PruneAll(CircleGroup, row) == (3, row)
  {
    var row := [1.0, 1.0, 1.0, 2.0, 2.0, 0.0, 3.0, 3.0, 3.0];
    assert !DroppableAt(CircleGroup, row, 0);
    assert Prune(CircleGroup, row, 3, 3, 3) == (3, row);
  }

  /** Every whole group of a field list except the empty ones, in order,
      followed by the fields left over after the last whole group. */
  function FilterGroups(kind: GroupKind, s: seq<real>): (r: seq<real>)
    ensures |r| <= |s|
    decreases |s|
  {
    if |s| < kind.Size() then s
    else (if DroppableAt(kind, s, 0) then [] else s[..kind.Size()]) + FilterGroups(kind, s[kind.Size()..])
  }

  /** A group of b seen from a + b. */
  lemma DroppableShift(kind: GroupKind, a: seq<real>, b: seq<real>, p: nat)
    ensures DroppableAt(kind, a + b, |a| + p) <==> DroppableAt(kind, b, p)
  {
    if p + kind.Size() <= |b| {
      assert (a + b)[|a| + p] == b[p] && (a + b)[|a| + p + 1] == b[p + 1] && (a + b)[|a| + p + 2] == b[p + 2];
      if kind.RectGroup? {
        assert (a + b)[|a| + p + 3] == b[p + 3];
      }
    }
  }

  lemma ModAddSize(a: nat, n: nat)
    requires n == 3 || n == 4
    ensures (a + n) % n == a % n
  {
    if n == 3 {
      assert (a + 3) % 3 == a % 3;
    } else {
      assert (a + 4) % 4 == a % 4;
    }
  }

  /** The filter removes whole groups only. */
  lemma {:induction false} FilterGroupsLength(kind: GroupKind, s: seq<real>)
    ensures |FilterGroups(kind, s)| % kind.Size() == |s| % kind.Size()
    decreases |s|
  {
    var n := kind.Size();
    if |s| >= n {
      var tail := s[n..];
      FilterGroupsLength(kind, tail);
      var rt := FilterGroups(kind, tail);
      assert |s| == |tail| + n;
      ModAddSize(|tail|, n);
      if !DroppableAt(kind, s, 0) {
        assert |FilterGroups(kind, s)| == |rt| + n;
        ModAddSize(|rt|, n);
      }
    }
  }

  /** The whole groups the filter drops, in order. */
  function Gone(kind: GroupKind, s: seq<real>): seq<seq<real>>
    decreases |s|
  {
    if |s| < kind.Size() then []
    else (if DroppableAt(kind, s, 0) then [s[..kind.Size()]] else []) + Gone(kind, s[kind.Size()..])
  }

  /** Every group the filter drops is a whole droppable group. */
  lemma {:induction false} GoneWhole(kind: GroupKind, s: seq<real>)
    ensures WholeGroups(kind, Gone(kind, s))
    decreases |s|
  {
    var n := kind.Size();
    if |s| >= n {
      var head, tail := s[..n], s[n..];
      GoneWhole(kind, tail);
      var gt := Gone(kind, tail);
      if DroppableAt(kind, s, 0) {
        assert Gone(kind, s) == [head] + gt;
        DroppableGroup(kind, s, 0);
        assert |head| == n && DroppableAt(kind, head, 0);
      } else {
        assert Gone(kind, s) == gt;
      }
    }
  }

  /** The fields the filter removes are those of the dropped groups. */
  lemma {:induction false} GoneFields(kind: GroupKind, s: seq<real>)
    ensures multiset(s) == multiset(FilterGroups(kind, s)) + multiset(Flatten(Gone(kind, s)))
    decreases |s|
  {
    var n := kind.Size();
    if |s| >= n {
      var head, tail := s[..n], s[n..];
      assert s == head + tail;
      GoneFields(kind, tail);
      var ft, gt := FilterGroups(kind, tail), Gone(kind, tail);
      if DroppableAt(kind, s, 0) {
        assert FilterGroups(kind, s) == ft;
        assert Gone(kind, s) == [head] + gt;
        FlattenCons(head, gt);
        assert multiset(Flatten(Gone(kind, s))) == multiset(head) + multiset(Flatten(gt));
      } else {
        assert FilterGroups(kind, s) == head + ft;
        assert Gone(kind, s) == gt;
        assert multiset(FilterGroups(kind, s)) == multiset(head) + multiset(ft);
      }
    }
  }

  /** The filter removes only empty groups: the fields that go are exactly
      the fields of the dropped groups, and each of them is a whole group
      of the kind the combiner drops. */
  lemma FilterGroupsRemovesEmpty(kind: GroupKind, s: seq<real>)
    ensures multiset(s) == multiset(FilterGroups(kind, s)) + multiset(Flatten(Gone(kind, s)))
    ensures forall k :: 0 <= k < |Gone(kind, s)| ==>
      |Gone(kind, s)[k]| == kind.Size() && DroppableAt(kind, Gone(kind, s)[k], 0)
  {
    GoneFields(kind, s);
    GoneWhole(kind, s);
  }

  /** Group t (counting from 0) of the list is one the combiner drops. */
  predicate EmptyGroup(kind: GroupKind, s: seq<real>, t: nat)
  {
    DroppableAt(kind, s, kind.Size() * t)
  }

  /** The filter leaves no empty group behind. */
  lemma {:induction false} FilterGroupsNoneEmpty(kind: GroupKind, s: seq<real>)
    ensures forall t: nat :: !EmptyGroup(kind, FilterGroups(kind, s), t)
    decreases |s|
  {
    var n := kind.Size();
    if |s| >= n {
      var tail := s[n..];
      FilterGroupsNoneEmpty(kind, tail);
      var rt := FilterGroups(kind, tail);
      var r := FilterGroups(kind, s);
      var head := s[..n];
      if DroppableAt(kind, s, 0) {
        assert r == rt;
      } else {
        assert r == head + rt && |r| == n + |rt|;
        forall t: nat ensures !EmptyGroup(kind, r, t) {
          if t > 0 {
            var u := t - 1;
            assert n * t == n + n * u;
            assert !EmptyGroup(kind, rt, u);
            DroppableShift(kind, head, rt, n * u);
          } else {
            assert n * t == 0;
            if |r| >= n {
              assert r[0] == head[0] == s[0] && r[1] == head[1] == s[1] && r[2] == head[2] == s[2];
              assert n == 4 ==> r[3] == head[3] == s[3];
            }
          }
        }
      }
    }
  }

  /** A list without empty groups passes the filter unchanged. */
  lemma {:induction false} FilterGroupsIdentity(kind: GroupKind, s: seq<real>)
    requires forall t: nat :: !EmptyGroup(kind, s, t)
    ensures FilterGroups(kind, s) == s
    decreases |s|
  {
    var n := kind.Size();
    if |s| >= n {
      var tail := s[n..];
      var head := s[..n];
      assert s == head + tail;
      assert !EmptyGroup(kind, s, 0);
      assert n * 0 == 0;
      forall t: nat ensures !EmptyGroup(kind, tail, t) {
        assert n * (t + 1) == n + n * t;
        assert !EmptyGroup(kind, s, t + 1);
        DroppableShift(kind, head, tail, n * t);
      }
      FilterGroupsIdentity(kind, tail);
    }
  }

  /** The intended pruning: keep the non-empty groups, count them. */
  function FilterAll(kind: GroupKind, row: seq<real>): (r: (int, seq<real>))
  {
    var kept := FilterGroups(kind, row);
    (|kept| / kind.Size(), kept)
  }

  /** The combined row with every empty group removed. */
  function CombinedRowIntended(gen: seq<real>, circleRow: seq<real>, rectRow: seq<real>): seq<real>
  {
    var c := FilterAll(CircleGroup, circleRow);
    var r := FilterAll(RectGroup, rectRow);
    RowLayout(gen, c.0, c.1, r.0, r.1)
  }

  /** On the example above the intended combiner drops the zero-radius
      circle. */
  lemma ZeroRadiusCircleDropped()
    ensures FilterAll(CircleGroup, [1.0, 1.0, 1.0, 2.0, 2.0, 0.0, 3.0, 3.0, 3.0]) == (2, [1.0, 1.0, 1.0, 3.0, 3.0, 3.0])
  {
    var row := [1.0, 1.0, 1.0, 2.0, 2.0, 0.0, 3.0, 3.0, 3.0];
    var last := [3.0, 3.0, 3.0];
    assert last[3..] == [];
    assert FilterGroups(CircleGroup, last) == last + FilterGroups(CircleGroup, []);
    var mid := [2.0, 2.0, 0.0] + last;
    assert mid[3..] == last;
    assert FilterGroups(CircleGroup, mid) == last;
    assert row[3..] == mid;
    assert row[..3] == [1.0, 1.0, 1.0];
    var kept := [1.0, 1.0, 1.0, 3.0, 3.0, 3.0];
    assert [1.0, 1.0, 1.0] + last == kept;
    assert FilterGroups(CircleGroup, row) == kept;
    assert |kept| / 3 == 2;
  }

  /** The circles the intended filter keeps are whole groups of three,
      none with radius zero. */
  lemma KeptCircles(circleRow: seq<real>)
    requires |circleRow| % 3 == 0
    ensures var c := FilterAll(CircleGroup, circleRow);
      && c.0 >= 0 && |c.1| == 3 * c.0
      && forall k :: 0 <= k < c.0 ==> GroupsOf(c.1, 3, c.0)[k][2] != 0.0
  {
    var c := FilterAll(CircleGroup, circleRow);
    FilterGroupsLength(CircleGroup, circleRow);
    FilterGroupsNoneEmpty(CircleGroup, circleRow);
    assert |c.1| == 3 * c.0;
    forall k | 0 <= k < c.0 ensures GroupsOf(c.1, 3, c.0)[k][2] != 0.0 {
      GroupEnd(3, k, c.0);
      assert !EmptyGroup(CircleGroup, c.1, k);
    }
  }

  /** The rectangles the intended filter keeps, read four fields at a
      time, are none of them all zero. */
  lemma KeptRects(rectRow: seq<real>)
    ensures var r := FilterAll(RectGroup, rectRow);
      && r.0 >= 0 && 4 * r.0 <= |r.1|
      && forall k :: 0 <= k < r.0 ==> GroupsOf(r.1, 4, r.0)[k] != [0.0, 0.0, 0.0, 0.0]
  {
    var r := FilterAll(RectGroup, rectRow);
    FilterGroupsNoneEmpty(RectGroup, rectRow);
    assert 4 * r.0 <= |r.1|;
    forall k | 0 <= k < r.0 ensures GroupsOf(r.1, 4, r.0)[k] != [0.0, 0.0, 0.0, 0.0] {
      GroupEnd(4, k, r.0);
      assert !EmptyGroup(RectGroup, r.1, k);
      var g := GroupsOf(r.1, 4, r.0)[k];
      assert g[0] == r.1[4 * k] && g[1] == r.1[4 * k + 1] && g[2] == r.1[4 * k + 2] && g[3] == r.1[4 * k + 3];
    }
  }

  /** The intended row reads back with no empty group among the circles
      and rectangles the reader sees. */
  lemma CombinedRowIntendedReadBack(gen: seq<real>, circleRow: seq<real>, rectRow: seq<real>)
    requires |gen| == 8 && |circleRow| % 3 == 0
    ensures var c := FilterAll(CircleGroup, circleRow);
      var r := FilterAll(RectGroup, rectRow);
      var data := CombinedRowIntended(gen, circleRow, rectRow);
      && c.0 >= 0 && r.0 >= 0 && |c.1| == 3 * c.0 && 4 * r.0 <= |r.1|
      && Describes(data, 4, RawRow(Trunc(gen[0]), Trunc(gen[1]), gen[2..5], gen[5..8],
                                   GroupsOf(c.1, 3, c.0), GroupsOf(r.1, 4, r.0)))
      && |data| >= Consumed(data, 4)
      && (forall k :: 0 <= k < c.0 ==> GroupsOf(c.1, 3, c.0)[k][2] != 0.0)
      && (forall k :: 0 <= k < r.0 ==> GroupsOf(r.1, 4, r.0)[k] != [0.0, 0.0, 0.0, 0.0])
  {
    var c := FilterAll(CircleGroup, circleRow);
    var r := FilterAll(RectGroup, rectRow);
    KeptCircles(circleRow);
    KeptRects(rectRow);
    LayoutReadBack(gen, c.0, c.1, r.0, r.1);
  }
}
