/** Small value types and numeric helpers shared by every module of the
    trial engine: optional values, error results, Python's int() on floats,
    absolute value, max, and Python's sum() over lists of 0/1 hit flags. */
module Common {

  datatype Option<+T> = None | Some(value: T)

  datatype Result<+T, +E> = Success(value: T) | Failure(error: E)

  /** Python's int() applied to a float: truncation toward zero. */
  function Trunc(x: real): (r: int)
    ensures x >= 0.0 ==> 0 <= r && r as real <= x < r as real + 1.0
    ensures x < 0.0 ==> r <= 0 && r as real - 1.0 < x <= r as real
  {
    if x >= 0.0 then x.Floor else -((-x).Floor)
  }

  /** Truncating a value that is already integral gives it back. */
  lemma TruncOfInt(n: int)
    ensures Trunc(n as real) == n
  {
  }

  function AbsR(x: real): (r: real)
    ensures r >= 0.0 && (r == x || r == -x)
  {
    if x < 0.0 then -x else x
  }

  function MaxR(a: real, b: real): (r: real)
    ensures r >= a && r >= b && (r == a || r == b)
  {
    if a >= b then a else b
  }

  /** Python's sum() over a list of ints. */
  function Sum(s: seq<int>): int
  {
    if |s| == 0 then 0 else Sum(s[..|s| - 1]) + s[|s| - 1]
  }

  lemma SumAppend(s: seq<int>, v: int)
    ensures Sum(s + [v]) == Sum(s) + v
  {
    assert (s + [v])[..|s|] == s;
  }

  /** Every entry is a flag: 0 or 1. */
  predicate Binary(s: seq<int>)
  {
    forall i :: 0 <= i < |s| ==> s[i] == 0 || s[i] == 1
  }

  /** For a list of 0/1 flags, `sum(l) == len(l)` means "all set" and
      `sum(l) > 0` means "some set". */
  lemma {:induction false} SumOfFlags(s: seq<int>)
    requires Binary(s)
    ensures 0 <= Sum(s) <= |s|
    ensures Sum(s) == |s| <==> forall i :: 0 <= i < |s| ==> s[i] == 1
    ensures Sum(s) > 0 <==> exists i :: 0 <= i < |s| && s[i] == 1
  {
    if |s| > 0 {
      var p := s[..|s| - 1];
      assert Binary(p) by {
        forall i | 0 <= i < |p| ensures p[i] == 0 || p[i] == 1 {
          assert p[i] == s[i];
        }
      }
      SumOfFlags(p);
      assert forall i :: 0 <= i < |p| ==> p[i] == s[i];
      if Sum(s) == |s| {
        assert Sum(p) == |p| && s[|s| - 1] == 1;
        forall i | 0 <= i < |s| ensures s[i] == 1 {
          if i < |p| { assert p[i] == 1; }
        }
      }
      if exists i :: 0 <= i < |s| && s[i] == 1 {
        var i :| 0 <= i < |s| && s[i] == 1;
        if i < |p| { assert p[i] == 1; }
      }
    }
  }
}
