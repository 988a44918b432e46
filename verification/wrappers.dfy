/** Optional values and generic sequence helpers shared by every module of the model. */
module Wrappers {

  /** A value that may be absent (Python `None`, JavaScript `null`/`undefined`). */
  datatype Option<+T> = None | Some(value: T) {
    function GetOr(default: T): T {
      match this
      case Some(v) => v
      case None => default
    }
  }

  /** What an HTTP endpoint answers: a value, or an error status (FastAPI's `HTTPException`). */
  datatype HttpResult<+T> = Ok(value: T) | HttpError(status: int)

  /** A computed value, or the error that was raised instead. */
  datatype Result<+T, +E> = Success(value: T) | Failure(error: E)

  /** No element occurs twice. */
  predicate NoDuplicates<T(==)>(s: seq<T>) {
    forall i, j :: 0 <= i < j < |s| ==> s[i] != s[j]
  }

  /** The elements of `s`, without repetition, each at its first occurrence. */
  function Dedup<T(==,!new)>(s: seq<T>): (r: seq<T>)
    ensures NoDuplicates(r)
    ensures forall x :: x in r <==> x in s
    ensures |r| <= |s|
  {
    if |s| == 0 then []
    else
      var d := Dedup(s[..|s| - 1]);
      assert forall x :: x in s <==> x in s[..|s| - 1] || x == s[|s| - 1];
      if s[|s| - 1] in d then d else d + [s[|s| - 1]]
  }

  /** The elements of `s` for which `keep` holds, in their original order. */
  function Filter<T(!new)>(keep: T -> bool, s: seq<T>): (r: seq<T>)
    ensures |r| <= |s|
    ensures forall x :: x in r <==> x in s && keep(x)
  {
    if |s| == 0 then []
    else
      var rest := Filter(keep, s[1..]);
      assert forall x :: x in s <==> x == s[0] || x in s[1..];
      if keep(s[0]) then [s[0]] + rest else rest
  }

  /** When `keep` holds for every element, nothing is filtered out. */
  lemma {:induction false} FilterKeepsAll<T(!new)>(keep: T -> bool, s: seq<T>)
    requires forall k :: 0 <= k < |s| ==> keep(s[k])
    ensures Filter(keep, s) == s
  {
    if |s| > 0 {
      FilterKeepsAll(keep, s[1..]);
    }
  }

  /** Every element of `s` appears in `t`, in the same relative order. */
  predicate IsSubsequence<T(==)>(s: seq<T>, t: seq<T>)
    decreases |t|
  {
    if |s| == 0 then true
    else if |t| == 0 then false
    else if s[0] == t[0] then IsSubsequence(s[1..], t[1..])
    else IsSubsequence(s, t[1..])
  }

  lemma {:induction false} FilterIsSubsequence<T(!new)>(keep: T -> bool, s: seq<T>)
    ensures IsSubsequence(Filter(keep, s), s)
  {
    if |s| > 0 {
      FilterIsSubsequence(keep, s[1..]);
      if keep(s[0]) {
        assert Filter(keep, s)[1..] == Filter(keep, s[1..]);
      }
    }
  }

  /** A subsequence of the tail is a subsequence of the whole. */
  lemma {:induction false} SubsequenceOfTail<T>(s: seq<T>, t: seq<T>)
    requires |t| > 0 && IsSubsequence(s, t[1..])
    ensures IsSubsequence(s, t)
    decreases |t|, |s|
  {
    if |s| > 0 && s[0] == t[0] {
      SubsequenceShrink(s, t[1..]);
    }
  }

  /** Dropping the first element of a subsequence keeps it a subsequence. */
  lemma {:induction false} SubsequenceShrink<T>(s: seq<T>, t: seq<T>)
    requires |s| > 0 && IsSubsequence(s, t)
    ensures IsSubsequence(s[1..], t)
    decreases |t|, |s|
  {
    if |s| > 1 {
      if s[0] == t[0] {
        SubsequenceOfTail(s[1..], t);
      } else {
        SubsequenceShrink(s, t[1..]);
        SubsequenceOfTail(s[1..], t);
      }
    }
  }

  /** Appending one element to the longer sequence, and maybe to the shorter, keeps a subsequence. */
  lemma {:induction false} SubsequenceSnoc<T>(s: seq<T>, t: seq<T>, x: T, both: bool)
    requires IsSubsequence(s, t)
    ensures IsSubsequence(s + (if both then [x] else []), t + [x])
    decreases |t|
  {
    var s' := s + (if both then [x] else []);
    assert (t + [x])[1..] == if |t| == 0 then [] else t[1..] + [x];
    if |t| == 0 {
      if both {
        assert s' == [x] && s'[1..] == [];
      }
    } else if |s| > 0 && s[0] == t[0] {
      SubsequenceSnoc(s[1..], t[1..], x, both);
      assert s'[1..] == s[1..] + (if both then [x] else []);
    } else {
      SubsequenceSnoc(s, t[1..], x, both);
      if |s| == 0 && both {
        SubsequenceOfTail(s', t + [x]);
      }
    }
  }

  /** Dropping the last element keeps a subsequence a subsequence. */
  lemma {:induction false} SubsequenceDropLast<T>(s: seq<T>, x: T, t: seq<T>)
    requires IsSubsequence(s + [x], t)
    ensures IsSubsequence(s, t)
    decreases |t|
  {
    if |s| > 0 && |t| > 0 {
      assert (s + [x])[0] == s[0];
      if s[0] == t[0] {
        assert (s + [x])[1..] == s[1..] + [x];
        SubsequenceDropLast(s[1..], x, t[1..]);
      } else {
        SubsequenceDropLast(s, x, t[1..]);
      }
    }
  }

  /** A subsequence is never longer than the sequence. */
  lemma {:induction false} SubsequenceLength<T>(s: seq<T>, t: seq<T>)
    requires IsSubsequence(s, t)
    ensures |s| <= |t|
    decreases |t|
  {
    if |s| > 0 {
      if s[0] == t[0] {
        SubsequenceLength(s[1..], t[1..]);
      } else {
        SubsequenceLength(s, t[1..]);
      }
    }
  }

  /** Filter preserves duplicate-freedom. */
  lemma {:induction false} FilterNoDuplicates<T(!new)>(keep: T -> bool, s: seq<T>)
    requires NoDuplicates(s)
    ensures NoDuplicates(Filter(keep, s))
  {
    if |s| > 0 {
      assert NoDuplicates(s[1..]);
      FilterNoDuplicates(keep, s[1..]);
      assert s[0] !in s[1..];
    }
  }

  /** The first position of `x` in `s`, if it occurs (a dictionary lookup over a fixed key list). */
  function IndexOf<T(==)>(s: seq<T>, x: T): (i: Option<nat>)
    ensures i.Some? ==> i.value < |s| && s[i.value] == x
    ensures i.None? <==> x !in s
  {
    if |s| == 0 then None
    else if s[0] == x then Some(0)
    else
      match IndexOf(s[1..], x)
      case Some(j) => Some(j + 1)
      case None => None
  }

  function Max(a: int, b: int): (m: int)
    ensures m >= a && m >= b && (m == a || m == b)
  {
    if a >= b then a else b
  }

  /** The smallest of two integers. */
  function Min(a: int, b: int): (m: int)
    ensures m <= a && m <= b && (m == a || m == b)
  {
    if a <= b then a else b
  }
}
