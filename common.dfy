/** Values shared by every service: nullable references, thrown exceptions,
    single-result query outcomes, sequence filtering and Java's 32-bit Integer. */
module Common {

  /** A Java reference that may be null. */
  datatype Option<+T> = None | Some(value: T)

  /** The exceptions the modelled code throws or lets propagate. */
  datatype Exception =
    | RuntimeException(message: string)
    | NullPointerException
    | ClassCastException
    | ArrayIndexOutOfBoundsException
    | IncorrectResultSizeDataAccessException
    | EmptyResultDataAccessException
    | ServletException(message: string)
    | InsufficientAuthenticationException(message: string)
    | MalformedJwtException
    | SignatureException
    | RestClientException
    | IllegalArgumentException(message: string)

  /** A call that returns a value or throws. */
  datatype Result<+T> = Success(value: T) | Failure(error: Exception)

  /** A void call that returns normally or throws. */
  datatype Outcome = Pass | Fail(error: Exception)

  /** What a Spring Data query declared to return a single entity yields:
      null, the one match, or an IncorrectResultSizeDataAccessException. */
  datatype Lookup<+T> = Absent | Unique(value: T) | Ambiguous

  function SingleResult<T>(matches: seq<T>): (r: Lookup<T>)
    ensures r == Absent <==> |matches| == 0
    ensures r.Unique? <==> |matches| == 1
    ensures r.Unique? ==> r.value == matches[0]
  {
    if |matches| == 0 then Absent
    else if |matches| == 1 then Unique(matches[0])
    else Ambiguous
  }

  /** The elements of `s` that satisfy `keep`, in their original order. */
  function Filter<T>(s: seq<T>, keep: T -> bool): seq<T>
  {
    if |s| == 0 then []
    else Filter(s[..|s| - 1], keep) + (if keep(s[|s| - 1]) then [s[|s| - 1]] else [])
  }

  lemma {:induction false} FilterMembers<T>(s: seq<T>, keep: T -> bool)
    ensures forall x :: x in Filter(s, keep) <==> x in s && keep(x)
    ensures |Filter(s, keep)| <= |s|
  {
    if |s| > 0 {
      FilterMembers(s[..|s| - 1], keep);
      assert s == s[..|s| - 1] + [s[|s| - 1]];
    }
  }

  /** Each element of a filtered sequence comes from the original and satisfies the condition. */
  lemma FilterElements<T>(s: seq<T>, keep: T -> bool)
    ensures forall i :: 0 <= i < |Filter(s, keep)| ==> Filter(s, keep)[i] in s && keep(Filter(s, keep)[i])
  {
    FilterMembers(s, keep);
    forall i | 0 <= i < |Filter(s, keep)| ensures Filter(s, keep)[i] in s && keep(Filter(s, keep)[i]) {
      assert Filter(s, keep)[i] in Filter(s, keep);
    }
  }

  /** Each element of the original that satisfies the condition is kept. */
  lemma FilterKeeps<T>(s: seq<T>, keep: T -> bool)
    ensures forall i :: 0 <= i < |s| && keep(s[i]) ==> s[i] in Filter(s, keep)
  {
    FilterMembers(s, keep);
    forall i | 0 <= i < |s| && keep(s[i]) ensures s[i] in Filter(s, keep) {
      assert s[i] in s;
    }
  }

  lemma {:induction false} FilterAll<T>(s: seq<T>, keep: T -> bool)
    requires forall x :: x in s ==> keep(x)
    ensures Filter(s, keep) == s
  {
    if |s| > 0 {
      assert forall x :: x in s[..|s| - 1] ==> x in s;
      FilterAll(s[..|s| - 1], keep);
    }
  }

  lemma {:induction false} FilterNone<T>(s: seq<T>, keep: T -> bool)
    requires forall x :: x in s ==> !keep(x)
    ensures Filter(s, keep) == []
  {
    if |s| > 0 {
      assert forall x :: x in s[..|s| - 1] ==> x in s;
      FilterNone(s[..|s| - 1], keep);
    }
  }

  /** Filtering twice, where the second condition implies the first, is
      filtering once by the second condition. */
  lemma {:induction false} FilterNarrow<T>(s: seq<T>, outer: T -> bool, inner: T -> bool)
    requires forall x :: inner(x) ==> outer(x)
    ensures Filter(Filter(s, outer), inner) == Filter(s, inner)
  {
    if |s| > 0 {
      var init, last := s[..|s| - 1], s[|s| - 1];
      FilterNarrow(init, outer, inner);
      FilterAppend(Filter(init, outer), if outer(last) then [last] else [], inner);
    }
  }

  lemma {:induction false} FilterAppend<T>(a: seq<T>, b: seq<T>, keep: T -> bool)
    ensures Filter(a + b, keep) == Filter(a, keep) + Filter(b, keep)
    decreases |b|
  {
    if |b| == 0 {
      assert a + b == a;
    } else {
      var b' := b[..|b| - 1];
      assert (a + b)[..|a + b| - 1] == a + b';
      FilterAppend(a, b', keep);
      assert b[..|b| - 1] == b';
    }
  }

  /** A filter keeps at least two elements exactly when two positions satisfy the condition. */
  lemma {:induction false} FilterPair<T>(s: seq<T>, keep: T -> bool)
    ensures |Filter(s, keep)| >= 2 <==> exists i, j :: 0 <= i < j < |s| && keep(s[i]) && keep(s[j])
  {
    if |s| > 0 {
      var init, last := s[..|s| - 1], s[|s| - 1];
      FilterPair(init, keep);
      if keep(last) && |Filter(init, keep)| >= 1 {
        FilterElements(init, keep);
        var i :| 0 <= i < |init| && init[i] == Filter(init, keep)[0];
        assert keep(s[i]) && keep(s[|s| - 1]);
      }
      if exists i, j :: 0 <= i < j < |s| && keep(s[i]) && keep(s[j]) {
        var i, j :| 0 <= i < j < |s| && keep(s[i]) && keep(s[j]);
        if j < |s| - 1 {
          assert init[i] == s[i] && init[j] == s[j];
        } else {
          FilterKeeps(init, keep);
          assert init[i] in Filter(init, keep);
        }
      }
    }
  }

  lemma FilterSingle<T>(x: T, keep: T -> bool)
    ensures Filter([x], keep) == if keep(x) then [x] else []
  {
    assert [x][..0] == [];
  }

  // Java's Integer is a 32-bit two's-complement value.
  const INT_MIN: int := -0x8000_0000
  const INT_MAX: int := 0x7FFF_FFFF

  predicate IsInt32(x: int) { INT_MIN <= x <= INT_MAX }

  /** The value Java's `int` arithmetic yields for the mathematical value `x`. */
  function WrapInt32(x: int): (r: int)
    ensures IsInt32(r)
    ensures IsInt32(x) ==> r == x
    ensures (r - x) % 0x1_0000_0000 == 0
  {
    (x - INT_MIN) % 0x1_0000_0000 + INT_MIN
  }

  /** `i + 1` on a Java Integer: exact below the maximum, wraps to the minimum at it. */
  lemma IncrementInt32(i: int)
    requires IsInt32(i)
    ensures i < INT_MAX ==> WrapInt32(i + 1) == i + 1
    ensures i == INT_MAX ==> WrapInt32(i + 1) == INT_MIN
  {
  }
}
