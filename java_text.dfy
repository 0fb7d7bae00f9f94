/** The few `java.lang.String` operations the services rely on, with Java's
    own edge cases: `indexOf`, `contains`, `split` (which drops trailing empty
    strings), `replace` of every occurrence, and decimal rendering of integers. */
module JavaText {
  import opened Common

  /** `pat` occurs in `s` starting at index `j`. */
  predicate OccursAt(s: string, pat: string, j: int)
  {
    0 <= j && j + |pat| <= |s| && s[j..j + |pat|] == pat
  }

  /** `s.contains(pat)`. */
  predicate Contains(s: string, pat: string)
  {
    exists j :: 0 <= j <= |s| - |pat| && OccursAt(s, pat, j)
  }

  /** `s.indexOf(pat)`: the leftmost occurrence, or -1. */
  function IndexOf(s: string, pat: string): (k: int)
    requires |pat| > 0
    ensures k == -1 || 0 <= k <= |s| - |pat|
    ensures k >= 0 ==> OccursAt(s, pat, k)
    ensures k >= 0 ==> forall j :: 0 <= j < k ==> !OccursAt(s, pat, j)
    ensures k < 0 ==> forall j :: !OccursAt(s, pat, j)
    decreases |s|
  {
    if |s| < |pat| then -1
    else if s[..|pat|] == pat then 0
    else
      var k := IndexOf(s[1..], pat);
      forall j | 1 <= j && OccursAt(s, pat, j) ensures OccursAt(s[1..], pat, j - 1) {
        assert s[1..][j - 1..j - 1 + |pat|] == s[j..j + |pat|];
      }
      assert !OccursAt(s, pat, 0);
      if k < 0 then -1 else
        assert s[1..][k..k + |pat|] == s[k + 1..k + 1 + |pat|];
        k + 1
  }

  lemma IndexOfContains(s: string, pat: string)
    requires |pat| > 0
    ensures IndexOf(s, pat) >= 0 <==> Contains(s, pat)
  {
  }

  /** `s` cut at every occurrence of `sep`, scanning left to right, keeping
      every piece (also empty ones). */
  function Pieces(s: string, sep: string): (r: seq<string>)
    requires |sep| > 0
    ensures |r| >= 1
    decreases |s|
  {
    var k := IndexOf(s, sep);
    if k < 0 then [s] else [s[..k]] + Pieces(s[k + |sep|..], sep)
  }

  /** Drops the empty strings at the end of `parts`. */
  function StripTrailingEmpty(parts: seq<string>): (r: seq<string>)
    ensures |r| <= |parts| && r == parts[..|r|]
    ensures |r| > 0 ==> r[|r| - 1] != ""
    ensures forall i :: |r| <= i < |parts| ==> parts[i] == ""
  {
    if |parts| > 0 && parts[|parts| - 1] == "" then StripTrailingEmpty(parts[..|parts| - 1])
    else parts
  }

  /** `s.split(sep)` for a separator without regular-expression
      metacharacters: when `sep` does not occur the result is `[s]` (also for
      the empty string); otherwise trailing empty strings are removed. */
  function Split(s: string, sep: string): seq<string>
    requires |sep| > 0
  {
    if IndexOf(s, sep) < 0 then [s] else StripTrailingEmpty(Pieces(s, sep))
  }

  /** `String.join(sep, parts)`. */
  function Join(parts: seq<string>, sep: string): string
  {
    if |parts| == 0 then ""
    else if |parts| == 1 then parts[0]
    else parts[0] + sep + Join(parts[1..], sep)
  }

  /** `part` can be followed by `sep` without the first occurrence of `sep`
      starting anywhere but right after `part`. */
  predicate SeparatorFree(part: string, sep: string)
    requires |sep| > 0
  {
    !Contains(part + sep[..|sep| - 1], sep)
  }

  lemma SingleCharSeparatorFree(part: string, c: char)
    requires c !in part
    ensures SeparatorFree(part, [c])
  {
    assert part + [c][..0] == part;
    forall j | 0 <= j < |part| ensures !OccursAt(part, [c], j) {
      assert part[j..j + 1][0] == part[j];
    }
  }

  lemma CommaSpaceSeparatorFree(part: string)
    requires !Contains(part, ", ")
    ensures SeparatorFree(part, ", ")
  {
    var t := part + ",";
    assert part + ", "[..1] == t;
    forall j | 0 <= j <= |t| - 2 ensures !OccursAt(t, ", ", j) {
      if j + 2 <= |part| {
        assert t[j..j + 2] == part[j..j + 2];
        assert !OccursAt(part, ", ", j);
      } else {
        assert t[j..j + 2][1] == ',';
      }
    }
  }

  /** A string without some character does not contain that character. */
  lemma CharAbsent(s: string, c: char)
    requires c !in s
    ensures !Contains(s, [c])
  {
    forall j | 0 <= j < |s| ensures !OccursAt(s, [c], j) {
      assert s[j..j + 1][0] == s[j];
    }
  }

  /** A string without commas is separator-free for ", ". */
  lemma NoCommaSeparatorFree(part: string)
    requires ',' !in part
    ensures SeparatorFree(part, ", ")
  {
    var t := part + ",";
    assert part + ", "[..1] == t;
    forall j | 0 <= j <= |t| - 2 ensures !OccursAt(t, ", ", j) {
      assert t[j..j + 2][0] == t[j] == part[j];
    }
  }

  lemma {:induction false} ContainsExtend(s: string, x: string, pat: string)
    requires Contains(s, pat)
    ensures Contains(s + x, pat)
  {
    var j :| 0 <= j <= |s| - |pat| && OccursAt(s, pat, j);
    assert (s + x)[j..j + |pat|] == s[j..j + |pat|];
    assert OccursAt(s + x, pat, j);
  }

  /** The first occurrence of `sep` in `part + sep + rest` is the one right after `part`. */
  lemma {:induction false} FirstSeparator(part: string, sep: string, rest: string)
    requires |sep| > 0 && SeparatorFree(part, sep)
    ensures IndexOf(part + sep + rest, sep) == |part|
  {
    var s := part + sep + rest;
    var t := part + sep[..|sep| - 1];
    assert s[|part|..|part| + |sep|] == sep;
    assert OccursAt(s, sep, |part|);
    forall j | 0 <= j < |part| ensures !OccursAt(s, sep, j) {
      if OccursAt(s, sep, j) {
        assert t[j..j + |sep|] == s[j..j + |sep|];
        assert OccursAt(t, sep, j);
      }
    }
  }

  /** Cutting a joined sequence at its separators gives back the parts. */
  lemma {:induction false} PiecesOfJoin(parts: seq<string>, sep: string)
    requires |sep| > 0 && |parts| >= 1
    requires forall i :: 0 <= i < |parts| ==> SeparatorFree(parts[i], sep)
    ensures Pieces(Join(parts, sep), sep) == parts
  {
    if |parts| == 1 {
      if IndexOf(parts[0], sep) >= 0 {
        ContainsExtend(parts[0], sep[..|sep| - 1], sep);
      }
    } else {
      var rest := Join(parts[1..], sep);
      var s := parts[0] + sep + rest;
      FirstSeparator(parts[0], sep, rest);
      assert s[..|parts[0]|] == parts[0];
      assert s[|parts[0]| + |sep|..] == rest;
      PiecesOfJoin(parts[1..], sep);
    }
  }

  /** `Join(parts, sep).split(sep)` gives back `parts` when no part contains the
      separator, there are at least two parts and the last one is not empty. */
  lemma SplitOfJoin(parts: seq<string>, sep: string)
    requires |sep| > 0 && |parts| >= 2 && parts[|parts| - 1] != ""
    requires forall i :: 0 <= i < |parts| ==> SeparatorFree(parts[i], sep)
    ensures Split(Join(parts, sep), sep) == parts
  {
    var s := Join(parts, sep);
    FirstSeparator(parts[0], sep, Join(parts[1..], sep));
    PiecesOfJoin(parts, sep);
  }

  /** A string in which the separator does not occur splits into itself. */
  lemma SplitWithoutSeparator(s: string, sep: string)
    requires |sep| > 0 && !Contains(s, sep)
    ensures Split(s, sep) == [s]
  {
  }

  /** `s.replace(pat, "")`: every occurrence found scanning left to right is removed. */
  function RemoveAll(s: string, pat: string): string
    requires |pat| > 0
    decreases |s|
  {
    if |s| < |pat| then s
    else if s[..|pat|] == pat then RemoveAll(s[|pat|..], pat)
    else [s[0]] + RemoveAll(s[1..], pat)
  }

  /** A string lacking some character of the pattern loses nothing. */
  lemma {:induction false} RemoveAllAbsent(s: string, pat: string, c: char)
    requires |pat| > 0 && c in pat && c !in s
    ensures RemoveAll(s, pat) == s
    decreases |s|
  {
    if |s| >= |pat| && s[..|pat|] != pat {
      RemoveAllAbsent(s[1..], pat, c);
    }
  }

  /** Every leading copy of the pattern is removed. */
  lemma RemoveAllPrefix(pat: string, s: string)
    requires |pat| > 0
    ensures RemoveAll(pat + s, pat) == RemoveAll(s, pat)
  {
    assert (pat + s)[..|pat|] == pat;
    assert (pat + s)[|pat|..] == s;
  }

  // Decimal rendering of integers, as `"" + i` and `Integer.toString(i)` do.

  function DigitChar(d: int): (c: char)
    requires 0 <= d < 10
    ensures '0' <= c <= '9'
  {
    (48 + d) as char
  }

  function DigitValue(c: char): int
    requires '0' <= c <= '9'
  {
    c as int - 48
  }

  function NatText(n: nat): (s: string)
    ensures |s| > 0 && forall i :: 0 <= i < |s| ==> '0' <= s[i] <= '9'
  {
    if n < 10 then [DigitChar(n)] else NatText(n / 10) + [DigitChar(n % 10)]
  }

  function IntText(i: int): (s: string)
    ensures |s| > 0
    ensures i >= 0 <==> '0' <= s[0] <= '9'
  {
    if i < 0 then "-" + NatText(-i) else NatText(i)
  }

  /** Parses a non-empty string of decimal digits. */
  function ParseNat(s: string): Option<nat>
  {
    if |s| == 0 || !('0' <= s[|s| - 1] <= '9') then None
    else if |s| == 1 then Some(DigitValue(s[0]))
    else match ParseNat(s[..|s| - 1])
      case None => None
      case Some(n) => Some(n * 10 + DigitValue(s[|s| - 1]))
  }

  /** Parses an optional minus sign followed by decimal digits. */
  function ParseInt(s: string): Option<int>
  {
    if |s| > 0 && s[0] == '-' then
      match ParseNat(s[1..])
      case None => None
      case Some(n) => var v: int := -(n as int); Some(v)
    else match ParseNat(s)
      case None => None
      case Some(n) => Some(n)
  }

  lemma {:induction false} ParseNatText(n: nat)
    ensures ParseNat(NatText(n)) == Some(n)
  {
    if n >= 10 {
      var s := NatText(n);
      assert s[..|s| - 1] == NatText(n / 10);
      ParseNatText(n / 10);
    }
  }

  /** Rendering an integer and parsing it back gives the integer. */
  lemma ParseIntText(i: int)
    ensures ParseInt(IntText(i)) == Some(i)
  {
    var s := IntText(i);
    if i < 0 {
      var t := NatText(-i);
      assert s == "-" + t;
      assert s[1..] == t;
      ParseNatText(-i);
      assert ParseNat(s[1..]) == Some(-i);
    } else {
      ParseNatText(i);
      assert s[0] != '-';
      assert ParseNat(s) == Some(i);
    }
  }

  /** `String.valueOf` of a nullable reference: its text, or "null". */
  function NullableText(s: Option<string>): string
  {
    match s
    case None => "null"
    case Some(t) => t
  }

  function NullableIntText(i: Option<int>): string
  {
    match i
    case None => "null"
    case Some(n) => IntText(n)
  }
}
