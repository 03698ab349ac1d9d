/** Option type shared by every module of the model. */
module Wrappers {
  datatype Option<+T> = None | Some(value: T)
}

/**
 * ASCII string helpers standing in for the JavaScript string operations the
 * word trainer uses: toLowerCase, trim, indexOf, split and join.
 * Characters outside ASCII are treated as having no case and no whitespace.
 */
module Text {

  /** The ASCII part of JavaScript's `\s` class (and of what `trim` removes). */
  predicate IsSpace(c: char) {
    c == ' ' || c == '\t' || c == '\n' || c == '\r' || c == '\U{B}' || c == '\U{C}'
  }

  /** What `[a-z]` matches under the `i` flag. */
  predicate IsLetter(c: char) {
    ('a' <= c <= 'z') || ('A' <= c <= 'Z')
  }

  function LowerChar(c: char): (r: char)
    ensures 'A' <= c <= 'Z' ==> r as int == c as int + 32
    ensures !('A' <= c <= 'Z') ==> r == c
    ensures !('A' <= r <= 'Z')
  {
    if 'A' <= c <= 'Z' then (c as int + 32) as char else c
  }

  /** `toLowerCase` on ASCII text: length-preserving, pointwise. */
  function Lower(s: string): (r: string)
    ensures |r| == |s|
    ensures forall i :: 0 <= i < |s| ==> r[i] == LowerChar(s[i])
  {
    seq(|s|, i requires 0 <= i < |s| => LowerChar(s[i]))
  }

  predicate IsLower(s: string) {
    forall i :: 0 <= i < |s| ==> !('A' <= s[i] <= 'Z')
  }

  lemma LowerIsLower(s: string)
    ensures IsLower(Lower(s))
  {
  }

  lemma LowerOfLower(s: string)
    requires IsLower(s)
    ensures Lower(s) == s
  {
  }

  lemma LowerIdempotent(s: string)
    ensures Lower(Lower(s)) == Lower(s)
  {
    LowerIsLower(s);
    LowerOfLower(Lower(s));
  }

  lemma LowerAppend(a: string, b: string)
    ensures Lower(a + b) == Lower(a) + Lower(b)
  {
  }

  lemma LowerSlice(s: string, i: nat, j: nat)
    requires i <= j <= |s|
    ensures Lower(s[i..j]) == Lower(s)[i..j]
  {
  }

  lemma LowerSuffix(s: string, i: nat)
    requires i <= |s|
    ensures Lower(s[i..]) == Lower(s)[i..]
  {
    LowerSlice(s, i, |s|);
    assert s[i..] == s[i..|s|];
  }

  /** Equal lowercase concatenations with equally long heads have equal lowercase halves. */
  lemma LowerSplit(a: string, b: string, x: string, y: string)
    requires |a| == |x| && Lower(a + b) == Lower(x + y)
    ensures Lower(a) == Lower(x) && Lower(b) == Lower(y)
  {
    LowerAppend(a, b);
    LowerAppend(x, y);
    assert Lower(a) == Lower(a + b)[..|a|] && Lower(x) == Lower(x + y)[..|a|];
    assert Lower(b) == Lower(a + b)[|a|..] && Lower(y) == Lower(x + y)[|a|..];
  }

  // ---------------------------------------------------------------------------
  // Trimming

  /** The first index at or after `i` whose character is not in the class. */
  function SkipWhile(s: string, i: nat, p: char -> bool): (r: nat)
    requires i <= |s|
    ensures i <= r <= |s|
    ensures forall k :: i <= k < r ==> p(s[k])
    ensures r < |s| ==> !p(s[r])
    decreases |s| - i
  {
    if i < |s| && p(s[i]) then SkipWhile(s, i + 1, p) else i
  }

  /** The start of the longest run of class characters that ends at `j` and begins at or after `lo`. */
  function BackWhile(s: string, lo: nat, j: nat, p: char -> bool): (r: nat)
    requires lo <= j <= |s|
    ensures lo <= r <= j
    ensures forall k :: r <= k < j ==> p(s[k])
    ensures r > lo ==> !p(s[r - 1])
    decreases j
  {
    if j > lo && p(s[j - 1]) then BackWhile(s, lo, j - 1, p) else j
  }

  /**
   * Drops the longest prefix, then the longest suffix, whose characters
   * satisfy `drop`: what a `^[...]+|[...]+$` replace with "" does.
   */
  function TrimBy(s: string, drop: char -> bool): (r: string)
    ensures SkipWhile(s, 0, drop) + |r| <= |s|
    ensures r == s[SkipWhile(s, 0, drop)..SkipWhile(s, 0, drop) + |r|]
    ensures forall k :: 0 <= k < SkipWhile(s, 0, drop) ==> drop(s[k])
    ensures forall k :: SkipWhile(s, 0, drop) + |r| <= k < |s| ==> drop(s[k])
    ensures r != [] ==> !drop(r[0]) && !drop(r[|r| - 1])
  {
    var i := SkipWhile(s, 0, drop);
    s[i..BackWhile(s, i, |s|, drop)]
  }

  lemma {:induction false} SkipWhileLower(s: string, i: nat, drop: char -> bool)
    requires i <= |s|
    requires forall c :: drop(LowerChar(c)) == drop(c)
    ensures SkipWhile(Lower(s), i, drop) == SkipWhile(s, i, drop)
    decreases |s| - i
  {
    if i < |s| {
      assert drop(Lower(s)[i]) == drop(s[i]);
      SkipWhileLower(s, i + 1, drop);
    }
  }

  lemma {:induction false} BackWhileLower(s: string, lo: nat, j: nat, drop: char -> bool)
    requires lo <= j <= |s|
    requires forall c :: drop(LowerChar(c)) == drop(c)
    ensures BackWhile(Lower(s), lo, j, drop) == BackWhile(s, lo, j, drop)
    decreases j
  {
    if j > lo {
      assert drop(Lower(s)[j - 1]) == drop(s[j - 1]);
      BackWhileLower(s, lo, j - 1, drop);
    }
  }

  /** Trimming a class that has no case commutes with lowercasing. */
  lemma TrimByLower(s: string, drop: char -> bool)
    requires forall c :: drop(LowerChar(c)) == drop(c)
    ensures TrimBy(Lower(s), drop) == Lower(TrimBy(s, drop))
  {
    var i := SkipWhile(s, 0, drop);
    SkipWhileLower(s, 0, drop);
    BackWhileLower(s, i, |s|, drop);
    LowerSlice(s, i, BackWhile(s, i, |s|, drop));
  }

  /** The first index at or after `i` that is not whitespace. */
  function SkipSpaces(s: string, i: nat): (r: nat)
    requires i <= |s|
    ensures i <= r <= |s|
    decreases |s| - i
  {
    if i < |s| && IsSpace(s[i]) then SkipSpaces(s, i + 1) else i
  }

  /** The end of the run of letters that starts at `i`. */
  function SkipLetters(s: string, i: nat): (r: nat)
    requires i <= |s|
    ensures i <= r <= |s|
    ensures i < |s| && IsLetter(s[i]) ==> i < r && IsLetter(s[r - 1])
    decreases |s| - i
  {
    if i < |s| && IsLetter(s[i]) then SkipLetters(s, i + 1) else i
  }

  /** The start of the whitespace run that ends at `j`, not going below `lo`. */
  function BackSpaces(s: string, lo: nat, j: nat): (r: nat)
    requires lo <= j <= |s|
    ensures lo <= r <= j
    decreases j
  {
    if j > lo && IsSpace(s[j - 1]) then BackSpaces(s, lo, j - 1) else j
  }

  lemma {:induction false} SkipSpacesRun(s: string, i: nat)
    requires i <= |s|
    ensures forall k :: i <= k < SkipSpaces(s, i) ==> IsSpace(s[k])
    ensures SkipSpaces(s, i) < |s| ==> !IsSpace(s[SkipSpaces(s, i)])
    decreases |s| - i
  {
    if i < |s| && IsSpace(s[i]) {
      SkipSpacesRun(s, i + 1);
    }
  }

  lemma {:induction false} BackSpacesRun(s: string, lo: nat, j: nat)
    requires lo <= j <= |s|
    ensures forall k :: BackSpaces(s, lo, j) <= k < j ==> IsSpace(s[k])
    ensures BackSpaces(s, lo, j) > lo ==> !IsSpace(s[BackSpaces(s, lo, j) - 1])
    decreases j
  {
    if j > lo && IsSpace(s[j - 1]) {
      BackSpacesRun(s, lo, j - 1);
    }
  }

  /** How many characters `trim` removes at the front. */
  function LeadingSpaces(s: string): (n: nat)
    ensures n <= |s|
  {
    SkipSpaces(s, 0)
  }

  /** `String.prototype.trim`: the text between the leading and trailing whitespace runs. */
  function Trim(s: string): (r: string)
    ensures |r| <= |s|
  {
    var i := SkipSpaces(s, 0);
    s[i..BackSpaces(s, i, |s|)]
  }

  /**
   * What `trim` keeps: a slice of the input after its leading whitespace,
   * with only whitespace around it and no whitespace at either of its ends.
   */
  lemma TrimShape(s: string)
    ensures LeadingSpaces(s) + |Trim(s)| <= |s|
    ensures Trim(s) == s[LeadingSpaces(s)..LeadingSpaces(s) + |Trim(s)|]
    ensures forall k :: 0 <= k < LeadingSpaces(s) ==> IsSpace(s[k])
    ensures forall k :: LeadingSpaces(s) + |Trim(s)| <= k < |s| ==> IsSpace(s[k])
    ensures Trim(s) != [] ==> !IsSpace(Trim(s)[0]) && !IsSpace(Trim(s)[|Trim(s)| - 1])
  {
    var i := SkipSpaces(s, 0);
    SkipSpacesRun(s, 0);
    BackSpacesRun(s, i, |s|);
  }

  lemma TrimNoSpace(s: string)
    requires forall i :: 0 <= i < |s| ==> !IsSpace(s[i])
    ensures Trim(s) == s
  {
    SkipSpacesRun(s, 0);
    BackSpacesRun(s, 0, |s|);
  }

  // ---------------------------------------------------------------------------
  // Searching

  predicate OccursAt(s: string, key: string, i: int) {
    0 <= i && i + |key| <= |s| && s[i..i + |key|] == key
  }

  /**
   * The first occurrence of `key` starting below `n`, or -1. The search
   * recurses on the last candidate, so one unfolding compares only there.
   */
  function IndexBelow(s: string, key: string, n: nat): (r: int)
    ensures r == -1 || (r < n && OccursAt(s, key, r))
    ensures forall k :: 0 <= k < (if r == -1 then n else r) ==> !OccursAt(s, key, k)
    decreases n
  {
    if n == 0 then -1
    else
      var r := IndexBelow(s, key, n - 1);
      if r != -1 then r else if OccursAt(s, key, n - 1) then n - 1 else -1
  }

  /** `s.indexOf(key)`; the empty key is found at index 0. */
  function IndexOf(s: string, key: string): (r: int)
    ensures r == -1 || OccursAt(s, key, r)
    ensures forall k :: 0 <= k < (if r == -1 then |s| + 1 else r) ==> !OccursAt(s, key, k)
    ensures key == [] ==> r == 0
  {
    assert key == [] ==> OccursAt(s, key, 0);
    IndexBelow(s, key, |s| + 1)
  }

  // ---------------------------------------------------------------------------
  // Joining and splitting

  /** `parts.join("")`. */
  function Join(parts: seq<string>): string {
    if parts == [] then [] else parts[0] + Join(parts[1..])
  }

  lemma {:induction false} JoinAppend(a: seq<string>, b: seq<string>)
    ensures Join(a + b) == Join(a) + Join(b)
    decreases |a|
  {
    if a == [] {
      assert a + b == b;
    } else {
      assert (a + b)[1..] == a[1..] + b;
      JoinAppend(a[1..], b);
    }
  }

  lemma JoinSnoc(a: seq<string>, x: string)
    ensures Join(a + [x]) == Join(a) + x
  {
    JoinAppend(a, [x]);
    assert Join([x]) == x + Join([]);
  }

  /** `parts.join(sep)`. */
  function JoinWith(parts: seq<string>, sep: char): string {
    if parts == [] then []
    else if |parts| == 1 then parts[0]
    else parts[0] + [sep] + JoinWith(parts[1..], sep)
  }

  function FirstIndexOfChar(s: string, c: char): (r: int)
    ensures -1 <= r < |s|
    ensures r >= 0 ==> s[r] == c
    ensures forall k :: 0 <= k < (if r == -1 then |s| else r) ==> s[k] != c
  {
    if s == [] then -1
    else if s[0] == c then 0
    else var k := FirstIndexOfChar(s[1..], c); if k == -1 then -1 else k + 1
  }

  /** `s.split(sep)` for a one-character separator. */
  function SplitOn(s: string, sep: char): (r: seq<string>)
    ensures |r| >= 1
    decreases |s|
  {
    var k := FirstIndexOfChar(s, sep);
    if k == -1 then [s] else [s[..k]] + SplitOn(s[k + 1..], sep)
  }

  /** Joining the pieces with the separator gives `s` back. */
  lemma {:induction false} SplitOnJoins(s: string, sep: char)
    ensures JoinWith(SplitOn(s, sep), sep) == s
    decreases |s|
  {
    var k := FirstIndexOfChar(s, sep);
    if k != -1 {
      var rest := SplitOn(s[k + 1..], sep);
      SplitOnJoins(s[k + 1..], sep);
      assert |rest| >= 1;
      assert s == s[..k] + [sep] + s[k + 1..];
    }
  }

  /** No piece holds the separator. */
  lemma {:induction false} SplitOnNoSeparator(s: string, sep: char)
    ensures forall p :: p in SplitOn(s, sep) ==> sep !in p
    decreases |s|
  {
    var k := FirstIndexOfChar(s, sep);
    if k != -1 {
      SplitOnNoSeparator(s[k + 1..], sep);
    }
  }

  function FirstSpace(s: string): (r: int)
    ensures -1 <= r < |s|
    ensures r >= 0 ==> IsSpace(s[r])
    ensures forall k :: 0 <= k < (if r == -1 then |s| else r) ==> !IsSpace(s[k])
  {
    if s == [] then -1
    else if IsSpace(s[0]) then 0
    else var k := FirstSpace(s[1..]); if k == -1 then -1 else k + 1
  }

  /** `s.split(/\s+/)`: pieces between maximal runs of whitespace. */
  function SplitWs(s: string): (r: seq<string>)
    ensures |r| >= 1
    decreases |s|
  {
    var k := FirstSpace(s);
    if k == -1 then [s]
    else [s[..k]] + SplitWs(s[SkipSpaces(s, k)..])
  }

  /** No piece of `split(/\s+/)` holds whitespace. */
  lemma {:induction false} SplitWsPiecesHaveNoSpace(s: string)
    ensures forall p :: p in SplitWs(s) ==> forall i :: 0 <= i < |p| ==> !IsSpace(p[i])
    decreases |s|
  {
    var k := FirstSpace(s);
    if k != -1 {
      SplitWsPiecesHaveNoSpace(s[SkipSpaces(s, k)..]);
    }
  }

  /** Every piece of `split(/\s+/)` is a slice of the input. */
  lemma {:induction false} SplitWsPiecesAreSlices(s: string)
    ensures forall p :: p in SplitWs(s) ==> exists i, j :: 0 <= i <= j <= |s| && p == s[i..j]
    decreases |s|
  {
    var k := FirstSpace(s);
    if k == -1 {
      assert s == s[0..|s|];
    } else {
      var m := SkipSpaces(s, k);
      var t := s[m..];
      SplitWsPiecesAreSlices(t);
      assert s[..k] == s[0..k];
      forall p | p in SplitWs(t)
        ensures exists i, j :: 0 <= i <= j <= |s| && p == s[i..j]
      {
        var i, j :| 0 <= i <= j <= |t| && p == t[i..j];
        assert p == s[m + i..m + j];
      }
    }
  }

  lemma SplitWsNoSpace(s: string)
    requires forall i :: 0 <= i < |s| ==> !IsSpace(s[i])
    ensures SplitWs(s) == [s]
  {
    assert FirstSpace(s) == -1;
  }
}
