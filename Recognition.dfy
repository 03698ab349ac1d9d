/**
 * The fuzzy voice matcher of src/hooks/useRecognition.ts: the Levenshtein
 * table, the closeness test on a transcript, and the recognition state
 * machine driven by the recognizer's result, end and error events.
 */
module Recognition {
  import opened Text

  // ---------------------------------------------------------------------------
  // Edit distance

  function Min3(x: nat, y: nat, z: nat): (r: nat)
    ensures r <= x && r <= y && r <= z
    ensures r == x || r == y || r == z
  {
    if x <= y && x <= z then x else if y <= z then y else z
  }

  /**
   * The distance between the prefixes `a[..i]` and `b[..j]`, by the
   * recurrence the table is filled with: an empty prefix costs the other's
   * length, equal last characters cost nothing, and otherwise one edit plus
   * the cheapest of deleting, inserting or substituting.
   */
  function Dist(a: string, b: string, i: nat, j: nat): nat
    requires i <= |a| && j <= |b|
    decreases i + j
  {
    if i == 0 then j
    else if j == 0 then i
    else if a[i - 1] == b[j - 1] then Dist(a, b, i - 1, j - 1)
    else 1 + Min3(Dist(a, b, i - 1, j), Dist(a, b, i, j - 1), Dist(a, b, i - 1, j - 1))
  }

  /** One cell of the recurrence away from the borders. */
  lemma DistStep(a: string, b: string, i: nat, j: nat)
    requires 1 <= i <= |a| && 1 <= j <= |b|
    ensures Dist(a, b, i, j) == if a[i - 1] == b[j - 1] then Dist(a, b, i - 1, j - 1)
      else 1 + Min3(Dist(a, b, i - 1, j), Dist(a, b, i, j - 1), Dist(a, b, i - 1, j - 1))
  {
  }

  /** `levenshtein(a, b)` as a function of the two strings. */
  function Lev(a: string, b: string): nat {
    Dist(a, b, |a|, |b|)
  }

  /** The first `i` rows of the table hold the distances of their prefixes. */
  ghost predicate RowsDone(dp: array2<nat>, a: string, b: string, i: nat)
    requires dp.Length0 == |a| + 1 && dp.Length1 == |b| + 1 && i <= |a| + 1
    reads dp
  {
    forall r, c :: 0 <= r < i && 0 <= c <= |b| ==> dp[r, c] == Dist(a, b, r, c)
  }

  /** Fills row `i` from left to right, using the row above and the cell to the left. */
  method FillRow(dp: array2<nat>, a: string, b: string, i: nat)
    requires dp.Length0 == |a| + 1 && dp.Length1 == |b| + 1 && 1 <= i <= |a|
    requires RowsDone(dp, a, b, i) && dp[i, 0] == i
    modifies dp
    ensures RowsDone(dp, a, b, i + 1)
    ensures forall r, c :: 0 <= r < dp.Length0 && 0 <= c < dp.Length1 && r != i ==> dp[r, c] == old(dp[r, c])
  {
    for j := 1 to |b| + 1
      invariant forall c {:trigger dp[i, c]} :: 0 <= c < j ==> dp[i, c] == Dist(a, b, i, c)
      invariant forall r, c :: 0 <= r < dp.Length0 && 0 <= c < dp.Length1 && r != i ==> dp[r, c] == old(dp[r, c])
    {
      var diag, up, left := dp[i - 1, j - 1], dp[i - 1, j], dp[i, j - 1];
      assert diag == old(dp[i - 1, j - 1]) && up == old(dp[i - 1, j]);
      assert diag == Dist(a, b, i - 1, j - 1) && up == Dist(a, b, i - 1, j) && left == Dist(a, b, i, j - 1);
      DistStep(a, b, i, j);
      dp[i, j] := if a[i - 1] == b[j - 1] then diag else 1 + Min3(up, left, diag);
    }
  }

  /** `levenshtein`: the `dp` table filled row by row; the corner is the distance. */
  method Levenshtein(a: string, b: string) returns (d: nat)
    ensures d == Lev(a, b)
  {
    var m, n := |a|, |b|;
    var dp := new nat[m + 1, n + 1]((i, j) => if i == 0 then j else if j == 0 then i else 0);
    for i := 1 to m + 1
      invariant RowsDone(dp, a, b, i)
      invariant forall r :: i <= r <= m ==> dp[r, 0] == r
    {
      FillRow(dp, a, b, i);
    }
    d := dp[m, n];
  }

  /** A string is at distance 0 from itself. */
  lemma {:induction false} DistSelf(a: string, i: nat)
    requires i <= |a|
    ensures Dist(a, a, i, i) == 0
  {
    if i > 0 {
      DistSelf(a, i - 1);
    }
  }

  lemma LevSelf(a: string)
    ensures Lev(a, a) == 0
  {
    DistSelf(a, |a|);
  }

  /**
   * The distance is at most the longer length: substitute along the
   * shorter, insert or delete the rest.
   */
  lemma {:induction false} DistUpper(a: string, b: string, i: nat, j: nat)
    requires i <= |a| && j <= |b|
    ensures Dist(a, b, i, j) <= (if i <= j then j else i)
    decreases i + j
  {
    if i > 0 && j > 0 {
      DistStep(a, b, i, j);
      DistUpper(a, b, i - 1, j - 1);
    }
  }

  /** A cell is at least `m` when the cells it is computed from are, the diagonal one without an edit. */
  lemma DistStepBelow(a: string, b: string, i: nat, j: nat, m: nat)
    requires 1 <= i <= |a| && 1 <= j <= |b|
    requires Dist(a, b, i - 1, j - 1) >= m
    requires Dist(a, b, i - 1, j) + 1 >= m && Dist(a, b, i, j - 1) + 1 >= m
    ensures Dist(a, b, i, j) >= m
  {
    DistStep(a, b, i, j);
  }

  /** The distance is at least the difference of the lengths: each edit changes the length by at most one. */
  lemma {:induction false} DistLower(a: string, b: string, i: nat, j: nat)
    requires i <= |a| && j <= |b|
    ensures Dist(a, b, i, j) >= (if i <= j then j - i else i - j)
    decreases i + j
  {
    if i > 0 && j > 0 {
      DistLower(a, b, i - 1, j - 1);
      DistLower(a, b, i - 1, j);
      DistLower(a, b, i, j - 1);
      DistStepBelow(a, b, i, j, if i <= j then j - i else i - j);
    }
  }

  lemma LevBounds(a: string, b: string)
    ensures Lev(a, b) <= (if |a| <= |b| then |b| else |a|)
    ensures Lev(a, b) >= (if |a| <= |b| then |b| - |a| else |a| - |b|)
  {
    DistUpper(a, b, |a|, |b|);
    DistLower(a, b, |a|, |b|);
  }

  /** Symmetry of one differing cell, given symmetry of the three cells it is computed from. */
  lemma DistSymmetricStep(a: string, b: string, i: nat, j: nat)
    requires 1 <= i <= |a| && 1 <= j <= |b| && a[i - 1] != b[j - 1]
    requires Dist(a, b, i - 1, j - 1) == Dist(b, a, j - 1, i - 1)
    requires Dist(a, b, i - 1, j) == Dist(b, a, j, i - 1)
    requires Dist(a, b, i, j - 1) == Dist(b, a, j - 1, i)
    ensures Dist(a, b, i, j) == Dist(b, a, j, i)
  {
    var x, y, z := Dist(a, b, i - 1, j), Dist(a, b, i, j - 1), Dist(a, b, i - 1, j - 1);
    DistStep(a, b, i, j);
    DistStep(b, a, j, i);
    assert Min3(x, y, z) == Min3(y, x, z);
  }

  /** Swapping the strings swaps deletions and insertions: the distance is symmetric. */
  lemma {:induction false} DistSymmetric(a: string, b: string, i: nat, j: nat)
    requires i <= |a| && j <= |b|
    ensures Dist(a, b, i, j) == Dist(b, a, j, i)
    decreases i + j
  {
    if i > 0 && j > 0 {
      DistSymmetric(a, b, i - 1, j - 1);
      if a[i - 1] == b[j - 1] {
        DistStep(a, b, i, j);
        DistStep(b, a, j, i);
      } else {
        DistSymmetric(a, b, i - 1, j);
        DistSymmetric(a, b, i, j - 1);
        DistSymmetricStep(a, b, i, j);
      }
    }
  }

  lemma LevSymmetric(a: string, b: string)
    ensures Lev(a, b) == Lev(b, a)
  {
    DistSymmetric(a, b, |a|, |b|);
  }

  // ---------------------------------------------------------------------------
  // Closeness

  /**
   * `Math.max(1, Math.floor(n * 0.25))`: a quarter of the length rounded
   * down, but never below one.
   */
  function Threshold(n: nat): (r: nat)
    ensures r >= 1
    ensures n >= 4 ==> 4 * r <= n < 4 * r + 4
    ensures n < 8 ==> r == 1
  {
    if n / 4 >= 1 then n / 4 else 1
  }

  /** The whitespace-separated words of the lowercased, trimmed transcript. */
  function SpokenWords(transcript: string): (r: seq<string>)
    ensures |r| >= 1
  {
    SplitWs(Trim(Lower(transcript)))
  }

  /** `words.some(w => levenshtein(t, w) <= threshold)`. */
  predicate SomeWordWithin(t: string, words: seq<string>) {
    |words| > 0 && (Lev(t, words[0]) <= Threshold(|t|) || SomeWordWithin(t, words[1..]))
  }

  /** A word within the threshold is some word of the list. */
  lemma {:induction false} SomeWordWithinIff(t: string, words: seq<string>)
    ensures SomeWordWithin(t, words) <==> exists k :: 0 <= k < |words| && Lev(t, words[k]) <= Threshold(|t|)
    decreases |words|
  {
    if |words| > 0 {
      SomeWordWithinIff(t, words[1..]);
      if SomeWordWithin(t, words[1..]) {
        var k :| 0 <= k < |words[1..]| && Lev(t, words[1..][k]) <= Threshold(|t|);
        assert Lev(t, words[k + 1]) <= Threshold(|t|);
      }
      if exists k :: 0 <= k < |words| && Lev(t, words[k]) <= Threshold(|t|) {
        var k :| 0 <= k < |words| && Lev(t, words[k]) <= Threshold(|t|);
        if k > 0 {
          assert words[1..][k - 1] == words[k];
        }
      }
    }
  }

  /**
   * `isCloseEnough`: some spoken word is within the threshold of the
   * lowercased, trimmed target.
   */
  predicate IsCloseEnough(target: string, transcript: string) {
    SomeWordWithin(Trim(Lower(target)), SpokenWords(transcript))
  }

  /** The test ignores case on both sides. */
  lemma CloseEnoughIgnoresCase(target: string, transcript: string)
    ensures IsCloseEnough(Lower(target), Lower(transcript)) == IsCloseEnough(target, transcript)
  {
    LowerIdempotent(target);
    LowerIdempotent(transcript);
  }

  /** Lowercasing keeps a character a non-space. */
  lemma LowerKeepsNoSpace(s: string)
    requires forall i :: 0 <= i < |s| ==> !IsSpace(s[i])
    ensures forall i :: 0 <= i < |Lower(s)| ==> !IsSpace(Lower(s)[i])
  {
  }

  /** A target without whitespace is close enough to itself said alone. */
  lemma CloseEnoughSelf(target: string)
    requires forall i :: 0 <= i < |target| ==> !IsSpace(target[i])
    ensures IsCloseEnough(target, target)
  {
    var t := Lower(target);
    LowerKeepsNoSpace(target);
    TrimNoSpace(t);
    SplitWsNoSpace(t);
    assert SpokenWords(target) == [t];
    LevSelf(t);
  }

  /**
   * A match needs a spoken word whose length is within the threshold of the
   * target's, since each edit changes the length by at most one.
   */
  lemma CloseEnoughNeedsSimilarLength(target: string, transcript: string)
    requires IsCloseEnough(target, transcript)
    ensures var t := Trim(Lower(target));
      exists k :: 0 <= k < |SpokenWords(transcript)|
        && |SpokenWords(transcript)[k]| <= |t| + Threshold(|t|)
        && |t| <= |SpokenWords(transcript)[k]| + Threshold(|t|)
  {
    var t := Trim(Lower(target));
    var spoken := SpokenWords(transcript);
    SomeWordWithinIff(t, spoken);
    var k :| 0 <= k < |spoken| && Lev(t, spoken[k]) <= Threshold(|t|);
    LevBounds(t, spoken[k]);
  }

  // ---------------------------------------------------------------------------
  // The recognition state machine

  /** `RecognitionState`. */
  datatype Status = Idle | Listening | Success | Retry

  /** One entry of a result event's list: its alternatives, best first, and whether it is final. */
  datatype SpeechResult = SpeechResult(alternatives: seq<string>, isFinal: bool)

  /**
   * The hook's observable state: the status, the transcript, the matched
   * flag, and whether a recognizer is held (`recognitionRef` non-null).
   */
  datatype Snapshot = Snapshot(status: Status, transcript: string, matched: bool, active: bool)

  /** `alternatives[0] ?? ""`. */
  function Best(alternatives: seq<string>): string {
    if |alternatives| > 0 then alternatives[0] else ""
  }

  /** `isCloseEnough(targetWord, ·)`: the test the hook applies to each alternative. */
  function Matcher(targetWord: string): string -> bool {
    r => IsCloseEnough(targetWord, r)
  }

  /** `alternatives.some(close)`. */
  predicate AnyClose(close: string -> bool, alternatives: seq<string>) {
    |alternatives| > 0 && (close(alternatives[0]) || AnyClose(close, alternatives[1..]))
  }

  /**
   * The scan of the results from index `i` on: each shows its best
   * alternative; the first that matches ends the scan in success and
   * releases the recognizer; a final one that does not sets retry.
   */
  function ScanFrom(s: Snapshot, close: string -> bool, results: seq<SpeechResult>, i: nat): Snapshot
    decreases |results| - i
  {
    if i >= |results| then s
    else if AnyClose(close, results[i].alternatives) then Snapshot(Success, Best(results[i].alternatives), true, false)
    else ScanFrom(Unmatched(s, results[i]), close, results, i + 1)
  }

  /** A result that does not match: its best alternative is shown, and a final one sets retry. */
  function Unmatched(s: Snapshot, r: SpeechResult): Snapshot {
    var shown := s.(transcript := Best(r.alternatives));
    if r.isFinal then shown.(status := Retry) else shown
  }

  /** The scan past a result that does not match goes on from the next one. */
  lemma ScanPastMiss(s: Snapshot, close: string -> bool, results: seq<SpeechResult>, i: nat)
    requires i < |results| && !AnyClose(close, results[i].alternatives)
    ensures ScanFrom(s, close, results, i) == ScanFrom(Unmatched(s, results[i]), close, results, i + 1)
  {
  }

  /** The scan at a result that matches ends there in success. */
  lemma ScanAtHit(s: Snapshot, close: string -> bool, results: seq<SpeechResult>, i: nat)
    requires i < |results| && AnyClose(close, results[i].alternatives)
    ensures ScanFrom(s, close, results, i) == Snapshot(Success, Best(results[i].alternatives), true, false)
  {
  }

  /** `onresult`: ignored once matched, else the scan from `resultIndex`. */
  function AfterResult(s: Snapshot, close: string -> bool, results: seq<SpeechResult>, resultIndex: nat): Snapshot {
    if s.matched then s else ScanFrom(s, close, results, resultIndex)
  }

  /**
   * When the first matching result from `i` on is at `k`, the scan ends in
   * success with that result's best alternative shown, and the recognizer
   * released.
   */
  lemma {:induction false} ScanStopsAtMatch(s: Snapshot, close: string -> bool, results: seq<SpeechResult>, i: nat, k: nat)
    requires i <= k < |results| && AnyClose(close, results[k].alternatives)
    requires forall j :: i <= j < k ==> !AnyClose(close, results[j].alternatives)
    ensures ScanFrom(s, close, results, i) == Snapshot(Success, Best(results[k].alternatives), true, false)
    decreases k - i
  {
    if i < k {
      ScanStopsAtMatch(Unmatched(s, results[i]), close, results, i + 1, k);
    }
  }

  predicate SomeFinal(results: seq<SpeechResult>, i: nat) {
    exists j :: i <= j < |results| && results[j].isFinal
  }

  /**
   * When no result from `i` on matches: the flag and the recognizer are
   * kept, the status becomes retry exactly when one of them is final, and
   * the transcript is the last result's best alternative.
   */
  lemma {:induction false} ScanWithoutMatch(s: Snapshot, close: string -> bool, results: seq<SpeechResult>, i: nat)
    requires forall j :: i <= j < |results| ==> !AnyClose(close, results[j].alternatives)
    ensures var e := ScanFrom(s, close, results, i);
      && e.matched == s.matched && e.active == s.active
      && e.status == (if SomeFinal(results, i) then Retry else s.status)
      && e.transcript == (if i < |results| then Best(results[|results| - 1].alternatives) else s.transcript)
    decreases |results| - i
  {
    if i < |results| {
      var r := results[i];
      ScanWithoutMatch(Unmatched(s, r), close, results, i + 1);
      if r.isFinal {
        assert SomeFinal(results, i);
      } else if SomeFinal(results, i) {
        var j :| i <= j < |results| && results[j].isFinal;
        assert SomeFinal(results, i + 1);
      }
      if i + 1 < |results| {
      } else {
        assert !SomeFinal(results, i + 1);
      }
    }
  }

  /** After a match every later result event is ignored. */
  lemma MatchIgnoresLaterResults(s: Snapshot, close: string -> bool, r1: seq<SpeechResult>, i1: nat, r2: seq<SpeechResult>, i2: nat)
    requires AfterResult(s, close, r1, i1).matched
    ensures AfterResult(AfterResult(s, close, r1, i1), close, r2, i2) == AfterResult(s, close, r1, i1)
  {
  }

  /** `alternatives.some((r) => isCloseEnough(targetWord, r))`, stopping at the first match. */
  method SomeAlternativeMatches(targetWord: string, alternatives: seq<string>) returns (b: bool)
    ensures b == AnyClose(Matcher(targetWord), alternatives)
  {
    var k := 0;
    while k < |alternatives|
      invariant k <= |alternatives|
      invariant AnyClose(Matcher(targetWord), alternatives) == AnyClose(Matcher(targetWord), alternatives[k..])
    {
      assert alternatives[k..][1..] == alternatives[k + 1..];
      if IsCloseEnough(targetWord, alternatives[k]) {
        return true;
      }
      k := k + 1;
    }
    return false;
  }

  /** The transcripts of a result's alternatives, collected one by one. */
  method Transcripts(result: SpeechResult) returns (alternatives: seq<string>)
    ensures alternatives == result.alternatives
  {
    alternatives := [];
    for j := 0 to |result.alternatives|
      invariant alternatives == result.alternatives[..j]
    {
      alternatives := alternatives + [result.alternatives[j]];
    }
  }

  /** The hook `useRecognition(targetWord)` with the browser's recognizer as incoming events. */
  class Recognizer {
    var status: Status
    var transcript: string
    var matched: bool
    var active: bool
    var target: string
    const supported: bool

    function Snap(): Snapshot
      reads this
    {
      Snapshot(status, transcript, matched, active)
    }

    /** A matched session never holds a recognizer. */
    predicate Valid()
      reads this
    {
      matched ==> !active
    }

    /** The hook's first render: idle, nothing heard, no recognizer. */
    constructor(targetWord: string, isSupported: bool)
      ensures Valid()
      ensures Snap() == Snapshot(Idle, "", false, false)
      ensures target == targetWord && supported == isSupported
    {
      status, transcript, matched, active := Idle, "", false, false;
      target := targetWord;
      supported := isSupported;
    }

    /** `stop`: releases the recognizer; the status is left as it is. */
    method Stop()
      modifies this
      ensures Valid()
      ensures Snap() == old(Snap()).(active := false)
      ensures target == old(target)
    {
      active := false;
    }

    /** `start`: when supported, a fresh session that is listening with an empty transcript. */
    method Start()
      modifies this
      ensures Valid()
      ensures supported ==> Snap() == Snapshot(Listening, "", false, true)
      ensures !supported ==> Snap() == old(Snap())
      ensures target == old(target)
      requires Valid()
    {
      if !supported {
        return;
      }
      Stop();
      matched := false;
      status := Listening;
      transcript := "";
      active := true;
    }

    /** `onresult`: the scan over the results from `resultIndex`, unless already matched. */
    method OnResult(results: seq<SpeechResult>, resultIndex: nat)
      requires Valid()
      modifies this
      ensures Valid()
      ensures Snap() == AfterResult(old(Snap()), Matcher(target), results, resultIndex)
      ensures target == old(target)
    {
      if matched {
        return;
      }
      ghost var close := Matcher(target);
      ghost var goal := ScanFrom(Snap(), close, results, resultIndex);
      var i := resultIndex;
      while i < |results|
        invariant !matched && target == old(target)
        invariant ScanFrom(Snap(), close, results, i) == goal
        decreases |results| - i
      {
        ghost var before := Snap();
        var result := results[i];
        var alternatives := Transcripts(result);
        transcript := Best(alternatives);
        var matchedNow := SomeAlternativeMatches(target, alternatives);
        if matchedNow {
          ScanAtHit(before, close, results, i);
          matched := true;
          active := false;
          status := Success;
          return;
        }
        ScanPastMiss(before, close, results, i);
        ghost var after := Unmatched(before, result);
        assert ScanFrom(after, close, results, i + 1) == goal;
        if result.isFinal {
          status := Retry;
        }
        assert Snap() == after;
        i := i + 1;
      }
    }

    /** `onerror`: back to idle. */
    method OnError()
      modifies this
      ensures Valid() == old(Valid())
      ensures Snap() == old(Snap()).(status := Idle)
      ensures target == old(target)
    {
      status := Idle;
    }

    /** `onend`: the recognizer is gone; a session still listening turns to retry. */
    method OnEnd()
      modifies this
      ensures Valid()
      ensures Snap() == old(Snap()).(active := false,
        status := if old(status) == Listening then Retry else old(status))
      ensures target == old(target)
    {
      active := false;
      if status == Listening {
        status := Retry;
      }
    }

    /** `reset`: stop, then idle with the flag cleared and an empty transcript. */
    method Reset()
      modifies this
      ensures Valid()
      ensures Snap() == Snapshot(Idle, "", false, false)
      ensures target == old(target)
    {
      Stop();
      matched := false;
      status := Idle;
      transcript := "";
    }

    /** A new target word (a new card): the effect that resets the hook. */
    method SetTarget(targetWord: string)
      modifies this
      ensures Valid()
      ensures Snap() == Snapshot(Idle, "", false, false)
      ensures target == targetWord
    {
      target := targetWord;
      Reset();
    }
  }
}
