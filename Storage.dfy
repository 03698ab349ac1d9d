/** The session-progress reducers of src/lib/storage.ts. */
module Storage {
  /** `SessionProgress` of src/lib/types.ts. */
  datatype SessionProgress = SessionProgress(
    practiced: int,
    correctMeaningChecks: int,
    trickyIds: seq<string>,
    sessionTotal: int)

  /** The counters make sense: no more correct checks than cards practised. */
  predicate Consistent(p: SessionProgress) {
    0 <= p.correctMeaningChecks <= p.practiced
  }

  /** `defaultProgress`: all counters zero, no tricky cards. */
  function DefaultProgress(): (r: SessionProgress)
    ensures r.practiced == 0 && r.correctMeaningChecks == 0 && r.sessionTotal == 0
    ensures r.trickyIds == []
    ensures Consistent(r)
  {
    SessionProgress(0, 0, [], 0)
  }

  /** `markPracticed`: one more card practised, one more correct check if it was correct. */
  function MarkPracticed(p: SessionProgress, correct: bool, cardId: string): (r: SessionProgress)
    ensures r.practiced == p.practiced + 1
    ensures correct ==> r.correctMeaningChecks == p.correctMeaningChecks + 1
    ensures !correct ==> r.correctMeaningChecks == p.correctMeaningChecks
    ensures r.trickyIds == p.trickyIds && r.sessionTotal == p.sessionTotal
    ensures Consistent(p) ==> Consistent(r)
  {
    p.(practiced := p.practiced + 1,
       correctMeaningChecks := if correct then p.correctMeaningChecks + 1 else p.correctMeaningChecks)
  }

  /** The card id plays no part in `markPracticed`. */
  lemma MarkPracticedIgnoresCard(p: SessionProgress, correct: bool, a: string, b: string)
    ensures MarkPracticed(p, correct, a) == MarkPracticed(p, correct, b)
  {
  }

  /** `ids.filter(id => id !== x)`. */
  function Without(ids: seq<string>, x: string): (r: seq<string>)
    ensures |r| <= |ids|
    ensures forall y :: y in r <==> y in ids && y != x
  {
    if ids == [] then []
    else (if ids[0] == x then [] else [ids[0]]) + Without(ids[1..], x)
  }

  /** Removing an id that is not there changes nothing. */
  lemma {:induction false} WithoutAbsent(ids: seq<string>, x: string)
    requires x !in ids
    ensures Without(ids, x) == ids
  {
    if ids != [] {
      WithoutAbsent(ids[1..], x);
      assert ids == [ids[0]] + ids[1..];
    }
  }

  /** Removal distributes over appending. */
  lemma {:induction false} WithoutAppend(a: seq<string>, b: seq<string>, x: string)
    ensures Without(a + b, x) == Without(a, x) + Without(b, x)
  {
    if a == [] {
      assert a + b == b;
    } else {
      assert (a + b)[1..] == a[1..] + b;
      WithoutAppend(a[1..], b, x);
    }
  }

  /**
   * `toggleTricky`: a present id is removed everywhere it occurs, an absent
   * one is appended at the end; the counters are unchanged.
   */
  function ToggleTricky(p: SessionProgress, cardId: string): (r: SessionProgress)
    ensures r.practiced == p.practiced && r.correctMeaningChecks == p.correctMeaningChecks
    ensures r.sessionTotal == p.sessionTotal
    ensures cardId in p.trickyIds ==> cardId !in r.trickyIds && r.trickyIds == Without(p.trickyIds, cardId)
    ensures cardId !in p.trickyIds ==> r.trickyIds == p.trickyIds + [cardId]
    ensures forall id :: id in r.trickyIds <==> (id in p.trickyIds <==> id != cardId)
  {
    p.(trickyIds := if cardId in p.trickyIds then Without(p.trickyIds, cardId) else p.trickyIds + [cardId])
  }

  /** Toggling an absent id twice restores the list. */
  lemma ToggleTwiceRestores(p: SessionProgress, cardId: string)
    requires cardId !in p.trickyIds
    ensures ToggleTricky(ToggleTricky(p, cardId), cardId) == p
  {
    WithoutAppend(p.trickyIds, [cardId], cardId);
    WithoutAbsent(p.trickyIds, cardId);
    assert Without([cardId], cardId) == [];
  }

  /** Toggling a present id twice leaves one copy of it, at the end. */
  lemma ToggleTwiceMovesToEnd(p: SessionProgress, cardId: string)
    requires cardId in p.trickyIds
    ensures ToggleTricky(ToggleTricky(p, cardId), cardId).trickyIds == Without(p.trickyIds, cardId) + [cardId]
  {
  }
}
