/**
 * Card selection and quiz building of src/lib/filterCards.ts: the cascading
 * grade and focus filter, the de-duplicating distractor collector, and the
 * Fisher–Yates shuffle.
 */
module FilterCards {
  import opened Cards

  /** `MIN_CARDS`. */
  const MinCards: nat := 10

  /** The grade argument: a band, or "All". */
  datatype GradeChoice = AllGrades | OnlyGrade(band: GradeBand)

  // ---------------------------------------------------------------------------
  // Filtering and subsequences

  /** `xs.filter(p)`: the elements that satisfy `p`, in their order. */
  function Filter<T(!new)>(xs: seq<T>, p: T -> bool): (r: seq<T>)
    ensures |r| <= |xs|
    ensures forall x :: x in r <==> x in xs && p(x)
  {
    if xs == [] then [] else (if p(xs[0]) then [xs[0]] else []) + Filter(xs[1..], p)
  }

  /** `a` is `b` with some elements left out, the rest in their order. */
  predicate IsSubseq<T(==)>(a: seq<T>, b: seq<T>)
    decreases |b|
  {
    a == [] || (b != [] && ((a[0] == b[0] && IsSubseq(a[1..], b[1..])) || IsSubseq(a, b[1..])))
  }

  lemma {:induction false} SubseqRefl<T>(xs: seq<T>)
    ensures IsSubseq(xs, xs)
    decreases |xs|
  {
    if xs != [] {
      SubseqRefl(xs[1..]);
    }
  }

  lemma {:induction false} SubseqTrans<T>(a: seq<T>, b: seq<T>, c: seq<T>)
    requires IsSubseq(a, b) && IsSubseq(b, c)
    ensures IsSubseq(a, c)
    decreases |c|
  {
    if a != [] {
      assert b != [] && c != [];
      if b[0] == c[0] && IsSubseq(b[1..], c[1..]) {
        if a[0] == b[0] && IsSubseq(a[1..], b[1..]) {
          SubseqTrans(a[1..], b[1..], c[1..]);
        } else {
          SubseqTrans(a, b[1..], c[1..]);
        }
      } else {
        SubseqTrans(a, b, c[1..]);
      }
    }
  }

  /** A filter keeps its elements in order. */
  lemma {:induction false} FilterIsSubseq<T(!new)>(xs: seq<T>, p: T -> bool)
    ensures IsSubseq(Filter(xs, p), xs)
    decreases |xs|
  {
    if xs != [] {
      FilterIsSubseq(xs[1..], p);
      var rest := Filter(xs[1..], p);
      if p(xs[0]) {
        assert Filter(xs, p)[0] == xs[0] && Filter(xs, p)[1..] == rest;
      } else {
        assert Filter(xs, p) == rest;
      }
    }
  }

  // ---------------------------------------------------------------------------
  // The cascade

  predicate InGrade(c: WordCard, g: GradeChoice) {
    g.AllGrades? || c.gradeBand == g.band
  }

  /** The card has the fragment the focus asks for (a non-null field); every card fits `Mixed`. */
  predicate HasFocus(c: WordCard, focus: Focus) {
    match focus
    case Roots => c.root.Some?
    case Prefixes => c.prefix.Some?
    case Suffixes => c.suffix.Some?
    case Mixed => true
  }

  /** Step 1 of `filterCards`: "All" keeps the list itself, a band keeps its cards. */
  function ByGrade(cards: seq<WordCard>, g: GradeChoice): (r: seq<WordCard>)
    ensures g.AllGrades? ==> r == cards
    ensures forall c :: c in r <==> c in cards && InGrade(c, g)
  {
    if g.AllGrades? then cards else Filter(cards, (c: WordCard) => c.gradeBand == g.band)
  }

  /** `applyFocusFilter`: the cards with the focused fragment; `Mixed` keeps the list itself. */
  function ApplyFocusFilter(cards: seq<WordCard>, focus: Focus): (r: seq<WordCard>)
    ensures focus == Mixed ==> r == cards
    ensures forall c :: c in r <==> c in cards && HasFocus(c, focus)
  {
    match focus
    case Roots => Filter(cards, (c: WordCard) => c.root.Some?)
    case Prefixes => Filter(cards, (c: WordCard) => c.prefix.Some?)
    case Suffixes => Filter(cards, (c: WordCard) => c.suffix.Some?)
    case Mixed => cards
  }

  lemma GradeIsSubseq(cards: seq<WordCard>, g: GradeChoice)
    ensures IsSubseq(ByGrade(cards, g), cards)
  {
    if g.AllGrades? {
      SubseqRefl(cards);
    } else {
      FilterIsSubseq(cards, (c: WordCard) => c.gradeBand == g.band);
    }
  }

  lemma FocusIsSubseq(cards: seq<WordCard>, focus: Focus)
    ensures IsSubseq(ApplyFocusFilter(cards, focus), cards)
  {
    match focus
    case Roots => FilterIsSubseq(cards, (c: WordCard) => c.root.Some?);
    case Prefixes => FilterIsSubseq(cards, (c: WordCard) => c.prefix.Some?);
    case Suffixes => FilterIsSubseq(cards, (c: WordCard) => c.suffix.Some?);
    case Mixed => SubseqRefl(cards);
  }

  /** `filterCards`: the grade-and-focus selection, else the focus selection, else every card. */
  function FilterCards(allCards: seq<WordCard>, g: GradeChoice, focus: Focus): (r: seq<WordCard>)
    ensures |r| <= |allCards|
    ensures forall c :: c in r ==> c in allCards
  {
    var byFocus := ApplyFocusFilter(ByGrade(allCards, g), focus);
    if |byFocus| >= MinCards then byFocus
    else
      var focusFallback := ApplyFocusFilter(allCards, focus);
      if |focusFallback| >= MinCards then focusFallback else allCards
  }

  /**
   * The cascade: the cards of the grade with the focus when there are at
   * least ten of them; else the cards with the focus from every grade when
   * there are at least ten; else all cards.
   */
  lemma FilterCardsCascade(allCards: seq<WordCard>, g: GradeChoice, focus: Focus)
    ensures var r := FilterCards(allCards, g, focus);
      var selected := ApplyFocusFilter(ByGrade(allCards, g), focus);
      var focused := ApplyFocusFilter(allCards, focus);
      && (|selected| >= MinCards ==> forall c :: c in r <==> c in allCards && InGrade(c, g) && HasFocus(c, focus))
      && (|selected| < MinCards && |focused| >= MinCards ==> forall c :: c in r <==> c in allCards && HasFocus(c, focus))
      && (|selected| < MinCards && |focused| < MinCards ==> r == allCards)
  {
  }

  /** The result keeps the order of `allCards`, and is never a short selection. */
  lemma FilterCardsSubseq(allCards: seq<WordCard>, g: GradeChoice, focus: Focus)
    ensures IsSubseq(FilterCards(allCards, g, focus), allCards)
    ensures |allCards| >= MinCards ==> |FilterCards(allCards, g, focus)| >= MinCards
    ensures |FilterCards(allCards, g, focus)| < MinCards ==> FilterCards(allCards, g, focus) == allCards
  {
    var byGrade := ByGrade(allCards, g);
    GradeIsSubseq(allCards, g);
    FocusIsSubseq(byGrade, focus);
    SubseqTrans(ApplyFocusFilter(byGrade, focus), byGrade, allCards);
    FocusIsSubseq(allCards, focus);
    SubseqRefl(allCards);
  }

  // ---------------------------------------------------------------------------
  // The distractor pool

  function Elems(xs: seq<string>): set<string> {
    set x | x in xs
  }

  predicate Distinct(xs: seq<string>) {
    forall i, j :: 0 <= i < j < |xs| ==> xs[i] != xs[j]
  }

  /** The own-distractor loop: each meaning not seen yet, in order, marking it seen. */
  function Dedup(ds: seq<string>, seen: set<string>): seq<string>
    decreases |ds|
  {
    if ds == [] then []
    else if ds[0] in seen then Dedup(ds[1..], seen)
    else [ds[0]] + Dedup(ds[1..], seen + {ds[0]})
  }

  /** The fill loop: like `Dedup`, appending to `pool`, and stopping once the pool has three. */
  function Fill(pool: seq<string>, seen: set<string>, ds: seq<string>): seq<string>
    decreases |ds|
  {
    if |pool| >= 3 || ds == [] then pool
    else if ds[0] in seen then Fill(pool, seen, ds[1..])
    else Fill(pool + [ds[0]], seen + {ds[0]}, ds[1..])
  }

  /** The distractors of the other cards (a different id), card after card. */
  function OthersDistractors(cards: seq<WordCard>, id: string): seq<string>
    decreases |cards|
  {
    if cards == [] then []
    else (if cards[0].id == id then [] else cards[0].distractorMeanings) + OthersDistractors(cards[1..], id)
  }

  /** The card's own distractors, de-duplicated and without the correct meaning. */
  function OwnPool(card: WordCard): seq<string> {
    Dedup(card.distractorMeanings, {card.studentFriendlyMeaning})
  }

  /** The whole pool: own distractors, then other cards' while fewer than three. */
  function Pool(card: WordCard, allCards: seq<WordCard>): seq<string> {
    var own := OwnPool(card);
    Fill(own, {card.studentFriendlyMeaning} + Elems(own), OthersDistractors(allCards, card.id))
  }

  /** `pool.slice(0, 3)`. */
  function Distractors(card: WordCard, allCards: seq<WordCard>): (r: seq<string>)
    ensures |r| <= 3
  {
    var p := Pool(card, allCards);
    if |p| <= 3 then p else p[..3]
  }

  /** The options before the shuffle: the correct meaning, then the distractors. */
  function Unshuffled(card: WordCard, allCards: seq<WordCard>): seq<QuizOption> {
    var ds := Distractors(card, allCards);
    [QuizOption(card.studentFriendlyMeaning, true)] + seq(|ds|, k requires 0 <= k < |ds| => QuizOption(ds[k], false))
  }

  /** What `Dedup` takes is distinct, new to `seen`, and drawn from `ds`. */
  lemma {:induction false} DedupFacts(ds: seq<string>, seen: set<string>)
    ensures Distinct(Dedup(ds, seen))
    ensures forall x :: x in Dedup(ds, seen) ==> x in ds && x !in seen
    decreases |ds|
  {
    if ds != [] {
      DedupFacts(ds[1..], seen + {ds[0]});
      DedupFacts(ds[1..], seen);
    }
  }

  /**
   * What `Fill` adds is distinct, new to `seen`, and drawn from `ds`; the
   * pool it starts from is kept as a prefix.
   */
  lemma {:induction false} FillFacts(pool: seq<string>, seen: set<string>, ds: seq<string>)
    requires Distinct(pool) && Elems(pool) <= seen
    ensures Distinct(Fill(pool, seen, ds))
    ensures |pool| <= |Fill(pool, seen, ds)| && Fill(pool, seen, ds)[..|pool|] == pool
    ensures forall x :: x in Fill(pool, seen, ds) ==> x in pool || (x in ds && x !in seen)
    decreases |ds|
  {
    if |pool| < 3 && ds != [] {
      if ds[0] in seen {
        FillFacts(pool, seen, ds[1..]);
      } else {
        var p := pool + [ds[0]];
        assert Elems(p) == Elems(pool) + {ds[0]};
        FillFacts(p, seen + {ds[0]}, ds[1..]);
        assert Fill(p, seen + {ds[0]}, ds[1..])[..|pool|] == p[..|pool|];
      }
    }
  }

  /** `Dedup` misses nothing: every meaning of `ds` is either already seen or taken. */
  lemma {:induction false} DedupCovers(ds: seq<string>, seen: set<string>)
    ensures forall x :: x in ds ==> x in seen || x in Dedup(ds, seen)
    decreases |ds|
  {
    if ds != [] {
      if ds[0] in seen {
        DedupCovers(ds[1..], seen);
      } else {
        DedupCovers(ds[1..], seen + {ds[0]});
      }
    }
  }

  /** `Fill` only appends: what is in the pool stays in it. */
  lemma {:induction false} FillKeeps(pool: seq<string>, seen: set<string>, ds: seq<string>)
    ensures forall x :: x in pool ==> x in Fill(pool, seen, ds)
    decreases |ds|
  {
    if |pool| < 3 && ds != [] {
      if ds[0] in seen {
        FillKeeps(pool, seen, ds[1..]);
      } else {
        FillKeeps(pool + [ds[0]], seen + {ds[0]}, ds[1..]);
      }
    }
  }

  /**
   * `Fill` stops short of three only after it has used up its input: then
   * every meaning of `ds` is either already seen or in the pool.
   */
  lemma {:induction false} FillMax(pool: seq<string>, seen: set<string>, ds: seq<string>)
    ensures |Fill(pool, seen, ds)| >= 3 || forall x :: x in ds ==> x in seen || x in Fill(pool, seen, ds)
    decreases |ds|
  {
    if |pool| < 3 && ds != [] {
      if ds[0] in seen {
        FillMax(pool, seen, ds[1..]);
      } else {
        var p := pool + [ds[0]];
        FillMax(p, seen + {ds[0]}, ds[1..]);
        FillKeeps(p, seen + {ds[0]}, ds[1..]);
        assert ds[0] in p;
      }
    }
  }

  /** Every meaning in the others' list comes from a card with a different id. */
  lemma {:induction false} OthersFromOtherCards(cards: seq<WordCard>, id: string, x: string)
    requires x in OthersDistractors(cards, id)
    ensures exists c :: c in cards && c.id != id && x in c.distractorMeanings
    decreases |cards|
  {
    if cards[0].id == id || x !in cards[0].distractorMeanings {
      OthersFromOtherCards(cards[1..], id, x);
      var c :| c in cards[1..] && c.id != id && x in c.distractorMeanings;
      assert c in cards;
    }
  }

  /**
   * The pool never holds the correct meaning or a repeat; it starts with
   * the card's own distractors in order; other cards are used only when
   * fewer than three own ones were found, and never a card with the same id.
   */
  lemma PoolFacts(card: WordCard, allCards: seq<WordCard>)
    ensures var p := Pool(card, allCards);
      && Distinct(p)
      && card.studentFriendlyMeaning !in p
      && |OwnPool(card)| <= |p| && p[..|OwnPool(card)|] == OwnPool(card)
      && (|OwnPool(card)| >= 3 ==> p == OwnPool(card))
      && (forall x :: x in card.distractorMeanings && x != card.studentFriendlyMeaning ==> x in p)
      && (|p| >= 3 || forall x :: x in OthersDistractors(allCards, card.id) ==> x in p || x == card.studentFriendlyMeaning)
      && (forall x :: x in p ==>
            (x in card.distractorMeanings || exists c :: c in allCards && c.id != card.id && x in c.distractorMeanings))
  {
    var own := OwnPool(card);
    var seen := {card.studentFriendlyMeaning} + Elems(own);
    var others := OthersDistractors(allCards, card.id);
    DedupFacts(card.distractorMeanings, {card.studentFriendlyMeaning});
    FillFacts(own, seen, others);
    DedupCovers(card.distractorMeanings, {card.studentFriendlyMeaning});
    FillMax(own, seen, others);
    var p := Pool(card, allCards);
    assert forall x :: x in own ==> x in p;
    forall x | x in p
      ensures x in card.distractorMeanings
        || exists c :: c in allCards && c.id != card.id && x in c.distractorMeanings
    {
      if x !in own {
        OthersFromOtherCards(allCards, card.id, x);
      }
    }
  }

  predicate DistinctTexts(os: seq<QuizOption>) {
    forall i, j :: 0 <= i < j < |os| ==> os[i].text != os[j].text
  }

  /**
   * The options before the shuffle: at most four, one correct option with
   * the card's meaning and nothing else correct, and no two with one text.
   */
  lemma UnshuffledFacts(card: WordCard, allCards: seq<WordCard>)
    ensures var u := Unshuffled(card, allCards);
      && |u| == 1 + (if |Pool(card, allCards)| <= 3 then |Pool(card, allCards)| else 3)
      && multiset(u)[QuizOption(card.studentFriendlyMeaning, true)] == 1
      && (forall o :: o in u && o.isCorrect ==> o == QuizOption(card.studentFriendlyMeaning, true))
      && (forall o :: o in u && !o.isCorrect ==> o.text != card.studentFriendlyMeaning)
      && DistinctTexts(u)
  {
    var correct := QuizOption(card.studentFriendlyMeaning, true);
    var ds := Distractors(card, allCards);
    var rest := seq(|ds|, k requires 0 <= k < |ds| => QuizOption(ds[k], false));
    var u := Unshuffled(card, allCards);
    PoolFacts(card, allCards);
    var p := Pool(card, allCards);
    assert forall k :: 0 <= k < |ds| ==> ds[k] == p[k];
    assert correct !in rest;
    assert multiset(u) == multiset{correct} + multiset(rest);
    forall i, j | 0 <= i < j < |u|
      ensures u[i].text != u[j].text
    {
      if i > 0 {
        assert u[i].text == p[i - 1] && u[j].text == p[j - 1];
      } else {
        assert u[j].text == p[j - 1];
      }
    }
  }

  /** A meaning the card could offer as a distractor: wrong, and its own or another card's. */
  predicate Available(card: WordCard, allCards: seq<WordCard>, x: string) {
    x != card.studentFriendlyMeaning
    && (x in card.distractorMeanings || x in OthersDistractors(allCards, card.id))
  }

  lemma {:induction false} ElemsBound(xs: seq<string>)
    ensures |Elems(xs)| <= |xs|
    decreases |xs|
  {
    if xs != [] {
      ElemsBound(xs[1..]);
      assert Elems(xs) == Elems(xs[1..]) + {xs[0]};
    }
  }

  /** A list holding three different meanings has at least three entries. */
  lemma ThreeDistinctIn(xs: seq<string>, a: string, b: string, c: string)
    requires a != b && b != c && a != c
    requires a in xs && b in xs && c in xs
    ensures |xs| >= 3
  {
    assert {a, b, c} <= Elems(xs);
    ElemsBound(xs);
    assert |{a, b, c}| == 3;
  }

  /**
   * Whenever three different wrong meanings are available, the quiz shows
   * four options, so the second loop really fills the pool up to three.
   */
  lemma FourOptionsWhenAvailable(card: WordCard, allCards: seq<WordCard>, a: string, b: string, c: string)
    requires a != b && b != c && a != c
    requires Available(card, allCards, a) && Available(card, allCards, b) && Available(card, allCards, c)
    ensures |Unshuffled(card, allCards)| == 4
  {
    PoolFacts(card, allCards);
    UnshuffledFacts(card, allCards);
    var p := Pool(card, allCards);
    if |p| < 3 {
      ThreeDistinctIn(p, a, b, c);
    }
  }

  // ---------------------------------------------------------------------------
  // Permutations

  lemma {:induction false} DistinctCountsOne(ys: seq<QuizOption>)
    requires DistinctTexts(ys)
    ensures forall x :: multiset(ys)[x] <= 1
    decreases |ys|
  {
    if ys != [] {
      assert ys == [ys[0]] + ys[1..];
      DistinctCountsOne(ys[1..]);
      assert ys[0] !in ys[1..];
    }
  }

  lemma RepeatCountsTwo(xs: seq<QuizOption>, i: nat, j: nat)
    requires i < j < |xs|
    ensures xs[i] == xs[j] ==> multiset(xs)[xs[i]] >= 2
  {
    assert xs == xs[..i] + [xs[i]] + xs[i + 1..j] + [xs[j]] + xs[j + 1..];
  }

  /** A reordering keeps the texts distinct. */
  lemma PermutationKeepsDistinct(xs: seq<QuizOption>, ys: seq<QuizOption>)
    requires multiset(xs) == multiset(ys) && DistinctTexts(ys)
    ensures DistinctTexts(xs)
  {
    DistinctCountsOne(ys);
    forall i, j | 0 <= i < j < |xs|
      ensures xs[i].text != xs[j].text
    {
      RepeatCountsTwo(xs, i, j);
      assert xs[i] != xs[j];
      assert xs[i] in multiset(ys) && xs[j] in multiset(ys);
      var p :| 0 <= p < |ys| && ys[p] == xs[i];
      var q :| 0 <= q < |ys| && ys[q] == xs[j];
      if p < q {
        assert ys[p].text != ys[q].text;
      } else {
        assert ys[q].text != ys[p].text;
      }
    }
  }

  // ---------------------------------------------------------------------------
  // The methods

  /** The own-distractor loop of `buildQuizOptions`, with the `seen` set it leaves. */
  method CollectOwn(ds: seq<string>, correct: string) returns (pool: seq<string>, seen: set<string>)
    ensures pool == Dedup(ds, {correct})
    ensures seen == {correct} + Elems(pool)
  {
    pool, seen := [], {correct};
    for i := 0 to |ds|
      invariant pool + Dedup(ds[i..], seen) == Dedup(ds, {correct})
      invariant seen == {correct} + Elems(pool)
    {
      var d := ds[i];
      assert ds[i..][1..] == ds[i + 1..];
      if d !in seen {
        pool := pool + [d];
        seen := seen + {d};
      }
    }
    assert ds[|ds|..] == [];
  }

  lemma OthersStep(cards: seq<WordCard>, id: string, i: nat)
    requires i < |cards|
    ensures OthersDistractors(cards[i..], id)
      == (if cards[i].id == id then [] else cards[i].distractorMeanings) + OthersDistractors(cards[i + 1..], id)
  {
    assert cards[i..][1..] == cards[i + 1..];
  }

  /** The fill loops of `buildQuizOptions`: other cards' distractors until the pool has three. */
  method FillFromOthers(card: WordCard, allCards: seq<WordCard>, pool0: seq<string>, seen0: set<string>)
    returns (pool: seq<string>)
    requires |pool0| < 3
    ensures pool == Fill(pool0, seen0, OthersDistractors(allCards, card.id))
  {
    ghost var goal := Fill(pool0, seen0, OthersDistractors(allCards, card.id));
    var seen := seen0;
    pool := pool0;
    for i := 0 to |allCards|
      invariant |pool| < 3
      invariant Fill(pool, seen, OthersDistractors(allCards[i..], card.id)) == goal
    {
      var other := allCards[i];
      OthersStep(allCards, card.id, i);
      ghost var rest := OthersDistractors(allCards[i + 1..], card.id);
      if other.id == card.id {
        assert [] + rest == rest;
        continue;
      }
      var ds := other.distractorMeanings;
      assert ds[0..] == ds;
      for j := 0 to |ds|
        invariant |pool| < 3
        invariant Fill(pool, seen, ds[j..] + rest) == goal
      {
        var d := ds[j];
        assert (ds[j..] + rest)[1..] == ds[j + 1..] + rest;
        if d !in seen {
          pool := pool + [d];
          seen := seen + {d};
          if |pool| >= 3 {
            return;
          }
        }
      }
      assert ds[|ds|..] + rest == rest;
    }
    assert allCards[|allCards|..] == [];
  }

  /**
   * `shuffleArray`: a copy of the input, rearranged by swapping each
   * position from the back with one chosen at random at or before it. The
   * input is a value, so it is unchanged.
   */
  method ShuffleArray<T>(arr: seq<T>) returns (r: seq<T>)
    ensures |r| == |arr|
    ensures multiset(r) == multiset(arr)
  {
    if |arr| == 0 {
      return [];
    }
    var copy := new T[|arr|](k requires 0 <= k < |arr| => arr[k]);
    assert copy[..] == arr;
    var i := |arr| - 1;
    while i > 0
      invariant 0 <= i < copy.Length
      invariant multiset(copy[..]) == multiset(arr)
    {
      var j :| 0 <= j <= i;
      copy[i], copy[j] := copy[j], copy[i];
      i := i - 1;
    }
    r := copy[..];
  }

  /** `shuffleCards`. */
  method ShuffleCards(cards: seq<WordCard>) returns (r: seq<WordCard>)
    ensures |r| == |cards|
    ensures multiset(r) == multiset(cards)
  {
    r := ShuffleArray(cards);
  }

  /**
   * `buildQuizOptions`: the correct meaning and up to three distractors, in
   * random order. At most four options, exactly one of them correct (and it
   * carries the card's meaning), and no two share a text.
   */
  method BuildQuizOptions(card: WordCard, allCards: seq<WordCard>) returns (options: seq<QuizOption>)
    ensures multiset(options) == multiset(Unshuffled(card, allCards))
    ensures |options| == 1 + (if |Pool(card, allCards)| <= 3 then |Pool(card, allCards)| else 3)
    ensures multiset(options)[QuizOption(card.studentFriendlyMeaning, true)] == 1
    ensures forall o :: o in options && o.isCorrect ==> o == QuizOption(card.studentFriendlyMeaning, true)
    ensures forall o :: o in options && !o.isCorrect ==> o.text != card.studentFriendlyMeaning
    ensures DistinctTexts(options)
  {
    var correct := card.studentFriendlyMeaning;
    var pool, seen := CollectOwn(card.distractorMeanings, correct);
    if |pool| < 3 {
      pool := FillFromOthers(card, allCards, pool, seen);
    } else {
      assert Pool(card, allCards) == pool;
    }
    var distractors := if |pool| <= 3 then pool else pool[..3];
    var unshuffled := [QuizOption(correct, true)]
      + seq(|distractors|, k requires 0 <= k < |distractors| => QuizOption(distractors[k], false));
    assert unshuffled == Unshuffled(card, allCards);
    options := ShuffleArray(unshuffled);
    UnshuffledFacts(card, allCards);
    PermutationKeepsDistinct(options, unshuffled);
    assert forall o :: o in options <==> o in multiset(unshuffled);
  }
}
