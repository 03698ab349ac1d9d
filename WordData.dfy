/**
 * `getWordData` (src/lib/wordData.ts:853-855): the case-insensitive lookup in
 * the reference lexicon, and what the table invariants give its callers.
 */
module WordData {
  import opened Wrappers
  import opened Text
  import opened WordDataTable

  /** `k` is the key of some entry of `WORD_DATA`. */
  predicate IsKey(k: string) {
    exists i :: 0 <= i < |WordTable| && WordTable[i].0 == k
  }

  /** The entry stored under `key` in `es`, searching in order. */
  function FindEntry(es: seq<(string, SyllableEntry)>, key: string): (r: Option<SyllableEntry>)
    ensures r.None? <==> forall i :: 0 <= i < |es| ==> es[i].0 != key
    ensures r.Some? ==> exists i :: 0 <= i < |es| && es[i] == (key, r.value)
  {
    if es == [] then None
    else if es[0].0 == key then Some(es[0].1)
    else
      var r := FindEntry(es[1..], key);
      assert forall i :: 1 <= i < |es| ==> es[i] == es[1..][i - 1];
      r
  }

  /**
   * `getWordData(word)`: the entry keyed by the lowercased word, or null
   * (`None`) when there is none. A returned entry keeps the table invariants;
   * in particular its syllables spell the lowercased word.
   */
  function GetWordData(word: string): (r: Option<SyllableEntry>)
    ensures r.None? <==> !IsKey(Lower(word))
    ensures r.Some? ==> exists i :: 0 <= i < |WordTable| && WordTable[i] == (Lower(word), r.value)
    ensures r.Some? ==> Ok(Lower(word), r.value)
    ensures r.Some? ==> Join(r.value.syllables) == Lower(word)
  {
    TableInvariants();
    FindEntry(WordTable, Lower(word))
  }

  /** The lookup ignores case: a word and its lowercase form find the same entry. */
  lemma GetWordDataCaseInsensitive(word: string)
    ensures GetWordData(word) == GetWordData(Lower(word))
  {
    LowerIdempotent(word);
  }

  /** A key finds its own entry (the keys are stored lowercase). */
  lemma GetWordDataFindsKeys(i: nat)
    requires i < |WordTable|
    ensures GetWordData(WordTable[i].0).Some?
  {
    TableInvariants();
    LowerOfLower(WordTable[i].0);
  }

  /**
   * The morpheme concatenation holds for every entry the lookup can return,
   * except exactly for `scientist` and `famous`.
   */
  lemma MorphemeConcatenation(word: string)
    requires GetWordData(word).Some?
    ensures Join(GetWordData(word).value.morphemes) == Lower(word)
        <==> !IsMorphemeException(Lower(word))
  {
  }

  /** `scientist` is a real entry, and its morphemes (`science` + `ist`) do not spell it. */
  lemma ScientistIsAnException()
    ensures GetWordData("scientist").Some?
    ensures Join(GetWordData("scientist").value.morphemes) != "scientist"
  {
    LowerOfLower("scientist");
    assert WordTable[104].0 == "scientist";
  }

  /** `famous` is a real entry, and its morphemes (`fame` + `ous`) do not spell it. */
  lemma FamousIsAnException()
    ensures GetWordData("famous").Some?
    ensures Join(GetWordData("famous").value.morphemes) != "famous"
  {
    LowerOfLower("famous");
    assert WordTable[106].0 == "famous";
  }

  // ---------------------------------------------------------------------------
  // `WORD_DATA` is a plain object literal, so a property read also sees the
  // members every object inherits from `Object.prototype`.

  /** The inherited member names whose spelling is already lowercase; a lowercased word can reach only these. */
  const InheritedNames: set<string> := {"constructor", "__proto__"}

  /** What the property read `WORD_DATA[key]` yields on a plain object. */
  datatype PropertyRead = OwnEntry(entry: SyllableEntry) | InheritedMember(name: string) | Undefined

  /**
   * `getWordData` as written: an inherited member is not nullish, so
   * `?? null` passes it on to the caller as if it were an entry.
   */
  function GetWordDataAsWritten(word: string): (r: PropertyRead)
    ensures r.OwnEntry? <==> GetWordData(word).Some?
    ensures r.OwnEntry? ==> GetWordData(word) == Some(r.entry)
    ensures r.InheritedMember? <==> !IsKey(Lower(word)) && Lower(word) in InheritedNames
    ensures r.InheritedMember? ==> r.name == Lower(word)
  {
    var key := Lower(word);
    match FindEntry(WordTable, key)
    case Some(e) => OwnEntry(e)
    case None => if key in InheritedNames then InheritedMember(key) else Undefined
  }

  /** No entry of `es` has the key `k`. */
  predicate Lacks(es: seq<(string, SyllableEntry)>, k: string) {
    forall i :: 0 <= i < |es| ==> es[i].0 != k
  }

  lemma LacksAppend(a: seq<(string, SyllableEntry)>, b: seq<(string, SyllableEntry)>, k: string)
    requires Lacks(a, k) && Lacks(b, k)
    ensures Lacks(a + b, k)
  {
    forall i | 0 <= i < |a + b|
      ensures (a + b)[i].0 != k
    {
      if i >= |a| {
        assert (a + b)[i] == b[i - |a|];
      }
    }
  }

  // One section at a time keeps each comparison of "constructor" with the keys small.

  lemma PortRootLacksConstructor()
    ensures Lacks(PortRoot, "constructor")
  {
  }

  lemma VisRootLacksConstructor()
    ensures Lacks(VisRoot, "constructor")
  {
  }

  lemma RuptRootLacksConstructor()
    ensures Lacks(RuptRoot, "constructor")
  {
  }

  lemma ScribRootLacksConstructor()
    ensures Lacks(ScribRoot, "constructor")
  {
  }

  lemma DictRootLacksConstructor()
    ensures Lacks(DictRoot, "constructor")
  {
  }

  lemma StructRootLacksConstructor()
    ensures Lacks(StructRoot, "constructor")
  {
  }

  lemma ActRootLacksConstructor()
    ensures Lacks(ActRoot, "constructor")
  {
  }

  lemma FormRootLacksConstructor()
    ensures Lacks(FormRoot, "constructor")
  {
  }

  lemma MitRootLacksConstructor()
    ensures Lacks(MitRoot, "constructor")
  {
  }

  lemma AudRootLacksConstructor()
    ensures Lacks(AudRoot, "constructor")
  {
  }

  lemma SpectRootLacksConstructor()
    ensures Lacks(SpectRoot, "constructor")
  {
  }

  lemma FerRootLacksConstructor()
    ensures Lacks(FerRoot, "constructor")
  {
  }

  lemma PrefixWordsALacksConstructor()
    ensures Lacks(PrefixWordsA, "constructor")
  {
  }

  lemma PrefixWordsBLacksConstructor()
    ensures Lacks(PrefixWordsB, "constructor")
  {
  }

  lemma SuffixWordsALacksConstructor()
    ensures Lacks(SuffixWordsA, "constructor")
  {
  }

  lemma SuffixWordsBLacksConstructor()
    ensures Lacks(SuffixWordsB, "constructor")
  {
  }

  lemma SuffixWordsCLacksConstructor()
    ensures Lacks(SuffixWordsC, "constructor")
  {
  }

  lemma OtherPrefixWordsLacksConstructor()
    ensures Lacks(OtherPrefixWords, "constructor")
  {
  }

  lemma TableLacksConstructor()
    ensures !IsKey("constructor")
  {
    PortRootLacksConstructor();
    VisRootLacksConstructor();
    RuptRootLacksConstructor();
    ScribRootLacksConstructor();
    DictRootLacksConstructor();
    StructRootLacksConstructor();
    ActRootLacksConstructor();
    FormRootLacksConstructor();
    MitRootLacksConstructor();
    AudRootLacksConstructor();
    SpectRootLacksConstructor();
    FerRootLacksConstructor();
    PrefixWordsALacksConstructor();
    PrefixWordsBLacksConstructor();
    SuffixWordsALacksConstructor();
    SuffixWordsBLacksConstructor();
    SuffixWordsCLacksConstructor();
    OtherPrefixWordsLacksConstructor();
    LacksAppend(PortRoot, VisRoot, "constructor");
    LacksAppend(PortRoot + VisRoot, RuptRoot, "constructor");
    LacksAppend(PortRoot + VisRoot + RuptRoot, ScribRoot, "constructor");
    LacksAppend(PortRoot + VisRoot + RuptRoot + ScribRoot, DictRoot, "constructor");
    LacksAppend(PortRoot + VisRoot + RuptRoot + ScribRoot + DictRoot, StructRoot, "constructor");
    LacksAppend(PortRoot + VisRoot + RuptRoot + ScribRoot + DictRoot + StructRoot, ActRoot, "constructor");
    LacksAppend(PortRoot + VisRoot + RuptRoot + ScribRoot + DictRoot + StructRoot + ActRoot, FormRoot, "constructor");
    LacksAppend(PortRoot + VisRoot + RuptRoot + ScribRoot + DictRoot + StructRoot + ActRoot + FormRoot, MitRoot, "constructor");
    LacksAppend(PortRoot + VisRoot + RuptRoot + ScribRoot + DictRoot + StructRoot + ActRoot + FormRoot + MitRoot, AudRoot, "constructor");
    LacksAppend(PortRoot + VisRoot + RuptRoot + ScribRoot + DictRoot + StructRoot + ActRoot + FormRoot + MitRoot + AudRoot, SpectRoot, "constructor");
    LacksAppend(PortRoot + VisRoot + RuptRoot + ScribRoot + DictRoot + StructRoot + ActRoot + FormRoot + MitRoot + AudRoot + SpectRoot, FerRoot, "constructor");
    LacksAppend(PortRoot + VisRoot + RuptRoot + ScribRoot + DictRoot + StructRoot + ActRoot + FormRoot + MitRoot + AudRoot + SpectRoot + FerRoot, PrefixWordsA, "constructor");
    LacksAppend(PortRoot + VisRoot + RuptRoot + ScribRoot + DictRoot + StructRoot + ActRoot + FormRoot + MitRoot + AudRoot + SpectRoot + FerRoot + PrefixWordsA, PrefixWordsB, "constructor");
    LacksAppend(PortRoot + VisRoot + RuptRoot + ScribRoot + DictRoot + StructRoot + ActRoot + FormRoot + MitRoot + AudRoot + SpectRoot + FerRoot + PrefixWordsA + PrefixWordsB, SuffixWordsA, "constructor");
    LacksAppend(PortRoot + VisRoot + RuptRoot + ScribRoot + DictRoot + StructRoot + ActRoot + FormRoot + MitRoot + AudRoot + SpectRoot + FerRoot + PrefixWordsA + PrefixWordsB + SuffixWordsA, SuffixWordsB, "constructor");
    LacksAppend(PortRoot + VisRoot + RuptRoot + ScribRoot + DictRoot + StructRoot + ActRoot + FormRoot + MitRoot + AudRoot + SpectRoot + FerRoot + PrefixWordsA + PrefixWordsB + SuffixWordsA + SuffixWordsB, SuffixWordsC, "constructor");
    LacksAppend(PortRoot + VisRoot + RuptRoot + ScribRoot + DictRoot + StructRoot + ActRoot + FormRoot + MitRoot + AudRoot + SpectRoot + FerRoot + PrefixWordsA + PrefixWordsB + SuffixWordsA + SuffixWordsB + SuffixWordsC, OtherPrefixWords, "constructor");
    assert WordTable == PortRoot + VisRoot + RuptRoot + ScribRoot + DictRoot + StructRoot + ActRoot + FormRoot + MitRoot + AudRoot + SpectRoot + FerRoot + PrefixWordsA + PrefixWordsB + SuffixWordsA + SuffixWordsB + SuffixWordsC + OtherPrefixWords;
  }

  /** The lookup finds no entry for `constructor`: it is not a key. */
  lemma ConstructorIsNotAKey()
    ensures GetWordData("Constructor") == None
  {
    assert Lower("Constructor") == "constructor";
    TableLacksConstructor();
  }

  /** `constructor` is not a key, yet the read returns `Object` (a function), not null. */
  lemma ConstructorIsReadAsAnEntry()
    ensures GetWordDataAsWritten("Constructor") == InheritedMember("constructor")
  {
    assert Lower("Constructor") == "constructor";
    TableLacksConstructor();
  }
}
