/**
 * The decomposition logic of src/components/ChunkDisplay.tsx: the morpheme
 * glossary, the speech-text overrides, the fallback syllable and morpheme
 * splitters, and the lexicon-first choice the two views make.
 */
module ChunkDisplay {
  import opened Wrappers
  import opened Text
  import opened Cards
  import opened WordDataTable
  import opened WordData

  // ---------------------------------------------------------------------------
  // Dash and whitespace stripping

  /** The class `[-\s]`. */
  predicate IsDashOrSpace(c: char) {
    c == '-' || IsSpace(c)
  }

  lemma LowerKeepsDashOrSpace()
    ensures forall c :: IsDashOrSpace(LowerChar(c)) == IsDashOrSpace(c)
  {
  }

  /** `stripDashes`: drop leading and trailing dashes and whitespace, then lowercase. */
  function StripDashes(s: string): (r: string)
    ensures |r| <= |s|
  {
    Lower(TrimBy(s, IsDashOrSpace))
  }

  /**
   * What `stripDashes` keeps: the lowercased middle of `s`. Everything cut off
   * is dash or whitespace, and the result neither starts nor ends so.
   */
  lemma StripDashesKeepsMiddle(s: string)
    ensures SkipWhile(s, 0, IsDashOrSpace) + |StripDashes(s)| <= |s|
    ensures StripDashes(s) == Lower(s[SkipWhile(s, 0, IsDashOrSpace)..SkipWhile(s, 0, IsDashOrSpace) + |StripDashes(s)|])
    ensures forall k :: 0 <= k < SkipWhile(s, 0, IsDashOrSpace) ==> IsDashOrSpace(s[k])
    ensures forall k :: SkipWhile(s, 0, IsDashOrSpace) + |StripDashes(s)| <= k < |s| ==> IsDashOrSpace(s[k])
    ensures var r := StripDashes(s); r != [] ==> !IsDashOrSpace(r[0]) && !IsDashOrSpace(r[|r| - 1])
    ensures IsLower(StripDashes(s))
  {
    var m := TrimBy(s, IsDashOrSpace);
    var r := Lower(m);
    assert |r| == |m|;
    LowerIsLower(m);
    LowerKeepsDashOrSpace();
  }

  /** Stripping and lowercasing commute, so either order gives the same key. */
  lemma StripLowerCommute(s: string)
    ensures TrimBy(Lower(s), IsDashOrSpace) == StripDashes(s)
  {
    LowerKeepsDashOrSpace();
    TrimByLower(s, IsDashOrSpace);
  }

  /** Stripping an already stripped key changes nothing. */
  lemma StripDashesIdempotent(s: string)
    ensures StripDashes(StripDashes(s)) == StripDashes(s)
  {
    var r := StripDashes(s);
    StripDashesKeepsMiddle(s);
    assert SkipWhile(r, 0, IsDashOrSpace) == 0;
    assert TrimBy(r, IsDashOrSpace) == r;
    LowerOfLower(r);
  }

  /** `split(/[/\\]/)[0]`: the text before the first slash or backslash. */
  function BeforeSlash(s: string): (r: string)
    ensures r <= s
    ensures forall k :: 0 <= k < |r| ==> r[k] != '/' && r[k] != '\\'
    ensures |r| < |s| ==> s[|r|] == '/' || s[|r|] == '\\'
  {
    if s == [] || s[0] == '/' || s[0] == '\\' then [] else [s[0]] + BeforeSlash(s[1..])
  }

  /** The root key: the stripped root up to its first alternate spelling, trimmed. */
  function RootKey(root: string): string {
    Trim(BeforeSlash(StripDashes(root)))
  }

  // ---------------------------------------------------------------------------
  // Morpheme glossary

  /** `MORPHEME_MEANINGS`. */
  const MorphemeMeanings: map<string, string> := map[
    // roots
    "port" := "carry", "vis" := "see", "vid" := "see", "rupt" := "break",
    "scrib" := "write", "script" := "write", "dict" := "say / tell", "struct" := "build",
    "act" := "do", "form" := "shape", "mit" := "send", "miss" := "send",
    "aud" := "hear", "spec" := "look", "spect" := "look", "fer" := "carry",
    // prefixes
    "trans" := "across", "re" := "again", "un" := "not", "pre" := "before",
    "dis" := "not / apart", "im" := "not", "in" := "not / into", "sub" := "under",
    "inter" := "between", "ex" := "out", "con" := "together", "com" := "together",
    "de" := "down / away", "pro" := "forward",
    // suffixes
    "tion" := "act of", "sion" := "act of", "ment" := "result of", "ness" := "state of",
    "ful" := "full of", "less" := "without", "able" := "able to be", "ible" := "able to be",
    "er" := "one who", "or" := "one who", "ly" := "in a ___ way", "ist" := "person who",
    "ous" := "full of", "ion" := "act of", "ation" := "act of", "ition" := "act of",
    "ive" := "tending to", "ity" := "state of", "al" := "relating to", "ic" := "relating to",
    "ize" := "to make", "ise" := "to make"
  ]

  /** `getMorphemeMeaning`: lowercase, strip dashes and whitespace, look up. */
  function GetMorphemeMeaning(text: string): (r: Option<string>)
    ensures r.Some? <==> StripDashes(text) in MorphemeMeanings
    ensures r.Some? ==> r.value == MorphemeMeanings[StripDashes(text)]
  {
    StripLowerCommute(text);
    var key := TrimBy(Lower(text), IsDashOrSpace);
    if key in MorphemeMeanings then Some(MorphemeMeanings[key]) else None
  }

  /** The lookup ignores case and surrounding dashes: a chunk means what its stripped key means. */
  lemma MorphemeMeaningOfKey(text: string)
    ensures GetMorphemeMeaning(text) == GetMorphemeMeaning(StripDashes(text))
  {
    StripDashesIdempotent(text);
  }

  // ---------------------------------------------------------------------------
  // Speech text

  /** `SPEECH_OVERRIDES`. */
  const SpeechOverrides: map<string, string> := map[
    "tion" := "shun", "sion" := "shun", "ition" := "ish-un", "ation" := "ay-shun",
    "ble" := "bul", "cle" := "kul", "ence" := "ents", "ance" := "ants", "ough" := "oh"
  ]

  /**
   * `toSpeechText`: an override for an exact (case-insensitive) table key,
   * "yun" for a bare "ion", otherwise the chunk as given.
   */
  function ToSpeechText(chunk: string): (r: string)
    ensures r == chunk || r in SpokenForms
  {
    var key := Lower(chunk);
    if key in SpeechOverrides && SpeechOverrides[key] != "" then SpeechOverrides[key]
    else if key == "ion" then "yun"
    else chunk
  }

  /** The rendered forms: the override values and "yun". */
  const SpokenForms: set<string> := {"shun", "ish-un", "ay-shun", "bul", "kul", "ents", "ants", "oh", "yun"}

  lemma SpokenFormsAreFinal()
    ensures SpeechOverrides.Values <= SpokenForms
    ensures forall w :: w in SpokenForms ==> IsLower(w)
    ensures forall w :: w in SpokenForms ==> w !in SpeechOverrides && w != "ion"
  {
  }

  /** No override value (nor "yun") is itself a key or "ion", so rendering twice changes nothing. */
  lemma SpeechTextIdempotent(chunk: string)
    ensures ToSpeechText(ToSpeechText(chunk)) == ToSpeechText(chunk)
  {
    var key := Lower(chunk);
    var v := ToSpeechText(chunk);
    if key in SpeechOverrides || key == "ion" {
      SpokenFormsAreFinal();
      assert v in SpokenForms;
      LowerOfLower(v);
      assert Lower(v) !in SpeechOverrides && Lower(v) != "ion";
    } else {
      assert v == chunk;
    }
  }

  /**
   * A chunk whose lowercase form is an override key becomes that key's
   * override, a bare "ion" (in any case) becomes "yun", and both are rendered
   * the same whatever their case, as one of the spoken forms; any other chunk
   * is handed over untouched.
   */
  lemma SpeechTextCases(chunk: string)
    ensures Lower(chunk) in SpeechOverrides ==> ToSpeechText(chunk) == SpeechOverrides[Lower(chunk)]
    ensures Lower(chunk) == "ion" ==> ToSpeechText(chunk) == "yun"
    ensures Lower(chunk) in SpeechOverrides || Lower(chunk) == "ion"
        ==> ToSpeechText(chunk) == ToSpeechText(Lower(chunk)) && ToSpeechText(chunk) in SpokenForms
    ensures Lower(chunk) !in SpeechOverrides && Lower(chunk) != "ion" ==> ToSpeechText(chunk) == chunk
  {
    LowerIdempotent(chunk);
    SpokenFormsAreFinal();
  }

  // ---------------------------------------------------------------------------
  // Syllable hints in the decoding notes
  //
  // The hint pattern is `(?:syllables?:\s+)?([a-z]+(?:\s*\|\s*[a-z]+)+)` under
  // the `i` flag. Only group 1 is used. Wherever the optional label matches,
  // the group cannot start inside it (its letters are followed by ':'), so
  // group 1 of the leftmost match is the leftmost match of the group alone,
  // which is what the scanner below finds. Every repetition in the group is
  // greedy and never needs to give characters back.

  /** One `\s*\|\s*[a-z]+` step from `i`: where it ends, if it matches. */
  function PipeStep(s: string, i: nat): (r: Option<nat>)
    requires i <= |s|
    ensures r.Some? ==> i < r.value <= |s|
  {
    var a := SkipSpaces(s, i);
    if a < |s| && s[a] == '|' then
      var b := SkipSpaces(s, a + 1);
      if b < |s| && IsLetter(s[b]) then Some(SkipLetters(s, b)) else None
    else None
  }

  /** As many steps as match from `i`: where the last one ends. */
  function PipeSteps(s: string, i: nat): (r: nat)
    requires i <= |s|
    ensures i <= r <= |s|
    ensures PipeStep(s, r).None?
    decreases |s| - i
  {
    match PipeStep(s, i)
    case Some(j) => PipeSteps(s, j)
    case None => i
  }

  /** Where the group matches when it starts at `p`, if it does. */
  function GroupAt(s: string, p: nat): (r: Option<nat>)
    requires p <= |s|
    ensures r.Some? ==> p < r.value <= |s| && IsLetter(s[p]) && IsLetter(s[r.value - 1])
  {
    if p < |s| && IsLetter(s[p]) then
      var e := SkipLetters(s, p);
      match PipeStep(s, e)
      case Some(j) => LastIsLetter(s, e, j); Some(PipeSteps(s, j))
      case None => None
    else None
  }

  /** A step ends on a letter, and so does a run of steps that contains one. */
  lemma LastIsLetter(s: string, e: nat, j: nat)
    requires e <= |s| && PipeStep(s, e) == Some(j)
    ensures IsLetter(s[PipeSteps(s, j) - 1])
    decreases |s| - j
  {
    match PipeStep(s, j)
    case Some(k) => LastIsLetter(s, j, k);
    case None =>
  }

  /** The leftmost match of the group at or after `from`: its start and end. */
  function HintMatch(s: string, from: nat): (r: Option<(nat, nat)>)
    requires from <= |s|
    ensures r.Some? ==> from <= r.value.0 <= |s| && GroupAt(s, r.value.0) == Some(r.value.1)
    ensures r.Some? ==> forall q :: from <= q < r.value.0 ==> GroupAt(s, q).None?
    ensures r.None? ==> forall q :: from <= q <= |s| ==> GroupAt(s, q).None?
    decreases |s| - from
  {
    match GroupAt(s, from)
    case Some(e) => Some((from, e))
    case None => if from == |s| then None else HintMatch(s, from + 1)
  }

  /**
   * `match[1].split("|").map(trim).filter(Boolean)`: the non-empty trimmed
   * pieces of the hint group, or `None` when the notes hold no hint.
   */
  function HintParts(notes: string): (r: Option<seq<string>>)
    ensures r.Some? ==> forall i :: 0 <= i < |r.value| ==> r.value[i] != []
  {
    match HintMatch(notes, 0)
    case None => None
    case Some((p, e)) => Some(NonEmpty(TrimEach(SplitOn(notes[p..e], '|'))))
  }

  function TrimEach(xs: seq<string>): (r: seq<string>)
    ensures |r| == |xs|
    ensures forall i :: 0 <= i < |xs| ==> r[i] == Trim(xs[i])
  {
    if xs == [] then [] else [Trim(xs[0])] + TrimEach(xs[1..])
  }

  /** `filter(Boolean)` on strings: the non-empty ones, in order. */
  function NonEmpty(xs: seq<string>): (r: seq<string>)
    ensures |r| <= |xs|
    ensures forall i :: 0 <= i < |r| ==> r[i] != [] && r[i] in xs
    ensures (forall i :: 0 <= i < |xs| ==> xs[i] != []) ==> r == xs
  {
    if xs == [] then []
    else if xs[0] == [] then NonEmpty(xs[1..])
    else [xs[0]] + NonEmpty(xs[1..])
  }

  /** Whether the hint `parts` spell `word`, ignoring case. */
  predicate HintFits(parts: seq<string>, word: string) {
    |parts| >= 2 && Lower(Join(parts)) == Lower(word)
  }

  /**
   * `parseSyllablesFromNotes`: when the notes hold a hint of at least two
   * parts that spells the word (ignoring case), the word cut at the hint's
   * boundaries, keeping the word's own letters and case; `None` otherwise.
   */
  method ParseSyllablesFromNotes(notes: string, word: string) returns (r: Option<seq<string>>)
    ensures r.Some? <==> notes != [] && HintParts(notes).Some? && HintFits(HintParts(notes).value, word)
    ensures r.Some? ==> |r.value| == |HintParts(notes).value|
    ensures r.Some? ==> Join(r.value) == word
    ensures r.Some? ==> forall i :: 0 <= i < |r.value| ==>
      |r.value[i]| == |HintParts(notes).value[i]| && Lower(r.value[i]) == Lower(HintParts(notes).value[i])
  {
    if notes == [] {
      return None;
    }
    var hint := HintParts(notes);
    if hint.None? {
      return None;
    }
    var parts := hint.value;
    if |parts| < 2 {
      return None;
    }
    if Lower(Join(parts)) != Lower(word) {
      return None;
    }
    var chunks := CutAtParts(word, parts);
    ChunksSpellWord(word, parts, 0);
    return Some(chunks);
  }

  /** `s.slice(from, to)` for `from <= to`: both ends are clamped to the length. */
  function Slice(s: string, from: nat, to: nat): (r: string)
    requires from <= to
    ensures to <= |s| ==> r == s[from..to]
  {
    var a := if from <= |s| then from else |s|;
    var b := if to <= |s| then to else |s|;
    s[a..b]
  }

  /** The chunks `parts.map` produces when `pos` starts at the given value. */
  function Chunks(word: string, parts: seq<string>, pos: nat): (r: seq<string>)
    ensures |r| == |parts|
  {
    if parts == [] then []
    else [Slice(word, pos, pos + |parts[0]|)] + Chunks(word, parts[1..], pos + |parts[0]|)
  }

  /** The loop that cuts `word` at successive part lengths, advancing `pos`. */
  method CutAtParts(word: string, parts: seq<string>) returns (chunks: seq<string>)
    ensures chunks == Chunks(word, parts, 0)
  {
    var pos: nat := 0;
    chunks := [];
    for i := 0 to |parts|
      invariant chunks + Chunks(word, parts[i..], pos) == Chunks(word, parts, 0)
    {
      assert parts[i..][1..] == parts[i + 1..];
      chunks := chunks + [Slice(word, pos, pos + |parts[i]|)];
      pos := pos + |parts[i]|;
    }
    assert parts[|parts|..] == [];
  }

  /**
   * When the parts spell `word[pos..]` ignoring case, the chunks spell it
   * exactly, and each chunk has its part's length and letters.
   */
  lemma {:induction false} ChunksSpellWord(word: string, parts: seq<string>, pos: nat)
    requires pos <= |word| && Lower(Join(parts)) == Lower(word[pos..])
    ensures Join(Chunks(word, parts, pos)) == word[pos..]
    ensures forall i :: 0 <= i < |parts| ==>
      |Chunks(word, parts, pos)[i]| == |parts[i]| && Lower(Chunks(word, parts, pos)[i]) == Lower(parts[i])
    decreases |parts|
  {
    if parts == [] {
    } else {
      var p, rest := parts[0], parts[1..];
      var n := pos + |p|;
      assert Lower(word[pos..]) == Lower(word)[pos..] && Lower(word[pos..n]) == Lower(word)[pos..n];
      assert n <= |word|;
      assert word[pos..] == word[pos..n] + word[n..];
      LowerSplit(p, Join(rest), word[pos..n], word[n..]);
      ChunksSpellWord(word, rest, n);
      var c := Chunks(word, parts, pos);
      assert c == [word[pos..n]] + Chunks(word, rest, n);
      forall i | 0 <= i < |parts|
        ensures |c[i]| == |parts[i]| && Lower(c[i]) == Lower(parts[i])
      {
        if i > 0 {
          assert c[i] == Chunks(word, rest, n)[i - 1];
        }
      }
    }
  }

  // ---------------------------------------------------------------------------
  // Morpheme fallback

  /** A rendered word part: its text and its role ("prefix", "root" or "suffix"). */
  datatype Piece = Piece(text: string, role: string)

  /** A search key with the role of the fragment it came from. */
  datatype Morpheme = Morpheme(key: string, role: string)

  /** JavaScript truthiness of a nullable string: present and non-empty. */
  predicate Truthy(o: Option<string>) {
    o.Some? && o.value != []
  }

  /**
   * The search key for one fragment: the stripped text, and for the root
   * only the first of its alternate spellings ("vis/vid"), trimmed.
   */
  function KeyOf(fragment: string, role: string): string {
    if role == "root" then RootKey(fragment) else StripDashes(fragment)
  }

  /** The fragment's key with its role, when the fragment is truthy. */
  function FragmentKey(o: Option<string>, role: string): (r: seq<Morpheme>)
    ensures |r| <= 1
    ensures forall m :: m in r ==> m.role == role
  {
    if Truthy(o) then [Morpheme(KeyOf(o.value, role), role)] else []
  }

  /** The keys in prefix, root, suffix order, for the fragments that are truthy. */
  function MorphemeKeys(card: WordCard): (r: seq<Morpheme>)
    ensures |r| <= 3
    ensures forall m :: m in r ==> IsRole(m.role)
  {
    FragmentKey(card.prefix, "prefix") + FragmentKey(card.root, "root") + FragmentKey(card.suffix, "suffix")
  }

  function Texts(ps: seq<Piece>): (r: seq<string>)
    ensures |r| == |ps|
    ensures forall i :: 0 <= i < |ps| ==> r[i] == ps[i].text
  {
    if ps == [] then [] else [ps[0].text] + Texts(ps[1..])
  }

  lemma TextsAppend(a: seq<Piece>, b: seq<Piece>)
    ensures Texts(a + b) == Texts(a) + Texts(b)
  {
  }

  /** The root piece before an occurrence (if any), then the key's own piece. */
  function Head(rem: string, idx: nat, key: string, role: string): seq<Piece>
    requires idx + |key| <= |rem|
  {
    (if idx > 0 then [Piece(rem[..idx], "root")] else []) + [Piece(rem[idx..idx + |key|], role)]
  }

  /**
   * The state of the loop over the keys after its first `n` turns: the
   * pieces so far and what is left of the word, or `None` once some key
   * failed to occur in what was left. Each key is searched for, ignoring
   * case, in the text after the previous key's occurrence.
   */
  function Scan(word: string, keys: seq<Morpheme>, n: nat): (r: Option<(seq<Piece>, string)>)
    requires n <= |keys|
    decreases n
  {
    if n == 0 then Some(([], word))
    else
      match Scan(word, keys, n - 1)
      case None => None
      case Some((ps, rem)) => Advance(ps, rem, keys[n - 1])
  }

  /** One turn: find the key, ignoring case, in what is left, and cut after it. */
  function Advance(ps: seq<Piece>, rem: string, m: Morpheme): Option<(seq<Piece>, string)> {
    var idx := IndexOf(Lower(rem), m.key);
    if idx == -1 then None
    else Some((ps + Head(rem, idx, m.key, m.role), rem[idx + |m.key|..]))
  }

  /** The leftover text, when there is some, as a final suffix piece. */
  function Tail(rem: string): seq<Piece> {
    if |rem| > 0 then [Piece(rem, "suffix")] else []
  }

  /** The pieces for all the keys, or `None` when one does not occur. */
  function Locate(word: string, keys: seq<Morpheme>): Option<seq<Piece>> {
    match Scan(word, keys, |keys|)
    case None => None
    case Some((ps, rem)) => Some(ps + Tail(rem))
  }

  /** `getMorphemeFallback`: the located pieces, or the whole word as one root. */
  function MorphemeFallback(card: WordCard): seq<Piece> {
    var keys := MorphemeKeys(card);
    if keys == [] then [Piece(card.word, "root")]
    else match Locate(card.word, keys)
      case Some(ps) => ps
      case None => [Piece(card.word, "root")]
  }

  /** One more turn from a known state: the next key found after `rem`, or failure. */
  lemma ScanStep(word: string, keys: seq<Morpheme>, n: nat, ps: seq<Piece>, rem: string)
    requires n < |keys| && Scan(word, keys, n) == Some((ps, rem))
    ensures Scan(word, keys, n + 1) == Advance(ps, rem, keys[n])
  {
  }

  lemma AdvanceFound(ps: seq<Piece>, rem: string, m: Morpheme, idx: int)
    requires idx == IndexOf(Lower(rem), m.key) && idx != -1
    ensures idx + |m.key| <= |rem|
    ensures Advance(ps, rem, m) == Some((ps + Head(rem, idx, m.key, m.role), rem[idx + |m.key|..]))
  {
  }

  /** Once a key has failed, the search has failed for good. */
  lemma {:induction false} ScanStaysFailed(word: string, keys: seq<Morpheme>, n: nat, m: nat)
    requires n <= m <= |keys| && Scan(word, keys, n).None?
    ensures Scan(word, keys, m).None?
    decreases m
  {
    if m > n {
      ScanStaysFailed(word, keys, n, m - 1);
    }
  }

  /** `getMorphemeFallback`'s loop over the keys, on `word`. */
  method LocateKeys(word: string, morphemes: seq<Morpheme>) returns (r: Option<seq<Piece>>)
    ensures r == Locate(word, morphemes)
  {
    var pieces: seq<Piece> := [];
    var remaining, rLow := word, Lower(word);
    for i := 0 to |morphemes|
      invariant rLow == Lower(remaining)
      invariant Scan(word, morphemes, i) == Some((pieces, remaining))
    {
      var key, role := morphemes[i].key, morphemes[i].role;
      var idx := IndexOf(rLow, key);
      ScanStep(word, morphemes, i, pieces, remaining);
      if idx == -1 {
        ScanStaysFailed(word, morphemes, i + 1, |morphemes|);
        return None;
      }
      AdvanceFound(pieces, remaining, morphemes[i], idx);
      // the piece before the key, if any, then the key's own piece
      pieces := pieces + Head(remaining, idx, key, role);
      LowerSuffix(remaining, idx + |key|);
      remaining := remaining[idx + |key|..];
      rLow := rLow[idx + |key|..];
    }
    assert Locate(word, morphemes) == Some(pieces + Tail(remaining));
    if |remaining| > 0 {
      pieces := pieces + [Piece(remaining, "suffix")];
    } else {
      assert pieces + Tail(remaining) == pieces;
    }
    return Some(pieces);
  }

  method GetMorphemeFallback(card: WordCard) returns (pieces: seq<Piece>)
    ensures pieces == MorphemeFallback(card)
  {
    var word := card.word;
    var morphemes := MorphemeKeys(card);
    if |morphemes| == 0 {
      return [Piece(word, "root")];
    }
    var located := LocateKeys(word, morphemes);
    if located.None? {
      return [Piece(word, "root")];
    }
    return located.value;
  }

  /** The head's texts spell the remainder up to the end of the occurrence; the key's piece is the occurrence itself. */
  lemma HeadSpells(rem: string, idx: nat, key: string, role: string)
    requires OccursAt(Lower(rem), key, idx)
    ensures Join(Texts(Head(rem, idx, key, role))) == rem[..idx + |key|]
    ensures var h := Head(rem, idx, key, role); h[|h| - 1].role == role && Lower(h[|h| - 1].text) == key
    ensures forall p :: p in Head(rem, idx, key, role) ==> p.role == role || p.role == "root"
  {
    var h := Head(rem, idx, key, role);
    var occ := rem[idx..idx + |key|];
    LowerSlice(rem, idx, idx + |key|);
    if idx > 0 {
      assert Texts(h) == [rem[..idx], occ];
      assert Join([rem[..idx], occ]) == rem[..idx] + occ + Join([]);
      assert rem[..idx] + occ == rem[..idx + |key|];
    } else {
      assert Texts(h) == [occ];
      assert Join([occ]) == occ + Join([]);
    }
  }

  /** One successful turn keeps the spelling: the new pieces and remainder spell what the old ones did. */
  lemma AdvanceSpells(ps: seq<Piece>, rem: string, h: seq<Piece>, cut: nat)
    requires cut <= |rem| && Join(Texts(h)) == rem[..cut]
    ensures Join(Texts(ps + h)) + rem[cut..] == Join(Texts(ps)) + rem
  {
    TextsAppend(ps, h);
    JoinAppend(Texts(ps), Texts(h));
    assert rem == rem[..cut] + rem[cut..];
  }

  /**
   * After `n` turns the pieces so far, followed by what is left, spell the
   * word, and every piece has a known role.
   */
  lemma {:induction false} ScanSpellsWord(word: string, keys: seq<Morpheme>, n: nat)
    requires n <= |keys| && Scan(word, keys, n).Some?
    requires forall m :: m in keys ==> IsRole(m.role)
    ensures Join(Texts(Scan(word, keys, n).value.0)) + Scan(word, keys, n).value.1 == word
    ensures forall p :: p in Scan(word, keys, n).value.0 ==> IsRole(p.role)
    decreases n
  {
    if n > 0 {
      var st := Scan(word, keys, n - 1);
      assert st.Some?;
      var (ps, rem) := st.value;
      var m := keys[n - 1];
      ScanSpellsWord(word, keys, n - 1);
      var idx := IndexOf(Lower(rem), m.key);
      AdvanceFound(ps, rem, m, idx);
      HeadSpells(rem, idx, m.key, m.role);
      AdvanceSpells(ps, rem, Head(rem, idx, m.key, m.role), idx + |m.key|);
      assert m in keys;
    } else {
      assert Join(Texts([])) == [];
    }
  }

  /**
   * The fallback's pieces always spell the card's word exactly, in its own
   * case, and carry only the three known roles.
   */
  lemma FallbackSpellsWord(card: WordCard)
    ensures Join(Texts(MorphemeFallback(card))) == card.word
    ensures forall p :: p in MorphemeFallback(card) ==> IsRole(p.role)
  {
    var keys := MorphemeKeys(card);
    var whole := [Piece(card.word, "root")];
    assert Join(Texts(whole)) == card.word + Join([]);
    if keys != [] && Locate(card.word, keys).Some? {
      ScanSpellsWord(card.word, keys, |keys|);
      var (ps, rem) := Scan(card.word, keys, |keys|).value;
      TextsAppend(ps, Tail(rem));
      JoinAppend(Texts(ps), Texts(Tail(rem)));
      if |rem| > 0 {
        assert Join(Texts(Tail(rem))) == rem + Join([]);
      }
    }
  }

  // ---------------------------------------------------------------------------
  // Lexicon first: what the two views render

  /** Without a lexicon entry: the hint in the decoding notes, or else the whole word as one syllable. */
  method NotesSyllables(card: WordCard) returns (syllables: seq<string>)
    ensures Join(syllables) == card.word
    ensures var hint := HintParts(card.decodingNotes);
      if card.decodingNotes != [] && hint.Some? && HintFits(hint.value, card.word)
      then |syllables| == |hint.value|
      else syllables == [card.word]
  {
    var parsed := ParseSyllablesFromNotes(card.decodingNotes, card.word);
    if parsed.Some? {
      syllables := parsed.value;
    } else {
      syllables := [card.word];
      assert Join(syllables) == card.word + Join([]);
    }
  }

  /**
   * `SoundView`'s choice of syllables: the lexicon's syllables and sound cues
   * when the word has an entry (one cue per syllable, spelling the lowercased
   * word); otherwise the syllables from the notes with no cues.
   */
  method SoundSyllables(card: WordCard) returns (syllables: seq<string>, cues: Option<seq<string>>)
    ensures cues.Some? <==> GetWordData(card.word).Some?
    ensures cues.Some? ==>
      && syllables == GetWordData(card.word).value.syllables
      && cues.value == GetWordData(card.word).value.soundCues
      && |cues.value| == |syllables|
      && Join(syllables) == Lower(card.word)
    ensures cues.None? ==> Join(syllables) == card.word
    ensures cues.None? ==> var hint := HintParts(card.decodingNotes);
      if card.decodingNotes != [] && hint.Some? && HintFits(hint.value, card.word)
      then |syllables| == |hint.value|
      else syllables == [card.word]
  {
    var data := GetWordData(card.word);
    if data.Some? {
      return data.value.syllables, Some(data.value.soundCues);
    }
    syllables := NotesSyllables(card);
    cues := None;
  }

  /** One morpheme chip: its text, role, optional cue and optional glossary meaning. */
  datatype Chip = Chip(text: string, role: string, cue: Option<string>, meaning: Option<string>)

  function ChipTexts(cs: seq<Chip>): (r: seq<string>)
    ensures |r| == |cs|
    ensures forall i :: 0 <= i < |cs| ==> r[i] == cs[i].text
  {
    seq(|cs|, i requires 0 <= i < |cs| => cs[i].text)
  }

  /** The role a lexicon chip shows: the listed role, or "root" past the end of the list. */
  function RoleAt(roles: seq<string>, i: nat): string {
    if i < |roles| then roles[i] else "root"
  }

  /** A chip shows a known role and the glossary meaning of its own text. */
  predicate Glossed(c: Chip) {
    IsRole(c.role) && c.meaning == GetMorphemeMeaning(c.text)
  }

  /** The chips for a well-formed lexicon entry: one per morpheme, with its role and cue. */
  method EntryChips(key: string, e: SyllableEntry) returns (chips: seq<Chip>)
    requires WellFormed(key, e)
    ensures ChipTexts(chips) == e.morphemes
    ensures forall i :: 0 <= i < |chips| ==> chips[i].role == e.morphRoles[i] && chips[i].cue == Some(e.morphCues[i])
    ensures forall c :: c in chips ==> Glossed(c)
  {
    chips := seq(|e.morphemes|, i requires 0 <= i < |e.morphemes| =>
      Chip(e.morphemes[i], RoleAt(e.morphRoles, i), Some(e.morphCues[i]), GetMorphemeMeaning(e.morphemes[i])));
    assert ChipTexts(chips) == e.morphemes;
  }

  /** The chips for a word without an entry: the fallback pieces, which spell the word exactly. */
  method FallbackChips(card: WordCard) returns (chips: seq<Chip>)
    ensures ChipTexts(chips) == Texts(MorphemeFallback(card))
    ensures Join(ChipTexts(chips)) == card.word
    ensures forall c :: c in chips ==> Glossed(c) && c.cue.None?
  {
    var pieces := GetMorphemeFallback(card);
    FallbackSpellsWord(card);
    chips := seq(|pieces|, i requires 0 <= i < |pieces| =>
      Chip(pieces[i].text, pieces[i].role, None, GetMorphemeMeaning(pieces[i].text)));
    assert ChipTexts(chips) == Texts(pieces);
    assert forall i :: 0 <= i < |pieces| ==> pieces[i] in pieces;
  }

  /**
   * `MorphemeView`'s chips: the lexicon's morphemes with their roles, cues
   * and meanings when the word has an entry; otherwise the fallback pieces
   * with their meanings. Without an entry the chips spell the word exactly;
   * with one they spell it, lowercased, unless the word is one of the two
   * entries whose morphemes name their base word instead.
   */
  method MorphemeChips(card: WordCard) returns (chips: seq<Chip>)
    ensures forall c :: c in chips ==> Glossed(c)
    ensures GetWordData(card.word).Some? ==>
      && ChipTexts(chips) == GetWordData(card.word).value.morphemes
      && (forall i :: 0 <= i < |chips| ==>
            && chips[i].role == GetWordData(card.word).value.morphRoles[i]
            && chips[i].cue == Some(GetWordData(card.word).value.morphCues[i]))
      && (Join(ChipTexts(chips)) == Lower(card.word) <==> !IsMorphemeException(Lower(card.word)))
    ensures GetWordData(card.word).None? ==>
      && ChipTexts(chips) == Texts(MorphemeFallback(card))
      && Join(ChipTexts(chips)) == card.word
      && (forall c :: c in chips ==> c.cue.None?)
  {
    var data := GetWordData(card.word);
    if data.Some? {
      chips := EntryChips(Lower(card.word), data.value);
      MorphemeConcatenation(card.word);
    } else {
      chips := FallbackChips(card);
    }
  }
}
