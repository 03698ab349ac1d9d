# word-trainer: a Dafny model of the decoding and practice logic

This project models the part of the word-trainer reading app that decides what a student is shown and how an answer is judged:

- the reference lexicon `WORD_DATA` and its case-insensitive lookup `getWordData`;
- the chunking logic of the `ChunkDisplay` component:
  - the morpheme glossary and the speech-text overrides;
  - the fallback syllable parser, which reads decoding notes such as `port | fo | li | o`;
  - the fallback morpheme splitter, which works from the card's prefix, root and suffix;
  - the lexicon-first choice made by the sound and morpheme views;
- the voice matcher of `useRecognition`:
  - a Levenshtein table filled row by row;
  - the 25% closeness test;
  - the recognition state machine, driven by result, end and error events;
- the session deck and the quiz, from `filterCards.ts`:
  - the cascading grade and focus filter;
  - the de-duplicating distractor collector;
  - the Fisher–Yates shuffle;
- the progress reducers, from `storage.ts`;
- the milestone messages and the "Word N of total" counter of `ProgressBar`.

Modules follow the source files:

| module | file |
|---|---|
| `Wrappers`, `Text` | Shared helpers: `Option`, plus the ASCII string operations the source takes from JavaScript (`toLowerCase`, `trim`, `indexOf`, `split`, `join`) |
| `Cards` | `src/lib/types.ts` |
| `WordDataTable`, `WordData` | `src/lib/wordData.ts` |
| `ChunkDisplay` | `src/components/ChunkDisplay.tsx` |
| `Recognition` | `src/hooks/useRecognition.ts` |
| `FilterCards` | `src/lib/filterCards.ts` |
| `Storage` | `src/lib/storage.ts` |
| `ProgressBar` | `src/components/ProgressBar.tsx` |

Pure code is written as functions with lemmas beside them. Code that builds its result in loops is written as methods with loop invariants. Each such method is proved equal to a specification function, and the properties are proved about that function:
- the notes parser;
- the morpheme splitter;
- the Levenshtein table;
- the alternative scan;
- the distractor collector;
- the shuffle.

The recognition hook becomes the class `Recognition.Recognizer`. Its fields are the hook's state, its ref and its matched flag. Each callback becomes a method. `OnResult` states its new state through the pure transition `AfterResult`. `Start`, `Stop`, `OnEnd`, `OnError` and `Reset` state their new state field by field.

Some functions only specify what a method computes, or what a lemma is about. They carry no contract of their own, and their properties are in the rows named here:
- `ChunkDisplay.Scan`, `ChunkDisplay.Locate` and `ChunkDisplay.MorphemeFallback` specify `getMorphemeFallback` (src/components/ChunkDisplay.tsx:103-123). See `LocateKeys`, `GetMorphemeFallback`, `ScanSpellsWord` and `FallbackSpellsWord`.
- `Recognition.Dist` and `Recognition.Lev` specify `levenshtein` (src/hooks/useRecognition.ts:54-67). See `Levenshtein`, `LevBounds`, `LevSymmetric` and `LevSelf`.
- `Recognition.IsCloseEnough` is `isCloseEnough` (src/hooks/useRecognition.ts:73-78). See `SomeWordWithinIff`, `CloseEnoughIgnoresCase`, `CloseEnoughSelf` and `CloseEnoughNeedsSimilarLength`.
- `Recognition.AfterResult` and `Recognition.ScanFrom` specify `onresult` (src/hooks/useRecognition.ts:119-149). See `Recognizer.OnResult`, `ScanStopsAtMatch`, `ScanWithoutMatch` and `MatchIgnoresLaterResults`.

## Behaviour worth noting

- `stop` only releases the recognizer. It leaves the status as it is; a later `onend` turns listening into retry.
- `indexOf("")` is 0. So an empty fragment key in `getMorphemeFallback` yields an empty piece rather than a fallback.

## Model

| member | source | states |
|---|---|---|
| WordDataTable.PortRootOk | src/lib/wordData.ts:25-66 | every entry of the port section has one sound cue per syllable, one cue and one known role per morpheme, syllables that spell the key, and morphemes that spell it |
| WordDataTable.VisRootOk | src/lib/wordData.ts:69-117 | the same invariants for the vis section |
| WordDataTable.RuptRootOk | src/lib/wordData.ts:120-161 | the same invariants for the rupt section |
| WordDataTable.ScribRootOk | src/lib/wordData.ts:164-205 | the same invariants for the scrib/script section |
| WordDataTable.DictRootOk | src/lib/wordData.ts:208-242 | the same invariants for the dict section |
| WordDataTable.StructRootOk | src/lib/wordData.ts:245-293 | the same invariants for the struct section |
| WordDataTable.ActRootOk | src/lib/wordData.ts:296-351 | the same invariants for the act section |
| WordDataTable.FormRootOk | src/lib/wordData.ts:354-388 | the same invariants for the form section |
| WordDataTable.MitRootOk | src/lib/wordData.ts:391-425 | the same invariants for the mit/miss section |
| WordDataTable.AudRootOk | src/lib/wordData.ts:428-469 | the same invariants for the aud section |
| WordDataTable.SpectRootOk | src/lib/wordData.ts:472-513 | the same invariants for the spect/spec section |
| WordDataTable.FerRootOk | src/lib/wordData.ts:516-550 | the same invariants for the fer section |
| WordDataTable.PrefixWordsAOk | src/lib/wordData.ts:553-608 | the same invariants for the first half of the prefix-word section |
| WordDataTable.PrefixWordsBOk | src/lib/wordData.ts:609-643 | the same invariants for the second half of the prefix-word section |
| WordDataTable.SuffixWordsAOk | src/lib/wordData.ts:646-701 | the same invariants for the first part of the suffix-word section |
| WordDataTable.SuffixWordsBOk | src/lib/wordData.ts:702-757 | the same invariants for the middle part of the suffix-word section |
| WordDataTable.SuffixWordsCOk | src/lib/wordData.ts:758-806 | the same invariants; here the morphemes spell the key except for exactly scientist and famous |
| WordDataTable.OtherPrefixWordsOk | src/lib/wordData.ts:809-850 | the same invariants for the remaining prefix words |
| WordDataTable.TableInvariants | src/lib/wordData.ts:15-851 | every entry of `WORD_DATA` keeps the invariants: parallel lists of equal length, syllables joining to the lowercase key, only prefix/root/suffix roles, and morphemes joining to the key unless the key is scientist or famous |
| WordData.FindEntry | src/lib/wordData.ts:854 | the property read: `None` exactly when no entry has the key, otherwise an entry stored under that key |
| WordData.GetWordData | src/lib/wordData.ts:853-855 | null exactly when the lowercased word is not a key; otherwise the entry stored under the lowercased word, which keeps the invariants and whose syllables spell that word |
| WordData.GetWordDataCaseInsensitive | src/lib/wordData.ts:853-855 | a word and its lowercase form find the same result |
| WordData.GetWordDataFindsKeys | src/lib/wordData.ts:853-855 | every key of the table finds an entry |
| WordData.MorphemeConcatenation | src/lib/wordData.ts:15-851 | for every entry the lookup returns, the morphemes join to the lowercased word if and only if it is not scientist or famous |
| WordData.ScientistIsAnException | src/lib/wordData.ts:779-785 | scientist is an entry whose morphemes do not spell it |
| WordData.FamousIsAnException | src/lib/wordData.ts:793-799 | famous is an entry whose morphemes do not spell it |
| WordData.GetWordDataAsWritten | src/lib/wordData.ts:853-855 | the read on a plain object: an own entry exactly when `GetWordData` finds one, and an inherited member exactly when the lowercased word is not a key but is `constructor` or `__proto__` |
| WordData.TableLacksConstructor | src/lib/wordData.ts:23-851 | no key of the table is `constructor` |
| WordData.ConstructorIsNotAKey | src/lib/wordData.ts:853-855 | the own-key lookup of "Constructor" is null |
| WordData.ConstructorIsReadAsAnEntry | src/lib/wordData.ts:854 | the lookup as written returns the inherited `constructor` member for "Constructor" instead of null |
| ChunkDisplay.StripDashes | src/components/ChunkDisplay.tsx:99-101 | `stripDashes` never makes its input longer; `StripDashesKeepsMiddle` says what it keeps |
| ChunkDisplay.StripDashesKeepsMiddle | src/components/ChunkDisplay.tsx:99-101 | `stripDashes` is the lowercased middle of its input: all that is cut off at either end is dash or whitespace, and the result neither starts nor ends with one and is lowercase |
| ChunkDisplay.StripLowerCommute | src/components/ChunkDisplay.tsx:77-80 | trimming dashes after lowercasing (the glossary's order) gives the same key as `stripDashes`, which lowercases last |
| ChunkDisplay.StripDashesIdempotent | src/components/ChunkDisplay.tsx:99-101 | stripping twice is stripping once |
| ChunkDisplay.GetMorphemeMeaning | src/components/ChunkDisplay.tsx:19-80 | a meaning exactly when the stripped key is in the glossary, and then the glossary's meaning for that key |
| ChunkDisplay.MorphemeMeaningOfKey | src/components/ChunkDisplay.tsx:77-80 | a chunk has the meaning of its stripped key, so case and surrounding dashes are ignored |
| ChunkDisplay.SpokenFormsAreFinal | src/components/ChunkDisplay.tsx:127-143 | the override values and "yun" are lowercase, and none of them is an override key or "ion" |
| ChunkDisplay.SpeechTextIdempotent | src/components/ChunkDisplay.tsx:139-144 | rendering a chunk for speech twice is rendering it once |
| ChunkDisplay.ToSpeechText | src/components/ChunkDisplay.tsx:139-144 | the chunk is either passed through or replaced by one of the spoken forms |
| ChunkDisplay.SpeechTextCases | src/components/ChunkDisplay.tsx:127-144 | a chunk whose lowercase form is an override key becomes `SPEECH_OVERRIDES` of that key; "ion", in any case, becomes "yun"; both give the same whatever the case; any other chunk is passed through unchanged |
| ChunkDisplay.BeforeSlash | src/components/ChunkDisplay.tsx:108 | the longest prefix with no slash or backslash; the character after it, if any, is a slash or backslash |
| ChunkDisplay.PipeStep | src/components/ChunkDisplay.tsx:86 | one `\s*\|\s*[a-z]+` repetition matches only by consuming characters |
| ChunkDisplay.PipeSteps | src/components/ChunkDisplay.tsx:86 | the greedy repetition ends where no further step matches |
| ChunkDisplay.GroupAt | src/components/ChunkDisplay.tsx:86 | a group match at `p` starts and ends with a letter |
| ChunkDisplay.LastIsLetter | src/components/ChunkDisplay.tsx:86 | every run of pipe steps ends on a letter |
| ChunkDisplay.HintMatch | src/components/ChunkDisplay.tsx:86 | the leftmost position where the hint group matches, or `None` when it matches nowhere |
| ChunkDisplay.HintParts | src/components/ChunkDisplay.tsx:86-88 | the trimmed, non-empty parts of the hint group |
| ChunkDisplay.TrimEach | src/components/ChunkDisplay.tsx:88 | `map(trim)`: each part trimmed, in order |
| ChunkDisplay.NonEmpty | src/components/ChunkDisplay.tsx:88 | `filter(Boolean)`: only non-empty parts, taken from the input, and no change when none is empty |
| ChunkDisplay.Slice | src/components/ChunkDisplay.tsx:93 | `slice` with in-range ends is the subsequence |
| ChunkDisplay.CutAtParts | src/components/ChunkDisplay.tsx:91-96 | the `pos`-advancing loop produces the chunks of the specification |
| ChunkDisplay.ChunksSpellWord | src/components/ChunkDisplay.tsx:90-96 | when the parts spell the word ignoring case, the chunks spell it exactly; each chunk has its part's length and letters |
| ChunkDisplay.ParseSyllablesFromNotes | src/components/ChunkDisplay.tsx:84-97 | a result exactly when the notes are non-empty and hold a hint with at least two parts that spells the word ignoring case; the result spells the word in its own case, one chunk per part |
| ChunkDisplay.FragmentKey | src/components/ChunkDisplay.tsx:107-109 | a truthy fragment gives one key with the fragment's role; any other gives none |
| ChunkDisplay.MorphemeKeys | src/components/ChunkDisplay.tsx:106-109 | at most three keys, in prefix, root, suffix order, each with a known role |
| ChunkDisplay.ScanStep | src/components/ChunkDisplay.tsx:113-120 | one more turn of the key loop is one `Advance` from the current state |
| ChunkDisplay.AdvanceFound | src/components/ChunkDisplay.tsx:114-119 | a found key lies inside the remainder; the turn adds the pieces before and at the key, and keeps what follows |
| ChunkDisplay.ScanStaysFailed | src/components/ChunkDisplay.tsx:115 | once a key is missing, the loop's result is the failure |
| ChunkDisplay.LocateKeys | src/components/ChunkDisplay.tsx:111-122 | the loop, with its two lowercased and original remainders kept in step, computes the specification's pieces or its failure |
| ChunkDisplay.GetMorphemeFallback | src/components/ChunkDisplay.tsx:103-123 | the method computes `MorphemeFallback`: the placed pieces, or the whole word as one root when there are no keys or one is missing |
| ChunkDisplay.HeadSpells | src/components/ChunkDisplay.tsx:116-117 | the pieces added in one turn spell the remainder up to the end of the key; the last is the key's own occurrence with its role |
| ChunkDisplay.AdvanceSpells | src/components/ChunkDisplay.tsx:116-119 | one turn keeps "pieces so far + remainder" equal |
| ChunkDisplay.ScanSpellsWord | src/components/ChunkDisplay.tsx:113-120 | after every turn the pieces followed by the remainder spell the word, and every piece has a known role |
| ChunkDisplay.FallbackSpellsWord | src/components/ChunkDisplay.tsx:103-123 | the fallback's pieces always spell the card's word exactly, in its own case, with known roles |
| ChunkDisplay.NotesSyllables | src/components/ChunkDisplay.tsx:303 | without an entry, the syllables spell the word; one per hint part when the hint fits, otherwise the whole word |
| ChunkDisplay.SoundSyllables | src/components/ChunkDisplay.tsx:294-304 | cues are present exactly when the word has an entry; then the entry's syllables and cues, one cue per syllable, spelling the lowercased word; otherwise the syllables from the notes |
| ChunkDisplay.ChipTexts | src/components/ChunkDisplay.tsx:343-354 | the texts of the chips, in order |
| ChunkDisplay.EntryChips | src/components/ChunkDisplay.tsx:342-348 | one chip per morpheme, with its own role, its cue and its glossary meaning |
| ChunkDisplay.FallbackChips | src/components/ChunkDisplay.tsx:349-355 | the fallback pieces as chips, with no cue and with glossary meanings; they spell the word |
| ChunkDisplay.MorphemeChips | src/components/ChunkDisplay.tsx:337-355 | every chip shows a known role and its glossary meaning. With an entry: its morphemes, roles and cues, spelling the lowercased word unless it is scientist or famous. Without one: the fallback, spelling the word exactly |
| Text.IndexOf | src/components/ChunkDisplay.tsx:114 | `indexOf`: an occurrence with none before it, or -1 when there is none; the empty key is found at 0 |
| Text.LowerIdempotent | src/lib/wordData.ts:854 | `toLowerCase` applied twice is applied once |
| Text.FirstIndexOfChar | src/components/ChunkDisplay.tsx:88 | the first position of the separator, with none before it, or -1 when it does not occur |
| Text.TrimShape | src/hooks/useRecognition.ts:74-75 | `trim` keeps the slice between the leading and trailing whitespace runs; that slice has no whitespace at either end |
| Text.SplitWs | src/hooks/useRecognition.ts:75 | `split(/\s+/)` always gives at least one piece |
| Text.FirstSpace | src/hooks/useRecognition.ts:75 | the first whitespace position, with none before it, or -1 when there is none |
| Text.SplitWsPiecesHaveNoSpace | src/hooks/useRecognition.ts:75 | no piece of `split(/\s+/)` holds whitespace |
| Text.SplitWsPiecesAreSlices | src/hooks/useRecognition.ts:75 | every piece of `split(/\s+/)` is a slice of the input |
| Text.SplitOnJoins | src/components/ChunkDisplay.tsx:88 | joining the pieces of `split("\|")` with the separator gives the input back |
| Text.SplitOnNoSeparator | src/components/ChunkDisplay.tsx:88 | no piece of `split("\|")` holds the separator |
| Recognition.Min3 | src/hooks/useRecognition.ts:63 | `Math.min` of three: one of them, and at most each |
| Recognition.DistStep | src/hooks/useRecognition.ts:61-63 | the recurrence of an inner cell |
| Recognition.FillRow | src/hooks/useRecognition.ts:60-64 | the inner loop fills row `i` with the prefix distances and leaves every other row unchanged |
| Recognition.Levenshtein | src/hooks/useRecognition.ts:54-67 | the table's corner is the edit distance `Lev(a, b)` of the recurrence, with borders `d(a,"") = \|a\|` and `d("",b) = \|b\|` |
| Recognition.DistSelf | src/hooks/useRecognition.ts:54-67 | equal prefixes are at distance 0 |
| Recognition.LevSelf | src/hooks/useRecognition.ts:54-67 | `levenshtein(a, a) = 0` |
| Recognition.DistUpper | src/hooks/useRecognition.ts:54-67 | a prefix distance is at most the longer prefix length |
| Recognition.DistStepBelow | src/hooks/useRecognition.ts:61-63 | a cell keeps a lower bound that its three source cells keep, allowing one edit for the non-diagonal ones |
| Recognition.DistLower | src/hooks/useRecognition.ts:54-67 | a prefix distance is at least the difference of the prefix lengths |
| Recognition.LevBounds | src/hooks/useRecognition.ts:50-67 | `\|\|a\|-\|b\|\| <= levenshtein(a, b) <= max(\|a\|, \|b\|)` |
| Recognition.DistSymmetricStep | src/hooks/useRecognition.ts:61-63 | a differing cell is symmetric when its three source cells are |
| Recognition.DistSymmetric | src/hooks/useRecognition.ts:54-67 | prefix distances do not depend on the order of the strings |
| Recognition.LevSymmetric | src/hooks/useRecognition.ts:54-67 | `levenshtein(a, b) = levenshtein(b, a)` |
| Recognition.Threshold | src/hooks/useRecognition.ts:76 | the allowance is at least 1, is a quarter of the length rounded down from length 4 on, and is 1 below length 8 |
| Recognition.SpokenWords | src/hooks/useRecognition.ts:75 | the transcript always yields at least one word (possibly empty) |
| Recognition.SomeWordWithinIff | src/hooks/useRecognition.ts:77 | `some` holds exactly when some word is within the threshold |
| Recognition.CloseEnoughIgnoresCase | src/hooks/useRecognition.ts:73-78 | the closeness test gives the same answer after lowercasing either side |
| Recognition.LowerKeepsNoSpace | src/hooks/useRecognition.ts:74 | lowercasing keeps every character a non-space |
| Recognition.CloseEnoughSelf | src/hooks/useRecognition.ts:73-78 | a whitespace-free target is close enough to itself |
| Recognition.CloseEnoughNeedsSimilarLength | src/hooks/useRecognition.ts:76-77 | a match needs a spoken word whose length differs from the target's by at most the threshold |
| Recognition.ScanPastMiss | src/hooks/useRecognition.ts:131-147 | past a result that does not match, the scan goes on from the next result, showing this one's best alternative and setting retry if it is final |
| Recognition.ScanAtHit | src/hooks/useRecognition.ts:134-141 | at a matching result the scan ends in success, showing that result's best alternative, with the recognizer released |
| Recognition.ScanStopsAtMatch | src/hooks/useRecognition.ts:125-142 | when the first match is at `k`, the scan ends in success with `k`'s best alternative; later results are not looked at |
| Recognition.ScanWithoutMatch | src/hooks/useRecognition.ts:125-148 | with no match, the flag and the recognizer are kept; the status becomes retry exactly when some scanned result is final; the transcript is the last result's best alternative |
| Recognition.MatchIgnoresLaterResults | src/hooks/useRecognition.ts:120 | once matched, every later result event leaves the state as it is |
| Recognition.SomeAlternativeMatches | src/hooks/useRecognition.ts:134 | the loop's answer is `some` over the alternatives |
| Recognition.Transcripts | src/hooks/useRecognition.ts:127-130 | the collected alternatives are the result's alternatives, in order |
| Recognition.Recognizer.constructor | src/hooks/useRecognition.ts:80-86 | the hook starts idle, with an empty transcript, no match and no recognizer |
| Recognition.Recognizer.Stop | src/hooks/useRecognition.ts:97-100 | only the recognizer is released; the status and transcript are unchanged, and the class invariant holds |
| Recognition.Recognizer.Start | src/hooks/useRecognition.ts:102-117 | when supported: listening, an empty transcript, the flag cleared and a recognizer held. When unsupported: no change |
| Recognition.Recognizer.OnResult | src/hooks/useRecognition.ts:119-149 | the new state is `AfterResult` of the old state: ignored once matched, otherwise the scan from `resultIndex`; the class invariant (matched implies released) is kept |
| Recognition.Recognizer.OnError | src/hooks/useRecognition.ts:151-153 | idle, nothing else changed |
| Recognition.Recognizer.OnEnd | src/hooks/useRecognition.ts:155-159 | the recognizer is released; listening becomes retry, and any other status is kept |
| Recognition.Recognizer.Reset | src/hooks/useRecognition.ts:164-169 | idle, an empty transcript, the flag cleared and no recognizer |
| Recognition.Recognizer.SetTarget | src/hooks/useRecognition.ts:171-175 | a new target word resets the hook |
| FilterCards.Filter | src/lib/filterCards.ts:17 | `filter`: exactly the elements that satisfy the test, no more than before |
| FilterCards.SubseqRefl | src/lib/filterCards.ts:9-31 | a list is a subsequence of itself |
| FilterCards.SubseqTrans | src/lib/filterCards.ts:9-31 | a subsequence of a subsequence is a subsequence |
| FilterCards.FilterIsSubseq | src/lib/filterCards.ts:17 | a filter keeps its elements in their order |
| FilterCards.ByGrade | src/lib/filterCards.ts:15-18 | "All" is the identity; a band keeps exactly its own cards |
| FilterCards.ApplyFocusFilter | src/lib/filterCards.ts:34-46 | Roots, Prefixes and Suffixes keep exactly the cards whose fragment is non-null; Mixed is the identity |
| FilterCards.GradeIsSubseq | src/lib/filterCards.ts:15-18 | the grade step keeps order |
| FilterCards.FocusIsSubseq | src/lib/filterCards.ts:34-46 | the focus step keeps order |
| FilterCards.FilterCards | src/lib/filterCards.ts:9-32 | the deck is never larger than all cards, and holds only cards from them |
| FilterCards.FilterCardsCascade | src/lib/filterCards.ts:9-31 | with at least ten grade-and-focus cards, exactly those; otherwise, with at least ten focus cards, exactly those; otherwise every card |
| FilterCards.FilterCardsSubseq | src/lib/filterCards.ts:9-31 | the result is an order-preserving subsequence of all cards; it has at least ten cards when all cards do, and fewer than ten only when it is all cards |
| FilterCards.DedupFacts | src/lib/filterCards.ts:63-68 | the own-distractor loop collects distinct meanings, none already seen, all from the card |
| FilterCards.FillFacts | src/lib/filterCards.ts:71-84 | the fill keeps the pool as a prefix; what it adds is distinct, not seen before, and taken from the others' distractors |
| FilterCards.OthersFromOtherCards | src/lib/filterCards.ts:72-73 | every meaning the fill reads belongs to a card with a different id |
| FilterCards.DedupCovers | src/lib/filterCards.ts:63-68 | the own-distractor loop misses nothing: every meaning is either already seen or collected |
| FilterCards.FillKeeps | src/lib/filterCards.ts:71-84 | the fill only appends, so the pool's meanings stay |
| FilterCards.FillMax | src/lib/filterCards.ts:71-84 | the fill ends with fewer than three only when every meaning it read was already seen or is in the pool |
| FilterCards.PoolFacts | src/lib/filterCards.ts:59-86 | the pool has no repeat and not the correct meaning. It starts with the card's own de-duplicated distractors, in order, and holds every own distractor other than the correct meaning. Other cards are used only when fewer than three own ones were found, never a card with the same id. With fewer than three, it holds every other card's distractor except the correct meaning |
| FilterCards.Distractors | src/lib/filterCards.ts:87 | `slice(0, 3)` keeps at most three |
| FilterCards.UnshuffledFacts | src/lib/filterCards.ts:56-91 | before the shuffle: one option plus the first three of the pool, or the whole pool when it is smaller. Exactly one is correct and carries the card's meaning; no distractor has that meaning; no two options share a text |
| FilterCards.ElemsBound | src/lib/filterCards.ts:59-86 | a list has no more different meanings than entries |
| FilterCards.ThreeDistinctIn | src/lib/filterCards.ts:87 | a list that holds three different meanings has at least three entries |
| FilterCards.FourOptionsWhenAvailable | src/lib/filterCards.ts:52-91 | whenever three different wrong meanings are the card's own or another card's distractors, the quiz has four options |
| FilterCards.DistinctCountsOne | src/lib/filterCards.ts:88-91 | with distinct texts, no option occurs twice |
| FilterCards.RepeatCountsTwo | src/lib/filterCards.ts:97-104 | an option at two positions occurs at least twice |
| FilterCards.PermutationKeepsDistinct | src/lib/filterCards.ts:97-104 | reordering keeps the texts distinct |
| FilterCards.CollectOwn | src/lib/filterCards.ts:59-68 | the own-distractor loop computes `Dedup`, and `seen` is the correct meaning plus the pool |
| FilterCards.OthersStep | src/lib/filterCards.ts:71-84 | the others' meanings from card `i` on are card `i`'s (unless it has the same id), then the rest |
| FilterCards.FillFromOthers | src/lib/filterCards.ts:71-84 | the nested loops with their two `break`s and the `continue` compute `Fill` over the others' meanings |
| FilterCards.ShuffleArray | src/lib/filterCards.ts:97-104 | the swap loop returns a permutation of its input, of the same length; the input is a value, so it is unchanged |
| FilterCards.ShuffleCards | src/lib/filterCards.ts:107-109 | a permutation of the cards |
| FilterCards.BuildQuizOptions | src/lib/filterCards.ts:52-95 | a permutation of the unshuffled options. There are `1 + min(3, \|pool\|)` of them, exactly one correct with the card's meaning, no distractor with that meaning, and no two texts equal |
| Storage.DefaultProgress | src/lib/storage.ts:5-10 | all counters zero and no tricky ids, which is consistent |
| Storage.MarkPracticed | src/lib/storage.ts:41-53 | practiced goes up by one; correct checks go up by one exactly when the answer was correct; tricky ids and session total are unchanged; `correct <= practiced` is preserved |
| Storage.MarkPracticedIgnoresCard | src/lib/storage.ts:41-53 | the card id has no effect |
| Storage.Without | src/lib/storage.ts:63 | `filter(id => id !== x)`: exactly the other ids |
| Storage.WithoutAbsent | src/lib/storage.ts:63 | removing an absent id changes nothing |
| Storage.WithoutAppend | src/lib/storage.ts:63 | removal distributes over appending |
| Storage.ToggleTricky | src/lib/storage.ts:55-66 | a present id is removed everywhere; an absent one is appended at the end; membership flips for that id only; the counters are unchanged |
| Storage.ToggleTwiceRestores | src/lib/storage.ts:55-66 | toggling an absent id twice restores the progress |
| Storage.ToggleTwiceMovesToEnd | src/lib/storage.ts:55-66 | toggling a present id twice leaves one copy of it, at the end |
| ProgressBar.LastReached | src/components/ProgressBar.tsx:22 | `reverse().find`: the last milestone reached, with none reached after it, or none at all |
| ProgressBar.MilestonesIncreasing | src/components/ProgressBar.tsx:10-18 | the thresholds rise strictly |
| ProgressBar.LastReachedIsLargest | src/components/ProgressBar.tsx:20-23 | over rising thresholds, the last milestone reached has the largest threshold reached |
| ProgressBar.GetMilestoneMessage | src/components/ProgressBar.tsx:20-24 | a message is always that of a milestone whose threshold the count has reached |
| ProgressBar.MilestoneMessageFacts | src/components/ProgressBar.tsx:10-24 | null exactly when the count is below 1; otherwise the message of the largest threshold at or below the count |
| ProgressBar.FourGivesThree | src/components/ProgressBar.tsx:12-13 | four correct answers show the at-3 message |
| ProgressBar.TwentyOrMoreGivesTwenty | src/components/ProgressBar.tsx:17-22 | every count from 20 on shows the at-20 message |
| ProgressBar.WordNumber | src/components/ProgressBar.tsx:38 | the displayed word number never exceeds the total; it is `current + 1` while `current < total`, and the total after that |

## Left out

- Rendering: JSX, styles, colour tables, the `Chip` and `Dot` widgets and the `ChunkDisplay` default export. The model keeps what the views compute: syllables, cues and chips.
- Speech synthesis (`useSpeech`, `speech.ts`). It wraps a browser API with voices and timers.
- The browser speech recognizer:
  - Its construction, `lang`, `maxAlternatives` and `rec.start()` are not modelled.
  - Its events are method calls.
  - Whether it is available (the support effect and the `SR` check) is the constructor's `isSupported` argument.
- Recognition.Recognizer: one recognizer stands for all sessions. The source's handlers capture the target word of the `start` call that installed them. A late `onend` or `onresult` from a recognizer that was already stopped acts on the current state in the model; the real handlers would still use their old target.
- Recognition.Recognizer: React batches state updates. The model applies each `setState` immediately, which gives the same final state after each handler.
- Randomness:
  - `Math.random` in the shuffle is a nondeterministic choice of an index in `[0, i]`.
  - FilterCards.ShuffleArray: states only that the result is a permutation, not that it is uniformly distributed.
- The progress percentage `Math.round((current / total) * 100)` is not modelled, because it is floating point.
- Persistence is not modelled: `loadProgress`, `saveProgress` and `clearProgress` use `localStorage` and JSON.
- Strings are modelled as ASCII:
  - Lowercasing maps only `A`–`Z`.
  - `\s` and `trim` see only the ASCII whitespace characters.
  - Unicode case mapping and Unicode spaces are not modelled.
- The hint regular expression is modelled by a scanner for its capture group. That is the only part the source uses, and it is argued in the comment before `ChunkDisplay.PipeStep`.
- Numbers in `SessionProgress` are unbounded integers. JavaScript numbers are exact only up to 2^53.
- ChunkDisplay.GetMorphemeMeaning: models an own-key lookup only. On a plain object, as with `getWordData` under Findings, `constructor` or `__proto__` would read an inherited member.
- ChunkDisplay.ToSpeechText: the same limit: an inherited member such as `constructor` would be truthy and returned as the "override".
- The session page, the API route, and the other pages and widgets are UI or I/O, and are not part of this model.

## Findings

| source | as written | input that shows it | evidently intended | confidence | as-written member | corrected member |
|---|---|---|---|---|---|---|
| src/lib/wordData.ts:853-855 | `WORD_DATA[word.toLowerCase()] ?? null` reads inherited members of the plain object literal | `getWordData("Constructor")` returns the `Object` function, not null. `SoundView` would then map over its missing `syllables` | null for any word that is not a key of the table | not executed | WordData.ConstructorIsReadAsAnEntry | WordData.ConstructorIsNotAKey |
