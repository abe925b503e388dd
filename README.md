# Japanese VCV phonemizer of OpenUtau, in Dafny

OpenUtau's `JapaneseVCVPhonemizer` turns a note's Japanese kana lyric into
the name of a VCV sample (vowel–consonant–vowel) of a UTAU voicebank. The
name of a VCV sample is the vowel of the previous note, a space and the
current kana (`a か`). At the start of a phrase it is `- か`. This project
models the phonemizer and proves what it does:

- `VowelData` (`vowel_data.dfy`) holds the source's seven vowel lines as
  data. For example, the `a` line lists ぁ, あ, か … ワ, and the `n` line
  lists only ん. It also holds the facts about their characters that show
  that no kana is listed twice.
- `VowelTable` (`vowel_table.dfy`) models the static constructor. It
  flattens the lines into (kana, vowel) pairs and builds a dictionary with
  `ToDictionary`. The dictionary is an `Option` that is `None` where .NET
  would throw on a duplicate key. The module then proves that the table
  builds, and what the lookup answers.
- `JapaneseVcv` (`phonemizer.dfy`) models `Process`. It is a method of a
  class holding the singer and the lookup table, with the `foreach` scans
  over the singer's oto sets written as a loop method `Scan`. `Process` is
  proved to return exactly one phoneme, whose name is `Resolve` of the
  first note. `Resolve` is the specification function. It is written in
  stages: `ScannedLyric`, `PrevVowel`, `Candidate`, `Decorated`, then the
  sample check.
- `VcvProperties` (`vcv_properties.dfy`) proves the behaviour of `Resolve`:
  - the hint short-circuit;
  - the first-match scan;
  - what becomes of the previous note's hint;
  - the VCV/start-of-phrase choice, in both directions;
  - decoration only by the claiming set;
  - the fallback to the raw lyric;
  - a few concrete cases.

The singer's oto sets, its sample lookup and the grapheme segmentation are
collaborators of the phonemizer. They are not part of this model and are
given as function-valued fields:

- `OtoSet.stripPrefixSuffix` stands for `StripPrefixSuffix(lyric, out stripped)`.
  It returns the boolean and the value written to the out-parameter.
- `OtoSet.applyPrefixSuffix` stands for `ApplyPrefixSuffix`.
- `Singer.tryGetMappedOto` stands for `TryGetMappedOto(phoneme, tone, out _)`.
- `JapaneseVcvPhonemizer.toUnicodeElements` stands for the base class's
  `ToUnicodeElements`.

A property proved for every such function holds whatever the voicebank is.

The source behaves in several ways that are easy to misread. The model keeps
each one:

- Every `StripPrefixSuffix` call overwrites the out-variable, claim or not.
  So the scanned lyric is the claiming set's value if a set claims it. If
  none claims it, it is the last set's value. It stays the raw lyric only
  when there are no oto sets (`OutAfterScan`).
- The current note's hint counts only when it is non-empty (`IsNullOrEmpty`).
  The previous note's hint is taken with `??`, so an empty hint `""` is kept
  (`HasHint`, `HintOrLyric`).
- The second scan strips the previous note's *lyric*, not its hint, and
  overwrites `prevLyric`. One might expect the previous note's hint to drive
  the vowel lookup. The code uses it only when the singer has no oto sets
  (`PrevHintIgnoredWithOtoSets`, `PrevHintUsedWithoutOtoSets`).
- When the singer has no sample, the result is the note's raw lyric, not the
  stripped one.

## Model

| member | source | states |
|---|---|---|
| `VowelTable.ToDictionary` | OpenUtau.Core/Phonetic/JapaneseVCVPhonemizer.cs:25 | `ToDictionary` succeeds exactly when the keys are distinct; then every pair's key maps to its value and the keys are exactly the pairs' keys |
| `VowelTable.LinePairs` | OpenUtau.Core/Phonetic/JapaneseVCVPhonemizer.cs:21-23 | one line flattened into (kana, vowel) pairs, one per listed kana in order, each with the line's symbol |
| `VowelTable.SelectMany` | OpenUtau.Core/Phonetic/JapaneseVCVPhonemizer.cs:20-24 | the pairs of all lines, line after line, as `SelectMany` concatenates them |
| `VowelTable.SelectManyKeys` | OpenUtau.Core/Phonetic/JapaneseVCVPhonemizer.cs:20-24 | a kana is a key of the flattened pairs exactly when some line lists it |
| `VowelTable.DisjointIffDistinctKeys` | OpenUtau.Core/Phonetic/JapaneseVCVPhonemizer.cs:20-25 | flattening a table gives distinct keys exactly when no kana is listed on two lines or twice on one, the condition under which the dictionary builds |
| `VowelTable.BuildLookup` | OpenUtau.Core/Phonetic/JapaneseVCVPhonemizer.cs:19-26 | the static constructor's dictionary exists exactly when no kana is listed twice; it then maps each listed kana to its line's vowel and has no other key |
| `VowelTable.VowelsDisjoint` | OpenUtau.Core/Phonetic/JapaneseVCVPhonemizer.cs:7-15 | no kana of the source's seven lines is listed twice, so the static constructor does not throw |
| `VowelTable.VowelLookup` | OpenUtau.Core/Phonetic/JapaneseVCVPhonemizer.cs:17-26 | `vowelLookup` is built from the source lines, maps every listed kana to its line's vowel symbol, holds exactly the listed kana, and all its values are among a, e, i, o, u, n, N |
| `VowelTable.TryGetVowel` | OpenUtau.Core/Phonetic/JapaneseVCVPhonemizer.cs:60 | `TryGetValue` succeeds exactly when a line lists the grapheme, and gives that line's vowel symbol |
| `VowelTable.NotAKey` | OpenUtau.Core/Phonetic/JapaneseVCVPhonemizer.cs:7-15 | a string that is not a single listed character has no vowel |
| `VowelTable.NasalLookup` | OpenUtau.Core/Phonetic/JapaneseVCVPhonemizer.cs:12-14 | ん gives `n` and ン gives `N`, two different symbols |
| `VowelTable.KanaLookup` | OpenUtau.Core/Phonetic/JapaneseVCVPhonemizer.cs:8-13 | あ gives `a`, を gives `o`, ヴ gives `u` |
| `VowelTable.SokuonAndLongVowelAbsent` | OpenUtau.Core/Phonetic/JapaneseVCVPhonemizer.cs:7-15 | the small tsu っ and the long-vowel mark ー have no vowel |
| `VowelTable.NonKanaAbsent` | OpenUtau.Core/Phonetic/JapaneseVCVPhonemizer.cs:7-15 | the empty string, a Latin letter and a kana with a combining mark have no vowel |
| `JapaneseVcv.HasHint` | OpenUtau.Core/Phonetic/JapaneseVCVPhonemizer.cs:35 | a note has a hint when its `phoneticHint` is neither null nor empty |
| `JapaneseVcv.HintOrLyric` | OpenUtau.Core/Phonetic/JapaneseVCVPhonemizer.cs:52 | the previous note's `phoneticHint ?? lyric`: the hint when not null (an empty one included), else the lyric |
| `JapaneseVcv.FirstClaim` | OpenUtau.Core/Phonetic/JapaneseVCVPhonemizer.cs:44-49 | the scan stops at a set that claims the lyric and that no earlier set claims; it runs out exactly when no set claims it |
| `JapaneseVcv.OutAfterScan` | OpenUtau.Core/Phonetic/JapaneseVCVPhonemizer.cs:43-49 | after the scan the out-variable holds the claiming set's value, else the last set's value, and keeps its initial value only when there are no sets |
| `JapaneseVcv.ScanStopsAt` | OpenUtau.Core/Phonetic/JapaneseVCVPhonemizer.cs:44-48 | a scan reaching a claiming set after only refusals stops at it, with its value |
| `JapaneseVcv.ScanRunsOut` | OpenUtau.Core/Phonetic/JapaneseVCVPhonemizer.cs:44-49 | a scan with no claiming set ends unclaimed with the last set's value, or the initial value when there are no sets |
| `JapaneseVcv.Scan` | OpenUtau.Core/Phonetic/JapaneseVCVPhonemizer.cs:42-49 | the loop returns the first claiming set, or none, and the out-variable's final value as `OutAfterScan` gives it |
| `JapaneseVcv.ScannedLyric` | OpenUtau.Core/Phonetic/JapaneseVCVPhonemizer.cs:42-49 | the current lyric after the first scan, started from the note's lyric |
| `JapaneseVcv.ScannedPrevLyric` | OpenUtau.Core/Phonetic/JapaneseVCVPhonemizer.cs:52-57 | the previous lyric after the second scan, which strips the previous note's lyric and starts from its `hint ?? lyric` |
| `JapaneseVcv.PrevVowel` | OpenUtau.Core/Phonetic/JapaneseVCVPhonemizer.cs:51-63 | the table's value for the last grapheme of the scanned previous lyric; none without a previous note, without graphemes, or when the grapheme is not a key |
| `JapaneseVcv.Candidate` | OpenUtau.Core/Phonetic/JapaneseVCVPhonemizer.cs:50-64 | `vow lyric` with the previous vowel, else `- lyric`, with the scanned lyric |
| `JapaneseVcv.Decorated` | OpenUtau.Core/Phonetic/JapaneseVCVPhonemizer.cs:65-67 | the candidate passed through the first claiming set's `ApplyPrefixSuffix`, or unchanged when no set claims the lyric |
| `JapaneseVcv.Resolve` | OpenUtau.Core/Phonetic/JapaneseVCVPhonemizer.cs:35-70 | the phoneme name: the non-empty hint, else the decorated candidate if the singer has a sample for it at the note's tone, else the raw lyric |
| `JapaneseVcv.JapaneseVcvPhonemizer.constructor` | OpenUtau.Core/Phonetic/JapaneseVCVPhonemizer.cs:17-28 | a new phonemizer has no singer and the lookup table the static constructor builds |
| `JapaneseVcv.JapaneseVcvPhonemizer.SetSinger` | OpenUtau.Core/Phonetic/JapaneseVCVPhonemizer.cs:32 | the singer is replaced |
| `JapaneseVcv.JapaneseVcvPhonemizer.Process` | OpenUtau.Core/Phonetic/JapaneseVCVPhonemizer.cs:33-76 | exactly one phoneme, named `Resolve` of the first note, the previous neighbour, the singer and the lookup table; the next neighbour plays no part |
| `VcvProperties.HintShortCircuit` | OpenUtau.Core/Phonetic/JapaneseVCVPhonemizer.cs:35-41 | a non-empty hint is returned as it is, whatever the singer (even none), the table and the neighbours |
| `VcvProperties.EmptyHintIgnored` | OpenUtau.Core/Phonetic/JapaneseVCVPhonemizer.cs:35 | an empty hint resolves as no hint |
| `VcvProperties.ScanIgnoresLaterSets` | OpenUtau.Core/Phonetic/JapaneseVCVPhonemizer.cs:44-49 | once a set claims, sets appended after it change neither the claiming set nor the scanned lyric |
| `VcvProperties.PrevHintIgnoredWithOtoSets` | OpenUtau.Core/Phonetic/JapaneseVCVPhonemizer.cs:52-57 | with at least one oto set the previous note's hint does not affect the previous lyric |
| `VcvProperties.PrevHintUsedWithoutOtoSets` | OpenUtau.Core/Phonetic/JapaneseVCVPhonemizer.cs:52-57 | without oto sets the previous lyric is the previous hint if present (an empty hint included), else its lyric |
| `VcvProperties.CandidateWithoutPrev` | OpenUtau.Core/Phonetic/JapaneseVCVPhonemizer.cs:50-51 | with no previous note the candidate is `- ` followed by the scanned lyric |
| `VcvProperties.SymbolsAreNotDash` | OpenUtau.Core/Phonetic/JapaneseVCVPhonemizer.cs:50-61 | a VCV candidate is never the start-of-phrase candidate |
| `VcvProperties.VcvCandidate` | OpenUtau.Core/Phonetic/JapaneseVCVPhonemizer.cs:51-64 | for any table of vowel symbols, the candidate is `vow lyric` when the previous lyric's last grapheme is a key with value `vow`, and `- lyric` exactly when there is no such key |
| `VcvProperties.VcvCandidateIff` | OpenUtau.Core/Phonetic/JapaneseVCVPhonemizer.cs:50-64 | with the phonemizer's table the candidate is `vow lyric` with `vow` the vowel `TryGetVowel` gives the last grapheme, and `- lyric` exactly when there is no grapheme or it has no vowel |
| `VcvProperties.DecoratedIffClaimed` | OpenUtau.Core/Phonetic/JapaneseVCVPhonemizer.cs:65-67 | the first claiming set's `ApplyPrefixSuffix` decorates the candidate; with no claiming set it is unchanged |
| `VcvProperties.MappedOrRawLyric` | OpenUtau.Core/Phonetic/JapaneseVCVPhonemizer.cs:68-70 | without a hint the result is a phoneme the singer has at the note's tone, or else the raw lyric, and it is the decorated candidate when the singer has it and the raw lyric when it does not |
| `VcvProperties.VcvAfterA` | OpenUtau.Core/Phonetic/JapaneseVCVPhonemizer.cs:50-61 | with any table mapping あ to `a`, か after あ is `a か` |
| `VcvProperties.VcvAfterVowel` | OpenUtau.Core/Phonetic/JapaneseVCVPhonemizer.cs:50-70 | with a plain singer, か after あ resolves to `a か` |
| `VcvProperties.PhraseStart` | OpenUtau.Core/Phonetic/JapaneseVCVPhonemizer.cs:50-51 | か with no previous note resolves to `- か` |
| `VcvProperties.AfterSokuon` | OpenUtau.Core/Phonetic/JapaneseVCVPhonemizer.cs:58-63 | か after っ resolves to `- か` |
| `VcvProperties.MissingSample` | OpenUtau.Core/Phonetic/JapaneseVCVPhonemizer.cs:68-70 | a singer without the sample gets the raw lyric back |

## Left out

- The text format of the vowel lines (`"a=ぁ,あ,…"` split on `=` and `,`) is not modelled. The lines are given already split, with the same kana in the same order.
- `Name`, `Tag`, plugin registration and the thread safety of the static constructor are not modelled.
- The internals of `UOtoSet.StripPrefixSuffix`, `UOtoSet.ApplyPrefixSuffix`, `USinger.TryGetMappedOto` and `ToUnicodeElements` are not part of this model. They are arbitrary functions here, and every property holds for all of them.
- Only the `phoneme` field of `Phoneme` and the `lyric`, `phoneticHint` and `tone` fields of `Note` are modelled, the only ones `Process` reads or sets.
- Null lyrics are not modelled: a lyric is always a string. A null hint is `None`.
- `JapaneseVcvPhonemizer.Process`: the `NullReferenceException` on a missing singer (line 44) and the `IndexOutOfRangeException` on an empty note array (line 34) are preconditions, not modelled errors.
- `JapaneseVcvPhonemizer.Process`: the link between the class's `vowelLookup` and `VowelLookup()` is the constructor's postcondition. Properties about the source table are stated for `VowelLookup()`.
