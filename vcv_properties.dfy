/**
 * What `JapaneseVCVPhonemizer.Process` promises, stated over the functions
 * that specify it (`JapaneseVcv.Resolve` and its parts). `Process` returns
 * `Resolve` of its first note with the lookup table its constructor built,
 * which is `VowelLookup()`.
 */
module VcvProperties {
  import opened Wrappers
  import opened VowelData
  import opened VowelTable
  import opened JapaneseVcv

  /**
   * A note with a non-empty hint becomes that hint, whatever the singer (even
   * none), the segmentation, the table and the previous note: no oto set and
   * no sample lookup is consulted (lines 35-37).
   */
  lemma HintShortCircuit(note: Note, singer: Option<Singer>, unicode: string -> seq<string>, vowels: map<string, string>, prev: Option<Note>)
    requires HasHint(note)
    ensures Resolve(singer, unicode, vowels, note, prev) == note.phoneticHint.value
    ensures Resolve(singer, unicode, vowels, note, prev) == Resolve(None, unicode, map[], note, None)
  {
  }

  /** An empty hint is no hint (line 35): the note resolves as if it had none. */
  lemma EmptyHintIgnored(note: Note, singer: Singer, unicode: string -> seq<string>, vowels: map<string, string>, prev: Option<Note>)
    requires note.phoneticHint == Some("")
    ensures Resolve(Some(singer), unicode, vowels, note, prev)
         == Resolve(Some(singer), unicode, vowels, note.(phoneticHint := None), prev)
  {
  }

  /**
   * The scan stops at the first claim: sets after the first claiming one
   * change neither which set claims nor the value of the out-variable.
   */
  lemma {:induction false} ScanIgnoresLaterSets(sets: seq<OtoSet>, more: seq<OtoSet>, input: string, out: string)
    requires FirstClaim(sets, input).Some?
    ensures FirstClaim(sets + more, input) == FirstClaim(sets, input)
    ensures OutAfterScan(sets + more, input, out) == OutAfterScan(sets, input, out)
  {
    assert (sets + more)[0] == sets[0];
    if !Claims(sets[0], input) {
      assert (sets + more)[1..] == sets[1..] + more;
      ScanIgnoresLaterSets(sets[1..], more, input, sets[0].stripPrefixSuffix(input).1);
    }
  }

  /**
   * With at least one oto set, the previous note's hint has no effect: every
   * set overwrites the out-variable that started as `hint ?? lyric`
   * (lines 52-57).
   */
  lemma PrevHintIgnoredWithOtoSets(singer: Singer, prev: Note, hint: Option<string>)
    requires |singer.otoSets| > 0
    ensures ScannedPrevLyric(singer, prev) == ScannedPrevLyric(singer, prev.(phoneticHint := hint))
  {
  }

  /**
   * Without oto sets, the previous lyric is `hint ?? lyric`: an empty hint
   * is kept as the empty string (line 52).
   */
  lemma PrevHintUsedWithoutOtoSets(singer: Singer, prev: Note)
    requires singer.otoSets == []
    ensures ScannedPrevLyric(singer, prev) == if prev.phoneticHint.Some? then prev.phoneticHint.value else prev.lyric
    ensures prev.phoneticHint == Some("") ==> ScannedPrevLyric(singer, prev) == ""
  {
  }

  /** Without a previous note, the candidate is `- ` and the scanned lyric (line 50). */
  lemma CandidateWithoutPrev(singer: Singer, unicode: string -> seq<string>, vowels: map<string, string>, note: Note)
    ensures Candidate(singer, unicode, vowels, note, None) == "- " + ScannedLyric(singer, note)
  {
  }

  /** The last grapheme of the previous note's scanned lyric, if it has one. */
  function LastGrapheme(singer: Singer, unicode: string -> seq<string>, prev: Note): Option<string>
  {
    var graphemes := unicode(ScannedPrevLyric(singer, prev));
    if |graphemes| > 0 then Some(graphemes[|graphemes| - 1]) else None
  }

  /** No vowel symbol starts with `-`, so a VCV candidate never reads as a start-of-phrase one. */
  lemma SymbolsAreNotDash(v: string, lyric: string)
    requires v in VowelSymbols
    ensures v + " " + lyric != "- " + lyric
  {
    assert (v + " " + lyric)[0] == v[0];
  }

  /**
   * With a previous note and a table whose values are vowel symbols, the
   * candidate is `vow lyric` when the last grapheme of the previous lyric is
   * a key of the table with value `vow`, and `- lyric` exactly when there is
   * no grapheme or it is not a key (lines 51-63).
   */
  lemma VcvCandidate(singer: Singer, unicode: string -> seq<string>, vowels: map<string, string>, note: Note, prev: Note)
    requires forall g :: g in vowels ==> vowels[g] in VowelSymbols
    ensures var last := LastGrapheme(singer, unicode, prev);
      last.Some? && last.value in vowels ==>
      Candidate(singer, unicode, vowels, note, Some(prev)) == vowels[last.value] + " " + ScannedLyric(singer, note)
    ensures var last := LastGrapheme(singer, unicode, prev);
      Candidate(singer, unicode, vowels, note, Some(prev)) == "- " + ScannedLyric(singer, note)
      <==> last.None? || last.value !in vowels
  {
    var last := LastGrapheme(singer, unicode, prev);
    if last.Some? && last.value in vowels {
      SymbolsAreNotDash(vowels[last.value], ScannedLyric(singer, note));
    }
  }

  /**
   * With the phonemizer's own table, `vow` is the symbol `TryGetVowel`
   * gives for the last grapheme, the symbol of the table line that lists it.
   */
  lemma VcvCandidateIff(singer: Singer, unicode: string -> seq<string>, note: Note, prev: Note)
    ensures var last := LastGrapheme(singer, unicode, prev);
      last.Some? && TryGetVowel(last.value).Some? ==>
      Candidate(singer, unicode, VowelLookup(), note, Some(prev)) == TryGetVowel(last.value).value + " " + ScannedLyric(singer, note)
    ensures var last := LastGrapheme(singer, unicode, prev);
      Candidate(singer, unicode, VowelLookup(), note, Some(prev)) == "- " + ScannedLyric(singer, note)
      <==> last.None? || TryGetVowel(last.value).None?
  {
    VcvCandidate(singer, unicode, VowelLookup(), note, prev);
  }

  /**
   * The oto set that claimed the lyric decorates the candidate; when no set
   * claims it, the candidate is left as it is (lines 65-67).
   */
  lemma DecoratedIffClaimed(singer: Singer, note: Note, candidate: string)
    ensures forall k ::
      (0 <= k < |singer.otoSets| && Claims(singer.otoSets[k], note.lyric)
       && forall j :: 0 <= j < k ==> !Claims(singer.otoSets[j], note.lyric)) ==>
      Decorated(singer, note, candidate) == singer.otoSets[k].applyPrefixSuffix(candidate)
    ensures (forall j :: 0 <= j < |singer.otoSets| ==> !Claims(singer.otoSets[j], note.lyric)) ==>
      Decorated(singer, note, candidate) == candidate
  {
    forall k |
      0 <= k < |singer.otoSets| && Claims(singer.otoSets[k], note.lyric)
      && forall j :: 0 <= j < k ==> !Claims(singer.otoSets[j], note.lyric)
      ensures Decorated(singer, note, candidate) == singer.otoSets[k].applyPrefixSuffix(candidate)
    {
      ScanStopsAt(singer.otoSets, note.lyric, note.lyric, k);
    }
  }

  /**
   * Without a hint, the result is a phoneme the singer has a sample for at
   * the note's tone, or else the raw lyric of the note, not the scanned one
   * (lines 68-70): the decorated candidate when the singer has it, and the
   * raw lyric when it does not.
   */
  lemma MappedOrRawLyric(singer: Singer, unicode: string -> seq<string>, vowels: map<string, string>, note: Note, prev: Option<Note>)
    requires !HasHint(note)
    ensures var r := Resolve(Some(singer), unicode, vowels, note, prev);
      singer.tryGetMappedOto(r, note.tone) || r == note.lyric
    ensures var phoneme := Decorated(singer, note, Candidate(singer, unicode, vowels, note, prev));
      !singer.tryGetMappedOto(phoneme, note.tone) ==> Resolve(Some(singer), unicode, vowels, note, prev) == note.lyric
    ensures var phoneme := Decorated(singer, note, Candidate(singer, unicode, vowels, note, prev));
      singer.tryGetMappedOto(phoneme, note.tone) ==> Resolve(Some(singer), unicode, vowels, note, prev) == phoneme
  {
  }

  /** A singer with one oto set that claims every lyric as it is and decorates nothing, and every sample. */
  const PlainSinger: Singer :=
    Singer([OtoSet(lyric => (true, lyric), phoneme => phoneme)], (phoneme, tone) => true)

  /** A singer with no samples at all. */
  const SilentSinger: Singer :=
    Singer([OtoSet(lyric => (true, lyric), phoneme => phoneme)], (phoneme, tone) => false)

  /** Segmentation into single characters. */
  function PerChar(s: string): (r: seq<string>)
    ensures |r| == |s| && forall i :: 0 <= i < |s| ==> r[i] == [s[i]]
  {
    seq(|s|, i requires 0 <= i < |s| => [s[i]])
  }

  /** With any table that maps あ to `a`, か after あ is the VCV sample `a か`. */
  lemma VcvAfterA(vowels: map<string, string>)
    requires "あ" in vowels && vowels["あ"] == "a"
    ensures Resolve(Some(PlainSinger), PerChar, vowels, Note("か", None, 60), Some(Note("あ", None, 60))) == "a か"
  {
    var note, prev := Note("か", None, 60), Note("あ", None, 60);
    assert PlainSinger.otoSets[0].stripPrefixSuffix("か") == (true, "か");
    assert PlainSinger.otoSets[0].stripPrefixSuffix("あ") == (true, "あ");
    assert ScannedPrevLyric(PlainSinger, prev) == "あ";
    assert PerChar("あ") == ["あ"];
    assert Candidate(PlainSinger, PerChar, vowels, note, Some(prev)) == "a か";
  }

  /** か after あ is the VCV sample `a か`. */
  lemma VcvAfterVowel()
    ensures Resolve(Some(PlainSinger), PerChar, VowelLookup(), Note("か", None, 60), Some(Note("あ", None, 60))) == "a か"
  {
    KanaLookup();
    VcvAfterA(VowelLookup());
  }

  /** か with no previous note is the start-of-phrase sample `- か`. */
  lemma PhraseStart()
    ensures Resolve(Some(PlainSinger), PerChar, VowelLookup(), Note("か", None, 60), None) == "- か"
  {
  }

  /** After っ, which the table does not list, か is again `- か`. */
  lemma AfterSokuon()
    ensures Resolve(Some(PlainSinger), PerChar, VowelLookup(), Note("か", None, 60), Some(Note("っ", None, 60))) == "- か"
  {
    SokuonAndLongVowelAbsent();
    assert PerChar("っ") == ["っ"];
  }

  /** A singer without the sample gets the raw lyric back. */
  lemma MissingSample()
    ensures Resolve(Some(SilentSinger), PerChar, VowelLookup(), Note("か", None, 60), Some(Note("あ", None, 60))) == "か"
  {
  }
}
