/**
 * The Japanese VCV phonemizer of OpenUtau
 * (OpenUtau.Core/Phonetic/JapaneseVCVPhonemizer.cs): it turns the first note
 * of a group into one phoneme, the name of a voicebank sample. With an
 * explicit phonetic hint the hint wins. Otherwise the lyric is looked up in
 * the singer's oto sets, prefixed with the vowel the previous note ends in
 * (or with `-` when there is none), re-decorated by the oto set that claimed
 * the lyric, and replaced by the raw lyric when the singer has no such sample
 * at the note's tone.
 *
 * The singer's oto sets, its sample lookup and the grapheme segmentation are
 * outside this file in the source; they are given here as functions.
 */
module JapaneseVcv {
  import opened Wrappers
  import opened VowelTable

  /** A note as the phonemizer reads it. `phoneticHint` is `None` where the source holds null. */
  datatype Note = Note(lyric: string, phoneticHint: Option<string>, tone: int)

  /** A phoneme as the phonemizer returns it: only its name is set. */
  datatype Phoneme = Phoneme(phoneme: string)

  /**
   * One oto set of a singer (`UOtoSet`), seen through the two operations the
   * phonemizer calls. `stripPrefixSuffix(lyric)` is `StripPrefixSuffix(lyric,
   * out stripped)`: whether the set claims the lyric, and the value it writes
   * to the out-parameter, which it writes whether it claims or not.
   * `applyPrefixSuffix` decorates a phoneme with the set's prefix and suffix.
   */
  datatype OtoSet = OtoSet(stripPrefixSuffix: string -> (bool, string), applyPrefixSuffix: string -> string)

  /**
   * A singer (`USinger`): its oto sets in order, and `tryGetMappedOto(phoneme,
   * tone)`, whether `TryGetMappedOto` finds a sample for the phoneme at that tone.
   */
  datatype Singer = Singer(otoSets: seq<OtoSet>, tryGetMappedOto: (string, int) -> bool)

  /** `!string.IsNullOrEmpty(note.phoneticHint)` (line 35): null and "" are both no hint. */
  predicate HasHint(note: Note)
  {
    note.phoneticHint.Some? && note.phoneticHint.value != ""
  }

  /** `prevNeighbour?.phoneticHint ?? prevNeighbour?.lyric` (line 52): an empty hint is kept. */
  function HintOrLyric(note: Note): string
  {
    match note.phoneticHint
    case Some(hint) => hint
    case None => note.lyric
  }

  /** Whether the oto set claims `input`. */
  predicate Claims(otoSet: OtoSet, input: string)
  {
    otoSet.stripPrefixSuffix(input).0
  }

  /**
   * The index of the set a `foreach` over `sets` that breaks on the first
   * claim stops at, or `None` when it runs to the end.
   */
  function FirstClaim(sets: seq<OtoSet>, input: string): (r: Option<nat>)
    ensures r.Some? ==> r.value < |sets| && Claims(sets[r.value], input)
    ensures r.Some? ==> forall k :: 0 <= k < r.value ==> !Claims(sets[k], input)
    ensures r.None? <==> forall k :: 0 <= k < |sets| ==> !Claims(sets[k], input)
  {
    if sets == [] then None
    else if Claims(sets[0], input) then Some(0)
    else
      match FirstClaim(sets[1..], input)
      case None => None
      case Some(k) => Some(k + 1)
  }

  /**
   * The value of the out-variable after that `foreach`: every
   * `StripPrefixSuffix` call overwrites it, so it holds the claiming set's
   * value, or the last set's value when no set claims, and keeps `out` only
   * when there are no sets at all.
   */
  function OutAfterScan(sets: seq<OtoSet>, input: string, out: string): (r: string)
    ensures sets == [] ==> r == out
    ensures FirstClaim(sets, input).Some? ==> r == sets[FirstClaim(sets, input).value].stripPrefixSuffix(input).1
    ensures sets != [] && FirstClaim(sets, input).None? ==> r == sets[|sets| - 1].stripPrefixSuffix(input).1
  {
    if sets == [] then out
    else
      var (claimed, stripped) := sets[0].stripPrefixSuffix(input);
      if claimed then stripped else OutAfterScan(sets[1..], input, stripped)
  }

  /** A scan that reaches a claiming set `k` after `k` refusals stops there, with that set's value. */
  lemma ScanStopsAt(sets: seq<OtoSet>, input: string, out: string, k: nat)
    requires k < |sets| && Claims(sets[k], input)
    requires forall j :: 0 <= j < k ==> !Claims(sets[j], input)
    ensures FirstClaim(sets, input) == Some(k)
    ensures OutAfterScan(sets, input, out) == sets[k].stripPrefixSuffix(input).1
  {
  }

  /** A scan that no set stops ends with the last set's value, or with `out` when there are no sets. */
  lemma ScanRunsOut(sets: seq<OtoSet>, input: string, out: string)
    requires forall j :: 0 <= j < |sets| ==> !Claims(sets[j], input)
    ensures FirstClaim(sets, input) == None
    ensures OutAfterScan(sets, input, out) == if sets == [] then out else sets[|sets| - 1].stripPrefixSuffix(input).1
  {
  }

  /**
   * The `foreach` over the oto sets (lines 42-49 and 53-57): the out-variable
   * starts as `init` and every set overwrites it; the loop stops at the first
   * set that claims `input`, which it returns.
   */
  method Scan(sets: seq<OtoSet>, input: string, init: string) returns (otoSet: Option<OtoSet>, out: string)
    ensures FirstClaim(sets, input).None? ==> otoSet == None
    ensures FirstClaim(sets, input).Some? ==> otoSet == Some(sets[FirstClaim(sets, input).value])
    ensures out == OutAfterScan(sets, input, init)
  {
    otoSet := None;
    out := init;
    var k := 0;
    while k < |sets|
      invariant k <= |sets|
      invariant forall j :: 0 <= j < k ==> !Claims(sets[j], input)
      invariant out == if k == 0 then init else sets[k - 1].stripPrefixSuffix(input).1
    {
      var claimed;
      claimed, out := sets[k].stripPrefixSuffix(input).0, sets[k].stripPrefixSuffix(input).1;
      if claimed {
        otoSet := Some(sets[k]);
        ScanStopsAt(sets, input, init, k);
        return;
      }
      k := k + 1;
    }
    ScanRunsOut(sets, input, init);
  }

  /** The current lyric after the first scan (lines 42-49). */
  function ScannedLyric(singer: Singer, note: Note): string
  {
    OutAfterScan(singer.otoSets, note.lyric, note.lyric)
  }

  /** The previous lyric after the second scan (lines 52-57). */
  function ScannedPrevLyric(singer: Singer, prev: Note): string
  {
    OutAfterScan(singer.otoSets, prev.lyric, HintOrLyric(prev))
  }

  /**
   * The vowel the previous note ends in (lines 51-63): the table's symbol for
   * the last grapheme of the scanned previous lyric, if there is one.
   */
  function PrevVowel(singer: Singer, unicode: string -> seq<string>, vowels: map<string, string>, prev: Option<Note>): Option<string>
  {
    match prev
    case None => None
    case Some(p) =>
      var graphemes := unicode(ScannedPrevLyric(singer, p));
      if |graphemes| > 0 && graphemes[|graphemes| - 1] in vowels then Some(vowels[graphemes[|graphemes| - 1]]) else None
  }

  /** The phoneme before decoration (lines 50-64). */
  function Candidate(singer: Singer, unicode: string -> seq<string>, vowels: map<string, string>, note: Note, prev: Option<Note>): string
  {
    match PrevVowel(singer, unicode, vowels, prev)
    case None => "- " + ScannedLyric(singer, note)
    case Some(vow) => vow + " " + ScannedLyric(singer, note)
  }

  /** The candidate as decorated by the set that claimed the lyric, if any (lines 65-67). */
  function Decorated(singer: Singer, note: Note, candidate: string): string
  {
    match FirstClaim(singer.otoSets, note.lyric)
    case None => candidate
    case Some(k) => singer.otoSets[k].applyPrefixSuffix(candidate)
  }

  /**
   * The name of the one phoneme `Process` returns for `note`. Without a hint
   * the source dereferences the singer (line 44), so one is required then.
   */
  function Resolve(singer: Option<Singer>, unicode: string -> seq<string>, vowels: map<string, string>, note: Note, prev: Option<Note>): string
    requires HasHint(note) || singer.Some?
  {
    if HasHint(note) then note.phoneticHint.value
    else
      var s := singer.value;
      var phoneme := Decorated(s, note, Candidate(s, unicode, vowels, note, prev));
      if s.tryGetMappedOto(phoneme, note.tone) then phoneme else note.lyric
  }

  /**
   * The phonemizer. `singer` is `None` until `SetSinger` is called.
   * `toUnicodeElements` is the base class's grapheme segmentation.
   */
  class JapaneseVcvPhonemizer {
    var singer: Option<Singer>
    const toUnicodeElements: string -> seq<string>
    /** The static `vowelLookup` dictionary (line 26), built once from the vowel table. */
    const vowelLookup: map<string, string>

    constructor(toUnicodeElements: string -> seq<string>)
      ensures singer == None && this.toUnicodeElements == toUnicodeElements
      ensures vowelLookup == VowelLookup()
    {
      singer := None;
      this.toUnicodeElements := toUnicodeElements;
      vowelLookup := VowelLookup();
    }

    /** `SetSinger` (line 32). */
    method SetSinger(singer: Option<Singer>)
      modifies this
      ensures this.singer == singer
    {
      this.singer := singer;
    }

    /**
     * `Process` (lines 33-76): exactly one phoneme, which depends on the
     * first note, the previous neighbour and the singer only.
     */
    method Process(notes: seq<Note>, prevNeighbour: Option<Note>, nextNeighbour: Option<Note>) returns (phonemes: seq<Phoneme>)
      requires |notes| > 0
      requires HasHint(notes[0]) || singer.Some?
      ensures |phonemes| == 1
      ensures phonemes[0].phoneme == Resolve(singer, toUnicodeElements, vowelLookup, notes[0], prevNeighbour)
    {
      var note := notes[0];
      if HasHint(note) {
        return [Phoneme(note.phoneticHint.value)];
      }
      var sets := singer.value.otoSets;
      var otoSet, lyric := Scan(sets, note.lyric, note.lyric);
      assert lyric == ScannedLyric(singer.value, note);
      var phoneme := "- " + lyric;
      if prevNeighbour.Some? {
        var prev := prevNeighbour.value;
        var _, prevLyric := Scan(sets, prev.lyric, HintOrLyric(prev));
        assert prevLyric == ScannedPrevLyric(singer.value, prev);
        var unicode := toUnicodeElements(prevLyric);
        if |unicode| > 0 && unicode[|unicode| - 1] in vowelLookup {
          var vow := vowelLookup[unicode[|unicode| - 1]];
          phoneme := vow + " " + lyric;
        }
      }
      assert phoneme == Candidate(singer.value, toUnicodeElements, vowelLookup, note, prevNeighbour);
      if otoSet.Some? {
        phoneme := otoSet.value.applyPrefixSuffix(phoneme);
      }
      assert phoneme == Decorated(singer.value, note, Candidate(singer.value, toUnicodeElements, vowelLookup, note, prevNeighbour));
      if !singer.value.tryGetMappedOto(phoneme, note.tone) {
        phoneme := note.lyric;
      }
      return [Phoneme(phoneme)];
    }
  }
}
