/**
 * The kana-to-vowel table of the Japanese VCV phonemizer
 * (OpenUtau.Core/Phonetic/JapaneseVCVPhonemizer.cs, lines 7-15), with the
 * facts about it that are checked on the literal data.
 *
 * Each source line reads `symbol=kana,kana,...`; here every line is already
 * split at `=` and `,` into its symbol and its list of kana.
 */
module VowelData {
  /** One table line: the vowel symbol and the kana that end in it. */
  type Line = (string, seq<string>)

  const AKana: seq<string> := ["ぁ", "あ", "か", "が", "さ", "ざ", "た", "だ", "な", "は", "ば", "ぱ", "ま", "ゃ", "や", "ら", "わ", "ァ", "ア", "カ", "ガ", "サ", "ザ", "タ", "ダ", "ナ", "ハ", "バ", "パ", "マ", "ャ", "ヤ", "ラ", "ワ"]
  const EKana: seq<string> := ["ぇ", "え", "け", "げ", "せ", "ぜ", "て", "で", "ね", "へ", "べ", "ぺ", "め", "れ", "ゑ", "ェ", "エ", "ケ", "ゲ", "セ", "ゼ", "テ", "デ", "ネ", "ヘ", "ベ", "ペ", "メ", "レ", "ヱ"]
  const IKana: seq<string> := ["ぃ", "い", "き", "ぎ", "し", "じ", "ち", "ぢ", "に", "ひ", "び", "ぴ", "み", "り", "ゐ", "ィ", "イ", "キ", "ギ", "シ", "ジ", "チ", "ヂ", "ニ", "ヒ", "ビ", "ピ", "ミ", "リ", "ヰ"]
  const OKana: seq<string> := ["ぉ", "お", "こ", "ご", "そ", "ぞ", "と", "ど", "の", "ほ", "ぼ", "ぽ", "も", "ょ", "よ", "ろ", "を", "ォ", "オ", "コ", "ゴ", "ソ", "ゾ", "ト", "ド", "ノ", "ホ", "ボ", "ポ", "モ", "ョ", "ヨ", "ロ", "ヲ"]
  const HiraganaN: seq<string> := ["ん"]
  const UKana: seq<string> := ["ぅ", "う", "く", "ぐ", "す", "ず", "つ", "づ", "ぬ", "ふ", "ぶ", "ぷ", "む", "ゅ", "ゆ", "る", "ゥ", "ウ", "ク", "グ", "ス", "ズ", "ツ", "ヅ", "ヌ", "フ", "ブ", "プ", "ム", "ュ", "ユ", "ル", "ヴ"]
  const KatakanaN: seq<string> := ["ン"]

  /** The table, lines 8-14, each line split at `=` and `,`. */
  const Vowels: seq<Line> := [
    ("a", AKana),
    ("e", EKana),
    ("i", IKana),
    ("o", OKana),
    ("n", HiraganaN),
    ("u", UKana),
    ("N", KatakanaN)
  ]

  /** Each kana is a single character and the list is in strictly increasing code-point order. */
  predicate InCodePointOrder(kana: seq<string>)
  {
    && (forall a :: 0 <= a < |kana| ==> |kana[a]| == 1)
    && (forall a :: 0 < a < |kana| ==> kana[a - 1][0] < kana[a][0])
  }

  /** Every character of the set lies below the Katakana block (U+30A1 onwards). */
  predicate BelowKatakana(s: set<char>)
  {
    forall c :: c in s ==> c < 'ァ'
  }

  /** Every character of the set lies in or above the Katakana block. */
  predicate FromKatakana(s: set<char>)
  {
    forall c :: c in s ==> 'ァ' <= c
  }

  /*
   * The characters of each line once more, as sets split by script, so that
   * the verifier can compare lines with set operations rather than element by
   * element. They serve only to prove that no kana is listed twice; they are
   * not a second table, and `LinesInSets` ties them to the lines above.
   */
  const AHiragana: set<char> := {'ぁ', 'あ', 'か', 'が', 'さ', 'ざ', 'た', 'だ', 'な', 'は', 'ば', 'ぱ', 'ま', 'ゃ', 'や', 'ら', 'わ'}
  const AKatakana: set<char> := {'ァ', 'ア', 'カ', 'ガ', 'サ', 'ザ', 'タ', 'ダ', 'ナ', 'ハ', 'バ', 'パ', 'マ', 'ャ', 'ヤ', 'ラ', 'ワ'}
  const EHiragana: set<char> := {'ぇ', 'え', 'け', 'げ', 'せ', 'ぜ', 'て', 'で', 'ね', 'へ', 'べ', 'ぺ', 'め', 'れ', 'ゑ'}
  const EKatakana: set<char> := {'ェ', 'エ', 'ケ', 'ゲ', 'セ', 'ゼ', 'テ', 'デ', 'ネ', 'ヘ', 'ベ', 'ペ', 'メ', 'レ', 'ヱ'}
  const IHiragana: set<char> := {'ぃ', 'い', 'き', 'ぎ', 'し', 'じ', 'ち', 'ぢ', 'に', 'ひ', 'び', 'ぴ', 'み', 'り', 'ゐ'}
  const IKatakana: set<char> := {'ィ', 'イ', 'キ', 'ギ', 'シ', 'ジ', 'チ', 'ヂ', 'ニ', 'ヒ', 'ビ', 'ピ', 'ミ', 'リ', 'ヰ'}
  const OHiragana: set<char> := {'ぉ', 'お', 'こ', 'ご', 'そ', 'ぞ', 'と', 'ど', 'の', 'ほ', 'ぼ', 'ぽ', 'も', 'ょ', 'よ', 'ろ', 'を'}
  const OKatakana: set<char> := {'ォ', 'オ', 'コ', 'ゴ', 'ソ', 'ゾ', 'ト', 'ド', 'ノ', 'ホ', 'ボ', 'ポ', 'モ', 'ョ', 'ヨ', 'ロ', 'ヲ'}
  const UHiragana: set<char> := {'ぅ', 'う', 'く', 'ぐ', 'す', 'ず', 'つ', 'づ', 'ぬ', 'ふ', 'ぶ', 'ぷ', 'む', 'ゅ', 'ゆ', 'る'}
  const UKatakana: set<char> := {'ゥ', 'ウ', 'ク', 'グ', 'ス', 'ズ', 'ツ', 'ヅ', 'ヌ', 'フ', 'ブ', 'プ', 'ム', 'ュ', 'ユ', 'ル', 'ヴ'}

  /** Per line of `Vowels`, the set of its characters. */
  const AChars: set<char> := AHiragana + AKatakana
  const EChars: set<char> := EHiragana + EKatakana
  const IChars: set<char> := IHiragana + IKatakana
  const OChars: set<char> := OHiragana + OKatakana
  const UChars: set<char> := UHiragana + UKatakana
  const KanaSets: seq<set<char>> := [AChars, EChars, IChars, OChars, {'ん'}, UChars, {'ン'}]

  /** Every kana of a line is one character, in code-point order (checked line by line). */
  lemma AKanaSingle() ensures forall a :: 0 <= a < |AKana| ==> |AKana[a]| == 1 {}
  lemma AKanaInOrder() ensures InCodePointOrder(AKana) { AKanaSingle(); }
  lemma EKanaSingle() ensures forall a :: 0 <= a < |EKana| ==> |EKana[a]| == 1 {}
  lemma EKanaInOrder() ensures InCodePointOrder(EKana) { EKanaSingle(); }
  lemma IKanaSingle() ensures forall a :: 0 <= a < |IKana| ==> |IKana[a]| == 1 {}
  lemma IKanaInOrder() ensures InCodePointOrder(IKana) { IKanaSingle(); }
  lemma OKanaSingle() ensures forall a :: 0 <= a < |OKana| ==> |OKana[a]| == 1 {}
  lemma OKanaInOrder() ensures InCodePointOrder(OKana) { OKanaSingle(); }
  lemma UKanaSingle() ensures forall a :: 0 <= a < |UKana| ==> |UKana[a]| == 1 {}
  lemma UKanaInOrder() ensures InCodePointOrder(UKana) { UKanaSingle(); }

  /** Each line lists its kana in code-point order. */
  lemma LinesInCodePointOrder()
    ensures forall i :: 0 <= i < |Vowels| ==> InCodePointOrder(Vowels[i].1)
  {
    AKanaInOrder();
    EKanaInOrder();
    IKanaInOrder();
    OKanaInOrder();
    UKanaInOrder();
    assert InCodePointOrder(HiraganaN) && InCodePointOrder(KatakanaN);
  }

  /** The first kana of each line are its hiragana, the rest its katakana. */
  lemma ALineInSet()
    ensures forall a :: 0 <= a < 17 ==> AKana[a][0] in AHiragana
    ensures forall a :: 17 <= a < |AKana| ==> AKana[a][0] in AKatakana
  {}
  lemma ELineInSet()
    ensures forall a :: 0 <= a < 15 ==> EKana[a][0] in EHiragana
    ensures forall a :: 15 <= a < |EKana| ==> EKana[a][0] in EKatakana
  {}
  lemma ILineInSet()
    ensures forall a :: 0 <= a < 15 ==> IKana[a][0] in IHiragana
    ensures forall a :: 15 <= a < |IKana| ==> IKana[a][0] in IKatakana
  {}
  lemma OLineInSet()
    ensures forall a :: 0 <= a < 17 ==> OKana[a][0] in OHiragana
    ensures forall a :: 17 <= a < |OKana| ==> OKana[a][0] in OKatakana
  {}
  lemma ULineInSet()
    ensures forall a :: 0 <= a < 16 ==> UKana[a][0] in UHiragana
    ensures forall a :: 16 <= a < |UKana| ==> UKana[a][0] in UKatakana
  {}

  /** A character that none of the lines lists. */
  predicate Unlisted(c: char)
  {
    && c !in AHiragana && c !in AKatakana && c !in EHiragana && c !in EKatakana
    && c !in IHiragana && c !in IKatakana && c !in OHiragana && c !in OKatakana
    && c != 'ん' && c !in UHiragana && c !in UKatakana && c != 'ン'
  }

  /** The sokuon, the prolonged sound mark and the Latin letter `a` are on no line. */
  lemma SokuonUnlisted() ensures Unlisted('っ') {}
  lemma LongVowelMarkUnlisted() ensures Unlisted('ー') {}
  /** あ is second on the `a` line, を the last hiragana on the `o` line. */
  lemma SampleKana()
    ensures Vowels[0] == ("a", AKana) && AKana[1] == "あ"
    ensures Vowels[3] == ("o", OKana) && OKana[16] == "を"
  {
  }

  lemma LatinUnlisted() ensures Unlisted('a') {}

  /** A string that is not a single character of a line's sets is none of its kana. */
  lemma ALineLacks(s: string)
    requires |s| != 1 || (s[0] !in AHiragana && s[0] !in AKatakana)
    ensures forall a :: 0 <= a < |AKana| ==> AKana[a] != s
  {
    AKanaSingle();
    ALineInSet();
  }

  lemma ELineLacks(s: string)
    requires |s| != 1 || (s[0] !in EHiragana && s[0] !in EKatakana)
    ensures forall a :: 0 <= a < |EKana| ==> EKana[a] != s
  {
    EKanaSingle();
    ELineInSet();
  }

  lemma ILineLacks(s: string)
    requires |s| != 1 || (s[0] !in IHiragana && s[0] !in IKatakana)
    ensures forall a :: 0 <= a < |IKana| ==> IKana[a] != s
  {
    IKanaSingle();
    ILineInSet();
  }

  lemma OLineLacks(s: string)
    requires |s| != 1 || (s[0] !in OHiragana && s[0] !in OKatakana)
    ensures forall a :: 0 <= a < |OKana| ==> OKana[a] != s
  {
    OKanaSingle();
    OLineInSet();
  }

  lemma ULineLacks(s: string)
    requires |s| != 1 || (s[0] !in UHiragana && s[0] !in UKatakana)
    ensures forall a :: 0 <= a < |UKana| ==> UKana[a] != s
  {
    UKanaSingle();
    ULineInSet();
  }

  /** The character of every kana a line lists is in that line's set. */
  lemma LinesInSets()
    ensures forall i, a :: 0 <= i < |Vowels| && 0 <= a < |Vowels[i].1| ==> |Vowels[i].1[a]| == 1 && Vowels[i].1[a][0] in KanaSets[i]
  {
    LinesInCodePointOrder();
    ALineInSet();
    ELineInSet();
    ILineInSet();
    OLineInSet();
    ULineInSet();
    assert HiraganaN[0][0] in KanaSets[4] && KatakanaN[0][0] in KanaSets[6];
  }

  /** Each hiragana half lies below the Katakana block, each katakana half in it. */
  lemma AScripts() ensures BelowKatakana(AHiragana) && FromKatakana(AKatakana) {}
  lemma EScripts() ensures BelowKatakana(EHiragana) && FromKatakana(EKatakana) {}
  lemma IScripts() ensures BelowKatakana(IHiragana) && FromKatakana(IKatakana) {}
  lemma OScripts() ensures BelowKatakana(OHiragana) && FromKatakana(OKatakana) {}
  lemma UScripts() ensures BelowKatakana(UHiragana) && FromKatakana(UKatakana) {}

  /** Within one script, two lines share no character. */
  lemma AEHiraganaApart() ensures AHiragana !! EHiragana {}
  lemma AIHiraganaApart() ensures AHiragana !! IHiragana {}
  lemma AOHiraganaApart() ensures AHiragana !! OHiragana {}
  lemma AUHiraganaApart() ensures AHiragana !! UHiragana {}
  lemma EIHiraganaApart() ensures EHiragana !! IHiragana {}
  lemma EOHiraganaApart() ensures EHiragana !! OHiragana {}
  lemma EUHiraganaApart() ensures EHiragana !! UHiragana {}
  lemma IOHiraganaApart() ensures IHiragana !! OHiragana {}
  lemma IUHiraganaApart() ensures IHiragana !! UHiragana {}
  lemma OUHiraganaApart() ensures OHiragana !! UHiragana {}
  lemma AEKatakanaApart() ensures AKatakana !! EKatakana {}
  lemma AIKatakanaApart() ensures AKatakana !! IKatakana {}
  lemma AOKatakanaApart() ensures AKatakana !! OKatakana {}
  lemma AUKatakanaApart() ensures AKatakana !! UKatakana {}
  lemma EIKatakanaApart() ensures EKatakana !! IKatakana {}
  lemma EOKatakanaApart() ensures EKatakana !! OKatakana {}
  lemma EUKatakanaApart() ensures EKatakana !! UKatakana {}
  lemma IOKatakanaApart() ensures IKatakana !! OKatakana {}
  lemma IUKatakanaApart() ensures IKatakana !! UKatakana {}
  lemma OUKatakanaApart() ensures OKatakana !! UKatakana {}

  /** Sets of different scripts never meet. */
  lemma ScriptsApart(h: set<char>, k: set<char>)
    requires BelowKatakana(h) && FromKatakana(k)
    ensures h !! k
  {
    forall c | c in h
      ensures c !in k
    {
    }
  }

  /** Two lines whose halves are apart script by script are apart. */
  lemma HalvesApart(xh: set<char>, xk: set<char>, yh: set<char>, yk: set<char>)
    requires BelowKatakana(xh) && FromKatakana(xk) && BelowKatakana(yh) && FromKatakana(yk)
    requires xh !! yh && xk !! yk
    ensures xh + xk !! yh + yk
  {
    ScriptsApart(xh, yk);
    ScriptsApart(yh, xk);
  }

  lemma AELinesApart() ensures AChars !! EChars
  {
    AScripts();
    EScripts();
    AEHiraganaApart();
    AEKatakanaApart();
    HalvesApart(AHiragana, AKatakana, EHiragana, EKatakana);
  }

  lemma AILinesApart() ensures AChars !! IChars
  {
    AScripts();
    IScripts();
    AIHiraganaApart();
    AIKatakanaApart();
    HalvesApart(AHiragana, AKatakana, IHiragana, IKatakana);
  }

  lemma AOLinesApart() ensures AChars !! OChars
  {
    AScripts();
    OScripts();
    AOHiraganaApart();
    AOKatakanaApart();
    HalvesApart(AHiragana, AKatakana, OHiragana, OKatakana);
  }

  lemma AULinesApart() ensures AChars !! UChars
  {
    AScripts();
    UScripts();
    AUHiraganaApart();
    AUKatakanaApart();
    HalvesApart(AHiragana, AKatakana, UHiragana, UKatakana);
  }

  lemma EILinesApart() ensures EChars !! IChars
  {
    EScripts();
    IScripts();
    EIHiraganaApart();
    EIKatakanaApart();
    HalvesApart(EHiragana, EKatakana, IHiragana, IKatakana);
  }

  lemma EOLinesApart() ensures EChars !! OChars
  {
    EScripts();
    OScripts();
    EOHiraganaApart();
    EOKatakanaApart();
    HalvesApart(EHiragana, EKatakana, OHiragana, OKatakana);
  }

  lemma EULinesApart() ensures EChars !! UChars
  {
    EScripts();
    UScripts();
    EUHiraganaApart();
    EUKatakanaApart();
    HalvesApart(EHiragana, EKatakana, UHiragana, UKatakana);
  }

  lemma IOLinesApart() ensures IChars !! OChars
  {
    IScripts();
    OScripts();
    IOHiraganaApart();
    IOKatakanaApart();
    HalvesApart(IHiragana, IKatakana, OHiragana, OKatakana);
  }

  lemma IULinesApart() ensures IChars !! UChars
  {
    IScripts();
    UScripts();
    IUHiraganaApart();
    IUKatakanaApart();
    HalvesApart(IHiragana, IKatakana, UHiragana, UKatakana);
  }

  lemma OULinesApart() ensures OChars !! UChars
  {
    OScripts();
    UScripts();
    OUHiraganaApart();
    OUKatakanaApart();
    HalvesApart(OHiragana, OKatakana, UHiragana, UKatakana);
  }

  /** Neither moraic nasal is listed on another line. */
  lemma ANasalsApart() ensures 'ん' !in AChars && 'ン' !in AChars
  {
    AScripts();
    assert 'ん' !in AHiragana && 'ン' !in AKatakana;
  }

  lemma ENasalsApart() ensures 'ん' !in EChars && 'ン' !in EChars
  {
    EScripts();
    assert 'ん' !in EHiragana && 'ン' !in EKatakana;
  }

  lemma INasalsApart() ensures 'ん' !in IChars && 'ン' !in IChars
  {
    IScripts();
    assert 'ん' !in IHiragana && 'ン' !in IKatakana;
  }

  lemma ONasalsApart() ensures 'ん' !in OChars && 'ン' !in OChars
  {
    OScripts();
    assert 'ん' !in OHiragana && 'ン' !in OKatakana;
  }

  lemma UNasalsApart() ensures 'ん' !in UChars && 'ン' !in UChars
  {
    UScripts();
    assert 'ん' !in UHiragana && 'ン' !in UKatakana;
  }

  lemma ALineApart() ensures forall j :: 0 < j < |KanaSets| ==> KanaSets[0] !! KanaSets[j]
  {
    AELinesApart();
    AILinesApart();
    AOLinesApart();
    AULinesApart();
    ANasalsApart();
  }

  lemma ELineApart() ensures forall j :: 1 < j < |KanaSets| ==> KanaSets[1] !! KanaSets[j]
  {
    EILinesApart();
    EOLinesApart();
    EULinesApart();
    ENasalsApart();
    UNasalsApart();
  }

  lemma ILineApart() ensures forall j :: 2 < j < |KanaSets| ==> KanaSets[2] !! KanaSets[j]
  {
    IOLinesApart();
    IULinesApart();
    INasalsApart();
    UNasalsApart();
  }

  lemma OLineApart() ensures forall j :: 3 < j < |KanaSets| ==> KanaSets[3] !! KanaSets[j]
  {
    OULinesApart();
    ONasalsApart();
    UNasalsApart();
  }

  lemma HiraganaNLineApart() ensures forall j :: 4 < j < |KanaSets| ==> KanaSets[4] !! KanaSets[j]
  {
    UNasalsApart();
  }

  lemma ULineApart() ensures forall j :: 5 < j < |KanaSets| ==> KanaSets[5] !! KanaSets[j]
  {
    UNasalsApart();
  }

  /** Two different lines of the table share no character. */
  lemma SetsPairwiseApart()
    ensures forall i, j :: 0 <= i < j < |KanaSets| ==> KanaSets[i] !! KanaSets[j]
  {
    forall i, j | 0 <= i < j < |KanaSets|
      ensures KanaSets[i] !! KanaSets[j]
    {
      if i == 0 {
        ALineApart();
      } else if i == 1 {
        ELineApart();
      } else if i == 2 {
        ILineApart();
      } else if i == 3 {
        OLineApart();
      } else if i == 4 {
        HiraganaNLineApart();
      } else {
        ULineApart();
      }
    }
  }
}
