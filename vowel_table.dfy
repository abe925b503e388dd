/**
 * The kana-to-vowel dictionary that the Japanese VCV phonemizer builds once,
 * when its type is initialised (OpenUtau.Core/Phonetic/JapaneseVCVPhonemizer.cs,
 * lines 17-26), and the lookup into it. The dictionary is built as the source
 * builds it: the lines are flattened into (kana, symbol) pairs in order
 * (`SelectMany`) and the pairs are added one by one to a dictionary
 * (`ToDictionary`), which fails on a key it already holds.
 */
module VowelTable {
  import opened Wrappers
  import opened VowelData

  /** The seven symbols the table can yield: five vowels, and `n`/`N` for the moraic nasal. */
  const VowelSymbols: set<string> := {"a", "e", "i", "o", "u", "n", "N"}

  /** The pairs one line contributes: `parts[1].Split(',').Select(cv => (cv, parts[0]))`. */
  function LinePairs(line: Line): seq<(string, string)>
  {
    seq(|line.1|, a requires 0 <= a < |line.1| => (line.1[a], line.0))
  }

  /** `SelectMany` over the lines: each line's pairs, in table order. */
  function SelectMany(lines: seq<Line>): seq<(string, string)>
  {
    if lines == [] then [] else LinePairs(lines[0]) + SelectMany(lines[1..])
  }

  /** No key occurs twice in the pair sequence. */
  predicate DistinctKeys<K(==), V>(pairs: seq<(K, V)>)
  {
    forall a, b :: 0 <= a < b < |pairs| ==> pairs[a].0 != pairs[b].0
  }

  /** `key` is the key of some pair. */
  predicate HasKey<K(==), V>(pairs: seq<(K, V)>, key: K)
  {
    exists a :: 0 <= a < |pairs| && pairs[a].0 == key
  }

  /**
   * `ToDictionary(t => t.Item1, t => t.Item2)`: adds the pairs in order and
   * throws on a key that is already present; `None` stands for that exception.
   */
  function ToDictionary<K(!new), V>(pairs: seq<(K, V)>): (r: Option<map<K, V>>)
    ensures r.Some? <==> DistinctKeys(pairs)
    ensures r.Some? ==> forall k :: k in r.value <==> HasKey(pairs, k)
    ensures r.Some? ==> forall a :: 0 <= a < |pairs| ==> pairs[a].0 in r.value && r.value[pairs[a].0] == pairs[a].1
  {
    if pairs == [] then Some(map[])
    else
      var init := pairs[..|pairs| - 1];
      var last := pairs[|pairs| - 1];
      SnocKeys(pairs);
      match ToDictionary(init)
      case None => None
      case Some(m) => if last.0 in m then None else Some(m[last.0 := last.1])
  }

  /** How the keys of a non-empty sequence of pairs relate to those of all but its last pair. */
  lemma SnocKeys<K, V>(pairs: seq<(K, V)>)
    requires pairs != []
    ensures forall a :: 0 <= a < |pairs| - 1 ==> pairs[..|pairs| - 1][a] == pairs[a]
    ensures forall k :: HasKey(pairs, k) <==> HasKey(pairs[..|pairs| - 1], k) || k == pairs[|pairs| - 1].0
    ensures DistinctKeys(pairs) <==> DistinctKeys(pairs[..|pairs| - 1]) && !HasKey(pairs[..|pairs| - 1], pairs[|pairs| - 1].0)
  {
    var init := pairs[..|pairs| - 1];
    assert forall a :: 0 <= a < |init| ==> init[a] == pairs[a];
    assert forall k :: HasKey(pairs, k) <==> HasKey(init, k) || k == pairs[|pairs| - 1].0 by {
      forall k | HasKey(pairs, k) && k != pairs[|pairs| - 1].0
        ensures HasKey(init, k)
      {
        var a :| 0 <= a < |pairs| && pairs[a].0 == k;
        assert init[a].0 == k;
      }
    }
  }

  /** No kana is listed twice, neither within one line nor across two lines. */
  predicate Disjoint(lines: seq<Line>)
  {
    forall i, a, j, b ::
      0 <= i < |lines| && 0 <= a < |lines[i].1| && 0 <= j < |lines| && 0 <= b < |lines[j].1| && (i != j || a != b)
      ==> lines[i].1[a] != lines[j].1[b]
  }

  /** `kana` is listed in line `i` of the table. */
  predicate ListedIn(lines: seq<Line>, kana: string, i: int)
  {
    0 <= i < |lines| && exists a :: 0 <= a < |lines[i].1| && lines[i].1[a] == kana
  }

  lemma DistinctKeysAppend<K, V>(p: seq<(K, V)>, q: seq<(K, V)>)
    ensures DistinctKeys(p + q) <==>
      DistinctKeys(p) && DistinctKeys(q) && forall a, b :: 0 <= a < |p| && 0 <= b < |q| ==> p[a].0 != q[b].0
  {
    var pq := p + q;
    if DistinctKeys(p) && DistinctKeys(q) && forall a, b :: 0 <= a < |p| && 0 <= b < |q| ==> p[a].0 != q[b].0 {
      forall a, b | 0 <= a < b < |pq| ensures pq[a].0 != pq[b].0 {
        if b < |p| {
        } else if a < |p| {
          assert pq[b] == q[b - |p|];
        } else {
          assert pq[a] == q[a - |p|] && pq[b] == q[b - |p|];
        }
      }
    }
    if DistinctKeys(pq) {
      forall a, b | 0 <= a < b < |p| ensures p[a].0 != p[b].0 {
        assert pq[a] == p[a] && pq[b] == p[b];
      }
      forall a, b | 0 <= a < b < |q| ensures q[a].0 != q[b].0 {
        assert pq[a + |p|] == q[a] && pq[b + |p|] == q[b];
      }
      forall a, b | 0 <= a < |p| && 0 <= b < |q| ensures p[a].0 != q[b].0 {
        assert pq[a] == p[a] && pq[b + |p|] == q[b];
      }
    }
  }

  /** A kana is a key of the flattened pairs exactly when some line lists it. */
  lemma {:induction false} SelectManyKeys(lines: seq<Line>, kana: string)
    ensures HasKey(SelectMany(lines), kana) <==> exists i :: ListedIn(lines, kana, i)
  {
    if lines != [] {
      var p, rest := LinePairs(lines[0]), lines[1..];
      SelectManyKeys(rest, kana);
      var r := SelectMany(rest);
      assert SelectMany(lines) == p + r;
      if HasKey(p + r, kana) {
        var a :| 0 <= a < |p + r| && (p + r)[a].0 == kana;
        if a < |p| {
          assert ListedIn(lines, kana, 0);
        } else {
          assert r[a - |p|].0 == kana;
          var i :| ListedIn(rest, kana, i);
          assert ListedIn(lines, kana, i + 1);
        }
      }
      if i :| ListedIn(lines, kana, i) {
        var b :| 0 <= b < |lines[i].1| && lines[i].1[b] == kana;
        if i == 0 {
          assert (p + r)[b].0 == kana;
        } else {
          assert ListedIn(rest, kana, i - 1);
          var c :| 0 <= c < |r| && r[c].0 == kana;
          assert (p + r)[|p| + c].0 == kana;
        }
      }
    }
  }

  /** Disjointness of a table, split into its first line and the rest. */
  lemma DisjointCons(lines: seq<Line>)
    requires lines != []
    ensures Disjoint(lines) <==>
      && DistinctKeys(LinePairs(lines[0]))
      && Disjoint(lines[1..])
      && forall a, i :: 0 <= a < |lines[0].1| ==> !ListedIn(lines[1..], lines[0].1[a], i)
  {
    var first, rest := lines[0].1, lines[1..];
    var p := LinePairs(lines[0]);
    if Disjoint(lines) {
      forall a, b | 0 <= a < b < |p| ensures p[a].0 != p[b].0 {
        assert p[a].0 == lines[0].1[a] && p[b].0 == lines[0].1[b];
      }
      forall i, a, j, b |
        0 <= i < |rest| && 0 <= a < |rest[i].1| && 0 <= j < |rest| && 0 <= b < |rest[j].1| && (i != j || a != b)
        ensures rest[i].1[a] != rest[j].1[b]
      {
        assert rest[i] == lines[i + 1] && rest[j] == lines[j + 1];
      }
      forall a, i | 0 <= a < |first| ensures !ListedIn(rest, first[a], i) {
        if 0 <= i < |rest| {
          forall b | 0 <= b < |rest[i].1| ensures rest[i].1[b] != first[a] {
            assert rest[i] == lines[i + 1];
          }
        }
      }
    }
    if && DistinctKeys(p)
       && Disjoint(rest)
       && forall a, i :: 0 <= a < |first| ==> !ListedIn(rest, first[a], i)
    {
      forall i, a, j, b |
        0 <= i < |lines| && 0 <= a < |lines[i].1| && 0 <= j < |lines| && 0 <= b < |lines[j].1| && (i != j || a != b)
        ensures lines[i].1[a] != lines[j].1[b]
      {
        if i == 0 && j == 0 {
          if a < b { assert p[a].0 != p[b].0; } else { assert p[b].0 != p[a].0; }
        } else if i == 0 {
          assert rest[j - 1].1[b] == lines[j].1[b];
          assert !ListedIn(rest, first[a], j - 1);
        } else if j == 0 {
          assert rest[i - 1].1[a] == lines[i].1[a];
          assert !ListedIn(rest, first[b], i - 1);
        } else {
          assert rest[i - 1] == lines[i] && rest[j - 1] == lines[j];
        }
      }
    }
  }

  /**
   * Flattening a table yields pairs with distinct keys exactly when no kana
   * is listed twice: the condition under which `ToDictionary` does not throw.
   */
  lemma {:induction false} DisjointIffDistinctKeys(lines: seq<Line>)
    ensures Disjoint(lines) <==> DistinctKeys(SelectMany(lines))
  {
    if lines != [] {
      var p, rest := LinePairs(lines[0]), lines[1..];
      var r := SelectMany(rest);
      assert SelectMany(lines) == p + r;
      DisjointIffDistinctKeys(rest);
      DistinctKeysAppend(p, r);
      forall a | 0 <= a < |p|
        ensures (forall b :: 0 <= b < |r| ==> p[a].0 != r[b].0) <==> forall i :: !ListedIn(rest, lines[0].1[a], i)
      {
        SelectManyKeys(rest, p[a].0);
      }
      assert (forall a, b :: 0 <= a < |p| && 0 <= b < |r| ==> p[a].0 != r[b].0) <==>
        forall a, i :: 0 <= a < |lines[0].1| ==> !ListedIn(rest, lines[0].1[a], i);
      DisjointCons(lines);
    }
  }

  /** Every listed kana is flattened into a pair with its line's symbol. */
  lemma {:induction false} SelectManyHasPair(lines: seq<Line>, i: nat, a: nat)
    requires i < |lines| && a < |lines[i].1|
    ensures (lines[i].1[a], lines[i].0) in SelectMany(lines)
  {
    var p, r := LinePairs(lines[0]), SelectMany(lines[1..]);
    assert SelectMany(lines) == p + r;
    if i == 0 {
      assert p[a] == (lines[0].1[a], lines[0].0);
    } else {
      assert lines[1..][i - 1] == lines[i];
      SelectManyHasPair(lines[1..], i - 1, a);
    }
  }

  /**
   * The dictionary built from a table, or `None` when `ToDictionary` throws.
   * It is built exactly when no kana is listed twice, and then it maps every
   * listed kana to the symbol of its line and holds no other key.
   */
  function BuildLookup(lines: seq<Line>): (r: Option<map<string, string>>)
    ensures r.Some? <==> Disjoint(lines)
    ensures r.Some? ==>
      forall i, a :: 0 <= i < |lines| && 0 <= a < |lines[i].1| ==>
        lines[i].1[a] in r.value && r.value[lines[i].1[a]] == lines[i].0
    ensures r.Some? ==> forall kana :: kana in r.value <==> exists i :: ListedIn(lines, kana, i)
  {
    DisjointIffDistinctKeys(lines);
    BuildLookupFacts(lines);
    ToDictionary(SelectMany(lines))
  }

  lemma BuildLookupFacts(lines: seq<Line>)
    ensures forall i, a :: 0 <= i < |lines| && 0 <= a < |lines[i].1| ==>
      (lines[i].1[a], lines[i].0) in SelectMany(lines)
    ensures forall kana :: HasKey(SelectMany(lines), kana) <==> exists i :: ListedIn(lines, kana, i)
  {
    forall i, a | 0 <= i < |lines| && 0 <= a < |lines[i].1|
      ensures (lines[i].1[a], lines[i].0) in SelectMany(lines)
    {
      SelectManyHasPair(lines, i, a);
    }
    forall kana ensures HasKey(SelectMany(lines), kana) <==> exists i :: ListedIn(lines, kana, i) {
      SelectManyKeys(lines, kana);
    }
  }


  lemma {:induction false} CodePointOrderIncreases(kana: seq<string>, a: nat, b: nat)
    requires InCodePointOrder(kana) && a < b < |kana|
    ensures kana[a][0] < kana[b][0]
    decreases b - a
  {
    if a + 1 < b {
      CodePointOrderIncreases(kana, a, b - 1);
    }
  }

  /**
   * A table is disjoint when each line is in code-point order (so repeats
   * nothing) and every line lies inside its own set, the sets being pairwise
   * disjoint.
   */
  lemma DisjointFromSets(lines: seq<Line>, sets: seq<set<char>>)
    requires |sets| == |lines|
    requires forall i :: 0 <= i < |lines| ==> InCodePointOrder(lines[i].1)
    requires forall i, a :: 0 <= i < |lines| && 0 <= a < |lines[i].1| ==> |lines[i].1[a]| == 1 && lines[i].1[a][0] in sets[i]
    requires forall i, j :: 0 <= i < j < |lines| ==> sets[i] !! sets[j]
    ensures Disjoint(lines)
  {
    forall i, a, j, b |
      0 <= i < |lines| && 0 <= a < |lines[i].1| && 0 <= j < |lines| && 0 <= b < |lines[j].1| && (i != j || a != b)
      ensures lines[i].1[a] != lines[j].1[b]
    {
      if i == j {
        if a < b {
          CodePointOrderIncreases(lines[i].1, a, b);
        } else {
          CodePointOrderIncreases(lines[i].1, b, a);
        }
      } else if i < j {
        assert lines[i].1[a][0] in sets[i] && lines[j].1[b][0] in sets[j];
      } else {
        assert lines[i].1[a][0] in sets[i] && lines[j].1[b][0] in sets[j];
      }
    }
  }

  /** Every value of a built dictionary is the symbol of some line. */
  lemma LookupValuesFromLines(lines: seq<Line>)
    requires BuildLookup(lines).Some?
    ensures forall kana :: kana in BuildLookup(lines).value ==>
      exists i :: 0 <= i < |lines| && BuildLookup(lines).value[kana] == lines[i].0
  {
    var m := BuildLookup(lines).value;
    forall kana | kana in m
      ensures exists i :: 0 <= i < |lines| && m[kana] == lines[i].0
    {
      var i :| ListedIn(lines, kana, i);
      var a :| 0 <= a < |lines[i].1| && lines[i].1[a] == kana;
    }
  }

  /** Each line of the source table is headed by a vowel symbol. */
  lemma LineSymbols()
    ensures forall i :: 0 <= i < |Vowels| ==> Vowels[i].0 in VowelSymbols
  {
  }

  /** No kana of the source table is listed twice, so `ToDictionary` does not throw. */
  lemma VowelsDisjoint()
    ensures Disjoint(Vowels)
  {
    LinesInCodePointOrder();
    LinesInSets();
    SetsPairwiseApart();
    DisjointFromSets(Vowels, KanaSets);
  }

  /**
   * `vowelLookup`, the dictionary the static constructor builds from the source
   * table (lines 19-26): building it does not throw, it maps every listed kana
   * to the symbol of its line, and it holds nothing else.
   */
  function VowelLookup(): (m: map<string, string>)
    ensures BuildLookup(Vowels) == Some(m)
    ensures forall i, a :: 0 <= i < |Vowels| && 0 <= a < |Vowels[i].1| ==>
      Vowels[i].1[a] in m && m[Vowels[i].1[a]] == Vowels[i].0
    ensures forall kana :: kana in m <==> exists i :: ListedIn(Vowels, kana, i)
    ensures forall kana :: kana in m ==> m[kana] in VowelSymbols
  {
    VowelsDisjoint();
    LookupValuesFromLines(Vowels);
    LineSymbols();
    BuildLookup(Vowels).value
  }

  /**
   * `vowelLookup.TryGetValue(grapheme, out var vow)` (line 60): the symbol of
   * the line that lists `grapheme`, or `None` when no line does.
   */
  function TryGetVowel(grapheme: string): (r: Option<string>)
    ensures r.Some? <==> exists i :: ListedIn(Vowels, grapheme, i)
    ensures forall i :: ListedIn(Vowels, grapheme, i) ==> r == Some(Vowels[i].0)
    ensures r.Some? ==> r.value in VowelSymbols
  {
    var m := VowelLookup();
    if grapheme in m then
      assert forall i :: ListedIn(Vowels, grapheme, i) ==> m[grapheme] == Vowels[i].0 by {
        forall i | ListedIn(Vowels, grapheme, i)
          ensures m[grapheme] == Vowels[i].0
        {
          var a :| 0 <= a < |Vowels[i].1| && Vowels[i].1[a] == grapheme;
        }
      }
      Some(m[grapheme])
    else
      None
  }

  /** A string that is not a single listed character is not a key. */
  lemma NotAKey(s: string)
    requires |s| != 1 || Unlisted(s[0])
    ensures TryGetVowel(s) == None
  {
    forall i | 0 <= i < |Vowels|
      ensures !ListedIn(Vowels, s, i)
    {
      if i == 0 {
        ALineLacks(s);
      } else if i == 1 {
        ELineLacks(s);
      } else if i == 2 {
        ILineLacks(s);
      } else if i == 3 {
        OLineLacks(s);
      } else if i == 5 {
        ULineLacks(s);
      }
    }
  }

  /** The moraic nasal maps to `n` in hiragana and to `N` in katakana. */
  lemma NasalLookup()
    ensures TryGetVowel("ん") == Some("n") && TryGetVowel("ン") == Some("N")
  {
    assert Vowels[4].1[0] == "ん" && Vowels[6].1[0] == "ン";
    assert ListedIn(Vowels, "ん", 4) && ListedIn(Vowels, "ン", 6);
  }

  /** A kana at position `a` of line `i` maps to that line's symbol. */
  lemma ListedKana(i: nat, a: nat)
    requires i < |Vowels| && a < |Vowels[i].1|
    ensures TryGetVowel(Vowels[i].1[a]) == Some(Vowels[i].0)
  {
    assert ListedIn(Vowels, Vowels[i].1[a], i);
  }

  /** あ, second on the `a` line, maps to `a`. */
  lemma HiraganaALookup()
    ensures TryGetVowel("あ") == Some("a")
  {
    ListedKana(0, 1);
    SampleKana();
  }

  /** ヴ, last on the `u` line, maps to `u`. */
  lemma KatakanaVuLookup()
    ensures TryGetVowel("ヴ") == Some("u")
  {
    ListedKana(5, 32);
    assert Vowels[5] == ("u", UKana);
  }

  /** を, last hiragana on the `o` line, maps to `o`. */
  lemma HiraganaWoLookup()
    ensures TryGetVowel("を") == Some("o")
  {
    ListedKana(3, 16);
    SampleKana();
  }

  /** A few kana from the middle and the ends of the lines. */
  lemma KanaLookup()
    ensures TryGetVowel("あ") == Some("a") && TryGetVowel("ヴ") == Some("u") && TryGetVowel("を") == Some("o")
  {
    HiraganaALookup();
    KatakanaVuLookup();
    HiraganaWoLookup();
  }

  /** The sokuon and the prolonged sound mark are not in the table. */
  lemma SokuonAndLongVowelAbsent()
    ensures TryGetVowel("っ") == None && TryGetVowel("ー") == None
  {
    SokuonUnlisted();
    LongVowelMarkUnlisted();
    NotAKey("っ");
    NotAKey("ー");
  }

  /** Neither the empty string, nor a Latin letter, nor a kana with a combining mark is a key. */
  lemma NonKanaAbsent()
    ensures TryGetVowel("") == None && TryGetVowel("a") == None && TryGetVowel("あ゙") == None
  {
    LatinUnlisted();
    NotAKey("");
    NotAKey("a");
    NotAKey("あ゙");
  }
}
