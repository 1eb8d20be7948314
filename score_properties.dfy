/** Properties of the Flounder Score: the empty and unscored inputs, case
    insensitivity, additivity over concatenation, bounds, how the to-the-max
    score relates to the plain score, a letter-count characterisation of the
    score, agreement of the ambiguity table with the IUPAC-IUB nomenclature,
    and the concrete values the test suite relies on. */
module ScoreProperties {
  import opened Casing
  import opened FlounderScore

  // ---------------------------------------------------------------------------
  // The tables

  /** SCORES has exactly the letters A-Z as keys. */
  lemma ScoresKeys(c: char)
    ensures c in Scores <==> IsUpper(c)
  {
  }

  /** Every base the ambiguity table knows also has a weight of its own. */
  lemma IuapcBasesAreScored()
    ensures forall b :: b in Iuapc ==> b in Scores
  {
  }

  /** Looking a character up in SCORES, with 0 as the default, gives the
      weight LetterWeight lists for it. */
  lemma WeightIsLetterWeight()
    ensures forall c :: Weight(c) == LetterWeight(c)
  {
  }

  /** What score_to_the_max adds for one occurrence of each base: the score
      of the base's ambiguity codes. */
  function AmbiguityBonus(base: char): nat
  {
    match base
    case 'G' => 17
    case 'T' => 23
    case 'U' => 23
    case 'A' => 19
    case 'C' => 20
    case _ => 0
  }

  // The ambiguity strings of the table, scored. Each proof evaluates the sum
  // one suffix at a time, from the last letter back to the first.

  /** The codes "RSKBDVN" score 17. */
  lemma CodesScoreG()
    ensures Score("RSKBDVN") == 17
  {
    WeightIsLetterWeight();
    assert "N"[1..] == "";
    assert SumWeights("N") == 1;
    assert "VN"[1..] == "N";
    assert SumWeights("VN") == 5;
    assert "DVN"[1..] == "VN";
    assert SumWeights("DVN") == 7;
    assert "BDVN"[1..] == "DVN";
    assert SumWeights("BDVN") == 10;
    assert "KBDVN"[1..] == "BDVN";
    assert SumWeights("KBDVN") == 15;
    assert "SKBDVN"[1..] == "KBDVN";
    assert SumWeights("SKBDVN") == 16;
    assert "RSKBDVN"[1..] == "SKBDVN";
    assert SumWeights("RSKBDVN") == 17;
    assert Upper("RSKBDVN") == "RSKBDVN";
  }

  /** The codes "YWKBDHN" score 23. */
  lemma CodesScoreT()
    ensures Score("YWKBDHN") == 23
  {
    WeightIsLetterWeight();
    assert "N"[1..] == "";
    assert SumWeights("N") == 1;
    assert "HN"[1..] == "N";
    assert SumWeights("HN") == 5;
    assert "DHN"[1..] == "HN";
    assert SumWeights("DHN") == 7;
    assert "BDHN"[1..] == "DHN";
    assert SumWeights("BDHN") == 10;
    assert "KBDHN"[1..] == "BDHN";
    assert SumWeights("KBDHN") == 15;
    assert "WKBDHN"[1..] == "KBDHN";
    assert SumWeights("WKBDHN") == 19;
    assert "YWKBDHN"[1..] == "WKBDHN";
    assert SumWeights("YWKBDHN") == 23;
    assert Upper("YWKBDHN") == "YWKBDHN";
  }

  /** The codes "RWMDHVN" score 19. */
  lemma CodesScoreA()
    ensures Score("RWMDHVN") == 19
  {
    WeightIsLetterWeight();
    assert "N"[1..] == "";
    assert SumWeights("N") == 1;
    assert "VN"[1..] == "N";
    assert SumWeights("VN") == 5;
    assert "HVN"[1..] == "VN";
    assert SumWeights("HVN") == 9;
    assert "DHVN"[1..] == "HVN";
    assert SumWeights("DHVN") == 11;
    assert "MDHVN"[1..] == "DHVN";
    assert SumWeights("MDHVN") == 14;
    assert "WMDHVN"[1..] == "MDHVN";
    assert SumWeights("WMDHVN") == 18;
    assert "RWMDHVN"[1..] == "WMDHVN";
    assert SumWeights("RWMDHVN") == 19;
    assert Upper("RWMDHVN") == "RWMDHVN";
  }

  /** The codes "YSMBHVN" score 20. */
  lemma CodesScoreC()
    ensures Score("YSMBHVN") == 20
  {
    WeightIsLetterWeight();
    assert "N"[1..] == "";
    assert SumWeights("N") == 1;
    assert "VN"[1..] == "N";
    assert SumWeights("VN") == 5;
    assert "HVN"[1..] == "VN";
    assert SumWeights("HVN") == 9;
    assert "BHVN"[1..] == "HVN";
    assert SumWeights("BHVN") == 12;
    assert "MBHVN"[1..] == "BHVN";
    assert SumWeights("MBHVN") == 15;
    assert "SMBHVN"[1..] == "MBHVN";
    assert SumWeights("SMBHVN") == 16;
    assert "YSMBHVN"[1..] == "SMBHVN";
    assert SumWeights("YSMBHVN") == 20;
    assert Upper("YSMBHVN") == "YSMBHVN";
  }

  /** G's ambiguity codes score 17. */
  lemma AmbiguityScoreG()
    ensures Score(AmbiguityCodes('G')) == 17
  {
    CodesScoreG();
    assert AmbiguityCodes('G') == "RSKBDVN";
  }

  /** T's ambiguity codes score 23. */
  lemma AmbiguityScoreT()
    ensures Score(AmbiguityCodes('T')) == 23
  {
    CodesScoreT();
    assert AmbiguityCodes('T') == "YWKBDHN";
  }

  /** U, the RNA counterpart of T, has T's ambiguity codes, scoring 23. */
  lemma AmbiguityScoreU()
    ensures Score(AmbiguityCodes('U')) == 23
  {
    CodesScoreT();
    assert AmbiguityCodes('U') == "YWKBDHN";
  }

  /** A's ambiguity codes score 19. */
  lemma AmbiguityScoreA()
    ensures Score(AmbiguityCodes('A')) == 19
  {
    CodesScoreA();
    assert AmbiguityCodes('A') == "RWMDHVN";
  }

  /** C's ambiguity codes score 20. */
  lemma AmbiguityScoreC()
    ensures Score(AmbiguityCodes('C')) == 20
  {
    CodesScoreC();
    assert AmbiguityCodes('C') == "YSMBHVN";
  }

  /** For every character, the score of its ambiguity codes is its
      AmbiguityBonus: 17, 23, 23, 19, 20 for G, T, U, A, C and 0 otherwise. */
  lemma AmbiguityScore(base: char)
    ensures Score(AmbiguityCodes(base)) == AmbiguityBonus(base)
  {
    if base == 'G' {
      AmbiguityScoreG();
    } else if base == 'T' {
      AmbiguityScoreT();
    } else if base == 'U' {
      AmbiguityScoreU();
    } else if base == 'A' {
      AmbiguityScoreA();
    } else if base == 'C' {
      AmbiguityScoreC();
    } else {
      assert base !in Iuapc;
    }
  }

  // ---------------------------------------------------------------------------
  // Empty and unscored input

  /** The empty sequence scores 0 under both scorings. */
  lemma EmptySequence()
    ensures Score("") == 0
    ensures ScoreToTheMax("") == 0
  {
  }

  /** A sum of weights is 0 exactly when no character has a weight. */
  lemma {:induction false} SumWeightsZero(bases: string)
    ensures SumWeights(bases) == 0 <==> forall i :: 0 <= i < |bases| ==> bases[i] !in Scores
  {
    if bases != [] {
      SumWeightsZero(bases[1..]);
      assert forall i :: 1 <= i < |bases| ==> bases[i] == bases[1..][i - 1];
    }
  }

  /** A sequence scores 0 exactly when none of its upper-cased characters has
      a weight, that is when it holds no ASCII letter. */
  lemma ScoreZero(s: string)
    ensures Score(s) == 0 <==> forall i :: 0 <= i < |s| ==> UpperChar(s[i]) !in Scores
    ensures Score(s) == 0 <==> forall i :: 0 <= i < |s| ==> !IsUpper(s[i]) && !IsLower(s[i])
  {
    SumWeightsZero(Upper(s));
    forall i | 0 <= i < |s| {
      ScoresKeys(UpperChar(s[i]));
    }
  }

  /** A character whose upper-case form has no weight (a digit, punctuation,
      anything non-ASCII) contributes nothing to either score. */
  lemma UnscoredCharacter(c: char)
    requires UpperChar(c) !in Scores
    ensures Score([c]) == 0
    ensures ScoreToTheMax([c]) == 0
  {
    IuapcBasesAreScored();
    assert Upper([c]) == [UpperChar(c)];
    assert [UpperChar(c)][1..] == [];
    assert SumAmbiguityScores([UpperChar(c)]) == 0;
    assert Score([c]) == 0;
  }

  /** The unscored characters of the test suite. */
  lemma UnknownCharacters()
    ensures Score("1") == 0 && Score("!") == 0 && Score("§") == 0
    ensures ScoreToTheMax("1") == 0 && ScoreToTheMax("!") == 0 && ScoreToTheMax("§") == 0
  {
    UnscoredCharacter('1');
    UnscoredCharacter('!');
    UnscoredCharacter('§');
  }

  // ---------------------------------------------------------------------------
  // Case insensitivity

  /** Upper-casing or lower-casing the input first does not change the score. */
  lemma ScoreCaseInsensitive(s: string)
    ensures Score(Upper(s)) == Score(s)
    ensures Score(Lower(s)) == Score(s)
  {
    UpperIdempotent(s);
    UpperOfLower(s);
  }

  /** Nor does it change the to-the-max score. */
  lemma ScoreToTheMaxCaseInsensitive(s: string)
    ensures ScoreToTheMax(Upper(s)) == ScoreToTheMax(s)
    ensures ScoreToTheMax(Lower(s)) == ScoreToTheMax(s)
  {
    UpperIdempotent(s);
    UpperOfLower(s);
  }

  // ---------------------------------------------------------------------------
  // Additivity

  /** Summing weights distributes over concatenation. */
  lemma {:induction false} SumWeightsAppend(a: string, b: string)
    ensures SumWeights(a + b) == SumWeights(a) + SumWeights(b)
  {
    if a == [] {
      assert a + b == b;
    } else {
      assert (a + b)[1..] == a[1..] + b;
      SumWeightsAppend(a[1..], b);
    }
  }

  /** Summing ambiguity scores distributes over concatenation. */
  lemma {:induction false} SumAmbiguityScoresAppend(a: string, b: string)
    ensures SumAmbiguityScores(a + b) == SumAmbiguityScores(a) + SumAmbiguityScores(b)
  {
    if a == [] {
      assert a + b == b;
    } else {
      assert (a + b)[1..] == a[1..] + b;
      SumAmbiguityScoresAppend(a[1..], b);
    }
  }

  /** The score of a concatenation is the sum of the scores of its parts. */
  lemma ScoreAppend(a: string, b: string)
    ensures Score(a + b) == Score(a) + Score(b)
  {
    UpperAppend(a, b);
    SumWeightsAppend(Upper(a), Upper(b));
  }

  /** The to-the-max score is additive over concatenation too. */
  lemma ScoreToTheMaxAppend(a: string, b: string)
    ensures ScoreToTheMax(a + b) == ScoreToTheMax(a) + ScoreToTheMax(b)
  {
    ScoreAppend(a, b);
    UpperAppend(a, b);
    SumAmbiguityScoresAppend(Upper(a), Upper(b));
  }

  /** What one character contributes to each score. */
  lemma SingleCharacter(c: char)
    ensures Score([c]) == Weight(UpperChar(c))
    ensures ScoreToTheMax([c]) == Weight(UpperChar(c)) + AmbiguityBonus(UpperChar(c))
  {
    AmbiguityScore(UpperChar(c));
    assert Upper([c]) == [UpperChar(c)];
    assert [UpperChar(c)][1..] == [];
    assert SumAmbiguityScores([UpperChar(c)]) == AmbiguityBonus(UpperChar(c));
    assert Score([c]) == Weight(UpperChar(c));
  }

  // ---------------------------------------------------------------------------
  // Bounds and the to-the-max score against the plain one

  /** Exactly T, U, t and u upper-case to T or U. */
  lemma UpperIsTOrU(c: char)
    ensures c in "TUtu" <==> UpperChar(c) == 'T' || UpperChar(c) == 'U'
  {
  }

  /** The weight and the ambiguity bonus of one upper-cased character add
      up to at most 24, reached by T and U alone. */
  lemma BaseContribution(u: char)
    ensures Weight(u) + AmbiguityBonus(u) <= 24
    ensures Weight(u) + AmbiguityBonus(u) == 24 <==> u == 'T' || u == 'U'
  {
    if u == 'T' || u == 'U' {
      assert Weight(u) == 1;
    } else if u == 'G' || u == 'A' || u == 'C' {
      assert Weight(u) <= 3;
    }
  }

  /** One character adds at most 24 to the to-the-max score; T and U reach it. */
  lemma SingleCharacterBound(c: char)
    ensures ScoreToTheMax([c]) <= 24
    ensures ScoreToTheMax([c]) == 24 <==> c in "TUtu"
  {
    SingleCharacter(c);
    UpperIsTOrU(c);
    BaseContribution(UpperChar(c));
  }

  /** Each character adds at most 24 to the to-the-max score. */
  lemma {:induction false} ScoreToTheMaxBound(s: string)
    ensures Score(s) <= ScoreToTheMax(s) <= 24 * |s|
  {
    if s != [] {
      assert s == [s[0]] + s[1..];
      ScoreToTheMaxAppend([s[0]], s[1..]);
      SingleCharacterBound(s[0]);
      ScoreToTheMaxBound(s[1..]);
    }
  }

  /** A character's ambiguity codes score 0 exactly when it is not a base of
      the ambiguity table. */
  lemma AmbiguityScoreZero(base: char)
    ensures Score(AmbiguityCodes(base)) == 0 <==> base !in Iuapc
  {
    AmbiguityScore(base);
  }

  /** A sum of ambiguity scores is 0 exactly when no character is a base
      of the ambiguity table. */
  lemma {:induction false} SumAmbiguityScoresZero(bases: string)
    ensures SumAmbiguityScores(bases) == 0 <==> forall i :: 0 <= i < |bases| ==> bases[i] !in Iuapc
  {
    if bases != [] {
      AmbiguityScoreZero(bases[0]);
      SumAmbiguityScoresZero(bases[1..]);
      assert forall i :: 1 <= i < |bases| ==> bases[i] == bases[1..][i - 1];
    }
  }

  /** The characters whose upper-case form has ambiguity codes. */
  lemma AmbiguousBase(c: char)
    ensures UpperChar(c) in Iuapc <==> c in "GTUACgtuac"
  {
  }

  /** The to-the-max score adds something exactly when the sequence holds one
      of the bases G, T, U, A or C, in either case. */
  lemma ScoreToTheMaxEqualsScore(s: string)
    ensures ScoreToTheMax(s) == Score(s) <==> forall i :: 0 <= i < |s| ==> s[i] !in "GTUACgtuac"
  {
    SumAmbiguityScoresZero(Upper(s));
    forall i | 0 <= i < |s| {
      AmbiguousBase(s[i]);
    }
  }

  // ---------------------------------------------------------------------------
  // Reference definition: the score counts every letter times its weight

  /** The keys of SCORES, each once. */
  const Alphabet: string := "ABCDEFGHIJKLMNOPQRSTUVWXYZ"

  /** The alphabet holds exactly the keys of SCORES. */
  lemma AlphabetIsScored(c: char)
    ensures c in Alphabet <==> c in Scores
  {
  }

  /** No letter occurs twice in the alphabet. */
  lemma AlphabetDistinct()
    ensures forall i, j :: 0 <= i < j < |Alphabet| ==> Alphabet[i] != Alphabet[j]
  {
  }

  /** The sum, over the given letters, of each letter's weight times the
      number of times it occurs in bases. */
  function WeightedCounts(letters: string, bases: multiset<char>): nat
  {
    if letters == [] then 0
    else Weight(letters[0]) * bases[letters[0]] + WeightedCounts(letters[1..], bases)
  }

  /** Counting weights is additive over multiset union. */
  lemma {:induction false} WeightedCountsAdd(letters: string, x: multiset<char>, y: multiset<char>)
    ensures WeightedCounts(letters, x + y) == WeightedCounts(letters, x) + WeightedCounts(letters, y)
  {
    if letters != [] {
      WeightedCountsAdd(letters[1..], x, y);
    }
  }

  /** Nothing to count gives 0. */
  lemma {:induction false} WeightedCountsEmpty(letters: string)
    ensures WeightedCounts(letters, multiset{}) == 0
  {
    if letters != [] {
      WeightedCountsEmpty(letters[1..]);
    }
  }

  /** Over distinct letters, a single character counts its own weight if it is
      one of the letters and 0 otherwise. */
  lemma {:induction false} WeightedCountsSingle(letters: string, c: char)
    requires forall i, j :: 0 <= i < j < |letters| ==> letters[i] != letters[j]
    ensures WeightedCounts(letters, multiset{c}) == if c in letters then Weight(c) else 0
  {
    if letters != [] {
      WeightedCountsSingle(letters[1..], c);
      assert c in letters[1..] ==> c != letters[0];
    }
  }

  /** Summing weights character by character agrees with counting letters. */
  lemma {:induction false} SumWeightsByCounts(bases: string)
    ensures SumWeights(bases) == WeightedCounts(Alphabet, multiset(bases))
  {
    if bases == [] {
      WeightedCountsEmpty(Alphabet);
    } else {
      assert bases == [bases[0]] + bases[1..];
      assert multiset(bases) == multiset{bases[0]} + multiset(bases[1..]);
      WeightedCountsAdd(Alphabet, multiset{bases[0]}, multiset(bases[1..]));
      AlphabetDistinct();
      WeightedCountsSingle(Alphabet, bases[0]);
      AlphabetIsScored(bases[0]);
      SumWeightsByCounts(bases[1..]);
    }
  }

  /** The score of a sequence is the sum over the letters A-Z of the letter's
      weight times its number of occurrences in the upper-cased sequence. */
  lemma ScoreByCounts(s: string)
    ensures Score(s) == WeightedCounts(Alphabet, multiset(Upper(s)))
  {
    SumWeightsByCounts(Upper(s));
  }

  /** Taking out the character at k leaves the rest of the multiset. */
  lemma RemoveAt(t: string, k: nat)
    requires k < |t|
    ensures multiset(t) == multiset{t[k]} + multiset(t[..k] + t[k + 1..])
  {
    SplitAt(t, k);
  }

  /** A string is the part before k, the character at k and the part after. */
  lemma SplitAt(t: string, k: nat)
    requires k < |t|
    ensures t == t[..k] + ([t[k]] + t[k + 1..])
  {
  }

  /** Upper-casing one character as a string. */
  lemma UpperSingle(c: char)
    ensures Upper([c]) == [UpperChar(c)]
  {
  }

  /** Upper-casing commutes with taking out the character at k. */
  lemma UpperRemoveAt(t: string, k: nat)
    requires k < |t|
    ensures multiset(Upper(t)) == multiset{UpperChar(t[k])} + multiset(Upper(t[..k] + t[k + 1..]))
  {
    var before, after := t[..k], t[k + 1..];
    SplitAt(t, k);
    UpperAppend(before, [t[k]] + after);
    UpperAppend([t[k]], after);
    UpperAppend(before, after);
    UpperSingle(t[k]);
  }

  /** Two arrangements of the same characters upper-case to two arrangements
      of the same characters. */
  lemma {:induction false} UpperMultiset(s: string, t: string)
    requires multiset(s) == multiset(t)
    ensures multiset(Upper(s)) == multiset(Upper(t))
    decreases |s|
  {
    if s == [] {
      assert |t| == |multiset(t)| == 0;
    } else {
      assert s[0] in multiset(t);
      var k :| 0 <= k < |t| && t[k] == s[0];
      RemoveAt(s, 0);
      RemoveAt(t, k);
      assert s[..0] + s[1..] == s[1..];
      assert multiset(s[1..]) == multiset(s) - multiset{s[0]};
      assert multiset(t[..k] + t[k + 1..]) == multiset(t) - multiset{t[k]};
      UpperMultiset(s[1..], t[..k] + t[k + 1..]);
      UpperRemoveAt(s, 0);
      UpperRemoveAt(t, k);
    }
  }

  /** Reordering the characters of a sequence does not change its score. */
  lemma ScorePermutation(s: string, t: string)
    requires multiset(s) == multiset(t)
    ensures Score(s) == Score(t)
  {
    UpperMultiset(s, t);
    ScoreByCounts(s);
    ScoreByCounts(t);
  }

  // ---------------------------------------------------------------------------
  // The ambiguity table against the IUPAC-IUB nomenclature

  /** The IUPAC-IUB (1984) codes for incompletely specified bases and the
      bases each one can stand for. */
  const Nomenclature: map<char, set<char>> := map[
    'R' := {'A', 'G'}, 'Y' := {'C', 'T'}, 'S' := {'G', 'C'}, 'W' := {'A', 'T'},
    'K' := {'G', 'T'}, 'M' := {'A', 'C'},
    'B' := {'C', 'G', 'T'}, 'D' := {'A', 'G', 'T'}, 'H' := {'A', 'C', 'T'},
    'V' := {'A', 'C', 'G'},
    'N' := {'A', 'C', 'G', 'T'}
  ]

  /** The nomenclature treats U (RNA) as T. */
  function DnaBase(b: char): char { if b == 'U' then 'T' else b }

  /** The ambiguity codes listed for a base are exactly the codes that can
      stand for it. */
  lemma IuapcMatchesNomenclature(b: char, c: char)
    requires b in Iuapc
    ensures c in AmbiguityCodes(b) <==> c in Nomenclature && DnaBase(b) in Nomenclature[c]
  {
  }

  /** No base lists an ambiguity code twice. */
  lemma IuapcCodesDistinct(b: char)
    ensures forall i, j :: 0 <= i < j < |AmbiguityCodes(b)| ==> AmbiguityCodes(b)[i] != AmbiguityCodes(b)[j]
  {
  }

  // ---------------------------------------------------------------------------
  // The test suite's values

  /** The three spellings of GTAC in the test suite upper-case alike. */
  lemma GtacUpper()
    ensures Upper("GTAC") == "GTAC" && Upper("gtac") == "GTAC" && Upper("GtAc") == "GTAC"
  {
  }

  /** G, T, A and C weigh 2, 1, 1 and 3. */
  lemma GtacWeights()
    ensures SumWeights("GTAC") == 7
  {
    WeightIsLetterWeight();
    assert "C"[1..] == "";
    assert SumWeights("C") == 3;
    assert "AC"[1..] == "C";
    assert SumWeights("AC") == 4;
    assert "TAC"[1..] == "AC";
    assert SumWeights("TAC") == 5;
    assert "GTAC"[1..] == "TAC";
  }

  // The ambiguity scores of G, T, A and C, 17 + 23 + 19 + 20, summed from
  // the right.

  lemma CAmbiguityScores()
    ensures SumAmbiguityScores("C") == 20
  {
    AmbiguityScoreC();
    assert "C"[1..] == "";
  }

  lemma AcAmbiguityScores()
    ensures SumAmbiguityScores("AC") == 39
  {
    CAmbiguityScores();
    AmbiguityScoreA();
    assert "AC"[1..] == "C";
  }

  lemma TacAmbiguityScores()
    ensures SumAmbiguityScores("TAC") == 62
  {
    AcAmbiguityScores();
    AmbiguityScoreT();
    assert "TAC"[1..] == "AC";
  }

  lemma GtacAmbiguityScores()
    ensures SumAmbiguityScores("GTAC") == 79
  {
    TacAmbiguityScores();
    AmbiguityScoreG();
    assert "GTAC"[1..] == "TAC";
  }

  /** score("GTAC") is 7 and score_to_the_max("GTAC") is 86, whatever the
      case of the letters. */
  lemma GtacExample()
    ensures Score("GTAC") == 7 && Score("gtac") == 7 && Score("GtAc") == 7
    ensures ScoreToTheMax("GTAC") == 86 && ScoreToTheMax("gtac") == 86 && ScoreToTheMax("GtAc") == 86
  {
    GtacWeights();
    GtacAmbiguityScores();
    GtacUpper();
  }
}
