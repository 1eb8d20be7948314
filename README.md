# Flounder Score in Dafny

A model of the scoring core of the `flounder` package, together with proofs about it. The package scores a DNA or RNA sequence by the Flounder method:

- **score** upper-cases the sequence. It then sums the weight that the `SCORES` table gives each character: A–Z weigh between 1 and 10, and any other character weighs 0.
- **score_to_the_max** starts from `score(sequence)`. For every upper-cased character it also adds the score of the string of IUPAC ambiguity codes that the `IUAPC` table lists for it. The bases G, T, U, A and C each have seven codes; every other character has "".

The model has three modules, one file each:

- `casing.dfy`, module `Casing`: ASCII upper- and lower-casing of characters and strings, standing in for Python's `str.upper`.
- `score.dfy`, module `FlounderScore`: the two tables and the two scoring functions. Each Python `sum(... for base in sequence.upper())` becomes a recursive sum over the upper-cased string. Each `dict.get(key, default)` becomes a lookup that returns the default for a missing key.
- `score_properties.dfy`, module `ScoreProperties`: the lemmas. They cover:
  - empty and unscored input;
  - case insensitivity;
  - additivity over concatenation;
  - bounds;
  - exactly when the to-the-max score exceeds the plain score;
  - an independent reference definition of the score by letter counts;
  - agreement of the ambiguity table with the IUPAC-IUB nomenclature for incompletely specified bases (1984);
  - the concrete values the test suite asserts.

The scoring functions are total and have no failure mode, so no scoring function has a precondition on its input. Eight lemmas do have preconditions:

- `IuapcMatchesNomenclature` takes a base of the ambiguity table. This is because the nomenclature only speaks about those bases.
- `WeightedCountsSingle` needs a list of distinct letters.
- `UnscoredCharacter` is only about characters whose upper-case form has no weight.
- `UpperMultiset` and `ScorePermutation` relate two strings that hold the same characters in some order.
- `RemoveAt`, `SplitAt` and `UpperRemoveAt` take an index inside the string.

## Model

| member | source | states |
|---|---|---|
| Casing.UpperChar | flounder/score.py:53 | upper-casing maps a–z to the matching letter A–Z and leaves every other character unchanged, so the result is never a lower-case letter |
| Casing.Upper | flounder/score.py:53 | `sequence.upper()` keeps the length and upper-cases each character in place |
| Casing.LowerChar | tests/tests.py:31-35 | ASCII lower-casing, which relates the tests' upper- and lower-case spellings: A–Z become a–z, everything else is unchanged |
| Casing.Lower | tests/tests.py:31-35 | lower-casing a string keeps its length and lower-cases each character in place; it serves to state case insensitivity |
| Casing.UpperIdempotent | flounder/score.py:53 | upper-casing an upper-cased string changes nothing |
| Casing.UpperOfLower | flounder/score.py:53 | upper-casing gives the same result whether or not the string was lower-cased first |
| Casing.UpperAppend | flounder/score.py:53 | upper-casing distributes over concatenation |
| FlounderScore.LetterWeight | flounder/score.py:5-32 | the 26 weights of SCORES, A 1 through Z 10, and 0 for any other character |
| FlounderScore.Scores | flounder/score.py:5-32 | the SCORES dictionary, written as a map comprehension over A–Z of `LetterWeight`; its keys and values are those of the dictionary (ScoresKeys, WeightIsLetterWeight) |
| FlounderScore.Iuapc | flounder/score.py:36-42 | the IUAPC dictionary: G, T, U, A and C mapped to their seven ambiguity codes |
| FlounderScore.Weight | flounder/score.py:5-32 | `SCORES.get(base, 0)` is positive exactly for the keys of SCORES and never exceeds 10 |
| FlounderScore.SumWeights | flounder/score.py:53 | the sum of the weights is at most 10 per character |
| FlounderScore.Score | flounder/score.py:46-53 | `score(sequence)` is at most 10 times the length of the sequence |
| FlounderScore.AmbiguityCodes | flounder/score.py:36-42 | `IUAPC.get(base, "")` is non-empty exactly for the bases of IUAPC, and then holds seven codes |
| FlounderScore.SumAmbiguityScores | flounder/score.py:68-70 | the added ambiguity scores are at most 70 per character (tightened to 24 in total per character by ScoreToTheMaxBound) |
| FlounderScore.ScoreToTheMax | flounder/score.py:57-70 | `score_to_the_max(sequence)` is never below `score(sequence)` |
| ScoreProperties.ScoresKeys | flounder/score.py:5-32 | the keys of SCORES are exactly the letters A–Z |
| ScoreProperties.IuapcBasesAreScored | flounder/score.py:36-42 | every base of IUAPC is also a key of SCORES |
| ScoreProperties.WeightIsLetterWeight | flounder/score.py:5-32 | the lookup with default 0 gives, for every character, the weight listed for it in SCORES (0 for an unlisted one) |
| ScoreProperties.CodesScoreG | flounder/score.py:37 | the codes "RSKBDVN" score 17 |
| ScoreProperties.CodesScoreT | flounder/score.py:38-39 | the codes "YWKBDHN" score 23 |
| ScoreProperties.CodesScoreA | flounder/score.py:40 | the codes "RWMDHVN" score 19 |
| ScoreProperties.CodesScoreC | flounder/score.py:41 | the codes "YSMBHVN" score 20 |
| ScoreProperties.AmbiguityScoreG | flounder/score.py:37 | G's ambiguity codes score 17 |
| ScoreProperties.AmbiguityScoreT | flounder/score.py:38 | T's ambiguity codes score 23 |
| ScoreProperties.AmbiguityScoreU | flounder/score.py:39 | U's ambiguity codes score 23 |
| ScoreProperties.AmbiguityScoreA | flounder/score.py:40 | A's ambiguity codes score 19 |
| ScoreProperties.AmbiguityScoreC | flounder/score.py:41 | C's ambiguity codes score 20 |
| ScoreProperties.AmbiguityScore | flounder/score.py:36-42 | for every character, its ambiguity codes score 17, 23, 23, 19 or 20 for G, T, U, A or C, and 0 for anything else |
| ScoreProperties.EmptySequence | flounder/score.py:46-70 | the empty sequence scores 0 under both scorings (the test suite asserts both) |
| ScoreProperties.SumWeightsZero | flounder/score.py:53 | a sum of weights is 0 if and only if no character is a key of SCORES |
| ScoreProperties.ScoreZero | flounder/score.py:46-53 | a sequence scores 0 if and only if no upper-cased character is a key of SCORES, that is, if and only if it holds no ASCII letter |
| ScoreProperties.UnscoredCharacter | flounder/score.py:46-70 | a character whose upper-case form is not in SCORES contributes 0 to both scores |
| ScoreProperties.UnknownCharacters | tests/tests.py:25-29 | "1", "!" and "§" score 0 under both scorings (the to-the-max half is asserted at tests/tests.py:67-71) |
| ScoreProperties.ScoreCaseInsensitive | flounder/score.py:53 | upper- or lower-casing the sequence first leaves its score unchanged |
| ScoreProperties.ScoreToTheMaxCaseInsensitive | flounder/score.py:68-70 | upper- or lower-casing the sequence first leaves its to-the-max score unchanged |
| ScoreProperties.SumWeightsAppend | flounder/score.py:53 | the sum of weights distributes over concatenation |
| ScoreProperties.SumAmbiguityScoresAppend | flounder/score.py:68-70 | the sum of ambiguity scores distributes over concatenation |
| ScoreProperties.ScoreAppend | flounder/score.py:46-53 | `score(a + b) == score(a) + score(b)` |
| ScoreProperties.ScoreToTheMaxAppend | flounder/score.py:57-70 | `score_to_the_max(a + b) == score_to_the_max(a) + score_to_the_max(b)` |
| ScoreProperties.SingleCharacter | flounder/score.py:46-70 | one character scores its upper-case form's weight, and scores to the max that weight plus the score of its ambiguity codes |
| ScoreProperties.UpperIsTOrU | flounder/score.py:53 | exactly T, U, t and u upper-case to T or U |
| ScoreProperties.BaseContribution | flounder/score.py:5-42 | one base's weight plus its ambiguity codes' score is at most 24, with equality exactly for T and U |
| ScoreProperties.SingleCharacterBound | flounder/score.py:57-70 | one character scores at most 24 to the max, and exactly 24 if and only if it is T, U, t or u |
| ScoreProperties.ScoreToTheMaxBound | flounder/score.py:57-70 | `score(s) <= score_to_the_max(s) <= 24 * len(s)` |
| ScoreProperties.AmbiguityScoreZero | flounder/score.py:69 | a character's ambiguity codes score 0 if and only if it is not a base of IUAPC |
| ScoreProperties.SumAmbiguityScoresZero | flounder/score.py:68-70 | the added ambiguity scores are 0 if and only if no character is a base of IUAPC |
| ScoreProperties.AmbiguousBase | flounder/score.py:36-42 | a character's upper-case form is a base of IUAPC if and only if the character is one of G, T, U, A, C in either case |
| ScoreProperties.ScoreToTheMaxEqualsScore | flounder/score.py:57-70 | the to-the-max score equals the plain score if and only if the sequence holds none of G, T, U, A, C in either case |
| ScoreProperties.AlphabetIsScored | flounder/score.py:5-32 | the alphabet A–Z holds exactly the keys of SCORES |
| ScoreProperties.AlphabetDistinct | flounder/score.py:5-32 | the alphabet lists no letter twice |
| ScoreProperties.WeightedCountsAdd | flounder/score.py:53 | counting weights by letter is additive over multiset union |
| ScoreProperties.WeightedCountsEmpty | flounder/score.py:53 | counting weights in the empty multiset gives 0 |
| ScoreProperties.WeightedCountsSingle | flounder/score.py:53 | over distinct letters, one character counts its own weight if it is one of the letters and 0 otherwise |
| ScoreProperties.SumWeightsByCounts | flounder/score.py:53 | summing weights character by character equals the sum over A–Z of each letter's weight times its number of occurrences |
| ScoreProperties.ScoreByCounts | flounder/score.py:46-53 | `score(s)` is the sum over A–Z of weight times occurrences in `s.upper()`, so it depends only on the multiset of the upper-cased characters |
| ScoreProperties.UpperMultiset | flounder/score.py:53 | two strings with the same characters in any order upper-case to two strings with the same characters |
| ScoreProperties.ScorePermutation | flounder/score.py:46-53 | reordering the characters of a sequence does not change its score |
| ScoreProperties.IuapcMatchesNomenclature | flounder/score.py:36-42 | a code is listed for a base if and only if the IUPAC-IUB nomenclature lets that code stand for the base (U read as T) |
| ScoreProperties.IuapcCodesDistinct | flounder/score.py:36-42 | no base lists a code twice |
| ScoreProperties.GtacUpper | tests/tests.py:31-35 | "GTAC", "gtac" and "GtAc" all upper-case to "GTAC" |
| ScoreProperties.GtacWeights | tests/tests.py:33 | G, T, A and C weigh 7 in total |
| ScoreProperties.CAmbiguityScores | tests/tests.py:75 | the ambiguity scores of "C" sum to 20 |
| ScoreProperties.AcAmbiguityScores | tests/tests.py:75 | the ambiguity scores of "AC" sum to 39 |
| ScoreProperties.TacAmbiguityScores | tests/tests.py:75 | the ambiguity scores of "TAC" sum to 62 |
| ScoreProperties.GtacAmbiguityScores | tests/tests.py:75 | the ambiguity scores of "GTAC" sum to 79 |
| ScoreProperties.GtacExample | tests/tests.py:31-35 | "GTAC", "gtac" and "GtAc" score 7, and score 86 to the max (the to-the-max values are asserted at tests/tests.py:73-77) |

## Left out

- `scores`, `scores_to_the_max`, `codon_score` and `codon_scores` are not part of this model. The test suite imports them (tests/tests.py:10-14), but flounder/score.py does not define them, and the package re-exports only `score` (flounder/__init__.py:14-18). No codon table appears in the code either. The model follows the code, so it defines none of them.
- Casing.Upper: models only ASCII upper-casing. a–z become A–Z, and every other character passes through unchanged. Python's `str.upper` also maps non-ASCII characters, such as "ß" to "SS" or "ı" to "I", and can change the length of the string. Such a character can gain a weight in Python but scores 0 in this model.
- Casing.Lower: models only ASCII lower-casing. The source never lower-cases; `Lower` only serves to state case insensitivity. With Python's full `str.lower` that half of ScoreCaseInsensitive would not hold: "İ" lower-cases to "i" followed by a combining dot, which scores 1, while "İ" itself scores 0.
- FlounderScore.SumAmbiguityScores: its own contract bounds a character's contribution by 70. The tight bound of 24, counting the character's own weight too, is proved separately in ScoreToTheMaxBound.
- Python's `int` is unbounded, as is Dafny's `nat`, so no overflow is modelled.
- setup.py (packaging metadata and reading README.md) and docs/template/conf.py (documentation configuration) are not part of this model. They hold no scoring logic.
- flounder/__init__.py holds package metadata and the re-export of `score`. It has no logic of its own.
