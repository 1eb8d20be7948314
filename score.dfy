/** The Flounder Score of a DNA sequence: every base letter carries a fixed
    weight, and a sequence scores the sum of the weights of its upper-cased
    characters. The to-the-max variant also adds, for every base, the score
    of the IUPAC ambiguity codes that can stand for that base. */
module FlounderScore {
  import opened Casing

  /** The weight SCORES gives each letter A-Z; 0 for any other character. */
  function LetterWeight(letter: char): nat
  {
    match letter
    case 'A' => 1  case 'B' => 3  case 'C' => 3  case 'D' => 2  case 'E' => 1
    case 'F' => 4  case 'G' => 2  case 'H' => 4  case 'I' => 1  case 'J' => 8
    case 'K' => 5  case 'L' => 1  case 'M' => 3  case 'N' => 1  case 'O' => 1
    case 'P' => 3  case 'Q' => 10 case 'R' => 1  case 'S' => 1  case 'T' => 1
    case 'U' => 1  case 'V' => 4  case 'W' => 4  case 'X' => 8  case 'Y' => 4
    case 'Z' => 10
    case _ => 0
  }

  /** SCORES: the table of letter weights, keyed by exactly the letters A-Z. */
  const Scores: map<char, nat> := map letter | 'A' <= letter <= 'Z' :: LetterWeight(letter)

  /** IUAPC: for each base, the IUPAC ambiguity codes that include it. */
  const Iuapc: map<char, string> := map[
    'G' := "RSKBDVN",
    'T' := "YWKBDHN",
    'U' := "YWKBDHN",
    'A' := "RWMDHVN",
    'C' := "YSMBHVN"
  ]

  /** SCORES.get(base, 0): a letter's weight, 0 for anything unlisted.
      Every listed weight lies between 1 and 10. */
  function Weight(base: char): (w: nat)
    ensures base in Scores <==> w > 0
    ensures w <= 10
  {
    if base in Scores then Scores[base] else 0
  }

  /** The sum of the weights of already upper-cased characters. */
  function SumWeights(bases: string): (total: nat)
    ensures total <= 10 * |bases|
  {
    if bases == [] then 0 else Weight(bases[0]) + SumWeights(bases[1..])
  }

  /** score(sequence): the Flounder Score of a sequence. */
  function Score(sequence: string): (r: nat)
    ensures r <= 10 * |sequence|
  {
    SumWeights(Upper(sequence))
  }

  /** IUAPC.get(base, ""): the ambiguity codes of a base, "" for anything
      unlisted. Every listed base has seven codes. */
  function AmbiguityCodes(base: char): (codes: string)
    ensures base in Iuapc <==> codes != []
    ensures base in Iuapc ==> |codes| == 7
  {
    if base in Iuapc then Iuapc[base] else ""
  }

  /** The sum of score(IUAPC.get(base, "")) over already upper-cased characters. */
  function SumAmbiguityScores(bases: string): (total: nat)
    ensures total <= 70 * |bases|
  {
    if bases == [] then 0
    else Score(AmbiguityCodes(bases[0])) + SumAmbiguityScores(bases[1..])
  }

  /** score_to_the_max(sequence): the Flounder Score plus the score of the
      ambiguity codes of every upper-cased character. */
  function ScoreToTheMax(sequence: string): (r: nat)
    ensures r >= Score(sequence)
  {
    Score(sequence) + SumAmbiguityScores(Upper(sequence))
  }
}
