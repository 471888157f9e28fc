/** The live tone indicator under the essay box: formal and casual scores from
    word counts and sentence length, and the label they decide. The counts the
    word-boundary patterns produce are inputs. */
module Tone {
  import opened Numbers
  import opened Text

  /** Fewer trimmed characters than this and the tone is not judged. */
  const MinToneLength: nat := 50

  /** How far one score must lead the other before the tone leans its way. */
  const Margin: int := 3

  datatype Tone = Neutral | Formal | Casual | Balanced

  /** The words each side looks for, in the order the source lists them. */
  const FormalWords: seq<string> :=
    ["furthermore", "moreover", "consequently", "nevertheless", "therefore", "thus",
     "henceforth", "wherein", "thereby"]
  const CasualWords: seq<string> :=
    ["yeah", "cool", "awesome", "gonna", "wanna", "kinda", "sorta", "hey", "wow", "super"]
  const Contractions: seq<string> :=
    ["don't", "can't", "won't", "i'm", "you're", "it's", "we're", "they're"]

  /** What the word-boundary patterns find in the lower-cased essay: for each
      listed word, in list order, the number of its matches. */
  datatype ToneCounts = ToneCounts(
    formalMatches: seq<nat>,     // one count per entry of FormalWords
    casualMatches: seq<nat>,     // one count per entry of CasualWords
    contractionMatches: seq<nat>, // one count per entry of Contractions
    avgSentenceLength: JsNumber) // split pieces per non-blank sentence; NaN if there is none

  /** The total of a list of counts, taken from the last entry backwards. */
  function Sum(xs: seq<nat>): nat {
    if |xs| == 0 then 0 else Sum(xs[..|xs| - 1]) + xs[|xs| - 1]
  }

  /** One more match of any single word adds exactly one to the total. */
  lemma {:induction false} SumIncrement(xs: seq<nat>, i: int)
    requires 0 <= i < |xs|
    ensures Sum(xs[i := xs[i] + 1]) == Sum(xs) + 1
    decreases |xs|
  {
    var ys := xs[i := xs[i] + 1];
    var n := |xs| - 1;
    if i == n {
      assert ys[..n] == xs[..n];
    } else {
      assert ys[..n] == xs[..n][i := xs[i] + 1];
      SumIncrement(xs[..n], i);
    }
  }

  /** The formal score: two points per formal match, and 3 more for sentences
      averaging over 20 split pieces. */
  function FormalScore(c: ToneCounts): nat {
    2 * Sum(c.formalMatches) + if c.avgSentenceLength.Above(20.0) then 3 else 0
  }

  /** The casual score: two points per casual match, one per contraction, and 3
      more for sentences averaging under 12 split pieces. */
  function CasualScore(c: ToneCounts): nat {
    2 * Sum(c.casualMatches) + Sum(c.contractionMatches)
    + if c.avgSentenceLength.Below(12.0) then 3 else 0
  }

  /** The three `forEach` sums and the two sentence-length bonuses, word by
      word, give exactly the two scores. */
  method ScoreTone(c: ToneCounts) returns (formal: nat, casual: nat)
    ensures formal == FormalScore(c)
    ensures casual == CasualScore(c)
  {
    formal, casual := 0, 0;
    for i := 0 to |c.formalMatches|
      invariant formal == 2 * Sum(c.formalMatches[..i])
    {
      assert c.formalMatches[..i + 1][..i] == c.formalMatches[..i];
      formal := formal + c.formalMatches[i] * 2;
    }
    assert c.formalMatches[..|c.formalMatches|] == c.formalMatches;
    for i := 0 to |c.casualMatches|
      invariant casual == 2 * Sum(c.casualMatches[..i])
    {
      assert c.casualMatches[..i + 1][..i] == c.casualMatches[..i];
      casual := casual + c.casualMatches[i] * 2;
    }
    assert c.casualMatches[..|c.casualMatches|] == c.casualMatches;
    for i := 0 to |c.contractionMatches|
      invariant casual == 2 * Sum(c.casualMatches) + Sum(c.contractionMatches[..i])
    {
      assert c.contractionMatches[..i + 1][..i] == c.contractionMatches[..i];
      casual := casual + c.contractionMatches[i];
    }
    assert c.contractionMatches[..|c.contractionMatches|] == c.contractionMatches;
    if c.avgSentenceLength.Above(20.0) {
      formal := formal + 3;
    }
    if c.avgSentenceLength.Below(12.0) {
      casual := casual + 3;
    }
  }

  /** At most one side gets the sentence-length bonus, and with a NaN average neither does. */
  lemma OneLengthBonusAtMost(c: ToneCounts)
    ensures FormalScore(c) - 2 * Sum(c.formalMatches)
            + CasualScore(c) - 2 * Sum(c.casualMatches) - Sum(c.contractionMatches) <= 3
    ensures c.avgSentenceLength == NaN ==>
              && FormalScore(c) == 2 * Sum(c.formalMatches)
              && CasualScore(c) == 2 * Sum(c.casualMatches) + Sum(c.contractionMatches)
  {
  }

  /** The label: a side wins only when it leads by more than the margin. */
  function Classify(formal: int, casual: int): (t: Tone)
    ensures t != Neutral
    ensures t == Formal <==> formal - casual > Margin
    ensures t == Casual <==> casual - formal > Margin
    ensures t == Balanced <==> -Margin <= formal - casual <= Margin
  {
    if formal > casual + Margin then Formal
    else if casual > formal + Margin then Casual
    else Balanced
  }

  /** Exchanging the two scores exchanges Formal and Casual. */
  lemma ClassifySymmetric(formal: int, casual: int)
    ensures Classify(formal, casual) == Formal <==> Classify(casual, formal) == Casual
    ensures Classify(formal, casual) == Balanced <==> Classify(casual, formal) == Balanced
  {
  }

  /** More casual evidence never makes a text read as more formal. */
  lemma MoreCasualNeverFormal(formal: int, casual: int, moreCasual: int)
    requires casual <= moreCasual
    ensures Classify(formal, casual) == Casual ==> Classify(formal, moreCasual) == Casual
    ensures Classify(formal, moreCasual) == Formal ==> Classify(formal, casual) == Formal
  {
  }

  /** The label analyzeTone shows: Neutral for text under 50 trimmed
      characters, otherwise the label the two scores decide. */
  function ToneOf(text: string, c: ToneCounts): (t: Tone)
    ensures t == Neutral <==> |Trim(text)| < MinToneLength
    ensures t != Neutral ==> t == Classify(FormalScore(c), CasualScore(c))
  {
    TrimLowerLength(text);
    if |Trim(Lower(text))| < MinToneLength then Neutral
    else Classify(FormalScore(c), CasualScore(c))
  }

  /** analyzeTone: lower-case the text, give up on short text, otherwise add
      up the two scores and label them. */
  method AnalyzeTone(text: string, c: ToneCounts) returns (t: Tone)
    ensures t == ToneOf(text, c)
  {
    var lowered := Lower(text);
    if |Trim(lowered)| < MinToneLength {
      return Neutral;
    }
    var formal, casual := ScoreTone(c);
    if formal > casual + Margin {
      t := Formal;
    } else if casual > formal + Margin {
      t := Casual;
    } else {
      t := Balanced;
    }
  }

  /** One more match of a formal word keeps a Formal label Formal. */
  lemma OneMoreFormalWordKeepsFormal(text: string, c: ToneCounts, i: int)
    requires 0 <= i < |c.formalMatches|
    requires ToneOf(text, c) == Formal
    ensures ToneOf(text, c.(formalMatches := c.formalMatches[i := c.formalMatches[i] + 1])) == Formal
  {
    SumIncrement(c.formalMatches, i);
  }

  /** One more match of a casual word never produces a Formal label, and keeps
      a Casual label Casual. */
  lemma OneMoreCasualWordNeverFormal(text: string, c: ToneCounts, i: int)
    requires 0 <= i < |c.casualMatches|
    ensures var c' := c.(casualMatches := c.casualMatches[i := c.casualMatches[i] + 1]);
            && (ToneOf(text, c') == Formal ==> ToneOf(text, c) == Formal)
            && (ToneOf(text, c) == Casual ==> ToneOf(text, c') == Casual)
  {
    SumIncrement(c.casualMatches, i);
  }

  /** The same for one more contraction. */
  lemma OneMoreContractionNeverFormal(text: string, c: ToneCounts, i: int)
    requires 0 <= i < |c.contractionMatches|
    ensures var c' := c.(contractionMatches := c.contractionMatches[i := c.contractionMatches[i] + 1]);
            && (ToneOf(text, c') == Formal ==> ToneOf(text, c) == Formal)
            && (ToneOf(text, c) == Casual ==> ToneOf(text, c') == Casual)
  {
    SumIncrement(c.contractionMatches, i);
  }

  /** Lower-casing before trimming does not change the trimmed length: the
      letters it changes are never whitespace. */
  lemma TrimLowerLength(s: string)
    ensures |Trim(Lower(s))| == |Trim(s)|
  {
    LeadingSpaceLower(s);
    var a := LeadingSpace(s);
    assert Lower(s)[a..] == Lower(s[a..]);
    TrailingSpaceLower(s[a..]);
  }

  lemma {:induction false} LeadingSpaceLower(s: string)
    ensures LeadingSpace(Lower(s)) == LeadingSpace(s)
    decreases |s|
  {
    if |s| > 0 {
      LowerKeepsWhitespace(s, 0);
      assert Lower(s)[1..] == Lower(s[1..]);
      LeadingSpaceLower(s[1..]);
    }
  }

  lemma {:induction false} TrailingSpaceLower(s: string)
    ensures TrailingSpace(Lower(s)) == TrailingSpace(s)
    decreases |s|
  {
    if |s| > 0 {
      LowerKeepsWhitespace(s, |s| - 1);
      assert Lower(s)[..|s| - 1] == Lower(s[..|s| - 1]);
      TrailingSpaceLower(s[..|s| - 1]);
    }
  }
}
