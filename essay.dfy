/** The essay quality checker: six rubric criteria, each scored in fixed tiers
    and each leaving one feedback item, summed into a percentage and a rating.
    The counts the regular expressions produce are inputs. */
module Essay {
  import opened Numbers
  import opened Text

  /** Fewer trimmed characters than this and the essay is not analysed. */
  const MinEssayLength: nat := 100

  /** The rubric's total is out of this many points. */
  const RubricMax: nat := 100

  datatype FeedbackType = Positive | Warning | Negative

  datatype Criterion = Length | PersonalVoice | Specificity | Goals | Structure | Passion

  /** The order in which the criteria are scored and their feedback listed. */
  const RubricOrder: seq<Criterion> := [Length, PersonalVoice, Specificity, Goals, Structure, Passion]

  /** One feedback card; its explanatory text is left to the page. */
  datatype FeedbackItem = FeedbackItem(criterion: Criterion, kind: FeedbackType, title: string)

  /** What the pattern matching finds in the trimmed essay. */
  datatype EssayCounts = EssayCounts(
    personal: nat,               // matches of the personal-voice words ("i", "my", "when i", ...)
    hasStory: bool,              // some story word occurs ("when", "during", "remember", ...)
    specific: nat,               // matches of numbers and specificity phrases
    vague: nat,                  // matches of vague words ("good", "nice", "stuff", ...)
    goals: nat,                  // matches of goal and impact words
    paragraphs: nat,             // non-blank paragraphs between blank lines
    avgSentenceLength: JsNumber, // split pieces per sentence over 10 characters; NaN if there is none
    passion: nat)                // matches of passion words

  datatype Rating = Excellent | Good | NeedsWork | NeedsMajorRevision

  datatype EssayAnalysis = EssayAnalysis(
    score: nat,
    maxScore: nat,
    feedback: seq<FeedbackItem>,
    percentage: int,
    rating: Rating)

  /** The checker either refuses a short essay or produces an analysis. */
  datatype EssayCheck = TooShort | Analysed(analysis: EssayAnalysis)

  /** The points one criterion earns and the feedback it leaves. */
  datatype Grade = Grade(points: nat, item: FeedbackItem)

  // ---------------------------------------------------------------------
  // The six criteria

  /** 250-650 words earn 15; shorter earns 8, longer 10. */
  function LengthGrade(words: nat): (g: Grade)
    ensures g.item.criterion == Length
    ensures g.points == 15 <==> 250 <= words <= 650
    ensures g.points == 8 <==> words < 250
    ensures g.points == 10 <==> words > 650
    ensures g.item.kind == Positive <==> g.points == 15
    ensures g.item.kind != Negative
  {
    if words >= 250 && words <= 650 then Grade(15, FeedbackItem(Length, Positive, "Perfect Length"))
    else if words < 250 then Grade(8, FeedbackItem(Length, Warning, "Too Short"))
    else Grade(10, FeedbackItem(Length, Warning, "Too Long"))
  }

  /** Five personal-voice matches and a story earn 20; three matches earn 12; else 5. */
  function PersonalGrade(personal: nat, hasStory: bool): (g: Grade)
    ensures g.item.criterion == PersonalVoice
    ensures g.points == 20 <==> personal >= 5 && hasStory
    ensures g.points == 12 <==> personal >= 3 && !(personal >= 5 && hasStory)
    ensures g.points == 5 <==> personal < 3
    ensures g.item.kind == Positive <==> g.points == 20
    ensures g.item.kind == Negative <==> g.points == 5
  {
    if personal >= 5 && hasStory then Grade(20, FeedbackItem(PersonalVoice, Positive, "Personal & Authentic"))
    else if personal >= 3 then Grade(12, FeedbackItem(PersonalVoice, Warning, "Add More Personal Stories"))
    else Grade(5, FeedbackItem(PersonalVoice, Negative, "Too Generic"))
  }

  /** More specific than vague phrases, and at least three, earn 20; two
      specific phrases earn 12; else 5. */
  function SpecificGrade(specific: nat, vague: nat): (g: Grade)
    ensures g.item.criterion == Specificity
    ensures g.points == 20 <==> specific > vague && specific >= 3
    ensures g.points == 12 <==> specific >= 2 && !(specific > vague && specific >= 3)
    ensures g.points == 5 <==> specific < 2
    ensures g.item.kind == Positive <==> g.points == 20
    ensures g.item.kind == Negative <==> g.points == 5
  {
    if specific > vague && specific >= 3 then Grade(20, FeedbackItem(Specificity, Positive, "Specific & Detailed"))
    else if specific >= 2 then Grade(12, FeedbackItem(Specificity, Warning, "Add More Specifics"))
    else Grade(5, FeedbackItem(Specificity, Negative, "Too Vague"))
  }

  /** Four goal words earn 20; two earn 12; else 5. */
  function GoalGrade(goals: nat): (g: Grade)
    ensures g.item.criterion == Goals
    ensures g.points == 20 <==> goals >= 4
    ensures g.points == 12 <==> 2 <= goals < 4
    ensures g.points == 5 <==> goals < 2
    ensures g.item.kind == Positive <==> g.points == 20
    ensures g.item.kind == Negative <==> g.points == 5
  {
    if goals >= 4 then Grade(20, FeedbackItem(Goals, Positive, "Clear Goals & Impact"))
    else if goals >= 2 then Grade(12, FeedbackItem(Goals, Warning, "Strengthen Your Vision"))
    else Grade(5, FeedbackItem(Goals, Negative, "Missing Future Vision"))
  }

  /** 3-5 paragraphs with sentences of 10-25 words on average (exclusive) earn
      15; two paragraphs or more earn 10; else 5. A NaN average fails both
      comparisons. */
  function StructureGrade(paragraphs: nat, avgSentenceLength: JsNumber): (g: Grade)
    ensures g.item.criterion == Structure
    ensures g.points == 15 <==>
              3 <= paragraphs <= 5 && avgSentenceLength.Num?
              && 10.0 < avgSentenceLength.value < 25.0
    ensures g.points == 5 <==> paragraphs < 2
    ensures avgSentenceLength == NaN ==> g.points != 15
    ensures g.points in {5, 10, 15}
    ensures g.item.kind == Positive <==> g.points == 15
    ensures g.item.kind == Negative <==> g.points == 5
  {
    if paragraphs >= 3 && paragraphs <= 5 && avgSentenceLength.Above(10.0) && avgSentenceLength.Below(25.0) then
      Grade(15, FeedbackItem(Structure, Positive, "Well-Structured"))
    else if paragraphs >= 2 then Grade(10, FeedbackItem(Structure, Warning, "Improve Structure"))
    else Grade(5, FeedbackItem(Structure, Negative, "Poor Structure"))
  }

  /** Two passion words earn 10; otherwise 5. */
  function PassionGrade(passion: nat): (g: Grade)
    ensures g.item.criterion == Passion
    ensures g.points == 10 <==> passion >= 2
    ensures g.points == 5 <==> passion < 2
    ensures g.item.kind == Positive <==> g.points == 10
    ensures g.item.kind != Negative
  {
    if passion >= 2 then Grade(10, FeedbackItem(Passion, Positive, "Passionate & Motivated"))
    else Grade(5, FeedbackItem(Passion, Warning, "Show Your Passion"))
  }

  /** The grades of an essay of `words` words, in rubric order. */
  function Grades(words: nat, c: EssayCounts): (gs: seq<Grade>)
    ensures |gs| == |RubricOrder|
    ensures forall i :: 0 <= i < |gs| ==> gs[i].item.criterion == RubricOrder[i]
  {
    [ LengthGrade(words),
      PersonalGrade(c.personal, c.hasStory),
      SpecificGrade(c.specific, c.vague),
      GoalGrade(c.goals),
      StructureGrade(c.paragraphs, c.avgSentenceLength),
      PassionGrade(c.passion) ]
  }

  // ---------------------------------------------------------------------
  // Rating and the whole analysis

  /** The rating bands; each includes its lower bound. */
  function RatingFor(percentage: int): (r: Rating)
    ensures r == Excellent <==> percentage >= 85
    ensures r == Good <==> 70 <= percentage < 85
    ensures r == NeedsWork <==> 50 <= percentage < 70
    ensures r == NeedsMajorRevision <==> percentage < 50
  {
    if percentage >= 85 then Excellent
    else if percentage >= 70 then Good
    else if percentage >= 50 then NeedsWork
    else NeedsMajorRevision
  }

  function RatingRank(r: Rating): nat {
    match r
    case NeedsMajorRevision => 0
    case NeedsWork => 1
    case Good => 2
    case Excellent => 3
  }

  /** A higher percentage never earns a lower rating. */
  lemma RatingMonotone(percentage: int, higher: int)
    requires percentage <= higher
    ensures RatingRank(RatingFor(percentage)) <= RatingRank(RatingFor(higher))
  {
  }

  /** The analysis of an essay long enough to be checked: the points of the
      six grades added up, their feedback in rubric order, and the rating of
      the rounded percentage. */
  function Review(words: nat, c: EssayCounts): (a: EssayAnalysis)
    ensures 33 <= a.score <= RubricMax == a.maxScore
    ensures |a.feedback| == |RubricOrder|
    ensures forall i :: 0 <= i < |RubricOrder| ==> a.feedback[i] == Grades(words, c)[i].item
    ensures a.percentage == a.score
    ensures a.rating == RatingFor(a.score)
  {
    var gs := Grades(words, c);
    var score := gs[0].points + gs[1].points + gs[2].points + gs[3].points + gs[4].points + gs[5].points;
    RoundOfInteger(score);
    assert (score as real) / (RubricMax as real) * 100.0 == score as real;
    var percentage := Round((score as real) / (RubricMax as real) * 100.0);
    var feedback := [gs[0].item, gs[1].item, gs[2].item, gs[3].item, gs[4].item, gs[5].item];
    EssayAnalysis(score, RubricMax, feedback, percentage, RatingFor(percentage))
  }

  /** The top tier of every criterion together make the full 100 points. */
  lemma PerfectEssay(words: nat, c: EssayCounts)
    requires 250 <= words <= 650
    requires c.personal >= 5 && c.hasStory
    requires c.specific > c.vague && c.specific >= 3
    requires c.goals >= 4
    requires 3 <= c.paragraphs <= 5 && c.avgSentenceLength.Num?
    requires 10.0 < c.avgSentenceLength.value < 25.0
    requires c.passion >= 2
    ensures Review(words, c).score == 100
    ensures Review(words, c).rating == Excellent
    ensures forall i :: 0 <= i < 6 ==> Review(words, c).feedback[i].kind == Positive
  {
  }

  /** More goal words never lower the score. */
  lemma ScoreMonotoneInGoals(words: nat, c: EssayCounts, moreGoals: nat)
    requires c.goals <= moreGoals
    ensures Review(words, c).score <= Review(words, c.(goals := moreGoals)).score
  {
  }

  /** More vague words never raise the score. */
  lemma ScoreAntitoneInVagueness(words: nat, c: EssayCounts, moreVague: nat)
    requires c.vague <= moreVague
    ensures Review(words, c.(vague := moreVague)).score <= Review(words, c).score
  {
  }

  // ---------------------------------------------------------------------
  // The imperative checker

  /** checkEssayQuality: refuses an essay under 100 trimmed characters;
      otherwise, criterion by criterion, adds the tier's points to the score and
      pushes its feedback item, then rates the rounded percentage. */
  method CheckEssayQuality(text: string, c: EssayCounts) returns (r: EssayCheck)
    ensures r == TooShort <==> |Trim(text)| < MinEssayLength
    ensures r.Analysed? ==> r.analysis == Review(WordCount(text), c)
  {
    var t := Trim(text);
    if |t| < MinEssayLength {
      return TooShort;
    }

    var score: nat := 0;
    var feedback: seq<FeedbackItem> := [];
    var wordCount := SplitPieces(t);
    var grade: Grade;

    grade := LengthGrade(wordCount);
    score, feedback := score + grade.points, feedback + [grade.item];

    grade := PersonalGrade(c.personal, c.hasStory);
    score, feedback := score + grade.points, feedback + [grade.item];

    grade := SpecificGrade(c.specific, c.vague);
    score, feedback := score + grade.points, feedback + [grade.item];

    grade := GoalGrade(c.goals);
    score, feedback := score + grade.points, feedback + [grade.item];

    grade := StructureGrade(c.paragraphs, c.avgSentenceLength);
    score, feedback := score + grade.points, feedback + [grade.item];

    grade := PassionGrade(c.passion);
    score, feedback := score + grade.points, feedback + [grade.item];

    var percentage := Round((score as real) / (RubricMax as real) * 100.0);
    var rating: Rating;
    if percentage >= 85 {
      rating := Excellent;
    } else if percentage >= 70 {
      rating := Good;
    } else if percentage >= 50 {
      rating := NeedsWork;
    } else {
      rating := NeedsMajorRevision;
    }

    RoundOfInteger(score);
    assert (score as real) / (RubricMax as real) * 100.0 == score as real;
    assert WordCount(text) == wordCount;
    ReviewOfGrades(wordCount, c, score, feedback);
    r := Analysed(EssayAnalysis(score, RubricMax, feedback, percentage, rating));
  }

  /** Review is determined by the grades' points and feedback. */
  lemma ReviewOfGrades(words: nat, c: EssayCounts, score: nat, feedback: seq<FeedbackItem>)
    requires var gs := Grades(words, c);
             score == gs[0].points + gs[1].points + gs[2].points + gs[3].points + gs[4].points + gs[5].points
    requires var gs := Grades(words, c);
             feedback == [gs[0].item, gs[1].item, gs[2].item, gs[3].item, gs[4].item, gs[5].item]
    ensures Review(words, c) == EssayAnalysis(score, RubricMax, feedback, score, RatingFor(score))
  {
  }
}
