/** The match score: a 0-100 estimate of fit, computed independently of the
    eligibility gate, and the badge band it is shown with. */
module MatchScore {
  import opened Numbers
  import opened Text
  import opened Catalog
  import opened Form
  import opened Eligibility

  /** The most each component can contribute; they add up to 100. */
  const GpaWeight: real := 40.0
  const IncomeWeight: real := 20.0
  const CourseWeight: real := 25.0
  const ActivitiesWeight: real := 15.0
  const MaxPoints: real := GpaWeight + IncomeWeight + CourseWeight + ActivitiesWeight

  /** The GPA component: 30 at the minimum, plus 10 per grade point above it up
      to 40, or minus 15 per grade point below it down to 0. */
  function GpaPoints(minGpa: real, gpa: real): (p: real)
    ensures 0.0 <= p <= GpaWeight
    ensures gpa == minGpa ==> p == 30.0
    ensures gpa >= minGpa <==> p >= 30.0
    ensures gpa >= minGpa + 1.0 <==> p == GpaWeight
    ensures gpa <= minGpa - 2.0 <==> p == 0.0
  {
    if gpa >= minGpa then MinReal(40.0, 30.0 + (gpa - minGpa) * 10.0)
    else MaxReal(0.0, 30.0 - (minGpa - gpa) * 15.0)
  }

  /** A higher GPA never earns fewer GPA points. */
  lemma GpaPointsMonotone(minGpa: real, gpa: real, higher: real)
    requires gpa <= higher
    ensures GpaPoints(minGpa, gpa) <= GpaPoints(minGpa, higher)
  {
  }

  /** The income component: all or nothing. */
  function IncomePoints(req: Requirements, st: Student): (p: real)
    ensures p == 0.0 || p == IncomeWeight
    ensures p == IncomeWeight <==> IncomeMet(req, st)
  {
    if st.income in req.income then 20.0 else 0.0
  }

  /** The course component: all or nothing, and always full when the
      scholarship is open to every field. */
  function CoursePoints(req: Requirements, st: Student): (p: real)
    ensures p == 0.0 || p == CourseWeight
    ensures p == CourseWeight <==> CourseMet(req, st)
    ensures OpenToAll(req) ==> p == CourseWeight
  {
    if |req.courses| > 0 && req.courses[0] == AllFields then 25.0
    else if MatchesAny(st.course, req.courses) then 25.0
    else 0.0
  }

  /** The activities component: full without a requirement or with a match,
      partial credit of 5 otherwise; never 0. */
  function ActivitiesPoints(req: Requirements, st: Student): (p: real)
    ensures p == 5.0 || p == ActivitiesWeight
    ensures p == ActivitiesWeight <==> ActivitiesMet(req, st)
    ensures !ActivitiesRequired(req) ==> p == ActivitiesWeight
  {
    if |req.activities| == 0 then 15.0
    else if MatchesAny(st.activities, req.activities) then 15.0
    else 5.0
  }

  /** The four components added up. */
  function MatchPoints(req: Requirements, st: Student): (p: real)
    ensures 5.0 <= p <= MaxPoints
  {
    GpaPoints(req.minGpa, st.gpa) + IncomePoints(req, st) + CoursePoints(req, st)
    + ActivitiesPoints(req, st)
  }

  /** The score shown on the card: the points as a rounded percentage of the maximum. */
  function MatchPercent(s: Scholarship, st: Student): (pct: int)
    ensures 0 <= pct <= 100
    ensures pct == Round(MatchPoints(s.requirements, st))
  {
    var points := MatchPoints(s.requirements, st);
    assert points / MaxPoints * 100.0 == points;
    Round(points / MaxPoints * 100.0)
  }

  /** calculateMatchScore: accumulates the earned and the possible points
      component by component, then rounds the percentage. */
  method CalculateMatchScore(s: Scholarship, st: Student) returns (pct: int)
    ensures pct == MatchPercent(s, st)
    ensures 0 <= pct <= 100
  {
    var req := s.requirements;
    var score: real := 0.0;
    var maxScore: real := 0.0;

    maxScore := maxScore + 40.0;
    var gpa := st.gpa;
    if gpa >= req.minGpa {
      var excess := gpa - req.minGpa;
      score := score + MinReal(40.0, 30.0 + excess * 10.0);
    } else {
      var deficit := req.minGpa - gpa;
      score := score + MaxReal(0.0, 30.0 - deficit * 15.0);
    }

    maxScore := maxScore + 20.0;
    if st.income in req.income {
      score := score + 20.0;
    }

    maxScore := maxScore + 25.0;
    if |req.courses| > 0 && req.courses[0] == AllFields {
      score := score + 25.0;
    } else {
      var courseMatch := MatchesAny(st.course, req.courses);
      score := score + if courseMatch then 25.0 else 0.0;
    }

    maxScore := maxScore + 15.0;
    if |req.activities| == 0 {
      score := score + 15.0;
    } else {
      var activityMatch := MatchesAny(st.activities, req.activities);
      score := score + if activityMatch then 15.0 else 5.0;
    }

    assert score == MatchPoints(req, st);
    assert maxScore == MaxPoints;
    pct := Round(score / maxScore * 100.0);
  }

  /** Raising the GPA, all else equal, never lowers the match score. */
  lemma MatchPercentMonotoneInGpa(s: Scholarship, st: Student, higher: real)
    requires st.gpa <= higher
    ensures MatchPercent(s, st) <= MatchPercent(s, st.(gpa := higher))
  {
    var req := s.requirements;
    var st' := st.(gpa := higher);
    GpaPointsMonotone(req.minGpa, st.gpa, higher);
    assert IncomePoints(req, st') == IncomePoints(req, st);
    assert CoursePoints(req, st') == CoursePoints(req, st);
    assert ActivitiesPoints(req, st') == ActivitiesPoints(req, st);
    RoundMonotone(MatchPoints(req, st), MatchPoints(req, st'));
  }

  // ---------------------------------------------------------------------
  // Badge

  datatype Badge = ExcellentMatch | GoodMatch | LowMatch

  /** The band of getMatchScoreBadge; each band includes its lower bound. */
  function MatchBadge(score: int): (b: Badge)
    ensures b == ExcellentMatch <==> score >= 80
    ensures b == GoodMatch <==> 60 <= score < 80
    ensures b == LowMatch <==> score < 60
  {
    if score >= 80 then ExcellentMatch
    else if score >= 60 then GoodMatch
    else LowMatch
  }

  function BadgeRank(b: Badge): nat {
    match b
    case LowMatch => 0
    case GoodMatch => 1
    case ExcellentMatch => 2
  }

  /** A higher score never earns a lower badge. */
  lemma BadgeMonotone(score: int, higher: int)
    requires score <= higher
    ensures BadgeRank(MatchBadge(score)) <= BadgeRank(MatchBadge(higher))
  {
  }

  // ---------------------------------------------------------------------
  // Score and eligibility

  /** Every eligible scholarship scores at least 90: meeting the GPA minimum is
      worth at least 30 and the other three criteria give full points. */
  lemma EligibleScoresExcellent(s: Scholarship, st: Student)
    requires Evaluation(s, st).isEligible
    ensures MatchPercent(s, st) >= 90
    ensures MatchBadge(MatchPercent(s, st)) == ExcellentMatch
  {
    EligibleIff(s, st);
    var req := s.requirements;
    assert MatchPoints(req, st) >= 90.0;
    RoundMonotone(90.0, MatchPoints(req, st));
    RoundOfInteger(90);
  }

  /** A score below 90 therefore always belongs to an ineligible result. */
  lemma LowScoreMeansIneligible(s: Scholarship, st: Student)
    requires MatchPercent(s, st) < 90
    ensures !Evaluation(s, st).isEligible
  {
    if Evaluation(s, st).isEligible {
      EligibleScoresExcellent(s, st);
    }
  }

  // ---------------------------------------------------------------------
  // Two profiles worked through

  /** A computer-science student with GPA 3.6 against the STEM grant (minimum
      3.0): eligible, and 36 + 20 + 25 + 15 = 96 points, an excellent match. */
  lemma StemGrantExample()
    ensures var st := Student(3.6, "medium", "Computer Science", "debate club");
            var s := Scholarships()[2];
            && Evaluation(s, st).isEligible
            && MatchPercent(s, st) == 96
            && MatchBadge(96) == ExcellentMatch
  {
    var st := Student(3.6, "medium", "Computer Science", "debate club");
    var s := Scholarships()[2];
    var req := s.requirements;
    assert Lower(st.course) == "computer science";
    assert Lower(req.courses[0]) == "computer science";
    assert OccursAt(Lower(st.course), Lower(req.courses[0]), 0);
    assert MatchesAny(st.course, req.courses);
    EligibleIff(s, st);
    assert MatchPoints(req, st) == 96.0;
    RoundOfInteger(96);
  }

  /** An art-history student with GPA 2.0 against the merit scholarship
      (minimum 3.5): ineligible on GPA, yet 7.5 + 20 + 25 + 15 = 67.5 points,
      which rounds to 68, a good match. */
  lemma MeritScholarshipExample()
    ensures var st := Student(2.0, "high", "Art History", "");
            var s := Scholarships()[0];
            && !Evaluation(s, st).isEligible
            && GpaPoints(s.requirements.minGpa, st.gpa) == 7.5
            && MatchPercent(s, st) == 68
            && MatchBadge(68) == GoodMatch
  {
    var st := Student(2.0, "high", "Art History", "");
    var s := Scholarships()[0];
    EligibleIff(s, st);
    assert MatchPoints(s.requirements, st) == 67.5;
    RoundUnique(67.5, 68);
  }
}
