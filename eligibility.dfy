/** The local eligibility check: four criteria, always all evaluated, each
    leaving exactly one reason behind. */
module Eligibility {
  import opened Text
  import opened Catalog
  import opened Form

  datatype Criterion = GpaCriterion | IncomeCriterion | CourseCriterion | ActivitiesCriterion

  /** The order in which the criteria are checked and their reasons listed. */
  const CriteriaOrder: seq<Criterion> :=
    [GpaCriterion, IncomeCriterion, CourseCriterion, ActivitiesCriterion]

  /** The reasons shown on a result card. The message text is left to the page;
      each reason keeps the values its message interpolates. */
  datatype Reason =
    | GpaMeets(gpa: real)                            // "Your GPA of .. meets the requirement"
    | GpaBelow(minGpa: real, gpa: real)              // "GPA must be at least .. (you have ..)"
    | IncomeMatches                                  // "Income level matches requirements"
    | IncomeMismatch                                 // "Income level does not match requirements"
    | OpenToAllFields                                // "Open to all fields of study"
    | FieldMatches                                   // "Your field of study matches requirements"
    | FieldMustBeOneOf(courses: seq<string>)         // "Field of study must be one of: .."
    | ActivitiesMatch                                // "Your activities match requirements"
    | ActivitiesMustInclude(activities: seq<string>) // "Activities must include: .."
  {
    /** Whether the reason reports a criterion that is met. */
    predicate Met() {
      GpaMeets? || IncomeMatches? || OpenToAllFields? || FieldMatches? || ActivitiesMatch?
    }

    function CriterionOf(): Criterion {
      match this
      case GpaMeets(_) | GpaBelow(_, _) => GpaCriterion
      case IncomeMatches | IncomeMismatch => IncomeCriterion
      case OpenToAllFields | FieldMatches | FieldMustBeOneOf(_) => CourseCriterion
      case ActivitiesMatch | ActivitiesMustInclude(_) => ActivitiesCriterion
    }
  }

  datatype EligibilityResult = EligibilityResult(
    isEligible: bool,
    reasons: seq<Reason>,
    scholarship: Scholarship)

  // ---------------------------------------------------------------------
  // The four criteria

  /** A GPA below the minimum fails; equal or above passes. */
  predicate GpaMet(req: Requirements, st: Student) {
    !(st.gpa < req.minGpa)
  }

  predicate IncomeMet(req: Requirements, st: Student) {
    st.income in req.income
  }

  /** `courses[0] === 'all'`; an empty list has no first element and is not open. */
  predicate OpenToAll(req: Requirements)
    ensures OpenToAll(req) <==> [AllFields] <= req.courses
    ensures req.courses == [] ==> !OpenToAll(req)
  {
    |req.courses| > 0 && req.courses[0] == AllFields
  }

  predicate CourseMet(req: Requirements, st: Student) {
    OpenToAll(req) || MatchesAny(st.course, req.courses)
  }

  /** Only a scholarship that lists activities asks for one of them. */
  predicate ActivitiesRequired(req: Requirements) {
    |req.activities| > 0
  }

  predicate ActivitiesMet(req: Requirements, st: Student) {
    !ActivitiesRequired(req) || MatchesAny(st.activities, req.activities)
  }

  // ---------------------------------------------------------------------
  // Reasons per criterion

  function GpaReason(req: Requirements, st: Student): (r: Reason)
    ensures r.CriterionOf() == GpaCriterion
    ensures r.Met() <==> GpaMet(req, st)
  {
    if st.gpa < req.minGpa then GpaBelow(req.minGpa, st.gpa) else GpaMeets(st.gpa)
  }

  function IncomeReason(req: Requirements, st: Student): (r: Reason)
    ensures r.CriterionOf() == IncomeCriterion
    ensures r.Met() <==> IncomeMet(req, st)
  {
    if st.income in req.income then IncomeMatches else IncomeMismatch
  }

  function CourseReason(req: Requirements, st: Student): (r: Reason)
    ensures r.CriterionOf() == CourseCriterion
    ensures r.Met() <==> CourseMet(req, st)
    ensures r == OpenToAllFields <==> OpenToAll(req)
  {
    if OpenToAll(req) then OpenToAllFields
    else if MatchesAny(st.course, req.courses) then FieldMatches
    else FieldMustBeOneOf(req.courses)
  }

  function ActivitiesReason(req: Requirements, st: Student): (r: Reason)
    requires ActivitiesRequired(req)
    ensures r.CriterionOf() == ActivitiesCriterion
    ensures r.Met() <==> ActivitiesMet(req, st)
  {
    if MatchesAny(st.activities, req.activities) then ActivitiesMatch
    else ActivitiesMustInclude(req.activities)
  }

  // ---------------------------------------------------------------------
  // The result

  /** Every reason in the list reports a met criterion. */
  predicate AllMet(reasons: seq<Reason>) {
    forall i :: 0 <= i < |reasons| ==> reasons[i].Met()
  }

  /** What checking `s` against `st` yields: one reason per applicable criterion,
      and eligibility exactly when every reason reports a met criterion. */
  function Evaluation(s: Scholarship, st: Student): (r: EligibilityResult)
    ensures r.scholarship == s
    ensures |r.reasons| == if ActivitiesRequired(s.requirements) then 4 else 3
    ensures forall i :: 0 <= i < |r.reasons| ==> r.reasons[i].CriterionOf() == CriteriaOrder[i]
  {
    var req := s.requirements;
    var reasons := [GpaReason(req, st), IncomeReason(req, st), CourseReason(req, st)]
                   + (if ActivitiesRequired(req) then [ActivitiesReason(req, st)] else []);
    EligibilityResult(AllMet(reasons), reasons, s)
  }

  /** A student is eligible exactly when all four criteria hold. */
  lemma EligibleIff(s: Scholarship, st: Student)
    ensures Evaluation(s, st).isEligible <==>
              && GpaMet(s.requirements, st) && IncomeMet(s.requirements, st)
              && CourseMet(s.requirements, st) && ActivitiesMet(s.requirements, st)
  {
    var r := Evaluation(s, st);
    var req := s.requirements;
    var all := GpaMet(req, st) && IncomeMet(req, st) && CourseMet(req, st) && ActivitiesMet(req, st);
    assert r.reasons[0] == GpaReason(req, st);
    assert r.reasons[1] == IncomeReason(req, st);
    assert r.reasons[2] == CourseReason(req, st);
    assert ActivitiesRequired(req) ==> r.reasons[3] == ActivitiesReason(req, st);
    assert r.isEligible == AllMet(r.reasons);
    if all {
      forall i | 0 <= i < |r.reasons| ensures r.reasons[i].Met() {
      }
    } else if !GpaMet(req, st) {
      assert !r.reasons[0].Met();
    } else if !IncomeMet(req, st) {
      assert !r.reasons[1].Met();
    } else if !CourseMet(req, st) {
      assert !r.reasons[2].Met();
    } else {
      assert !r.reasons[3].Met();
    }
  }

  /** Raising the GPA, all else equal, never makes an eligible student ineligible. */
  lemma EligibilityMonotoneInGpa(s: Scholarship, st: Student, higher: real)
    requires st.gpa <= higher
    requires Evaluation(s, st).isEligible
    ensures Evaluation(s, st.(gpa := higher)).isEligible
  {
    EligibleIff(s, st);
    EligibleIff(s, st.(gpa := higher));
  }

  /** A scholarship open to all fields ignores the student's field of study. */
  lemma OpenToAllIgnoresCourse(s: Scholarship, st: Student, course: string)
    requires OpenToAll(s.requirements)
    ensures Evaluation(s, st.(course := course)) == Evaluation(s, st)
  {
    var st' := st.(course := course);
    var req := s.requirements;
    assert GpaReason(req, st') == GpaReason(req, st);
    assert IncomeReason(req, st') == IncomeReason(req, st);
    assert CourseReason(req, st') == CourseReason(req, st) == OpenToAllFields;
    assert ActivitiesRequired(req) ==> ActivitiesReason(req, st') == ActivitiesReason(req, st);
  }

  // ---------------------------------------------------------------------
  // The imperative check

  /** checkEligibility: runs the criteria in order, appending one reason each
      and clearing `isEligible` on every failure. */
  method CheckEligibility(s: Scholarship, st: Student) returns (result: EligibilityResult)
    ensures result == Evaluation(s, st)
  {
    var req := s.requirements;
    var reasons: seq<Reason> := [];
    var isEligible := true;

    if st.gpa < req.minGpa {
      isEligible := false;
      reasons := reasons + [GpaBelow(req.minGpa, st.gpa)];
    } else {
      reasons := reasons + [GpaMeets(st.gpa)];
    }

    if st.income !in req.income {
      isEligible := false;
      reasons := reasons + [IncomeMismatch];
    } else {
      reasons := reasons + [IncomeMatches];
    }

    if !(|req.courses| > 0 && req.courses[0] == AllFields) {
      var courseMatch := MatchesAny(st.course, req.courses);
      if !courseMatch {
        isEligible := false;
        reasons := reasons + [FieldMustBeOneOf(req.courses)];
      } else {
        reasons := reasons + [FieldMatches];
      }
    } else {
      reasons := reasons + [OpenToAllFields];
    }

    if |req.activities| > 0 {
      var activitiesMatch := MatchesAny(st.activities, req.activities);
      if !activitiesMatch {
        isEligible := false;
        reasons := reasons + [ActivitiesMustInclude(req.activities)];
      } else {
        reasons := reasons + [ActivitiesMatch];
      }
    }

    result := EligibilityResult(isEligible, reasons, s);
    EligibleIff(s, st);
  }

  /** findScholarships: the check applied to every catalog entry, in catalog order. */
  method FindScholarships(st: Student) returns (results: seq<EligibilityResult>)
    ensures |results| == |Scholarships()|
    ensures forall i :: 0 <= i < |results| ==> results[i].scholarship == Scholarships()[i]
    ensures forall i :: 0 <= i < |results| ==> results[i] == Evaluation(Scholarships()[i], st)
  {
    var catalog := Scholarships();
    results := [];
    for i := 0 to |catalog|
      invariant |results| == i
      invariant forall j :: 0 <= j < i ==> results[j] == Evaluation(catalog[j], st)
    {
      var r := CheckEligibility(catalog[i], st);
      results := results + [r];
    }
  }
}
