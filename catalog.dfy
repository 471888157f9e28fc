/** The fixed list of scholarships the local matcher evaluates. */
module Catalog {

  /** What a scholarship demands of a student. `courses` is either the sentinel
      `["all"]` or keywords of which one must occur in the student's field of
      study; an empty `activities` list means no activity is required. */
  datatype Requirements = Requirements(
    minGpa: real,
    income: seq<string>,
    courses: seq<string>,
    activities: seq<string>)

  datatype Scholarship = Scholarship(
    id: nat,
    name: string,
    description: string,
    requirements: Requirements,
    amount: string,
    deadline: string)

  /** The course keyword that opens a scholarship to every field of study. */
  const AllFields: string := "all"

  /** The values the income selector can submit. */
  const IncomeBrackets: seq<string> := ["low", "medium", "high"]

  /** The requirements are of the form the matcher expects: a minimum on the
      0.0-4.0 scale, a non-empty set of known income brackets, and at least one
      course keyword. */
  ghost predicate WellFormed(req: Requirements) {
    && 0.0 <= req.minGpa <= 4.0
    && |req.income| > 0
    && (forall b :: b in req.income ==> b in IncomeBrackets)
    && |req.courses| > 0
  }

  /** Every income bracket a scholarship accepts: all three. */
  function AnyIncome(): (brackets: seq<string>)
    ensures |brackets| > 0 && forall b :: b in brackets ==> b in IncomeBrackets
  {
    IncomeBrackets
  }

  /** The lower two income brackets. */
  function LowOrMediumIncome(): (brackets: seq<string>)
    ensures |brackets| > 0 && forall b :: b in brackets ==> b in IncomeBrackets
  {
    assert IncomeBrackets[0] == "low" && IncomeBrackets[1] == "medium";
    IncomeBrackets[..2]
  }

  /** Merit Excellence Scholarship: any field and income, GPA 3.5. */
  function MeritExcellence(): (s: Scholarship)
    ensures s.id == 1 && WellFormed(s.requirements)
  {
    Scholarship(
      1,
      "Merit Excellence Scholarship",
      "For high-achieving students with outstanding academic performance",
      Requirements(3.5, AnyIncome(), ["all"], []),
      "$5,000",
      "2026-03-15")
  }

  /** Community Service Award: low or medium income, GPA 2.5, volunteering. */
  function CommunityService(): (s: Scholarship)
    ensures s.id == 2 && WellFormed(s.requirements)
  {
    Scholarship(
      2,
      "Community Service Award",
      "For students dedicated to community service and volunteering",
      Requirements(2.5, LowOrMediumIncome(), ["all"],
                   ["community service", "volunteering", "volunteer"]),
      "$3,000",
      "2026-04-01")
  }

  /** STEM Future Leaders Grant: science and engineering fields, GPA 3.0. */
  function StemFutureLeaders(): (s: Scholarship)
    ensures s.id == 3 && WellFormed(s.requirements)
  {
    Scholarship(
      3,
      "STEM Future Leaders Grant",
      "Supporting students pursuing careers in Science, Technology, Engineering, or Math",
      Requirements(3.0, AnyIncome(),
                   ["computer science", "engineering", "mathematics", "physics",
                    "chemistry", "biology", "technology"],
                   []),
      "$7,500",
      "2026-02-28")
  }

  /** First Generation College Student Scholarship: low or medium income, GPA 2.0. */
  function FirstGeneration(): (s: Scholarship)
    ensures s.id == 4 && WellFormed(s.requirements)
  {
    Scholarship(
      4,
      "First Generation College Student Scholarship",
      "For students who are the first in their family to attend college",
      Requirements(2.0, LowOrMediumIncome(), ["all"], []),
      "$4,000",
      "2026-05-15")
  }

  /** Athletic Achievement Scholarship: GPA 2.8 and a sport among the activities. */
  function AthleticAchievement(): (s: Scholarship)
    ensures s.id == 5 && WellFormed(s.requirements)
  {
    Scholarship(
      5,
      "Athletic Achievement Scholarship",
      "For student-athletes who excel in sports and academics",
      Requirements(2.8, AnyIncome(), ["all"],
                   ["basketball", "football", "soccer", "track", "swimming",
                    "sports", "athletic", "team"]),
      "$6,000",
      "2026-03-30")
  }

  /** Women in Business Scholarship: business fields, GPA 3.2. */
  function WomenInBusiness(): (s: Scholarship)
    ensures s.id == 6 && WellFormed(s.requirements)
  {
    Scholarship(
      6,
      "Women in Business Scholarship",
      "Empowering women pursuing business and entrepreneurship",
      Requirements(3.2, AnyIncome(),
                   ["business", "commerce", "finance", "accounting",
                    "entrepreneurship", "marketing"],
                   []),
      "$5,500",
      "2026-04-20")
  }

  /** The six scholarships, in the order they are listed and evaluated. */
  function Scholarships(): (c: seq<Scholarship>)
    ensures |c| == 6
    ensures forall i :: 0 <= i < |c| ==> c[i].id == i + 1 && WellFormed(c[i].requirements)
  {
    [MeritExcellence(), CommunityService(), StemFutureLeaders(), FirstGeneration(),
     AthleticAchievement(), WomenInBusiness()]
  }
}
