/** The eligibility form: the three field validators and the student profile
    that a valid submission hands to the matcher. */
module Form {
  import opened Numbers
  import opened Text

  /** The profile the matcher works on. `gpa` is a number here: the form is
      validated before a profile is built, so NaN never reaches the matcher. */
  datatype Student = Student(gpa: real, income: string, course: string, activities: string)

  /** One message per way a field can be rejected. */
  datatype ValidationError =
    | GpaRequired       // "GPA is required"
    | GpaOutOfRange     // "GPA must be between 0.0 and 4.0"
    | IncomeRequired    // "Please select an income range"
    | CourseRequired    // "Please enter your field of study"
    | CourseTooShort    // "Field of study must be at least 2 characters"

  datatype Validation = Valid | Invalid(error: ValidationError)

  /** validateGPA, applied to `parseFloat` of the field: a falsy number (NaN or
      0) is missing, anything outside 0.0-4.0 is out of range. */
  function ValidateGpa(gpa: JsNumber): (v: Validation)
    ensures v == Valid <==> gpa.Num? && 0.0 < gpa.value <= 4.0
    ensures v == Invalid(GpaRequired) <==> gpa == NaN || gpa == Num(0.0)
    ensures v == Invalid(GpaOutOfRange) <==> gpa.Num? && (gpa.value < 0.0 || gpa.value > 4.0)
  {
    if !gpa.Truthy() then Invalid(GpaRequired)
    else if gpa.value < 0.0 || gpa.value > 4.0 then Invalid(GpaOutOfRange)
    else Valid
  }

  /** validateIncome: the selector's value must not be the empty placeholder. */
  function ValidateIncome(income: string): (v: Validation)
    ensures v == Valid <==> income != ""
    ensures v != Valid ==> v == Invalid(IncomeRequired)
  {
    if income == "" then Invalid(IncomeRequired) else Valid
  }

  /** validateCourse: at least two characters once surrounding whitespace is gone. */
  function ValidateCourse(course: string): (v: Validation)
    ensures v == Valid <==> |Trim(course)| >= 2
    ensures v == Invalid(CourseRequired) <==> forall j :: 0 <= j < |course| ==> IsWhitespace(course[j])
    ensures v == Invalid(CourseTooShort) <==> |Trim(course)| == 1
  {
    if course == "" || |Trim(course)| == 0 then Invalid(CourseRequired)
    else if |Trim(course)| < 2 then Invalid(CourseTooShort)
    else Valid
  }

  datatype Submission = Accepted(profile: Student) | Rejected(errors: seq<ValidationError>)

  /** The error of a failed validation, as a list of zero or one messages. */
  function Errors(v: Validation): seq<ValidationError> {
    if v.Invalid? then [v.error] else []
  }

  /** The validation step of the form's submit handler: all three fields are
      checked (no early exit) and every failure is reported, in field order; on
      success the profile carries the parsed GPA and the trimmed texts. */
  function SubmitForm(gpaField: JsNumber, income: string, course: string, activities: string): (s: Submission)
    ensures s.Accepted? <==>
              ValidateGpa(gpaField) == Valid && ValidateIncome(income) == Valid && ValidateCourse(course) == Valid
    ensures s.Accepted? ==>
              && gpaField.Num? && 0.0 < s.profile.gpa == gpaField.value <= 4.0
              && s.profile.income == income != ""
              && |s.profile.course| >= 2 && s.profile.course == Trim(course)
              && s.profile.activities == Trim(activities)
    ensures s.Rejected? ==>
              && 1 <= |s.errors| <= 3
              && s.errors == Errors(ValidateGpa(gpaField)) + Errors(ValidateIncome(income))
                             + Errors(ValidateCourse(course))
  {
    var errors := Errors(ValidateGpa(gpaField)) + Errors(ValidateIncome(income))
                  + Errors(ValidateCourse(course));
    if errors != [] then Rejected(errors)
    else Accepted(Student(gpaField.value, income, Trim(course), Trim(activities)))
  }

  /** The profile of an accepted submission passes the validators again: its
      GPA is in range, its income is selected, and its course, already
      trimmed, still has at least two characters. */
  lemma AcceptedProfileRevalidates(gpaField: JsNumber, income: string, course: string, activities: string)
    requires SubmitForm(gpaField, income, course, activities).Accepted?
    ensures var p := SubmitForm(gpaField, income, course, activities).profile;
            && ValidateGpa(Num(p.gpa)) == Valid
            && ValidateIncome(p.income) == Valid
            && ValidateCourse(p.course) == Valid
  {
    TrimIdempotent(course);
  }
}
