# Scholarship finder: eligibility, match score and essay rubric in Dafny

This project models the decision logic of a client-side scholarship finder
(`js/app.js`). A student fills in a form (GPA, income bracket, field of study,
activities). The page validates the form, checks the student against a fixed
catalog of six scholarships, and gives each one an eligibility verdict with one
reason per criterion and a 0-100 match score with a badge. A separate essay
helper counts words, labels the tone of the text, and scores it against a
six-criterion rubric.

Modules, one per component:

- `Numbers` (`numbers.dfy`): JavaScript numbers as `NaN | Num(real)`, truthiness,
  comparisons that are false on NaN, and `Math.round` as floor(x + 1/2).
- `Text` (`text.dfy`): the whitespace set used by `trim` and `\s`, ASCII
  lower-casing, `includes`, the case-insensitive keyword match, `trim`, and the
  `split(/\s+/)` word count. The word count is proved equal to an independent
  count of words.
- `Catalog` (`catalog.dfy`): the six scholarship records.
- `Form` (`form.dfy`): the three field validators and the validation step of
  the submit handler, which builds the student profile.
- `Eligibility` (`eligibility.dfy`): the four criteria, the reasons they leave,
  the specification `Evaluation`, and the imperative `CheckEligibility` and
  `FindScholarships` proved against it.
- `MatchScore` (`match_score.dfy`): the four score components, the percentage,
  the imperative `CalculateMatchScore` proved against it, and the badge bands.
  It also proves that an eligible scholarship always scores at least 90.
- `Essay` (`essay.dfy`): the six rubric criteria as tier functions, the
  analysis they add up to, the rating bands, and the imperative
  `CheckEssayQuality`, which accumulates score and feedback criterion by
  criterion.
- `Tone` (`tone.dfy`): the per-word match counts, the imperative `ScoreTone`
  that adds them up as the `forEach` loops do, the formal and casual scores, and
  the three-way label.

GPA values are exact reals, not IEEE doubles. The regular-expression match
counts in the essay and tone analysers are inputs. These counts are personal,
story, specific, vague, goal and passion words, paragraphs, and the average
sentence length.

A 2.0-GPA student against the merit scholarship (minimum 3.5) earns
max(0, 30 - 15 × 1.5) = 7.5 GPA points, 67.5 in all, which rounds to 68, a
"Good Match" (`MatchScore.MeritScholarshipExample`).

## Model

| member | source | states |
|---|---|---|
| `Numbers.Round` | js/app.js:387 | `Math.round` returns the unique integer in (x - 1/2, x + 1/2], so halves round up |
| `Numbers.RoundOfInteger` | js/app.js:1134 | rounding a whole number of points gives the same number back, so the essay percentage equals the score |
| `Text.Contains` | js/app.js:369-371 | `hay.includes(needle)` is true exactly when `needle` occurs at some index of `hay` |
| `Text.Lower` | js/app.js:445-446 | `toLowerCase` keeps the length, leaves no upper-case ASCII letter, and maps each character on its own |
| `Text.LeadingSpace` | js/app.js:212 | counts exactly the run of whitespace at the start of the text |
| `Text.TrailingSpace` | js/app.js:212 | counts exactly the run of whitespace at the end of the text |
| `Text.Trim` | js/app.js:212-215 | `trim` gives the slice between the leading and trailing whitespace; the result is empty exactly when the text is all whitespace, and otherwise starts and ends with a non-space |
| `Text.TrimIdempotent` | js/app.js:945 | trimming an already trimmed text changes nothing |
| `Text.WordsAndRuns` | js/app.js:854 | in a text starting with a non-space, words and whitespace runs alternate |
| `Text.SplitPieces` | js/app.js:854 | `split(/\s+/)` yields at least one piece; on text that starts and ends with a non-space, the number of pieces is the number of words |
| `Text.IsWhitespace` | js/app.js:212 | among ASCII characters exactly space and tab through carriage return are whitespace; no letter or digit is |
| `Text.MatchesAny` | js/app.js:369-371 | the case-insensitive `some(... includes ...)` holds exactly when some lower-cased keyword occurs at some index of the lower-cased text; never for an empty keyword list |
| `Text.WordsIgnorePadding` | js/app.js:853-854 | whitespace around a text does not change its word count |
| `Text.WordCount` | js/app.js:853-854 | the displayed word count is the number of words, and it is 0 exactly when the text is blank |
| `Catalog.Scholarships` | js/app.js:252-331 | six records with ids 1-6 in order; each has a minimum GPA within 0.0-4.0, a non-empty list of known income brackets, and at least one course keyword |
| `Form.ValidateGpa` | js/app.js:184-192 | accepts exactly 0 < gpa <= 4.0; NaN and 0 are "required"; other out-of-range numbers are "between 0.0 and 4.0" |
| `Form.ValidateIncome` | js/app.js:199-204 | accepts exactly a non-empty selection |
| `Form.ValidateCourse` | js/app.js:211-219 | accepts exactly a trimmed length of at least 2; blank input is "required"; a single character is "at least 2 characters" |
| `Form.SubmitForm` | js/app.js:591-624 | a profile is built exactly when all three validators pass; it has a GPA in (0, 4], the trimmed course and activities; otherwise every failing field's error is reported, in field order |
| `Eligibility.OpenToAll` | js/app.js:444 | a scholarship is open to every field exactly when its course list begins with `all`; an empty list is not open |
| `Form.AcceptedProfileRevalidates` | js/app.js:591-624 | the profile of an accepted submission passes all three validators again |
| `Eligibility.GpaReason` | js/app.js:427-433 | the GPA reason is a pass exactly when the GPA is not below the minimum |
| `Eligibility.IncomeReason` | js/app.js:435-441 | the income reason is a pass exactly when the income is in the scholarship's list |
| `Eligibility.CourseReason` | js/app.js:443-456 | the course reason is "open to all" exactly when the first keyword is `all`, and is a pass exactly when the course criterion holds |
| `Eligibility.ActivitiesReason` | js/app.js:458-469 | for a scholarship with an activity list, the reason is a pass exactly when some keyword occurs in the activities |
| `Eligibility.Evaluation` | js/app.js:423-476 | the result carries the scholarship and one reason per criterion in the order GPA, income, course, activities: 4 reasons when activities are required, 3 otherwise |
| `Eligibility.EligibleIff` | js/app.js:427-469 | eligible exactly when the GPA is at least the minimum, the income is listed, the course is open or matches a keyword, and activities are not required or match a keyword |
| `Eligibility.EligibilityMonotoneInGpa` | js/app.js:428-433 | raising the GPA with everything else fixed never makes an eligible result ineligible |
| `Eligibility.OpenToAllIgnoresCourse` | js/app.js:444-456 | for a scholarship open to all fields, the result does not depend on the student's course |
| `Eligibility.CheckEligibility` | js/app.js:423-476 | the step-by-step check (reasons pushed, flag only ever cleared) yields exactly `Evaluation` |
| `Eligibility.FindScholarships` | js/app.js:483-485 | one result per catalog entry, in catalog order; result i is the evaluation of catalog entry i |
| `MatchScore.GpaPoints` | js/app.js:347-356 | the GPA component lies in [0, 40]; it is exactly 30 at the minimum, at least 30 exactly when the minimum is met, 40 exactly from one point above, and 0 exactly from two points below |
| `MatchScore.GpaPointsMonotone` | js/app.js:350-355 | a higher GPA never earns fewer GPA points |
| `MatchScore.IncomePoints` | js/app.js:358-362 | the income component is 0 or 20, and 20 exactly when the income criterion holds |
| `MatchScore.CoursePoints` | js/app.js:364-373 | the course component is 0 or 25, 25 exactly when the course criterion holds, and always 25 for an open scholarship |
| `MatchScore.ActivitiesPoints` | js/app.js:375-384 | the activities component is 5 or 15, never 0; it is 15 exactly when activities are not required or match |
| `MatchScore.MatchPoints` | js/app.js:343-384 | the summed points lie in [5, 100] |
| `MatchScore.MatchPercent` | js/app.js:386-387 | the percentage lies in [0, 100] and is the rounded sum of points |
| `MatchScore.CalculateMatchScore` | js/app.js:343-388 | the step-by-step accumulation of score and maximum returns exactly `MatchPercent`, within [0, 100] |
| `MatchScore.MatchPercentMonotoneInGpa` | js/app.js:348-356 | raising the GPA with everything else fixed never lowers the match score |
| `MatchScore.MatchBadge` | js/app.js:395-408 | Excellent exactly from 80, Good exactly in [60, 80), Low exactly below 60 |
| `MatchScore.BadgeMonotone` | js/app.js:400-408 | a higher score never gets a lower badge |
| `MatchScore.EligibleScoresExcellent` | js/app.js:343-387 | every eligible scholarship scores at least 90, an Excellent badge |
| `MatchScore.LowScoreMeansIneligible` | js/app.js:343-387 | a score below 90 always belongs to an ineligible result |
| `MatchScore.StemGrantExample` | js/app.js:279-291 | GPA 3.6, "Computer Science", against the STEM grant: eligible, 96%, Excellent |
| `MatchScore.MeritScholarshipExample` | js/app.js:253-265 | GPA 2.0, "Art History", against the merit scholarship: ineligible, GPA component 7.5, 68%, Good |
| `Essay.LengthGrade` | js/app.js:959-985 | 15 points exactly for 250-650 words, 8 below, 10 above; positive feedback exactly for 15 |
| `Essay.PersonalGrade` | js/app.js:987-1016 | 20 exactly for 5+ personal matches with a story, 12 for 3+ otherwise, 5 below 3; feedback is positive, warning or negative to match |
| `Essay.SpecificGrade` | js/app.js:1018-1048 | 20 exactly when specific phrases outnumber vague words and number 3+, 12 for 2+ otherwise, 5 below 2 |
| `Essay.GoalGrade` | js/app.js:1050-1078 | 20 exactly for 4+ goal words, 12 for 2-3, 5 below 2 |
| `Essay.StructureGrade` | js/app.js:1080-1109 | 15 exactly for 3-5 paragraphs with an average sentence length strictly between 10 and 25, never with a NaN average; 5 exactly below 2 paragraphs; 10 otherwise |
| `Essay.PassionGrade` | js/app.js:1111-1131 | 10 exactly for 2+ passion words, else 5 |
| `Essay.Grades` | js/app.js:959-1131 | six grades, one per criterion, in the order length, personal, specific, goals, structure, passion |
| `Essay.RatingFor` | js/app.js:1136-1154 | Excellent from 85, Good in [70, 85), Needs Work in [50, 70), Needs Major Revision below 50 |
| `Essay.RatingMonotone` | js/app.js:1137-1154 | a higher percentage never gets a lower rating |
| `Essay.Review` | js/app.js:953-1154 | the score lies in [33, 100] out of 100; exactly six feedback items, the i-th from the i-th criterion; the percentage equals the score; the rating is that of the score |
| `Essay.PerfectEssay` | js/app.js:959-1131 | an essay in the top tier of every criterion scores 100, is rated Excellent, and gets only positive feedback |
| `Essay.ScoreMonotoneInGoals` | js/app.js:1050-1078 | more goal words never lower the score |
| `Essay.ScoreAntitoneInVagueness` | js/app.js:1018-1048 | more vague words never raise the score |
| `Essay.CheckEssayQuality` | js/app.js:939-1154 | refuses exactly the essays under 100 trimmed characters; otherwise the accumulated score, feedback, percentage and rating are exactly `Review` of the essay's word count |
| `Tone.ScoreTone` | js/app.js:882-912 | the three `forEach` sums and the two bonuses give exactly 2 × (sum of the formal counts) + 3 when the average is over 20, and 2 × (sum of the casual counts) + (sum of the contraction counts) + 3 when the average is under 12 |
| `Tone.OneLengthBonusAtMost` | js/app.js:908-912 | at most one side gets the sentence-length bonus, and neither does with a NaN average |
| `Tone.Classify` | js/app.js:916-929 | never Neutral; Formal exactly when formal leads by more than 3, Casual exactly when casual does, Balanced exactly within 3 either way |
| `Tone.ClassifySymmetric` | js/app.js:916-929 | swapping the two scores swaps Formal and Casual and keeps Balanced |
| `Tone.MoreCasualNeverFormal` | js/app.js:916-929 | more casual points never turn a Casual label into another, nor create a Formal one |
| `Tone.ToneOf` | js/app.js:868-929 | Neutral exactly when the trimmed text is under 50 characters; otherwise the label of the two scores |
| `Tone.AnalyzeTone` | js/app.js:863-934 | the step-by-step handler (lower-case, length test, score loops, comparisons) yields exactly `ToneOf` |
| `Tone.OneMoreFormalWordKeepsFormal` | js/app.js:886-890 | one more match of any formal word keeps a Formal label Formal |
| `Tone.OneMoreCasualWordNeverFormal` | js/app.js:893-897 | one more match of any casual word never produces Formal and keeps Casual |
| `Tone.OneMoreContractionNeverFormal` | js/app.js:900-904 | one more match of any contraction never produces Formal and keeps Casual |
| `Tone.TrimLowerLength` | js/app.js:869-871 | lower-casing before trimming does not change the trimmed length |

## Left out

- The remote recommendation call and the extraction of a JSON array from its reply (js/app.js:17-65, 644-663): a network request over opaque model output. The fallback to `FindScholarships` is the only local path that is modelled.
- Rendering: `renderResults`, `createResultCard`, `showError`, `clearError`, `showToast`, the badge and feedback HTML, the tone and feedback message texts, icons, and the text of each reason message. Reasons keep the values their messages interpolate. Feedback items keep their criterion, type and title.
- The character count next to the word count (js/app.js:855): the source shows the UTF-16 length of the trimmed text; the model's `|Trim(text)|` would count characters instead. It is a display value only.
- Saving and loading the profile in local storage, and autofill (js/app.js:153-173, 765-780): a browser storage wrapper.
- Debounce, timers, navbar scrolling, smooth scrolling, initialisation and the hero animation: UI event wiring.
- The regular-expression matching in the essay and tone analysers. The match counts, the paragraph count and the average sentence length are inputs (`EssayCounts`, `ToneCounts`). For the tone, each listed word's match count is an input; the `forEach` sums over them are modelled.
- IEEE-754 rounding in the GPA arithmetic and in `score / maxScore * 100`: the model computes with exact reals.
- JavaScript infinities: `JsNumber` has only NaN and finite values. The GPA validator would reject an infinite GPA as out of range.
- `Text.Lower`: lower-cases ASCII letters only, not the full Unicode mapping of `toLowerCase`.
- `Form.Student`: holds the GPA as a real. A NaN GPA never reaches the matcher because the submit handler validates the form first (js/app.js:591-616).
- flowise-config.js: it embeds a third-party chat widget and has no decision logic.
- `Form.ValidateCourse`: lengths count characters, not UTF-16 code units; a character outside the Basic Multilingual Plane (an emoji, say) counts twice in the source and once here, so a course of one such character is accepted by the source and rejected here as too short.
- `Essay.CheckEssayQuality`: the 100-character minimum counts characters, not UTF-16 code units; an essay that reaches 100 code units only through characters outside the Basic Multilingual Plane is analysed by the source and refused here.
- `Tone.AnalyzeTone`: the 50-character minimum counts characters, not UTF-16 code units, with the same difference for characters outside the Basic Multilingual Plane; `Tone.ToneOf` states the same threshold.
