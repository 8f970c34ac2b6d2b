# Study-Forge planner core, modelled in Dafny

Study-Forge is a web app for engineering students. A student fills in a
four-step form: personal details, subjects, study preferences, then a review.
The app posts the form to a `generate-plan` endpoint. The endpoint works out
how many days and weeks remain until the target date and the weekly hour
budget. It lists the subjects in a prompt, asks a language model for a plan
in a fixed schema, and returns that plan. The page then shows the plan: a week
navigator, a pie chart of hours per subject, confidence bars, and insights
coloured by priority.

The model covers the deterministic logic around the language-model call:

- `Types` (`lib/types.ts`): the form data and plan records, with the string
  enumerations as Dafny enums. Daily hour budgets are counted in half-hour
  units, because the form's sliders move in steps of 0.5.
- `Options`: an `Option` datatype.
- `Numerals`: decimal rendering of integers, as JavaScript template strings
  do it. Also `Number.parseInt` restricted to an optional sign followed by
  digits, and the `parseInt(...) || 1` fallback the inputs use.
- `PlanParams` (`app/api/generate-plan/route.ts`):
  - the day count, `max(7, ceil(diff / day))`, and the week count;
  - the weekly hours;
  - the number of weekly plans requested, `min(weeks, 4)`;
  - the subject listing joined by line breaks.
- `Schema` (`route.ts`, the zod schema): the raw reply and the predicate the
  schema imposes on it, and a validator. The validator either rejects the
  reply or yields the typed `StudyPlan` that encodes back to it.
- `SubjectList` (`components/form/subjects-step.tsx`): adding, removing and
  editing subjects by id, the credits input, and the confidence labels.
- `Preferences` (`components/form/preferences-step.tsx`): the preferences
  setter, the hours inputs, the weekly estimate and the time options.
- `PlanForm` (`components/study-plan-form.tsx`): the step gates, the Back and
  Next clamps, and a `StudyPlanForm` class holding `step` and `formData`.
  - Its invariant: every gate below the current step still holds.
  - So a submitted form is always complete.
- `PlanDisplay` (`components/study-plan-display.tsx`):
  - the week navigator as a class, and the header fallback;
  - name shortening, the chart data, the colour cycle and the priority tones.
- `AppPage` (`app/page.tsx`): the page's view state as a class, and the
  screen each state renders.

Inputs the code takes from outside become parameters:

- the current time and the parsed target date (integer milliseconds);
- the ids `crypto.randomUUID()` would produce;
- the fetch outcome (network failure, a non-OK status, or a body with or
  without `studyPlan`);
- the `isLoading` flag the page passes to the form.

Facts about the code that the model records as they are:

- `route.ts:130` returns the language model's `output` without checking it.
  `Schema.Validate` models what the schema passed to the model describes.
  It is not a rejection step the endpoint performs.
- The prompt asks for exactly 7 `nextSevenDaysFocus` entries and sessions of
  30-90 minutes (`route.ts:112`, `route.ts:115`). The schema enforces neither
  (`Schema.UnboundedFieldsAreAccepted`).
- The credits input of `subjects-step.tsx:101` is a free-text number field
  that accepts any non-zero integer, negative ones included, despite its 1-6
  bounds. The wizard's own credits control is a 1-6 select
  (`study-plan-form.tsx:276-292`). So negative credits can only come from
  `SubjectsStep`, which no file shown here renders. If one did reach the
  wizard, its `credits > 0` gate (`study-plan-form.tsx:115`) would reject it.
- The week navigator is bounded to existing weeks only when the plan has at
  least one week. With no weeks, "next" moves to week -1
  (`PlanDisplay.EmptyPlanNextGoesToMinusOne`).

## Model

| member | source | states |
|---|---|---|
| Numerals.IntToString | app/api/generate-plan/route.ts:80 | a number in a template string is a non-empty numeral: a `-` exactly for negative numbers, then decimal digits whose first digit is 0 only for zero itself |
| Numerals.ParseInt | components/form/subjects-step.tsx:101 | parsing fails exactly when no digits follow the optional sign; otherwise the value is the leading digit run, negated after a `-` |
| Numerals.ParseIntOfIntToString | components/form/subjects-step.tsx:101 | parsing a rendered integer recovers it, whatever non-digit text follows |
| Numerals.ParseIntOrOne | components/form/subjects-step.tsx:101 | `parseInt(text) \|\| 1`: text that does not parse or parses to 0 gives 1, any other parsed integer is kept, so the result is never 0 |
| Numerals.ParseIntOrOneOfNumber | components/form/preferences-step.tsx:59 | a typed number is kept unless it is 0, which becomes 1 |
| PlanParams.CeilDiv | app/api/generate-plan/route.ts:71-72 | `Math.ceil(a / d)` is the q with `d*(q-1) < a <= d*q` |
| PlanParams.CeilDivUnique | app/api/generate-plan/route.ts:71-72 | that bracketing determines the quotient uniquely |
| PlanParams.TotalDays | app/api/generate-plan/route.ts:68-71 | at least 7 days, enough whole days to cover the time left, and when above 7 exactly the ceiling |
| PlanParams.TotalDaysIsCeiling | app/api/generate-plan/route.ts:71 | when the rounded-up day count is at least 7, `TotalDays` is exactly that count |
| PlanParams.TotalWeeks | app/api/generate-plan/route.ts:72 | the least number of whole weeks covering the days, at least one |
| PlanParams.PastTargetGivesOneWeek | app/api/generate-plan/route.ts:70-72 | a target date in the past or at most seven days ahead gives 7 days and one week |
| PlanParams.WeeklyHoursIsSumOfDays | app/api/generate-plan/route.ts:74-75 | the weekly hours are the sum of the seven daily budgets, five weekdays and two weekend days |
| PlanParams.WeeklyHours | app/api/generate-plan/route.ts:74-75 | five weekdays and two weekend days at their budgets; its meaning as a sum of daily budgets is `WeeklyHoursIsSumOfDays` |
| PlanParams.WeeklyHoursExample | app/api/generate-plan/route.ts:74-75 | 3 weekday and 6 weekend hours make 27 hours a week |
| PlanParams.RequestedWeeks | app/api/generate-plan/route.ts:111 | the requested weekly plans are the total weeks capped at 4, at least one when there is a week |
| PlanParams.Derive | app/api/generate-plan/route.ts:68-111 | the endpoint's numbers for one request: the day count for the two dates, the weeks covering those days, `min(weeks, 4)` requested weeks, and the weekly hours as the sum of the daily budgets |
| PlanParams.TenDayExample | app/api/generate-plan/route.ts:68-111 | ten days ahead with 2 and 4 hour budgets gives 10 days, 2 weeks, 18 hours a week and 2 requested weeks |
| PlanParams.AreaText | app/api/generate-plan/route.ts:80 | an empty area becomes "none specified", any other text is kept |
| PlanParams.SubjectLines | app/api/generate-plan/route.ts:77-81 | one formatted line per subject, in order |
| PlanParams.SubjectLine | app/api/generate-plan/route.ts:80 | the template line for one subject; `SubjectLineIsSingleLine` and `SubjectsListHasOneLinePerSubject` state its properties |
| PlanParams.JoinLines | app/api/generate-plan/route.ts:82 | `join("\n")`; `SplitJoinLines` is its inverse |
| PlanParams.SubjectsList | app/api/generate-plan/route.ts:77-82 | the joined subject listing; `SubjectsListHasOneLinePerSubject` states what it holds |
| PlanParams.SplitJoinLines | app/api/generate-plan/route.ts:82 | splitting a join of line-free strings at the line breaks gives the strings back |
| PlanParams.SubjectLineIsSingleLine | app/api/generate-plan/route.ts:80 | a subject line has no line break when the free-text fields have none |
| PlanParams.SubjectsListHasOneLinePerSubject | app/api/generate-plan/route.ts:77-82 | the listing has exactly one line per subject, and line i describes subject i |
| Schema.ParseSessionType | app/api/generate-plan/route.ts:8 | accepts exactly the four session type names, and the value's name is the input |
| Schema.ParseCognitiveLoad | app/api/generate-plan/route.ts:9 | accepts exactly "high", "medium" and "low", and the value's name is the input |
| Schema.ParsePriority | app/api/generate-plan/route.ts:47 | accepts exactly the three priority names, and the value's name is the input |
| Schema.ParseNames | app/api/generate-plan/route.ts:8-9 | every enum value's name parses back to that value |
| Schema.ValidSession | app/api/generate-plan/route.ts:4-10 | the enum constraints on a session; `CheckSession` accepts exactly these |
| Schema.ValidPlan | app/api/generate-plan/route.ts:24-62 | the schema's constraints on a whole reply; `Validate` accepts exactly these |
| Schema.CheckAll | app/api/generate-plan/route.ts:14 | an array is accepted exactly when every element is, and the values line up with the elements |
| Schema.CheckSession | app/api/generate-plan/route.ts:4-10 | a session is accepted exactly when it is valid, and the result encodes back to it |
| Schema.CheckDay | app/api/generate-plan/route.ts:12-15 | a day is accepted exactly when all its sessions are valid, and it round-trips |
| Schema.CheckWeek | app/api/generate-plan/route.ts:17-22 | a week is accepted exactly when all its days are valid, and it round-trips |
| Schema.CheckInsight | app/api/generate-plan/route.ts:43-49 | an insight is accepted exactly when its priority is a known name, and it round-trips |
| Schema.Validate | app/api/generate-plan/route.ts:24-62 | a reply is accepted exactly when it meets the schema, and the typed plan encodes back to the reply |
| Schema.ValidateEncode | app/api/generate-plan/route.ts:24-62 | every typed plan, once encoded, is accepted and decoded to itself |
| Schema.ExtremeLoadIsRejected | app/api/generate-plan/route.ts:9 | a session whose cognitive load is "extreme" makes the whole reply invalid |
| Schema.UnboundedFieldsAreAccepted | app/api/generate-plan/route.ts:36-42 | a 500-minute session and an empty focus list still meet the schema |
| SubjectList.NewSubject | components/form/subjects-step.tsx:21-28 | a new subject has the given id, empty texts, 3 credits and confidence 3 |
| SubjectList.AddSubject | components/form/subjects-step.tsx:18-30 | adding appends one new subject and leaves the others as they were |
| SubjectList.AddSubjectKeepsIdsUnique | components/form/subjects-step.tsx:22 | with a fresh id, ids stay unique and the id set gains exactly that id |
| SubjectList.FilterOutId | components/form/subjects-step.tsx:34 | filtering drops exactly the subjects carrying the id |
| SubjectList.FilterOutIdMembers | components/form/subjects-step.tsx:34 | the filtered list holds exactly the subjects whose id differs |
| SubjectList.FilterOutIdAppend | components/form/subjects-step.tsx:34 | filtering distributes over concatenation, so order is kept |
| SubjectList.FilterOutAbsentId | components/form/subjects-step.tsx:34 | filtering an absent id changes nothing |
| SubjectList.FilterOutIdKeepsIdsUnique | components/form/subjects-step.tsx:34 | filtering keeps ids unique and adds no id |
| SubjectList.RemoveSubject | components/form/subjects-step.tsx:32-35 | a single subject is never removed; otherwise the result is the filter of the list by id: exactly the subjects with other ids, in their order (`FilterOutIdAppend`) |
| SubjectList.RemoveAbsentId | components/form/subjects-step.tsx:32-35 | removing an unknown id changes nothing |
| SubjectList.CountIdAtMostOne | components/form/subjects-step.tsx:22 | with unique ids each id occurs at most once |
| SubjectList.RemoveSubjectKeepsOne | components/form/subjects-step.tsx:32-35 | with unique ids at least one subject always remains |
| SubjectList.DuplicateIdsCanEmptyTheList | components/form/subjects-step.tsx:32-35 | two subjects sharing an id are both removed, leaving none |
| SubjectList.ApplyEdit | components/form/subjects-step.tsx:39 | an edit sets the one field it names and leaves the id and the other fields alone |
| SubjectList.UpdateSubject | components/form/subjects-step.tsx:37-41 | every subject with the id gets the edit, every other subject is unchanged, the length stays |
| SubjectList.UpdateSubjectKeepsIds | components/form/subjects-step.tsx:37-41 | editing keeps the id set, and keeps ids unique |
| SubjectList.CreditsFromInput | components/form/subjects-step.tsx:101 | the credits value is never 0: unparsable or zero text gives 1 credit, and a non-zero parse is kept |
| SubjectList.CreditsFromTypedNumber | components/form/subjects-step.tsx:101 | typing n sets credits n, or 1 when n is 0 |
| SubjectList.BlankCreditsInputIsOne | components/form/subjects-step.tsx:101 | clearing the credits input sets 1 credit |
| SubjectList.ConfidenceLabel | components/form/subjects-step.tsx:138 | levels 1 to 5 have the labels in order; other levels have none |
| SubjectList.SliderLevelsHaveDistinctLabels | components/form/subjects-step.tsx:141-145 | every slider level has a label, and different levels have different labels |
| Preferences.Update | components/form/preferences-step.tsx:28-30 | the setter changes the one field it names and keeps the rest |
| Preferences.HoursFromInput | components/form/preferences-step.tsx:59 | an hours input gives the parsed whole number of hours, or 1 hour when the text does not parse or parses to 0 |
| Preferences.HoursFromTypedNumber | components/form/preferences-step.tsx:82 | typing n sets n hours, or 1 hour when n is 0 |
| Preferences.WeeklyEstimate | components/form/preferences-step.tsx:139 | the component's own `weekdayHours * 5 + weekendHours * 2`; `WeeklyEstimateMatchesEndpoint` relates it to the endpoint |
| Preferences.WeeklyEstimateMatchesEndpoint | components/form/preferences-step.tsx:139 | the estimate the step displays, computed in the component, equals the weekly hours the endpoint derives for the same preferences, whatever the dates |
| Preferences.TimeOptionsAreTheFourTimes | components/form/preferences-step.tsx:20-25 | the options list each preferred time exactly once, under the names the types allow |
| PlanForm.SetStudentField | components/study-plan-form.tsx:71-76 | a detail edit sets the one field it names and keeps the rest |
| PlanForm.InitialFormData | components/study-plan-form.tsx:54-69 | the starting form holds one new subject with unique ids, 3 and 6 hours and night-time, and passes none of the three gates |
| PlanForm.CanGoNext | components/study-plan-form.tsx:109-121 | step 0 needs all details, step 1 named subjects with positive credits, step 2 a target date, later steps nothing |
| PlanForm.GatesMeanComplete | components/study-plan-form.tsx:109-121 | the three gates hold together exactly when the form is complete |
| PlanForm.BlankSubjectBlocksSubjectsStep | components/study-plan-form.tsx:115 | a freshly added unnamed subject blocks the subjects step |
| PlanForm.NextStep | components/study-plan-form.tsx:514 | next moves one step up, never past the review step |
| PlanForm.PrevStep | components/study-plan-form.tsx:504 | back moves one step down, never below the first step |
| PlanForm.GatesBelowKept | components/study-plan-form.tsx:109-121 | an edit that leaves the earlier steps' data alone keeps their gates |
| PlanForm.SubmitAvailable | components/study-plan-form.tsx:512-522 | the submit button shows in place of Next at the review step and is enabled when not loading; `StudyPlanForm.Submit` hands data over exactly then |
| PlanForm.StudyPlanForm.constructor | components/study-plan-form.tsx:53-69 | the form starts at step 0 with blank details, one new subject, 3 and 6 hours, night-time and no date |
| PlanForm.StudyPlanForm.UpdateStudentDetails | components/study-plan-form.tsx:71-76 | the details edit is applied, and the invariant and step are kept |
| PlanForm.StudyPlanForm.AddSubject | components/study-plan-form.tsx:78-83 | appends a new subject with a fresh id, keeping the invariant |
| PlanForm.StudyPlanForm.RemoveSubject | components/study-plan-form.tsx:85-91 | applies the guarded removal, keeping at least one subject and unique ids |
| PlanForm.StudyPlanForm.UpdateSubject | components/study-plan-form.tsx:93-100 | applies the edit to the subjects with the id, keeping the invariant |
| PlanForm.StudyPlanForm.UpdatePreferences | components/study-plan-form.tsx:102-107 | applies the preferences edit, keeping the invariant |
| PlanForm.StudyPlanForm.Next | components/study-plan-form.tsx:512-516 | moves up a step only when below review and the current gate holds |
| PlanForm.StudyPlanForm.Back | components/study-plan-form.tsx:502-505 | moves down a step unless at the first, and keeps the data |
| PlanForm.StudyPlanForm.SelectStep | components/study-plan-form.tsx:135 | the step indicator only jumps back to an earlier step |
| PlanForm.StudyPlanForm.Submit | components/study-plan-form.tsx:522 | submits exactly when `SubmitAvailable` holds (the review step, not loading), and what it submits is the current, complete form |
| PlanDisplay.PrevWeek | components/study-plan-display.tsx:180 | the previous week is one less, never below week 0 |
| PlanDisplay.NextWeek | components/study-plan-display.tsx:196-200 | the next week is one more, never past the last week |
| PlanDisplay.PrevDisabled | components/study-plan-display.tsx:181 | the previous button is disabled on week 0; `EndsClamp` states the ends |
| PlanDisplay.NextDisabled | components/study-plan-display.tsx:201 | the next button is disabled on the last week; `EndsClamp` and `EmptyPlanNextGoesToMinusOne` state the ends |
| PlanDisplay.NavigationStaysOnAWeek | components/study-plan-display.tsx:180-200 | from an existing week both buttons land on an existing week |
| PlanDisplay.EndsClamp | components/study-plan-display.tsx:180-201 | the buttons are disabled exactly at the ends and stay put there |
| PlanDisplay.EmptyPlanNextGoesToMinusOne | components/study-plan-display.tsx:196-201 | with no weeks the next button is enabled and selects week -1 |
| PlanDisplay.WeekNavigator.constructor | components/study-plan-display.tsx:66 | the navigator starts on week 0 |
| PlanDisplay.WeekNavigator.Previous | components/study-plan-display.tsx:177-182 | the enabled previous button moves one week back; the disabled one does nothing |
| PlanDisplay.WeekNavigator.Next | components/study-plan-display.tsx:193-201 | the enabled next button moves one week on; the disabled one does nothing |
| PlanDisplay.WeekAt | components/study-plan-display.tsx:68 | the current week exists exactly for an index inside the plan |
| PlanDisplay.WeekHeader | components/study-plan-display.tsx:187 | the header is never empty and shows the week's label when it has one |
| PlanDisplay.FallbackHeaderNamesTheWeek | components/study-plan-display.tsx:187 | without a label the header reads "Week " then the one-based week number |
| PlanDisplay.ShortName | components/study-plan-display.tsx:77 | names up to 12 characters are kept; longer ones become their first 12 characters and "..." |
| PlanDisplay.ShortNameIdempotent | components/study-plan-display.tsx:77 | shortening twice gives the same result as once |
| PlanDisplay.ConfidenceData | components/study-plan-display.tsx:76-80 | one bar per projection, with the shortened subject name and both levels |
| PlanDisplay.PieData | components/study-plan-display.tsx:70-74 | one slice per allocation, with its subject, hours and percentage |
| PlanDisplay.PieCoversAllHours | components/study-plan-display.tsx:70-74 | the slices add up to all the allocated hours |
| PlanDisplay.ColorIndex | components/study-plan-display.tsx:290 | the colour index is inside the palette, and the first five slices get the colours in order |
| PlanDisplay.ColorsCycle | components/study-plan-display.tsx:49-55 | colours repeat every five slices, and neighbouring slices differ |
| PlanDisplay.PriorityTone | components/study-plan-display.tsx:402-408 | "high" alerts, "medium" cautions, and only those priorities do |
| PlanDisplay.PriorityTonesDiffer | components/study-plan-display.tsx:402-432 | different priorities get different tones, and only low priority is muted |
| AppPage.ScreenFor | app/page.tsx:61-73 | the plan screen shows exactly when the view is "plan" and both plan and form data exist; otherwise "plan" falls back to the landing page |
| AppPage.Succeeded | app/page.tsx:40-53 | an outcome succeeds only as an ok response carrying a plan; `Page.FinishSubmit` stores a plan exactly then |
| AppPage.Page.constructor | app/page.tsx:18-21 | the page starts on the landing screen, not loading, and with nothing stored |
| AppPage.Page.GetStarted | app/page.tsx:24-27 | "get started" opens the form and changes nothing else |
| AppPage.Page.BeginSubmit | app/page.tsx:29-31 | submitting sets loading and stores the form data |
| AppPage.Page.FinishSubmit | app/page.tsx:33-58 | loading ends; a response with a plan stores it and shows it, any failure leaves plan and view as they were |
| AppPage.Page.Submit | app/page.tsx:29-59 | after a successful submission the page shows the new plan next to the submitted form |
| AppPage.Page.BackFromPlan | app/page.tsx:67 | back from the plan returns to the form and keeps the stored plan |
| AppPage.Page.BackFromForm | app/page.tsx:80 | back from the form returns to the landing page |

## Left out

- The language-model call (`generateText`) and its prompt are left out. They depend on an external service. The model keeps only the numbers and the subject listing that go into the prompt.
- The endpoint's JSON request parsing and its error handling are left out. The code has none beyond what the runtime does.
- Date parsing is left out: `new Date(targetDate)`, the clock and invalid dates that give `NaN`. The parsed target and the current time enter as integer milliseconds.
- `toLocaleDateString` and other locale formatting are left out.
- `crypto.randomUUID` is left out. Fresh ids are parameters. Their uniqueness is a precondition of `PlanForm.StudyPlanForm.AddSubject`.
- `Numerals.ParseInt` does not model the leading whitespace `Number.parseInt` skips, nor its `0x` prefix. The form's number inputs never produce either.
- `PlanParams.SubjectsListHasOneLinePerSubject` requires line-free names and areas. The wizard's own subject fields are single-line inputs (`study-plan-form.tsx:266`, `:296`, `:306`). The area fields of `subjects-step.tsx:109` and `:121` are textareas, so a line break typed there would split a subject over several prompt lines.
- `PlanForm.StudyPlanForm.UpdateSubject` models edits to the five typed fields only. The id field and values of the wrong dynamic type are not modelled, because the components never send them.
- The edit methods of `PlanForm.StudyPlanForm` require the step whose panel renders their inputs. In the code the handlers exist on every step, but they are reachable only from their own panel.
- Floating-point arithmetic is left out. Plan numbers are `real`. Form hours are integral half-hour units, which the 0.5 slider steps produce exactly.
- `Numerals.IntToString` is exact over unbounded integers. JavaScript prints numbers of magnitude 1e21 and above in exponent form, which is not modelled.
- `Numerals.ParseInt` is exact over unbounded integers. In JavaScript, `Number.parseInt` rounds digit strings beyond 2^53 to the nearest double, which is not modelled.
- String lengths count Dafny characters, not UTF-16 code units.
- Asynchrony is left out. `AppPage.Page.Submit` runs the start and the end of a submission back to back, so interleaved submissions are not modelled. The code prevents them by disabling the button while loading.
- Toasts, scrolling, charts and other rendering are left out: rendering only, with no state.
- The review panel's contents are left out: rendering only, with no state.
- The option labels are left out, as display text. The two forms differ here: "9PM - 1AM" in `study-plan-form.tsx`, "9PM - 2AM" in `preferences-step.tsx`.
- The student-details step, navbar and static landing sections are left out, because they hold no logic beyond forwarding inputs.
- The iterative shape of `map`, `filter` and `join` is not kept. It is a detail of the JavaScript runtime, so those operations are modelled as recursive functions on sequences.
