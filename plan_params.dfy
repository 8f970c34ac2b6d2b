/** The values the generation endpoint derives from a submitted form before it
    writes its prompt (app/api/generate-plan/route.ts): the number of days
    and weeks until the target date, the weekly hour budget, the number of
    weekly plans it asks for, and the one-line-per-subject listing. "Now" and
    the target date are integer milliseconds since the epoch. */
module PlanParams {
  import opened Types
  import opened Numerals

  /** Milliseconds in a day: 1000 * 60 * 60 * 24. */
  const DayMs: int := 86_400_000
  /** The fewest days a plan is ever built for. */
  const MinTotalDays: int := 7
  /** The most weekly plans the prompt asks the generator for. */
  const MaxRequestedWeeks: int := 4
  /** The text put in place of an empty strong-area or weak-area field. */
  const NoneSpecified: string := "none specified"

  // ----- Math.ceil on a quotient --------------------------------------------

  /** `Math.ceil(a / d)` for a positive divisor: the integer q with
      d * (q - 1) < a <= d * q. (Dafny's `/` is floor division when d > 0.) */
  function CeilDiv(a: int, d: int): (q: int)
    requires d > 0
    ensures d * (q - 1) < a <= d * q
  {
    -((-a) / d)
  }

  /** The bracketing in CeilDiv's contract determines the quotient. */
  lemma CeilDivUnique(a: int, d: int, q: int)
    requires d > 0
    requires d * (q - 1) < a <= d * q
    ensures q == CeilDiv(a, d)
  {
    var c := CeilDiv(a, d);
    if q < c {
      MulMonotone(d, q, c - 1);
      assert false;
    } else if c < q {
      MulMonotone(d, c, q - 1);
      assert false;
    }
  }

  lemma MulMonotone(d: int, x: int, y: int)
    requires d > 0 && x <= y
    ensures d * x <= d * y
  {
  }

  // ----- the derived scheduling parameters ---------------------------------

  /** `totalDays`: whole days from now to the target, rounded up, and never
      fewer than seven. It is the least number of days, at least seven, whose
      span reaches the target. */
  function TotalDays(nowMs: int, targetMs: int): (days: int)
    ensures days >= MinTotalDays
    ensures targetMs - nowMs <= DayMs * days
    ensures days > MinTotalDays ==> DayMs * (days - 1) < targetMs - nowMs
  {
    var days := CeilDiv(targetMs - nowMs, DayMs);
    if days < MinTotalDays then MinTotalDays else days
  }

  /** Whenever the rounded-up day count is at least seven it is used as is. */
  lemma TotalDaysIsCeiling(nowMs: int, targetMs: int)
    requires CeilDiv(targetMs - nowMs, DayMs) >= MinTotalDays
    ensures TotalDays(nowMs, targetMs) == CeilDiv(targetMs - nowMs, DayMs)
  {
  }

  /** `totalWeeks`: the number of weeks needed to cover `totalDays`. */
  function TotalWeeks(totalDays: int): (weeks: int)
    ensures 7 * (weeks - 1) < totalDays <= 7 * weeks
    ensures totalDays >= 1 ==> weeks >= 1
  {
    CeilDiv(totalDays, 7)
  }

  /** A target in the past, or at most seven days ahead, gives the one-week
      minimum. */
  lemma PastTargetGivesOneWeek(nowMs: int, targetMs: int)
    requires targetMs - nowMs <= 7 * DayMs
    ensures TotalDays(nowMs, targetMs) == 7
    ensures TotalWeeks(TotalDays(nowMs, targetMs)) == 1
  {
    var q := CeilDiv(targetMs - nowMs, DayMs);
    if q > 7 {
      MulMonotone(DayMs, 7, q - 1);
      assert false;
    }
    CeilDivUnique(7, 7, 1);
  }

  /** `weeklyHours`: five weekdays and two weekend days, each at its daily
      budget (all in half-hour units). */
  function WeeklyHours(weekdayHours: int, weekendHours: int): int
  {
    weekdayHours * 5 + weekendHours * 2
  }

  /** The daily budgets of one week, Monday to Sunday. */
  function WeekBudgets(weekdayHours: int, weekendHours: int): (b: seq<int>)
    ensures |b| == 7
  {
    [weekdayHours, weekdayHours, weekdayHours, weekdayHours, weekdayHours, weekendHours, weekendHours]
  }

  function Sum(s: seq<int>): int
  {
    if s == [] then 0 else s[0] + Sum(s[1..])
  }

  /** The weekly figure is the sum of the seven daily budgets. */
  lemma WeeklyHoursIsSumOfDays(weekdayHours: int, weekendHours: int)
    ensures WeeklyHours(weekdayHours, weekendHours) == Sum(WeekBudgets(weekdayHours, weekendHours))
  {
    var b := WeekBudgets(weekdayHours, weekendHours);
    assert b[1..][1..][1..][1..][1..][1..][1..] == [];
    assert Sum(b[1..][1..][1..][1..][1..][1..]) == weekendHours;
    assert Sum(b[1..][1..][1..][1..][1..]) == 2 * weekendHours;
    assert Sum(b[1..][1..][1..][1..]) == weekdayHours + 2 * weekendHours;
    assert Sum(b[1..][1..][1..]) == 2 * weekdayHours + 2 * weekendHours;
    assert Sum(b[1..][1..]) == 3 * weekdayHours + 2 * weekendHours;
  }

  /** 3 weekday hours and 6 weekend hours (6 and 12 half hours) make 27
      hours (54 half hours) a week. */
  lemma WeeklyHoursExample()
    ensures WeeklyHours(6, 12) == 54
  {
  }

  /** `Math.min(totalWeeks, 4)`: the number of weekly plans the prompt asks
      for. It never exceeds the weeks available or four, and it is one of
      them. */
  function RequestedWeeks(totalWeeks: int): (n: int)
    ensures n <= totalWeeks && n <= MaxRequestedWeeks
    ensures n == totalWeeks || n == MaxRequestedWeeks
    ensures totalWeeks >= 1 ==> 1 <= n
  {
    if totalWeeks < MaxRequestedWeeks then totalWeeks else MaxRequestedWeeks
  }

  /** Everything the endpoint derives from one request. */
  datatype PlanParameters = PlanParameters(
    totalDays: int,
    totalWeeks: int,
    weeklyHours: int,
    requestedWeeks: int)

  function Derive(prefs: StudyPreferences, nowMs: int, targetMs: int): (p: PlanParameters)
    ensures p.totalDays >= MinTotalDays
    ensures 7 * (p.totalWeeks - 1) < p.totalDays <= 7 * p.totalWeeks
    ensures 1 <= p.requestedWeeks <= MaxRequestedWeeks && p.requestedWeeks <= p.totalWeeks
    ensures p.weeklyHours == Sum(WeekBudgets(prefs.weekdayHours, prefs.weekendHours))
    ensures p.totalDays == TotalDays(nowMs, targetMs)
    ensures p.totalWeeks == TotalWeeks(p.totalDays)
    ensures p.requestedWeeks == RequestedWeeks(p.totalWeeks)
  {
    WeeklyHoursIsSumOfDays(prefs.weekdayHours, prefs.weekendHours);
    var days := TotalDays(nowMs, targetMs);
    var weeks := TotalWeeks(days);
    PlanParameters(days, weeks, WeeklyHours(prefs.weekdayHours, prefs.weekendHours), RequestedWeeks(weeks))
  }

  /** A target ten days ahead, 2 weekday hours and 4 weekend hours: ten days,
      two weeks, 18 hours (36 half hours) a week, and two weekly plans. */
  lemma TenDayExample(nowMs: int, time: PreferredTime)
    ensures Derive(StudyPreferences(4, 8, time, ""), nowMs, nowMs + 10 * DayMs)
         == PlanParameters(10, 2, 36, 2)
  {
    CeilDivUnique(10 * DayMs, DayMs, 10);
    CeilDivUnique(10, 7, 2);
  }

  // ----- the subject listing -----------------------------------------------

  /** An area note as the prompt shows it: the text itself, or the
      placeholder when the field is empty, so the brackets it sits in are
      never empty. */
  function AreaText(areas: string): (t: string)
    ensures t != ""
    ensures areas != "" ==> t == areas
    ensures areas == "" ==> t == NoneSpecified
  {
    if areas == "" then NoneSpecified else areas
  }

  function SubjectLine(s: Subject): string
  {
    "- " + s.name + " (" + IntToString(s.credits) + " credits): Strong in ["
    + AreaText(s.strongAreas) + "], Weak in [" + AreaText(s.weakAreas)
    + "], Confidence: " + IntToString(s.confidenceLevel) + "/5"
  }

  /** One line per subject, in the order of the subjects. */
  function SubjectLines(subjects: seq<Subject>): (lines: seq<string>)
    ensures |lines| == |subjects|
    ensures forall i :: 0 <= i < |subjects| ==> lines[i] == SubjectLine(subjects[i])
  {
    if subjects == [] then [] else [SubjectLine(subjects[0])] + SubjectLines(subjects[1..])
  }

  /** `lines.join("\n")`. */
  function JoinLines(lines: seq<string>): string
  {
    if |lines| == 0 then ""
    else if |lines| == 1 then lines[0]
    else lines[0] + "\n" + JoinLines(lines[1..])
  }

  /** `subjectsList` of the endpoint. */
  function SubjectsList(subjects: seq<Subject>): string
  {
    JoinLines(SubjectLines(subjects))
  }

  predicate SingleLine(s: string)
  {
    '\n' !in s
  }

  /** The position of the first line break of `s`, or |s| if it has none. */
  function NewlineIndex(s: string): (k: nat)
    ensures k <= |s|
    ensures k < |s| ==> s[k] == '\n'
    ensures forall i :: 0 <= i < k ==> s[i] != '\n'
  {
    if s == [] || s[0] == '\n' then 0 else 1 + NewlineIndex(s[1..])
  }

  /** Cutting text into lines at every line break; the reference against
      which the listing is read back. */
  function SplitLines(s: string): (lines: seq<string>)
    ensures |lines| >= 1
    decreases |s|
  {
    var k := NewlineIndex(s);
    if k == |s| then [s] else [s[..k]] + SplitLines(s[k + 1..])
  }

  lemma {:induction false} NewlineIndexOfLine(a: string, rest: string)
    requires SingleLine(a)
    requires rest == [] || rest[0] == '\n'
    ensures NewlineIndex(a + rest) == |a|
  {
    if a != [] {
      assert (a + rest)[0] == a[0];
      assert (a + rest)[1..] == a[1..] + rest;
      NewlineIndexOfLine(a[1..], rest);
    }
  }

  /** Splitting the joined lines gives the lines back, provided none of them
      contains a line break itself. */
  lemma {:induction false} SplitJoinLines(lines: seq<string>)
    requires |lines| >= 1
    requires forall i :: 0 <= i < |lines| ==> SingleLine(lines[i])
    ensures SplitLines(JoinLines(lines)) == lines
  {
    if |lines| == 1 {
      NewlineIndexOfLine(lines[0], []);
      assert lines[0] + [] == lines[0];
    } else {
      var rest := JoinLines(lines[1..]);
      var s := lines[0] + "\n" + rest;
      NewlineIndexOfLine(lines[0], "\n" + rest);
      assert s == lines[0] + ("\n" + rest);
      assert s[..|lines[0]|] == lines[0];
      assert s[|lines[0]| + 1..] == rest;
      SplitJoinLines(lines[1..]);
      assert lines == [lines[0]] + lines[1..];
    }
  }

  lemma NumberIsSingleLine(n: int)
    ensures SingleLine(IntToString(n))
  {
  }

  /** A subject whose free-text fields are single lines gives a single line. */
  lemma SubjectLineIsSingleLine(s: Subject)
    requires SingleLine(s.name) && SingleLine(s.strongAreas) && SingleLine(s.weakAreas)
    ensures SingleLine(SubjectLine(s))
  {
    NumberIsSingleLine(s.credits);
    NumberIsSingleLine(s.confidenceLevel);
  }

  /** The listing holds exactly one line per subject, in input order: reading
      it back line by line gives each subject's line (the free-text fields
      come from single-line inputs). */
  lemma SubjectsListHasOneLinePerSubject(subjects: seq<Subject>)
    requires |subjects| >= 1
    requires forall i :: 0 <= i < |subjects| ==>
      SingleLine(subjects[i].name) && SingleLine(subjects[i].strongAreas) && SingleLine(subjects[i].weakAreas)
    ensures |SplitLines(SubjectsList(subjects))| == |subjects|
    ensures forall i :: 0 <= i < |subjects| ==> SplitLines(SubjectsList(subjects))[i] == SubjectLine(subjects[i])
  {
    var lines := SubjectLines(subjects);
    forall i | 0 <= i < |lines| ensures SingleLine(lines[i]) {
      SubjectLineIsSingleLine(subjects[i]);
    }
    SplitJoinLines(lines);
  }
}
