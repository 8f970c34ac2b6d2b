/** The records exchanged between the form, the generation endpoint and the
    plan display (lib/types.ts). String-literal unions become enumerations. */
module Types {

  // ----- the form side ------------------------------------------------------

  datatype PreferredTime = Morning | Afternoon | Evening | Night

  datatype StudentDetails = StudentDetails(
    name: string,
    college: string,
    branch: string,
    graduationYear: string,
    email: string)

  /** A subject as the form edits it. Credits and confidence are whole numbers:
      the inputs that produce them are an integer parse, a 1..6 select and a
      1..5 slider with step 1. */
  datatype Subject = Subject(
    id: string,
    name: string,
    credits: int,
    strongAreas: string,
    weakAreas: string,
    confidenceLevel: int)

  /** Daily hour budgets are counted in HALF-HOUR units, because the sliders
      move in steps of 0.5 hours; `targetDate` stays the text the date input
      holds. */
  datatype StudyPreferences = StudyPreferences(
    weekdayHours: int,
    weekendHours: int,
    preferredTime: PreferredTime,
    targetDate: string)

  datatype FormData = FormData(
    studentDetails: StudentDetails,
    subjects: seq<Subject>,
    studyPreferences: StudyPreferences)

  // ----- the plan the generator returns -------------------------------------

  datatype SessionType = Learning | Practice | Revision | Buffer

  datatype CognitiveLoad = High | Medium | Low

  datatype Priority = HighPriority | MediumPriority | LowPriority

  /** JSON numbers of the generated plan are exact rationals here. */
  datatype StudySession = StudySession(
    subject: string,
    topic: string,
    durationMinutes: real,
    sessionType: SessionType,
    cognitiveLoad: CognitiveLoad)

  datatype DaySchedule = DaySchedule(day: string, sessions: seq<StudySession>)

  datatype WeekPlan = WeekPlan(
    weekNumber: real,
    weekLabel: string,
    dailySchedule: seq<DaySchedule>,
    goals: seq<string>)

  datatype SubjectAllocation = SubjectAllocation(
    subject: string,
    totalHours: real,
    percentage: real,
    justification: string)

  datatype SmartInsight = SmartInsight(title: string, description: string, priority: Priority)

  datatype ConfidenceProjection = ConfidenceProjection(
    subject: string,
    currentLevel: real,
    projectedLevel: real)

  datatype DayFocus = DayFocus(day: string, focus: string, tasks: seq<string>)

  datatype OutcomeSummary = OutcomeSummary(
    estimatedCompletionDate: string,
    totalStudyHours: real,
    confidenceProjections: seq<ConfidenceProjection>,
    keyBenefits: seq<string>)

  datatype StudyPlan = StudyPlan(
    totalWeeks: real,
    totalStudyHours: real,
    weeklyPlans: seq<WeekPlan>,
    subjectAllocations: seq<SubjectAllocation>,
    nextSevenDaysFocus: seq<DayFocus>,
    smartInsights: seq<SmartInsight>,
    outcomeSummary: OutcomeSummary)

  // ----- the literal spelling of each enumeration value ---------------------

  function PreferredTimeName(t: PreferredTime): string
  {
    match t
    case Morning => "morning"
    case Afternoon => "afternoon"
    case Evening => "evening"
    case Night => "night"
  }

  function SessionTypeName(t: SessionType): string
  {
    match t
    case Learning => "learning"
    case Practice => "practice"
    case Revision => "revision"
    case Buffer => "buffer"
  }

  function CognitiveLoadName(l: CognitiveLoad): string
  {
    match l
    case High => "high"
    case Medium => "medium"
    case Low => "low"
  }

  function PriorityName(p: Priority): string
  {
    match p
    case HighPriority => "high"
    case MediumPriority => "medium"
    case LowPriority => "low"
  }
}
