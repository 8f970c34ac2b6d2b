/** The structured-output schema of the generation endpoint
    (app/api/generate-plan/route.ts), as a validator. The generator's reply
    arrives with its enumerated fields as free text; validation accepts it
    exactly when every session type, cognitive load and insight priority is
    one of the schema's literals, and then yields the typed plan. Only the
    enumerated fields are checked, as in the schema: nothing bounds session
    durations or the length of any list. */
module Schema {
  import opened Options
  import opened Types

  datatype RawSession = RawSession(
    subject: string,
    topic: string,
    durationMinutes: real,
    sessionType: string,
    cognitiveLoad: string)

  datatype RawDay = RawDay(day: string, sessions: seq<RawSession>)

  datatype RawWeek = RawWeek(
    weekNumber: real,
    weekLabel: string,
    dailySchedule: seq<RawDay>,
    goals: seq<string>)

  datatype RawInsight = RawInsight(title: string, description: string, priority: string)

  datatype RawPlan = RawPlan(
    totalWeeks: real,
    totalStudyHours: real,
    weeklyPlans: seq<RawWeek>,
    subjectAllocations: seq<SubjectAllocation>,
    nextSevenDaysFocus: seq<DayFocus>,
    smartInsights: seq<RawInsight>,
    outcomeSummary: OutcomeSummary)

  // ----- the literals the schema allows -------------------------------------

  const SessionTypeValues: set<string> := {"learning", "practice", "revision", "buffer"}
  const CognitiveLoadValues: set<string> := {"high", "medium", "low"}
  const PriorityValues: set<string> := {"high", "medium", "low"}

  predicate ValidSession(r: RawSession)
  {
    r.sessionType in SessionTypeValues && r.cognitiveLoad in CognitiveLoadValues
  }

  predicate ValidDay(r: RawDay)
  {
    forall i :: 0 <= i < |r.sessions| ==> ValidSession(r.sessions[i])
  }

  predicate ValidWeek(r: RawWeek)
  {
    forall i :: 0 <= i < |r.dailySchedule| ==> ValidDay(r.dailySchedule[i])
  }

  predicate ValidInsight(r: RawInsight)
  {
    r.priority in PriorityValues
  }

  /** Schema validity of a whole reply. */
  predicate ValidPlan(r: RawPlan)
  {
    && (forall i :: 0 <= i < |r.weeklyPlans| ==> ValidWeek(r.weeklyPlans[i]))
    && (forall i :: 0 <= i < |r.smartInsights| ==> ValidInsight(r.smartInsights[i]))
  }

  // ----- reading one literal -------------------------------------------------

  function ParseSessionType(s: string): (r: Option<SessionType>)
    ensures r.Some? <==> s in SessionTypeValues
    ensures r.Some? ==> SessionTypeName(r.value) == s
  {
    if s == "learning" then Some(Learning)
    else if s == "practice" then Some(Practice)
    else if s == "revision" then Some(Revision)
    else if s == "buffer" then Some(Buffer)
    else None
  }

  function ParseCognitiveLoad(s: string): (r: Option<CognitiveLoad>)
    ensures r.Some? <==> s in CognitiveLoadValues
    ensures r.Some? ==> CognitiveLoadName(r.value) == s
  {
    if s == "high" then Some(High)
    else if s == "medium" then Some(Medium)
    else if s == "low" then Some(Low)
    else None
  }

  function ParsePriority(s: string): (r: Option<Priority>)
    ensures r.Some? <==> s in PriorityValues
    ensures r.Some? ==> PriorityName(r.value) == s
  {
    if s == "high" then Some(HighPriority)
    else if s == "medium" then Some(MediumPriority)
    else if s == "low" then Some(LowPriority)
    else None
  }

  /** Each literal is read back as the value it spells. */
  lemma ParseNames(t: SessionType, l: CognitiveLoad, p: Priority)
    ensures ParseSessionType(SessionTypeName(t)) == Some(t)
    ensures ParseCognitiveLoad(CognitiveLoadName(l)) == Some(l)
    ensures ParsePriority(PriorityName(p)) == Some(p)
  {
  }

  // ----- lists -----------------------------------------------------------------

  /** Checks every element; succeeds exactly when every element does. */
  function CheckAll<R, T>(rs: seq<R>, check: R -> Option<T>): (r: Option<seq<T>>)
    ensures r.Some? <==> forall i :: 0 <= i < |rs| ==> check(rs[i]).Some?
    ensures r.Some? ==> |r.value| == |rs| && forall i :: 0 <= i < |rs| ==> check(rs[i]) == Some(r.value[i])
  {
    if rs == [] then Some([])
    else
      match (check(rs[0]), CheckAll(rs[1..], check))
      case (Some(t), Some(ts)) => Some([t] + ts)
      case _ => None
  }

  function MapSeq<T, R>(xs: seq<T>, f: T -> R): (r: seq<R>)
    ensures |r| == |xs| && forall i :: 0 <= i < |xs| ==> r[i] == f(xs[i])
  {
    if xs == [] then [] else [f(xs[0])] + MapSeq(xs[1..], f)
  }

  // ----- serialising a typed plan ------------------------------------------

  function EncodeSession(s: StudySession): RawSession
  {
    RawSession(s.subject, s.topic, s.durationMinutes, SessionTypeName(s.sessionType), CognitiveLoadName(s.cognitiveLoad))
  }

  function EncodeDay(d: DaySchedule): RawDay
  {
    RawDay(d.day, MapSeq(d.sessions, EncodeSession))
  }

  function EncodeWeek(w: WeekPlan): RawWeek
  {
    RawWeek(w.weekNumber, w.weekLabel, MapSeq(w.dailySchedule, EncodeDay), w.goals)
  }

  function EncodeInsight(i: SmartInsight): RawInsight
  {
    RawInsight(i.title, i.description, PriorityName(i.priority))
  }

  function Encode(p: StudyPlan): RawPlan
  {
    RawPlan(p.totalWeeks, p.totalStudyHours, MapSeq(p.weeklyPlans, EncodeWeek), p.subjectAllocations,
            p.nextSevenDaysFocus, MapSeq(p.smartInsights, EncodeInsight), p.outcomeSummary)
  }

  // ----- validation ------------------------------------------------------------

  function CheckSession(r: RawSession): (s: Option<StudySession>)
    ensures s.Some? <==> ValidSession(r)
    ensures s.Some? ==> EncodeSession(s.value) == r
  {
    match (ParseSessionType(r.sessionType), ParseCognitiveLoad(r.cognitiveLoad))
    case (Some(t), Some(l)) => Some(StudySession(r.subject, r.topic, r.durationMinutes, t, l))
    case _ => None
  }

  function CheckDay(r: RawDay): (d: Option<DaySchedule>)
    ensures d.Some? <==> ValidDay(r)
    ensures d.Some? ==> EncodeDay(d.value) == r
  {
    match CheckAll(r.sessions, CheckSession)
    case Some(ss) =>
      assert MapSeq(ss, EncodeSession) == r.sessions;
      Some(DaySchedule(r.day, ss))
    case None => None
  }

  function CheckWeek(r: RawWeek): (w: Option<WeekPlan>)
    ensures w.Some? <==> ValidWeek(r)
    ensures w.Some? ==> EncodeWeek(w.value) == r
  {
    match CheckAll(r.dailySchedule, CheckDay)
    case Some(ds) =>
      assert MapSeq(ds, EncodeDay) == r.dailySchedule;
      Some(WeekPlan(r.weekNumber, r.weekLabel, ds, r.goals))
    case None => None
  }

  function CheckInsight(r: RawInsight): (i: Option<SmartInsight>)
    ensures i.Some? <==> ValidInsight(r)
    ensures i.Some? ==> EncodeInsight(i.value) == r
  {
    match ParsePriority(r.priority)
    case Some(p) => Some(SmartInsight(r.title, r.description, p))
    case None => None
  }

  /** The validator: a typed plan exactly for schema-valid replies, and that
      plan serialises back to the reply it was read from. */
  function Validate(r: RawPlan): (p: Option<StudyPlan>)
    ensures p.Some? <==> ValidPlan(r)
    ensures p.Some? ==> Encode(p.value) == r
  {
    match (CheckAll(r.weeklyPlans, CheckWeek), CheckAll(r.smartInsights, CheckInsight))
    case (Some(ws), Some(ins)) =>
      assert MapSeq(ws, EncodeWeek) == r.weeklyPlans;
      assert MapSeq(ins, EncodeInsight) == r.smartInsights;
      Some(StudyPlan(r.totalWeeks, r.totalStudyHours, ws, r.subjectAllocations,
                     r.nextSevenDaysFocus, ins, r.outcomeSummary))
    case _ => None
  }

  // ----- the round trip from the typed side ----------------------------------

  lemma CheckAllOfMap<T, R>(xs: seq<T>, enc: T -> R, check: R -> Option<T>)
    requires forall x :: check(enc(x)) == Some(x)
    ensures CheckAll(MapSeq(xs, enc), check) == Some(xs)
  {
    var r := CheckAll(MapSeq(xs, enc), check);
    assert r.Some?;
    assert r.value == xs;
  }

  lemma CheckSessionOfEncode(s: StudySession)
    ensures CheckSession(EncodeSession(s)) == Some(s)
  {
    ParseNames(s.sessionType, s.cognitiveLoad, HighPriority);
  }

  lemma CheckDayOfEncode(d: DaySchedule)
    ensures CheckDay(EncodeDay(d)) == Some(d)
  {
    forall s ensures CheckSession(EncodeSession(s)) == Some(s) {
      CheckSessionOfEncode(s);
    }
    CheckAllOfMap(d.sessions, EncodeSession, CheckSession);
  }

  lemma CheckWeekOfEncode(w: WeekPlan)
    ensures CheckWeek(EncodeWeek(w)) == Some(w)
  {
    forall d ensures CheckDay(EncodeDay(d)) == Some(d) {
      CheckDayOfEncode(d);
    }
    CheckAllOfMap(w.dailySchedule, EncodeDay, CheckDay);
  }

  /** Every typed plan, serialised, passes validation unchanged: the plan the
      display receives carries the same weeks, days, sessions and
      allocations as the reply it came from. */
  lemma ValidateEncode(p: StudyPlan)
    ensures Validate(Encode(p)) == Some(p)
  {
    forall w ensures CheckWeek(EncodeWeek(w)) == Some(w) {
      CheckWeekOfEncode(w);
    }
    forall i ensures CheckInsight(EncodeInsight(i)) == Some(i) {
      ParseNames(Learning, High, i.priority);
    }
    CheckAllOfMap(p.weeklyPlans, EncodeWeek, CheckWeek);
    CheckAllOfMap(p.smartInsights, EncodeInsight, CheckInsight);
  }

  // ----- two concrete replies ----------------------------------------------

  /** A reply with one session whose cognitive load is "extreme". */
  function ExtremeLoadReply(): RawPlan
  {
    RawPlan(1.0, 10.0,
            [RawWeek(1.0, "Week 1", [RawDay("Monday", [RawSession("Maths", "Limits", 60.0, "learning", "extreme")])], [])],
            [], [], [], OutcomeSummary("", 10.0, [], []))
  }

  lemma ExtremeLoadIsRejected()
    ensures Validate(ExtremeLoadReply()) == None
  {
    assert !ValidSession(ExtremeLoadReply().weeklyPlans[0].dailySchedule[0].sessions[0]);
  }

  /** The schema bounds neither the session length nor the number of focus
      days: a 500-minute session and an empty seven-day focus pass. */
  lemma UnboundedFieldsAreAccepted()
    ensures Validate(RawPlan(1.0, 10.0,
                             [RawWeek(1.0, "", [RawDay("Monday", [RawSession("Maths", "Limits", 500.0, "practice", "low")])], [])],
                             [], [], [], OutcomeSummary("", 10.0, [], []))).Some?
  {
  }
}
