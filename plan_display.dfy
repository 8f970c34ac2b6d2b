/** The plan dashboard (components/study-plan-display.tsx): the week
    navigator with its clamped Previous and Next buttons, and the values
    derived for the charts and badges. */
module PlanDisplay {
  import opened Options
  import opened Types
  import opened Numerals

  // ----- week navigation ---------------------------------------------------------

  /** Previous's updater `Math.max(0, w - 1)`. */
  function PrevWeek(w: int): (r: int)
    ensures r >= 0
    ensures w >= 1 ==> r == w - 1
    ensures w < 1 ==> r == 0
  {
    if w - 1 > 0 then w - 1 else 0
  }

  /** Next's updater `Math.min(weekCount - 1, w + 1)`. */
  function NextWeek(w: int, weekCount: int): (r: int)
    ensures r <= weekCount - 1
    ensures w + 1 <= weekCount - 1 ==> r == w + 1
    ensures w + 1 > weekCount - 1 ==> r == weekCount - 1
  {
    if w + 1 < weekCount - 1 then w + 1 else weekCount - 1
  }

  predicate PrevDisabled(w: int)
  {
    w == 0
  }

  predicate NextDisabled(w: int, weekCount: int)
  {
    w == weekCount - 1
  }

  /** On a non-empty plan both buttons keep the index on a week. */
  lemma NavigationStaysOnAWeek(w: int, weekCount: int)
    requires 0 <= w < weekCount
    ensures 0 <= PrevWeek(w) < weekCount
    ensures 0 <= NextWeek(w, weekCount) < weekCount
  {
  }

  /** The index is clamped, not wrapped: Next on the last week stays there and
      Previous on the first stays there; and exactly there the buttons are
      disabled. */
  lemma EndsClamp(weekCount: int)
    requires weekCount >= 1
    ensures NextWeek(weekCount - 1, weekCount) == weekCount - 1 && NextDisabled(weekCount - 1, weekCount)
    ensures PrevWeek(0) == 0 && PrevDisabled(0)
    ensures forall w :: 0 < w < weekCount - 1 ==> !PrevDisabled(w) && !NextDisabled(w, weekCount)
  {
  }

  /** With no weekly plans Next is enabled at week 0 and moves to -1. */
  lemma EmptyPlanNextGoesToMinusOne()
    ensures !NextDisabled(0, 0) && NextWeek(0, 0) == -1
  {
  }

  class WeekNavigator {
    /** `selectedWeek`. */
    var selectedWeek: int
    /** `plan.weeklyPlans.length`, fixed for the life of the dashboard. */
    const weekCount: nat

    /** On a plan with weeks the index names a week; on an empty plan it is
        0 or -1. */
    ghost predicate Valid()
      reads this
    {
      if weekCount >= 1 then 0 <= selectedWeek < weekCount else -1 <= selectedWeek <= 0
    }

    constructor (weekCount: nat)
      ensures Valid() && selectedWeek == 0 && this.weekCount == weekCount
    {
      this.weekCount := weekCount;
      selectedWeek := 0;
    }

    method Previous()
      requires Valid()
      modifies this
      ensures Valid()
      ensures selectedWeek == if PrevDisabled(old(selectedWeek)) then old(selectedWeek) else PrevWeek(old(selectedWeek))
      ensures old(selectedWeek) > 0 ==> selectedWeek == old(selectedWeek) - 1
    {
      if !PrevDisabled(selectedWeek) {
        selectedWeek := PrevWeek(selectedWeek);
      }
    }

    method Next()
      requires Valid()
      modifies this
      ensures Valid()
      ensures selectedWeek == if NextDisabled(old(selectedWeek), weekCount) then old(selectedWeek) else NextWeek(old(selectedWeek), weekCount)
      ensures old(selectedWeek) + 1 < weekCount ==> selectedWeek == old(selectedWeek) + 1
    {
      if !NextDisabled(selectedWeek, weekCount) {
        selectedWeek := NextWeek(selectedWeek, weekCount);
      }
    }
  }

  /** `plan.weeklyPlans[w]`, `undefined` (None) off the list. */
  function WeekAt(weeks: seq<WeekPlan>, w: int): (r: Option<WeekPlan>)
    ensures r.Some? <==> 0 <= w < |weeks|
    ensures r.Some? ==> r.value == weeks[w]
  {
    if 0 <= w < |weeks| then Some(weeks[w]) else None
  }

  /** `currentWeek?.weekLabel || "Week (w+1)"`: the week's own label when it
      has one, otherwise a generated one. Never empty. */
  function WeekHeader(weeks: seq<WeekPlan>, w: int): (h: string)
    ensures h != ""
    ensures WeekAt(weeks, w).Some? && weeks[w].weekLabel != "" ==> h == weeks[w].weekLabel
  {
    match WeekAt(weeks, w)
    case Some(week) => if week.weekLabel != "" then week.weekLabel else "Week " + IntToString(w + 1)
    case None => "Week " + IntToString(w + 1)
  }

  /** Without a label the header reads "Week " and then the one-based number
      of the selected week. */
  lemma FallbackHeaderNamesTheWeek(weeks: seq<WeekPlan>, w: int)
    requires WeekAt(weeks, w).None? || weeks[w].weekLabel == ""
    ensures WeekHeader(weeks, w)[..5] == "Week "
    ensures ParseInt(WeekHeader(weeks, w)[5..]) == Some(w + 1)
  {
    var digits := IntToString(w + 1);
    ParseIntOfIntToString(w + 1, []);
    assert digits + [] == digits;
    assert WeekHeader(weeks, w) == "Week " + digits;
    assert ("Week " + digits)[5..] == digits;
  }

  // ----- chart data ------------------------------------------------------------------

  /** The longest subject name the confidence chart shows in full. */
  const MaxLabelLength: nat := 12

  /** Names longer than twelve characters become their first twelve and
      "..."; shorter names are kept. */
  function ShortName(name: string): (r: string)
    ensures |r| <= MaxLabelLength + 3
    ensures |name| <= MaxLabelLength ==> r == name
    ensures |name| > MaxLabelLength ==>
      |r| == MaxLabelLength + 3 && r[..MaxLabelLength] == name[..MaxLabelLength] && r[MaxLabelLength..] == "..."
  {
    if |name| > MaxLabelLength then name[..MaxLabelLength] + "..." else name
  }

  /** Shortening a shortened name changes nothing. */
  lemma ShortNameIdempotent(name: string)
    ensures ShortName(ShortName(name)) == ShortName(name)
  {
    if |name| > MaxLabelLength {
      var r := ShortName(name);
      assert r[..MaxLabelLength] + "..." == r;
    }
  }

  datatype ConfidenceBar = ConfidenceBar(subject: string, current: real, projected: real)

  /** `confidenceData`: one bar per projection, in order, with the name
      shortened and both levels copied. */
  function ConfidenceData(ps: seq<ConfidenceProjection>): (bars: seq<ConfidenceBar>)
    ensures |bars| == |ps|
    ensures forall i :: 0 <= i < |ps| ==>
      bars[i] == ConfidenceBar(ShortName(ps[i].subject), ps[i].currentLevel, ps[i].projectedLevel)
  {
    if ps == [] then []
    else [ConfidenceBar(ShortName(ps[0].subject), ps[0].currentLevel, ps[0].projectedLevel)] + ConfidenceData(ps[1..])
  }

  datatype PieSlice = PieSlice(name: string, value: real, percentage: real)

  /** `pieData`: one slice per allocation, in order, sized by its hours and
      carrying its percentage. */
  function PieData(allocations: seq<SubjectAllocation>): (slices: seq<PieSlice>)
    ensures |slices| == |allocations|
    ensures forall i :: 0 <= i < |allocations| ==>
      slices[i] == PieSlice(allocations[i].subject, allocations[i].totalHours, allocations[i].percentage)
  {
    if allocations == [] then []
    else [PieSlice(allocations[0].subject, allocations[0].totalHours, allocations[0].percentage)] + PieData(allocations[1..])
  }

  function TotalValue(slices: seq<PieSlice>): real
  {
    if slices == [] then 0.0 else slices[0].value + TotalValue(slices[1..])
  }

  function TotalHours(allocations: seq<SubjectAllocation>): real
  {
    if allocations == [] then 0.0 else allocations[0].totalHours + TotalHours(allocations[1..])
  }

  /** The pie shows all the allocated hours, nothing rescaled. */
  lemma {:induction false} PieCoversAllHours(allocations: seq<SubjectAllocation>)
    ensures TotalValue(PieData(allocations)) == TotalHours(allocations)
  {
    if allocations != [] {
      PieCoversAllHours(allocations[1..]);
      assert PieData(allocations)[1..] == PieData(allocations[1..]);
    }
  }

  // ----- colours -------------------------------------------------------------------

  const PieColors: seq<string> := [
    "hsl(199, 89%, 48%)",
    "hsl(160, 84%, 39%)",
    "hsl(38, 92%, 50%)",
    "hsl(346, 77%, 60%)",
    "hsl(262, 60%, 55%)"
  ]

  /** `i % PIE_COLORS.length`: always a palette entry, the i-th for the first
      five slices. */
  function ColorIndex(i: nat): (k: nat)
    ensures k < |PieColors|
    ensures i < |PieColors| ==> k == i
  {
    i % |PieColors|
  }

  /** The palette repeats every five slices, and neighbouring slices never
      share a colour. */
  lemma ColorsCycle(i: nat)
    ensures ColorIndex(i + |PieColors|) == ColorIndex(i)
    ensures PieColors[ColorIndex(i)] != PieColors[ColorIndex(i + 1)]
  {
    assert ColorIndex(i + 1) == if ColorIndex(i) == 4 then 0 else ColorIndex(i) + 1;
  }

  /** The three looks of an insight card. */
  datatype Tone = Alert | Caution | Muted

  /** The insight card's ternaries: "high" alerts, "medium" cautions, anything
      else is muted. */
  function PriorityTone(p: Priority): (t: Tone)
    ensures t == Alert <==> p == HighPriority
    ensures t == Caution <==> p == MediumPriority
  {
    if PriorityName(p) == "high" then Alert
    else if PriorityName(p) == "medium" then Caution
    else Muted
  }

  /** Each priority has a look of its own. */
  lemma PriorityTonesDiffer(p: Priority, q: Priority)
    ensures p != q ==> PriorityTone(p) != PriorityTone(q)
    ensures PriorityTone(p) == Muted <==> p == LowPriority
  {
  }
}
