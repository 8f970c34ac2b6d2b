/** The page that switches between the landing sections, the form and the
    plan (app/page.tsx). The request to the generation endpoint is not
    modelled; its outcome is an input: the request failed outright, or a
    response arrived that is ok or not and carries a plan or not. */
module AppPage {
  import opened Options
  import opened Types

  datatype AppView = Landing | Form | Plan

  /** How one request ended. `Failed` is a fetch or JSON-reading error. */
  datatype FetchOutcome =
    | Failed
    | Responded(ok: bool, studyPlan: Option<StudyPlan>)

  /** Only an ok response that carries a plan counts as a success. */
  predicate Succeeded(o: FetchOutcome)
  {
    o.Responded? && o.ok && o.studyPlan.Some?
  }

  /** What the page renders. */
  datatype Screen = LandingScreen | FormScreen | PlanScreen(plan: StudyPlan, formData: FormData)

  /** The render guards: the dashboard needs the plan view AND both a plan
      and form data; the form needs the form view; everything else, a plan
      view without its data included, shows the landing page. */
  function ScreenFor(view: AppView, plan: Option<StudyPlan>, formData: Option<FormData>): (s: Screen)
    ensures s.PlanScreen? <==> view == Plan && plan.Some? && formData.Some?
    ensures s.PlanScreen? ==> s.plan == plan.value && s.formData == formData.value
    ensures s.FormScreen? <==> view == Form
    ensures s.LandingScreen? <==> view == Landing || (view == Plan && (plan.None? || formData.None?))
  {
    match view
    case Plan => if plan.Some? && formData.Some? then PlanScreen(plan.value, formData.value) else LandingScreen
    case Form => FormScreen
    case Landing => LandingScreen
  }

  class Page {
    var view: AppView
    var isLoading: bool
    var studyPlan: Option<StudyPlan>
    var formDataState: Option<FormData>

    function CurrentScreen(): Screen
      reads this
    {
      ScreenFor(view, studyPlan, formDataState)
    }

    constructor ()
      ensures view == Landing && !isLoading && studyPlan == None && formDataState == None
      ensures CurrentScreen() == LandingScreen
    {
      view := Landing;
      isLoading := false;
      studyPlan := None;
      formDataState := None;
    }

    /** `handleGetStarted`. */
    method GetStarted()
      modifies this
      ensures view == Form
      ensures isLoading == old(isLoading) && studyPlan == old(studyPlan) && formDataState == old(formDataState)
    {
      view := Form;
    }

    /** The part of `handleSubmit` before the request: busy, and the form
        data recorded. */
    method BeginSubmit(formData: FormData)
      modifies this
      ensures isLoading && formDataState == Some(formData)
      ensures view == old(view) && studyPlan == old(studyPlan)
    {
      isLoading := true;
      formDataState := Some(formData);
    }

    /** The part of `handleSubmit` after the request: a success stores the
        plan and shows it; any failure leaves view and plan alone; either
        way the busy flag is cleared. */
    method FinishSubmit(outcome: FetchOutcome)
      modifies this
      ensures !isLoading
      ensures formDataState == old(formDataState)
      ensures Succeeded(outcome) ==> studyPlan == outcome.studyPlan && view == Plan
      ensures !Succeeded(outcome) ==> studyPlan == old(studyPlan) && view == old(view)
    {
      if outcome.Responded? && outcome.ok {
        match outcome.studyPlan
        case Some(plan) =>
          studyPlan := Some(plan);
          view := Plan;
        case None =>
      }
      isLoading := false;
    }

    /** `handleSubmit` as a whole. After a success the dashboard shows the
        new plan with the submitted data; after a failure the form data is
        still recorded and nothing else has changed. */
    method Submit(formData: FormData, outcome: FetchOutcome)
      modifies this
      ensures !isLoading && formDataState == Some(formData)
      ensures Succeeded(outcome) ==> CurrentScreen() == PlanScreen(outcome.studyPlan.value, formData)
      ensures !Succeeded(outcome) ==> studyPlan == old(studyPlan) && view == old(view)
    {
      BeginSubmit(formData);
      FinishSubmit(outcome);
    }

    /** The dashboard's Back button: to the form. */
    method BackFromPlan()
      requires CurrentScreen().PlanScreen?
      modifies this
      ensures view == Form && CurrentScreen() == FormScreen
      ensures isLoading == old(isLoading) && studyPlan == old(studyPlan) && formDataState == old(formDataState)
    {
      view := Form;
    }

    /** The form's "Back to Home" button: to the landing page. */
    method BackFromForm()
      requires CurrentScreen() == FormScreen
      modifies this
      ensures view == Landing && CurrentScreen() == LandingScreen
      ensures isLoading == old(isLoading) && studyPlan == old(studyPlan) && formDataState == old(formDataState)
    {
      view := Landing;
    }
  }
}
