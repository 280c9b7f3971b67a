/**
 * Page dispatch: the session's `current_page` name selects the page that
 * is rendered. Every name selects some page; a name the dispatcher does
 * not know falls back to the dashboard, and a missing name reads as the
 * landing page.
 */
module Routing {
  import opened Wrappers

  /** The six page renderers. */
  datatype Renderer = Landing | Onboarding | Dashboard | CreatePetition | PetitionEvidence | PetitionReview

  /** The `current_page` name that selects each renderer. */
  function Label(r: Renderer): string {
    match r
    case Landing => "landing"
    case Onboarding => "onboarding"
    case Dashboard => "dashboard"
    case CreatePetition => "create_petition"
    case PetitionEvidence => "petition_evidence"
    case PetitionReview => "petition_review"
  }

  const DefaultPage: string := "landing"

  const KnownLabels: set<string> :=
    {"landing", "onboarding", "dashboard", "create_petition", "petition_evidence", "petition_review"}

  /**
   * The dispatch: a known name selects its own renderer, any other name the
   * dashboard, and an absent name is read as "landing".
   */
  function Route(page: Option<string>): (r: Renderer)
    ensures page.None? ==> r == Landing
    ensures page.Some? && page.value in KnownLabels ==> Label(r) == page.value
    ensures page.Some? && page.value !in KnownLabels ==> r == Dashboard
  {
    var name := page.GetOr(DefaultPage);
    if name == "landing" then Landing
    else if name == "onboarding" then Onboarding
    else if name == "dashboard" then Dashboard
    else if name == "create_petition" then CreatePetition
    else if name == "petition_evidence" then PetitionEvidence
    else if name == "petition_review" then PetitionReview
    else Dashboard
  }

  /** Setting a renderer's own name always renders that page. */
  lemma RouteOfLabel(r: Renderer)
    ensures Label(r) in KnownLabels && Route(Some(Label(r))) == r
  {
  }

  /** The dashboard is rendered exactly for its own name and for every unknown one. */
  lemma RouteToDashboard(name: string)
    ensures Route(Some(name)) == Dashboard <==> name == "dashboard" || name !in KnownLabels
  {
  }

  /** The four quick-action buttons of the dashboard. */
  datatype DashboardButton = CreatePetitionButton | ReportIssueButton | MyActivityButton | SettingsButton

  /** The name each quick action stores in `current_page`. */
  function ButtonTarget(b: DashboardButton): string {
    match b
    case CreatePetitionButton => "create_petition"
    case ReportIssueButton => "report_incident"
    case MyActivityButton => "my_activity"
    case SettingsButton => "settings"
  }

  /**
   * Only "Create Petition" leaves the dashboard: the other three labels have
   * no page in the dispatcher, so they render the dashboard again.
   */
  lemma ButtonDestination(b: DashboardButton)
    ensures Route(Some(ButtonTarget(b))) == if b == CreatePetitionButton then CreatePetition else Dashboard
  {
  }
}
