/**
 * The per-browser session of the civic-engagement platform and the UI events
 * that change it. Each field is one session key; `None` means the key is
 * absent. Every button or form event is one atomic method.
 */
module Platform {
  import opened Wrappers
  import opened PetitionId
  import opened Petitions
  import opened Routing

  /** The identity display chosen on the review page. */
  datatype Privacy = Public | Private

  const DefaultRole: string := "citizen"

  /** The two notices the submit button always shows. */
  const SubmissionNotices: seq<string> := [
    "✅ Petition submitted successfully!",
    "📧 Petition submitted — 4 organizations auto-notified"
  ]

  /**
   * A session key written only when it is absent: afterwards the key is
   * present, and a value that was already there is kept.
   */
  function SetDefault<T>(current: Option<T>, default: T): (r: Option<T>)
    ensures r.Some?
    ensures current.Some? ==> r == current
    ensures current.None? ==> r == Some(default)
  {
    if current.Some? then current else Some(default)
  }

  /** Writing a default a second time changes nothing. */
  lemma SetDefaultIdempotent<T>(current: Option<T>, default: T)
    ensures SetDefault(SetDefault(current, default), default) == SetDefault(current, default)
  {
  }

  class Session {
    var userAuthenticated: Option<bool>
    var userRole: Option<string>
    var currentPage: Option<string>
    var petitions: Option<seq<Petition>>
    var reports: Option<seq<string>>
    var notifications: Option<seq<string>>
    var draft: Option<Draft>
    var privacy: Option<Privacy>

    /** Stored petitions are numbered 1, 2, 3, ... in the order they were appended. */
    ghost predicate Valid()
      reads this`petitions
    {
      petitions.Some? ==> IdsSequential(petitions.value)
    }

    /** Every key the platform sets up on each run is present. */
    predicate Initialized()
      reads this`userAuthenticated, this`userRole, this`currentPage, this`petitions, this`reports, this`notifications
    {
      userAuthenticated.Some? && userRole.Some? && currentPage.Some? &&
      petitions.Some? && reports.Some? && notifications.Some?
    }

    /** A new browser session: no key is set. */
    constructor ()
      ensures Valid() && !Initialized()
      ensures userAuthenticated == None && userRole == None && currentPage == None
      ensures petitions == None && reports == None && notifications == None
      ensures draft == None && privacy == None
    {
      userAuthenticated, userRole, currentPage := None, None, None;
      petitions, reports, notifications := None, None, None;
      draft, privacy := None, None;
    }

    /** Gives each platform key its default when, and only when, it is absent. */
    method InitializePlatform()
      requires Valid()
      modifies this`userAuthenticated, this`userRole, this`currentPage, this`petitions, this`reports, this`notifications
      ensures Valid() && Initialized()
      ensures userAuthenticated == SetDefault(old(userAuthenticated), false)
      ensures userRole == SetDefault(old(userRole), DefaultRole)
      ensures currentPage == SetDefault(old(currentPage), DefaultPage)
      ensures petitions == SetDefault(old(petitions), [])
      ensures reports == SetDefault(old(reports), [])
      ensures notifications == SetDefault(old(notifications), [])
    {
      if userAuthenticated.None? { userAuthenticated := Some(false); }
      if userRole.None? { userRole := Some(DefaultRole); }
      if currentPage.None? { currentPage := Some(DefaultPage); }
      if petitions.None? { petitions := Some([]); }
      if reports.None? { reports := Some([]); }
      if notifications.None? { notifications := Some([]); }
    }

    /** Landing page, "Get Started". */
    method GetStarted()
      modifies this`currentPage
      ensures currentPage == Some("onboarding") && Route(currentPage) == Onboarding
    {
      currentPage := Some("onboarding");
      RouteOfLabel(Onboarding);
    }

    /** Onboarding page, "Next". */
    method OnboardingNext()
      modifies this`currentPage
      ensures currentPage == Some("dashboard") && Route(currentPage) == Dashboard
    {
      currentPage := Some("dashboard");
      RouteOfLabel(Dashboard);
    }

    /** Dashboard, one of the four quick-action buttons. */
    method DashboardAction(b: DashboardButton)
      modifies this`currentPage
      ensures currentPage == Some(ButtonTarget(b))
      ensures Route(currentPage) == if b == CreatePetitionButton then CreatePetition else Dashboard
    {
      ButtonDestination(b);
      currentPage := Some(ButtonTarget(b));
    }

    /**
     * Step 1, the form's "Next": an accepted form stores exactly the three
     * fields as the draft and moves to step 2; a rejected one changes nothing
     * and yields the error message.
     */
    method PetitionFormSubmit(title: string, category: string, description: string) returns (error: Option<string>)
      modifies this`draft, this`currentPage
      ensures ValidForm(title, category, description) ==>
        error == None && draft == Some(FormDraft(title, category, description)) &&
        currentPage == Some("petition_evidence") && Route(currentPage) == PetitionEvidence
      ensures !ValidForm(title, category, description) ==>
        error == Some(RequiredFieldsError) && draft == old(draft) && currentPage == old(currentPage)
    {
      if ValidForm(title, category, description) {
        draft := Some(FormDraft(title, category, description));
        currentPage := Some("petition_evidence");
        RouteOfLabel(PetitionEvidence);
        error := None;
      } else {
        error := Some(RequiredFieldsError);
      }
    }

    /** Step 1, "Back to Dashboard". */
    method CreateBack()
      modifies this`currentPage
      ensures currentPage == Some("dashboard") && Route(currentPage) == Dashboard
    {
      currentPage := Some("dashboard");
      RouteOfLabel(Dashboard);
    }

    /** Step 2, "Back": returns to the form; the draft is kept. */
    method EvidenceBack()
      modifies this`currentPage
      ensures currentPage == Some("create_petition") && Route(currentPage) == CreatePetition
    {
      currentPage := Some("create_petition");
      RouteOfLabel(CreatePetition);
    }

    /** Step 2, "Next": goes to the review whether or not a draft exists. */
    method EvidenceNext()
      modifies this`currentPage
      ensures currentPage == Some("petition_review") && Route(currentPage) == PetitionReview
    {
      currentPage := Some("petition_review");
      RouteOfLabel(PetitionReview);
    }

    /** Step 3, "Back". */
    method ReviewBack()
      modifies this`currentPage
      ensures currentPage == Some("petition_evidence") && Route(currentPage) == PetitionEvidence
    {
      currentPage := Some("petition_evidence");
      RouteOfLabel(PetitionEvidence);
    }

    /** Step 3, the "Public" or "Private" button. */
    method SetPrivacy(p: Privacy)
      modifies this`privacy
      ensures privacy == Some(p)
    {
      privacy := Some(p);
    }

    /** Step 3's petition summary: shown only when a draft is stored. */
    method ReviewSummary() returns (s: Option<Summary>)
      ensures s.Some? <==> draft.Some?
      ensures draft.Some? ==> s.value.title == draft.value.title.GetOr(NotAvailable)
      ensures draft.Some? ==> s.value.category == draft.value.category.GetOr(NotAvailable)
      ensures draft.Some? ==> s.value.description == TruncateSummary(draft.value.description)
      ensures draft.Some? ==> s.value.location == PlaceholderLocation
    {
      if draft.Some? {
        s := Some(SummaryOf(draft.value));
      } else {
        s := None;
      }
    }

    /**
     * Step 3, "Submit Petition": with a draft, appends one petition stamped
     * with the next number, status "submitted", one vote and `today`; without
     * one, stores nothing. Either way the page becomes the dashboard and both
     * notices are shown. The draft itself is kept.
     */
    method SubmitPetition(today: string) returns (notices: seq<string>)
      requires Valid() && petitions.Some?
      modifies this`petitions, this`currentPage
      ensures Valid() && petitions.Some?
      ensures draft.Some? ==> petitions.value == Submitted(old(petitions.value), draft.value, today)
      ensures draft.None? ==> petitions == old(petitions)
      ensures currentPage == Some("dashboard") && Route(currentPage) == Dashboard
      ensures notices == SubmissionNotices
    {
      notices := SubmissionNotices;
      currentPage := Some("dashboard");
      RouteOfLabel(Dashboard);
      if draft.Some? {
        var appended := Submitted(petitions.value, draft.value, today);
        SubmittedKeepsIdsSequential(petitions.value, draft.value, today);
        petitions := Some(appended);
        assert Valid();
      }
    }
  }

  /** A new session after the platform's set-up, which a second set-up leaves as it is. */
  method FreshSessionScenario()
  {
    var s := new Session();
    s.InitializePlatform();
    assert s.currentPage == Some("landing") && s.userRole == Some("citizen");
    assert s.userAuthenticated == Some(false) && s.petitions == Some([]);
    assert s.reports == Some([]) && s.notifications == Some([]);
    RouteOfLabel(Landing);
    assert Route(s.currentPage) == Landing;
    s.InitializePlatform();
    assert s.currentPage == Some("landing") && s.petitions == Some([]);
  }

  /** From the landing page to the form, where a form without a title is rejected. */
  method RejectedFormScenario()
  {
    var s := new Session();
    s.InitializePlatform();
    s.GetStarted();
    s.OnboardingNext();
    s.DashboardAction(CreatePetitionButton);
    assert !ValidForm("", "Transportation", "Speed bumps needed");
    var error := s.PetitionFormSubmit("", "Transportation", "Speed bumps needed");
    assert error == Some(RequiredFieldsError);
    assert s.draft == None && s.currentPage == Some("create_petition");
    assert s.petitions == Some([]);
  }

  /** From an accepted form through the evidence step to the review summary. */
  method WizardScenario()
  {
    var s := new Session();
    s.InitializePlatform();
    assert ValidForm("Elm Street safety", "Transportation", "Speed bumps needed");
    var error := s.PetitionFormSubmit("Elm Street safety", "Transportation", "Speed bumps needed");
    assert error == None && Route(s.currentPage) == PetitionEvidence;
    s.EvidenceNext();
    var summary := s.ReviewSummary();
    assert summary.Some? && summary.value.title == "Elm Street safety";
    assert summary.value.category == "Transportation" && summary.value.description == "Speed bumps needed";
  }

  /** Submitting the stored draft: the first petition is PET-0001, submitted, with one vote. */
  method SubmitScenario(today: string)
  {
    var s := new Session();
    s.InitializePlatform();
    var error := s.PetitionFormSubmit("Elm Street safety", "Transportation", "Speed bumps needed");
    var d := s.draft.value;
    var notices := s.SubmitPetition(today);
    var first := s.petitions.value[0];
    assert first == Stamp(d, 1, today);
    FormatPetitionIdExamples();
    assert first.id == "PET-0001" && first.votes == 1 && first.status == "submitted";
    assert first.draft.title == Some("Elm Street safety") && first.submittedDate == today;
    assert s.currentPage == Some("dashboard");
  }

  /**
   * The submit handler does not clear the draft, so two submit events in a
   * row store it twice, as PET-0001 and PET-0002. (In the UI a second
   * submission first passes through the form, which overwrites the draft.)
   */
  method ResubmitScenario(today: string)
  {
    var s := new Session();
    s.InitializePlatform();
    var error := s.PetitionFormSubmit("Elm Street safety", "Transportation", "Speed bumps needed");
    var d := s.draft.value;
    var notices := s.SubmitPetition(today);
    var once := s.petitions.value;
    assert once == [Stamp(d, 1, today)];
    notices := s.SubmitPetition(today);
    assert s.petitions.value == once + [Stamp(d, 2, today)];
    FormatPetitionIdExamples();
    assert s.petitions.value[0].id == "PET-0001" && s.petitions.value[1].id == "PET-0002";
    assert s.petitions.value[1].draft == s.petitions.value[0].draft;
  }

  /**
   * The review and submit handlers taken alone, without any draft: nothing is
   * stored, the notices still appear. (In the UI the review page is reached
   * only after an accepted form has stored a draft.)
   */
  method SubmitWithoutDraft(today: string)
  {
    var s := new Session();
    s.InitializePlatform();
    s.EvidenceNext();
    assert Route(s.currentPage) == PetitionReview;
    var summary := s.ReviewSummary();
    assert summary == None;
    var notices := s.SubmitPetition(today);
    assert s.petitions == Some([]) && notices == SubmissionNotices;
    assert s.currentPage == Some("dashboard");
  }
}
