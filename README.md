# MAU2 petition wizard — session-state model

This project models the session-state machine underneath the MAU2 civic
engagement demo (`democracy_app_streamlit.py`): the per-browser session keys
the platform sets up on every run, the buttons that move between pages, the
three-step petition wizard (details form, evidence, review and submit), the
sequential `PET-NNNN` petition identifiers, the review page's shortened
description, and the dispatch from the `current_page` label to a page.

Each UI event is one atomic method on a `Session` object whose fields are the
session keys (`None` = key absent). The pure parts — the form check, the id
formatting, the summary truncation and the dispatch — are functions.

Files:

- `wrappers.dfy` — `Option`, with `GetOr` for Python's `dict.get(key, default)`.
- `petition_id.dfy` — decimal digits, `:04d` zero padding, `FormatPetitionId`,
  reading the number back out of an id, and injectivity.
- `petitions.dfy` — the draft and petition values, the required-field check,
  the submission append, the sequential-id invariant, and the review summary.
- `routing.dfy` — page labels, the dispatch, the dashboard's quick actions.
- `platform.dfy` — the `Session` class, one method per UI event, and six
  client scenarios (set-up, a rejected form, an accepted form through to the
  review summary, a submission, two submit events in a row, submit events
  without a draft).

Behaviour of the handlers taken alone, which the model keeps as written
(the event methods do not require the page their button is on, see
"## Left out"):

- Wizard navigation has no guards: "Next: Review & Submit" sets the review
  page with or without a stored draft, and "Submit Petition" without a draft
  stores nothing but still shows both success notices and returns to the
  dashboard. In the UI itself the evidence page is reached only after an
  accepted form has stored a draft (or back from the review page), and
  nothing removes the draft, so this branch is not reached in a normal run.
- The submit handler does not clear the draft, so two submit events in a row
  store it twice under consecutive ids (`ResubmitScenario`). In the UI the
  way back to the review page passes through the form, which overwrites the
  draft, so a second submission normally stores the newly entered one.
- The "Report an Issue", "View My Activity" and "Settings" buttons store labels
  the dispatcher does not know, so they render the dashboard again.
- Ids come from the number of petitions already stored, so they are
  sequential and distinct (`SequentialIdsDistinct`).

## Model

| member | source | states |
|---|---|---|
| `Platform.SetDefault` | democracy_app_streamlit.py:22-34 | a key is written only when absent: afterwards present, and an existing value is kept |
| `Platform.SetDefaultIdempotent` | democracy_app_streamlit.py:22-34 | writing a default twice equals writing it once |
| `Platform.Session.constructor` | democracy_app_streamlit.py:22-36 | a new browser session holds no key at all, which is the state the set-up's "not in session" tests first meet |
| `Platform.Session.InitializePlatform` | democracy_app_streamlit.py:22-34 | every platform key becomes present; absent keys get `False`, `'citizen'`, `'landing'` and empty lists; present keys, the draft and the privacy setting are untouched; the id invariant is kept |
| `Platform.Session.GetStarted` | democracy_app_streamlit.py:436-438 | the page becomes `onboarding`, which renders the onboarding page; nothing else changes |
| `Platform.Session.OnboardingNext` | democracy_app_streamlit.py:461-463 | the page becomes `dashboard`, which renders the dashboard |
| `Platform.Session.DashboardAction` | democracy_app_streamlit.py:501-512 | the page becomes the button's label; only "Create Petition" leads away from the dashboard |
| `Platform.Session.PetitionFormSubmit` | democracy_app_streamlit.py:618-628 | accepted iff title non-empty, category not the placeholder and description non-empty; then the draft is exactly the three fields and the page is `petition_evidence`; otherwise the error message is returned and draft, page and petitions are unchanged |
| `Platform.Session.CreateBack` | democracy_app_streamlit.py:632-634 | the page becomes `dashboard` |
| `Platform.Session.EvidenceBack` | democracy_app_streamlit.py:700-702 | the page becomes `create_petition`; the draft is kept |
| `Platform.Session.EvidenceNext` | democracy_app_streamlit.py:705-707 | the page becomes `petition_review` whatever the draft |
| `Platform.Session.ReviewBack` | democracy_app_streamlit.py:768-770 | the page becomes `petition_evidence` |
| `Platform.Session.SetPrivacy` | democracy_app_streamlit.py:738-744 | the privacy key holds the chosen setting; nothing else changes |
| `Platform.Session.ReviewSummary` | democracy_app_streamlit.py:749-762 | a summary exists iff a draft is stored; it shows title and category or `N/A`, the truncated description, and the fixed location "Elm Street, Springfield" |
| `Platform.Session.SubmitPetition` | democracy_app_streamlit.py:773-792 | with a draft, exactly one petition is appended (the draft, id number old count + 1, `submitted`, 1 vote, the given date) and earlier petitions are unchanged; without one, petitions are unchanged; the page becomes `dashboard`; both notices are shown; the sequential-id invariant is kept |
| `Petitions.ValidForm` | democracy_app_streamlit.py:602-619 | for a category from the drop-down, the form passes iff the title and description are non-empty and the category is one of the six entries after the placeholder |
| `Petitions.AcceptedCategoryIsReal` | democracy_app_streamlit.py:602-619 | a drop-down category that passes the check is one of the six real categories |
| `Petitions.Stamp` | democracy_app_streamlit.py:783-787 | the stored petition is the draft with id exactly `FormatPetitionId(n)` (which reads back as `n`), status `submitted`, 1 vote and the given date |
| `Petitions.Submitted` | democracy_app_streamlit.py:782-788 | the list grows by one, its old prefix is unchanged, and the new last element is the draft stamped as petition number new length (id `FormatPetitionId` of the new length, `submitted`, 1 vote, the date) |
| `Petitions.SubmittedKeepsIdsSequential` | democracy_app_streamlit.py:784-788 | if the k-th petition carries id number k before a submission, that holds after it too |
| `Petitions.SequentialIdsDistinct` | democracy_app_streamlit.py:784-788 | under that invariant the k-th petition's id reads back as k and all stored ids are distinct |
| `Petitions.TruncateSummary` | democracy_app_streamlit.py:756 | `N/A` for a missing description; a description of at most 100 characters unchanged; a longer one becomes its first 100 characters followed by `...` |
| `Petitions.TruncateSummaryBounded` | democracy_app_streamlit.py:756 | what the Description line shows is at most 103 characters |
| `Petitions.TruncateSummaryIdempotent` | democracy_app_streamlit.py:756 | shortening an already shortened description changes nothing |
| `Petitions.SummaryOf` | democracy_app_streamlit.py:754-759 | Title and Category show the draft's value or `N/A`, Description the truncation, Location the fixed placeholder |
| `Petitions.SummaryOfAcceptedForm` | democracy_app_streamlit.py:619-624 | for a draft stored by an accepted form the summary shows the entered title and category (never the placeholder), and the entered description, cut to its first 100 characters plus `...` when longer |
| `PetitionId.Decimal` | democracy_app_streamlit.py:784 | Python's `str(n)`: at least one digit, no leading zero, denotes `n` |
| `PetitionId.ZeroPad4` | democracy_app_streamlit.py:784 | `:04d`: at least four digits denoting `n`, a leading zero only where padding was needed, exactly four digits iff `n < 10000` |
| `PetitionId.FormatPetitionId` | democracy_app_streamlit.py:784 | `PET-` followed by digits that read back as `n`; eight characters iff `n < 10000`; a longer id has no leading zero after `PET-` (so the digits are exactly `:04d` of `n`) |
| `PetitionId.FormatPetitionIdInjective` | democracy_app_streamlit.py:784 | different sequence numbers give different ids |
| `PetitionId.FormatPetitionIdExamples` | democracy_app_streamlit.py:784 | 1 → `PET-0001`, 2 → `PET-0002`, 42 → `PET-0042`, 12345 → `PET-12345` |
| `Routing.Route` | democracy_app_streamlit.py:795-811 | a missing label renders the landing page, each of the six known labels its own page, any other label the dashboard |
| `Routing.RouteOfLabel` | democracy_app_streamlit.py:798-809 | each page's own label renders that page |
| `Routing.RouteToDashboard` | democracy_app_streamlit.py:802-811 | the dashboard is rendered iff the label is `dashboard` or unknown |
| `Routing.ButtonDestination` | democracy_app_streamlit.py:501-512 | of the four quick actions only "Create Petition" reaches a page other than the dashboard |

## Left out

- Page markup, CSS, the header, the static landing and dashboard cards and their hard-coded profile counts: presentation only.
- The evidence file uploader, the auto-snap checkboxes and the location text input of step 2: their values are never stored in the session.
- The incognito checkbox of step 3: its value is never stored. The privacy setting is stored by `SetPrivacy` but never attached to a petition.
- `time.sleep`, the spinner and `st.rerun`: timing and framework control flow; each handler is one atomic event.
- The submission date: the clock is replaced by the `today` parameter, an opaque string standing for `YYYY-MM-DD`.
- The `user_name` key read by the header with a default: presentation only.
- Reports and notifications: this file only creates the empty lists, so their entries are modelled as strings.
- A button's handler can only fire while its page is rendered; the event methods do not require the current page, so the model also covers event orders the UI cannot produce.
- `PetitionId.ZeroPad4`: only non-negative numbers are modelled; Python's `:04d` of a negative number is never reached, since the number is a count plus one.
- The plotly, pandas and option-menu imports: unused or foreign libraries.
- Petition votes, responses, reports routing and language-model categorisation: not present in this file.
