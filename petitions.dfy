/**
 * The petition wizard's values: the draft that step 1 stores, the petition
 * that final submission appends, the required-field check, and the summary
 * shown on the review page.
 */
module Petitions {
  import opened Wrappers
  import opened PetitionId

  /** The first entry of the category drop-down; choosing it means "no category". */
  const CategoryPlaceholder: string := "Select a category"

  /** The category drop-down, in display order. */
  const CategoryOptions: seq<string> := [
    CategoryPlaceholder,
    "Transportation",
    "Environment",
    "Infrastructure",
    "Public Safety",
    "Education",
    "Healthcare"
  ]

  const RequiredFieldsError: string := "Please fill in all required fields"
  const SubmittedStatus: string := "submitted"
  const InitialVotes: int := 1

  /** What the review summary shows for a field the draft lacks. */
  const NotAvailable: string := "N/A"
  /** The review summary's location line, which is fixed text. */
  const PlaceholderLocation: string := "Elm Street, Springfield"
  /** How many characters of a description the review summary keeps. */
  const SummaryLimit: nat := 100
  const Ellipsis: string := "..."

  /**
   * The session's `petition_draft` dictionary. Each key may be absent, which
   * the review summary reads with a default.
   */
  datatype Draft = Draft(title: Option<string>, category: Option<string>, description: Option<string>)

  /** A stored petition: a copy of the draft plus the four keys submission adds. */
  datatype Petition = Petition(draft: Draft, id: string, status: string, votes: int, submittedDate: string)

  /**
   * Step 1's required-field check: a non-empty title, a real category, and a
   * non-empty description (Python's truthiness of a `str` is non-emptiness).
   * For a category taken from the drop-down, "real" means one of the six
   * entries after the placeholder.
   */
  predicate ValidForm(title: string, category: string, description: string)
    ensures category in CategoryOptions ==>
      (ValidForm(title, category, description) <==>
        title != "" && description != "" && category in CategoryOptions[1..])
  {
    title != "" && category != CategoryPlaceholder && description != ""
  }

  /** The draft step 1 stores: exactly the three form fields. */
  function FormDraft(title: string, category: string, description: string): Draft {
    Draft(Some(title), Some(category), Some(description))
  }

  /** When the category comes from the drop-down, an accepted form names one of the six real categories. */
  lemma AcceptedCategoryIsReal(title: string, category: string, description: string)
    requires category in CategoryOptions
    requires ValidForm(title, category, description)
    ensures category in CategoryOptions[1..]
  {
  }

  /** Submission's copy of the draft, stamped as the `number`-th petition on `today`. */
  function Stamp(d: Draft, number: nat, today: string): (p: Petition)
    ensures p.draft == d && p.id == FormatPetitionId(number) && IdNumber(p.id) == Some(number)
    ensures p.status == SubmittedStatus && p.votes == InitialVotes && p.submittedDate == today
  {
    Petition(d, FormatPetitionId(number), SubmittedStatus, InitialVotes, today)
  }

  /**
   * The petitions list after a submission with draft `d`: one petition
   * appended, numbered one past the current count; nothing earlier changes.
   */
  function Submitted(ps: seq<Petition>, d: Draft, today: string): (r: seq<Petition>)
    ensures |r| == |ps| + 1 && r[..|ps|] == ps
    ensures r[|ps|] == Stamp(d, |ps| + 1, today)
    ensures r[|ps|].draft == d && IdNumber(r[|ps|].id) == Some(|ps| + 1)
    ensures r[|ps|].status == SubmittedStatus && r[|ps|].votes == InitialVotes
    ensures r[|ps|].submittedDate == today
  {
    ps + [Stamp(d, |ps| + 1, today)]
  }

  /** The k-th stored petition (counting from 1) carries identifier number k. */
  ghost predicate IdsSequential(ps: seq<Petition>) {
    forall i :: 0 <= i < |ps| ==> ps[i].id == FormatPetitionId(i + 1)
  }

  lemma SubmittedKeepsIdsSequential(ps: seq<Petition>, d: Draft, today: string)
    requires IdsSequential(ps)
    ensures IdsSequential(Submitted(ps, d, today))
  {
    var r := Submitted(ps, d, today);
    forall i | 0 <= i < |r| ensures r[i].id == FormatPetitionId(i + 1) {
      if i < |ps| {
        assert r[i] == r[..|ps|][i];
      }
    }
  }

  /** Sequential numbering makes every stored identifier distinct and readable back as its position. */
  lemma SequentialIdsDistinct(ps: seq<Petition>)
    requires IdsSequential(ps)
    ensures forall k :: 0 <= k < |ps| ==> IdNumber(ps[k].id) == Some(k + 1)
    ensures forall i, j :: 0 <= i < |ps| && 0 <= j < |ps| && i != j ==> ps[i].id != ps[j].id
  {
  }

  /**
   * The review summary's Description line: the description itself when it has
   * at most 100 characters, otherwise its first 100 characters and "...";
   * "N/A" when the draft has no description.
   */
  function TruncateSummary(description: Option<string>): (shown: string)
    ensures description.None? ==> shown == NotAvailable
    ensures description.Some? && |description.value| <= SummaryLimit ==> shown == description.value
    ensures description.Some? && |description.value| > SummaryLimit ==>
      |shown| == SummaryLimit + |Ellipsis| && shown[..SummaryLimit] <= description.value && shown[SummaryLimit..] == Ellipsis
  {
    match description
    case None => NotAvailable
    case Some(d) =>
      if |d| > SummaryLimit then d[..SummaryLimit] + Ellipsis else d
  }

  /** The Description line never shows more than 103 characters. */
  lemma TruncateSummaryBounded(description: Option<string>)
    ensures |TruncateSummary(description)| <= SummaryLimit + |Ellipsis|
  {
  }

  /** Truncating what the summary already shows changes nothing. */
  lemma TruncateSummaryIdempotent(description: Option<string>)
    ensures TruncateSummary(Some(TruncateSummary(description))) == TruncateSummary(description)
  {
  }

  /** The lines of the review page's petition summary. */
  datatype Summary = Summary(title: string, description: string, category: string, location: string)

  function SummaryOf(d: Draft): (s: Summary)
    ensures s.title == d.title.GetOr(NotAvailable) && s.category == d.category.GetOr(NotAvailable)
    ensures s.description == TruncateSummary(d.description) && s.location == PlaceholderLocation
  {
    Summary(d.title.GetOr(NotAvailable), TruncateSummary(d.description), d.category.GetOr(NotAvailable), PlaceholderLocation)
  }

  /**
   * For a draft stored by an accepted form, the summary shows the title and
   * category as entered and the description, cut to 100 characters and "..."
   * when it is longer.
   */
  lemma SummaryOfAcceptedForm(title: string, category: string, description: string)
    requires ValidForm(title, category, description)
    ensures SummaryOf(FormDraft(title, category, description)).title == title
    ensures SummaryOf(FormDraft(title, category, description)).category == category
    ensures SummaryOf(FormDraft(title, category, description)).category != CategoryPlaceholder
    ensures SummaryOf(FormDraft(title, category, description)).description ==
      if |description| > SummaryLimit then description[..SummaryLimit] + Ellipsis else description
  {
  }
}
