/** The cases page: the fetched case list, the search box and status filter
    that narrow it, the colour classes of priorities and statuses, and the
    new-case form with its guard and its reset after a successful add. */
module CasesPage {
  import opened Common
  import opened Schemas
  import opened CasesApi

  /** The new-case form; `startDate` is the `YYYY-MM-DD` text of the date input. */
  datatype CaseForm = CaseForm(title: string, clientName: string, status: string,
                               caseType: string, priority: string, startDate: string,
                               nextHearing: Option<string>, value: int)

  /** The form as first shown and as reset: today's date, the schema's default enums, value 0. */
  function EmptyForm(today: string): (f: CaseForm)
    ensures f.title == "" && f.clientName == "" && f.nextHearing.None? && f.value == 0
    ensures f.status == CaseStatuses[0] && f.caseType == CaseTypes[0] && f.priority == Priorities[1]
    ensures f.startDate == today
  {
    CaseForm("", "", "Open", "Civil", "Medium", today, None, 0)
  }

  // ---------------------------------------------------------------------------
  // Search and status filter
  // ---------------------------------------------------------------------------

  /** The lower-cased term occurs in the lower-cased title, case number or client name. */
  predicate MatchesSearch(c: CaseSummary, term: string)
    ensures term == "" ==> MatchesSearch(c, term)
  {
    ContainsEmpty(Lower(c.title));
    Contains(Lower(c.title), Lower(term)) ||
    Contains(Lower(c.caseNumber), Lower(term)) ||
    Contains(Lower(c.clientName), Lower(term))
  }

  predicate MatchesStatus(c: CaseSummary, statusFilter: string)
  {
    statusFilter == "All" || c.status == statusFilter
  }

  predicate Shown(c: CaseSummary, term: string, statusFilter: string)
  {
    MatchesSearch(c, term) && MatchesStatus(c, statusFilter)
  }

  /** `filteredCases`: the cases, in their order, that match both the search and the filter. */
  function FilterCases(cases: seq<CaseSummary>, term: string, statusFilter: string): (r: seq<CaseSummary>)
    ensures IsSubsequence(r, cases)
    ensures forall c :: c in r <==> c in cases && Shown(c, term, statusFilter)
  {
    Filter(cases, (c: CaseSummary) => Shown(c, term, statusFilter))
  }

  /** With an empty search box and the filter on All, every case is listed. */
  lemma FilterCasesKeepsAll(cases: seq<CaseSummary>)
    ensures FilterCases(cases, "", "All") == cases
  {
    forall i | 0 <= i < |cases|
      ensures Shown(cases[i], "", "All")
    {
      ContainsEmpty(Lower(cases[i].title));
    }
    FilterKeepsAll(cases, (c: CaseSummary) => Shown(c, "", "All"));
  }

  /** With a specific status chosen, only cases of that status are listed. */
  lemma FilterCasesByStatus(cases: seq<CaseSummary>, term: string, statusFilter: string)
    requires statusFilter != "All"
    ensures forall c :: c in FilterCases(cases, term, statusFilter) ==> c.status == statusFilter
  {
  }

  /** The search ignores the case of the term. */
  lemma SearchIgnoresCase(c: CaseSummary, term: string)
    ensures MatchesSearch(c, term) <==> MatchesSearch(c, Lower(term))
  {
    SearchTermCaseIrrelevant(c.title, term);
    SearchTermCaseIrrelevant(c.caseNumber, term);
    SearchTermCaseIrrelevant(c.clientName, term);
  }

  // ---------------------------------------------------------------------------
  // Colours
  // ---------------------------------------------------------------------------

  const PriorityDefault: string := "text-slate-600 bg-slate-50"
  const StatusDefault: string := "bg-slate-100 text-slate-800"

  /** `getPriorityColor`: anything outside the schema's priorities gets the slate default, and only that. */
  function PriorityColor(priority: string): (r: string)
    ensures r == PriorityDefault <==> priority !in Priorities
  {
    match priority
    case "High" => "text-red-600 bg-red-50 border-red-100"
    case "Medium" => "text-orange-600 bg-orange-50 border-orange-100"
    case "Low" => "text-green-600 bg-green-50 border-green-100"
    case _ => PriorityDefault
  }

  /** `getStatusColor`: Closed shares the slate default with every value outside the schema's statuses. */
  function StatusColor(status: string): (r: string)
    ensures r == StatusDefault <==> status !in CaseStatuses || status == "Closed"
  {
    match status
    case "Open" => "bg-blue-100 text-blue-800"
    case "In Progress" => "bg-purple-100 text-purple-800"
    case "Closed" => "bg-slate-100 text-slate-800"
    case "On Hold" => "bg-orange-100 text-orange-800"
    case _ => StatusDefault
  }

  /** Each priority of the schema has a colour of its own. */
  lemma PriorityColorsDistinct(p: string, q: string)
    requires p in Priorities && q in Priorities
    ensures PriorityColor(p) == PriorityColor(q) <==> p == q
  {
    assert p == "High" || p == "Medium" || p == "Low";
    assert q == "High" || q == "Medium" || q == "Low";
  }

  /** Open, In Progress and On Hold have colours of their own. */
  lemma StatusColorsDistinct(s: string, t: string)
    requires s in CaseStatuses && t in CaseStatuses && s != "Closed" && t != "Closed"
    ensures StatusColor(s) == StatusColor(t) <==> s == t
  {
    assert s == "Open" || s == "In Progress" || s == "On Hold";
    assert t == "Open" || t == "In Progress" || t == "On Hold";
  }

  // ---------------------------------------------------------------------------
  // Page state
  // ---------------------------------------------------------------------------

  class PageState {
    var cases: seq<CaseSummary>
    var loading: bool
    var searchTerm: string
    var statusFilter: string
    var isModalOpen: bool
    var newCase: CaseForm

    constructor(today: string)
      ensures cases == [] && loading && searchTerm == "" && statusFilter == "All"
      ensures !isModalOpen && newCase == EmptyForm(today)
    {
      cases := [];
      loading := true;
      searchTerm := "";
      statusFilter := "All";
      isModalOpen := false;
      newCase := EmptyForm(today);
    }

    /** The list as shown. */
    function Visible(): (r: seq<CaseSummary>)
      reads this
      ensures IsSubsequence(r, cases)
    {
      FilterCases(cases, searchTerm, statusFilter)
    }

    /** `fetchCases`: a successful fetch replaces the list, a failed one keeps
        it; the spinner ends off either way. */
    method FetchCases(fetched: Option<seq<CaseSummary>>)
      modifies this
      ensures cases == (if fetched.Some? then fetched.value else old(cases)) && !loading
      ensures searchTerm == old(searchTerm) && statusFilter == old(statusFilter)
      ensures isModalOpen == old(isModalOpen) && newCase == old(newCase)
    {
      loading := true;
      if fetched.Some? {
        cases := fetched.value;
      }
      loading := false;
    }

    /** `handleAddCase`: a form without a title or a client name is not sent.
        Otherwise the form is sent; when the add succeeds the modal closes, the
        form is reset and the list is fetched again, and when it fails nothing changes. */
    method HandleAddCase(addSucceeded: bool, today: string, fetched: Option<seq<CaseSummary>>)
      returns (sent: Option<CaseForm>)
      modifies this
      ensures sent.None? <==> old(newCase.title) == "" || old(newCase.clientName) == ""
      ensures sent.Some? ==> sent.value == old(newCase)
      ensures searchTerm == old(searchTerm) && statusFilter == old(statusFilter)
      ensures if sent.Some? && addSucceeded
              then !isModalOpen && newCase == EmptyForm(today) && !loading &&
                   cases == (if fetched.Some? then fetched.value else old(cases))
              else isModalOpen == old(isModalOpen) && newCase == old(newCase) &&
                   cases == old(cases) && loading == old(loading)
    {
      if newCase.title == "" || newCase.clientName == "" {
        return None;
      }
      sent := Some(newCase);
      if addSucceeded {
        isModalOpen := false;
        newCase := EmptyForm(today);
        FetchCases(fetched);
      }
    }
  }
}
