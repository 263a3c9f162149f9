/** The clients page: the fetched client list and its search box, the add and
    edit modal with its form, the submit that sends an add or an update, the
    delete action and the per-row action menu. */
module ClientsPage {
  import opened Common
  import opened Schemas
  import opened ClientsApi

  datatype ClientForm = ClientForm(name: string, email: string, phone: string, status: string)

  /** The form as opened for a new client and as reset after a submit. */
  function BlankForm(): (f: ClientForm)
    ensures f.name == "" && f.email == "" && f.phone == ""
    ensures f.status == ClientStatuses[0]
  {
    ClientForm("", "", "", "Active")
  }

  /** What a submit sends: a new client with today's `YYYY-MM-DD` as its last
      contact, or the form's fields for an existing client. */
  datatype Request = AddRequest(form: ClientForm, lastContact: string) | UpdateRequest(id: Id, form: ClientForm)

  const SubmitFallback: string := "Operation failed. Please try again."
  const DeleteAlert: string := "Failed to delete client"

  // ---------------------------------------------------------------------------
  // Search
  // ---------------------------------------------------------------------------

  /** The lower-cased term occurs in the lower-cased name or email; an empty term occurs everywhere. */
  predicate MatchesSearch(c: ClientSummary, term: string)
    ensures term == "" ==> MatchesSearch(c, term)
  {
    ContainsEmpty(Lower(c.name));
    Contains(Lower(c.name), Lower(term)) || Contains(Lower(c.email), Lower(term))
  }

  /** `filteredClients`: the clients, in their order, whose name or email contains the term. */
  function FilterClients(clients: seq<ClientSummary>, term: string): (r: seq<ClientSummary>)
    ensures IsSubsequence(r, clients)
    ensures forall c :: c in r <==> c in clients && MatchesSearch(c, term)
  {
    Filter(clients, (c: ClientSummary) => MatchesSearch(c, term))
  }

  /** An empty search box lists every client. */
  lemma FilterClientsKeepsAll(clients: seq<ClientSummary>)
    ensures FilterClients(clients, "") == clients
  {
    forall i | 0 <= i < |clients|
      ensures MatchesSearch(clients[i], "")
    {
      ContainsEmpty(Lower(clients[i].name));
    }
    FilterKeepsAll(clients, (c: ClientSummary) => MatchesSearch(c, ""));
  }

  /** The search ignores the case of the term. */
  lemma SearchIgnoresCase(c: ClientSummary, term: string)
    ensures MatchesSearch(c, term) <==> MatchesSearch(c, Lower(term))
  {
    SearchTermCaseIrrelevant(c.name, term);
    SearchTermCaseIrrelevant(c.email, term);
  }

  // ---------------------------------------------------------------------------
  // Action menu
  // ---------------------------------------------------------------------------

  /** The `onClick` update of a row's action button taken on its own: it closes
      that row's open menu and otherwise opens it. */
  function Toggled(open: Option<Id>, id: Id): (r: Option<Id>)
    ensures r.None? <==> open == Some(id)
    ensures r.Some? ==> r.value == id
  {
    if open == Some(id) then None else Some(id)
  }

  /** Two clicks on the same button leave the menus as they were when none was
      open or that row's was; on another row's open menu they close every menu. */
  lemma ToggleTwice(open: Option<Id>, id: Id)
    ensures Toggled(Toggled(open, id), id) == (if open == Some(id) then Some(id) else None)
  {
  }

  /** A whole press on row `id`'s action button. The document's `mousedown`
      listener runs first: while a menu is open its ref is set, and the button
      lies outside the menu, so the menu closes. React renders that state
      before the separate `click`, whose `onClick` then toggles against no open
      menu. So a press always leaves that row's menu open, even when it was
      already open. */
  function Pressed(open: Option<Id>, id: Id): (r: Option<Id>)
    ensures r == Some(id)
    ensures open == Some(id) ==> r != Toggled(open, id)
  {
    var afterMouseDown := if open.Some? then None else open;
    Toggled(afterMouseDown, id)
  }

  class PageState {
    var clients: seq<ClientSummary>
    var loading: bool
    var searchTerm: string
    var isModalOpen: bool
    var isSubmitting: bool
    var error: string
    var editingId: Option<Id>
    var actionMenuOpenId: Option<Id>
    var formData: ClientForm

    constructor()
      ensures clients == [] && loading && searchTerm == "" && !isModalOpen && !isSubmitting
      ensures error == "" && editingId.None? && actionMenuOpenId.None? && formData == BlankForm()
    {
      clients := [];
      loading := true;
      searchTerm := "";
      isModalOpen := false;
      isSubmitting := false;
      error := "";
      editingId := None;
      actionMenuOpenId := None;
      formData := BlankForm();
    }

    /** The list as shown. */
    function Visible(): (r: seq<ClientSummary>)
      reads this
      ensures IsSubsequence(r, clients)
    {
      FilterClients(clients, searchTerm)
    }

    /** `fetchClients`: a successful fetch replaces the list, a failed one keeps it. */
    method FetchClients(fetched: Option<seq<ClientSummary>>)
      modifies this
      ensures clients == (if fetched.Some? then fetched.value else old(clients)) && !loading
      ensures searchTerm == old(searchTerm) && isModalOpen == old(isModalOpen)
      ensures isSubmitting == old(isSubmitting) && error == old(error)
      ensures editingId == old(editingId) && actionMenuOpenId == old(actionMenuOpenId)
      ensures formData == old(formData)
    {
      loading := true;
      if fetched.Some? {
        clients := fetched.value;
      }
      loading := false;
    }

    /** `openAddModal`: no client is being edited, the form is blank, the error cleared. */
    method OpenAddModal()
      modifies this
      ensures editingId.None? && formData == BlankForm() && error == "" && isModalOpen
      ensures clients == old(clients) && loading == old(loading) && searchTerm == old(searchTerm)
      ensures isSubmitting == old(isSubmitting) && actionMenuOpenId == old(actionMenuOpenId)
    {
      editingId := None;
      formData := BlankForm();
      error := "";
      isModalOpen := true;
    }

    /** `openEditModal`: the client's id is remembered, its fields fill the
        form, the error is cleared and the action menu closes. */
    method OpenEditModal(c: ClientSummary)
      modifies this
      ensures editingId == Some(c.id) && error == "" && actionMenuOpenId.None? && isModalOpen
      ensures formData == ClientForm(c.name, c.email, c.phone, c.status)
      ensures clients == old(clients) && loading == old(loading) && searchTerm == old(searchTerm)
      ensures isSubmitting == old(isSubmitting)
    {
      editingId := Some(c.id);
      formData := ClientForm(c.name, c.email, c.phone, c.status);
      error := "";
      actionMenuOpenId := None;
      isModalOpen := true;
    }

    /** `handleSubmit`: sends an update when a client is being edited and an add
        otherwise. On success the modal closes, the form is reset and the list is
        fetched again; on failure the modal stays open and shows the error's
        message, or a fallback when it has none. */
    method HandleSubmit(today: string, failure: Option<string>, fetched: Option<seq<ClientSummary>>)
      returns (sent: Request)
      modifies this
      ensures old(editingId).Some? ==> sent == UpdateRequest(old(editingId).value, old(formData))
      ensures old(editingId).None? ==> sent == AddRequest(old(formData), today)
      ensures !isSubmitting && editingId == old(editingId) && searchTerm == old(searchTerm)
      ensures actionMenuOpenId == old(actionMenuOpenId)
      ensures failure.None? ==>
                !isModalOpen && formData == BlankForm() && error == "" && !loading &&
                clients == (if fetched.Some? then fetched.value else old(clients))
      ensures failure.Some? ==>
                isModalOpen == old(isModalOpen) && formData == old(formData) &&
                clients == old(clients) && loading == old(loading) &&
                error == (if failure.value != "" then failure.value else SubmitFallback)
    {
      isSubmitting := true;
      error := "";
      if editingId.Some? {
        sent := UpdateRequest(editingId.value, formData);
      } else {
        sent := AddRequest(formData, today);
      }
      if failure.None? {
        isModalOpen := false;
        formData := BlankForm();
        FetchClients(fetched);
      } else {
        error := if failure.value != "" then failure.value else SubmitFallback;
      }
      isSubmitting := false;
    }

    /** `handleDeleteClient`: nothing happens unless the user confirms; a
        successful delete closes the menu and fetches the list again, a failed
        one raises an alert. */
    method HandleDelete(id: Id, confirmed: bool, deleted: bool, fetched: Option<seq<ClientSummary>>)
      returns (sent: Option<Id>, alert: Option<string>)
      modifies this
      ensures sent == (if confirmed then Some(id) else None)
      ensures alert == (if confirmed && !deleted then Some(DeleteAlert) else None)
      ensures searchTerm == old(searchTerm) && isModalOpen == old(isModalOpen)
      ensures isSubmitting == old(isSubmitting) && error == old(error)
      ensures editingId == old(editingId) && formData == old(formData)
      ensures if confirmed && deleted
              then actionMenuOpenId.None? && !loading &&
                   clients == (if fetched.Some? then fetched.value else old(clients))
              else actionMenuOpenId == old(actionMenuOpenId) && clients == old(clients) &&
                   loading == old(loading)
    {
      if !confirmed {
        return None, None;
      }
      sent := Some(id);
      if deleted {
        actionMenuOpenId := None;
        FetchClients(fetched);
        alert := None;
      } else {
        alert := Some(DeleteAlert);
      }
    }

    /** The action button of row `id`. */
    method ToggleMenu(id: Id)
      modifies this
      ensures actionMenuOpenId == Toggled(old(actionMenuOpenId), id)
      ensures clients == old(clients) && loading == old(loading) && searchTerm == old(searchTerm)
      ensures isModalOpen == old(isModalOpen) && isSubmitting == old(isSubmitting)
      ensures error == old(error) && editingId == old(editingId) && formData == old(formData)
    {
      actionMenuOpenId := Toggled(actionMenuOpenId, id);
    }

    /** A press on row `id`'s action button: the outside-click listener, then the button's `onClick`. */
    method PressMenuButton(id: Id)
      modifies this
      ensures actionMenuOpenId == Pressed(old(actionMenuOpenId), id) == Some(id)
      ensures clients == old(clients) && loading == old(loading) && searchTerm == old(searchTerm)
      ensures isModalOpen == old(isModalOpen) && isSubmitting == old(isSubmitting)
      ensures error == old(error) && editingId == old(editingId) && formData == old(formData)
    {
      if actionMenuOpenId.Some? {
        CloseMenu();
      }
      ToggleMenu(id);
    }

    /** A click outside the open menu closes it. */
    method CloseMenu()
      modifies this
      ensures actionMenuOpenId.None?
      ensures clients == old(clients) && loading == old(loading) && searchTerm == old(searchTerm)
      ensures isModalOpen == old(isModalOpen) && isSubmitting == old(isSubmitting)
      ensures error == old(error) && editingId == old(editingId) && formData == old(formData)
    {
      actionMenuOpenId := None;
    }
  }
}
