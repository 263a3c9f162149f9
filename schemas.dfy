/** The five record kinds of the document store and what the store does when a
    record is created from a document: String paths marked required must be
    present and non-empty, enum paths must hold one of their listed values, and
    absent paths with a default take it. Enum-valued fields are kept as strings,
    as stored: updates through `$set` do not run these validators, so a stored
    value may lie outside its enum (see ClientsApi.UpdateCanLeaveEnum). */
module Schemas {
  import opened Common
  import opened Dates
  import opened Bcrypt

  /** A record identifier (the store's ObjectId). */
  type Id = nat

  const Roles: seq<string> := ["admin", "lawyer", "staff"]
  const ClientStatuses: seq<string> := ["Active", "Inactive", "Lead"]
  const CaseStatuses: seq<string> := ["Open", "Closed", "In Progress", "On Hold"]
  const CaseTypes: seq<string> := ["Civil", "Criminal", "Corporate", "Family", "Other"]
  const Priorities: seq<string> := ["High", "Medium", "Low"]
  const DocumentTypes: seq<string> := ["UPLOAD", "INVOICE"]

  datatype User = User(id: Id, name: string, email: string, password: Digest,
                       role: string, createdAt: Moment)

  datatype Client = Client(id: Id, userId: Id, name: string, email: string, phone: string,
                           status: string, lastContact: Moment, caseCount: int)

  datatype CaseNote = CaseNote(id: Id, caseId: Id, content: string, createdBy: string,
                               createdAt: Moment)

  datatype CaseDocument = CaseDocument(id: Id, caseId: Id, name: string, docType: string,
                                       size: string, url: Option<string>,
                                       publicId: Option<string>, createdBy: string,
                                       createdAt: Moment)

  datatype Case = Case(id: Id, userId: Id, clientId: Option<Id>, caseNumber: string,
                       title: string, clientName: string, status: string, caseType: string,
                       startDate: Moment, priority: string, nextHearing: Option<Moment>,
                       value: int)

  /** A document handed to `create`: every path may be absent. */
  datatype UserFields = UserFields(name: Option<string>, email: Option<string>,
                                   password: Option<Digest>, role: Option<string>)

  datatype ClientFields = ClientFields(userId: Option<Id>, name: Option<string>,
                                       email: Option<string>, phone: Option<string>,
                                       status: Option<string>, lastContact: Option<Moment>,
                                       caseCount: Option<int>)

  datatype NoteFields = NoteFields(caseId: Option<Id>, content: Option<string>,
                                   createdBy: Option<string>)

  datatype DocumentFields = DocumentFields(caseId: Option<Id>, name: Option<string>,
                                           docType: Option<string>, size: Option<string>,
                                           url: Option<string>, publicId: Option<string>,
                                           createdBy: Option<string>)

  datatype CaseFields = CaseFields(userId: Option<Id>, clientId: Option<Id>,
                                   caseNumber: Option<string>, title: Option<string>,
                                   clientName: Option<string>, status: Option<string>,
                                   caseType: Option<string>, startDate: Option<Moment>,
                                   priority: Option<string>, nextHearing: Option<Moment>,
                                   value: Option<int>)

  /** The required validator of a String path: present and not the empty string. */
  predicate Supplied(s: Option<string>)
  {
    s.Some? && s.value != ""
  }

  /** The enum validator: an absent path passes (its default applies), a present one must be listed. */
  predicate InEnum(s: Option<string>, values: seq<string>)
  {
    s.None? || s.value in values
  }

  function OrDefault<T>(o: Option<T>, default: T): T
  {
    if o.Some? then o.value else default
  }

  /** User creation: name, email and password required; role one of admin, lawyer,
      staff, by default lawyer; createdAt defaults to now. */
  function BuildUser(id: Id, f: UserFields, now: Moment): (r: Option<User>)
    ensures r.Some? <==> Supplied(f.name) && Supplied(f.email) && f.password.Some? && InEnum(f.role, Roles)
    ensures r.Some? ==> r.value.id == id && r.value.name == f.name.value &&
                        r.value.email == f.email.value && r.value.password == f.password.value &&
                        r.value.createdAt == now
    ensures r.Some? ==> r.value.role in Roles && (f.role.None? ==> r.value.role == "lawyer") &&
                        (f.role.Some? ==> r.value.role == f.role.value)
  {
    if Supplied(f.name) && Supplied(f.email) && f.password.Some? && InEnum(f.role, Roles) then
      Some(User(id, f.name.value, f.email.value, f.password.value, OrDefault(f.role, "lawyer"), now))
    else None
  }

  /** Client creation: userId, name, email and phone required; status one of
      Active, Inactive, Lead, by default Active; lastContact defaults to now and
      caseCount to 0. */
  function BuildClient(id: Id, f: ClientFields, now: Moment): (r: Option<Client>)
    ensures r.Some? <==> f.userId.Some? && Supplied(f.name) && Supplied(f.email) &&
                         Supplied(f.phone) && InEnum(f.status, ClientStatuses)
    ensures r.Some? ==> r.value.id == id && r.value.userId == f.userId.value &&
                        r.value.name == f.name.value && r.value.email == f.email.value &&
                        r.value.phone == f.phone.value
    ensures r.Some? ==> r.value.status in ClientStatuses &&
                        (f.status.None? ==> r.value.status == "Active") &&
                        (f.status.Some? ==> r.value.status == f.status.value)
    ensures r.Some? ==> r.value.lastContact == OrDefault(f.lastContact, now) &&
                        r.value.caseCount == OrDefault(f.caseCount, 0)
  {
    if f.userId.Some? && Supplied(f.name) && Supplied(f.email) && Supplied(f.phone) &&
       InEnum(f.status, ClientStatuses)
    then
      Some(Client(id, f.userId.value, f.name.value, f.email.value, f.phone.value,
                  OrDefault(f.status, "Active"), OrDefault(f.lastContact, now),
                  OrDefault(f.caseCount, 0)))
    else None
  }

  /** Note creation: caseId, content and createdBy required; createdAt defaults to now. */
  function BuildNote(id: Id, f: NoteFields, now: Moment): (r: Option<CaseNote>)
    ensures r.Some? <==> f.caseId.Some? && Supplied(f.content) && Supplied(f.createdBy)
    ensures r.Some? ==> r.value == CaseNote(id, f.caseId.value, f.content.value,
                                            f.createdBy.value, now)
  {
    if f.caseId.Some? && Supplied(f.content) && Supplied(f.createdBy) then
      Some(CaseNote(id, f.caseId.value, f.content.value, f.createdBy.value, now))
    else None
  }

  /** Document creation: caseId, name, size and createdBy required; type one of
      UPLOAD, INVOICE, by default UPLOAD; url and publicId optional. */
  function BuildDocument(id: Id, f: DocumentFields, now: Moment): (r: Option<CaseDocument>)
    ensures r.Some? <==> f.caseId.Some? && Supplied(f.name) && Supplied(f.size) &&
                         Supplied(f.createdBy) && InEnum(f.docType, DocumentTypes)
    ensures r.Some? ==> r.value.docType in DocumentTypes &&
                        (f.docType.None? ==> r.value.docType == "UPLOAD") &&
                        (f.docType.Some? ==> r.value.docType == f.docType.value)
    ensures r.Some? ==> r.value.id == id && r.value.caseId == f.caseId.value &&
                        r.value.name == f.name.value && r.value.createdAt == now
    ensures r.Some? ==> r.value.url == f.url && r.value.publicId == f.publicId &&
                        r.value.size == f.size.value && r.value.createdBy == f.createdBy.value
  {
    if f.caseId.Some? && Supplied(f.name) && Supplied(f.size) && Supplied(f.createdBy) &&
       InEnum(f.docType, DocumentTypes)
    then
      Some(CaseDocument(id, f.caseId.value, f.name.value, OrDefault(f.docType, "UPLOAD"),
                        f.size.value, f.url, f.publicId, f.createdBy.value, now))
    else None
  }

  /** Case creation: userId, caseNumber, title and clientName required, clientId
      and nextHearing optional; status, type and priority from their enums with
      defaults Open, Civil and Medium; startDate defaults to now and value to 0. */
  function BuildCase(id: Id, f: CaseFields, now: Moment): (r: Option<Case>)
    ensures r.Some? <==> f.userId.Some? && Supplied(f.caseNumber) && Supplied(f.title) &&
                         Supplied(f.clientName) && InEnum(f.status, CaseStatuses) &&
                         InEnum(f.caseType, CaseTypes) && InEnum(f.priority, Priorities)
    ensures r.Some? ==> r.value.id == id && r.value.userId == f.userId.value &&
                        r.value.caseNumber == f.caseNumber.value &&
                        r.value.title == f.title.value && r.value.clientName == f.clientName.value &&
                        r.value.clientId == f.clientId && r.value.nextHearing == f.nextHearing
    ensures r.Some? ==> r.value.status in CaseStatuses && r.value.caseType in CaseTypes &&
                        r.value.priority in Priorities
    ensures r.Some? ==> (f.status.None? ==> r.value.status == "Open") &&
                        (f.caseType.None? ==> r.value.caseType == "Civil") &&
                        (f.priority.None? ==> r.value.priority == "Medium")
    ensures r.Some? ==> (f.status.Some? ==> r.value.status == f.status.value) &&
                        (f.caseType.Some? ==> r.value.caseType == f.caseType.value) &&
                        (f.priority.Some? ==> r.value.priority == f.priority.value) &&
                        r.value.startDate == OrDefault(f.startDate, now) &&
                        r.value.value == OrDefault(f.value, 0)
  {
    if f.userId.Some? && Supplied(f.caseNumber) && Supplied(f.title) && Supplied(f.clientName) &&
       InEnum(f.status, CaseStatuses) && InEnum(f.caseType, CaseTypes) &&
       InEnum(f.priority, Priorities)
    then
      Some(Case(id, f.userId.value, f.clientId, f.caseNumber.value, f.title.value,
                f.clientName.value, OrDefault(f.status, "Open"), OrDefault(f.caseType, "Civil"),
                OrDefault(f.startDate, now), OrDefault(f.priority, "Medium"), f.nextHearing,
                OrDefault(f.value, 0)))
    else None
  }
}
