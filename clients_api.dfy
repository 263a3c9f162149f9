/** The `/api/clients` route: list, create, update and delete the signed-in
    user's clients. Every query is restricted to documents whose userId is the
    session's user; without a session every verb answers 401. */
module ClientsApi {
  import opened Common
  import opened Dates
  import opened Schemas
  import opened Store

  /** The seven fields the list answers with for each client. */
  datatype ClientSummary = ClientSummary(id: Id, name: string, email: string, phone: string,
                                         status: string, lastContact: Moment, caseCount: int)

  function Summary(c: Client): ClientSummary
  {
    ClientSummary(c.id, c.name, c.email, c.phone, c.status, c.lastContact, c.caseCount)
  }

  /** The projection of `Client.find(...).select(...)`: one summary per client,
      in the same order, carrying the client's id, name, email, phone, status,
      lastContact and caseCount (and, by its type, nothing else). */
  function Summaries(cs: seq<Client>): (r: seq<ClientSummary>)
    ensures |r| == |cs|
    ensures forall i :: 0 <= i < |cs| ==>
      r[i].id == cs[i].id && r[i].name == cs[i].name && r[i].email == cs[i].email &&
      r[i].phone == cs[i].phone && r[i].status == cs[i].status &&
      r[i].lastContact == cs[i].lastContact && r[i].caseCount == cs[i].caseCount
  {
    seq(|cs|, i requires 0 <= i < |cs| => Summary(cs[i]))
  }

  function LastContactKey(s: ClientSummary): int
  {
    s.lastContact.ms
  }

  /** The `id` a request names: missing or empty, not a well-formed identifier
      (the store's cast fails and the error propagates), or an identifier. */
  datatype IdParam = NoId | BadId | GivenId(id: Id)

  /** Why the store refused to insert a client that passed validation: a
      duplicate key on some unique index (with the index's key pattern when the
      driver reports one), or any other failure. */
  datatype InsertError = DuplicateKey(keyPattern: Option<seq<string>>) | StoreFailure

  /** The path named in the duplicate-key message: the first key of the key
      pattern, "field" when there is none, and "undefined" (what the template
      literal prints) for a key pattern without keys. */
  function DuplicateField(keyPattern: Option<seq<string>>): (f: string)
    ensures keyPattern.None? ==> f == "field"
    ensures keyPattern.Some? && |keyPattern.value| > 0 ==> f == keyPattern.value[0]
  {
    match keyPattern
    case None => "field"
    case Some(keys) => if |keys| > 0 then keys[0] else "undefined"
  }

  function InsertFailure(e: InsertError): (r: Response<Client>)
    ensures r.Message?
    ensures r.status == 400 <==> e.DuplicateKey?
    ensures !e.DuplicateKey? ==> r.status == 500
  {
    match e
    case DuplicateKey(kp) => Message(400, "A client with this " + DuplicateField(kp) + " already exists.")
    case StoreFailure => Message(500, "Failed to create client")
  }

  /** GET: the user's clients, most recently contacted first. */
  method ListClients(db: Db, session: Option<Id>) returns (r: Response<seq<ClientSummary>>)
    ensures session.None? ==> r == Message(401, "Unauthorized")
    ensures session.Some? ==> r.Ok? && r.status == 200
    ensures session.Some? ==>
      multiset(r.body) == multiset(Summaries(ClientsOf(db.clients, session.value))) &&
      SortedDesc(r.body, LastContactKey)
  {
    if session.None? {
      return Message(401, "Unauthorized");
    }
    var owned := ClientsOf(db.clients, session.value);
    r := Ok(200, SortDesc(Summaries(owned), LastContactKey));
  }

  /** POST: the body, with userId forced to the session's user, is validated
      and inserted; the answer is the new client. */
  method CreateClient(db: Db, session: Option<Id>, body: ClientFields,
                      failure: Option<InsertError>, now: Moment)
    returns (r: Response<Client>)
    requires db.Valid()
    modifies db
    ensures db.Valid()
    ensures db.users == old(db.users) && db.cases == old(db.cases)
    ensures session.None? ==> r == Message(401, "Unauthorized") && unchanged(db)
    ensures session.Some? ==>
      var built := BuildClient(old(db.nextId), body.(userId := Some(session.value)), now);
      if built.None? then r == Message(500, "Failed to create client") && unchanged(db)
      else if failure.Some? then r == InsertFailure(failure.value) && unchanged(db)
      else r == Ok(200, built.value) && db.clients == old(db.clients) + [built.value] &&
           db.nextId == old(db.nextId) + 1
    ensures r.Ok? ==> r.body.userId == session.value &&
                      ClientsOf(db.clients, session.value) ==
                      ClientsOf(old(db.clients), session.value) + [r.body]
    ensures forall o :: session.Some? && o != session.value ==>
                      ClientsOf(db.clients, o) == ClientsOf(old(db.clients), o)
  {
    if session.None? {
      return Message(401, "Unauthorized");
    }
    var uid := session.value;
    var built := BuildClient(db.nextId, body.(userId := Some(uid)), now);
    if built.None? {
      return Message(500, "Failed to create client");
    }
    if failure.Some? {
      return InsertFailure(failure.value);
    }
    var c := built.value;
    forall o {
      ClientsOfAppend(db.clients, c, o);
    }
    db.clients := db.clients + [c];
    db.nextId := db.nextId + 1;
    r := Ok(200, c);
  }

  /** The paths a PUT body may set (`id` is taken out first; paths the schema
      does not know are dropped). A path that is absent is left alone. */
  datatype ClientPatch = ClientPatch(userId: Option<Id>, name: Option<string>,
                                     email: Option<string>, phone: Option<string>,
                                     status: Option<string>, lastContact: Option<Moment>,
                                     caseCount: Option<int>)

  /** `$set` with the patch: each path the patch names takes its value, every
      other path keeps its own, and no validator runs. */
  function ApplyPatch(c: Client, p: ClientPatch): (r: Client)
    ensures r.id == c.id
    ensures r.userId == OrDefault(p.userId, c.userId) && r.name == OrDefault(p.name, c.name) &&
            r.email == OrDefault(p.email, c.email) && r.phone == OrDefault(p.phone, c.phone) &&
            r.status == OrDefault(p.status, c.status) &&
            r.lastContact == OrDefault(p.lastContact, c.lastContact) &&
            r.caseCount == OrDefault(p.caseCount, c.caseCount)
  {
    c.(userId := OrDefault(p.userId, c.userId), name := OrDefault(p.name, c.name),
       email := OrDefault(p.email, c.email), phone := OrDefault(p.phone, c.phone),
       status := OrDefault(p.status, c.status),
       lastContact := OrDefault(p.lastContact, c.lastContact),
       caseCount := OrDefault(p.caseCount, c.caseCount))
  }

  /** Applying the same patch twice is applying it once. */
  lemma ApplyPatchIdempotent(c: Client, p: ClientPatch)
    ensures ApplyPatch(ApplyPatch(c, p), p) == ApplyPatch(c, p)
  {
  }

  /** An update runs no enum validator: a PUT can store a status the schema does not list. */
  lemma UpdateCanLeaveEnum(c: Client)
    ensures ApplyPatch(c, ClientPatch(None, None, None, None, Some("Archived"), None, None)).status
            !in ClientStatuses
  {
  }

  /** An update may name userId: the client then leaves its owner's list and joins the other's. */
  lemma {:induction false} UpdateCanMoveClient(c: Client, other: Id)
    requires c.userId != other
    ensures var moved := ApplyPatch(c, ClientPatch(Some(other), None, None, None, None, None, None));
            ClientsOf([moved], other) == [moved] && ClientsOf([moved], c.userId) == []
  {
    var moved := ApplyPatch(c, ClientPatch(Some(other), None, None, None, None, None, None));
    ClientsOfAppend([], moved, other);
    ClientsOfAppend([], moved, c.userId);
    assert [moved] == [] + [moved];
  }

  /** PUT: the user's client with the given id gets the patch, and the answer is
      the updated client. */
  method UpdateClient(db: Db, session: Option<Id>, id: IdParam, patch: ClientPatch)
    returns (r: Response<Client>)
    requires db.Valid()
    modifies db
    ensures db.Valid()
    ensures db.users == old(db.users) && db.cases == old(db.cases) && db.nextId == old(db.nextId)
    ensures session.None? ==> r == Message(401, "Unauthorized") && db.clients == old(db.clients)
    ensures session.Some? && id.NoId? ==> r == Message(400, "ID required") && db.clients == old(db.clients)
    ensures session.Some? && id.BadId? ==> r == Message(500, "Update failed") && db.clients == old(db.clients)
    ensures session.Some? && id.GivenId? ==>
      match OwnedClientIndex(old(db.clients), session.value, id.id)
      case None => r == Message(404, "Client not found") && db.clients == old(db.clients)
      case Some(i) => r == Ok(200, ApplyPatch(old(db.clients)[i], patch)) &&
                      db.clients == old(db.clients)[i := r.body]
    ensures forall o :: session.Some? && patch.userId.None? && o != session.value ==>
                      ClientsOf(db.clients, o) == ClientsOf(old(db.clients), o)
  {
    if session.None? {
      return Message(401, "Unauthorized");
    }
    var uid := session.value;
    match id
    case NoId => return Message(400, "ID required");
    case BadId => return Message(500, "Update failed");
    case GivenId(k) =>
      var found := OwnedClientIndex(db.clients, uid, k);
      if found.None? {
        return Message(404, "Client not found");
      }
      var i := found.value;
      var c := ApplyPatch(db.clients[i], patch);
      if patch.userId.None? {
        forall o | o != uid {
          ClientsOfReplaceOther(db.clients, i, c, o);
        }
      }
      db.clients := db.clients[i := c];
      r := Ok(200, c);
  }

  /** What `findOneAndDelete({ _id: id, userId: uid })` leaves: the first
      matching client removed, or the table as it was. */
  function DeleteOwned(clients: seq<Client>, uid: Id, id: Id): (r: seq<Client>)
    ensures multiset(r) <= multiset(clients)
    ensures |clients| - 1 <= |r| <= |clients|
  {
    match OwnedClientIndex(clients, uid, id)
    case None => clients
    case Some(i) => RemoveAt(clients, i)
  }

  /** With distinct ids, the deleted client is gone and the user has one client fewer. */
  lemma {:induction false} DeleteOwnedRemoves(clients: seq<Client>, uid: Id, id: Id)
    requires ClientIdsDistinct(clients)
    ensures OwnedClientIndex(DeleteOwned(clients, uid, id), uid, id).None?
    ensures ClientIdsDistinct(DeleteOwned(clients, uid, id))
    ensures |ClientsOf(DeleteOwned(clients, uid, id), uid)| ==
            if OwnedClientIndex(clients, uid, id).Some? then |ClientsOf(clients, uid)| - 1
            else |ClientsOf(clients, uid)|
  {
    var found := OwnedClientIndex(clients, uid, id);
    if found.Some? {
      var i := found.value;
      var r := RemoveAt(clients, i);
      forall j | 0 <= j < |r|
        ensures r[j].id != id
      {
        if j < i {
          assert r[j] == clients[j];
        } else {
          assert r[j] == clients[j + 1];
        }
      }
      ClientsOfRemove(clients, i, uid);
    }
  }

  /** Deleting twice is deleting once: DELETE is idempotent. */
  lemma {:induction false} DeleteOwnedIdempotent(clients: seq<Client>, uid: Id, id: Id)
    requires ClientIdsDistinct(clients)
    ensures DeleteOwned(DeleteOwned(clients, uid, id), uid, id) == DeleteOwned(clients, uid, id)
  {
    DeleteOwnedRemoves(clients, uid, id);
  }

  /** Deleting leaves every other user's clients as they were. */
  lemma {:induction false} DeleteOwnedKeepsOthers(clients: seq<Client>, uid: Id, id: Id, other: Id)
    requires other != uid
    ensures ClientsOf(DeleteOwned(clients, uid, id), other) == ClientsOf(clients, other)
  {
    var found := OwnedClientIndex(clients, uid, id);
    if found.Some? {
      ClientsOfRemoveOther(clients, found.value, other);
    }
  }

  /** DELETE: the user's client with the given id is removed; the answer is the
      same whether or not there was one. */
  method DeleteClient(db: Db, session: Option<Id>, id: IdParam) returns (r: Response<()>)
    requires db.Valid()
    modifies db
    ensures db.Valid()
    ensures db.users == old(db.users) && db.cases == old(db.cases) && db.nextId == old(db.nextId)
    ensures session.None? ==> r == Message(401, "Unauthorized") && db.clients == old(db.clients)
    ensures session.Some? && id.NoId? ==> r == Message(400, "ID required") && db.clients == old(db.clients)
    ensures session.Some? && id.BadId? ==> r.status == 500 && db.clients == old(db.clients)
    ensures session.Some? && id.GivenId? ==>
      r == Message(200, "Deleted successfully") &&
      db.clients == DeleteOwned(old(db.clients), session.value, id.id)
  {
    if session.None? {
      return Message(401, "Unauthorized");
    }
    match id
    case NoId => return Message(400, "ID required");
    case BadId => return Message(500, "Internal Server Error");
    case GivenId(k) =>
      DeleteOwnedRemoves(db.clients, session.value, k);
      db.clients := DeleteOwned(db.clients, session.value, k);
      r := Message(200, "Deleted successfully");
  }
}
