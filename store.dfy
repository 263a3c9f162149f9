/** The document store the route handlers share: one table per collection the
    routes touch, kept in insertion order, which is the order in which `find`
    and `findOne` visit documents here. Fresh identifiers come from a counter. */
module Store {
  import opened Common
  import opened Schemas

  predicate UserIdsDistinct(users: seq<User>)
  {
    forall i, j :: 0 <= i < j < |users| ==> users[i].id != users[j].id
  }

  /** The unique index on the users' email path. */
  predicate EmailsUnique(users: seq<User>)
  {
    forall i, j :: 0 <= i < j < |users| ==> users[i].email != users[j].email
  }

  predicate ClientIdsDistinct(clients: seq<Client>)
  {
    forall i, j :: 0 <= i < j < |clients| ==> clients[i].id != clients[j].id
  }

  predicate CaseIdsDistinct(cases: seq<Case>)
  {
    forall i, j :: 0 <= i < j < |cases| ==> cases[i].id != cases[j].id
  }

  /** Every stored identifier is below the counter, identifiers are distinct
      within each table and no two users share an email. */
  ghost predicate TablesValid(users: seq<User>, clients: seq<Client>, cases: seq<Case>, nextId: Id)
  {
    (forall i :: 0 <= i < |users| ==> users[i].id < nextId) &&
    (forall i :: 0 <= i < |clients| ==> clients[i].id < nextId) &&
    (forall i :: 0 <= i < |cases| ==> cases[i].id < nextId) &&
    UserIdsDistinct(users) && EmailsUnique(users) &&
    ClientIdsDistinct(clients) && CaseIdsDistinct(cases)
  }

  class Db {
    var users: seq<User>
    var clients: seq<Client>
    var cases: seq<Case>
    /** The next identifier to hand out; every stored identifier is below it. */
    var nextId: Id

    ghost predicate Valid()
      reads this
    {
      TablesValid(users, clients, cases, nextId)
    }

    constructor ()
      ensures Valid()
      ensures users == [] && clients == [] && cases == [] && nextId == 0
    {
      users, clients, cases, nextId := [], [], [], 0;
    }
  }

  predicate OwnedBy(uid: Id, c: Client)
  {
    c.userId == uid
  }

  predicate CaseOwnedBy(uid: Id, c: Case)
  {
    c.userId == uid
  }

  /** `Client.find({ userId })`, in table order. */
  function ClientsOf(clients: seq<Client>, uid: Id): (r: seq<Client>)
    ensures forall i :: 0 <= i < |r| ==> r[i] in clients && r[i].userId == uid
    ensures forall i :: 0 <= i < |clients| && clients[i].userId == uid ==> clients[i] in r
  {
    Filter(clients, (c: Client) => OwnedBy(uid, c))
  }

  /** `Case.find({ userId })`, in table order. */
  function CasesOf(cases: seq<Case>, uid: Id): (r: seq<Case>)
    ensures forall i :: 0 <= i < |r| ==> r[i] in cases && r[i].userId == uid
    ensures forall i :: 0 <= i < |cases| && cases[i].userId == uid ==> cases[i] in r
  {
    Filter(cases, (c: Case) => CaseOwnedBy(uid, c))
  }

  /** `User.findById(uid)`. */
  function UserIndex(users: seq<User>, uid: Id): (r: Option<nat>)
    ensures r.Some? ==> r.value < |users| && users[r.value].id == uid
    ensures r.None? <==> forall j :: 0 <= j < |users| ==> users[j].id != uid
  {
    FirstIndex(users, (u: User) => u.id == uid)
  }

  /** `User.findOne({ email })`. */
  function EmailIndex(users: seq<User>, email: string): (r: Option<nat>)
    ensures r.Some? ==> r.value < |users| && users[r.value].email == email
    ensures r.None? <==> forall j :: 0 <= j < |users| ==> users[j].email != email
  {
    FirstIndex(users, (u: User) => u.email == email)
  }

  /** `findOne({ _id: id, userId: uid })` on the clients. */
  function OwnedClientIndex(clients: seq<Client>, uid: Id, id: Id): (r: Option<nat>)
    ensures r.Some? ==> r.value < |clients| && clients[r.value].id == id &&
                        clients[r.value].userId == uid
    ensures r.None? <==> forall j :: 0 <= j < |clients| ==>
                           !(clients[j].id == id && clients[j].userId == uid)
  {
    FirstIndex(clients, (c: Client) => c.id == id && c.userId == uid)
  }

  /** `findOne({ name, userId: uid })` on the clients: the first of the user's clients with that name. */
  function NamedClientIndex(clients: seq<Client>, uid: Id, name: string): (r: Option<nat>)
    ensures r.Some? ==> r.value < |clients| && clients[r.value].name == name &&
                        clients[r.value].userId == uid
    ensures r.Some? ==> forall j :: 0 <= j < r.value ==>
                          !(clients[j].name == name && clients[j].userId == uid)
    ensures r.None? <==> forall j :: 0 <= j < |clients| ==>
                           !(clients[j].name == name && clients[j].userId == uid)
  {
    FirstIndex(clients, (c: Client) => c.name == name && c.userId == uid)
  }

  /** A table rewritten row by row without touching identifiers keeps them distinct and bounded. */
  lemma SameClientIds(a: seq<Client>, b: seq<Client>, bound: Id)
    requires |a| == |b| && forall j :: 0 <= j < |a| ==> b[j].id == a[j].id
    requires ClientIdsDistinct(a) && forall j :: 0 <= j < |a| ==> a[j].id < bound
    ensures ClientIdsDistinct(b) && forall j :: 0 <= j < |b| ==> b[j].id < bound
  {
    forall i, j | 0 <= i < j < |b|
      ensures b[i].id != b[j].id
    {
      assert a[i].id != a[j].id;
    }
  }

  /** A case inserted under the next identifier, with the clients rewritten
      without touching their identifiers, keeps the tables valid. */
  lemma InsertCaseValid(users: seq<User>, clients: seq<Client>, clients': seq<Client>,
                        cases: seq<Case>, c: Case, nextId: Id)
    requires TablesValid(users, clients, cases, nextId)
    requires |clients'| == |clients| && forall j :: 0 <= j < |clients| ==> clients'[j].id == clients[j].id
    requires c.id == nextId
    ensures TablesValid(users, clients', cases + [c], nextId + 1)
  {
    SameClientIds(clients, clients', nextId);
    var r := cases + [c];
    forall i, j | 0 <= i < j < |r|
      ensures r[i].id != r[j].id
    {
      assert r[i] == cases[i];
    }
    forall i | 0 <= i < |r|
      ensures r[i].id < nextId + 1
    {
      if i < |cases| {
        assert r[i] == cases[i];
      }
    }
  }

  /** A row appended for one user shows up at the end of that user's list and in no other list. */
  lemma {:induction false} ClientsOfAppend(clients: seq<Client>, c: Client, uid: Id)
    ensures ClientsOf(clients + [c], uid) ==
            if c.userId == uid then ClientsOf(clients, uid) + [c] else ClientsOf(clients, uid)
  {
    var p := (x: Client) => OwnedBy(uid, x);
    FilterAppend(clients, [c], p);
    if c.userId == uid {
      assert Filter([c], p) == [c] + Filter([], p);
    } else {
      FilterRejectedSingleton(c, p);
    }
  }

  lemma {:induction false} CasesOfAppend(cases: seq<Case>, c: Case, uid: Id)
    ensures CasesOf(cases + [c], uid) ==
            if c.userId == uid then CasesOf(cases, uid) + [c] else CasesOf(cases, uid)
  {
    var p := (x: Case) => CaseOwnedBy(uid, x);
    FilterAppend(cases, [c], p);
    if c.userId == uid {
      assert Filter([c], p) == [c] + Filter([], p);
    } else {
      FilterRejectedSingleton(c, p);
    }
  }

  /** Removing a row that belongs to someone else leaves a user's list as it was. */
  lemma {:induction false} ClientsOfRemoveOther(clients: seq<Client>, i: nat, uid: Id)
    requires i < |clients| && clients[i].userId != uid
    ensures ClientsOf(RemoveAt(clients, i), uid) == ClientsOf(clients, uid)
  {
    FilterRemoveRejected(clients, i, (x: Client) => OwnedBy(uid, x));
  }

  /** Replacing someone else's row by another of theirs leaves a user's list as it was. */
  lemma {:induction false} ClientsOfReplaceOther(clients: seq<Client>, i: nat, c: Client, uid: Id)
    requires i < |clients| && clients[i].userId != uid && c.userId != uid
    ensures ClientsOf(clients[i := c], uid) == ClientsOf(clients, uid)
  {
    FilterReplaceRejected(clients, i, c, (x: Client) => OwnedBy(uid, x));
  }

  lemma {:induction false} ClientsOfRemove(clients: seq<Client>, i: nat, uid: Id)
    requires i < |clients|
    ensures |ClientsOf(RemoveAt(clients, i), uid)| ==
            if clients[i].userId == uid then |ClientsOf(clients, uid)| - 1
            else |ClientsOf(clients, uid)|
  {
    var p := (x: Client) => OwnedBy(uid, x);
    var a, b := clients[..i], clients[i + 1..];
    assert clients == (a + [clients[i]]) + b;
    assert RemoveAt(clients, i) == a + b;
    FilterAppend(a + [clients[i]], b, p);
    FilterAppend(a, [clients[i]], p);
    FilterAppend(a, b, p);
    if clients[i].userId == uid {
      assert Filter([clients[i]], p) == [clients[i]] + Filter([], p);
    } else {
      FilterRejectedSingleton(clients[i], p);
    }
  }
}
