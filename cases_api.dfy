/** The `/api/cases` route: list the signed-in user's cases, newest start date
    first, and open a new case. Opening a case gives it a number
    "CS-<year>-<three digits>" from the current year and a random draw, and
    bumps the case count of the user's first client whose name is the case's
    client name. */
module CasesApi {
  import opened Common
  import opened Dates
  import opened Schemas
  import opened Store

  /** The ten fields the list answers with for each case. */
  datatype CaseSummary = CaseSummary(id: Id, caseNumber: string, title: string,
                                     clientName: string, status: string, caseType: string,
                                     startDate: Moment, priority: string,
                                     nextHearing: Option<Moment>, value: int)

  function Summary(c: Case): CaseSummary
  {
    CaseSummary(c.id, c.caseNumber, c.title, c.clientName, c.status, c.caseType, c.startDate,
                c.priority, c.nextHearing, c.value)
  }

  /** The projection of `Case.find(...).select(...)`: one summary per case, in
      the same order, carrying the ten listed fields of the case (and, by its
      type, neither the owner nor any note or document). */
  function Summaries(cs: seq<Case>): (r: seq<CaseSummary>)
    ensures |r| == |cs|
    ensures forall i :: 0 <= i < |cs| ==>
      r[i].id == cs[i].id && r[i].caseNumber == cs[i].caseNumber &&
      r[i].title == cs[i].title && r[i].clientName == cs[i].clientName &&
      r[i].status == cs[i].status && r[i].caseType == cs[i].caseType &&
      r[i].startDate == cs[i].startDate && r[i].priority == cs[i].priority &&
      r[i].nextHearing == cs[i].nextHearing && r[i].value == cs[i].value
  {
    seq(|cs|, i requires 0 <= i < |cs| => Summary(cs[i]))
  }

  function StartKey(s: CaseSummary): int
  {
    s.startDate.ms
  }

  /** GET: the user's cases, latest start date first. */
  method ListCases(db: Db, session: Option<Id>) returns (r: Response<seq<CaseSummary>>)
    ensures session.None? ==> r == Message(401, "Unauthorized")
    ensures session.Some? ==> r.Ok? && r.status == 200
    ensures session.Some? ==>
      multiset(r.body) == multiset(Summaries(CasesOf(db.cases, session.value))) &&
      SortedDesc(r.body, StartKey)
  {
    if session.None? {
      return Message(401, "Unauthorized");
    }
    r := Ok(200, SortDesc(Summaries(CasesOf(db.cases, session.value)), StartKey));
  }

  // ---------------------------------------------------------------------------
  // Case numbers
  // ---------------------------------------------------------------------------

  lemma {:induction false} DecimalBelowThousand(n: nat)
    requires n < 1000
    ensures |Decimal(n)| <= 3
  {
    if n >= 10 {
      assert Decimal(n) == Decimal(n / 10) + [DigitChar(n % 10)];
      if n / 10 >= 10 {
        assert Decimal(n / 10) == Decimal(n / 100) + [DigitChar((n / 10) % 10)];
      }
    }
  }

  /** The draw `Math.floor(Math.random() * 1000)` written with three digits. */
  function DrawDigits(draw: nat): (s: string)
    requires draw < 1000
    ensures |s| == 3 && AllDigits(s) && DecimalValue(s) == draw
  {
    DecimalBelowThousand(draw);
    PadZerosValue(Decimal(draw), 3);
    DecimalRoundTrip(draw);
    PadZeros(Decimal(draw), 3)
  }

  /** `CS-${year}-${randomNum}`. */
  function CaseNumber(year: nat, draw: nat): (s: string)
    requires draw < 1000
    ensures StartsWith(s, "CS-") && |s| == |Decimal(year)| + 7
  {
    "CS-" + Decimal(year) + "-" + DrawDigits(draw)
  }

  /** Reads a case number back into its year and draw. */
  function ParseCaseNumber(s: string): (r: Option<(nat, nat)>)
    ensures r.Some? ==> r.value.1 < 1000
  {
    if |s| >= 8 && s[..3] == "CS-" && s[|s| - 4] == '-' &&
       AllDigits(s[3..|s| - 4]) && AllDigits(s[|s| - 3..])
    then
      DecimalValueBound(s[|s| - 3..]);
      Some((DecimalValue(s[3..|s| - 4]), DecimalValue(s[|s| - 3..])))
    else None
  }

  lemma {:induction false} DecimalValueBound(s: string)
    requires AllDigits(s) && |s| == 3
    ensures DecimalValue(s) < 1000
  {
    var a, b := s[..1], s[..2];
    assert a[..0] == [] && b[..1] == a && s[..|s| - 1] == b;
    assert DecimalValue(a) == DigitValue(s[0]) <= 9;
    assert DecimalValue(b) == DecimalValue(a) * 10 + DigitValue(s[1]) <= 99;
    assert DecimalValue(s) == DecimalValue(b) * 10 + DigitValue(s[2]);
  }

  /** A case number gives back the year and the draw it was made from. */
  lemma {:induction false} CaseNumberRoundTrip(year: nat, draw: nat)
    requires draw < 1000
    ensures ParseCaseNumber(CaseNumber(year, draw)) == Some((year, draw))
  {
    var a, t := Decimal(year), DrawDigits(draw);
    var s := CaseNumber(year, draw);
    assert s == "CS-" + a + "-" + t;
    assert s[..3] == "CS-";
    assert s[3..|s| - 4] == a;
    assert s[|s| - 4] == '-';
    assert s[|s| - 3..] == t;
    DecimalRoundTrip(year);
  }

  /** Different years or draws never give the same case number; the same year
      and draw always do (the schema has no unique index on caseNumber). */
  lemma {:induction false} CaseNumberInjective(y1: nat, d1: nat, y2: nat, d2: nat)
    requires d1 < 1000 && d2 < 1000
    ensures CaseNumber(y1, d1) == CaseNumber(y2, d2) <==> y1 == y2 && d1 == d2
  {
    CaseNumberRoundTrip(y1, d1);
    CaseNumberRoundTrip(y2, d2);
  }

  // ---------------------------------------------------------------------------
  // Opening a case
  // ---------------------------------------------------------------------------

  /** `findOneAndUpdate({ name, userId: uid }, { $inc: { caseCount: 1 }, $set: { status: 'Active' } })`. */
  function BumpClient(clients: seq<Client>, uid: Id, name: string): (r: seq<Client>)
    ensures |r| == |clients|
    ensures forall j :: 0 <= j < |r| ==> r[j].id == clients[j].id && r[j].userId == clients[j].userId
    ensures NamedClientIndex(clients, uid, name).None? ==> r == clients
    ensures NamedClientIndex(clients, uid, name).Some? ==>
              var i := NamedClientIndex(clients, uid, name).value;
              r[i] == clients[i].(caseCount := clients[i].caseCount + 1, status := "Active") &&
              forall j :: 0 <= j < |r| && j != i ==> r[j] == clients[j]
  {
    match NamedClientIndex(clients, uid, name)
    case None => clients
    case Some(i) => clients[i := clients[i].(caseCount := clients[i].caseCount + 1, status := "Active")]
  }

  /** Only the first of several same-named clients is bumped. */
  lemma SecondNamesakeUntouched(clients: seq<Client>, uid: Id, j: nat, k: nat)
    requires j < k < |clients|
    requires clients[j].userId == uid && clients[k].userId == uid
    requires clients[j].name == clients[k].name
    ensures BumpClient(clients, uid, clients[j].name)[k] == clients[k]
  {
  }

  /** Bumping touches no other user's clients. */
  lemma {:induction false} BumpKeepsOthers(clients: seq<Client>, uid: Id, name: string, other: Id)
    requires other != uid
    ensures ClientsOf(BumpClient(clients, uid, name), other) == ClientsOf(clients, other)
  {
    var found := NamedClientIndex(clients, uid, name);
    if found.Some? {
      var i := found.value;
      var c := clients[i].(caseCount := clients[i].caseCount + 1, status := "Active");
      assert BumpClient(clients, uid, name) == clients[i := c];
      ClientsOfReplaceOther(clients, i, c, other);
    } else {
      assert BumpClient(clients, uid, name) == clients;
    }
  }

  /** POST: the body, with userId and caseNumber forced, is validated and
      inserted; then the matching client is bumped. The handler has no error
      handling, so a document that fails validation ends in a 500. */
  method CreateCase(db: Db, session: Option<Id>, body: CaseFields, year: nat, draw: nat,
                    now: Moment)
    returns (r: Response<Case>)
    requires db.Valid()
    requires year == now.local.year && draw < 1000
    modifies db
    ensures db.Valid()
    ensures db.users == old(db.users)
    ensures session.None? ==> r == Message(401, "Unauthorized") && unchanged(db)
    ensures session.Some? ==>
      var uid := session.value;
      var doc := body.(userId := Some(uid), caseNumber := Some(CaseNumber(year, draw)));
      var built := BuildCase(old(db.nextId), doc, now);
      if built.None? then r.Message? && r.status == 500 && unchanged(db)
      else r == Ok(200, built.value) &&
           db.cases == old(db.cases) + [built.value] && db.nextId == old(db.nextId) + 1 &&
           db.clients == BumpClient(old(db.clients), uid, built.value.clientName)
    ensures r.Ok? ==> r.body.userId == session.value &&
                      ParseCaseNumber(r.body.caseNumber) == Some((year, draw)) &&
                      CasesOf(db.cases, session.value) == CasesOf(old(db.cases), session.value) + [r.body]
  {
    if session.None? {
      return Message(401, "Unauthorized");
    }
    var uid := session.value;
    var number := CaseNumber(year, draw);
    var built := BuildCase(db.nextId, body.(userId := Some(uid), caseNumber := Some(number)), now);
    if built.None? {
      return Message(500, "Internal Server Error");
    }
    var c := built.value;
    CaseNumberRoundTrip(year, draw);
    CasesOfAppend(db.cases, c, uid);
    var bumped := BumpClient(db.clients, uid, c.clientName);
    InsertCaseValid(db.users, db.clients, bumped, db.cases, c, db.nextId);
    db.cases, db.nextId, db.clients := db.cases + [c], db.nextId + 1, bumped;
    r := Ok(200, c);
  }
}
