/** The `/api/user` route: the signed-in user renames themself. */
module UserApi {
  import opened Common
  import opened Schemas
  import opened Store

  /** `findByIdAndUpdate(uid, { name })`. A name missing from the body is dropped
      from the update, which then changes nothing; any other name is stored as
      it is, the empty string included, since updates run no validators. */
  function Rename(users: seq<User>, uid: Id, name: Option<string>): (r: seq<User>)
    ensures |r| == |users|
    ensures forall j :: 0 <= j < |r| ==>
              r[j].id == users[j].id && r[j].email == users[j].email &&
              r[j].password == users[j].password && r[j].role == users[j].role &&
              r[j].createdAt == users[j].createdAt
    ensures forall j :: 0 <= j < |r| && users[j].id != uid ==> r[j] == users[j]
    ensures name.None? || UserIndex(users, uid).None? ==> r == users
    ensures name.Some? && UserIndex(users, uid).Some? ==>
              r[UserIndex(users, uid).value].name == name.value
  {
    match (name, UserIndex(users, uid))
    case (Some(n), Some(i)) => users[i := users[i].(name := n)]
    case _ => users
  }

  /** Renaming with the name a user already has changes nothing. */
  lemma {:induction false} RenameSameName(users: seq<User>, uid: Id)
    requires UserIndex(users, uid).Some?
    ensures Rename(users, uid, Some(users[UserIndex(users, uid).value].name)) == users
  {
    var i := UserIndex(users, uid).value;
    assert users[i := users[i].(name := users[i].name)] == users;
  }

  /** Renaming twice keeps the second name only. */
  lemma {:induction false} RenameTwice(users: seq<User>, uid: Id, a: string, b: string)
    ensures Rename(Rename(users, uid, Some(a)), uid, Some(b)) == Rename(users, uid, Some(b))
  {
    var once := Rename(users, uid, Some(a));
    match UserIndex(users, uid)
    case None =>
    case Some(i) =>
      assert UserIndex(once, uid) == UserIndex(users, uid) by {
        assert forall j :: 0 <= j < |once| ==> once[j].id == users[j].id;
        FirstIndexSameIds(users, once, uid);
      }
      assert once == users[i := users[i].(name := a)];
      assert once[i := once[i].(name := b)] == users[i := users[i].(name := b)];
  }

  /** findById depends on the ids only. */
  lemma {:induction false} FirstIndexSameIds(users: seq<User>, other: seq<User>, uid: Id)
    requires |users| == |other|
    requires forall j :: 0 <= j < |users| ==> users[j].id == other[j].id
    ensures UserIndex(users, uid) == UserIndex(other, uid)
  {
    if users != [] {
      FirstIndexSameIds(users[1..], other[1..], uid);
    }
  }

  /** PUT: stores the new name on the user's own account and answers "Profile
      updated", whether or not the account still exists. */
  method UpdateProfile(db: Db, session: Option<Id>, name: Option<string>)
    returns (r: Response<()>)
    requires db.Valid()
    modifies db
    ensures db.Valid()
    ensures db.clients == old(db.clients) && db.cases == old(db.cases) && db.nextId == old(db.nextId)
    ensures session.None? ==> r == Message(401, "Unauthorized") && db.users == old(db.users)
    ensures session.Some? ==> r == Message(200, "Profile updated") &&
                              db.users == Rename(old(db.users), session.value, name)
  {
    if session.None? {
      return Message(401, "Unauthorized");
    }
    db.users := Rename(db.users, session.value, name);
    r := Message(200, "Profile updated");
  }
}
