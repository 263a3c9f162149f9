/** The `/api/user/password` route: the signed-in user replaces their password
    after proving they know the current one. The account is written back with
    `save()`, which validates the whole loaded document again. */
module PasswordApi {
  import opened Common
  import opened Bcrypt
  import opened Schemas
  import opened Store
  import UserApi

  /** What `save()` checks on the loaded account: the required name and email
      (the stored hash is never empty) and the role enum. */
  predicate SaveValid(u: User)
    ensures SaveValid(u) <==>
              BuildUser(u.id, UserFields(Some(u.name), Some(u.email), Some(u.password), Some(u.role)),
                        u.createdAt) == Some(u)
  {
    u.name != "" && u.email != "" && u.role in Roles
  }

  /** The outcome of a password change on the users table: the answer and the table afterwards. */
  datatype Outcome = Outcome(reply: Response<()>, users: seq<User>)

  /** The handler's decision, step by step: the account must exist (404), the
      current password must be given (bcrypt throws on a missing one) and
      match (400), the new one must be given (500 otherwise), and the account
      must pass validation again on save (500 otherwise). */
  function ChangeOutcome(users: seq<User>, uid: Id, current: Option<string>,
                         newPassword: Option<string>, salt: nat): (o: Outcome)
    ensures o.reply.Message?
    ensures o.reply.status == 200 <==>
              UserIndex(users, uid).Some? && current.Some? && newPassword.Some? &&
              Compare(current.value, users[UserIndex(users, uid).value].password) &&
              SaveValid(users[UserIndex(users, uid).value])
    ensures o.reply.status != 200 ==> o.users == users
    ensures o.reply.status == 200 ==>
              var i := UserIndex(users, uid).value;
              |o.users| == |users| &&
              o.users[i] == users[i].(password := Hash(newPassword.value, salt)) &&
              (forall j :: 0 <= j < |users| && j != i ==> o.users[j] == users[j]) &&
              Compare(newPassword.value, o.users[i].password)
    ensures o.reply.status == 400 <==>
              UserIndex(users, uid).Some? && current.Some? &&
              !Compare(current.value, users[UserIndex(users, uid).value].password)
    ensures o.reply.status == 404 <==> UserIndex(users, uid).None?
  {
    match UserIndex(users, uid)
    case None => Outcome(Message(404, "User not found"), users)
    case Some(i) =>
      var u := users[i];
      if current.None? then Outcome(Message(500, "Error updating password"), users)
      else if !Compare(current.value, u.password) then
        Outcome(Message(400, "Incorrect current password"), users)
      else if newPassword.None? || !SaveValid(u) then
        Outcome(Message(500, "Error updating password"), users)
      else
        HashThenCompare(newPassword.value, salt);
        Outcome(Message(200, "Password updated"), users[i := u.(password := Hash(newPassword.value, salt))])
  }

  /** After a change to a different password of at most 72 characters, the old
      password no longer verifies. */
  lemma {:induction false} OldPasswordRejected(users: seq<User>, uid: Id, current: string,
                                               newPassword: string, salt: nat)
    requires |current| <= MaxKeyLength && |newPassword| <= MaxKeyLength && current != newPassword
    requires ChangeOutcome(users, uid, Some(current), Some(newPassword), salt).reply.status == 200
    ensures var o := ChangeOutcome(users, uid, Some(current), Some(newPassword), salt);
            !Compare(current, o.users[UserIndex(users, uid).value].password)
  {
    ShortPasswordsDistinguished(current, newPassword, salt);
  }

  /** An account whose name was emptied through the profile route can no
      longer change its password: save() rejects it. */
  lemma {:induction false} EmptyNameBlocksPasswordChange(users: seq<User>, uid: Id,
                                                         current: Option<string>,
                                                         newPassword: Option<string>, salt: nat)
    ensures ChangeOutcome(UserApi.Rename(users, uid, Some("")), uid, current, newPassword, salt)
              .reply.status != 200
  {
    var renamed := UserApi.Rename(users, uid, Some(""));
    UserApi.FirstIndexSameIds(users, renamed, uid);
  }

  /** PUT: applies ChangeOutcome to the users table. */
  method ChangePassword(db: Db, session: Option<Id>, current: Option<string>,
                        newPassword: Option<string>, salt: nat)
    returns (r: Response<()>)
    requires db.Valid()
    modifies db
    ensures db.Valid()
    ensures db.clients == old(db.clients) && db.cases == old(db.cases) && db.nextId == old(db.nextId)
    ensures session.None? ==> r == Message(401, "Unauthorized") && db.users == old(db.users)
    ensures session.Some? ==>
              var o := ChangeOutcome(old(db.users), session.value, current, newPassword, salt);
              r == o.reply && db.users == o.users
  {
    if session.None? {
      return Message(401, "Unauthorized");
    }
    var o := ChangeOutcome(db.users, session.value, current, newPassword, salt);
    db.users := o.users;
    r := o.reply;
  }
}
