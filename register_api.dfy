/** The `/api/register` route: sign-up with a name, an email and a password.
    The password is stored hashed and every new account gets the lawyer role. */
module RegisterApi {
  import opened Common
  import opened Dates
  import opened Bcrypt
  import opened Schemas
  import opened Store

  /** The part of the new account the answer shows. */
  datatype NewUser = NewUser(id: Id, name: string, email: string)

  datatype Registered = Registered(message: string, user: NewUser)

  /** The account that registration stores. */
  function Account(id: Id, name: string, email: string, password: string, salt: nat,
                   now: Moment): (u: User)
    ensures u.id == id && u.name == name && u.email == email && u.createdAt == now
    ensures u.role == "lawyer" && u.password.salt == salt && Compare(password, u.password)
  {
    User(id, name, email, Hash(password, salt), "lawyer", now)
  }

  /** The stored account is exactly what the user schema builds from the fields
      the handler passes, so its creation never fails validation. */
  lemma AccountPassesValidation(id: Id, name: string, email: string, password: string,
                                salt: nat, now: Moment)
    requires name != "" && email != ""
    ensures BuildUser(id, UserFields(Some(name), Some(email), Some(Hash(password, salt)), Some("lawyer")), now)
            == Some(Account(id, name, email, password, salt, now))
  {
  }

  /** Once an email is registered, looking it up finds an account. */
  lemma {:induction false} RegisteredEmailTaken(users: seq<User>, u: User)
    ensures EmailIndex(users + [u], u.email).Some?
  {
    assert (users + [u])[|users|].email == u.email;
  }

  /** POST: a missing or empty field gives 400, a registered email gives 400,
      anything else creates the account and answers 201. */
  method Register(db: Db, name: Option<string>, email: Option<string>, password: Option<string>,
                  salt: nat, now: Moment)
    returns (r: Response<Registered>)
    requires db.Valid()
    modifies db
    ensures db.Valid()
    ensures db.clients == old(db.clients) && db.cases == old(db.cases)
    ensures !(Supplied(name) && Supplied(email) && Supplied(password)) ==>
              r == Message(400, "Missing fields") && unchanged(db)
    ensures Supplied(name) && Supplied(email) && Supplied(password) &&
            EmailIndex(old(db.users), email.value).Some? ==>
              r == Message(400, "User already exists") && unchanged(db)
    ensures Supplied(name) && Supplied(email) && Supplied(password) &&
            EmailIndex(old(db.users), email.value).None? ==>
              r == Ok(201, Registered("User created successfully",
                                      NewUser(old(db.nextId), name.value, email.value))) &&
              db.users == old(db.users) +
                          [Account(old(db.nextId), name.value, email.value, password.value, salt, now)] &&
              db.nextId == old(db.nextId) + 1
    ensures r.Ok? ==> db.users[|db.users| - 1].role == "lawyer" &&
                      Compare(password.value, db.users[|db.users| - 1].password)
  {
    if !(Supplied(name) && Supplied(email) && Supplied(password)) {
      return Message(400, "Missing fields");
    }
    if EmailIndex(db.users, email.value).Some? {
      return Message(400, "User already exists");
    }
    var u := Account(db.nextId, name.value, email.value, password.value, salt, now);
    HashThenCompare(password.value, salt);
    db.users := db.users + [u];
    db.nextId := db.nextId + 1;
    r := Ok(201, Registered("User created successfully", NewUser(u.id, u.name, u.email)));
  }
}
