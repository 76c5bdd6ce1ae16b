/**
 * The authentication service: a user collection keyed by email with `registerUser` and
 * `loginUser`. The password hash (`bcrypt.hash` with its salt) is the store's `hash`
 * function and `bcrypt.compare` checks `hash(password)` against the stored value; the
 * token signer (`generateToken`) is a parameter.
 */
module AuthService {
  import opened Options
  import opened Values
  import opened UserModel

  /** The user as the service hands it out: id, full name, email and role, and no password. */
  datatype PublicUser = PublicUser(id: ObjectId, fullName: string, email: string, role: Role)

  datatype Session = Session(token: string, user: PublicUser)

  const DuplicateEmail: string := "Email already registered"
  const BadCredentials: string := "Invalid email or password"

  function Public(u: User): PublicUser {
    PublicUser(u.id, u.fullName, u.email, u.role)
  }

  /** Every user is filed under its own email, and ids are distinct and handed out. */
  ghost predicate UsersInvariant(users: map<string, User>, issued: set<ObjectId>) {
    && (forall e :: e in users ==> users[e].email == e && users[e].id in issued)
    && (forall a, b :: a in users && b in users && a != b ==> users[a].id != users[b].id)
  }

  datatype Registered = Registered(result: Result<PublicUser, string>, users: map<string, User>)

  /**
   * The key of the user `User.findOne({ email })` returns. A present email selects the user
   * filed under it. An absent one leaves `email: undefined` in the filter, whose treatment
   * by Mongoose is the parameter `undefinedMatch`: the email of the document it selects,
   * or `None` when it selects nothing; an email not on file also selects nothing.
   */
  function FindByEmail(users: map<string, User>, email: Option<string>, undefinedMatch: Option<string>)
    : (found: Option<string>)
    ensures found.Some? ==> found.value in users
    ensures email.Some? ==> found == if email.value in users then Some(email.value) else None
    ensures email.None? ==> found == if undefinedMatch.Some? && undefinedMatch.value in users then undefinedMatch else None
  {
    var key := if email.Some? then email else undefinedMatch;
    if key.Some? && key.value in users then key else None
  }

  /**
   * `registerUser(input)`: a matching user on file is refused; a missing password makes
   * `bcrypt.hash` reject with its argument error `illegal`; otherwise the user is created
   * with the hash of the password in place of the password. `invalid` is the message of a
   * validation failure, `id` the new document's id.
   */
  function RegisterSpec(users: map<string, User>, hash: string -> string, input: UserInput,
                        id: ObjectId, now: Date, invalid: string, undefinedMatch: Option<string>,
                        illegal: string): (r: Registered)
    ensures r.result.Failure? ==> r.users == users
    ensures FindByEmail(users, input.email, undefinedMatch).Some? ==> r.result == Failure(DuplicateEmail)
    ensures FindByEmail(users, input.email, undefinedMatch).None? && input.password.None? ==>
      r.result == Failure(illegal)
    ensures r.result.Success? <==>
      && input.email.Some? && input.email.value !in users && input.password.Some?
      && UserErrors(input, hash(input.password.value)) == {}
    ensures r.result.Success? ==>
      && r.users.Keys == users.Keys + {input.email.value}
      && (forall e :: e in users ==> r.users[e] == users[e])
      && r.users[input.email.value].password == hash(input.password.value)
      && r.result.value == Public(r.users[input.email.value])
      && r.result.value.id == id && r.result.value.email == input.email.value
      && r.result.value.fullName == input.fullName.value
  {
    if FindByEmail(users, input.email, undefinedMatch).Some? then Registered(Failure(DuplicateEmail), users)
    else if input.password.None? then Registered(Failure(illegal), users)
    else
      match NewUser(id, input, hash(input.password.value), now)
      case Failure(_) => Registered(Failure(invalid), users)
      case Success(user) => Registered(Success(Public(user)), users[user.email := user])
  }

  /**
   * `loginUser(email, password)`: one message for an unknown email and a wrong password;
   * a missing password makes `bcrypt.compare` reject with its argument error `illegal`.
   */
  function LoginSpec(users: map<string, User>, hash: string -> string, email: Option<string>,
                     password: Option<string>, sign: User -> string, undefinedMatch: Option<string>,
                     illegal: string): (r: Result<Session, string>)
    ensures var found := FindByEmail(users, email, undefinedMatch);
      && (r.Success? <==> found.Some? && password.Some? && hash(password.value) == users[found.value].password)
      && (found.None? ==> r == Failure(BadCredentials))
      && (found.Some? && password.None? ==> r == Failure(illegal))
      && (r.Failure? && password.Some? ==> r.error == BadCredentials)
      && (r.Success? ==> r.value == Session(sign(users[found.value]), Public(users[found.value])))
  {
    var found := FindByEmail(users, email, undefinedMatch);
    if found.None? then Failure(BadCredentials)
    else if password.None? then Failure(illegal)
    else if hash(password.value) != users[found.value].password then Failure(BadCredentials)
    else Success(Session(sign(users[found.value]), Public(users[found.value])))
  }

  /** Registering keeps the collection invariant when the new id was never handed out. */
  lemma RegisterKeepsInvariant(users: map<string, User>, issued: set<ObjectId>, hash: string -> string,
                               input: UserInput, id: ObjectId, now: Date, invalid: string,
                               undefinedMatch: Option<string>, illegal: string)
    requires UsersInvariant(users, issued) && id !in issued
    ensures UsersInvariant(RegisterSpec(users, hash, input, id, now, invalid, undefinedMatch, illegal).users,
                           issued + {id})
  {
  }

  /** After registering, the same email and password log in, as the same user. */
  lemma RegisterThenLogin(users: map<string, User>, hash: string -> string, input: UserInput,
                          id: ObjectId, now: Date, invalid: string, undefinedMatch: Option<string>,
                          illegal: string, sign: User -> string)
    requires RegisterSpec(users, hash, input, id, now, invalid, undefinedMatch, illegal).result.Success?
    ensures
      var r := RegisterSpec(users, hash, input, id, now, invalid, undefinedMatch, illegal);
      var session := LoginSpec(r.users, hash, input.email, input.password, sign, undefinedMatch, illegal);
      session.Success? && session.value.user == r.result.value
  {
  }

  /** A wrong password and an unknown email are refused in exactly the same way. */
  lemma SameRefusal(users: map<string, User>, hash: string -> string, email: string, password: string,
                    unknown: string, anyPassword: Option<string>, sign: User -> string,
                    undefinedMatch: Option<string>, illegal: string)
    requires email in users && hash(password) != users[email].password
    requires unknown !in users
    ensures LoginSpec(users, hash, Some(email), Some(password), sign, undefinedMatch, illegal)
         == LoginSpec(users, hash, Some(unknown), anyPassword, sign, undefinedMatch, illegal)
         == Failure(BadCredentials)
  {
  }

  /**
   * A login without an email is the login of whichever user the undefined filter selects:
   * with a filter that selects a stored user, that user's password signs in without its email.
   */
  lemma AbsentEmailLogin(users: map<string, User>, hash: string -> string, password: Option<string>,
                         sign: User -> string, undefinedMatch: Option<string>, illegal: string)
    ensures undefinedMatch.Some? && undefinedMatch.value in users ==>
      LoginSpec(users, hash, None, password, sign, undefinedMatch, illegal)
      == LoginSpec(users, hash, undefinedMatch, password, sign, None, illegal)
    ensures (undefinedMatch.None? || undefinedMatch.value !in users) ==>
      LoginSpec(users, hash, None, password, sign, undefinedMatch, illegal) == Failure(BadCredentials)
  {
  }

  /** A request without a password is refused and stores nothing; so is a login attempt with one missing. */
  lemma MissingPasswordRejected(users: map<string, User>, hash: string -> string, input: UserInput,
                                id: ObjectId, now: Date, invalid: string, undefinedMatch: Option<string>,
                                illegal: string, email: string, sign: User -> string)
    requires input.password.None?
    ensures RegisterSpec(users, hash, input, id, now, invalid, undefinedMatch, illegal).result.Failure?
    ensures RegisterSpec(users, hash, input, id, now, invalid, undefinedMatch, illegal).users == users
    ensures email in users ==> LoginSpec(users, hash, Some(email), None, sign, undefinedMatch, illegal) == Failure(illegal)
  {
  }

  /** With a hash that never returns its argument, the plaintext is never what is stored. */
  lemma PlaintextNeverStored(users: map<string, User>, hash: string -> string, input: UserInput,
                             id: ObjectId, now: Date, invalid: string, undefinedMatch: Option<string>,
                             illegal: string)
    requires forall p :: hash(p) != p
    requires RegisterSpec(users, hash, input, id, now, invalid, undefinedMatch, illegal).result.Success?
    ensures RegisterSpec(users, hash, input, id, now, invalid, undefinedMatch, illegal).users[input.email.value].password
         != input.password.value
  {
  }

  class UserStore {
    const hash: string -> string
    var users: map<string, User>
    ghost var issued: set<ObjectId>

    ghost predicate Valid()
      reads this
    {
      UsersInvariant(users, issued)
    }

    constructor (hash: string -> string)
      ensures Valid() && this.hash == hash && users == map[]
    {
      this.hash := hash;
      users := map[];
      issued := {};
    }

    /** `registerUser`; `id` is the id the collection gives the new document. */
    method Register(input: UserInput, id: ObjectId, now: Date, invalid: string,
                    undefinedMatch: Option<string>, illegal: string)
      returns (r: Result<PublicUser, string>)
      requires Valid() && id !in issued
      modifies this
      ensures Valid() && issued == old(issued) + {id}
      ensures r == RegisterSpec(old(users), hash, input, id, now, invalid, undefinedMatch, illegal).result
      ensures users == RegisterSpec(old(users), hash, input, id, now, invalid, undefinedMatch, illegal).users
    {
      RegisterKeepsInvariant(users, issued, hash, input, id, now, invalid, undefinedMatch, illegal);
      issued := issued + {id};
      var existing := FindByEmail(users, input.email, undefinedMatch);
      if existing.Some? {
        return Failure(DuplicateEmail);
      }
      if input.password.None? {
        return Failure(illegal);
      }
      var hashed := hash(input.password.value);
      var created := NewUser(id, input, hashed, now);
      if created.Failure? {
        return Failure(invalid);
      }
      var user := created.value;
      users := users[user.email := user];
      r := Success(PublicUser(user.id, user.fullName, user.email, user.role));
    }

    /** `loginUser`; it only reads the collection. */
    method Login(email: Option<string>, password: Option<string>, sign: User -> string,
                 undefinedMatch: Option<string>, illegal: string) returns (r: Result<Session, string>)
      requires Valid()
      ensures r == LoginSpec(users, hash, email, password, sign, undefinedMatch, illegal)
    {
      var found := FindByEmail(users, email, undefinedMatch);
      if found.None? {
        return Failure(BadCredentials);
      }
      if password.None? {
        return Failure(illegal);
      }
      var user := users[found.value];
      var isMatch := hash(password.value) == user.password;
      if !isMatch {
        return Failure(BadCredentials);
      }
      var token := sign(user);
      r := Success(Session(token, PublicUser(user.id, user.fullName, user.email, user.role)));
    }
  }
}
