/**
 * The authentication controller: it maps the service's outcome to a status and a JSON
 * body, `201 {message, user}` or `400 {message}` for registration and
 * `200 {message, token, user}` or `400 {message}` for login.
 */
module AuthController {
  import opened Options
  import opened Values
  import opened Http
  import opened UserModel
  import opened AuthService

  /** A user as JSON: the ObjectId serialises to its hex text. */
  function UserJson(u: PublicUser): Value {
    Obj(map["id" := Str(u.id.hex), "fullName" := Str(u.fullName), "email" := Str(u.email),
            "role" := Str(RoleName(u.role))])
  }

  function MessageBody(message: string): Value {
    Obj(map["message" := Str(message)])
  }

  /** `register`: 201 with "User registered" and the user, or 400 with the error's message. */
  function RegisterReply(outcome: Result<PublicUser, string>): (r: Reply)
    ensures outcome.Success? <==> r.status == Created
    ensures outcome.Failure? <==> r.status == BadRequest
    ensures outcome.Success? ==>
      r.body.Obj? && r.body.fields.Keys == {"message", "user"}
      && r.body.fields["message"] == Str("User registered") && r.body.fields["user"] == UserJson(outcome.value)
    ensures outcome.Failure? ==> r.body == MessageBody(outcome.error)
  {
    match outcome
    case Success(user) => Reply(Created, Obj(map["message" := Str("User registered"), "user" := UserJson(user)]))
    case Failure(message) => Reply(BadRequest, MessageBody(message))
  }

  /** `login`: the default 200 with the message spread over the session, or 400. */
  function LoginReply(outcome: Result<Session, string>): (r: Reply)
    ensures outcome.Success? <==> r.status == OK
    ensures outcome.Failure? <==> r.status == BadRequest
    ensures outcome.Success? ==>
      r.body.Obj? && r.body.fields.Keys == {"message", "token", "user"}
      && r.body.fields["message"] == Str("Login successful")
      && r.body.fields["token"] == Str(outcome.value.token)
      && r.body.fields["user"] == UserJson(outcome.value.user)
    ensures outcome.Failure? ==> r.body == MessageBody(outcome.error)
  {
    match outcome
    case Success(session) =>
      Reply(OK, Obj(map["message" := Str("Login successful"), "token" := Str(session.token),
                        "user" := UserJson(session.user)]))
    case Failure(message) => Reply(BadRequest, MessageBody(message))
  }

  /** No login reply, successful or not, carries a password. */
  lemma NoPasswordInReplies(register: Result<PublicUser, string>, login: Result<Session, string>)
    ensures "password" !in RegisterReply(register).body.fields
    ensures "password" !in LoginReply(login).body.fields
    ensures register.Success? ==> "password" !in RegisterReply(register).body.fields["user"].fields
    ensures login.Success? ==> "password" !in LoginReply(login).body.fields["user"].fields
  {
  }

  /** A client cannot tell an unknown email from a wrong password by the reply. */
  lemma BadCredentialsIndistinguishable(users: map<string, User>, hash: string -> string, email: string,
                                        password: string, unknown: string, anyPassword: Option<string>,
                                        sign: User -> string, undefinedMatch: Option<string>, illegal: string)
    requires email in users && hash(password) != users[email].password
    requires unknown !in users
    ensures LoginReply(LoginSpec(users, hash, Some(email), Some(password), sign, undefinedMatch, illegal))
         == LoginReply(LoginSpec(users, hash, Some(unknown), anyPassword, sign, undefinedMatch, illegal))
         == Reply(BadRequest, MessageBody(BadCredentials))
  {
    SameRefusal(users, hash, email, password, unknown, anyPassword, sign, undefinedMatch, illegal);
  }

  /** A duplicate registration is a 400 whose message names the cause. */
  lemma DuplicateRegistration(users: map<string, User>, hash: string -> string, input: UserInput,
                              id: ObjectId, now: Date, invalid: string, undefinedMatch: Option<string>,
                              illegal: string)
    requires input.email.Some? && input.email.value in users
    ensures RegisterReply(RegisterSpec(users, hash, input, id, now, invalid, undefinedMatch, illegal).result)
         == Reply(BadRequest, MessageBody("Email already registered"))
  {
  }

  /** A request without a password is a 400 carrying the hash library's argument error. */
  lemma MissingPasswordReply(users: map<string, User>, hash: string -> string, input: UserInput,
                             id: ObjectId, now: Date, invalid: string, undefinedMatch: Option<string>,
                             illegal: string)
    requires input.password.None? && FindByEmail(users, input.email, undefinedMatch).None?
    ensures RegisterReply(RegisterSpec(users, hash, input, id, now, invalid, undefinedMatch, illegal).result)
         == Reply(BadRequest, MessageBody(illegal))
  {
  }
}
