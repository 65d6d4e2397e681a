/**
 The credential service: the five request flows of the user controller
 (register, login, change password, send reset email, reset password) plus
 the logged-user echo, each one atomic step from a state to a response and a
 next state. The state is the user collection and the outbox of mail handed
 to the transport. The clock, the salt of each hash and the identifier the
 store assigns to a new record are inputs of the step.
 */
module UserController {
  import opened Optional
  import opened ObjectIds
  import opened Hashing
  import opened Tokens
  import opened UserStore

  /** A text field of a request body: absent, or the text sent. */
  type Field = Option<string>

  /** The truthiness test on a text field: absent and empty text are both missing. */
  predicate Present(f: Field) {
    f.Some? && f.value != ""
  }

  datatype RegisterForm = RegisterForm(name: Field, email: Field, password: Field, passwordConfirmation: Field, tc: Option<bool>)
  datatype LoginForm = LoginForm(email: Field, password: Field)
  datatype PasswordForm = PasswordForm(password: Field, passwordConfirmation: Field)
  datatype EmailForm = EmailForm(email: Field)

  datatype Status = Success | Failed
  datatype Body = Message(status: Status, message: string, token: Option<Token>) | Profile(user: User)
  datatype Response = Response(code: nat, body: Body)

  /** The reset link: FRONTEND_URL + "/reset-password/" + id + "/" + token. */
  datatype Link = Link(frontendUrl: string, id: ObjectId, token: Token)
  datatype Mail = Mail(from: string, to: string, subject: string, greeting: string, link: Link)

  datatype State = State(users: Users, outbox: seq<Mail>)
  datatype Config = Config(secret: string, frontendUrl: string, emailFrom: string)
  datatype Step = Step(response: Response, state: State)

  /** The path of a reset link up to its token segment. */
  function LinkPrefix(l: Link): string {
    l.frontendUrl + "/reset-password/" + l.id + "/"
  }

  function Reject(code: nat, message: string, s: State): Step {
    Step(Response(code, Message(Failed, message, None)), s)
  }

  function Accept(code: nat, message: string, token: Option<Token>, s: State): Step {
    Step(Response(code, Message(Success, message, token)), s)
  }

  predicate IsRejection(r: Step, code: nat, message: string) {
    r.response == Response(code, Message(Failed, message, None))
  }

  predicate IsAcceptance(r: Step, code: nat, message: string) {
    r.response.code == code && r.response.body.Message? &&
    r.response.body.status == Success && r.response.body.message == message
  }

  predicate RegisterFieldsPresent(f: RegisterForm) {
    Present(f.name) && Present(f.email) && Present(f.password) && Present(f.passwordConfirmation) && f.tc == Some(true)
  }

  predicate PasswordFieldsPresent(f: PasswordForm) {
    Present(f.password) && Present(f.passwordConfirmation)
  }

  /** The token is a session token for id: it verifies under the global secret
      exactly until five days after now, and under no other key. */
  ghost predicate IsSessionToken(t: Token, id: ObjectId, secret: string, now: nat) {
    t.claim == id && forall k, at: nat :: Verifies(t, k, at) <==> k == secret && at < now + SessionLifetime
  }

  /** userRegistration */
  function Register(cfg: Config, now: nat, newId: ObjectId, salt: Salt, s: State, f: RegisterForm): (r: Step)
    ensures r.state.outbox == s.outbox
    ensures r.response.code in {201, 400, 409, 500}
    ensures r.response.code != 201 ==> r.state == s && r.response.body.Message? && r.response.body.token.None?
    ensures !RegisterFieldsPresent(f) ==> IsRejection(r, 400, "All fields are required")
    ensures RegisterFieldsPresent(f) && f.password != f.passwordConfirmation ==>
      IsRejection(r, 400, "Password and Confirm Password do not match")
    ensures r.response.code == 409 <==>
      RegisterFieldsPresent(f) && f.password == f.passwordConfirmation && FindByEmail(s.users, f.email.value).Some?
    ensures r.response.code == 409 ==> IsRejection(r, 409, "Email already exists")
    ensures r.response.code == 400 <==> !RegisterFieldsPresent(f) || f.password != f.passwordConfirmation
    ensures r.response.code == 500 ==> IsRejection(r, 500, "Unable to register user")
    ensures r.response.code == 201 <==>
      RegisterFieldsPresent(f) && f.password == f.passwordConfirmation &&
      FindByEmail(s.users, f.email.value).None? && FindById(s.users, newId).None?
    ensures r.response.code == 201 ==>
      && IsAcceptance(r, 201, "Registration successful")
      && |r.state.users| == |s.users| + 1
      && r.state.users[..|s.users|] == s.users
      && var u := r.state.users[|s.users|];
         && u.id == newId && u.name == f.name.value && u.email == f.email.value && u.tc
         && (forall p :: Matches(p, u.password) <==> p == f.password.value)
         && r.response.body.token.Some?
         && IsSessionToken(r.response.body.token.value, newId, cfg.secret, now)
    ensures WellFormed(s.users) ==> WellFormed(r.state.users)
  {
    if !RegisterFieldsPresent(f) then
      Reject(400, "All fields are required", s)
    else if f.password != f.passwordConfirmation then
      Reject(400, "Password and Confirm Password do not match", s)
    else if FindByEmail(s.users, f.email.value).Some? then
      Reject(409, "Email already exists", s)
    else if FindById(s.users, newId).Some? then
      // the write of a record whose identifier is taken fails and is caught
      Reject(500, "Unable to register user", s)
    else
      var user := User(newId, f.name.value, f.email.value, Hash(salt, f.password.value), true);
      var token := Sign(newId, cfg.secret, now, SessionLifetime);
      assert WellFormed(s.users) ==> WellFormed(s.users + [user]) by {
        if WellFormed(s.users) { AppendFresh(s.users, user); }
      }
      Accept(201, "Registration successful", Some(token), s.(users := s.users + [user]))
  }

  /** userLogin */
  function Login(cfg: Config, now: nat, s: State, f: LoginForm): (r: Step)
    ensures r.state == s
    ensures r.response.code in {200, 400, 401}
    ensures r.response.code != 200 ==> r.response.body.Message? && r.response.body.token.None?
    ensures !(Present(f.email) && Present(f.password)) ==> IsRejection(r, 400, "All fields are required")
    ensures r.response.code == 401 ==> IsRejection(r, 401, "Invalid credentials")
    ensures Present(f.email) && Present(f.password) && r.response.code != 200 ==> IsRejection(r, 401, "Invalid credentials")
    ensures r.response.code == 200 <==>
      Present(f.email) && Present(f.password) &&
      FindByEmail(s.users, f.email.value).Some? && Matches(f.password.value, FindByEmail(s.users, f.email.value).value.password)
    ensures r.response.code == 200 ==>
      && IsAcceptance(r, 200, "Login successful")
      && r.response.body.token.Some?
      && IsSessionToken(r.response.body.token.value, FindByEmail(s.users, f.email.value).value.id, cfg.secret, now)
  {
    if !(Present(f.email) && Present(f.password)) then
      Reject(400, "All fields are required", s)
    else
      match FindByEmail(s.users, f.email.value)
      case None => Reject(401, "Invalid credentials", s)
      case Some(user) =>
        if !Matches(f.password.value, user.password) then
          Reject(401, "Invalid credentials", s)
        else
          Accept(200, "Login successful", Some(Sign(user.id, cfg.secret, now, SessionLifetime)), s)
  }

  /** changeUserPassword, for the identity the authentication middleware established. */
  function ChangePassword(salt: Salt, me: ObjectId, s: State, f: PasswordForm): (r: Step)
    ensures r.state.outbox == s.outbox
    ensures r.response.code in {200, 400}
    ensures r.response.body.Message? && r.response.body.token.None?
    ensures !PasswordFieldsPresent(f) ==> IsRejection(r, 400, "All fields are required")
    ensures PasswordFieldsPresent(f) && f.password != f.passwordConfirmation ==> IsRejection(r, 400, "Passwords do not match")
    ensures r.response.code == 400 ==> r.state == s
    ensures r.response.code == 200 <==> PasswordFieldsPresent(f) && f.password == f.passwordConfirmation
    ensures r.response.code == 200 ==>
      && IsAcceptance(r, 200, "Password changed successfully")
      && |r.state.users| == |s.users|
      && forall i :: 0 <= i < |s.users| ==>
           var before, after := s.users[i], r.state.users[i];
           && after.id == before.id && after.name == before.name && after.email == before.email && after.tc == before.tc
           && (before.id == me ==> forall p :: Matches(p, after.password) <==> p == f.password.value)
           && (before.id != me ==> after == before)
    ensures WellFormed(s.users) ==> WellFormed(r.state.users)
  {
    if !PasswordFieldsPresent(f) then
      Reject(400, "All fields are required", s)
    else if f.password != f.passwordConfirmation then
      Reject(400, "Passwords do not match", s)
    else
      Accept(200, "Password changed successfully", None, s.(users := SetPassword(s.users, me, Hash(salt, f.password.value))))
  }

  /** loggedUser: the record the authentication middleware attached, echoed back. */
  function LoggedUser(me: User, s: State): (r: Step)
    ensures r.state == s
    ensures r.response.code == 200 && r.response.body.Profile? && r.response.body.user == me
  {
    Step(Response(200, Profile(me)), s)
  }

  /** The reset mail for a user: addressed to the user, carrying a token keyed
      with the user's reset key. */
  function ResetMail(cfg: Config, now: nat, user: User): (m: Mail)
    ensures m.from == cfg.emailFrom && m.to == user.email && m.subject == "Password Reset Link"
    ensures m.link.id == user.id && LinkPrefix(m.link) == cfg.frontendUrl + "/reset-password/" + user.id + "/"
    ensures m.link.token.claim == user.id
    ensures forall k, at: nat :: Verifies(m.link.token, k, at) <==> k == ResetKey(user.id, cfg.secret) && at < now + ResetLifetime
  {
    var token := Sign(user.id, ResetKey(user.id, cfg.secret), now, ResetLifetime);
    Mail(cfg.emailFrom, user.email, "Password Reset Link", user.name, Link(cfg.frontendUrl, user.id, token))
  }

  /** sendUserPasswordResetEmail */
  function ForgotPassword(cfg: Config, now: nat, s: State, f: EmailForm): (r: Step)
    ensures r.state.users == s.users
    ensures r.response.code in {200, 400, 404}
    ensures r.response.body.Message? && r.response.body.token.None?
    ensures !Present(f.email) ==> IsRejection(r, 400, "Email field is required")
    ensures r.response.code == 404 <==> Present(f.email) && FindByEmail(s.users, f.email.value).None?
    ensures r.response.code == 404 ==> IsRejection(r, 404, "Email does not exist")
    ensures r.response.code == 200 <==> Present(f.email) && FindByEmail(s.users, f.email.value).Some?
    ensures r.response.code != 200 ==> r.state == s
    ensures r.response.code == 200 ==>
      && IsAcceptance(r, 200, "Password reset email sent successfully")
      && |r.state.outbox| == |s.outbox| + 1
      && r.state.outbox[..|s.outbox|] == s.outbox
      && var m, u := r.state.outbox[|s.outbox|], FindByEmail(s.users, f.email.value).value;
         && m.to == u.email && m.to == f.email.value && m.link.id == u.id
         && LinkPrefix(m.link) == cfg.frontendUrl + "/reset-password/" + u.id + "/"
         && m.link.token.claim == u.id
         && forall k, at: nat :: Verifies(m.link.token, k, at) <==> k == ResetKey(u.id, cfg.secret) && at < now + ResetLifetime
  {
    if !Present(f.email) then
      Reject(400, "Email field is required", s)
    else
      match FindByEmail(s.users, f.email.value)
      case None => Reject(404, "Email does not exist", s)
      case Some(user) =>
        Accept(200, "Password reset email sent successfully", None, s.(outbox := s.outbox + [ResetMail(cfg, now, user)]))
  }

  /** userPasswordReset, for the identifier and token text of the link path
      (None stands for token text that does not decode). */
  function ResetPassword(cfg: Config, now: nat, salt: Salt, id: string, token: Option<Token>, s: State, f: PasswordForm): (r: Step)
    ensures r.state.outbox == s.outbox
    ensures r.response.code in {200, 400, 404}
    ensures r.response.body.Message? && r.response.body.token.None?
    ensures r.response.code != 200 ==> r.state == s
    ensures !PasswordFieldsPresent(f) ==> IsRejection(r, 400, "All fields are required")
    ensures PasswordFieldsPresent(f) && f.password != f.passwordConfirmation ==> IsRejection(r, 400, "Passwords do not match")
    ensures r.response.code == 404 <==>
      PasswordFieldsPresent(f) && f.password == f.passwordConfirmation &&
      CastObjectId(id).Some? && FindById(s.users, CastObjectId(id).value).None?
    ensures r.response.code == 404 ==> IsRejection(r, 404, "User not found")
    ensures r.response.code == 200 <==>
      PasswordFieldsPresent(f) && f.password == f.passwordConfirmation &&
      CastObjectId(id).Some? && FindById(s.users, CastObjectId(id).value).Some? &&
      token.Some? && Verifies(token.value, ResetKey(CastObjectId(id).value, cfg.secret), now)
    ensures PasswordFieldsPresent(f) && f.password == f.passwordConfirmation && r.response.code == 400 ==>
      IsRejection(r, 400, "Invalid or expired token")
    ensures r.response.code == 200 ==>
      && IsAcceptance(r, 200, "Password reset successfully")
      && var target := CastObjectId(id).value;
         && |r.state.users| == |s.users|
         && forall i :: 0 <= i < |s.users| ==>
              var before, after := s.users[i], r.state.users[i];
              && after.id == before.id && after.name == before.name && after.email == before.email && after.tc == before.tc
              && (before.id == target ==> forall p :: Matches(p, after.password) <==> p == f.password.value)
              && (before.id != target ==> after == before)
    ensures WellFormed(s.users) ==> WellFormed(r.state.users)
  {
    if !PasswordFieldsPresent(f) then
      Reject(400, "All fields are required", s)
    else if f.password != f.passwordConfirmation then
      Reject(400, "Passwords do not match", s)
    else
      match CastObjectId(id)
      // a cast error is thrown by the lookup and lands in the catch-all
      case None => Reject(400, "Invalid or expired token", s)
      case Some(oid) =>
        match FindById(s.users, oid)
        case None => Reject(404, "User not found", s)
        case Some(user) =>
          if !(token.Some? && Verifies(token.value, ResetKey(user.id, cfg.secret), now)) then
            Reject(400, "Invalid or expired token", s)
          else
            Accept(200, "Password reset successfully", None, s.(users := SetPassword(s.users, user.id, Hash(salt, f.password.value))))
  }

  /** One request, as the router dispatches it. */
  datatype Request =
    | RegisterRequest(form: RegisterForm)
    | LoginRequest(loginForm: LoginForm)
    | ChangePasswordRequest(me: ObjectId, passwords: PasswordForm)
    | LoggedUserRequest(profile: User)
    | ForgotPasswordRequest(emailForm: EmailForm)
    | ResetPasswordRequest(id: string, token: Option<Token>, resetForm: PasswordForm)

  /** The inputs a step draws from its environment: the clock, a fresh salt and
      the identifier the store would assign to a new record. */
  datatype Environment = Environment(now: nat, salt: Salt, newId: ObjectId)

  function Handle(cfg: Config, env: Environment, s: State, req: Request): (r: Step)
    ensures WellFormed(s.users) ==> WellFormed(r.state.users)
    ensures r.response.code >= 400 ==> r.state == s
    ensures r.state.outbox == s.outbox || (req.ForgotPasswordRequest? && |r.state.outbox| == |s.outbox| + 1 && r.state.outbox[..|s.outbox|] == s.outbox)
    ensures r.state.users != s.users ==> req.RegisterRequest? || req.ChangePasswordRequest? || req.ResetPasswordRequest?
    ensures r.state.users != s.users ==> r.response.code in {200, 201}
    ensures |r.state.users| != |s.users| ==> req.RegisterRequest? && |r.state.users| == |s.users| + 1
  {
    match req
    case RegisterRequest(f) => Register(cfg, env.now, env.newId, env.salt, s, f)
    case LoginRequest(f) => Login(cfg, env.now, s, f)
    case ChangePasswordRequest(me, f) => ChangePassword(env.salt, me, s, f)
    case LoggedUserRequest(u) => LoggedUser(u, s)
    case ForgotPasswordRequest(f) => ForgotPassword(cfg, env.now, s, f)
    case ResetPasswordRequest(id, t, f) => ResetPassword(cfg, env.now, env.salt, id, t, s, f)
  }

}
