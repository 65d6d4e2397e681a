/**
 Properties of sequences of requests: what a registration makes possible for
 a later login, what a reset mail makes possible for a later reset, which
 links a reset token opens and for how long, and the full register, login,
 recover, reset scenario.
 */
module Lifecycle {
  import opened Optional
  import opened ObjectIds
  import opened Hashing
  import opened Tokens
  import opened UserStore
  import opened UserController

  function PasswordPair(p: string): PasswordForm {
    PasswordForm(Some(p), Some(p))
  }

  /** The record the step appended to the collection. */
  lemma Appended(before: Users, after: Users)
    requires |after| == |before| + 1 && after[..|before|] == before
    ensures after == before + [after[|before|]]
  {
  }

  /** After a successful registration, logging in with the registered email and
      password succeeds at any later time and yields a session token for the
      new record. */
  lemma RegisterThenLogin(cfg: Config, now: nat, later: nat, newId: ObjectId, salt: Salt, s: State, f: RegisterForm)
    requires WellFormed(s.users)
    requires Register(cfg, now, newId, salt, s, f).response.code == 201
    ensures var s1 := Register(cfg, now, newId, salt, s, f).state;
      var r := Login(cfg, later, s1, LoginForm(f.email, f.password));
      && IsAcceptance(r, 200, "Login successful")
      && r.response.body.token.Some?
      && IsSessionToken(r.response.body.token.value, newId, cfg.secret, later)
  {
    var s1 := Register(cfg, now, newId, salt, s, f).state;
    var u := s1.users[|s.users|];
    Appended(s.users, s1.users);
    AppendFresh(s.users, u);
  }

  /** A second registration with an email already registered is refused with
      409, and the first record is untouched. */
  lemma RegisterTwice(cfg: Config, now: nat, later: nat, id1: ObjectId, id2: ObjectId, salt1: Salt, salt2: Salt,
                      s: State, f: RegisterForm, g: RegisterForm)
    requires WellFormed(s.users)
    requires Register(cfg, now, id1, salt1, s, f).response.code == 201
    requires RegisterFieldsPresent(g) && g.password == g.passwordConfirmation && g.email == f.email
    ensures var s1 := Register(cfg, now, id1, salt1, s, f).state;
      var r := Register(cfg, later, id2, salt2, s1, g);
      && IsRejection(r, 409, "Email already exists")
      && r.state == s1
      && FindByEmail(r.state.users, f.email.value) == Some(s1.users[|s.users|])
  {
    var s1 := Register(cfg, now, id1, salt1, s, f).state;
    Appended(s.users, s1.users);
    AppendFresh(s.users, s1.users[|s.users|]);
  }

  /** Login reveals nothing about which check failed: an unknown email and a
      known email with a wrong password get the same response. */
  lemma LoginFailuresIdentical(cfg: Config, now: nat, s: State, unknown: LoginForm, wrong: LoginForm)
    requires Present(unknown.email) && Present(unknown.password)
    requires FindByEmail(s.users, unknown.email.value).None?
    requires Present(wrong.email) && Present(wrong.password)
    requires FindByEmail(s.users, wrong.email.value).Some?
    requires !Matches(wrong.password.value, FindByEmail(s.users, wrong.email.value).value.password)
    ensures Login(cfg, now, s, unknown) == Login(cfg, now, s, wrong)
    ensures IsRejection(Login(cfg, now, s, unknown), 401, "Invalid credentials")
  {
  }

  /** Following the link of a reset mail with a matching pair of passwords
      resets the password exactly while the link is younger than fifteen
      minutes; otherwise the token is refused and nothing changes. */
  lemma ForgotThenReset(cfg: Config, now: nat, later: nat, salt: Salt, s: State, email: string, p: string)
    requires WellFormed(s.users)
    requires ForgotPassword(cfg, now, s, EmailForm(Some(email))).response.code == 200
    requires p != ""
    ensures var s1 := ForgotPassword(cfg, now, s, EmailForm(Some(email))).state;
      var m := s1.outbox[|s.outbox|];
      var r := ResetPassword(cfg, later, salt, m.link.id, Some(m.link.token), s1, PasswordPair(p));
      && (r.response.code == 200 <==> later < now + ResetLifetime)
      && (r.response.code != 200 ==> IsRejection(r, 400, "Invalid or expired token") && r.state == s1)
  {
    var s1 := ForgotPassword(cfg, now, s, EmailForm(Some(email))).state;
    var m := s1.outbox[|s.outbox|];
    var u := FindByEmail(s.users, email).value;
    CastRoundTrip(m.link.id);
    var i :| 0 <= i < |s.users| && s.users[i] == u;
    FindsUnique(s.users, i);
  }

  /** A reset token opens no other user's link: on the link path of any other
      identifier it is refused, and the collection is unchanged. */
  lemma ResetTokenOnlyForItsUser(cfg: Config, now: nat, later: nat, salt: Salt, s: State, email: string,
                                 p: string, other: string)
    requires ForgotPassword(cfg, now, s, EmailForm(Some(email))).response.code == 200
    requires p != ""
    requires CastObjectId(other).Some?
    requires CastObjectId(other).value != FindByEmail(s.users, email).value.id
    ensures var s1 := ForgotPassword(cfg, now, s, EmailForm(Some(email))).state;
      var m := s1.outbox[|s.outbox|];
      var r := ResetPassword(cfg, later, salt, other, Some(m.link.token), s1, PasswordPair(p));
      && r.response.code != 200
      && r.state == s1
      && (FindById(s.users, CastObjectId(other).value).Some? ==> IsRejection(r, 400, "Invalid or expired token"))
  {
    var u := FindByEmail(s.users, email).value;
    ResetTokenBoundToUser(u.id, CastObjectId(other).value, cfg.secret, now, later);
  }

  /** As written, a password change does not revoke a reset token issued
      before it: the old link still resets the password within its fifteen
      minutes. */
  lemma ResetTokenSurvivesPasswordChange(cfg: Config, now: nat, later: nat, salt1: Salt, salt2: Salt,
                                         s: State, email: string, p1: string, p2: string)
    requires WellFormed(s.users)
    requires ForgotPassword(cfg, now, s, EmailForm(Some(email))).response.code == 200
    requires p1 != "" && p2 != "" && later < now + ResetLifetime
    ensures var s1 := ForgotPassword(cfg, now, s, EmailForm(Some(email))).state;
      var m := s1.outbox[|s.outbox|];
      var s2 := ChangePassword(salt1, m.link.id, s1, PasswordPair(p1)).state;
      var r := ResetPassword(cfg, later, salt2, m.link.id, Some(m.link.token), s2, PasswordPair(p2));
      IsAcceptance(r, 200, "Password reset successfully")
  {
    var s1 := ForgotPassword(cfg, now, s, EmailForm(Some(email))).state;
    var m := s1.outbox[|s.outbox|];
    var u := FindByEmail(s.users, email).value;
    CastRoundTrip(m.link.id);
    var i :| 0 <= i < |s.users| && s.users[i] == u;
    FindsUnique(s.users, i);
    SetPasswordFindById(s1.users, m.link.id, Hash(salt1, p1), m.link.id);
  }

  /** As written, a reset token is not single-use: the same link resets the
      password a second time while it is younger than fifteen minutes. */
  lemma ResetTokenReplayable(cfg: Config, now: nat, t1: nat, t2: nat, salt1: Salt, salt2: Salt,
                             s: State, email: string, p1: string, p2: string)
    requires WellFormed(s.users)
    requires ForgotPassword(cfg, now, s, EmailForm(Some(email))).response.code == 200
    requires p1 != "" && p2 != "" && t1 < now + ResetLifetime && t2 < now + ResetLifetime
    ensures var s1 := ForgotPassword(cfg, now, s, EmailForm(Some(email))).state;
      var m := s1.outbox[|s.outbox|];
      var r1 := ResetPassword(cfg, t1, salt1, m.link.id, Some(m.link.token), s1, PasswordPair(p1));
      var r2 := ResetPassword(cfg, t2, salt2, m.link.id, Some(m.link.token), r1.state, PasswordPair(p2));
      IsAcceptance(r1, 200, "Password reset successfully") && IsAcceptance(r2, 200, "Password reset successfully")
  {
    var s1 := ForgotPassword(cfg, now, s, EmailForm(Some(email))).state;
    var m := s1.outbox[|s.outbox|];
    var u := FindByEmail(s.users, email).value;
    CastRoundTrip(m.link.id);
    var i :| 0 <= i < |s.users| && s.users[i] == u;
    FindsUnique(s.users, i);
    SetPasswordFindById(s1.users, m.link.id, Hash(salt1, p1), m.link.id);
  }

  /** Once a record's password is overwritten with a hash of p, a login with
      that record's email succeeds with p and with no other password. */
  lemma LoginAfterPasswordSet(cfg: Config, later: nat, s: State, id: ObjectId, salt: Salt, p: string, q: string)
    requires WellFormed(s.users) && FindById(s.users, id).Some?
    requires q != ""
    ensures var u := FindById(s.users, id).value;
      var r := Login(cfg, later, s.(users := SetPassword(s.users, id, Hash(salt, p))), LoginForm(Some(u.email), Some(q)));
      && (r.response.code == 200 <==> q == p)
      && (r.response.code != 200 ==> IsRejection(r, 401, "Invalid credentials"))
      && (r.response.code == 200 ==> IsSessionToken(r.response.body.token.value, id, cfg.secret, later))
  {
    var u := FindById(s.users, id).value;
    var d := Hash(salt, p);
    var s1 := s.(users := SetPassword(s.users, id, d));
    var i :| 0 <= i < |s.users| && s.users[i] == u;
    FindsUnique(s.users, i);
    SetPasswordFindByEmail(s.users, id, d, u.email);
    var found := FindByEmail(s1.users, u.email);
    assert found == Some(u.(password := d));
    assert Matches(q, found.value.password) <==> q == p;
  }

  /** After a successful reset, a login with the owner's email succeeds with
      the new password and with no other. */
  lemma ResetThenLogin(cfg: Config, now: nat, later: nat, salt: Salt, id: string, token: Option<Token>,
                       s: State, p: string, q: string)
    requires WellFormed(s.users)
    requires ResetPassword(cfg, now, salt, id, token, s, PasswordPair(p)).response.code == 200
    requires q != ""
    ensures var u := FindById(s.users, CastObjectId(id).value).value;
      var s1 := ResetPassword(cfg, now, salt, id, token, s, PasswordPair(p)).state;
      var r := Login(cfg, later, s1, LoginForm(Some(u.email), Some(q)));
      && (r.response.code == 200 <==> q == p)
      && (r.response.code != 200 ==> IsRejection(r, 401, "Invalid credentials"))
      && (r.response.code == 200 ==> IsSessionToken(r.response.body.token.value, u.id, cfg.secret, later))
  {
    var oid := CastObjectId(id).value;
    var s1 := ResetPassword(cfg, now, salt, id, token, s, PasswordPair(p)).state;
    assert s1 == s.(users := SetPassword(s.users, oid, Hash(salt, p)));
    LoginAfterPasswordSet(cfg, later, s, oid, salt, p, q);
  }

  /** After a successful password change, a login with the user's email
      succeeds with the new password and with no other. */
  lemma ChangeThenLogin(cfg: Config, later: nat, salt: Salt, me: ObjectId, s: State, p: string, q: string)
    requires WellFormed(s.users) && FindById(s.users, me).Some?
    requires p != "" && q != ""
    ensures var u := FindById(s.users, me).value;
      var s1 := ChangePassword(salt, me, s, PasswordPair(p)).state;
      var r := Login(cfg, later, s1, LoginForm(Some(u.email), Some(q)));
      && (r.response.code == 200 <==> q == p)
      && (r.response.code != 200 ==> IsRejection(r, 401, "Invalid credentials"))
  {
    LoginAfterPasswordSet(cfg, later, s, me, salt, p, q);
  }

  /** The full recovery scenario: register, log in, ask for a reset mail,
      follow its link within fifteen minutes with a new password; afterwards
      the old password is refused and the new one accepted. */
  lemma EndToEnd(cfg: Config, t0: nat, t1: nat, t2: nat, t3: nat, t4: nat, newId: ObjectId, salt0: Salt, salt1: Salt,
                 s: State, name: string, email: string, oldPassword: string, newPassword: string)
    requires WellFormed(s.users) && FindByEmail(s.users, email).None? && FindById(s.users, newId).None?
    requires name != "" && email != "" && oldPassword != "" && newPassword != "" && oldPassword != newPassword
    requires t3 < t2 + ResetLifetime
    ensures
      var reg := Register(cfg, t0, newId, salt0, s, RegisterForm(Some(name), Some(email), Some(oldPassword), Some(oldPassword), Some(true)));
      var login1 := Login(cfg, t1, reg.state, LoginForm(Some(email), Some(oldPassword)));
      var forgot := ForgotPassword(cfg, t2, login1.state, EmailForm(Some(email)));
      var m := forgot.state.outbox[|s.outbox|];
      var reset := ResetPassword(cfg, t3, salt1, m.link.id, Some(m.link.token), forgot.state, PasswordPair(newPassword));
      var login2 := Login(cfg, t4, reset.state, LoginForm(Some(email), Some(oldPassword)));
      var login3 := Login(cfg, t4, reset.state, LoginForm(Some(email), Some(newPassword)));
      && IsAcceptance(reg, 201, "Registration successful")
      && IsAcceptance(login1, 200, "Login successful")
      && IsAcceptance(forgot, 200, "Password reset email sent successfully")
      && |forgot.state.outbox| == |s.outbox| + 1 && m.to == email && m.link.id == newId
      && IsAcceptance(reset, 200, "Password reset successfully")
      && IsRejection(login2, 401, "Invalid credentials")
      && IsAcceptance(login3, 200, "Login successful")
      && IsSessionToken(login3.response.body.token.value, newId, cfg.secret, t4)
  {
    var f := RegisterForm(Some(name), Some(email), Some(oldPassword), Some(oldPassword), Some(true));
    var reg := Register(cfg, t0, newId, salt0, s, f);
    RegisterThenLogin(cfg, t0, t1, newId, salt0, s, f);
    var login1 := Login(cfg, t1, reg.state, LoginForm(Some(email), Some(oldPassword)));
    Appended(s.users, reg.state.users);
    AppendFresh(s.users, reg.state.users[|s.users|]);
    var forgot := ForgotPassword(cfg, t2, login1.state, EmailForm(Some(email)));
    var m := forgot.state.outbox[|s.outbox|];
    ForgotThenReset(cfg, t2, t3, salt1, login1.state, email, newPassword);
    var reset := ResetPassword(cfg, t3, salt1, m.link.id, Some(m.link.token), forgot.state, PasswordPair(newPassword));
    CastRoundTrip(m.link.id);
    ResetThenLogin(cfg, t3, t4, salt1, m.link.id, Some(m.link.token), forgot.state, newPassword, oldPassword);
    ResetThenLogin(cfg, t3, t4, salt1, m.link.id, Some(m.link.token), forgot.state, newPassword, newPassword);
  }

}
