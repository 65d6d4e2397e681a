/**
 Signed bearer tokens. A token binds a claimed identifier to an expiry
 instant and records the key it was signed with. The signing library is
 assumed to accept a token exactly when it is checked with the key it was
 signed with and the clock has not reached its expiry; that is the only
 property of the library the model relies on.
 Times are whole seconds since the epoch.
 */
module Tokens {
  import opened ObjectIds

  /** "5d": the lifetime of a session token. */
  const SessionLifetime: nat := 5 * 24 * 60 * 60

  /** "15m": the lifetime of a reset token. */
  const ResetLifetime: nat := 15 * 60

  datatype Token = Token(claim: ObjectId, key: string, iat: nat, exp: nat)

  /** jwt.verify(token, key) at time now, under the assumed library semantics:
      never under a key other than the signing key; under the signing key,
      exactly while the clock is before the expiry. */
  predicate Verifies(t: Token, key: string, now: nat): (b: bool)
    ensures key != t.key ==> !b
    ensures key == t.key ==> (b <==> now < t.exp)
  {
    t.key == key && now < t.exp
  }

  /** jwt.sign({ userID: claim }, key, { expiresIn: lifetime }) at time now. */
  function Sign(claim: ObjectId, key: string, now: nat, lifetime: nat): (t: Token)
    ensures t.claim == claim
    ensures forall k, at: nat :: Verifies(t, k, at) <==> k == key && at < now + lifetime
  {
    Token(claim, key, now, now + lifetime)
  }

  /** The per-user reset key: the user's identifier followed by the global secret. */
  function ResetKey(id: ObjectId, secret: string): (k: string)
    ensures k != secret
  {
    id + secret
  }

  /** Appending the same suffix to two different strings keeps them different. */
  lemma {:induction false} SuffixCancels(a: string, b: string, g: string)
    requires a + g == b + g
    ensures a == b
  {
    assert |a| == |b|;
    assert a == (a + g)[..|a|];
    assert b == (b + g)[..|b|];
  }

  /** Different users have different reset keys under one secret. */
  lemma ResetKeyInjective(a: ObjectId, b: ObjectId, secret: string)
    requires a != b
    ensures ResetKey(a, secret) != ResetKey(b, secret)
  {
    if ResetKey(a, secret) == ResetKey(b, secret) {
      SuffixCancels(a, b, secret);
    }
  }

  /** A reset token minted for one user never verifies under another user's key. */
  lemma ResetTokenBoundToUser(a: ObjectId, b: ObjectId, secret: string, issued: nat, now: nat)
    requires a != b
    ensures !Verifies(Sign(a, ResetKey(a, secret), issued, ResetLifetime), ResetKey(b, secret), now)
  {
    ResetKeyInjective(a, b, secret);
  }

  /** A reset token never verifies as a session token, and a session token
      never verifies as a reset token. */
  lemma TokenClassesDisjoint(id: ObjectId, other: ObjectId, secret: string, issued: nat, now: nat)
    ensures !Verifies(Sign(id, ResetKey(id, secret), issued, ResetLifetime), secret, now)
    ensures !Verifies(Sign(id, secret, issued, SessionLifetime), ResetKey(other, secret), now)
  {
  }

}
