# Credential lifecycle of the user-authentication backend

This project models the user controller of the authentication backend
(`Auth_Backend/controllers/userController.js`). It covers the five credential flows:
registration, login, password change, the password-reset email and the
password reset itself. It also covers the logged-user echo. Each request is one atomic
step: it takes a state (the user collection and the outbox of mail handed
to the transport) and produces an HTTP response and a next state.

- **Password hashing** (`Hashing`). bcrypt is a symbolic one-way digest that
  records its salt. `Matches` is `bcrypt.compare`: it recomputes the digest
  with the embedded salt. The salt of each hash is an input of the step.
- **Tokens** (`Tokens`). A JWT is a `Token(claim, key, iat, exp)` signed with
  a recorded key. The model assumes one property of jsonwebtoken: a token
  verifies exactly when it is checked with its own key and the clock is
  before `exp`. Session tokens are signed with the global secret and last
  five days (432000 s). Reset tokens are signed with `user._id + secret` and
  last fifteen minutes (900 s). Times are whole seconds, as jsonwebtoken
  counts them.
- **Store** (`UserStore`). The collection is a sequence of records in
  natural order. `findOne` returns the first match. `findByIdAndUpdate` with
  `$set: {password}` overwrites only that field, and does nothing for an
  absent identifier. Identifiers are 24 lower-case hex digits. The reset
  link's identifier text is cast back the way the ObjectId cast of bson 6
  (the driver generation used by Mongoose 8) does it: 24 hex digits of
  either case are accepted, anything else is a cast error.
- **Flows** (`UserController`). Each handler checks its fields in the
  source's order. It then consults or updates the store, and mints or checks
  a token. Every outcome has the source's status code and message.
- **Lifecycle**. Lemmas about sequences of requests.

Behaviour of the code worth knowing:

- A reset token is keyed only by the user's identifier and the secret, so a
  password change or a completed reset does not revoke it. It stays valid
  and can be replayed until it expires (`ResetTokenSurvivesPasswordChange`,
  `ResetTokenReplayable`).
- The reset flow answers 404 "User not found" for an unknown identifier.
  It does not fold that case into the generic token error.
- The reset flow never compares the token's `userID` claim with the link's
  identifier. Only the rebuilt key binds the token to a user.
- The reset link is `FRONTEND_URL/reset-password/<id>/<token>`, with a
  `reset-password` path segment.

## Model

| member | source | states |
|---|---|---|
| ObjectIds.CastObjectId | Auth_Backend/controllers/userController.js:251 | the identifier text of the link casts exactly when it is 24 hex digits, to their lower-case form |
| ObjectIds.CastRoundTrip | Auth_Backend/controllers/userController.js:201 | the identifier written into a reset link casts back to the same identifier |
| Hashing.Hash | Auth_Backend/controllers/userController.js:37-38 | the digest keeps its salt and is matched by exactly the password it was made from |
| Hashing.SaltedHashesDiffer | Auth_Backend/controllers/userController.js:142-143 | two hashes of one password under different salts differ and both verify |
| Hashing.Matches | Auth_Backend/controllers/userController.js:92 | `bcrypt.compare`: the password is hashed again with the digest's embedded salt and compared |
| Hashing.CompareRecomputes | Auth_Backend/controllers/userController.js:92 | a password matches a digest exactly when hashing it with the digest's own salt gives that digest |
| Tokens.Verifies | Auth_Backend/controllers/userController.js:260 | `jwt.verify`, under the ASSUMED library semantics: never verifies under a key other than the signing key; under the signing key, exactly while the clock is before the expiry |
| Tokens.Sign | Auth_Backend/controllers/userController.js:49-53 | a signed token carries its claim and verifies under exactly its key until now + lifetime |
| Tokens.ResetKey | Auth_Backend/controllers/userController.js:194 | a per-user reset key is never the global secret itself |
| Tokens.SuffixCancels | Auth_Backend/controllers/userController.js:259 | two strings with the same suffix appended are equal only if the strings are equal |
| Tokens.ResetKeyInjective | Auth_Backend/controllers/userController.js:259 | different users have different reset keys under one secret |
| Tokens.ResetTokenBoundToUser | Auth_Backend/controllers/userController.js:194-199 | a reset token minted for one user never verifies under another user's reset key |
| Tokens.TokenClassesDisjoint | Auth_Backend/controllers/userController.js:194-198 | reset tokens never verify under the global secret, session tokens never under a reset key |
| UserStore.FirstMatch | Auth_Backend/controllers/userController.js:29 | the position returned is of a matching record with no match before it; none means no record matches |
| UserStore.FindOne | Auth_Backend/controllers/userController.js:84 | the record returned is the first match in natural order; none exactly when nothing matches |
| UserStore.FindByEmail | Auth_Backend/controllers/userController.js:186 | a record found has the asked email; none exactly when no record has it |
| UserStore.FindById | Auth_Backend/controllers/userController.js:251 | a record found has the asked identifier; none exactly when no record has it |
| UserStore.SetPassword | Auth_Backend/controllers/userController.js:145-147 | only the password field of the record with the identifier changes; an absent identifier changes nothing |
| UserStore.FindsUnique | Auth_Backend/controllers/userController.js:29-35 | in a well-formed collection each record is what its own email and identifier find |
| UserStore.AppendFresh | Auth_Backend/controllers/userController.js:40-47 | saving a record with a new identifier and email keeps the collection well formed and findable |
| UserStore.SetPasswordWellFormed | Auth_Backend/controllers/userController.js:265-267 | overwriting a password keeps identifiers and emails unique |
| UserStore.SetPasswordFindByEmail | Auth_Backend/controllers/userController.js:145-147 | after a password overwrite, an email lookup finds the same record, with the new password if it was the one updated |
| UserStore.SetPasswordFindById | Auth_Backend/controllers/userController.js:265-267 | after a password overwrite, an identifier lookup finds the same record, with the new password if it was the one updated |
| UserController.Register | Auth_Backend/controllers/userController.js:13-66 | 400 exactly for a missing field or a mismatch, before any lookup; 409 exactly for a known email; 500 "Unable to register user" when the assigned identifier is taken; 201 appends exactly one record whose digest matches only the password, with a five-day session token for the new id; every error leaves the state unchanged |
| UserController.Login | Auth_Backend/controllers/userController.js:75-110 | never changes the state; 400 for missing fields; with both fields present, 401 "Invalid credentials" unless the first record with the email matches the password; 200 carries a five-day session token for that record |
| UserController.ChangePassword | Auth_Backend/controllers/userController.js:126-152 | 400 and no change for missing fields or a mismatch; 200 rewrites only the authenticated user's password to a digest matching only the new password |
| UserController.LoggedUser | Auth_Backend/controllers/userController.js:166-170 | answers 200 with the authenticated record and changes nothing |
| UserController.ResetMail | Auth_Backend/controllers/userController.js:194-213 | the mail goes from EMAIL_FROM to the user's email with subject "Password Reset Link"; its link names the user under FRONTEND_URL/reset-password/ and carries a token for the user that verifies only under the user's reset key, for fifteen minutes |
| UserController.ForgotPassword | Auth_Backend/controllers/userController.js:179-218 | 400 for a missing email and 404 for an unknown one, sending nothing; 200 exactly for a present, known email, and it appends exactly one mail to the user, whose link names the user and carries a token valid only under the user's reset key for fifteen minutes; no token in the response |
| UserController.ResetPassword | Auth_Backend/controllers/userController.js:237-280 | field checks first (400); 404 for an unknown identifier; 400 "Invalid or expired token" unless the token verifies under the looked-up user's reset key; 200 rewrites only that user's password; errors leave the state unchanged |
| UserController.Handle | Auth_Backend/controllers/userController.js:11-281 | every flow keeps the collection well formed; no error response changes the state; only the reset-email flow sends mail, one message at a time; only register, change and reset alter records |
| Lifecycle.RegisterThenLogin | Auth_Backend/controllers/userController.js:37-110 | after a registration, login with the same email and password succeeds later with a session token for the new id |
| Lifecycle.RegisterTwice | Auth_Backend/controllers/userController.js:29-35 | a second registration with the same email gets 409 and the first record stays what the email finds |
| Lifecycle.LoginFailuresIdentical | Auth_Backend/controllers/userController.js:84-98 | an unknown email and a wrong password produce the identical 401 response |
| Lifecycle.ForgotThenReset | Auth_Backend/controllers/userController.js:194-267 | the mailed link resets the password exactly when followed before fifteen minutes pass, otherwise 400 with no change |
| Lifecycle.ResetTokenOnlyForItsUser | Auth_Backend/controllers/userController.js:259-260 | a reset token on any other identifier's link is refused and changes nothing |
| Lifecycle.ResetTokenSurvivesPasswordChange | Auth_Backend/controllers/userController.js:145-147 | a password change does not revoke an earlier reset link within its fifteen minutes |
| Lifecycle.ResetTokenReplayable | Auth_Backend/controllers/userController.js:259-267 | the same reset link resets the password twice within its fifteen minutes |
| Lifecycle.LoginAfterPasswordSet | Auth_Backend/controllers/userController.js:92-98 | after a password overwrite, login with that record's email succeeds with the new password and no other |
| Lifecycle.ResetThenLogin | Auth_Backend/controllers/userController.js:262-267 | after a successful reset, login succeeds with the new password only |
| Lifecycle.ChangeThenLogin | Auth_Backend/controllers/userController.js:142-147 | after a password change, login succeeds with the new password only |
| Lifecycle.EndToEnd | Auth_Backend/controllers/userController.js:11-280 | register, login, request a reset mail, reset within fifteen minutes: old password refused, new one accepted with a session token |

## Left out

- `Auth_Backend/app.js` (Express setup, CORS, environment loading, database connection, listening) and the React pages: plumbing and UI, with no credential logic.
- The authentication middleware that verifies a session token and attaches `req.user` is not part of this model. Change password takes the authenticated identifier as an input; the logged-user echo takes the attached record.
- The user schema (`models/User.js`) is not part of this model. The model stores email and name verbatim and relies on no unique index: email uniqueness comes from the registration check.
- Hashing.Hash: bcrypt reads only the first 72 bytes of a password, but the model's digest tells every pair of passwords apart. Cost factor, salt generation and constant-time comparison are also left out; the salt is an input.
- Tokens.Sign: the compact JWT encoding and the HMAC are abstract; only the key and the expiry are recorded. Token text that does not decode is `None`. jsonwebtoken's refusal of an empty secret is not modelled.
- Request bodies hold only text fields (absent, empty or text) and a boolean `tc`. Numbers, objects and a textual `tc` are not modelled; a field is present exactly when it is truthy.
- Collaborator failures caught by the handlers are not modelled: a store error, a failed hash, or a rejected `sendMail` (which answers 500 after the token is minted). Two cases are kept: a registration whose store-assigned identifier is already taken answers 500 "Unable to register user", and an identifier that fails the cast lands in the reset flow's catch-all, 400 "Invalid or expired token". `console.error` logging is omitted.
- The reset mail's HTML beyond the link and the greeting name is not modelled. The link holds its identifier and token as values; the text after its path prefix is the token's compact form, which is not modelled.
- ObjectIds.CastObjectId: older ObjectId casts (bson before 6) also accept any 12-character string as raw bytes; such a link would answer 404 "User not found" there, not 400. The model follows the bson 6 cast only.
- Concurrency between requests and the async scheduling of each handler: every request is one atomic step.
