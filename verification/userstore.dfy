/**
 The user collection, seen through the three queries the controller makes:
 find one record by email, find one record by identifier, and overwrite one
 record's password field. Records are kept in natural (insertion) order, and
 a find returns the first record that matches.
 */
module UserStore {
  import opened Optional
  import opened ObjectIds
  import opened Hashing

  datatype User = User(id: ObjectId, name: string, email: string, password: Digest, tc: bool)

  type Users = seq<User>

  /** Identifiers are unique, emails are unique and non-empty (the registration
      flow keeps them so). */
  predicate WellFormed(users: Users) {
    && (forall i :: 0 <= i < |users| ==> users[i].email != "")
    && (forall i, j :: 0 <= i < j < |users| ==> users[i].id != users[j].id && users[i].email != users[j].email)
  }

  /** The position of the first record satisfying p, if any. */
  function FirstMatch(users: Users, p: User -> bool): (r: Option<nat>)
    ensures r.Some? ==> r.value < |users| && p(users[r.value])
    ensures r.Some? ==> forall j :: 0 <= j < r.value ==> !p(users[j])
    ensures r.None? ==> forall j :: 0 <= j < |users| ==> !p(users[j])
  {
    if |users| == 0 then None
    else if p(users[0]) then Some(0)
    else match FirstMatch(users[1..], p)
      case None => None
      case Some(k) => Some(k + 1)
  }

  function FindOne(users: Users, p: User -> bool): (r: Option<User>)
    ensures r.Some? ==> r.value in users && p(r.value)
    ensures r.None? <==> forall j :: 0 <= j < |users| ==> !p(users[j])
    ensures r.Some? ==> exists i :: 0 <= i < |users| && users[i] == r.value && forall j :: 0 <= j < i ==> !p(users[j])
  {
    match FirstMatch(users, p)
    case None => None
    case Some(i) => Some(users[i])
  }

  /** UserModel.findOne({ email }) */
  function FindByEmail(users: Users, email: string): (r: Option<User>)
    ensures r.Some? ==> r.value in users && r.value.email == email
    ensures r.None? <==> forall j :: 0 <= j < |users| ==> users[j].email != email
  {
    FindOne(users, (u: User) => u.email == email)
  }

  /** UserModel.findById(id) */
  function FindById(users: Users, id: ObjectId): (r: Option<User>)
    ensures r.Some? ==> r.value in users && r.value.id == id
    ensures r.None? <==> forall j :: 0 <= j < |users| ==> users[j].id != id
  {
    FindOne(users, (u: User) => u.id == id)
  }

  /** UserModel.findByIdAndUpdate(id, { $set: { password } }): only the password
      field of the record with that identifier changes; an absent identifier
      changes nothing. */
  function SetPassword(users: Users, id: ObjectId, password: Digest): (r: Users)
    ensures |r| == |users|
    ensures forall i :: 0 <= i < |users| && users[i].id == id ==> r[i] == users[i].(password := password)
    ensures forall i :: 0 <= i < |users| && users[i].id != id ==> r[i] == users[i]
    ensures (forall j :: 0 <= j < |users| ==> users[j].id != id) ==> r == users
  {
    seq(|users|, i requires 0 <= i < |users| => if users[i].id == id then users[i].(password := password) else users[i])
  }

  /** In a well-formed collection every record is the one found by its own email
      and by its own identifier. */
  lemma FindsUnique(users: Users, i: nat)
    requires WellFormed(users) && i < |users|
    ensures FindByEmail(users, users[i].email) == Some(users[i])
    ensures FindById(users, users[i].id) == Some(users[i])
  {
    var e := FindByEmail(users, users[i].email);
    var d := FindById(users, users[i].id);
    assert e.Some? && d.Some?;
  }

  /** Appending a record whose identifier and email are new keeps the collection
      well formed, and the new record is found by its email and identifier. */
  lemma AppendFresh(users: Users, u: User)
    requires WellFormed(users) && u.email != ""
    requires FindByEmail(users, u.email).None? && FindById(users, u.id).None?
    ensures WellFormed(users + [u])
    ensures FindByEmail(users + [u], u.email) == Some(u)
    ensures FindById(users + [u], u.id) == Some(u)
  {
    var us := users + [u];
    assert us[|users|] == u;
    FindsUnique(us, |users|);
  }

  /** Overwriting a password keeps the collection well formed. */
  lemma SetPasswordWellFormed(users: Users, id: ObjectId, d: Digest)
    requires WellFormed(users)
    ensures WellFormed(SetPassword(users, id, d))
  {
  }

  /** After a password overwrite, a lookup by email finds the record it found
      before, with the new password when it is the record updated. */
  lemma SetPasswordFindByEmail(users: Users, id: ObjectId, d: Digest, email: string)
    requires WellFormed(users)
    ensures FindByEmail(SetPassword(users, id, d), email).None? <==> FindByEmail(users, email).None?
    ensures FindByEmail(users, email).Some? ==>
      var u := FindByEmail(users, email).value;
      FindByEmail(SetPassword(users, id, d), email) == Some(if u.id == id then u.(password := d) else u)
  {
    var us := SetPassword(users, id, d);
    SetPasswordWellFormed(users, id, d);
    var b := FindByEmail(users, email);
    if b.Some? {
      var i :| 0 <= i < |users| && users[i] == b.value;
      FindsUnique(users, i);
      FindsUnique(us, i);
    } else {
      assert forall j :: 0 <= j < |us| ==> us[j].email == users[j].email;
    }
  }

  /** After a password overwrite, a lookup by identifier finds the record it
      found before, with the new password when it is the record updated. */
  lemma SetPasswordFindById(users: Users, id: ObjectId, d: Digest, other: ObjectId)
    requires WellFormed(users)
    ensures FindById(SetPassword(users, id, d), other).None? <==> FindById(users, other).None?
    ensures FindById(users, other).Some? ==>
      FindById(SetPassword(users, id, d), other) == Some(if other == id then FindById(users, other).value.(password := d) else FindById(users, other).value)
  {
    var us := SetPassword(users, id, d);
    SetPasswordWellFormed(users, id, d);
    var b := FindById(users, other);
    if b.Some? {
      var i :| 0 <= i < |users| && users[i] == b.value;
      FindsUnique(users, i);
      FindsUnique(us, i);
    } else {
      assert forall j :: 0 <= j < |us| ==> us[j].id == users[j].id;
    }
  }

}
