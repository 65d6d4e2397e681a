/**
 The password hasher. A digest records the salt it was made with and a
 one-way image of (salt, password); verification recomputes the image with
 the embedded salt. The image is a symbolic term: nothing in the model ever
 takes it apart, it is only compared with a recomputed image.
 */
module Hashing {

  /** A salt is drawn fresh for every hash; it is an input of the model. */
  type Salt = nat

  datatype Image = Stretched(salt: Salt, password: string)

  datatype Digest = Digest(salt: Salt, image: Image)

  function Stretch(salt: Salt, password: string): Image {
    Stretched(salt, password)
  }

  /** bcrypt.hash with a given salt. */
  function Hash(salt: Salt, password: string): (d: Digest)
    ensures d.salt == salt
    ensures forall p :: Matches(p, d) <==> p == password
  {
    Digest(salt, Stretch(salt, password))
  }

  /** bcrypt.compare: recompute with the digest's own salt. */
  predicate Matches(password: string, d: Digest) {
    d.image == Stretch(d.salt, password)
  }

  /** Comparing is hashing again with the digest's own salt. */
  lemma CompareRecomputes(password: string, d: Digest)
    ensures Matches(password, d) <==> d == Hash(d.salt, password)
  {
  }

  /** Two hashes of one password under different salts differ, yet both verify. */
  lemma SaltedHashesDiffer(s1: Salt, s2: Salt, password: string)
    requires s1 != s2
    ensures Hash(s1, password) != Hash(s2, password)
    ensures Matches(password, Hash(s1, password)) && Matches(password, Hash(s2, password))
  {
  }

}
