/** The password hashing the application borrows from werkzeug.security,
    as an injective symbolic digest.

    `generate_password_hash(pw)` draws a fresh random salt and returns a
    string that records the salt and a key-derivation digest of (salt, pw);
    `check_password_hash(h, pw)` recomputes the digest with the salt stored
    in `h` and compares. The random salt is a parameter here, and the digest
    is a constructor term: two digests are equal exactly when they were
    derived from the same salt and password, the idealisation of a
    collision-free key-derivation function. */
module Security {

  /** The digest part of a stored hash; only ever compared for equality.
      Its fields are a symbolic record of what it was derived from; the
      model never reads them, so one-wayness is not modelled. */
  datatype Digest = Kdf(salt: string, password: string)

  /** The stored `passhash` column: the salt in clear and the digest. */
  datatype PassHash = PassHash(salt: string, digest: Digest)

  function GeneratePasswordHash(password: string, salt: string): (h: PassHash)
    ensures h.salt == salt
    ensures forall attempt :: CheckPasswordHash(h, attempt) <==> attempt == password
  {
    PassHash(salt, Kdf(salt, password))
  }

  /** Re-derives the digest from the stored salt and the attempt. */
  predicate CheckPasswordHash(h: PassHash, attempt: string) {
    Kdf(h.salt, attempt) == h.digest
  }

  /** Two hashes of the same password made with different salts differ, yet
      each verifies the password: the check cannot be replaced by comparing
      against a freshly generated hash. */
  lemma SaltedHashesDiffer(password: string, salt1: string, salt2: string)
    requires salt1 != salt2
    ensures GeneratePasswordHash(password, salt1) != GeneratePasswordHash(password, salt2)
    ensures CheckPasswordHash(GeneratePasswordHash(password, salt1), password)
    ensures CheckPasswordHash(GeneratePasswordHash(password, salt2), password)
  {
  }
}
