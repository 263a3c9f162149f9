/** The password hashing the registration and password routes use, as a model:
    a digest remembers its salt and the part of the password bcrypt reads (at
    most 72 bytes; this model counts characters), so that comparing a candidate
    against a digest succeeds exactly when the candidate agrees with the hashed
    password on that part. The salt is what the real function draws at random. */
module Bcrypt {

  const MaxKeyLength: nat := 72

  datatype Digest = Digest(salt: nat, key: string)

  /** The part of a password that bcrypt reads. */
  function Truncated(password: string): (k: string)
    ensures |k| <= MaxKeyLength
    ensures |password| <= MaxKeyLength ==> k == password
  {
    if |password| <= MaxKeyLength then password else password[..MaxKeyLength]
  }

  /** bcrypt.hash(password, rounds) with the salt it drew. */
  function Hash(password: string, salt: nat): (d: Digest)
    ensures d.salt == salt && |d.key| <= MaxKeyLength
  {
    Digest(salt, Truncated(password))
  }

  /** bcrypt.compare(candidate, digest). */
  predicate Compare(candidate: string, digest: Digest)
    ensures |candidate| <= MaxKeyLength ==> (Compare(candidate, digest) <==> candidate == digest.key)
    ensures |digest.key| > MaxKeyLength ==> !Compare(candidate, digest)
  {
    Truncated(candidate) == digest.key
  }

  /** A password verifies against its own hash, whatever the salt. */
  lemma HashThenCompare(password: string, salt: nat)
    ensures Compare(password, Hash(password, salt))
  {
  }

  /** A candidate verifies against the hash of a password exactly when the two
      agree on their first 72 characters. */
  lemma CompareHashIff(candidate: string, password: string, salt: nat)
    ensures Compare(candidate, Hash(password, salt)) <==> Truncated(candidate) == Truncated(password)
  {
  }

  /** Two different passwords of at most 72 characters never verify against each other's hash. */
  lemma ShortPasswordsDistinguished(candidate: string, password: string, salt: nat)
    requires |candidate| <= MaxKeyLength && |password| <= MaxKeyLength
    requires candidate != password
    ensures !Compare(candidate, Hash(password, salt))
  {
  }
}
