/**
 * An ideal model of the bcrypt hashing library the controller calls
 * (`bcrypt.hash(password, 10)` and `bcrypt.compare(password, hash)`).
 *
 * A digest is a value of its own type, so a password field that holds a
 * `Digest` can never hold a plaintext string.  The model records the preimage
 * the digest commits to, which is what lets `Compare` be defined; the
 * cryptography itself (salting rounds, collision resistance) is not modelled:
 * the digest is treated as collision-free.
 */
module Bcrypt {

  /** The cost factor the registration handler passes to `bcrypt.hash`. */
  const SaltRounds: nat := 10

  datatype Digest = Digest(rounds: nat, salt: nat, preimage: string)

  /** `bcrypt.hash(plain, rounds)`; the random salt is a parameter. */
  function Hash(plain: string, rounds: nat, salt: nat): (d: Digest)
    ensures Compare(plain, d)
    ensures d.rounds == rounds
  {
    Digest(rounds, salt, plain)
  }

  /** `bcrypt.compare(plain, digest)`. */
  predicate Compare(plain: string, d: Digest)
  {
    d.preimage == plain
  }

  /** Only the hashed password verifies against a digest, whatever the salt. */
  lemma CompareAcceptsOnlyThePassword(plain: string, guess: string, rounds: nat, salt: nat)
    ensures Compare(guess, Hash(plain, rounds, salt)) <==> guess == plain
  {
  }
}
