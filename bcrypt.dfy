/**
 * The password hasher, abstracted. A digest remembers what was hashed, so
 * that `Compare` can be exact; the random salt bcrypt draws on each call is a
 * parameter, so hashing the same text twice need not give the same digest.
 */
module Bcrypt {

  datatype Digest<T> = Digest(rounds: nat, salt: nat, preimage: T)

  /** `bcrypt.hash(plain, rounds)` with the salt it happens to draw. */
  function Hash<T>(plain: T, rounds: nat, salt: nat): (d: Digest<T>)
    ensures d.rounds == rounds
    ensures Compare(plain, d)
  {
    Digest(rounds, salt, plain)
  }

  /** `bcrypt.compare(plain, digest)` */
  predicate Compare<T(==)>(plain: T, d: Digest<T>) {
    d.preimage == plain
  }

  /** A digest accepts exactly the text it was made from, whatever the salt and cost. */
  lemma CompareHash<T>(t: T, t': T, rounds: nat, salt: nat)
    ensures Compare(t, Hash(t', rounds, salt)) <==> t == t'
  {
  }

  /** Hashing is salted: two hashes of one text differ when the salts do, yet both accept it. */
  lemma HashIsSalted<T>(t: T, rounds: nat, salt: nat, salt': nat)
    requires salt != salt'
    ensures Hash(t, rounds, salt) != Hash(t, rounds, salt')
    ensures Compare(t, Hash(t, rounds, salt)) && Compare(t, Hash(t, rounds, salt'))
  {
  }
}
