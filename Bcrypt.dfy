/**
 * A stand-in for the bcrypt password hash used by the account store.
 *
 * A bcrypt hash carries its cost factor and salt next to the digest, and bcrypt's compare
 * re-derives the digest from the candidate password with that cost and salt. The digest here
 * is a plain rolling checksum: it is not one-way and it has collisions. The store's proofs use
 * one fact about it only, stated on `Hash`: a password always compares equal to its own hash.
 */
module Bcrypt {

  /** The cost factor passed to `bcrypt.hash` (lib/db/users.ts:33, :159). */
  const Cost: nat := 10

  const DigestModulus: nat := 0x1_0000_0000_0000_0000

  /** A stored hash: cost factor, salt and digest, as a bcrypt hash string encodes them. */
  datatype PasswordHash = PasswordHash(cost: nat, salt: nat, digest: nat)

  /** The digest of `password` under `cost` and `salt`. */
  function Digest(password: string, cost: nat, salt: nat): nat {
    if password == [] then (salt * 64 + cost) % DigestModulus
    else (Digest(password[..|password| - 1], cost, salt) * 131 + password[|password| - 1] as nat) % DigestModulus
  }

  /** `bcrypt.compare(password, hash)`: re-derive the digest with the hash's own cost and salt. */
  predicate Compare(password: string, h: PasswordHash) {
    Digest(password, h.cost, h.salt) == h.digest
  }

  /** `bcrypt.hash(password, 10)`; the random salt bcrypt draws is a parameter. */
  function Hash(password: string, salt: nat): (h: PasswordHash)
    ensures h.cost == Cost && h.salt == salt
    ensures Compare(password, h)
  {
    PasswordHash(Cost, salt, Digest(password, Cost, salt))
  }
}
