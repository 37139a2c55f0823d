/** The bcrypt library (`bcrypt.hash`, `bcrypt.compare` of bcryptjs) as a
    one-way hash that is collision-free on what it reads: the first 72
    characters of the password, anything after them is ignored. bcryptjs counts
    72 UTF-8 bytes, which is the same only for ASCII passwords (README, the
    `Bcrypt.Hash` line under "Left out"). Salt and cost factor are not
    modelled. */
module Bcrypt {
  import opened Js

  /** bcrypt's input limit. */
  const MaxPasswordLength: nat := 72

  /** The part of a password that bcrypt reads. */
  function Significant(password: string): (s: string)
    ensures |s| <= MaxPasswordLength && s <= password
    ensures |password| <= MaxPasswordLength ==> s == password
  {
    password[..Min(|password|, MaxPasswordLength)]
  }

  /** A password digest. The model remembers the part of the password it was made
      from only so that `Compare` can be defined; no route reads it back. */
  datatype Digest = Digest(of: string)

  /** `bcrypt.hash(password, 10)`: the digest depends on the first 72 characters only. */
  function Hash(password: string): (d: Digest)
    ensures |d.of| <= MaxPasswordLength && d.of <= password
    ensures |password| <= MaxPasswordLength ==> d.of == password
  {
    Digest(Significant(password))
  }

  /** `bcrypt.compare(password, digest)`. */
  function Compare(password: string, digest: Digest): (r: bool)
    ensures r ==> digest.of <= password
    ensures |password| <= MaxPasswordLength ==> (r <==> digest.of == password)
  {
    digest == Hash(password)
  }

  /** A password matches its own digest. */
  lemma CompareHash(password: string)
    ensures Compare(password, Hash(password))
  {
  }

  /** A password that differs within its first 72 characters does not match. */
  lemma CompareOther(password: string, other: string)
    requires Significant(other) != Significant(password)
    ensures !Compare(other, Hash(password))
  {
  }

  /** Two passwords that agree on their first 72 characters have the same digest,
      so either one matches the other's. */
  lemma CompareSharedPrefix(password: string, other: string)
    requires |password| >= MaxPasswordLength && |other| >= MaxPasswordLength
    requires password[..MaxPasswordLength] == other[..MaxPasswordLength]
    ensures Compare(other, Hash(password))
  {
  }
}
