/**
 * Identifiers and secrets: the 24-hex-digit ObjectId that keys every
 * document, mongoose's cast of a string to one, and bcrypt as an abstract
 * one-way hash with its compare.
 */
module Credentials {
  import opened Wrappers
  import opened Text

  predicate IsLowerHex(c: char) {
    '0' <= c <= '9' || 'a' <= c <= 'f'
  }

  predicate IsHex(c: char) {
    '0' <= c <= '9' || 'a' <= c <= 'f' || 'A' <= c <= 'F'
  }

  /** A document identifier in its canonical form: 24 lower-case hex digits. */
  type ObjectId = s: string | |s| == 24 && forall i :: 0 <= i < |s| ==> IsLowerHex(s[i])
    witness "000000000000000000000000"

  /** Casting a path parameter or token claim to an ObjectId: 24 hex digits
      in either case are accepted and name the same identifier; anything
      else is a cast error. */
  function CastObjectId(s: string): (r: Option<ObjectId>)
    ensures r.Some? <==> |s| == 24 && forall i :: 0 <= i < |s| ==> IsHex(s[i])
    ensures r.Some? ==> EqualsIgnoreCase(r.value, s)
  {
    if |s| == 24 && forall i :: 0 <= i < |s| ==> IsHex(s[i]) then
      var l := ToLower(s);
      assert forall i :: 0 <= i < |l| ==> IsLowerHex(l[i]) by {
        forall i | 0 <= i < |l| ensures IsLowerHex(l[i]) {
          assert l[i] == LowerChar(s[i]);
        }
      }
      ToLowerIsLower(s);
      Some(l)
    else None
  }

  /** Every identifier casts to itself, and a cast string names only one. */
  lemma CastCanonical(id: ObjectId, s: string)
    ensures CastObjectId(id) == Some(id)
    ensures CastObjectId(s) == Some(id) ==> EqualsIgnoreCase(s, id)
  {
    assert forall i :: 0 <= i < |id| ==> IsLowerHex(id[i]);
    assert ToLower(id) == id;
  }

  /** A bcrypt digest. The model keeps the secret it was made from so that
      compare can be stated; no record ever holds a password as a string. */
  datatype Digest = Bcrypt(secret: string)

  /** The length of a bcrypt hash string ("$2b$10$" and 53 characters). */
  const DigestLength: nat := 60

  /** bcrypt.hash(password, 10); the salt is not modelled. */
  function Hash(password: string): Digest {
    Bcrypt(password)
  }

  /** bcrypt.compare(candidate, stored): false when nothing is stored. */
  predicate Compare(candidate: string, stored: Option<Digest>) {
    stored.Some? && stored.value == Hash(candidate)
  }

  /** Hashing then comparing accepts the same password and nothing else. */
  lemma CompareHash(password: string, candidate: string)
    ensures Compare(candidate, Some(Hash(password))) <==> candidate == password
  {
  }
}
