/**
 * The claims carried by a session token and the local decision
 * `AUTH.decodeJWT` makes about a token: malformed, expired, or readable.
 */
module Claims {
  import opened Wrappers
  import opened Strings
  import opened Base64Url

  /** The decoded middle segment; a field is None when the JSON object lacks it. */
  datatype Payload = Payload(
    username: Option<string>,
    role: Option<string>,
    permissions: Option<seq<string>>,
    exp: Option<int>)

  /** What the local decoding concludes about a token. */
  datatype Decoded = Malformed | Expired | Claims(payload: Payload)

  /** `payload.exp && payload.exp < now`: 0 and a missing claim are falsy. */
  predicate IsExpired(p: Payload, now: int)
  {
    p.exp.Some? && p.exp.value != 0 && p.exp.value < now
  }

  /**
   * The decision inside `decodeJWT`. `decode` stands for `atob` followed by
   * `JSON.parse`, None where either throws.
   */
  function ParseClaims(token: string, now: int, decode: string -> Option<Payload>): Decoded
  {
    var parts := Split(token, '.');
    if |parts| != 3 then Malformed
    else match decode(Normalised(parts[1]))
      case None => Malformed
      case Some(p) => if IsExpired(p, now) then Expired else Claims(p)
  }

  /** A token has the three segments decodeJWT demands exactly when it holds two dots. */
  lemma ThreeSegments(token: string)
    ensures |Split(token, '.')| == 3 <==> multiset(token)['.'] == 2
  {
    SplitCount(token, '.');
  }

  /** Only a token with exactly two dots whose middle segment decodes is ever read. */
  lemma ReadableNeedsTwoDots(token: string, now: int, decode: string -> Option<Payload>)
    requires ParseClaims(token, now, decode) != Malformed
    ensures multiset(token)['.'] == 2
    ensures decode(Normalised(Split(token, '.')[1])).Some?
  {
    ThreeSegments(token);
  }

  /** A token with a dot count other than two is malformed whatever its content. */
  lemma WrongDotCountIsMalformed(token: string, now: int, decode: string -> Option<Payload>)
    requires multiset(token)['.'] != 2
    ensures ParseClaims(token, now, decode) == Malformed
  {
    ThreeSegments(token);
  }

  /**
   * Expiry is strict and needs a truthy claim: a payload expiring at now,
   * with exp 0 or with no exp is returned as it is.
   */
  lemma ExpiryBoundary(token: string, now: int, decode: string -> Option<Payload>, p: Payload)
    requires |Split(token, '.')| == 3 && decode(Normalised(Split(token, '.')[1])) == Some(p)
    ensures ParseClaims(token, now, decode) == Expired <==> p.exp.Some? && p.exp.value != 0 && p.exp.value < now
    ensures p.exp == None || p.exp == Some(0) || p.exp == Some(now) ==> ParseClaims(token, now, decode) == Claims(p)
  {
  }

  /** Once expired, a token stays expired; a token readable later was readable earlier. */
  lemma ExpiryIsMonotone(token: string, now: int, later: int, decode: string -> Option<Payload>)
    requires now <= later
    ensures ParseClaims(token, now, decode) == Expired ==> ParseClaims(token, later, decode) == Expired
    ensures ParseClaims(token, later, decode).Claims? ==> ParseClaims(token, now, decode) == ParseClaims(token, later, decode)
  {
  }
}
