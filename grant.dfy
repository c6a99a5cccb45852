/**
  Chat capability grants: JSON Web Tokens (RFC 7519) MAC'd with HMAC SHA-256 ("HS256",
  section 3.2 of RFC 7518), modelled at the level of the claims of section 4.1 of RFC 7519.
  Serialisation and MAC are an abstract codec; only its soundness is assumed, as a hypothesis.
 */
module Grant {
  import opened Wrappers
  import opened Js
  import opened Text

  const Issuer := "cobuild-chat"
  const Audience := "cobuild-chat"
  const TtlSeconds := 60 * 15
  const Algorithm := "HS256"

  /** The protected header. */
  datatype JoseHeader = JoseHeader(alg: string, typ: string)

  /** The registered claims the grant sets, plus its own `cid` and `perm`; absent claims are `Undefined`. */
  datatype Claims = Claims(
    cid: Value, perm: Value, sub: Value, iss: Value, aud: Value, iat: Value, exp: Value, nbf: Value)

  /**
    The token library: `sign` serialises and MACs header and claims under a secret; `decode`
    gives back header and claims of a well-formed token whose MAC checks under the secret.
   */
  datatype JwtCodec = JwtCodec(
    sign: (JoseHeader, Claims, string) -> string,
    decode: (string, string) -> Option<(JoseHeader, Claims)>)

  /** A verifying decoder accepts what the signer produced with the same secret, unchanged. */
  ghost predicate Sound(codec: JwtCodec) {
    forall h, c, k :: codec.decode(codec.sign(h, c, k), k) == Some((h, c))
  }

  /** What `verifyChatGrant` returns. */
  datatype GrantPayload = GrantPayload(cid: string, sub: string)

  /** Seconds since the epoch, `Math.floor(Date.now() / 1000)`. */
  function EpochSeconds(nowMs: nat): nat {
    nowMs / 1000
  }

  /** `signChatGrant`: cid, perm "send", the lower-cased subject, issuer, audience, iat and exp. */
  function GrantClaims(chatId: string, userAddress: string, nowMs: nat): (c: Claims)
    ensures c.cid == Str(chatId) && c.perm == Str("send") && c.sub == Str(Lower(userAddress))
    ensures c.iss == Str(Issuer) && c.aud == Str(Audience) && c.nbf == Undefined
    ensures c.iat == Num(EpochSeconds(nowMs)) && c.exp == Num(EpochSeconds(nowMs) + TtlSeconds)
  {
    var now := EpochSeconds(nowMs);
    Claims(Str(chatId), Str("send"), Str(Lower(userAddress)), Str(Issuer), Str(Audience),
      Num(now), Num(now + TtlSeconds), Undefined)
  }

  function SignChatGrant(codec: JwtCodec, secret: string, chatId: string, userAddress: string, nowMs: nat): string {
    codec.sign(JoseHeader(Algorithm, "JWT"), GrantClaims(chatId, userAddress, nowMs), secret)
  }

  /** The audience claim names this audience: equal to it, or an array that contains it. */
  predicate AudienceMatches(aud: Value) {
    aud == Str(Audience) || (aud.Arr? && Str(Audience) in aud.elems)
  }

  /** A time claim is either absent or a number. */
  predicate TimeClaimWellTyped(v: Value) {
    v.Undefined? || v.Num?
  }

  /**
    The library's claim-set checks with the options the verifier passes: the issuer and audience,
    numeric `iat`/`exp`/`nbf` where present, an `exp` still in the future and an `nbf` not in it.
   */
  predicate ClaimsAccepted(c: Claims, nowSeconds: int) {
    && c.iss == Str(Issuer)
    && AudienceMatches(c.aud)
    && TimeClaimWellTyped(c.iat) && TimeClaimWellTyped(c.exp) && TimeClaimWellTyped(c.nbf)
    && (c.exp.Num? ==> nowSeconds < c.exp.n)
    && (c.nbf.Num? ==> c.nbf.n <= nowSeconds)
  }

  /**
    `verifyChatGrant`: null for anything the library rejects (bad format or MAC, another algorithm,
    a wrong issuer or audience, expiry), for a permission other than "send", and for a non-string
    cid or sub; otherwise the grant's cid and sub.
   */
  function VerifyChatGrant(codec: JwtCodec, secret: string, token: string, nowMs: nat): (r: Option<GrantPayload>)
    ensures r.Some? <==>
      && codec.decode(token, secret).Some?
      && codec.decode(token, secret).value.0.alg == Algorithm
      && ClaimsAccepted(codec.decode(token, secret).value.1, EpochSeconds(nowMs))
      && codec.decode(token, secret).value.1.perm == Str("send")
      && codec.decode(token, secret).value.1.cid.Str?
      && codec.decode(token, secret).value.1.sub.Str?
    ensures r.Some? ==>
      Str(r.value.cid) == codec.decode(token, secret).value.1.cid
      && Str(r.value.sub) == codec.decode(token, secret).value.1.sub
  {
    match codec.decode(token, secret)
    case None => None
    case Some((header, claims)) =>
      if header.alg != Algorithm then None
      else if !ClaimsAccepted(claims, EpochSeconds(nowMs)) then None
      else if claims.perm != Str("send") then None
      else if !claims.cid.Str? || !claims.sub.Str? then None
      else Some(GrantPayload(claims.cid.s, claims.sub.s))
  }

  /** A grant verifies, as issued, for as long as its 900 seconds have not run out. */
  lemma GrantRoundTrip(codec: JwtCodec, secret: string, chatId: string, userAddress: string, signedAt: nat, checkedAt: nat)
    requires Sound(codec)
    requires signedAt <= checkedAt
    requires EpochSeconds(checkedAt) < EpochSeconds(signedAt) + TtlSeconds
    ensures VerifyChatGrant(codec, secret, SignChatGrant(codec, secret, chatId, userAddress, signedAt), checkedAt)
         == Some(GrantPayload(chatId, Lower(userAddress)))
  {
    var claims := GrantClaims(chatId, userAddress, signedAt);
    assert codec.decode(codec.sign(JoseHeader(Algorithm, "JWT"), claims, secret), secret)
        == Some((JoseHeader(Algorithm, "JWT"), claims));
  }

  /** Once the second `iat + 900` is reached the same grant no longer verifies. */
  lemma GrantExpires(codec: JwtCodec, secret: string, chatId: string, userAddress: string, signedAt: nat, checkedAt: nat)
    requires Sound(codec)
    requires EpochSeconds(checkedAt) >= EpochSeconds(signedAt) + TtlSeconds
    ensures VerifyChatGrant(codec, secret, SignChatGrant(codec, secret, chatId, userAddress, signedAt), checkedAt) == None
  {
    var claims := GrantClaims(chatId, userAddress, signedAt);
    assert codec.decode(codec.sign(JoseHeader(Algorithm, "JWT"), claims, secret), secret)
        == Some((JoseHeader(Algorithm, "JWT"), claims));
  }

  /** A token signed with a permission other than "send" never verifies, whatever its other claims. */
  lemma OtherPermissionRejected(codec: JwtCodec, secret: string, h: JoseHeader, c: Claims, nowMs: nat)
    requires Sound(codec)
    requires c.perm != Str("send")
    ensures VerifyChatGrant(codec, secret, codec.sign(h, c, secret), nowMs) == None
  {
    assert codec.decode(codec.sign(h, c, secret), secret) == Some((h, c));
  }

  /** A token without a subject never verifies, even when every library check passes. */
  lemma MissingSubjectRejected(codec: JwtCodec, secret: string, h: JoseHeader, c: Claims, nowMs: nat)
    requires Sound(codec)
    requires c.sub == Undefined
    ensures VerifyChatGrant(codec, secret, codec.sign(h, c, secret), nowMs) == None
  {
    assert codec.decode(codec.sign(h, c, secret), secret) == Some((h, c));
  }

  /** A token whose header names another algorithm is refused. */
  lemma OtherAlgorithmRejected(codec: JwtCodec, secret: string, h: JoseHeader, c: Claims, nowMs: nat)
    requires Sound(codec)
    requires h.alg != Algorithm
    ensures VerifyChatGrant(codec, secret, codec.sign(h, c, secret), nowMs) == None
  {
    assert codec.decode(codec.sign(h, c, secret), secret) == Some((h, c));
  }
}
