/**
 * Server-side token helpers (lib/auth.ts): the credential of an
 * `Authorization: Bearer <token>` header (section 2.1 of RFC 6750), the role
 * test, and the total wrapper around the signature check.
 */
module BearerAuth {
  import opened Wrappers
  import Strings

  /** The scheme and its single separating space, matched case-sensitively. */
  const BearerPrefix: string := "Bearer "
  const AdminRole: string := "admin"

  datatype TokenPayload = TokenPayload(userId: string, email: string, role: string)

  /** `getTokenFromRequest`; `header` is the `authorization` header, `None` when absent. */
  function TokenFromHeader(header: Option<string>): (token: Option<string>)
    ensures token.Some? <==> header.Some? && Strings.StartsWith(header.value, BearerPrefix)
    ensures token.Some? ==> BearerPrefix + token.value == header.value
  {
    if header.Some? && Strings.StartsWith(header.value, BearerPrefix) then
      assert header.value == BearerPrefix + header.value[|BearerPrefix|..];
      Some(header.value[|BearerPrefix|..])
    else None
  }

  /** Any credential put behind the prefix is extracted unchanged. */
  lemma PrefixedTokenExtracted(token: string)
    ensures TokenFromHeader(Some(BearerPrefix + token)) == Some(token)
  {
    assert (BearerPrefix + token)[..|BearerPrefix|] == BearerPrefix;
    assert (BearerPrefix + token)[|BearerPrefix|..] == token;
  }

  /**
   * No header, a lower-case scheme, or the scheme without its space give no
   * token, although section 2.1 of RFC 7235 makes scheme names
   * case-insensitive; a second space stays part of the token.
   */
  lemma NarrowSchemeMatching()
    ensures TokenFromHeader(None) == None
    ensures TokenFromHeader(Some("bearer abc")) == None
    ensures TokenFromHeader(Some("Bearer")) == None
    ensures TokenFromHeader(Some("Bearer  abc")) == Some(" abc")
  {
    assert "bearer abc"[..7] != BearerPrefix by {
      assert "bearer abc"[0] == 'b';
    }
    PrefixedTokenExtracted(" abc");
    assert BearerPrefix + " abc" == "Bearer  abc";
  }

  /** `isAdmin`: `payload?.role === "admin"`, false for `null`. */
  function IsAdmin(payload: Option<TokenPayload>): (b: bool)
    ensures b <==> payload.Some? && payload.value.role == AdminRole
    ensures payload.None? ==> !b
  {
    match payload
    case None => false
    case Some(p) => p.role == AdminRole
  }

  /** What `jwt.verify` does for a token: returns the decoded payload, or throws. */
  datatype Verification = Decoded(payload: TokenPayload) | Threw(error: string)

  /** `verifyToken`: never throws; a thrown verification becomes `null`. */
  function VerifyToken(token: string, verify: string -> Verification): (r: Option<TokenPayload>)
    ensures r.Some? <==> verify(token).Decoded?
    ensures r.Some? ==> r.value == verify(token).payload
  {
    match verify(token)
    case Decoded(p) => Some(p)
    case Threw(_) => None
  }
}
