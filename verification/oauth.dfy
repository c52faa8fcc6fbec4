/**
 * routers/oauth.py: a mock OAuth 2.0 provider. Access tokens live in an
 * in-memory dict keyed by the token; the token endpoint accepts only the
 * authorization code grant (section 4.1.3 of RFC 6749), and the other
 * endpoints take the token from a `Bearer` Authorization header (section
 * 2.1 of RFC 6750). The clock and the random token generator are
 * parameters: `now` is a time in seconds and the generated strings are
 * given by the caller.
 */
module OAuth {
  import opened Wrappers
  import opened Text

  /** An `HTTPException`: its status code and detail. */
  datatype HttpError = HttpError(status: int, detail: string)

  /** The body of a token request. */
  datatype TokenRequest = TokenRequest(grantType: string, code: string, redirectUri: string, clientId: Option<string>, clientSecret: Option<string>)

  datatype TokenResponse = TokenResponse(accessToken: string, tokenType: string, expiresIn: int, refreshToken: string)

  /** A stored token: everything `token_info` holds besides the access token itself. */
  datatype TokenInfo = TokenInfo(refreshToken: string, expiresAt: int, code: string, clientId: Option<string>, userId: string)

  datatype UserInfo = UserInfo(id: string, name: string, email: string, avatarUrl: string, provider: string)

  /** The answer of `/token/validate`; the expiry time stands for its ISO text. */
  datatype Validation = Validation(valid: bool, expiresAt: int, userId: string)

  const ExpiresIn := 3600
  const BearerPrefix := "Bearer "

  const UnsupportedGrant := "不支援的 grant_type，僅支援 'authorization_code'"
  const MissingCode := "缺少 authorization code"
  const MissingHeader := "缺少 Authorization header"
  const MalformedHeader := "無效的 Authorization header 格式，應為 'Bearer <token>'"
  const InvalidHeader := "無效的 Authorization header"
  const InvalidToken := "無效的 access token"
  const ExpiredToken := "access token 已過期"
  const UnknownOnRevoke := "Token 不存在或已被撤銷"
  const Revoked := "Token 已成功撤銷"

  /** `user_id[-8:]` */
  function LastEight(s: string): (r: string)
    ensures |r| == if |s| < 8 then |s| else 8
    ensures r == s[|s| - |r|..]
  {
    if |s| < 8 then s else s[|s| - 8..]
  }

  /** The mock profile of a user. */
  function ProfileOf(userId: string): (u: UserInfo)
    ensures u.id == userId && u.email == userId + "@example.com" && u.provider == "foobar"
    ensures u.name == "測試使用者 " + LastEight(userId)
  {
    UserInfo(userId, "測試使用者 " + LastEight(userId), userId + "@example.com",
      "https://api.dicebear.com/7.x/avataaars/svg?seed=" + userId, "foobar")
  }

  /** The `get_user_info` header checks: missing or empty, then the `Bearer ` prefix; the token is the rest. */
  function BearerToken(authorization: Option<string>): (r: Result<string, HttpError>)
    ensures r.Ok? <==> authorization.Some? && StartsWith(authorization.value, BearerPrefix)
    ensures r.Ok? ==> authorization.value == BearerPrefix + r.value
    ensures r.Err? ==> r.error.status == 401
    ensures r.Err? ==> (r.error.detail == MissingHeader <==> authorization.None? || authorization.value == "")
  {
    if authorization.None? || authorization.value == "" then Err(HttpError(401, MissingHeader))
    else if !StartsWith(authorization.value, BearerPrefix) then Err(HttpError(401, MalformedHeader))
    else
      assert authorization.value == BearerPrefix + authorization.value[7..];
      Ok(authorization.value[7..])
  }

  /** The same checks in `validate_token` and `revoke_token`, with one message for both failures. */
  function BearerTokenShort(authorization: Option<string>): (r: Result<string, HttpError>)
    ensures r.Ok? <==> BearerToken(authorization).Ok?
    ensures r.Ok? ==> r.value == BearerToken(authorization).value
    ensures r.Err? ==> r.error == HttpError(401, InvalidHeader)
  {
    match BearerToken(authorization)
    case Ok(t) => Ok(t)
    case Err(_) => Err(HttpError(401, InvalidHeader))
  }

  /** `token_store` */
  class TokenStore {
    var tokens: map<string, TokenInfo>

    constructor()
      ensures tokens == map[]
    {
      tokens := map[];
    }

    /**
     * `get_access_token`: a request with another grant type or without a
     * code is refused before the store is touched; otherwise one entry,
     * keyed by the new access token, is stored with its expiry an hour away.
     */
    method GetAccessToken(req: TokenRequest, now: int, accessToken: string, refreshToken: string, userHex: string)
      returns (r: Result<TokenResponse, HttpError>)
      modifies this
      ensures req.grantType != "authorization_code" ==> r == Err(HttpError(400, UnsupportedGrant)) && tokens == old(tokens)
      ensures req.grantType == "authorization_code" && req.code == "" ==> r == Err(HttpError(400, MissingCode)) && tokens == old(tokens)
      ensures req.grantType == "authorization_code" && req.code != "" ==>
        && r == Ok(TokenResponse(accessToken, "Bearer", ExpiresIn, refreshToken))
        && tokens == old(tokens)[accessToken := TokenInfo(refreshToken, now + ExpiresIn, req.code, req.clientId, "user_" + userHex)]
    {
      if req.grantType != "authorization_code" {
        return Err(HttpError(400, UnsupportedGrant));
      }
      if req.code == "" {
        return Err(HttpError(400, MissingCode));
      }
      tokens := tokens[accessToken := TokenInfo(refreshToken, now + ExpiresIn, req.code, req.clientId, "user_" + userHex)];
      r := Ok(TokenResponse(accessToken, "Bearer", ExpiresIn, refreshToken));
    }

    /**
     * The token checks shared by `get_user_info` and `validate_token`: an
     * unknown token is refused; an expired one is deleted, then refused.
     */
    method CheckToken(token: string, now: int) returns (r: Result<TokenInfo, HttpError>)
      modifies this
      ensures token !in old(tokens) ==> r == Err(HttpError(401, InvalidToken)) && tokens == old(tokens)
      ensures token in old(tokens) && now > old(tokens)[token].expiresAt ==>
        r == Err(HttpError(401, ExpiredToken)) && tokens == old(tokens) - {token}
      ensures token in old(tokens) && now <= old(tokens)[token].expiresAt ==>
        r == Ok(old(tokens)[token]) && tokens == old(tokens)
    {
      if token !in tokens {
        return Err(HttpError(401, InvalidToken));
      }
      var info := tokens[token];
      if now > info.expiresAt {
        tokens := tokens - {token};
        return Err(HttpError(401, ExpiredToken));
      }
      r := Ok(info);
    }

    /** `get_user_info` */
    method GetUserInfo(authorization: Option<string>, now: int) returns (r: Result<UserInfo, HttpError>)
      modifies this
      ensures r == UserInfoAnswer(old(tokens), authorization, now)
      ensures tokens == StoreAfterCheck(old(tokens), BearerToken(authorization), now)
    {
      var token := BearerToken(authorization);
      if token.Err? {
        return Err(token.error);
      }
      var info := CheckToken(token.value, now);
      if info.Err? {
        return Err(info.error);
      }
      r := Ok(ProfileOf(info.value.userId));
    }

    /** `validate_token` */
    method ValidateToken(authorization: Option<string>, now: int) returns (r: Result<Validation, HttpError>)
      modifies this
      ensures r == ValidateAnswer(old(tokens), authorization, now)
      ensures tokens == StoreAfterCheck(old(tokens), BearerTokenShort(authorization), now)
    {
      var token := BearerTokenShort(authorization);
      if token.Err? {
        return Err(token.error);
      }
      var info := CheckToken(token.value, now);
      if info.Err? {
        return Err(info.error);
      }
      r := Ok(Validation(true, info.value.expiresAt, info.value.userId));
    }

    /** `revoke_token`: a stored token is deleted; any other one is a 404. Expiry is not checked. */
    method RevokeToken(authorization: Option<string>) returns (r: Result<string, HttpError>)
      modifies this
      ensures BearerTokenShort(authorization).Err? ==> r == Err(HttpError(401, InvalidHeader)) && tokens == old(tokens)
      ensures BearerTokenShort(authorization).Ok? ==>
        var t := BearerTokenShort(authorization).value;
        && (t in old(tokens) ==> r == Ok(Revoked) && tokens == old(tokens) - {t})
        && (t !in old(tokens) ==> r == Err(HttpError(404, UnknownOnRevoke)) && tokens == old(tokens))
    {
      var token := BearerTokenShort(authorization);
      if token.Err? {
        return Err(token.error);
      }
      if token.value in tokens {
        tokens := tokens - {token.value};
        return Ok(Revoked);
      }
      r := Err(HttpError(404, UnknownOnRevoke));
    }
  }

  /** The store after the header and token checks: only an expired token leaves it. */
  function StoreAfterCheck(tokens: map<string, TokenInfo>, token: Result<string, HttpError>, now: int): (r: map<string, TokenInfo>)
    ensures r.Keys <= tokens.Keys
    ensures forall t :: t in r ==> r[t] == tokens[t]
    ensures token.Ok? && token.value in tokens && now > tokens[token.value].expiresAt ==> token.value !in r
  {
    if token.Ok? && token.value in tokens && now > tokens[token.value].expiresAt then tokens - {token.value} else tokens
  }

  /** The token checks as a value: the stored entry of a live token, or the 401 that refuses it. */
  function TokenAnswer(tokens: map<string, TokenInfo>, token: string, now: int): (r: Result<TokenInfo, HttpError>)
    ensures r.Ok? <==> token in tokens && now <= tokens[token].expiresAt
    ensures r.Ok? ==> r.value == tokens[token]
    ensures r.Err? ==> r.error.status == 401
  {
    if token !in tokens then Err(HttpError(401, InvalidToken))
    else if now > tokens[token].expiresAt then Err(HttpError(401, ExpiredToken))
    else Ok(tokens[token])
  }

  function UserInfoAnswer(tokens: map<string, TokenInfo>, authorization: Option<string>, now: int): (r: Result<UserInfo, HttpError>)
  {
    match BearerToken(authorization)
    case Err(e) => Err(e)
    case Ok(t) =>
      match TokenAnswer(tokens, t, now)
      case Err(e) => Err(e)
      case Ok(info) => Ok(ProfileOf(info.userId))
  }

  function ValidateAnswer(tokens: map<string, TokenInfo>, authorization: Option<string>, now: int): (r: Result<Validation, HttpError>)
  {
    match BearerTokenShort(authorization)
    case Err(e) => Err(e)
    case Ok(t) =>
      match TokenAnswer(tokens, t, now)
      case Err(e) => Err(e)
      case Ok(info) => Ok(Validation(true, info.expiresAt, info.userId))
  }

  /**
   * A token just issued identifies its user through `Bearer <token>` for
   * the whole hour it lives, and is refused afterwards.
   */
  lemma IssuedTokenIdentifiesUser(tokens: map<string, TokenInfo>, req: TokenRequest, issuedAt: int, now: int,
                                  accessToken: string, refreshToken: string, userHex: string)
    requires req.code != ""
    ensures var after := tokens[accessToken := TokenInfo(refreshToken, issuedAt + ExpiresIn, req.code, req.clientId, "user_" + userHex)];
      && (now <= issuedAt + ExpiresIn ==>
           && UserInfoAnswer(after, Some(BearerPrefix + accessToken), now) == Ok(ProfileOf("user_" + userHex))
           && ValidateAnswer(after, Some(BearerPrefix + accessToken), now) == Ok(Validation(true, issuedAt + ExpiresIn, "user_" + userHex)))
      && (now > issuedAt + ExpiresIn ==>
           UserInfoAnswer(after, Some(BearerPrefix + accessToken), now) == Err(HttpError(401, ExpiredToken)))
  {
    var h := BearerPrefix + accessToken;
    assert h[..7] == BearerPrefix && h[7..] == accessToken;
  }

  /** After a revoke the token is refused everywhere, and revoking it again is a 404. */
  lemma RevokedTokenRefused(tokens: map<string, TokenInfo>, accessToken: string, now: int)
    requires accessToken in tokens
    ensures var after := tokens - {accessToken};
      var h := Some(BearerPrefix + accessToken);
      && UserInfoAnswer(after, h, now) == Err(HttpError(401, InvalidToken))
      && ValidateAnswer(after, h, now) == Err(HttpError(401, InvalidToken))
      && BearerTokenShort(h) == Ok(accessToken) && accessToken !in after
  {
    var h := BearerPrefix + accessToken;
    assert h[..7] == BearerPrefix && h[7..] == accessToken;
  }

  /** A header without the `Bearer ` prefix never reaches the store, whatever it holds. */
  lemma MalformedHeaderRefused(tokens: map<string, TokenInfo>, authorization: string, now: int)
    requires authorization != "" && !StartsWith(authorization, BearerPrefix)
    ensures UserInfoAnswer(tokens, Some(authorization), now) == Err(HttpError(401, MalformedHeader))
    ensures ValidateAnswer(tokens, Some(authorization), now) == Err(HttpError(401, InvalidHeader))
    ensures StoreAfterCheck(tokens, BearerToken(Some(authorization)), now) == tokens
  {
  }
}
