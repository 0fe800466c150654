/**
 The bearer-token extractor `AuthenticatedUser::from_request_parts`.

 The request's headers are a map from lower-case header names to the raw
 bytes of the (first) value, since HTTP header names are case-insensitive
 and `headers.get("Authorization")` finds the value under any spelling.
 The checks run in order: the header is present, its value is visible
 ASCII, it starts with "Bearer ", and the rest equals the configured
 token; the first check that fails decides the rejection.
 */
module Extractors {
  import opened Types

  newtype byte = x: int | 0 <= x < 256

  type HeaderMap = map<string, seq<byte>>

  const AuthorizationHeader := "authorization"
  const BearerPrefix := "Bearer "
  const Unauthorized := 401

  datatype Config = Config(secretToken: string, serverAddress: string, workersCount: nat)

  datatype AuthResult = AuthResult(userId: i32)
  datatype AuthenticatedUser = AuthenticatedUser(auth: AuthResult)

  /** The extractor's rejection `(StatusCode, &'static str)`. */
  datatype Rejection = Rejection(status: int, message: string)

  datatype Extracted = Authenticated(user: AuthenticatedUser) | Rejected(rejection: Rejection)

  /** The bytes `HeaderValue::to_str` accepts: tab and 0x20 through 0x7E. */
  predicate IsVisibleAscii(b: byte)
  {
    b == 9 || 32 <= b < 127
  }

  /** `HeaderValue::to_str`: the value as text when every byte is visible ASCII. */
  function ToStr(v: seq<byte>): (r: Option<string>)
    ensures r.Some? <==> forall i | 0 <= i < |v| :: IsVisibleAscii(v[i])
    ensures r.Some? ==> |r.value| == |v| && forall i | 0 <= i < |v| :: r.value[i] as int == v[i] as int
  {
    if forall i | 0 <= i < |v| :: IsVisibleAscii(v[i]) then
      Some(seq(|v|, i requires 0 <= i < |v| => v[i] as int as char))
    else
      None
  }

  /** `str::strip_prefix`: what follows `prefix`, when `s` starts with it. */
  function StripPrefix(s: string, prefix: string): (r: Option<string>)
    ensures r.Some? <==> prefix <= s
    ensures r.Some? ==> s == prefix + r.value
  {
    if prefix <= s then
      assert s == prefix + s[|prefix|..];
      Some(s[|prefix|..])
    else
      None
  }

  /**
   The chain of checks of `from_request_parts`, against the token
   `expected`. Every rejection is a 401; the request is accepted, as user
   42, exactly when the header's text is "Bearer " followed by `expected`.
   */
  function CheckBearer(headers: HeaderMap, expected: string): (r: Extracted)
    ensures r.Rejected? ==> r.rejection.status == 401
    ensures r.Authenticated? <==>
              AuthorizationHeader in headers && ToStr(headers[AuthorizationHeader]) == Some(BearerPrefix + expected)
    ensures r.Authenticated? ==> r.user == AuthenticatedUser(AuthResult(42))
  {
    if AuthorizationHeader !in headers then
      Rejected(Rejection(Unauthorized, "Missing token"))
    else
      match ToStr(headers[AuthorizationHeader])
      case None => Rejected(Rejection(Unauthorized, "Invalid token"))
      case Some(authHeader) =>
        match StripPrefix(authHeader, BearerPrefix)
        case None => Rejected(Rejection(Unauthorized, "Invalid token format"))
        case Some(token) =>
          if token != expected then
            Rejected(Rejection(Unauthorized, "Invalid token"))
          else
            Authenticated(AuthenticatedUser(AuthResult(42)))
  }

  /**
   The order of the checks: presence, then visible ASCII, then the
   prefix, then the token; each failure has its own message.
   */
  lemma {:induction false} CheckOrder(headers: HeaderMap, expected: string)
    ensures AuthorizationHeader !in headers ==>
              CheckBearer(headers, expected) == Rejected(Rejection(401, "Missing token"))
    ensures AuthorizationHeader in headers && ToStr(headers[AuthorizationHeader]).None? ==>
              CheckBearer(headers, expected) == Rejected(Rejection(401, "Invalid token"))
    ensures AuthorizationHeader in headers && ToStr(headers[AuthorizationHeader]).Some?
            && !(BearerPrefix <= ToStr(headers[AuthorizationHeader]).value) ==>
              CheckBearer(headers, expected) == Rejected(Rejection(401, "Invalid token format"))
    ensures AuthorizationHeader in headers && ToStr(headers[AuthorizationHeader]).Some?
            && BearerPrefix <= ToStr(headers[AuthorizationHeader]).value
            && ToStr(headers[AuthorizationHeader]).value != BearerPrefix + expected ==>
              CheckBearer(headers, expected) == Rejected(Rejection(401, "Invalid token"))
  {
  }

  /** `from_request_parts` as written: the token is compared with `server_address`. */
  function FromRequestParts(headers: HeaderMap, cfg: Config): (r: Extracted)
    ensures r.Rejected? ==> r.rejection.status == 401
    ensures r.Authenticated? <==>
              AuthorizationHeader in headers && ToStr(headers[AuthorizationHeader]) == Some(BearerPrefix + cfg.serverAddress)
  {
    CheckBearer(headers, cfg.serverAddress)
  }

  /** The check as evidently intended: the token is compared with `secret_token`. */
  function FromRequestPartsIntended(headers: HeaderMap, cfg: Config): (r: Extracted)
    ensures r.Rejected? ==> r.rejection.status == 401
    ensures r.Authenticated? <==>
              AuthorizationHeader in headers && ToStr(headers[AuthorizationHeader]) == Some(BearerPrefix + cfg.secretToken)
  {
    CheckBearer(headers, cfg.secretToken)
  }

  /** The bytes of a text whose characters are all below 256. */
  function Latin1(s: string): (v: seq<byte>)
    requires forall i | 0 <= i < |s| :: s[i] as int < 256
    ensures |v| == |s| && forall i | 0 <= i < |s| :: v[i] as int == s[i] as int
  {
    seq(|s|, i requires 0 <= i < |s| => s[i] as int as byte)
  }

  /** A header holding "Bearer " and a visible-ASCII token reads back as that text. */
  lemma {:induction false} ToStrLatin1(s: string)
    requires forall i | 0 <= i < |s| :: 32 <= s[i] as int < 127
    ensures ToStr(Latin1(s)) == Some(s)
  {
    var v := Latin1(s);
    assert forall i | 0 <= i < |v| :: IsVisibleAscii(v[i]);
    var t := ToStr(v).value;
    assert |t| == |s|;
    forall i | 0 <= i < |s| ensures t[i] == s[i] {
      assert t[i] as int == v[i] as int == s[i] as int;
    }
    assert t == s;
  }

  /**
   With a secret token that differs from the server address, the check
   as written accepts "Bearer <server address>" and rejects
   "Bearer <secret token>"; the intended check does the opposite.
   */
  lemma ServerAddressAcceptedInsteadOfSecret()
    ensures var cfg := Config("s3cret", "0.0.0.0:80", 4);
            var byAddress := map[AuthorizationHeader := Latin1("Bearer 0.0.0.0:80")];
            var bySecret := map[AuthorizationHeader := Latin1("Bearer s3cret")];
            && FromRequestParts(byAddress, cfg).Authenticated?
            && FromRequestParts(bySecret, cfg) == Rejected(Rejection(401, "Invalid token"))
            && FromRequestPartsIntended(bySecret, cfg).Authenticated?
            && FromRequestPartsIntended(byAddress, cfg) == Rejected(Rejection(401, "Invalid token"))
  {
    ToStrLatin1("Bearer 0.0.0.0:80");
    ToStrLatin1("Bearer s3cret");
    assert "Bearer 0.0.0.0:80" == BearerPrefix + "0.0.0.0:80";
    assert "Bearer s3cret" == BearerPrefix + "s3cret";
    assert StripPrefix("Bearer s3cret", BearerPrefix) == Some("s3cret");
    assert StripPrefix("Bearer 0.0.0.0:80", BearerPrefix) == Some("0.0.0.0:80");
  }
}
