/** OAuth (internal/auth/oauth.go): verification of provider tokens. The
    HTTP replies of Google, Facebook and the Auth0 key set, base64 decoding
    and the JWT library's parse and signature check are foreign; their
    outcomes are inputs here. What is modelled is the code around them:
    provider dispatch, the Apple token shape and padding, the JWK exponent
    fold, Auth0 key selection and the issuer and audience checks. */
module OAuth {
  import opened Wrappers
  import Strs

  /** The identity a provider vouches for. */
  datatype OAuthUserInfo = OAuthUserInfo(id: string, email: string, name: string)

  // -------------------------------------------------- google and facebook

  /** What the provider's user-info endpoint gave back. */
  datatype InfoReply =
    | Unreachable
    | BadStatus
    | Unreadable
    | Unparsable
    | Info(id: string, email: string, name: string)

  /** The shared shape of VerifyGoogleToken and VerifyFacebookToken; `who`
      is the provider name used in the error texts. */
  function VerifyInfoReply(reply: InfoReply, who: string): (r: Result<OAuthUserInfo>)
    ensures r.Ok? <==> reply.Info? && reply.id != "" && reply.email != ""
    ensures r.Ok? ==> r.value == OAuthUserInfo(reply.id, reply.email, reply.name)
    ensures reply.Info? && (reply.id == "" || reply.email == "") ==> r == Err("invalid user info from " + who)
  {
    match reply
    case Unreachable => Err("failed to verify " + who + " token")
    case BadStatus => Err("invalid " + who + " token")
    case Unreadable => Err("failed to read response")
    case Unparsable => Err("failed to parse user info")
    case Info(id, email, name) =>
      if id == "" || email == "" then Err("invalid user info from " + who)
      else Ok(OAuthUserInfo(id, email, name))
  }

  function VerifyGoogleToken(reply: InfoReply): (r: Result<OAuthUserInfo>)
    ensures r.Ok? <==> reply.Info? && reply.id != "" && reply.email != ""
    ensures r.Ok? ==> r.value.id == reply.id && r.value.email == reply.email
  {
    VerifyInfoReply(reply, "Google")
  }

  function VerifyFacebookToken(reply: InfoReply): (r: Result<OAuthUserInfo>)
    ensures r.Ok? <==> reply.Info? && reply.id != "" && reply.email != ""
    ensures r.Ok? ==> r.value.id == reply.id && r.value.email == reply.email
  {
    VerifyInfoReply(reply, "Facebook")
  }

  // --------------------------------------------------------------- apple

  /** The base64 padding: '=' up to the next multiple of four. */
  function Pad(payload: string): (p: string)
    ensures |p| % 4 == 0
    ensures |payload| <= |p| < |payload| + 4 && p[..|payload|] == payload
    ensures forall k :: |payload| <= k < |p| ==> p[k] == '='
    ensures |payload| % 4 == 0 ==> p == payload
  {
    if |payload| % 4 != 0 then payload + Strs.Repeat("=", 4 - |payload| % 4) else payload
  }

  const ApplePlaceholder: OAuthUserInfo := OAuthUserInfo("apple_user_id", "user@example.com", "Apple User")

  /** VerifyAppleToken: a token of three '.'-separated parts yields the fixed
      placeholder identity (no signature or claim is read); anything else
      is refused. */
  function VerifyAppleToken(idToken: string): (r: Result<OAuthUserInfo>)
    ensures r.Ok? <==> |Strs.Split(idToken, '.')| == 3
    ensures r.Ok? ==> r.value == ApplePlaceholder
    ensures r.Err? ==> r.msg == "invalid Apple token format"
  {
    var parts := Strs.Split(idToken, '.');
    if |parts| != 3 then Err("invalid Apple token format")
    else
      var _ := Pad(parts[1]);
      Ok(ApplePlaceholder)
  }

  /** Any three dot-free parts joined with dots make an accepted token. */
  lemma AppleAcceptsThreeParts(h: string, p: string, s: string)
    requires '.' !in h && '.' !in p && '.' !in s
    ensures VerifyAppleToken(h + "." + p + "." + s) == Ok(ApplePlaceholder)
  {
    Strs.SplitOfJoined(h, p, '.');
    assert Strs.Count(h + "." + p, '.') == 1 by {
      Strs.CountAppend(h, ".", '.');
      Strs.CountAppend(h + ".", p, '.');
      Strs.CountZero(h, '.');
      Strs.CountZero(p, '.');
    }
    Strs.CountAppend(h + "." + p, ".", '.');
    Strs.CountAppend(h + "." + p + ".", s, '.');
    Strs.CountZero(s, '.');
  }

  // ------------------------------------------------------- JWK exponent

  type Byte = x: int | 0 <= x < 256

  const TwoTo63: int := 0x8000_0000_0000_0000
  const TwoTo64: int := 0x1_0000_0000_0000_0000

  /** Go's 64-bit int arithmetic: the value reduced into [-2^63, 2^63). */
  function Wrap64(x: int): (w: int)
    ensures -TwoTo63 <= w < TwoTo63
    ensures -TwoTo63 <= x < TwoTo63 ==> w == x
  {
    (x + TwoTo63) % TwoTo64 - TwoTo63
  }

  /** The big-endian value of a byte string, unbounded (big.Int SetBytes). */
  function BigEndian(b: seq<Byte>): nat {
    if b == [] then 0 else BigEndian(b[..|b| - 1]) * 256 + b[|b| - 1]
  }

  /** The exponent loop e = e*256 + int(b), in 64-bit arithmetic. */
  function Fold(b: seq<Byte>): int {
    if b == [] then 0 else Wrap64(Fold(b[..|b| - 1]) * 256 + b[|b| - 1])
  }

  function Pow256(k: nat): (p: nat)
    ensures p >= 1
  {
    if k == 0 then 1 else 256 * Pow256(k - 1)
  }

  lemma {:induction false} BigEndianBound(b: seq<Byte>)
    ensures BigEndian(b) < Pow256(|b|)
  {
    if b != [] {
      BigEndianBound(b[..|b| - 1]);
    }
  }

  lemma {:induction false} Pow256Monotone(i: nat, j: nat)
    requires i <= j
    ensures Pow256(i) <= Pow256(j)
  {
    if i < j {
      Pow256Monotone(i, j - 1);
    }
  }

  /** For exponents of up to seven bytes the 64-bit loop never wraps, and the
      exponent is the big-endian value of the bytes. */
  lemma {:induction false} FoldShort(b: seq<Byte>)
    requires |b| <= 7
    ensures Fold(b) == BigEndian(b)
  {
    if b != [] {
      var init := b[..|b| - 1];
      FoldShort(init);
      BigEndianBound(b);
      Pow256Monotone(|b|, 7);
      assert Pow256(7) == 0x100_0000_0000_0000;
    }
  }

  /** The big-endian encoding of e in k bytes, the inverse of BigEndian. */
  function Encode(e: nat, k: nat): (b: seq<Byte>)
    ensures |b| == k
  {
    if k == 0 then [] else Encode(e / 256, k - 1) + [e % 256]
  }

  lemma {:induction false} BigEndianEncode(e: nat, k: nat)
    requires e < Pow256(k)
    ensures BigEndian(Encode(e, k)) == e
  {
    if k > 0 {
      var b := Encode(e, k);
      assert b[..|b| - 1] == Encode(e / 256, k - 1);
      BigEndianEncode(e / 256, k - 1);
    }
  }

  /** The usual RSA exponent AQAB decodes to the bytes 1, 0, 1. */
  lemma CommonExponent()
    ensures Fold([1, 0, 1]) == 65537
  {
    FoldShort([1, 0, 1]);
    assert [1, 0, 1][..2] == [1, 0];
    assert [1, 0][..1] == [1];
    assert [1][..0] == [];
  }

  /** The exponent loop of parseRSAPublicKeyFromJWK. */
  method FoldExponent(b: seq<Byte>) returns (e: int)
    ensures e == Fold(b)
    ensures |b| <= 7 ==> e == BigEndian(b)
  {
    e := 0;
    var i := 0;
    while i < |b|
      invariant 0 <= i <= |b|
      invariant e == Fold(b[..i])
    {
      assert b[..i + 1][..i] == b[..i];
      e := Wrap64(e * 256 + b[i]);
      i := i + 1;
    }
    assert b[..i] == b;
    if |b| <= 7 {
      FoldShort(b);
    }
  }

  datatype RsaPublicKey = RsaPublicKey(n: nat, e: int)

  /** parseRSAPublicKeyFromJWK: the modulus and exponent strings are base64url
      decoded (decoding is foreign: `decode` stands for it), the modulus read
      as an unbounded big-endian number and the exponent folded. */
  method ParseRsaPublicKeyFromJwk(nStr: string, eStr: string, decode: string -> Option<seq<Byte>>)
    returns (r: Result<RsaPublicKey>)
    ensures decode(nStr).None? ==> r == Err("failed to decode n")
    ensures decode(nStr).Some? && decode(eStr).None? ==> r == Err("failed to decode e")
    ensures r.Ok? <==> decode(nStr).Some? && decode(eStr).Some?
    ensures r.Ok? ==> r.value == RsaPublicKey(BigEndian(decode(nStr).value), Fold(decode(eStr).value))
  {
    var nBytes := decode(nStr);
    if nBytes.None? {
      return Err("failed to decode n");
    }
    var eBytes := decode(eStr);
    if eBytes.None? {
      return Err("failed to decode e");
    }
    var e := FoldExponent(eBytes.value);
    r := Ok(RsaPublicKey(BigEndian(nBytes.value), e));
  }

  // --------------------------------------------------------------- auth0

  datatype JwksKey = JwksKey(kty: string, kid: string, n: string, e: string)

  /** The header fields the key function reads: whether the signing method
      is an RSA one, and the "kid" entry when it is a string. */
  datatype TokenHeader = TokenHeader(rsaMethod: bool, kid: Option<string>)

  /** The first key with that kid and key type "RSA". */
  function FindKey(keys: seq<JwksKey>, kid: string): (r: Option<JwksKey>)
    ensures r.Some? ==> r.value in keys && r.value.kid == kid && r.value.kty == "RSA"
    ensures r.None? ==> forall k :: k in keys ==> !(k.kid == kid && k.kty == "RSA")
  {
    if keys == [] then None
    else if keys[0].kid == kid && keys[0].kty == "RSA" then Some(keys[0])
    else FindKey(keys[1..], kid)
  }

  /** No key before the one FindKey picks qualifies. */
  lemma {:induction false} FindKeyFirst(keys: seq<JwksKey>, kid: string, i: nat)
    requires FindKey(keys, kid).Some? && i < |keys| && keys[i] == FindKey(keys, kid).value
    requires forall j :: 0 <= j < i ==> keys[j] != keys[i]
    ensures forall j :: 0 <= j < i ==> !(keys[j].kid == kid && keys[j].kty == "RSA")
  {
    if i > 0 && !(keys[0].kid == kid && keys[0].kty == "RSA") {
      FindKeyFirst(keys[1..], kid, i - 1);
      forall j | 1 <= j < i ensures !(keys[j].kid == kid && keys[j].kty == "RSA") {
        assert keys[1..][j - 1] == keys[j];
      }
    }
  }

  /** The key function succeeds: an RSA method, a kid, a matching RSA key
      and both its numbers decode. */
  predicate KeyFound(header: TokenHeader, keys: seq<JwksKey>, decode: string -> Option<seq<Byte>>) {
    header.rsaMethod && header.kid.Some? && FindKey(keys, header.kid.value).Some? &&
    decode(FindKey(keys, header.kid.value).value.n).Some? && decode(FindKey(keys, header.kid.value).value.e).Some?
  }

  /** The key function handed to the JWT parser. */
  method KeyFunc(header: TokenHeader, keys: seq<JwksKey>, decode: string -> Option<seq<Byte>>)
    returns (r: Result<RsaPublicKey>)
    ensures !header.rsaMethod ==> r == Err("unexpected signing method")
    ensures header.rsaMethod && header.kid.None? ==> r == Err("no kid in token header")
    ensures header.rsaMethod && header.kid.Some? && FindKey(keys, header.kid.value).None? ==>
      r == Err("no matching key found")
    ensures r.Ok? <==> KeyFound(header, keys, decode)
  {
    if !header.rsaMethod {
      return Err("unexpected signing method");
    }
    if header.kid.None? {
      return Err("no kid in token header");
    }
    var key := FindKey(keys, header.kid.value);
    if key.None? {
      return Err("no matching key found");
    }
    r := ParseRsaPublicKeyFromJwk(key.value.n, key.value.e, decode);
  }

  /** The registered and custom claims VerifyAuth0Token reads. */
  datatype Auth0Claims = Auth0Claims(issuer: string, audience: seq<string>, sub: string, email: string, name: string)

  /** What the environment decides for one Auth0 verification: whether the
      key-set fetch fails, the decoded key set (None when the body is not a
      key set), the parsed header and claims (None when the token does not
      parse), the library's verdict on the signature under the selected key
      and on the time claims against the clock, and base64 decoding. */
  datatype Auth0Env = Auth0Env(
    fetchFail: bool,
    jwks: Option<seq<JwksKey>>,
    header: Option<TokenHeader>,
    claims: Auth0Claims,
    signatureValid: bool,
    expired: bool,
    decode: string -> Option<seq<Byte>>)

  /** The issuer Auth0 tokens of this tenant must carry. */
  function ExpectedIssuer(domain: string): string {
    "https://" + domain + "/"
  }

  /** Issuer and audience checks: the issuer is the tenant's, and the first
      audience entry is the client id. */
  predicate ClaimsMatch(c: Auth0Claims, domain: string, clientId: string) {
    c.issuer == ExpectedIssuer(domain) && |c.audience| > 0 && c.audience[0] == clientId
  }

  /** ParseWithClaims succeeds: the key set was fetched and decoded, the
      token parses, the key function finds its key, and the library accepts
      the signature and the time claims (golang-jwt v5 checks both inside
      the parse, so a bad signature or a past expiry is a parse error). */
  predicate Parsed(env: Auth0Env) {
    !env.fetchFail && env.jwks.Some? && env.header.Some? &&
    KeyFound(env.header.value, env.jwks.value, env.decode) &&
    env.signatureValid && !env.expired
  }

  /** The identity an accepted Auth0 token carries. */
  function Auth0Info(c: Auth0Claims): OAuthUserInfo {
    OAuthUserInfo(c.sub, c.email, c.name)
  }

  /** VerifyAuth0Token: fetch and decode the key set, parse with the key
      function, then check issuer and audience. The later validity and
      expiry branches of the code cannot fire once the parse succeeded. */
  method VerifyAuth0Token(domain: string, clientId: string, env: Auth0Env) returns (r: Result<OAuthUserInfo>)
    ensures env.fetchFail ==> r == Err("failed to get Auth0 public keys")
    ensures !env.fetchFail && env.jwks.None? ==> r == Err("failed to decode JWKS")
    ensures !env.fetchFail && env.jwks.Some? && !Parsed(env) ==> r == Err("failed to parse token")
    ensures !env.fetchFail && env.jwks.Some? && env.header.Some? &&
            KeyFound(env.header.value, env.jwks.value, env.decode) && (!env.signatureValid || env.expired) ==>
      r == Err("failed to parse token")
    ensures Parsed(env) && env.claims.issuer != ExpectedIssuer(domain) ==> r == Err("invalid issuer")
    ensures (Parsed(env) && env.claims.issuer == ExpectedIssuer(domain) &&
             !ClaimsMatch(env.claims, domain, clientId)) ==> r == Err("invalid audience")
    ensures r.Ok? <==> Parsed(env) && ClaimsMatch(env.claims, domain, clientId)
    ensures r.Ok? ==> r.value == Auth0Info(env.claims)
  {
    if env.fetchFail {
      return Err("failed to get Auth0 public keys");
    }
    if env.jwks.None? {
      return Err("failed to decode JWKS");
    }
    if env.header.None? {
      return Err("failed to parse token");
    }
    var key := KeyFunc(env.header.value, env.jwks.value, env.decode);
    if key.Err? {
      return Err("failed to parse token");
    }
    if !env.signatureValid || env.expired {
      return Err("failed to parse token");
    }
    if env.claims.issuer != ExpectedIssuer(domain) {
      return Err("invalid issuer");
    }
    if |env.claims.audience| == 0 || env.claims.audience[0] != clientId {
      return Err("invalid audience");
    }
    r := Ok(Auth0Info(env.claims));
  }

  // ------------------------------------------------------------ dispatch

  predicate Supported(provider: string) {
    provider == "google" || provider == "facebook" || provider == "apple" || provider == "auth0"
  }

  /** The replies each provider's verification sees. */
  datatype Net = Net(google: InfoReply, facebook: InfoReply, auth0: Auth0Env)

  /** The token is accepted by the verification its provider selects. */
  predicate Verifies(provider: string, token: string, domain: string, clientId: string, net: Net) {
    if provider == "google" then VerifyGoogleToken(net.google).Ok?
    else if provider == "facebook" then VerifyFacebookToken(net.facebook).Ok?
    else if provider == "apple" then VerifyAppleToken(token).Ok?
    else provider == "auth0" && Parsed(net.auth0) && ClaimsMatch(net.auth0.claims, domain, clientId)
  }

  /** The identity an accepted token yields. */
  function VerifiedInfo(provider: string, token: string, domain: string, clientId: string, net: Net): OAuthUserInfo
    requires Verifies(provider, token, domain, clientId, net)
  {
    if provider == "google" then VerifyGoogleToken(net.google).value
    else if provider == "facebook" then VerifyFacebookToken(net.facebook).value
    else if provider == "apple" then VerifyAppleToken(token).value
    else Auth0Info(net.auth0.claims)
  }

  /** VerifyOAuthToken: dispatch on the provider name. */
  method VerifyOAuthToken(provider: string, token: string, domain: string, clientId: string, net: Net)
    returns (r: Result<OAuthUserInfo>)
    ensures !Supported(provider) ==> r == Err("unsupported OAuth provider: " + provider)
    ensures provider == "google" ==> r == VerifyGoogleToken(net.google)
    ensures provider == "facebook" ==> r == VerifyFacebookToken(net.facebook)
    ensures provider == "apple" ==> r == VerifyAppleToken(token)
    ensures provider == "auth0" ==>
      (r.Ok? <==> Parsed(net.auth0) && ClaimsMatch(net.auth0.claims, domain, clientId)) &&
      (r.Ok? ==> r.value == Auth0Info(net.auth0.claims))
    ensures r.Ok? <==> Verifies(provider, token, domain, clientId, net)
    ensures r.Ok? ==> Supported(provider) && r.value == VerifiedInfo(provider, token, domain, clientId, net)
  {
    if provider == "google" {
      r := VerifyGoogleToken(net.google);
    } else if provider == "facebook" {
      r := VerifyFacebookToken(net.facebook);
    } else if provider == "apple" {
      r := VerifyAppleToken(token);
    } else if provider == "auth0" {
      r := VerifyAuth0Token(domain, clientId, net.auth0);
    } else {
      r := Err("unsupported OAuth provider: " + provider);
    }
  }
}
