/** The secure-passthrough exchange both clients share: the handshake that
    yields a session (URL, AES key and IV, no token yet), the token URL
    rule, and the request/response round of `securePassthrough`, in which
    the serialised request travels encrypted inside an outer request and
    the reply's `response` string is decrypted and parsed as the inner
    response. */
module SecurePassthrough {
  import opened Wrappers
  import opened Bytes
  import opened Errors
  import opened Json
  import opened TapoResponses
  import opened TapoRequests
  import opened Crypto
  import opened AesCbc
  import opened PassthroughCrypto
  import Base64
  import Utf8

  /** `Session` of both clients; the cookie jar is not modelled. */
  datatype Session = Session(url: string, cipher: SessionCipher, token: Option<string>)

  /** Posting a body to a URL and reading the reply as a `TapoResponse`
      whose result is a single string (the `key` of `HandshakeResult`, the
      `response` of `TapoResult`). Transport and JSON failures are errors. */
  type Transport = (string, string) -> Result<TapoResponse<string>, Error>

  /** Which client runs the exchange: they differ only in the message of a
      bad handshake key. */
  datatype Client = CurrentClient | LegacyClient

  const TokenMissing := "token shouldn't be None"

  /** Where a request is posted: with a token, `url?token=<token>`, which
      fails while no token is stored; without, the session URL. */
  function TokenUrl(s: Session, withToken: bool): (r: Result<string, Error>)
    ensures !withToken ==> r == Ok(s.url)
    ensures withToken && s.token.None? ==> r == Err(Other(TokenMissing))
    ensures withToken && s.token.Some? ==> r.Ok? && r.value == s.url + "?token=" + s.token.value
  {
    if !withToken then Ok(s.url)
    else
      var token :- OkOr(s.token, Other(TokenMissing));
      Ok(s.url + "?token=" + token)
  }

  /** The token can be read back from the URL: the part after the session
      URL and `?token=` is exactly the token. */
  lemma TokenUrlCarriesToken(s: Session)
    requires s.token.Some?
    ensures var u := TokenUrl(s, true).value;
      |u| == |s.url| + 7 + |s.token.value| && u[..|s.url|] == s.url && u[|s.url| + 7..] == s.token.value
  {
    var u := TokenUrl(s, true).value;
    assert u == s.url + ("?token=" + s.token.value);
  }

  /** `TapoRequest::Handshake` with the public key as `key`. */
  function HandshakeRequest(pem: string): (r: Json)
    ensures Get(r, "params") == Some(JObj([("key", JStr(pem))]))
  {
    var r := RequestJson(MethodName(Handshake), NewParams(JObj([("key", JStr(pem))])), TimeKey);
    assert r.members[1] == ("params", JObj([("key", JStr(pem))]));
    r
  }

  /** The body of the handshake request. */
  function HandshakeBody(pem: string): string {
    Serialize(HandshakeRequest(pem))
  }

  /** `TapoRequest::SecurePassthrough` carrying the encrypted inner request
      as `request`. */
  function PassthroughRequest(encrypted: string): (r: Json)
    ensures Get(r, "method") == Some(JStr("securePassthrough"))
    ensures Get(r, "params") == Some(JObj([("request", JStr(encrypted))]))
  {
    var r := RequestJson(MethodName(SecurePassthrough), NewParams(JObj([("request", JStr(encrypted))])), TimeKey);
    assert r.members[1] == ("params", JObj([("request", JStr(encrypted))]));
    r
  }

  /** The body of the outer request that carries `request`. */
  function PassthroughBody(p: Primitives, c: SessionCipher, request: Json): string {
    Serialize(PassthroughRequest(PassthroughCrypto.Encrypt(p, c, Serialize(request))))
  }

  /** The device decrypting the `request` member of the outer request reads
      the serialised inner request. */
  lemma DeviceReadsRequest(p: Primitives, c: SessionCipher, request: Json)
    requires Inverse(p.cipher)
    ensures var enc := PassthroughCrypto.Encrypt(p, c, Serialize(request));
      Get(PassthroughRequest(enc), "params") == Some(JObj([("request", JStr(enc))])) &&
      PassthroughCrypto.Decrypt(p, c, enc) == Ok(Serialize(request))
  {
    PassthroughCrypto.DecryptEncrypt(p, c, Serialize(request));
  }

  /** The handshake key is previewed as `&key[..5]`, which panics unless
      byte 5 of a key the client goes on to use is a character boundary. */
  predicate KeyPreviewable(reply: Result<TapoResponse<string>, Error>) {
    reply.Ok? && reply.value.errorCode == 0 && reply.value.result.Some? ==> CharBoundary(reply.value.result.value, 5)
  }

  /** `PassthroughCipher::new` or `decode_handshake_key`. */
  function SessionKey(client: Client, key: string, pair: KeyPair): (r: Result<SessionCipher, Error>)
    requires CharBoundary(key, 5)
    ensures r.Ok? <==> FromHandshakeKey(key, pair, "Expected").Ok?
    ensures r.Ok? ==> r.value == FromHandshakeKey(key, pair, "Expected").value
  {
    CratesAgreeOnKeys(key, pair);
    if client == CurrentClient then NewCipher(key, pair) else DecodeHandshakeKey(key, pair)
  }

  /** What `handshake` makes of the device's reply: the reply is validated,
      must carry a key, and the key must yield the session cipher; the new
      session is posted to `url` and has no token. */
  function HandshakeSession(client: Client, pair: KeyPair, url: string, reply: Result<TapoResponse<string>, Error>): (r: Result<Session, Error>)
    requires KeyPreviewable(reply)
    ensures reply.Err? ==> r == Err(reply.error)
    ensures reply.Ok? && reply.value.errorCode != 0 ==> r == Err(ValidateResponse(reply.value).error)
    ensures reply.Ok? && reply.value.errorCode == 0 && reply.value.result.None? ==> r == Err(Tapo(EmptyResult))
    ensures r.Ok? <==> reply.Ok? && reply.value.errorCode == 0 && reply.value.result.Some? &&
                       FromHandshakeKey(reply.value.result.value, pair, "Expected").Ok?
    ensures r.Ok? ==> r.value == Session(url, FromHandshakeKey(reply.value.result.value, pair, "Expected").value, None)
  {
    var response :- reply;
    var _ :- ValidateResponse(response);
    var key :- OkOr(response.result, Tapo(EmptyResult));
    var cipher :- SessionKey(client, key, pair);
    Ok(Session(url, cipher, None))
  }

  /** One `securePassthrough` round (`execute_request`): post the encrypted
      request to the token URL, validate the outer reply, decrypt its
      `response`, parse it as the inner response with `parse`, validate
      that, and return its result. The outer reply is validated before the
      inner one is looked at. */
  function Exchange<R>(p: Primitives, s: Session, request: Json, withToken: bool, t: Transport,
                       parse: string -> Result<TapoResponse<R>, Error>): (r: Result<Option<R>, Error>)
    ensures TokenUrl(s, withToken).Err? ==> r == Err(Other(TokenMissing))
    ensures TokenUrl(s, withToken).Ok? ==>
      var reply := t(TokenUrl(s, withToken).value, PassthroughBody(p, s.cipher, request));
      (reply.Err? ==> r == Err(reply.error)) &&
      (reply.Ok? && reply.value.errorCode != 0 ==> r == Err(ValidateResponse(reply.value).error)) &&
      (reply.Ok? && reply.value.errorCode == 0 && reply.value.result.None? ==> r == Err(Tapo(EmptyResult))) &&
      (r.Ok? ==> reply.Ok? && reply.value.errorCode == 0 && reply.value.result.Some? &&
                 var text := PassthroughCrypto.Decrypt(p, s.cipher, reply.value.result.value);
                 text.Ok? && parse(text.value).Ok? && parse(text.value).value.errorCode == 0 &&
                 r.value == parse(text.value).value.result)
  {
    var url :- TokenUrl(s, withToken);
    var response :- t(url, PassthroughBody(p, s.cipher, request));
    var _ :- ValidateResponse(response);
    var encrypted :- OkOr(response.result, Tapo(EmptyResult));
    var text :- PassthroughCrypto.Decrypt(p, s.cipher, encrypted);
    var inner :- parse(text);
    var _ :- ValidateResponse(inner);
    Ok(inner.result)
  }

  /** A device that answers with code 0 and the encryption of an inner
      response that parses with code 0 delivers that response's result. */
  lemma ExchangeWithDevice<R>(p: Primitives, s: Session, request: Json, withToken: bool, t: Transport,
                              parse: string -> Result<TapoResponse<R>, Error>, text: string, result: Option<R>)
    requires Inverse(p.cipher) && TokenUrl(s, withToken).Ok?
    requires t(TokenUrl(s, withToken).value, PassthroughBody(p, s.cipher, request)) ==
      Ok(TapoResponse(0, Some(PassthroughCrypto.Encrypt(p, s.cipher, text))))
    requires parse(text) == Ok(TapoResponse(0, result))
    ensures Exchange(p, s, request, withToken, t, parse) == Ok(result)
  {
    PassthroughCrypto.DecryptEncrypt(p, s.cipher, text);
  }

  /** An inner error code fails the round with that code's error. */
  lemma InnerErrorReported<R>(p: Primitives, s: Session, request: Json, withToken: bool, t: Transport,
                              parse: string -> Result<TapoResponse<R>, Error>, text: string, inner: TapoResponse<R>)
    requires Inverse(p.cipher) && TokenUrl(s, withToken).Ok?
    requires t(TokenUrl(s, withToken).value, PassthroughBody(p, s.cipher, request)) ==
      Ok(TapoResponse(0, Some(PassthroughCrypto.Encrypt(p, s.cipher, text))))
    requires parse(text) == Ok(inner) && inner.errorCode != 0
    ensures Exchange(p, s, request, withToken, t, parse) == Err(ValidateResponse(inner).error)
  {
    PassthroughCrypto.DecryptEncrypt(p, s.cipher, text);
  }

  /** `TapoRequest::LoginDevice` with its timed parameters. */
  function LoginRequest(timed: TapoParams<Json>, timeKey: string): (r: Json)
    ensures r.JObj? && |r.members| >= 2 && r.members[0] == ("method", JStr("login_device")) && r.members[1] == ("params", timed.params)
  {
    RequestJson(MethodName(LoginDevice), timed, timeKey)
  }

  /** `login_request`: the login parameters with the request time set, sent
      without a token; the reply must carry a token. `timeKey` is the
      client's name for the request-time field. */
  function LoginToken(p: Primitives, s: Session, username: string, password: string, nowMillis: int, timeKey: string,
                      t: Transport, parseToken: string -> Result<TapoResponse<string>, Error>): (r: Result<string, Error>)
    ensures nowMillis < 0 ==> r.Err? && r.error.Other?
    ensures nowMillis >= 0 ==>
      var params := SetRequestTimeMils(NewParams(LoginParams(username, password)), nowMillis).value;
      var e := Exchange(p, s, LoginRequest(params, timeKey), false, t, parseToken);
      (e.Err? ==> r == Err(e.error)) &&
      (e.Ok? && e.value.None? ==> r == Err(Tapo(EmptyResult))) &&
      (e.Ok? && e.value.Some? ==> r == Ok(e.value.value))
  {
    var params :- SetRequestTimeMils(NewParams(LoginParams(username, password)), nowMillis);
    var result :- Exchange(p, s, LoginRequest(params, timeKey), false, t, parseToken);
    OkOr(result, Tapo(EmptyResult))
  }

  /** The `params` of a login: `username` then `password`. */
  function LoginParams(username: string, password: string): Json {
    JObj([("username", JStr(username)), ("password", JStr(password))])
  }

  /** The credentials a passthrough login carries: base64 of the lowercase
      hexadecimal SHA-1 of the username, and base64 of the password. */
  function EncodedUsername(p: Primitives, username: string): string {
    Base64.Encode(Utf8.Encode(Sha1DigestUsername(p, username)))
  }

  function EncodedPassword(password: string): string {
    Base64.Encode(Utf8.Encode(password))
  }

  /** The device can read both encoded credentials back: the password
      itself, and the hexadecimal digest of the username. */
  lemma CredentialsDecode(p: Primitives, username: string, password: string)
    ensures Base64.Decode(EncodedPassword(password)) == Some(Utf8.Encode(password))
    ensures Utf8.Decode(Base64.Decode(EncodedPassword(password)).value) == Some(password)
    ensures Base64.Decode(EncodedUsername(p, username)) == Some(Utf8.Encode(Sha1DigestUsername(p, username)))
    ensures Utf8.Decode(Base64.Decode(EncodedUsername(p, username)).value) == Some(Sha1DigestUsername(p, username))
  {
    Base64.DecodeEncode(Utf8.Encode(password));
    Utf8.DecodeEncode(password);
    Base64.DecodeEncode(Utf8.Encode(Sha1DigestUsername(p, username)));
    Utf8.DecodeEncode(Sha1DigestUsername(p, username));
  }

  /** Encoding a non-empty password once more changes it: base64 text is
      longer than the bytes it encodes. */
  lemma EncodingPasswordTwiceDiffers(password: string)
    requires |password| > 0
    ensures EncodedPassword(EncodedPassword(password)) != EncodedPassword(password)
  {
    var once := EncodedPassword(password);
    Base64.EncodeLength(Utf8.Encode(password));
    Base64.EncodeLength(Utf8.Encode(once));
    assert |Utf8.Encode(once)| >= |once|;
    assert |EncodedPassword(once)| > |once|;
  }
}
