/** The first crate's `ApiClient`: it speaks secure passthrough only,
    keeps the raw credentials and the key pair, and encodes the credentials
    afresh for every login. Its session is replaced by the handshake, gets
    its token from the login request, and is dropped by `Clone`. */
module LegacyApiClients {
  import opened Wrappers
  import opened Errors
  import opened Json
  import opened TapoResponses
  import opened TapoRequests
  import opened Crypto
  import opened PassthroughCrypto
  import opened SecurePassthrough
  import ApiClients

  const SessionMissing := "The session shouldn't be None"

  class ApiClient {
    const crypto: Primitives
    const username: string
    const password: string
    const keyPair: KeyPair
    var session: Option<Session>

    /** `new` once the key pair exists: the credentials as given and no
        session. */
    constructor (crypto: Primitives, username: string, password: string, keyPair: KeyPair)
      ensures this.crypto == crypto && this.username == username && this.password == password
      ensures this.keyPair == keyPair && session.None?
    {
      this.crypto := crypto;
      this.username := username;
      this.password := password;
      this.keyPair := keyPair;
      session := None;
    }

    /** `get_session_ref`: the session, or an error while there is none. */
    function GetSession(): (r: Result<Session, Error>)
      reads this
      ensures r.Ok? <==> session.Some?
      ensures r.Ok? ==> r.value == session.value
      ensures r.Err? ==> r.error == Other(SessionMissing)
    {
      OkOr(session, Other(SessionMissing))
    }

    /** The handshake key in the device's reply to this client's handshake
        at `url` can be previewed. */
    predicate HandshakeSafe(url: string, t: Transport) {
      KeyPreviewable(t(url, HandshakeBody(keyPair.publicKeyPem)))
    }

    /** `handshake`: post the public key, and replace the session (with a
        new cookie jar and no token) only once the reply has yielded a
        cipher through `decode_handshake_key`. */
    method Handshake(url: string, t: Transport) returns (r: Result<(), Error>)
      requires HandshakeSafe(url, t)
      modifies this
      ensures var s := HandshakeSession(LegacyClient, keyPair, url, t(url, HandshakeBody(keyPair.publicKeyPem)));
        (r.Ok? <==> s.Ok?) &&
        (s.Ok? ==> session == Some(s.value) && session.value.token.None?) &&
        (s.Err? ==> r == Err(s.error) && session == old(session))
    {
      var s := HandshakeSession(LegacyClient, keyPair, url, t(url, HandshakeBody(keyPair.publicKeyPem)));
      if s.Ok? {
        session := Some(s.value);
        r := Ok(());
      } else {
        r := Err(s.error);
      }
    }

    /** `execute_secure_passthrough_request`: fails while there is no
        session, otherwise one secure-passthrough round over it. */
    function ExecuteSecurePassthroughRequest<R>(request: Json, withToken: bool, t: Transport,
                                                parse: string -> Result<TapoResponse<R>, Error>): (r: Result<Option<R>, Error>)
      reads this
      ensures session.None? ==> r == Err(Other(SessionMissing))
      ensures session.Some? && withToken && session.value.token.None? ==> r == Err(Other(TokenMissing))
      ensures r.Ok? ==> session.Some?
    {
      var s :- GetSession();
      Exchange(crypto, s, request, withToken, t, parse)
    }

    /** `login_request`: the credentials encoded for the device, with the
        request time under the first crate's field name, sent without a
        token; the returned token is stored in the session. Without a
        session it fails and changes nothing. */
    method LoginRequest(nowMillis: int, t: Transport, parseToken: string -> Result<TapoResponse<string>, Error>) returns (r: Result<(), Error>)
      modifies this
      ensures old(session).None? ==> r.Err? && session == old(session)
      ensures old(session).None? && nowMillis >= 0 ==> r == Err(Other(SessionMissing))
      ensures old(session).Some? ==>
        var token := LoginToken(crypto, old(session).value, EncodedUsername(crypto, username), EncodedPassword(password),
                                nowMillis, LegacyTimeKey, t, parseToken);
        (token.Ok? ==> r == Ok(()) && session == Some(old(session).value.(token := Some(token.value)))) &&
        (token.Err? ==> r == Err(token.error) && session == old(session))
    {
      var params := SetRequestTimeMils(NewParams(LoginParams(EncodedUsername(crypto, username), EncodedPassword(password))), nowMillis);
      if params.Err? {
        return Err(params.error);
      }
      var result := ExecuteSecurePassthroughRequest(SecurePassthrough.LoginRequest(params.value, LegacyTimeKey), false, t, parseToken);
      if result.Err? {
        return Err(result.error);
      }
      if result.value.None? {
        return Err(Tapo(EmptyResult));
      }
      // `get_session_mut()?` cannot fail here: the exchange has just used the session.
      session := Some(session.value.(token := Some(result.value.value)));
      r := Ok(());
    }

    /** `login`: the handshake, then the login request. After a successful
        login the session is the handshake's, with the returned token. */
    method Login(url: string, nowMillis: int, t: Transport, parseToken: string -> Result<TapoResponse<string>, Error>) returns (r: Result<(), Error>)
      requires HandshakeSafe(url, t)
      modifies this
      ensures var s := HandshakeSession(LegacyClient, keyPair, url, t(url, HandshakeBody(keyPair.publicKeyPem)));
        (s.Err? ==> r == Err(s.error) && session == old(session)) &&
        (s.Ok? ==>
          var token := LoginToken(crypto, s.value, EncodedUsername(crypto, username), EncodedPassword(password),
                                  nowMillis, LegacyTimeKey, t, parseToken);
          (token.Ok? ==> r == Ok(()) && session == Some(s.value.(token := Some(token.value)))) &&
          (token.Err? ==> r == Err(token.error) && session == Some(s.value)))
    {
      r := Handshake(url, t);
      if r.Err? {
        return;
      }
      r := LoginRequest(nowMillis, t, parseToken);
    }

    /** `Clone`: the same credentials and key pair, and no session. */
    method Clone() returns (c: ApiClient)
      ensures fresh(c) && c.crypto == crypto && c.username == username && c.password == password
      ensures c.keyPair == keyPair && c.session.None?
    {
      c := new ApiClient(crypto, username, password, keyPair);
    }

    /** `control_child`: the envelope sent with a token, then unwrapped;
        `parse` reads the inner response of the envelope. */
    function ControlChild<R>(deviceId: string, child: TapoRequest, encode: TapoRequest -> Json, t: Transport,
                             parse: string -> Result<TapoResponse<ApiClients.ControlChildResult<TapoMultipleResponse<R>>>, Error>): (r: Result<R, Error>)
      reads this
      ensures session.None? ==> r == Err(Other(SessionMissing))
      ensures r.Ok? ==> session.Some? && session.value.token.Some?
    {
      ApiClients.UnwrapControlChild(ExecuteSecurePassthroughRequest(encode(ApiClients.ControlChildRequest(deviceId, child)), true, t, parse))
    }
  }

  /** `ApiClient::new`: generating the key pair may fail, and then so does
      `new`. */
  method New(crypto: Primitives, username: string, password: string, keyPair: Result<KeyPair, Error>) returns (r: Result<ApiClient, Error>)
    ensures keyPair.Err? ==> r == Err(keyPair.error)
    ensures keyPair.Ok? ==> (r.Ok? && fresh(r.value) && r.value.session.None? && r.value.keyPair == keyPair.value &&
                             r.value.username == username && r.value.password == password)
  {
    if keyPair.Err? {
      return Err(keyPair.error);
    }
    var c := new ApiClient(crypto, username, password, keyPair.value);
    r := Ok(c);
  }

  /** A clone must log in on its own before it can send anything: every
      request on it fails for want of a session. */
  method CloneCannotRequest<R>(client: ApiClient, request: Json, withToken: bool, t: Transport,
                               parse: string -> Result<TapoResponse<R>, Error>) returns (r: Result<Option<R>, Error>)
    ensures r == Err(Other(SessionMissing))
  {
    var c := client.Clone();
    r := c.ExecuteSecurePassthroughRequest(request, withToken, t, parse);
  }
}
