/** `PassthroughProtocol`: the secure-passthrough client of the current
    crate. It stores the credentials already encoded for the login
    request, and a session that the handshake replaces and the login
    request completes with a token. */
module PassthroughProtocols {
  import opened Wrappers
  import opened Errors
  import opened Json
  import opened TapoResponses
  import opened TapoRequests
  import opened Crypto
  import opened PassthroughCrypto
  import opened SecurePassthrough
  import opened DiscoveryProtocols

  class PassthroughProtocol {
    const crypto: Primitives
    /** The credentials as `new` was given them. The crate does not keep
        these; `CloneAsDiscovery` needs them (see `CloneAsDiscoveryAsWritten`). */
    const rawUsername: string
    const rawPassword: string
    /** The stored, encoded credentials. */
    const username: string
    const password: string
    const keyPair: KeyPair
    var session: Option<Session>

    /** `new` once the key pair exists: the username is stored as base64 of
        its SHA-1 digest in hexadecimal, the password as base64, and there
        is no session. */
    constructor (crypto: Primitives, username: string, password: string, keyPair: KeyPair)
      ensures this.crypto == crypto && this.keyPair == keyPair
      ensures rawUsername == username && rawPassword == password
      ensures this.username == EncodedUsername(crypto, username)
      ensures this.password == EncodedPassword(password)
      ensures session.None?
    {
      this.crypto := crypto;
      this.keyPair := keyPair;
      rawUsername := username;
      rawPassword := password;
      this.username := EncodedUsername(crypto, username);
      this.password := EncodedPassword(password);
      session := None;
    }

    /** The handshake key in the device's reply to this protocol's
        handshake at `url` can be previewed. */
    predicate HandshakeSafe(url: string, t: Transport) {
      KeyPreviewable(t(url, HandshakeBody(keyPair.publicKeyPem)))
    }

    /** `handshake`: post the public key, and replace the session only once
        the reply has yielded a cipher; the new session has no token. On
        failure the old session stays. */
    method Handshake(url: string, t: Transport) returns (r: Result<(), Error>)
      requires HandshakeSafe(url, t)
      modifies this
      ensures var s := HandshakeSession(CurrentClient, keyPair, url, t(url, HandshakeBody(keyPair.publicKeyPem)));
        (r.Ok? <==> s.Ok?) &&
        (s.Ok? ==> session == Some(s.value)) &&
        (s.Err? ==> r == Err(s.error) && session == old(session))
    {
      var s := HandshakeSession(CurrentClient, keyPair, url, t(url, HandshakeBody(keyPair.publicKeyPem)));
      if s.Ok? {
        session := Some(s.value);
        r := Ok(());
      } else {
        r := Err(s.error);
      }
    }

    /** `login_request`: log in over the current session, without a token,
        and store the token the device returns. The session must exist
        once the request time has been set. */
    method LoginRequest(nowMillis: int, t: Transport, parseToken: string -> Result<TapoResponse<string>, Error>) returns (r: Result<(), Error>)
      requires nowMillis >= 0 ==> session.Some?
      modifies this
      ensures nowMillis < 0 ==> r.Err? && session == old(session)
      ensures nowMillis >= 0 ==>
        var token := LoginToken(crypto, old(session).value, username, password, nowMillis, TimeKey, t, parseToken);
        (token.Ok? ==> r == Ok(()) && session == Some(old(session).value.(token := Some(token.value)))) &&
        (token.Err? ==> r == Err(token.error) && session == old(session))
    {
      if nowMillis < 0 {
        r := Err(SetRequestTimeMils(NewParams(LoginParams(username, password)), nowMillis).error);
        return;
      }
      var token := LoginToken(crypto, session.value, username, password, nowMillis, TimeKey, t, parseToken);
      if token.Ok? {
        session := Some(session.value.(token := Some(token.value)));
        r := Ok(());
      } else {
        r := Err(token.error);
      }
    }

    /** `login`: the handshake, then the login request. After a successful
        login the session is the handshake's, with the returned token. */
    method Login(url: string, nowMillis: int, t: Transport, parseToken: string -> Result<TapoResponse<string>, Error>) returns (r: Result<(), Error>)
      requires HandshakeSafe(url, t)
      modifies this
      ensures var s := HandshakeSession(CurrentClient, keyPair, url, t(url, HandshakeBody(keyPair.publicKeyPem)));
        (s.Err? ==> r == Err(s.error) && session == old(session)) &&
        (s.Ok? && nowMillis < 0 ==> r.Err? && session == Some(s.value)) &&
        (s.Ok? && nowMillis >= 0 ==>
          var token := LoginToken(crypto, s.value, username, password, nowMillis, TimeKey, t, parseToken);
          (token.Ok? ==> r == Ok(()) && session == Some(s.value.(token := Some(token.value)))) &&
          (token.Err? ==> r == Err(token.error) && session == Some(s.value)))
    {
      r := Handshake(url, t);
      if r.Err? {
        return;
      }
      r := LoginRequest(nowMillis, t, parseToken);
    }

    /** `refresh_session`: log in again at the session's URL, with the
        outcome `login` has there. */
    method RefreshSession(nowMillis: int, t: Transport, parseToken: string -> Result<TapoResponse<string>, Error>) returns (r: Result<(), Error>)
      requires session.Some? && HandshakeSafe(session.value.url, t)
      modifies this
      ensures var url := old(session).value.url;
        var s := HandshakeSession(CurrentClient, keyPair, url, t(url, HandshakeBody(keyPair.publicKeyPem)));
        (s.Err? ==> r == Err(s.error) && session == old(session)) &&
        (s.Ok? && nowMillis < 0 ==> r.Err? && session == Some(s.value)) &&
        (s.Ok? && nowMillis >= 0 ==>
          var token := LoginToken(crypto, s.value, username, password, nowMillis, TimeKey, t, parseToken);
          (token.Ok? ==> r == Ok(()) && session == Some(s.value.(token := Some(token.value)))) &&
          (token.Err? ==> r == Err(token.error) && session == Some(s.value)))
      ensures r.Ok? ==> session.Some? && session.value.url == old(session).value.url && session.value.token.Some?
    {
      r := Login(session.value.url, nowMillis, t, parseToken);
    }

    /** `execute_request`: one secure-passthrough round over the current
        session, which must exist. */
    function ExecuteRequest<R>(request: Json, withToken: bool, t: Transport, parse: string -> Result<TapoResponse<R>, Error>): (r: Result<Option<R>, Error>)
      reads this
      requires session.Some?
      ensures withToken && session.value.token.None? ==> r == Err(Other(TokenMissing))
      ensures r.Ok? && withToken ==> session.value.token.Some?
    {
      Exchange(crypto, session.value, request, withToken, t, parse)
    }

    /** `clone_as_discovery` as written: the discovery protocol receives the
        stored credentials, which are already encoded. */
    function CloneAsDiscoveryAsWritten(): (d: DiscoveryProtocol)
      ensures d.username == username && d.password == password
    {
      DiscoveryProtocol(username, password)
    }

    /** `clone_as_discovery` as intended: the discovery protocol receives
        the credentials this protocol was created with, as the KLAP
        protocol's clone does. */
    function CloneAsDiscovery(): (d: DiscoveryProtocol)
      ensures d.username == rawUsername && d.password == rawPassword
    {
      DiscoveryProtocol(rawUsername, rawPassword)
    }
  }

  /** `new`: the key pair is generated first, and failing to generate it
      fails `new`. */
  method New(crypto: Primitives, username: string, password: string, keyPair: Result<KeyPair, Error>) returns (r: Result<PassthroughProtocol, Error>)
    ensures keyPair.Err? ==> r == Err(keyPair.error)
    ensures keyPair.Ok? ==> (r.Ok? && fresh(r.value) && r.value.session.None? && r.value.keyPair == keyPair.value &&
                             r.value.crypto == crypto && r.value.username == EncodedUsername(crypto, username) &&
                             r.value.password == EncodedPassword(password) &&
                             r.value.rawUsername == username && r.value.rawPassword == password)
  {
    if keyPair.Err? {
      return Err(keyPair.error);
    }
    var p := new PassthroughProtocol(crypto, username, password, keyPair.value);
    r := Ok(p);
  }

  /** Discovering passthrough again from the as-written clone encodes the
      stored password a second time, so a non-empty password no longer
      reaches the device as the base64 of what the user gave. */
  lemma CloneAsDiscoveryAsWrittenReencodes(p: PassthroughProtocol)
    requires p.password == EncodedPassword(p.rawPassword) && |p.rawPassword| > 0
    ensures EncodedPassword(p.CloneAsDiscoveryAsWritten().password) != EncodedPassword(p.rawPassword)
  {
    EncodingPasswordTwiceDiffers(p.rawPassword);
  }

  /** Discovering passthrough again from the intended clone stores exactly
      the credentials the original protocol logs in with. */
  lemma CloneAsDiscoveryKeepsLogin(p: PassthroughProtocol)
    requires p.username == EncodedUsername(p.crypto, p.rawUsername) && p.password == EncodedPassword(p.rawPassword)
    ensures EncodedUsername(p.crypto, p.CloneAsDiscovery().username) == p.username
    ensures EncodedPassword(p.CloneAsDiscovery().password) == p.password
  {
  }
}
