/** `TapoProtocol`: the protocol selector. A client starts in the discovery
    state holding the raw credentials; its first login probes the device
    and replaces the state by a passthrough or a KLAP protocol, which then
    handles logins, session refreshes and requests. A clone always starts
    over in the discovery state, with the credentials the current protocol's
    `clone_as_discovery` hands over: after passthrough was discovered these
    are the stored encodings, not the credentials the client was given. */
module TapoProtocols {
  import opened Wrappers
  import opened Bytes
  import opened Errors
  import opened Json
  import opened TapoResponses
  import opened TapoRequests
  import opened Crypto
  import opened PassthroughCrypto
  import opened SecurePassthrough
  import opened DiscoveryProtocols
  import opened PassthroughProtocols
  import KlapCrypto
  import KlapProtocols

  /** `TapoProtocolType`. */
  datatype ProtocolState =
    | Discovery(d: DiscoveryProtocol)
    | Passthrough(p: PassthroughProtocol)
    | Klap(k: KlapProtocols.KlapProtocol)

  /** What a protocol consumes from outside: the reply to the
      `component_nego` probe at a URL, the outcome of generating the RSA key
      pair, the clock, the random local seed, and the two ways of talking to
      the device (passthrough posts and KLAP posts). */
  datatype Environment = Environment(
    probe: string -> Result<TapoResponse<Json>, Error>,
    keyPair: Result<KeyPair, Error>,
    nowMillis: int,
    localSeed: Bytes,
    passthrough: SecurePassthrough.Transport,
    parseToken: string -> Result<TapoResponse<string>, Error>,
    klap: KlapProtocols.Transport)

  const DiscoveryPending := "The protocol discovery should have happened already"

  /** The device at `url` is taken to speak secure passthrough. */
  predicate DiscoversPassthrough(env: Environment, url: string) {
    IsPassthroughSupported(TestPassthrough(env.probe(url)))
  }

  /** `discover`: a passthrough protocol (which fails when the key pair
      cannot be generated) if the probe says passthrough is supported, a KLAP
      protocol otherwise; both get the credentials as they were given. */
  method Discover(crypto: Primitives, d: DiscoveryProtocol, probe: Result<TapoResponse<Json>, Error>, keyPair: Result<KeyPair, Error>)
    returns (r: Result<ProtocolState, Error>)
    ensures IsPassthroughSupported(TestPassthrough(probe)) && keyPair.Err? ==> r == Err(keyPair.error)
    ensures IsPassthroughSupported(TestPassthrough(probe)) && keyPair.Ok? ==>
      (r.Ok? && r.value.Passthrough? && fresh(r.value.p) && r.value.p.session.None? &&
       r.value.p.crypto == crypto && r.value.p.keyPair == keyPair.value &&
       r.value.p.rawUsername == d.username && r.value.p.rawPassword == d.password &&
       r.value.p.username == EncodedUsername(crypto, d.username) && r.value.p.password == EncodedPassword(d.password))
    ensures !IsPassthroughSupported(TestPassthrough(probe)) ==>
      (r.Ok? && r.value.Klap? && fresh(r.value.k) && r.value.k.Valid() && r.value.k.crypto == crypto &&
       r.value.k.username == d.username && r.value.k.password == d.password &&
       r.value.k.cookies == [] && r.value.k.url.None? && r.value.k.cipher.None?)
  {
    if IsPassthroughSupported(TestPassthrough(probe)) {
      var p :- New(crypto, d.username, d.password, keyPair);
      r := Ok(Passthrough(p));
    } else {
      var k := new KlapProtocols.KlapProtocol(crypto, d.username, d.password);
      r := Ok(Klap(k));
    }
  }

  /** A passthrough login at `url` can run (its handshake key can be
      previewed) and succeeds: the handshake yields a session, the clock is
      not before the epoch, and the device returns a token. */
  predicate PassthroughLoginSucceeds(p: PassthroughProtocol, url: string, env: Environment) {
    p.HandshakeSafe(url, env.passthrough) &&
    var s := HandshakeSession(CurrentClient, p.keyPair, url, env.passthrough(url, HandshakeBody(p.keyPair.publicKeyPem)));
    s.Ok? && env.nowMillis >= 0 &&
    LoginToken(p.crypto, s.value, p.username, p.password, env.nowMillis, TimeKey, env.passthrough, env.parseToken).Ok?
  }

  /** A KLAP login at `url` can run and both handshake rounds succeed. */
  predicate KlapLoginSucceeds(k: KlapProtocols.KlapProtocol, url: string, env: Environment) {
    |env.localSeed| == 16 && KlapProtocols.HandshakeSafe(env.klap, url, env.localSeed) &&
    KlapProtocols.HandshakeSpec(k.crypto, env.klap, url, env.localSeed,
                                KlapProtocols.AuthHash(k.crypto, k.username, k.password)).remote.Ok?
  }

  /** A login from the discovery state runs without panicking: the
      handshake of the protocol discovery picks is safe. */
  predicate DiscoveryLoginSafe(url: string, env: Environment) {
    (DiscoversPassthrough(env, url) && env.keyPair.Ok? ==>
       KeyPreviewable(env.passthrough(url, HandshakeBody(env.keyPair.value.publicKeyPem)))) &&
    (!DiscoversPassthrough(env, url) ==>
       |env.localSeed| == 16 && KlapProtocols.HandshakeSafe(env.klap, url, env.localSeed))
  }

  class TapoProtocol {
    const crypto: Primitives
    var protocol: ProtocolState

    /** The object the current state's protocol lives in. */
    function Footprint(): set<object>
      reads this
    {
      match protocol
      case Discovery(_) => {}
      case Passthrough(p) => {p}
      case Klap(k) => {k}
    }

    /** The settled protocol uses the client's primitives; a passthrough
        protocol stores the encodings of its raw credentials, and a KLAP
        protocol's URL and cipher are set together. */
    ghost predicate Valid()
      reads this, Footprint()
    {
      match protocol
      case Discovery(_) => true
      case Passthrough(p) =>
        p.crypto == crypto &&
        p.username == EncodedUsername(p.crypto, p.rawUsername) && p.password == EncodedPassword(p.rawPassword)
      case Klap(k) => k.crypto == crypto && k.Valid()
    }

    /** `new`: the discovery state, with the credentials as given. */
    constructor (crypto: Primitives, username: string, password: string)
      ensures this.crypto == crypto && protocol == Discovery(DiscoveryProtocol(username, password))
      ensures Valid()
    {
      this.crypto := crypto;
      protocol := Discovery(DiscoveryProtocol(username, password));
    }

    /** The credentials the client was created with, wherever the current
        state keeps them. */
    function Credentials(): (d: DiscoveryProtocol)
      reads this
      ensures protocol.Discovery? ==> d == protocol.d
      ensures protocol.Passthrough? ==> d == DiscoveryProtocol(protocol.p.rawUsername, protocol.p.rawPassword)
      ensures protocol.Klap? ==> d == DiscoveryProtocol(protocol.k.username, protocol.k.password)
    {
      match protocol
      case Discovery(d) => d
      case Passthrough(p) => p.CloneAsDiscovery()
      case Klap(k) => k.CloneAsDiscovery()
    }

    /** `clone_as_discovery`: the discovery state's own credentials, the
        KLAP protocol's as given, and the passthrough protocol's as stored,
        already encoded (`PassthroughProtocol.CloneAsDiscoveryAsWritten`). */
    function CloneAsDiscovery(): (d: DiscoveryProtocol)
      reads this
      ensures protocol.Discovery? ==> d == protocol.d
      ensures protocol.Passthrough? ==> d == DiscoveryProtocol(protocol.p.username, protocol.p.password)
      ensures protocol.Klap? ==> d == DiscoveryProtocol(protocol.k.username, protocol.k.password)
    {
      match protocol
      case Discovery(d) => d
      case Passthrough(p) => p.CloneAsDiscoveryAsWritten()
      case Klap(k) => k.CloneAsDiscovery()
    }

    /** `Clone`: whatever the state, the clone is in the discovery state
        with what `clone_as_discovery` hands over, and shares no session.
        After passthrough was discovered that is the encoded credentials. */
    method Clone() returns (c: TapoProtocol)
      ensures fresh(c) && c.crypto == crypto && c.Valid()
      ensures c.protocol == Discovery(CloneAsDiscovery())
      ensures Valid() && protocol.Passthrough? ==>
        c.Credentials() == DiscoveryProtocol(EncodedUsername(crypto, Credentials().username), EncodedPassword(Credentials().password))
      ensures !protocol.Passthrough? ==> c.Credentials() == Credentials()
    {
      c := new TapoProtocol(crypto, CloneAsDiscovery().username, CloneAsDiscovery().password);
    }

    /** The clone as intended: the discovery state with the credentials the
        client was created with, whatever the state (the passthrough half
        uses `PassthroughProtocol.CloneAsDiscovery`). */
    method CloneAsIntended() returns (c: TapoProtocol)
      ensures fresh(c) && c.crypto == crypto && c.Valid()
      ensures c.protocol == Discovery(Credentials())
    {
      c := new TapoProtocol(crypto, Credentials().username, Credentials().password);
    }

    /** What a login at `url` needs so as not to panic: the handshake that
        will run must have a previewable key (passthrough) or a splittable
        round-1 reply and a 16-byte seed (KLAP). */
    predicate LoginSafe(url: string, env: Environment)
      reads this
    {
      match protocol
      case Discovery(_) => DiscoveryLoginSafe(url, env)
      case Passthrough(p) => p.HandshakeSafe(url, env.passthrough)
      case Klap(_) => |env.localSeed| == 16 && KlapProtocols.HandshakeSafe(env.klap, url, env.localSeed)
    }

    /** The first step of `login`: in the discovery state the device is
        probed and the state replaced by the discovered protocol, or kept as
        it was if discovery fails; any other state is kept. */
    method DiscoverIfNeeded(url: string, env: Environment) returns (r: Result<(), Error>)
      requires Valid()
      modifies this
      ensures Valid() && Credentials() == old(Credentials())
      ensures !old(protocol).Discovery? ==> r.Ok? && protocol == old(protocol)
      ensures old(protocol).Discovery? && DiscoversPassthrough(env, url) && env.keyPair.Err? ==>
        r == Err(env.keyPair.error) && protocol == old(protocol)
      ensures old(protocol).Discovery? && DiscoversPassthrough(env, url) && env.keyPair.Ok? ==>
        (r.Ok? && protocol.Passthrough? && fresh(protocol.p) && protocol.p.keyPair == env.keyPair.value &&
         protocol.p.session.None?)
      ensures old(protocol).Discovery? && !DiscoversPassthrough(env, url) ==>
        (r.Ok? && protocol.Klap? && fresh(protocol.k) && protocol.k.url.None?)
    {
      r := Ok(());
      if protocol.Discovery? {
        var discovered := Discover(crypto, protocol.d, env.probe(url), env.keyPair);
        if discovered.Err? {
          return Err(discovered.error);
        }
        protocol := discovered.value;
      }
    }

    /** `login`: discovery if it has not happened yet, then the login of the
        current protocol. A failed login after discovery keeps the
        discovered protocol. The credentials never change. */
    method Login(url: string, env: Environment) returns (r: Result<(), Error>)
      requires Valid() && LoginSafe(url, env)
      modifies this, Footprint()
      ensures Valid() && Credentials() == old(Credentials())
      ensures old(protocol).Discovery? && DiscoversPassthrough(env, url) && env.keyPair.Err? ==>
        r == Err(env.keyPair.error) && protocol == old(protocol)
      ensures old(protocol).Discovery? && DiscoversPassthrough(env, url) && env.keyPair.Ok? ==>
        (protocol.Passthrough? && fresh(protocol.p) && protocol.p.keyPair == env.keyPair.value &&
         (r.Ok? <==> PassthroughLoginSucceeds(protocol.p, url, env)))
      ensures old(protocol).Discovery? && !DiscoversPassthrough(env, url) ==>
        (protocol.Klap? && fresh(protocol.k) && (r.Ok? <==> KlapLoginSucceeds(protocol.k, url, env)))
      ensures !old(protocol).Discovery? ==> protocol == old(protocol)
      ensures old(protocol).Passthrough? ==> (r.Ok? <==> PassthroughLoginSucceeds(protocol.p, url, env))
      ensures old(protocol).Klap? ==> (r.Ok? <==> KlapLoginSucceeds(protocol.k, url, env))
    {
      r := DiscoverIfNeeded(url, env);
      if r.Err? {
        return;
      }
      r := LoginCurrent(url, env);
    }

    /** The login of the protocol discovery has settled on; the discovery
        state itself has nothing to log in with. */
    method LoginCurrent(url: string, env: Environment) returns (r: Result<(), Error>)
      requires Valid() && LoginSafe(url, env)
      modifies Footprint()
      ensures Valid() && Credentials() == old(Credentials()) && protocol == old(protocol)
      ensures protocol.Discovery? ==> r == Err(Other(DiscoveryPending))
      ensures protocol.Passthrough? ==> (r.Ok? <==> PassthroughLoginSucceeds(protocol.p, url, env))
      ensures protocol.Klap? ==> (r.Ok? <==> KlapLoginSucceeds(protocol.k, url, env))
    {
      match protocol
      case Passthrough(p) =>
        r := p.Login(url, env.nowMillis, env.passthrough, env.parseToken);
      case Klap(k) =>
        r := k.Login(url, env.localSeed, env.klap);
      case Discovery(_) =>
        r := Err(Other(DiscoveryPending));
    }

    /** What a session refresh needs so as not to panic: a session (or URL)
        from an earlier login, and a safe handshake at its URL. */
    predicate RefreshSafe(env: Environment)
      reads this, Footprint()
    {
      match protocol
      case Discovery(_) => true
      case Passthrough(p) => p.session.Some? && p.HandshakeSafe(p.session.value.url, env.passthrough)
      case Klap(k) =>
        k.url.Some? && |env.localSeed| == 16 && KlapProtocols.HandshakeSafe(env.klap, k.url.value, env.localSeed)
    }

    /** `refresh_session`: an error before discovery; otherwise the current
        protocol logs in again at the URL it last used. */
    method RefreshSession(env: Environment) returns (r: Result<(), Error>)
      requires Valid() && RefreshSafe(env)
      modifies Footprint()
      ensures Valid() && protocol == old(protocol)
      ensures protocol.Discovery? ==> r == Err(Other(DiscoveryPending))
      ensures protocol.Passthrough? ==>
        (r.Ok? <==> PassthroughLoginSucceeds(protocol.p, old(protocol.p.session).value.url, env)) &&
        (r.Ok? ==> protocol.p.session.Some? && protocol.p.session.value.url == old(protocol.p.session).value.url &&
                   protocol.p.session.value.token.Some?)
      ensures protocol.Klap? ==>
        (protocol.k.url == old(protocol.k.url) && (r.Ok? <==> KlapLoginSucceeds(protocol.k, old(protocol.k.url).value, env)))
    {
      match protocol
      case Passthrough(p) =>
        r := p.RefreshSession(env.nowMillis, env.passthrough, env.parseToken);
      case Klap(k) =>
        r := k.RefreshSession(env.localSeed, env.klap);
      case Discovery(_) =>
        r := Err(Other(DiscoveryPending));
    }

    /** The objects a request may change: a KLAP protocol (its cookie jar)
        and its cipher (the sequence counter). */
    function RequestFootprint(): set<object>
      reads this, Footprint()
    {
      match protocol
      case Klap(k) => if k.cipher.Some? then {k, k.cipher.value} else {k}
      case _ => {}
    }

    /** What a request needs so as not to panic: a logged-in protocol, and
        for KLAP a reply long enough to hold the signature. */
    predicate RequestSafe(request: Json, env: Environment)
      reads this, Footprint(), RequestFootprint()
      requires Valid()
    {
      match protocol
      case Discovery(_) => true
      case Passthrough(p) => p.session.Some?
      case Klap(k) => k.url.Some? && k.RequestSafe(request, env.klap)
    }

    /** `execute_request`: an error before discovery; otherwise one round of
        the current protocol. */
    method ExecuteRequest<R>(request: Json, withToken: bool, env: Environment, parse: string -> Result<TapoResponse<R>, Error>)
      returns (r: Result<Option<R>, Error>)
      requires Valid() && RequestSafe(request, env)
      modifies RequestFootprint()
      ensures Valid() && protocol == old(protocol)
      ensures protocol.Discovery? ==> r == Err(Other(DiscoveryPending))
      ensures protocol.Passthrough? ==> r == protocol.p.ExecuteRequest(request, withToken, env.passthrough, parse)
      ensures protocol.Klap? ==>
        (protocol.k.cipher == old(protocol.k.cipher) &&
         protocol.k.cipher.value.seqNo == KlapCrypto.NextSeq(old(protocol.k.cipher.value.seqNo)) &&
         r == old(protocol.k.Outcome(request, env.klap, parse)))
    {
      match protocol
      case Passthrough(p) =>
        r := p.ExecuteRequest(request, withToken, env.passthrough, parse);
      case Klap(k) =>
        r := k.ExecuteRequest(request, env.klap, parse);
      case Discovery(_) =>
        r := Err(Other(DiscoveryPending));
    }
  }

  /** What a clone carries, given the credentials the client was created
      with: those credentials before discovery and after KLAP was
      discovered, but their stored encodings after passthrough was. */
  lemma CloneCredentials(t: TapoProtocol, username: string, password: string)
    requires t.Valid() && t.Credentials() == DiscoveryProtocol(username, password)
    ensures !t.protocol.Passthrough? ==> t.CloneAsDiscovery() == DiscoveryProtocol(username, password)
    ensures t.protocol.Passthrough? ==>
      t.CloneAsDiscovery() == DiscoveryProtocol(EncodedUsername(t.crypto, username), EncodedPassword(password))
  {
  }

  /** After passthrough was discovered, a clone that rediscovers
      passthrough stores a password other than the one the original logs
      in with, for any non-empty password. */
  lemma ClonedPassthroughPasswordDiffers(t: TapoProtocol, username: string, password: string)
    requires t.Valid() && t.Credentials() == DiscoveryProtocol(username, password)
    requires t.protocol.Passthrough? && |password| > 0
    ensures EncodedPassword(t.CloneAsDiscovery().password) != t.protocol.p.password
  {
    EncodingPasswordTwiceDiffers(password);
  }

  /** A client that logs in and is then cloned: the clone is in the
      discovery state with the credentials the client was created with,
      unless passthrough was discovered, in which case it carries their
      encodings. */
  method LoginThenClone(crypto: Primitives, username: string, password: string, url: string, env: Environment)
    returns (r: Result<(), Error>, clone: TapoProtocol)
    requires DiscoveryLoginSafe(url, env)
    ensures DiscoversPassthrough(env, url) && env.keyPair.Ok? ==>
      clone.protocol == Discovery(DiscoveryProtocol(EncodedUsername(crypto, username), EncodedPassword(password)))
    ensures !(DiscoversPassthrough(env, url) && env.keyPair.Ok?) ==>
      clone.protocol == Discovery(DiscoveryProtocol(username, password))
  {
    var t := new TapoProtocol(crypto, username, password);
    r := t.Login(url, env);
    clone := t.Clone();
  }

  /** The same with the intended clone: whatever discovery decides and
      however the login ends, the clone carries the credentials the client
      was created with. */
  method LoginThenCloneAsIntended(crypto: Primitives, username: string, password: string, url: string, env: Environment)
    returns (r: Result<(), Error>, clone: TapoProtocol)
    requires DiscoveryLoginSafe(url, env)
    ensures clone.protocol == Discovery(DiscoveryProtocol(username, password))
  {
    var t := new TapoProtocol(crypto, username, password);
    r := t.Login(url, env);
    clone := t.CloneAsIntended();
  }
}
