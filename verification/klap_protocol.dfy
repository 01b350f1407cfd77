/** `KlapProtocol`: the KLAP client. A handshake clears the cookie jar,
    proves to the device that both sides share the credentials' hash over
    two HTTP rounds, and only then installs the URL and a fresh cipher;
    each request is framed by the cipher under a new sequence number and
    its response decrypted under the same number. */
module KlapProtocols {
  import opened Wrappers
  import opened Bytes
  import opened Errors
  import opened Json
  import opened Decimal
  import opened TapoResponses
  import opened AesCbc
  import opened Crypto
  import opened KlapCrypto
  import opened DiscoveryProtocols
  import Utf8

  /** What the HTTP client hands back: the status, the cookies the device
      set, and the body. */
  datatype HttpReply = HttpReply(status: int, setCookies: seq<string>, body: Bytes)

  /** Posting `body` to a URL with the given cookie jar contents: the reply,
      or the error of sending or of reading the body. */
  type Transport = (string, seq<string>, Bytes) -> Result<HttpReply, Error>

  /** `StatusCode::is_success`. */
  predicate IsSuccess(status: int) {
    200 <= status <= 299
  }

  /** The error of a request whose status is not a success: 401 and 403
      mean the session has expired, anything else is an invalid response. */
  function RequestStatusError(status: int): (e: Error)
    ensures e == Tapo(SessionTimeout) <==> status == 401 || status == 403
    ensures e != Tapo(SessionTimeout) ==> e == Tapo(InvalidResponse)
  {
    if status == 401 || status == 403 then Tapo(SessionTimeout) else Tapo(InvalidResponse)
  }

  /** The authentication hash: SHA-256 of the SHA-1 digests of the username
      and of the password, concatenated. */
  function AuthHash(p: Primitives, username: string, password: string): (r: Bytes)
    ensures |r| == 32
  {
    p.sha256(p.sha1(Utf8.Encode(username)) + p.sha1(Utf8.Encode(password)))
  }

  /** The hash is SHA-256 of a 40-byte input: the username's SHA-1 digest,
      then the password's. */
  lemma AuthHashInput(p: Primitives, username: string, password: string)
    ensures exists m: Bytes :: |m| == 40 && m[..20] == p.sha1(Utf8.Encode(username)) &&
                               m[20..] == p.sha1(Utf8.Encode(password)) && AuthHash(p, username, password) == p.sha256(m)
  {
    var m := p.sha1(Utf8.Encode(username)) + p.sha1(Utf8.Encode(password));
    assert m[..20] == p.sha1(Utf8.Encode(username)) && m[20..] == p.sha1(Utf8.Encode(password));
  }

  /** The URLs of the three kinds of post. */
  function Handshake1Url(url: string): string { url + "/handshake1" }
  function Handshake2Url(url: string): string { url + "/handshake2" }
  function RequestUrl(url: string, s: i32): string { url + "/request?seq=" + IntToString(s) }

  /** The request URL carries the sequence number: two URLs built on the
      same base are equal only for the same number. */
  lemma RequestUrlCarriesSeq(url: string, a: i32, b: i32)
    ensures RequestUrl(url, a) == RequestUrl(url, b) <==> a == b
  {
    if RequestUrl(url, a) == RequestUrl(url, b) {
      var n := |url + "/request?seq="|;
      assert RequestUrl(url, a)[n..] == IntToString(a);
      assert RequestUrl(url, b)[n..] == IntToString(b);
      IntToStringInjective(a, b);
    }
  }

  /** What the device proves in handshake 1: SHA-256 of the local seed, the
      remote seed and the auth hash. */
  function ServerHash(p: Primitives, local: Bytes, remote: Bytes, auth: Bytes): Bytes {
    p.sha256(local + remote + auth)
  }

  /** What the client proves in handshake 2: SHA-256 of the remote seed, the
      local seed and the auth hash, in that order. */
  function Handshake2Payload(p: Primitives, local: Bytes, remote: Bytes, auth: Bytes): (r: Bytes)
    ensures |r| == 32
  {
    p.sha256(remote + local + auth)
  }

  /** The client's proof is the device's proof with the two seeds swapped,
      so neither side can replay the other's. */
  lemma Handshake2SwapsSeeds(p: Primitives, local: Bytes, remote: Bytes, auth: Bytes)
    ensures Handshake2Payload(p, local, remote, auth) == ServerHash(p, remote, local, auth)
  {
  }

  /** A handshake-1 reply can be split: a success carries at least the
      16-byte remote seed (`split_at(16)` panics otherwise). */
  predicate Splittable(reply: HttpReply) {
    IsSuccess(reply.status) ==> |reply.body| >= 16
  }

  /** `handshake1` once the reply is in: a failure status is an invalid
      response; otherwise the body is the remote seed followed by the
      device's hash, which must equal the hash computed locally. */
  function Handshake1Check(p: Primitives, local: Bytes, auth: Bytes, reply: HttpReply): (r: Result<Bytes, Error>)
    requires Splittable(reply)
    ensures !IsSuccess(reply.status) ==> r == Err(Tapo(InvalidResponse))
    ensures IsSuccess(reply.status) && reply.body[16..] != ServerHash(p, local, reply.body[..16], auth) ==>
      r == Err(Tapo(InvalidCredentials))
    ensures r.Ok? <==> IsSuccess(reply.status) && reply.body[16..] == ServerHash(p, local, reply.body[..16], auth)
    ensures r.Ok? ==> |r.value| == 16 && reply.body == r.value + ServerHash(p, local, r.value, auth)
  {
    if !IsSuccess(reply.status) then Err(Tapo(InvalidResponse))
    else
      var remote := reply.body[..16];
      var serverHash := reply.body[16..];
      if ServerHash(p, local, remote, auth) != serverHash then Err(Tapo(InvalidCredentials))
      else Ok(remote)
  }

  /** A device that knows the same auth hash passes handshake 1 with its
      remote seed; one whose proof differs is refused for its credentials. */
  lemma Handshake1Accepts(p: Primitives, local: Bytes, auth: Bytes, remote: Bytes, status: int, cookies: seq<string>)
    requires |remote| == 16 && IsSuccess(status)
    ensures Handshake1Check(p, local, auth, HttpReply(status, cookies, remote + ServerHash(p, local, remote, auth))) == Ok(remote)
  {
    var body := remote + ServerHash(p, local, remote, auth);
    assert body[..16] == remote && body[16..] == ServerHash(p, local, remote, auth);
  }

  /** `handshake2` once the reply is in: only the status matters. */
  function Handshake2Check(reply: HttpReply): (r: Result<(), Error>)
    ensures r.Ok? <==> IsSuccess(reply.status)
    ensures r.Err? ==> r.error == Tapo(InvalidResponse)
  {
    if IsSuccess(reply.status) then Ok(()) else Err(Tapo(InvalidResponse))
  }

  /** The specification of a handshake from an emptied cookie jar: the
      remote seed it settles on (or the first error), and the cookies
      gathered on the way. */
  datatype HandshakeRun = HandshakeRun(remote: Result<Bytes, Error>, cookies: seq<string>)

  /** The handshake-1 reply a handshake at `url` may split. */
  predicate HandshakeSafe(t: Transport, url: string, local: Bytes) {
    var reply := t(Handshake1Url(url), [], local);
    reply.Ok? ==> Splittable(reply.value)
  }

  function HandshakeSpec(p: Primitives, t: Transport, url: string, local: Bytes, auth: Bytes): (run: HandshakeRun)
    requires HandshakeSafe(t, url, local)
    ensures run.remote.Ok? ==> |run.remote.value| == 16
  {
    match t(Handshake1Url(url), [], local)
    case Err(e) => HandshakeRun(Err(e), [])
    case Ok(reply1) =>
      match Handshake1Check(p, local, auth, reply1)
      case Err(e) => HandshakeRun(Err(e), reply1.setCookies)
      case Ok(remote) =>
        match t(Handshake2Url(url), reply1.setCookies, Handshake2Payload(p, local, remote, auth))
        case Err(e) => HandshakeRun(Err(e), reply1.setCookies)
        case Ok(reply2) =>
          var cookies := reply1.setCookies + reply2.setCookies;
          match Handshake2Check(reply2)
          case Err(e) => HandshakeRun(Err(e), cookies)
          case Ok(_) => HandshakeRun(Ok(remote), cookies)
  }

  /** A device that answers both rounds with success and proves knowledge
      of the auth hash completes the handshake with its remote seed, and the
      session cookie it set in round 1 is sent in round 2. */
  lemma GenuineDeviceHandshake(p: Primitives, t: Transport, url: string, local: Bytes, auth: Bytes, remote: Bytes, cookies: seq<string>)
    requires |remote| == 16
    requires t(Handshake1Url(url), [], local) == Ok(HttpReply(200, cookies, remote + ServerHash(p, local, remote, auth)))
    requires t(Handshake2Url(url), cookies, Handshake2Payload(p, local, remote, auth)).Ok?
    requires t(Handshake2Url(url), cookies, Handshake2Payload(p, local, remote, auth)).value.status == 200
    ensures HandshakeSafe(t, url, local)
    ensures HandshakeSpec(p, t, url, local, auth).remote == Ok(remote)
  {
    Handshake1Accepts(p, local, auth, remote, 200, cookies);
  }

  /** A handshake never settles on a remote seed unless the device's
      round-1 proof matched the locally computed hash and round 2 was a
      success. */
  lemma HandshakeNeedsProof(p: Primitives, t: Transport, url: string, local: Bytes, auth: Bytes)
    requires HandshakeSafe(t, url, local)
    ensures var run := HandshakeSpec(p, t, url, local, auth);
      run.remote.Ok? ==>
        (var reply1 := t(Handshake1Url(url), [], local);
         reply1.Ok? && IsSuccess(reply1.value.status) &&
         reply1.value.body == run.remote.value + ServerHash(p, local, run.remote.value, auth) &&
         var reply2 := t(Handshake2Url(url), reply1.value.setCookies, Handshake2Payload(p, local, run.remote.value, auth));
         reply2.Ok? && IsSuccess(reply2.value.status))
  {
  }

  /** The outcome of one request once the reply is in: the status is
      mapped, the body decrypted under the request's sequence number,
      parsed, and its error code validated. */
  function ResponseOutcome<R>(c: KlapCipher, s: i32, reply: Result<HttpReply, Error>, parse: string -> Result<TapoResponse<R>, Error>): (r: Result<Option<R>, Error>)
    requires c.Valid()
    requires reply.Ok? && IsSuccess(reply.value.status) ==> |reply.value.body| >= 32
    ensures reply.Err? ==> r == Err(reply.error)
    ensures reply.Ok? && !IsSuccess(reply.value.status) ==> r == Err(RequestStatusError(reply.value.status))
    ensures reply.Ok? && IsSuccess(reply.value.status) && c.Decrypt(s, reply.value.body).Err? ==>
      r == Err(c.Decrypt(s, reply.value.body).error)
    ensures r.Ok? <==> reply.Ok? && IsSuccess(reply.value.status) && c.Decrypt(s, reply.value.body).Ok? &&
                       parse(c.Decrypt(s, reply.value.body).value).Ok? &&
                       parse(c.Decrypt(s, reply.value.body).value).value.errorCode == 0
    ensures r.Ok? ==> r.value == parse(c.Decrypt(s, reply.value.body).value).value.result
  {
    var rep :- reply;
    if !IsSuccess(rep.status) then Err(RequestStatusError(rep.status))
    else
      var text :- c.Decrypt(s, rep.body);
      var inner :- parse(text);
      var _ :- ValidateResponse(inner);
      Ok(inner.result)
  }

  /** A device that answers with a success status and the response framed
      under the request's own sequence number has its result accepted
      (given an invertible block cipher and a successful error code). */
  lemma GenuineDeviceAnswer<R>(c: KlapCipher, s: i32, status: int, cookies: seq<string>, text: string, parse: string -> Result<TapoResponse<R>, Error>)
    requires c.Valid() && Inverse(c.crypto.cipher) && IsSuccess(status)
    requires parse(text).Ok? && parse(text).value.errorCode == 0
    ensures |c.Frame(s, text)| >= 32
    ensures ResponseOutcome(c, s, Ok(HttpReply(status, cookies, c.Frame(s, text))), parse) == Ok(parse(text).value.result)
  {
    DecryptFrame(c, s, text);
  }

  class KlapProtocol {
    const crypto: Primitives
    const username: string
    const password: string
    /** The cookie jar, as the list of cookies the device has set since it
        was last cleared. */
    var cookies: seq<string>
    var url: Option<string>
    var cipher: Option<KlapCipher>

    /** A URL is known exactly when a cipher is, and the cipher's derived
        material has its sizes. */
    predicate Valid()
      reads this
    {
      url.Some? == cipher.Some? && (cipher.Some? ==> cipher.value.Valid())
    }

    /** `new`: an empty cookie jar, and neither URL nor cipher. */
    constructor (crypto: Primitives, username: string, password: string)
      ensures this.crypto == crypto && this.username == username && this.password == password
      ensures cookies == [] && url.None? && cipher.None?
      ensures Valid()
    {
      this.crypto := crypto;
      this.username := username;
      this.password := password;
      cookies := [];
      url := None;
      cipher := None;
    }

    /** The cipher `KlapCipher::new` makes from the two seeds and this
        protocol's auth hash: its key, IV prefix, signature key and starting
        sequence number are all derived from their concatenation. */
    ghost predicate DerivedFrom(c: KlapCipher, localSeed: Bytes, remote: Bytes)
      reads c
    {
      var h := localSeed + remote + AuthHash(crypto, username, password);
      c.crypto == crypto && c.key == KeyDerive(crypto, h) && c.iv == IvDerive(crypto, h) &&
      c.sig == SigDerive(crypto, h) && c.seqNo == SeqDerive(crypto, h)
    }

    /** `handshake` with the given random local seed: the cookie jar is
        cleared, the two rounds run, and only when both succeed are the URL
        and a new cipher, derived from the local seed, the remote seed and
        the auth hash, installed. On failure the old URL and cipher stay. */
    method Handshake(url: string, localSeed: Bytes, t: Transport) returns (r: Result<(), Error>)
      requires |localSeed| == 16 && HandshakeSafe(t, url, localSeed)
      requires Valid()
      modifies this
      ensures Valid()
      ensures var run := HandshakeSpec(crypto, t, url, localSeed, AuthHash(crypto, username, password));
        cookies == run.cookies &&
        (run.remote.Err? ==> r == Err(run.remote.error) && this.url == old(this.url) && cipher == old(cipher)) &&
        (run.remote.Ok? ==> (r == Ok(()) && this.url == Some(url) && cipher.Some? && fresh(cipher.value) &&
                             DerivedFrom(cipher.value, localSeed, run.remote.value)))
    {
      cookies := [];
      var auth := AuthHash(crypto, username, password);
      var reply1 := t(Handshake1Url(url), cookies, localSeed);
      if reply1.Err? {
        return Err(reply1.error);
      }
      cookies := cookies + reply1.value.setCookies;
      assert cookies == reply1.value.setCookies;
      var remote := Handshake1Check(crypto, localSeed, auth, reply1.value);
      if remote.Err? {
        return Err(remote.error);
      }
      var reply2 := t(Handshake2Url(url), cookies, Handshake2Payload(crypto, localSeed, remote.value, auth));
      if reply2.Err? {
        return Err(reply2.error);
      }
      cookies := cookies + reply2.value.setCookies;
      var done := Handshake2Check(reply2.value);
      if done.Err? {
        return Err(done.error);
      }
      var c := new KlapCipher(crypto, localSeed, remote.value, auth);
      this.url := Some(url);
      cipher := Some(c);
      r := Ok(());
    }

    /** `login`: a handshake, with its outcome: on success the URL and a
        fresh cipher derived from both seeds, on failure the old ones. */
    method Login(url: string, localSeed: Bytes, t: Transport) returns (r: Result<(), Error>)
      requires |localSeed| == 16 && HandshakeSafe(t, url, localSeed)
      requires Valid()
      modifies this
      ensures Valid()
      ensures var run := HandshakeSpec(crypto, t, url, localSeed, AuthHash(crypto, username, password));
        (r.Ok? <==> run.remote.Ok?) && cookies == run.cookies &&
        (r.Ok? ==> this.url == Some(url) && cipher.Some? && fresh(cipher.value) &&
                   DerivedFrom(cipher.value, localSeed, run.remote.value)) &&
        (r.Err? ==> this.url == old(this.url) && cipher == old(cipher))
    {
      r := Handshake(url, localSeed, t);
    }

    /** `refresh_session`: a handshake at the URL of the last one, which
        must have happened; on success a fresh cipher derived from both
        seeds, on failure the old one. */
    method RefreshSession(localSeed: Bytes, t: Transport) returns (r: Result<(), Error>)
      requires url.Some? && |localSeed| == 16 && HandshakeSafe(t, url.value, localSeed)
      requires Valid()
      modifies this
      ensures Valid() && url == old(url)
      ensures var run := HandshakeSpec(crypto, t, old(url).value, localSeed, AuthHash(crypto, username, password));
        (r.Ok? <==> run.remote.Ok?) && cookies == run.cookies &&
        (r.Ok? ==> cipher.Some? && fresh(cipher.value) && DerivedFrom(cipher.value, localSeed, run.remote.value)) &&
        (r.Err? ==> cipher == old(cipher))
    {
      r := Handshake(url.value, localSeed, t);
    }

    /** The device's reply to `request` sent as the next request: framed
        under the next sequence number, posted to the URL carrying that
        number, with the current cookie jar. */
    function NextReply(request: Json, t: Transport): Result<HttpReply, Error>
      reads this, if cipher.Some? then {cipher.value} else {}
      requires url.Some? && cipher.Some? && cipher.value.Valid()
    {
      var s := NextSeq(cipher.value.seqNo);
      t(RequestUrl(url.value, s), cookies, cipher.value.Frame(s, Serialize(request)))
    }

    /** The reply to a request can be decrypted: a success carries at least
        the 32-byte signature (slicing past it panics otherwise). */
    predicate RequestSafe(request: Json, t: Transport)
      reads this, if cipher.Some? then {cipher.value} else {}
      requires url.Some? && cipher.Some? && cipher.value.Valid()
    {
      var reply := NextReply(request, t);
      reply.Ok? && IsSuccess(reply.value.status) ==> |reply.value.body| >= 32
    }

    /** The specification of the next request: its reply decoded under the
        next sequence number. */
    function Outcome<R>(request: Json, t: Transport, parse: string -> Result<TapoResponse<R>, Error>): Result<Option<R>, Error>
      reads this, if cipher.Some? then {cipher.value} else {}
      requires Valid() && url.Some? && RequestSafe(request, t)
    {
      ResponseOutcome(cipher.value, NextSeq(cipher.value.seqNo), NextReply(request, t), parse)
    }

    /** `execute_request`: the request text is framed under the next
        sequence number and posted to the URL carrying that number; the
        reply is decoded under the same number (`Outcome`). The URL is
        unchanged, the counter has advanced by one, and the cookies the
        device sets join the jar. */
    method ExecuteRequest<R>(request: Json, t: Transport, parse: string -> Result<TapoResponse<R>, Error>) returns (r: Result<Option<R>, Error>)
      requires Valid() && url.Some? && RequestSafe(request, t)
      modifies this, cipher.value
      ensures Valid() && url == old(url) && cipher == old(cipher)
      ensures cipher.value.seqNo == NextSeq(old(cipher.value.seqNo))
      ensures r == old(Outcome(request, t, parse))
      ensures var reply := old(NextReply(request, t));
        cookies == old(cookies) + (if reply.Ok? then reply.value.setCookies else [])
    {
      var c := cipher.value;
      var payload, s := c.Encrypt(Serialize(request));
      var reply := t(RequestUrl(url.value, s), cookies, payload);
      if reply.Ok? {
        cookies := cookies + reply.value.setCookies;
      }
      r := ResponseOutcome(c, s, reply, parse);
    }

    /** `clone_as_discovery`: the discovery protocol gets the credentials
        as they were given. */
    function CloneAsDiscovery(): (d: DiscoveryProtocol)
      ensures d.username == username && d.password == password
    {
      DiscoveryProtocol(username, password)
    }
  }
}
