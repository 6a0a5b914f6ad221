/**
  The router (`route_request`) and the encrypted-login handler
  (`handle_encrypted_login_request`) with its cryptography reduced to an
  oracle.

  Everything the router cannot compute itself is part of `Env`: the fixture
  store and `json.load`, Python's `str()` of a non-string `req`, the
  decryption oracle and the public key read at start-up. The random values
  a reply needs are drawn in advance into `Fresh`.
 */
module Handlers {
  import opened Json
  import opened Responses

  const PingReq := "ping"
  const EncryptedReq := "encrypted"
  const GetRsaPubReq := "util.crypto.getRSAPub"
  const LoginReq := "user.login"

  const MissingReq := "Missing \"req\" field in request"
  const MissingReqid := "Missing \"reqid\" field in request"
  const UnknownRequest := "Unknown request type: "
  const InvalidFixture := "Invalid response format for "

  /** `generate_random_token(16)[:32]` keeps at most this many characters. */
  const FallbackReqidLength: nat := 32

  /** The three base64 fields of an encrypted login, as the request carries them. */
  datatype CipherFields = CipherFields(iv: Json, rsa: Json, aes: Json)

  /**
    What reading the private key, decoding the fields, RSA-unwrapping the AES
    key, AES-CBC decrypting, unpadding and `json.loads` yield: either any
    failure, or the client's login payload together with the base64 of the
    placeholder secret re-encrypted under the client's own key and IV.
   */
  datatype Decryption = DecryptFailed | Decrypted(login: Json, secret: string)

  /** Values drawn at random for one request. */
  datatype Fresh = Fresh(token: string, longToken: string, secret: string,
                         sessionId: string, fallbackToken: string)

  /** The collaborators the router calls but does not define. */
  datatype Env = Env(
    store: string -> FileRead,
    parse: string -> Option<Json>,
    show: Json -> string,
    decrypt: CipherFields -> Decryption,
    publicKey: string)

  /** The reply, or `None` when the fixture branch's catch-all swallowed an exception. */
  datatype Routed = Routed(reply: Option<Json>, cache: Cache)

  /** The request carries all three cipher fields; indexing a missing one raises `KeyError`. */
  predicate HasCipherFields(request: Obj) {
    "iv" in request && "rsa" in request && "aes" in request
  }

  function Fields(request: Obj): CipherFields
    requires HasCipherFields(request)
  {
    CipherFields(request["iv"], request["rsa"], request["aes"])
  }

  /** The correlation id used when the login payload cannot be recovered. */
  function FallbackReqid(draw: Fresh): (r: string)
    ensures |r| <= FallbackReqidLength
    ensures r <= draw.fallbackToken
    ensures |r| == if |draw.fallbackToken| <= FallbackReqidLength then |draw.fallbackToken| else FallbackReqidLength
  {
    if |draw.fallbackToken| <= FallbackReqidLength then draw.fallbackToken
    else draw.fallbackToken[..FallbackReqidLength]
  }

  /**
    `handle_encrypted_login_request`. It never fails: whatever the oracle
    does, the reply is a login success with fresh tokens. A request missing
    `iv`, `rsa` or `aes` never reaches the oracle and gets the fallback.
    When the payload decrypts to an object, its `reqid` (null if absent) is
    echoed and the re-encrypted secret replaces the random one; otherwise a
    fresh pseudo-`reqid` of at most 32 characters is used.
   */
  function HandleEncryptedLogin(decrypt: CipherFields -> Decryption, draw: Fresh, request: Obj): (r: Obj)
    ensures IsLoginSuccess(r)
    ensures r["token"] == JStr(draw.token) && r["longToken"] == JStr(draw.longToken)
    ensures !HasCipherFields(request) ==>
              r["reqid"] == JStr(FallbackReqid(draw)) && r["secret"] == JStr(draw.secret)
    ensures HasCipherFields(request) ==>
              var d := decrypt(Fields(request));
              if d.Decrypted? && d.login.JObj?
              then r["reqid"] == Get(d.login.fields, "reqid") && r["secret"] == JStr(d.secret)
              else r["reqid"] == JStr(FallbackReqid(draw)) && r["secret"] == JStr(draw.secret)
  {
    var fallback := LoginResponse(JStr(FallbackReqid(draw)), draw.token, draw.longToken, draw.secret);
    if !HasCipherFields(request) then fallback
    else
      match decrypt(Fields(request))
      case Decrypted(JObj(login), secret) =>
        LoginResponse(Get(login, "reqid"), draw.token, draw.longToken, draw.secret)["secret" := JStr(secret)]
      case _ => fallback
  }

  /** The text `req` contributes to a file name or a message: Python's `str(req)`. */
  function ReqName(show: Json -> string, req: Json): string {
    if req.JStr? then req.s else show(req)
  }

  /** The request gets past every check and names no built-in operation, so it is served from a fixture. */
  predicate IsFixtureRequest(request: Obj) {
    var req := Get(request, "req");
    && Truthy(req)
    && req !in {JStr(PingReq), JStr(EncryptedReq), JStr(GetRsaPubReq), JStr(LoginReq), JStr(GetHostNameReq)}
    && Truthy(Get(request, "reqid"))
  }

  function FixturePath(env: Env, request: Obj): string {
    FilePath(ReqName(env.show, Get(request, "req")))
  }

  /**
    `route_request`. No cached template is ever altered and the cache only
    grows by the request's own fixture path; a request gets no reply only
    when it is served from a fixture.
   */
  function Route(env: Env, cache: Cache, draw: Fresh, request: Obj): (out: Routed)
    ensures forall p :: p in cache ==> p in out.cache && out.cache[p] == cache[p]
    ensures out.cache.Keys <= cache.Keys + {FixturePath(env, request)}
    ensures CacheInv(cache) ==> CacheInv(out.cache)
    ensures out.reply.None? ==> IsFixtureRequest(request)
    ensures !IsFixtureRequest(request) ==> out.cache == cache
  {
    var req := Get(request, "req");
    var reqid := Get(request, "reqid");
    if !Truthy(req) then Routed(Some(JObj(ErrorResponse(JNull, MissingReq))), cache)
    else if req == JStr(PingReq) then Routed(Some(JObj(PingResponse())), cache)
    else if req == JStr(EncryptedReq) then
      Routed(Some(JObj(HandleEncryptedLogin(env.decrypt, draw, request))), cache)
    else if !Truthy(reqid) then Routed(Some(JObj(ErrorResponse(JNull, MissingReqid))), cache)
    else if req == JStr(GetRsaPubReq) then
      Routed(Some(JObj(GetRsaPubResponse(reqid, env.publicKey, draw.sessionId))), cache)
    else if req == JStr(LoginReq) then
      Routed(Some(JObj(LoginResponse(reqid, draw.token, draw.longToken, draw.secret))), cache)
    else if req == JStr(GetHostNameReq) then Routed(Some(JObj(HostnameResponse(reqid))), cache)
    else
      var name := ReqName(env.show, req);
      var loaded := LoadJsonResponse(cache, env.store, env.parse, FilePath(name));
      match loaded.outcome
      case NotFound => Routed(Some(JObj(ErrorResponse(reqid, UnknownRequest + name))), loaded.cache)
      case Malformed => Routed(Some(JObj(ErrorResponse(reqid, InvalidFixture + name))), loaded.cache)
      case Failed => Routed(None, loaded.cache)
      case Fixture(doc) => Routed(RewriteFixture(doc, reqid), loaded.cache)
  }

  // ---------------------------------------------------------------------
  // The decision list, one step at a time
  // ---------------------------------------------------------------------

  /** A falsy or absent `req` is rejected without echoing any `reqid`, even one the request carries. */
  lemma RouteMissingReq(env: Env, cache: Cache, draw: Fresh, request: Obj)
    requires !Truthy(Get(request, "req"))
    ensures var out := Route(env, cache, draw, request);
            && out.cache == cache
            && out.reply == Some(JObj(map["result" := JStr("fail"), "errmsg" := JStr(MissingReq)]))
  {
  }

  /** `ping` gets exactly `{"res":"pong"}`, whatever else the request carries. */
  lemma RoutePing(env: Env, cache: Cache, draw: Fresh, request: Obj)
    requires Get(request, "req") == JStr(PingReq)
    ensures var out := Route(env, cache, draw, request);
            out.cache == cache && out.reply == Some(JObj(map["res" := JStr("pong")]))
  {
  }

  /**
    `encrypted` goes to the encrypted-login handler without any `reqid`
    check, and its reply does not depend on the request's `reqid`.
   */
  lemma RouteEncrypted(env: Env, cache: Cache, draw: Fresh, request: Obj, other: Json)
    requires Get(request, "req") == JStr(EncryptedReq)
    ensures var out := Route(env, cache, draw, request);
            && out.cache == cache
            && out.reply == Some(JObj(HandleEncryptedLogin(env.decrypt, draw, request)))
            && Route(env, cache, draw, request["reqid" := other]) == out
  {
  }

  /** Any other request with a falsy or absent `reqid` is rejected without echoing it. */
  lemma RouteMissingReqid(env: Env, cache: Cache, draw: Fresh, request: Obj)
    requires Truthy(Get(request, "req"))
    requires Get(request, "req") !in {JStr(PingReq), JStr(EncryptedReq)}
    requires !Truthy(Get(request, "reqid"))
    ensures var out := Route(env, cache, draw, request);
            && out.cache == cache
            && out.reply == Some(JObj(map["result" := JStr("fail"), "errmsg" := JStr(MissingReqid)]))
  {
  }

  /** The three bootstrap operations are answered by their builders with the request's `reqid`. */
  lemma RouteBootstrap(env: Env, cache: Cache, draw: Fresh, request: Obj)
    requires Truthy(Get(request, "reqid"))
    requires Get(request, "req") in {JStr(GetRsaPubReq), JStr(LoginReq), JStr(GetHostNameReq)}
    ensures var out := Route(env, cache, draw, request);
            var reqid := Get(request, "reqid");
            && out.cache == cache
            && out.reply.Some? && out.reply.value.JObj?
            && var r := out.reply.value.fields;
               && (Get(request, "req") == JStr(GetRsaPubReq) ==>
                     r == map["pub" := JStr(env.publicKey), "si" := JStr(draw.sessionId), "reqid" := reqid])
               && (Get(request, "req") == JStr(LoginReq) ==>
                     r == map["result" := Succ, "token" := JStr(draw.token), "longToken" := JStr(draw.longToken),
                              "secret" := JStr(draw.secret), "reqid" := reqid])
               && (Get(request, "req") == JStr(GetHostNameReq) ==> r == HostnameResponse(reqid))
  {
  }

  /**
    A fixture request has four outcomes, decided by the fixture load: the
    template with its `reqid` rewritten, an unknown-type failure, an
    invalid-format failure (both echoing `reqid`), or no reply at all.
   */
  lemma RouteFixture(env: Env, cache: Cache, draw: Fresh, request: Obj)
    requires IsFixtureRequest(request)
    ensures var out := Route(env, cache, draw, request);
            var reqid := Get(request, "reqid");
            var name := ReqName(env.show, Get(request, "req"));
            var loaded := LoadJsonResponse(cache, env.store, env.parse, FilePath(name));
            && out.cache == loaded.cache
            && (loaded.outcome.Fixture? ==> out.reply == RewriteFixture(loaded.outcome.doc, reqid))
            && (loaded.outcome.NotFound? ==>
                  out.reply == Some(JObj(map["result" := JStr("fail"), "errmsg" := JStr(UnknownRequest + name),
                                             "reqid" := reqid])))
            && (loaded.outcome.Malformed? ==>
                  out.reply == Some(JObj(map["result" := JStr("fail"), "errmsg" := JStr(InvalidFixture + name),
                                             "reqid" := reqid])))
            && (loaded.outcome.Failed? ==> out.reply.None?)
  {
  }

  /**
    Every non-ping reply to a request that passed the `reqid` check echoes
    that `reqid`, at the top level and in `data` wherever either is present.
   */
  lemma RouteEchoesReqid(env: Env, cache: Cache, draw: Fresh, request: Obj)
    requires Truthy(Get(request, "req"))
    requires Get(request, "req") !in {JStr(PingReq), JStr(EncryptedReq)}
    requires Truthy(Get(request, "reqid"))
    ensures var out := Route(env, cache, draw, request);
            out.reply.Some? && out.reply.value.JObj? ==>
              CarriesOnly(out.reply.value.fields, Get(request, "reqid"))
  {
  }

  /**
    Once a fixture request has been served from a loaded template, the same
    request is answered identically later, whatever storage holds by then
    and whatever random values are drawn.
   */
  lemma RouteFixtureRepeatable(env: Env, cache: Cache, draw: Fresh, request: Obj,
                               later: string -> FileRead, laterParse: string -> Option<Json>, laterDraw: Fresh)
    requires IsFixtureRequest(request)
    requires LoadJsonResponse(cache, env.store, env.parse, FixturePath(env, request)).outcome.Fixture?
    ensures var first := Route(env, cache, draw, request);
            Route(env.(store := later, parse := laterParse), first.cache, laterDraw, request) == first
  {
  }
}
