/**
  Response builders, the `reqid` rewrite applied to canned fixtures, the
  fixture file path, and the fixture cache in front of the file store.

  Values the server draws at random (tokens, the encrypted placeholder
  secret, the session id) and the public key it reads at start-up are
  parameters here.
 */
module Responses {
  import opened Json

  const Succ := JStr("succ")
  const Fail := JStr("fail")

  const GetHostNameReq := "appcgi.sysinfo.getHostName"
  const HostName := "www.timandes.cn"
  const TrimVersion := "1.0.0"

  /** Directory the fixture files live in. */
  const ResponsesDir := "responses"

  // ---------------------------------------------------------------------
  // Shapes of the replies
  // ---------------------------------------------------------------------

  /** `{"result":"fail","errmsg":msg}`, with `reqid` echoed when one is given. */
  predicate IsFailure(r: Obj, errmsg: string) {
    && r.Keys <= {"result", "errmsg", "reqid"}
    && "result" in r && r["result"] == Fail
    && "errmsg" in r && r["errmsg"] == JStr(errmsg)
  }

  /** A successful login reply: exactly these five keys, tokens and secret as strings. */
  predicate IsLoginSuccess(r: Obj) {
    && r.Keys == {"result", "token", "longToken", "secret", "reqid"}
    && r["result"] == Succ
    && r["token"].JStr? && r["longToken"].JStr? && r["secret"].JStr?
  }

  // ---------------------------------------------------------------------
  // Builders
  // ---------------------------------------------------------------------

  /**
    `build_error_response`: a failure carrying the message, and the `reqid`
    if and only if the given one is truthy; a falsy one is never echoed.
   */
  function ErrorResponse(reqid: Json, errmsg: string): (r: Obj)
    ensures IsFailure(r, errmsg)
    ensures "reqid" in r <==> Truthy(reqid)
    ensures "reqid" in r ==> r["reqid"] == reqid
  {
    var base := map["result" := Fail, "errmsg" := JStr(errmsg)];
    if Truthy(reqid) then base["reqid" := reqid] else base
  }

  /** `build_ping_response`: the pong marker and nothing else, in particular no `result` or `reqid`. */
  function PingResponse(): (r: Obj)
    ensures r.Keys == {"res"} && r["res"] == JStr("pong")
  {
    map["res" := JStr("pong")]
  }

  /** `build_get_rsa_pub_response`: the public key, a session id and the echoed `reqid`, nothing else. */
  function GetRsaPubResponse(reqid: Json, publicKey: string, sessionId: string): (r: Obj)
    ensures r.Keys == {"pub", "si", "reqid"}
    ensures r["pub"] == JStr(publicKey) && r["si"] == JStr(sessionId) && r["reqid"] == reqid
  {
    map["pub" := JStr(publicKey), "si" := JStr(sessionId), "reqid" := reqid]
  }

  /** `build_login_response`: a login success carrying the fresh values and the echoed `reqid`. */
  function LoginResponse(reqid: Json, token: string, longToken: string, secret: string): (r: Obj)
    ensures IsLoginSuccess(r)
    ensures r["reqid"] == reqid
    ensures r["token"] == JStr(token) && r["longToken"] == JStr(longToken) && r["secret"] == JStr(secret)
  {
    map["result" := Succ, "token" := JStr(token), "longToken" := JStr(longToken),
        "secret" := JStr(secret), "reqid" := reqid]
  }

  /**
    `build_get_hostname_response`: a success that names its request, echoes
    `reqid`, and nests the fixed host name and version under `data`, whose
    own keys carry no `reqid`.
   */
  function HostnameResponse(reqid: Json): (r: Obj)
    ensures r.Keys == {"result", "req", "reqid", "data"}
    ensures r["result"] == Succ && r["req"] == JStr(GetHostNameReq) && r["reqid"] == reqid
    ensures r["data"].JObj? && r["data"].fields.Keys == {"hostName", "trimVersion"}
    ensures r["data"].fields["hostName"] == JStr(HostName)
    ensures r["data"].fields["trimVersion"] == JStr(TrimVersion)
  {
    map["result" := Succ, "req" := JStr(GetHostNameReq), "reqid" := reqid,
        "data" := JObj(map["hostName" := JStr(HostName), "trimVersion" := JStr(TrimVersion)])]
  }

  // ---------------------------------------------------------------------
  // reqid rewriting
  // ---------------------------------------------------------------------

  /** `data` is an object that already holds a `reqid`. */
  predicate HasNestedReqid(m: Obj) {
    "data" in m && m["data"].JObj? && "reqid" in m["data"].fields
  }

  /**
    `replace_reqid` on an object. Only two fields may change: the top-level
    `reqid` when it was already present, and `data.reqid` when `data` is an
    object that already holds one. Nothing is ever added, and every other
    field, including every other field of `data`, is kept.
   */
  function ReplaceReqid(m: Obj, reqid: Json): (r: Obj)
    ensures r.Keys == m.Keys
    ensures "reqid" in m ==> r["reqid"] == reqid
    ensures forall k :: k in m && k != "reqid" && k != "data" ==> r[k] == m[k]
    ensures HasNestedReqid(m) ==>
              && r["data"].JObj?
              && r["data"].fields.Keys == m["data"].fields.Keys
              && r["data"].fields["reqid"] == reqid
              && forall k :: k in m["data"].fields && k != "reqid" ==> r["data"].fields[k] == m["data"].fields[k]
    ensures "data" in m && !HasNestedReqid(m) ==> r["data"] == m["data"]
  {
    var top := if "reqid" in m then m["reqid" := reqid] else m;
    if HasNestedReqid(top) then
      top["data" := JObj(top["data"].fields["reqid" := reqid])]
    else top
  }

  /** After a rewrite, every `reqid` the document carries, top-level or in `data`, is the new one. */
  predicate CarriesOnly(r: Obj, reqid: Json) {
    && ("reqid" in r ==> r["reqid"] == reqid)
    && (HasNestedReqid(r) ==> r["data"].fields["reqid"] == reqid)
  }

  lemma RewriteCarriesOnlyNewReqid(m: Obj, reqid: Json)
    ensures CarriesOnly(ReplaceReqid(m, reqid), reqid)
  {
  }

  /** Rewriting twice is rewriting once with the last value. */
  lemma ReplaceReqidLastWriteWins(m: Obj, a: Json, b: Json)
    ensures ReplaceReqid(ReplaceReqid(m, a), b) == ReplaceReqid(m, b)
  {
    var once := ReplaceReqid(m, a);
    var twice := ReplaceReqid(once, b);
    var direct := ReplaceReqid(m, b);
    assert HasNestedReqid(once) <==> HasNestedReqid(m);
    forall k | k in twice
      ensures twice[k] == direct[k]
    {
      if k == "data" && HasNestedReqid(m) {
        assert twice[k].fields == direct[k].fields;
      }
    }
  }

  /** Rewriting with the same value twice changes nothing more. */
  lemma ReplaceReqidIdempotent(m: Obj, reqid: Json)
    ensures ReplaceReqid(ReplaceReqid(m, reqid), reqid) == ReplaceReqid(m, reqid)
  {
    ReplaceReqidLastWriteWins(m, reqid, reqid);
  }

  /** A document with neither a top-level nor a nested `reqid` comes back as it was. */
  lemma ReplaceReqidWithoutReqid(m: Obj, reqid: Json)
    requires "reqid" !in m && !HasNestedReqid(m)
    ensures ReplaceReqid(m, reqid) == m
  {
  }

  /**
    `replace_reqid` applied to whatever the fixture file holds. An object is
    rewritten. A list survives `.copy()`, but indexing it with `'reqid'` or
    `'data'` raises `TypeError`, so a list holding either string gives
    nothing; any other list comes back as it was. Anything else has no
    `.copy()` and gives nothing.
   */
  function RewriteFixture(doc: Json, reqid: Json): (r: Option<Json>)
    ensures doc.JObj? ==> r == Some(JObj(ReplaceReqid(doc.fields, reqid)))
    ensures doc.JArr? ==> (r.Some? <==> JStr("reqid") !in doc.items && JStr("data") !in doc.items)
    ensures doc.JArr? && r.Some? ==> r.value == doc
    ensures !doc.JObj? && !doc.JArr? ==> r.None?
  {
    match doc
    case JObj(m) => Some(JObj(ReplaceReqid(m, reqid)))
    case JArr(items) =>
      if JStr("reqid") in items || JStr("data") in items then None else Some(doc)
    case _ => None
  }

  // ---------------------------------------------------------------------
  // Fixture file path
  // ---------------------------------------------------------------------

  /** The path starts with a slash, so `os.path.join` drops the directory. */
  predicate IsAbsolute(p: string) {
    |p| > 0 && p[0] == '/'
  }

  /**
    `get_response_file_path`: `os.path.join('responses', name + '.json')`
    on a POSIX system. An absolute name escapes the responses directory.
   */
  function FilePath(name: string): (p: string)
    ensures |p| >= 5 && p[|p| - 5..] == ".json"
    ensures !IsAbsolute(name) ==> ResponsesDir + "/" <= p && |p| == |ResponsesDir| + 1 + |name| + 5
    ensures !IsAbsolute(name) ==> p[|ResponsesDir| + 1 .. |p| - 5] == name
    ensures IsAbsolute(name) ==> name <= p && |p| == |name| + 5
  {
    var file := name + ".json";
    if IsAbsolute(file) then file else ResponsesDir + "/" + file
  }

  /** Distinct request names never share a fixture file, so never share a cache entry. */
  lemma FilePathInjective(a: string, b: string)
    requires FilePath(a) == FilePath(b)
    ensures a == b
  {
    var pa, pb := FilePath(a), FilePath(b);
    if IsAbsolute(a) == IsAbsolute(b) {
      assert |a| == |b|;
      var off := if IsAbsolute(a) then 0 else |ResponsesDir| + 1;
      forall k | 0 <= k < |a|
        ensures a[k] == b[k]
      {
        assert pa[off + k] == a[k];
        assert pb[off + k] == b[k];
      }
    }
  }

  // ---------------------------------------------------------------------
  // Fixture cache
  // ---------------------------------------------------------------------

  /** The cache, keyed by fixture file path. */
  type Cache = map<string, Json>

  /**
    What reading a fixture file yields: no such file, its text, or any other
    failure. `Unreadable` covers I/O and text-decoding errors, and every
    exception `json.load` raises other than `JSONDecodeError` (a
    `RecursionError` on deep nesting, a `ValueError` on an over-long integer
    literal).
   */
  datatype FileRead = Missing | Unreadable | Contents(text: string)

  /**
    The outcome of `load_json_response`: the document, `FileNotFoundError`,
    `JSONDecodeError`, or any other exception.
   */
  datatype LoadOutcome = Fixture(doc: Json) | NotFound | Malformed | Failed

  datatype Loading = Loading(outcome: LoadOutcome, cache: Cache)

  /** The value has a `.copy()`, that is, it is a list or an object. */
  predicate Copyable(v: Json) {
    v.JArr? || v.JObj?
  }

  /** Every cached template is a list or an object. */
  predicate CacheInv(c: Cache) {
    forall p :: p in c ==> Copyable(c[p])
  }

  /**
    `load_json_response` with `_response_cache`. A cached path is served
    from the cache without consulting storage. Otherwise a missing file is
    `NotFound`, unparsable text is `Malformed`, and a parsed list or object
    is cached and returned. `Failed` is an unreadable file, or a parsed value
    with no `.copy()`. The cache changes only when a list or object is
    loaded, and only by adding the new path.
   */
  function LoadJsonResponse(cache: Cache, store: string -> FileRead, parse: string -> Option<Json>,
                            path: string): (out: Loading)
    ensures path in cache ==> out == Loading(Fixture(cache[path]), cache)
    ensures path !in cache && store(path).Missing? ==> out == Loading(NotFound, cache)
    ensures path !in cache && store(path).Contents? && parse(store(path).text).Some?
              && Copyable(parse(store(path).text).value) ==>
              out == Loading(Fixture(parse(store(path).text).value),
                             cache[path := parse(store(path).text).value])
    ensures out.outcome.NotFound? <==> path !in cache && store(path).Missing?
    ensures out.outcome.Malformed? <==>
              path !in cache && store(path).Contents? && parse(store(path).text).None?
    ensures out.outcome.Failed? <==>
              && path !in cache
              && (|| store(path).Unreadable?
                  || (store(path).Contents? && parse(store(path).text).Some?
                      && !Copyable(parse(store(path).text).value)))
    ensures out.cache == cache || (path !in cache && out.outcome.Fixture? && out.cache == cache[path := out.outcome.doc])
    ensures out.cache != cache ==>
              store(path).Contents? && parse(store(path).text) == Some(out.outcome.doc)
    ensures out.outcome.Fixture? ==> path in out.cache && out.cache[path] == out.outcome.doc
    ensures out.outcome.Fixture? ==> Copyable(out.outcome.doc) || path in cache
    ensures CacheInv(cache) ==> CacheInv(out.cache)
  {
    if path in cache then Loading(Fixture(cache[path]), cache)
    else
      match store(path)
      case Missing => Loading(NotFound, cache)
      case Unreadable => Loading(Failed, cache)
      case Contents(text) =>
        match parse(text)
        case None => Loading(Malformed, cache)
        case Some(doc) =>
          if Copyable(doc) then Loading(Fixture(doc), cache[path := doc])
          else Loading(Failed, cache)
  }

  /**
    Once a load succeeds, every later load of the same path returns the
    same document and leaves the cache alone, whatever storage then holds.
   */
  lemma LoadIsStable(cache: Cache, store: string -> FileRead, parse: string -> Option<Json>,
                     later: string -> FileRead, laterParse: string -> Option<Json>, path: string)
    requires LoadJsonResponse(cache, store, parse, path).outcome.Fixture?
    ensures var first := LoadJsonResponse(cache, store, parse, path);
            LoadJsonResponse(first.cache, later, laterParse, path) == first
  {
  }
}
