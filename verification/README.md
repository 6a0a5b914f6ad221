# fnOS mock server: request engine model

A Dafny model of the request-handling engine of the fnOS mock server. The
server accepts framed JSON requests from an fnOS client, answers the
bootstrap requests itself (ping, RSA public key, login, host name, encrypted
login), and serves every other request type from canned fixture files. The
fixture's `reqid` correlation field is rewritten to match the request.

The model has four modules:

- `Json` (json.dfy): decoded JSON values, Python truthiness (`bool(v)`) and
  `dict.get` with its `None` default.
- `Decoder` (decoder.dfy): `parse_request`. It recovers the JSON payload
  behind a signature prefix of unknown length. It tries the whole message
  first, then offset 44, then every offset below `min(100, len)`.
  `json.loads` is an abstract partial function `string -> Option<Json>`.
- `Responses` (responses.dfy): the reply builders, `replace_reqid`,
  `get_response_file_path`, and `load_json_response` with its cache. The
  cache is a `map` from path to document, threaded through explicitly. The
  file store is an abstract function from path to file contents.
- `Handlers` (handlers.dfy): `route_request` as a first-match decision
  list, and the control flow of `handle_encrypted_login_request`. Its
  cryptography is a decryption oracle that either fails or yields the
  decrypted login payload and the re-encrypted secret.

These become parameters:

- The random values (token, long token, encrypted secret, session id, and
  the fallback token), collected in `Fresh`.
- The public key.
- The fixture store and `json.load`.
- Python's `str()` of a non-string `req`.
- The decryption oracle.

`route_request` returns `Option<Json>`. Its final `except Exception`
branch logs and falls off the end of the function, so it returns `None`.
The model keeps that outcome as `None` and does not replace it with an
error reply.

Points of the code's behaviour that the model keeps as written:

- `.copy()` at server/responses.py:39 and 49 is shallow. Documents are
  values here, so no mutation can leak. `replace_reqid` copies `data`
  before writing to it.
- The decoded payload can be any JSON value, not only an object.
  `TrailingNumberIsRecovered` shows `"abc123"` decoding to `123`.
- A payload behind a short prefix can lose to an offset tried earlier. If
  the whole message fails and the suffix at 44 parses, that suffix wins over
  any shorter prefix. For other prefix lengths, a smaller scanned offset
  that parses wins. `RecoversPayload` gives a sufficient condition for
  recovery. An empty prefix always wins, and a 44-character prefix wins
  once the whole message fails.
- `os.path.join('responses', name + '.json')` drops the directory when
  `name` starts with `/`, and `FilePath` models that.
- `load_json_response` calls `.copy()` on the parsed document. A top-level
  value that is neither a list nor an object therefore raises
  `AttributeError` and is not cached.
- `replace_reqid` on a top-level list raises `TypeError` when the list
  contains the string `"reqid"` or `"data"`. Both cases reach the router's
  catch-all and give no reply.

## Model

| member | source | states |
|---|---|---|
| Decoder.FirstParsable | server/handlers.py:109-115 | the scan returns the least offset in the range whose suffix parses, and returns nothing only if no offset in the range parses |
| Decoder.ParseRequest | server/handlers.py:78-118 | if the whole message parses, its value wins. Otherwise a parseable suffix at 44 wins, even over smaller offsets. Otherwise the least scanned offset below min(100, len) wins. It fails, with the fixed ValueError message, exactly when all of these fail |
| Decoder.FirstParsableLocal | server/handlers.py:109-115 | the scan's result depends only on how the suffixes inside the scanned range parse |
| Decoder.ParseRequestTriesOnlyKnownOffsets | server/handlers.py:93-118 | the decoder tries no offsets besides the whole message, 44 and the scanned range: parsers that agree on those suffixes decode every message alike |
| Decoder.RecoversPayload | server/handlers.py:93-113 | a sufficient condition for recovering a payload behind a prefix shorter than 100 characters. An empty prefix needs nothing more. A 44-character prefix needs only the whole message to fail. Any other prefix needs every smaller offset and offset 44 to fail |
| Decoder.TrailingNumberIsRecovered | server/handlers.py:107-113 | the scan can yield a non-object: with a number parser, "abc123" decodes to 123 |
| Responses.ErrorResponse | server/responses.py:83-102 | result is fail with the given errmsg and nothing else, plus reqid if and only if the given reqid is truthy |
| Responses.PingResponse | server/responses.py:188-196 | the reply has only the key res, holding pong: no result and no reqid |
| Responses.GetRsaPubResponse | server/responses.py:118-137 | exactly the keys pub, si and reqid, with the public key, the session id and the echoed reqid |
| Responses.LoginResponse | server/responses.py:140-162 | exactly result = succ, token, longToken, secret and the echoed reqid |
| Responses.HostnameResponse | server/responses.py:165-185 | result = succ, req = appcgi.sysinfo.getHostName and the echoed reqid; data holds only hostName www.timandes.cn and trimVersion 1.0.0 |
| Responses.ReplaceReqid | server/responses.py:55-80 | the key set is preserved. The top-level reqid is replaced only if it was present, and data.reqid only if data is an object that holds one. Every other field, inside data too, is unchanged |
| Responses.RewriteCarriesOnlyNewReqid | server/responses.py:66-78 | after a rewrite, every reqid the document carries, top-level or in data, is the new one |
| Responses.ReplaceReqidLastWriteWins | server/responses.py:55-80 | rewriting with a and then b is the same as rewriting with b |
| Responses.ReplaceReqidIdempotent | server/responses.py:55-80 | rewriting twice with the same reqid equals rewriting once |
| Responses.ReplaceReqidWithoutReqid | server/responses.py:66-80 | a document with no top-level reqid and no data.reqid is returned unchanged: no reqid is ever added |
| Responses.RewriteFixture | server/responses.py:66-80 | an object fixture is rewritten. A list fixture comes back unchanged, unless it holds the string reqid or data: indexing it then raises, and there is no result. Any other value has no copy and gives no result |
| Responses.FilePath | server/responses.py:105-115 | the path ends in .json. A relative name gives exactly responses/, the name, then .json. An absolute name makes os.path.join drop the directory, so the path is the name itself followed by .json |
| Responses.FilePathInjective | server/responses.py:105-115 | distinct request names give distinct fixture paths, so they never share a cache entry |
| Responses.LoadJsonResponse | server/responses.py:23-52 | a cached path returns the cached document without reading storage. Otherwise a first load that parses to a list or object returns it and caches it under its path. Not-found happens exactly when the file is missing, and leaves the cache unchanged. The decode error happens exactly when the text does not parse. Any other failure happens exactly when the file is unreadable or parses to a value with no copy. The cache changes only on a successful load |
| Responses.LoadIsStable | server/responses.py:36-52 | after one successful load, later loads of that path return the same document and leave the cache unchanged, whatever storage holds by then |
| Handlers.FallbackReqid | server/handlers.py:223 | the fallback reqid is the first min(32, len) characters of the fresh token, as Python's [:32] keeps them |
| Handlers.HandleEncryptedLogin | server/handlers.py:173-225 | always a login success with the fresh tokens. A request missing iv, rsa or aes raises KeyError, never reaches decryption and gets the fallback reqid and the random secret. A payload that decrypts to an object supplies the reqid (null if absent) and the re-encrypted secret. Any oracle failure, or a non-object payload, also gives the fallback |
| Handlers.Route | server/handlers.py:121-170 | cached templates are never altered. The cache grows only by the request's own fixture path, and only for fixture requests. A request gets no reply only on the fixture path |
| Handlers.RouteMissingReq | server/handlers.py:130-134 | a falsy or absent req gives exactly result fail and the missing-req message, with no reqid even if the request has one |
| Handlers.RoutePing | server/handlers.py:136-138 | req ping gives exactly res pong, whatever else the request holds |
| Handlers.RouteEncrypted | server/handlers.py:140-143 | req encrypted goes to the encrypted-login handler with no reqid check, and the reply does not depend on the request's reqid |
| Handlers.RouteMissingReqid | server/handlers.py:145-147 | any other req with a falsy reqid gives exactly result fail and the missing-reqid message, with no reqid |
| Handlers.RouteBootstrap | server/handlers.py:149-155 | the three bootstrap names are answered by their builders with the request's reqid, and the cache is untouched |
| Handlers.RouteFixture | server/handlers.py:157-170 | a fixture request has four outcomes. A hit gives the rewritten fixture. A missing file gives Unknown request type with reqid echoed. A decode error gives Invalid response format with reqid echoed. Any other error gives no reply |
| Handlers.RouteEchoesReqid | server/handlers.py:145-170 | every object reply to a request that passed the reqid check echoes that reqid, at the top level and in data, wherever either is present |
| Handlers.RouteFixtureRepeatable | server/handlers.py:157-162 | once a fixture has loaded, the same request later gets the identical reply, whatever storage and random values are by then |

## Left out

- The WebSocket connection loop (`handle_websocket`, server/handlers.py:30-75). It is transport I/O. That loop also owns three outcomes:
  - A decode failure is sent as `{"result":"fail","errmsg":...}`.
  - A non-object payload raises `AttributeError` at line 49 and closes the connection. This is why `Route` takes an object.
  - A `None` reply is serialised as `null`.
- The cryptography of the encrypted login (server/handlers.py:184-212). This covers the private-key file, base64 decoding of the three fields present in the request, RSA PKCS#1 v1.5, AES-CBC, padding and `json.loads` of the payload. All of it is foreign library code, so it is reduced to the `Decryption` oracle.
- Handlers.HandleEncryptedLogin: line 225 comes after an unconditional `return`, so it can never run, and the model has no branch for it.
- server/utils.py. It covers random tokens, the session id, the random encrypted secret and the PEM key read at import time. These become the `Fresh` values and the `publicKey` parameter. Their formats, such as lengths and base32, are not modelled.
- server/main.py. It covers argument parsing, logging setup and the FastAPI/uvicorn wiring, all of which are process setup.
- Real JSON parsing, serialisation and key order, and the file system. These are abstract functions. Floating-point JSON numbers are not modelled.
- Decoder.ParseRequest: any exception `json.loads` raises other than `JSONDecodeError` aborts the decoder, because it escapes the `except json.JSONDecodeError` clauses at server/handlers.py:97, 104 and 114. No later offset is tried. A `ValueError` (an integer literal over 4300 digits) is caught at server/handlers.py:59, and the loop replies with its message instead of the fixed one. A `RecursionError` on deep nesting is not a `ValueError`, so it reaches server/handlers.py:69 and the connection is closed with no reply. The abstract parser does not model either.
- Logging calls. They have no effect on replies.
- Concurrent access to `_response_cache`. The cache is single-threaded state threaded through `Route`.
