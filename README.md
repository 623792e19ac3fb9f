# BinanceBus client core, modelled in Dafny

BinanceBus is a thin Python client for the exchange's REST API (`binancebus.py`).
This project models its sequential core:

- the endpoint registry `DEF_HTTPS` (nine operations, each a verb, a URL and an auth flag),
  the default headers `DEF_HEADER` and the receive window `DEF_RECV_WINDOW` = 5000;
- request assembly in `binance_response`: for a signed endpoint the caller's `OrderedDict`
  is mutated in place with `timestamp`, `recvWindow` and `signature`, and the API key is
  written into the module-global header dict, which is never copied;
- the named wrappers (`ping` … `cancelOrder`) and the fixed key order of the maps they build;
- `getURLDataHash`: HMAC-SHA256 over the `urlencode` serialisation of the map;
- the classification in `https_response`: return the decoded body, raise
  `ERROR: <Binance API>: Code {code} MSG {msg}`, raise `ERROR: <HTTPS_P >: Code {status}`,
  raise `ERROR: <HTTP_T>: MSG Connection error`, or let a Python error escape;
- `BinanceBusException.__init__`, whose default argument `trace = []` is one list shared by
  every exception, so only the first default-constructed exception captures a stack.

Files, one module each:

| file | module | models |
|---|---|---|
| `pymodel.dfy` | `PyModel` | values, decoded JSON, `str()` of an int, dict/OrderedDict assignment, `in` on JSON, the foreign functions |
| `registry.dfy` | `Registry` | `DEF_HTTPS`, `DEF_HEADER`, `DEF_RECV_WINDOW` |
| `urlsign.dfy` | `UrlSign` | `urlencode` and `getURLDataHash`, with the reading side of the query string |
| `errors.dfy` | `Errors` | the three messages, the classification, `BinanceBusException` |
| `bus.dfy` | `Bus` | module globals, the caller's parameter map, the `BinanceBus` class |

Foreign code is abstracted. HMAC-SHA256 with hex output, `quote_plus` and Python's `str()` of
floats, lists and dicts are function-typed fields of the datatype `Lib`, passed in. The clock
`timestampNow()` becomes the argument `now`. The HTTP transport becomes the argument `reply`:
a connection failure, or a response with its `ok` flag, its status and its body as decoded
JSON (`None` when the body is not valid JSON). `traceback.extract_stack()` becomes the
argument `stack`. The module globals (`DEF_HEADER` and the default trace list) are one
`ModuleState` object shared by every `BinanceBus`.

Behaviour of the code that is easy to misread; the model follows the code:

- the status message reads `ERROR: <HTTPS_P >: Code …`, with a space before `>`;
- a non-ok response whose body is not JSON (an empty body, an HTML error page) is not
  classified: `response_data.json()` raises and the decoder's error escapes (`ServerErrorReply`);
  so does a non-ok body that decodes to a number, a boolean or null, at the `in` test (`ScalarErrorBody`);
- an OrderedDict assignment to a key that is already present keeps its position. So a caller
  map that already holds `timestamp`, `recvWindow` or `signature` does not gain three entries
  at its end. `Signed` models this; `SignedAppends` states the three-entry append for maps
  without those keys, which covers every wrapper;
- `'code' in js_error` is a key test on a dict, an element test on a list and a substring
  test on a string, and raises TypeError on a number, a boolean or null. A list or string
  that passes both tests then fails at `js_error['code']` with TypeError (`Classify`).

## Model

| member | source | states |
|---|---|---|
| `Registry.RegistryNames` | binancebus.py:22-31 | the registry holds exactly nine operation names, the four public ones and five signed ones |
| `Registry.RegistryAuth` | binancebus.py:22-31 | the auth flag is false exactly for `ping`, `get_server_time`, `get_symbol_data`, `get_symbol_price` |
| `Registry.RegistryVerbs` | binancebus.py:22-31 | every operation is GET except `create_order` (POST) and `cancel_order` (DELETE) |
| `Registry.PutApiKeyKeepsShape` | binancebus.py:16-19 | writing the API key keeps the three default headers in place and in order, adds at most the one `X-MBX-APIKEY` entry, and makes it read back as the key |
| `PyModel.Put` | binancebus.py:100-103 | dict assignment: a new key is appended at the end and an existing key keeps the length |
| `PyModel.PutReplaces` | binancebus.py:100-103 | on a dict with distinct keys, assigning a present key changes only that entry's value; keys stay distinct and in order |
| `PyModel.PutKeepsDistinct` | binancebus.py:100-103 | dict assignment keeps the keys distinct, whether the key was present or not |
| `PyModel.GetPut` | binancebus.py:100-103 | after `d[k] = v`, `d[k]` reads `v` and every other key reads as before |
| `PyModel.IntStrRoundTrip` | binancebus.py:121-123 | the decimal text `%s` gives an int parses back to that int, so the status code in a message is exact |
| `PyModel.IntStrInjective` | binancebus.py:121-123 | two ints have the same decimal text if and only if they are equal |
| `PyModel.JsonContains` | binancebus.py:120 | `in` on decoded JSON raises TypeError exactly for numbers, booleans and null |
| `UrlSign.SplitJoin` | binancebus.py:131 | splitting on `&` a join of parts without `&` gives the parts back |
| `UrlSign.UrlEncodeDecodes` | binancebus.py:131 | the query string of a non-empty map decodes to one quoted key/value pair per entry, in map order, when quoting escapes `&` and `=` |
| `UrlSign.UrlEncodeAppend` | binancebus.py:131 | adding an entry extends the encoding by `&` and one field (or is that field alone for the empty map) |
| `Errors.ClassifyOk` | binancebus.py:116-117 | an ok response returns its decoded body unchanged; an ok body that is not JSON escapes as a decode error |
| `Errors.ClassifyNotOk` | binancebus.py:118-123 | a non-ok response is never returned; it raises a classified error exactly in the listed cases, with the exchange's code and message when the body is an object holding both, and the status message otherwise |
| `Errors.ClassifyConnection` | binancebus.py:124-125 | a connection failure raises exactly `ERROR: <HTTP_T>: MSG Connection error` |
| `Errors.CategoryOfStatus` | binancebus.py:123 | the status message is read back as an HTTP failure carrying that status |
| `Errors.ClassifiedCategory` | binancebus.py:116-125 | every classified message tells which of the three failures happened, both ways, and recovers the status of an unstructured HTTP failure |
| `Errors.InvalidSymbolReply` | binancebus.py:119-121 | HTTP 400 with `{"code": -1121, "msg": "Invalid symbol."}` raises exactly `ERROR: <Binance API>: Code -1121 MSG Invalid symbol.` |
| `Errors.ServerErrorReply` | binancebus.py:117-123 | HTTP 500 whose body is any JSON object lacking `code` or `msg` raises `ERROR: <HTTPS_P >: Code 500`; with an undecodable body the decoder's error escapes |
| `Errors.ScalarErrorBody` | binancebus.py:118-120 | a non-ok body that decodes to a number, a boolean or null is not classified: the TypeError of the `in` test escapes, whatever the status |
| `Errors.CapturedOnce` | binancebus.py:38-45 | once the shared default list has captured a stack, a later default-constructed exception keeps that trace and captures nothing |
| `Errors.TraceList.constructor` | binancebus.py:38 | the default `trace` argument is a new, empty list |
| `Errors.BusException.constructor` | binancebus.py:38-45 | the message and the given list are stored; an empty list receives every frame but the last, in stack order; a non-empty list is unchanged |
| `Bus.SignedAppends` | binancebus.py:99-103 | a map without the auth keys gains exactly `timestamp`, `recvWindow` = 5000 and `signature` at its end, in that order, earlier entries unchanged |
| `Bus.StampedEncoding` | binancebus.py:101-103 | the string signed is the caller's encoding followed by the timestamp and receive-window fields |
| `Bus.SignatureCoversPrefix` | binancebus.py:130-133 | the signature is the HMAC under the secret of the encoding of all earlier parameters, without itself, and the query string sent is that string followed by the signature field |
| `Bus.ParamMap.constructor` | binancebus.py:63-98 | an `OrderedDict` built from distinct keys holds exactly those entries, in the order given |
| `Bus.ParamMap.Set` | binancebus.py:101-103 | `data[k] = v` on the caller's map is dict assignment, in place, and the map keeps each key once |
| `Bus.ModuleState.constructor` | binancebus.py:16-38 | the header dict starts as the three defaults and the default trace list starts empty |
| `Bus.ModuleState.WriteApiKey` | binancebus.py:100 | the API key is written into the shared header, keeping its shape, and reads back as the key |
| `Bus.BinanceBus.constructor` | binancebus.py:48-50 | a client stores its API secret and key, and shares the module state given to it |
| `Bus.BinanceBus.HttpsResponse` | binancebus.py:107-125 | the request handed to the transport carries the given verb, URL, headers and parameters; the caller sees what the classification decides, and each raised exception is new and carries the shared default list |
| `Bus.BinanceBus.BinanceResponse` | binancebus.py:94-105 | an unknown name raises KeyError and changes nothing; otherwise the shared header gains the key exactly when signed, the caller's map (or a fresh empty one) is signed in place exactly when signed and keeps each key once, and that map and the shared header are what is sent |
| `Bus.BinanceBus.Ping` | binancebus.py:52-54 | sends an unsigned GET to `/ping` with no parameters and returns true whenever dispatch does not raise |
| `Bus.BinanceBus.GetServerTime` | binancebus.py:56-57 | unsigned GET to `/time`, no parameters, body returned |
| `Bus.BinanceBus.GetSymbolData` | binancebus.py:59-60 | unsigned GET to `/exchangeInfo`, no parameters, body returned |
| `Bus.BinanceBus.GetSymbolPrice` | binancebus.py:62-64 | unsigned GET to `/ticker/price` with exactly `symbol` |
| `Bus.BinanceBus.GetUserData` | binancebus.py:66-67 | signed GET to `/account` whose only parameters are the three auth entries |
| `Bus.BinanceBus.GetOpenOrders` | binancebus.py:69-71 | signed GET to `/openOrders` with `symbol`, then the auth entries |
| `Bus.BinanceBus.GetOrderInfo` | binancebus.py:73-75 | signed GET to `/order` with `symbol`, `orderId`, then the auth entries |
| `Bus.BinanceBus.CreateOrder` | binancebus.py:77-86 | signed POST to `/order` with symbol, side, type=LIMIT, timeInForce=GTC, quantity, price, newOrderRespType=RESULT, then the auth entries |
| `Bus.BinanceBus.CancelOrder` | binancebus.py:88-92 | signed DELETE to `/order` with `symbol`, `orderId`, then the auth entries |
| `Bus.SharedHeaderScenario` | binancebus.py:97-100 | after one client's signed call, another client's unsigned call still sends the first client's API key |
| `Bus.DefaultTraceScenario` | binancebus.py:38-45 | two classified failures raise two exceptions sharing one trace list, which holds the first failure's stack only |
| `Bus.PingTwice` | binancebus.py:52-54 | two pings send the same request twice and each returns true when its own reply succeeds |

## Left out

- The HTTP calls `requests.get/post/delete` (binancebus.py:109-114): network I/O. The reply is an input; `ok` is taken as given rather than derived from the status.
- HMAC-SHA256 and its hex encoding, and `quote_plus` percent-encoding: foreign library code, kept as uninterpreted functions in `Lib`. Properties of the query string assume only that quoting escapes `&` and `=`.
- `str()` of floats, lists and dicts inside the API error message: foreign formatting, kept as the uninterpreted `repr` in `Lib`.
- `timestampNow` (binancebus.py:127-128): a float clock read; the millisecond timestamp is the input `now`.
- `traceback.extract_stack` and JSON decoding: runtime introspection and parsing; the stack and the decoded body are inputs.
- Values other than strings and ints in a caller's map: urlencode applies `str()` to anything, and only these two kinds are modelled.
- JSON objects with repeated keys: a decoded dict has distinct keys, and `Get` returns the first match.
- Thread safety of the shared header dict: the code has no concurrency.
