/** The BinanceBus client: request assembly in binance_response, the named
    wrappers, the dispatch of https_response, and the module-level state the
    client shares with every other client (DEF_HEADER and the default trace
    list of BinanceBusException). The HTTP transport is the `reply` input,
    the clock the `now` input, and `traceback.extract_stack()` the `stack`
    input. */
module Bus {
  import opened PyModel
  import opened Registry
  import opened UrlSign
  import opened Errors

  /** What is handed to `requests.get`, `requests.post` or `requests.delete`:
      the parameters go as query parameters for all three verbs. */
  datatype Request = Request(
    verb: Verb,
    url: string,
    headers: seq<(string, string)>,
    params: seq<(string, Value)>)

  /** How a call ends for its caller: a value, a raised BinanceBusException,
      or a Python error that escapes unclassified. */
  datatype Outcome<T> = Returned(value: T) | Raised(exc: BusException) | Crashed(error: PyError)

  const TimestampKey: string := "timestamp"
  const RecvWindowKey: string := "recvWindow"
  const SignatureKey: string := "signature"

  /** The map after `timestamp` and `recvWindow` are written, as it stands
      when the signature is computed. */
  function Stamped(m: seq<(string, Value)>, now: int): seq<(string, Value)> {
    Put(Put(m, TimestampKey, Int(now)), RecvWindowKey, Int(RecvWindow))
  }

  /** The map after all three writes of a signed call. */
  function Signed(m: seq<(string, Value)>, secret: string, now: int, lib: Lib): seq<(string, Value)> {
    Put(Stamped(m, now), SignatureKey, Text(Sign(lib, secret, Stamped(m, now))))
  }

  /** The parameters binance_response dispatches. */
  function Prepared(auth: bool, m: seq<(string, Value)>, secret: string, now: int, lib: Lib): seq<(string, Value)> {
    if auth then Signed(m, secret, now, lib) else m
  }

  predicate NoAuthKeys(m: seq<(string, Value)>) {
    !HasKey(m, TimestampKey) && !HasKey(m, RecvWindowKey) && !HasKey(m, SignatureKey)
  }

  /** A map without the three auth keys gains exactly three entries at its
      end, `timestamp`, `recvWindow` = 5000 and `signature`, in that order;
      the signature is the HMAC of the encoding of the map with the first
      two and without itself. */
  lemma SignedAppends(m: seq<(string, Value)>, secret: string, now: int, lib: Lib)
    requires NoAuthKeys(m)
    ensures var stamped := m + [(TimestampKey, Int(now)), (RecvWindowKey, Int(5000))];
      Signed(m, secret, now, lib) ==
        stamped + [(SignatureKey, Text(lib.hmacHex(secret, UrlEncode(stamped, lib.quotePlus))))]
  {
    var t := Put(m, TimestampKey, Int(now));
    assert t == m + [(TimestampKey, Int(now))];
    var s := Put(t, RecvWindowKey, Int(RecvWindow));
    assert s == m + [(TimestampKey, Int(now)), (RecvWindowKey, Int(5000))];
  }

  /** The string the signature covers: the caller's fields, then the
      timestamp and receive-window fields. */
  function SignedPayload(m: seq<(string, Value)>, now: int, q: string -> string): string {
    (if m == [] then "" else UrlEncode(m, q) + "&")
      + Field((TimestampKey, Int(now)), q) + "&" + Field((RecvWindowKey, Int(RecvWindow)), q)
  }

  lemma StampedEncoding(m: seq<(string, Value)>, now: int, q: string -> string)
    ensures UrlEncode(m + [(TimestampKey, Int(now)), (RecvWindowKey, Int(RecvWindow))], q)
      == SignedPayload(m, now, q)
  {
    var ts, rw := (TimestampKey, Int(now)), (RecvWindowKey, Int(RecvWindow));
    UrlEncodeAppend(m, ts, q);
    UrlEncodeAppend(m + [ts], rw, q);
    assert m + [ts] + [rw] == m + [ts, rw];
    if m == [] {
      assert SignedPayload(m, now, q) == Field(ts, q) + "&" + Field(rw, q);
    } else {
      assert SignedPayload(m, now, q) == UrlEncode(m, q) + "&" + Field(ts, q) + "&" + Field(rw, q);
    }
  }

  /** The signed string is the caller's encoding extended by the timestamp
      and receive-window fields, and the query string sent is that signed
      string followed by the signature field: the signature covers every
      parameter before it, in insertion order. */
  lemma SignatureCoversPrefix(m: seq<(string, Value)>, secret: string, now: int, lib: Lib)
    requires NoAuthKeys(m)
    ensures var payload := SignedPayload(m, now, lib.quotePlus);
      && Sign(lib, secret, Stamped(m, now)) == lib.hmacHex(secret, payload)
      && UrlEncode(Signed(m, secret, now, lib), lib.quotePlus) ==
           payload + "&" + Field((SignatureKey, Text(lib.hmacHex(secret, payload))), lib.quotePlus)
  {
    var q := lib.quotePlus;
    var stamped := m + [(TimestampKey, Int(now)), (RecvWindowKey, Int(RecvWindow))];
    SignedAppends(m, secret, now, lib);
    assert Stamped(m, now) == stamped;
    StampedEncoding(m, now, q);
    var sig := (SignatureKey, Text(lib.hmacHex(secret, SignedPayload(m, now, q))));
    assert Signed(m, secret, now, lib) == stamped + [sig];
    UrlEncodeAppend(stamped, sig, q);
  }

  /** The caller's parameter map (an OrderedDict), mutated in place. */
  class ParamMap {
    var entries: seq<(string, Value)>

    /** An OrderedDict holds each key once. */
    ghost predicate Valid()
      reads this
    {
      DistinctKeys(entries)
    }

    /** `OrderedDict(init)` for a literal list of distinct keys. */
    constructor (init: seq<(string, Value)>)
      requires DistinctKeys(init)
      ensures Valid() && entries == init
    {
      entries := init;
    }

    /** `data[k] = v` */
    method Set(k: string, v: Value)
      requires Valid()
      modifies this
      ensures Valid()
      ensures entries == Put(old(entries), k, v)
    {
      PutKeepsDistinct(entries, k, v);
      entries := Put(entries, k, v);
    }
  }

  /** The module's mutable globals: the DEF_HEADER dict that every call
      hands to the transport without copying it, and the list object that
      is the default `trace` argument of BinanceBusException. */
  class ModuleState {
    var header: seq<(string, string)>
    const defaultTrace: TraceList

    ghost predicate Valid()
      reads this
    {
      HeaderShape(header)
    }

    constructor ()
      ensures Valid() && header == DefaultHeader
      ensures fresh(defaultTrace) && defaultTrace.items == []
    {
      header := DefaultHeader;
      defaultTrace := new TraceList();
    }

    /** `DEF_HEADER['X-MBX-APIKEY'] = key` */
    method WriteApiKey(key: string)
      requires Valid()
      modifies this
      ensures Valid()
      ensures header == Put(old(header), ApiKeyHeader, key)
      ensures Get(header, ApiKeyHeader) == Some(key)
    {
      PutApiKeyKeepsShape(header, key);
      header := Put(header, ApiKeyHeader, key);
    }
  }

  class BinanceBus {
    const apiSecret: string
    const apiKey: string
    const globals: ModuleState

    constructor (apiSecret: string, apiKey: string, globals: ModuleState)
      ensures this.apiSecret == apiSecret && this.apiKey == apiKey && this.globals == globals
    {
      this.apiSecret := apiSecret;
      this.apiKey := apiKey;
      this.globals := globals;
    }

    /** The shared header after a call: it gains this client's API key when
        the call is signed, and is untouched otherwise. */
    twostate predicate HeaderAfter(auth: bool)
      reads globals
    {
      globals.header == if auth then Put(old(globals.header), ApiKeyHeader, apiKey) else old(globals.header)
    }

    /** The caller sees what the verdict says, an exception raised for a
        classified failure carries the shared default trace list, and that
        list captured the stack if and only if it was empty and an exception
        was constructed. */
    twostate predicate Settled<T>(v: Verdict, new result: Outcome<T>, onBody: Json -> T, stack: seq<TraceNode>)
      reads globals.defaultTrace
    {
      && (v.Body? ==> result == Returned(onBody(v.json)))
      && (v.Crash? ==> result == Crashed(v.error))
      && (v.Fail? ==>
            result.Raised? && fresh(result.exc) &&
            result.exc.what == v.message && result.exc.traceback == globals.defaultTrace)
      && globals.defaultTrace.items ==
           if v.Fail? then InitTrace(old(globals.defaultTrace.items), stack)
           else old(globals.defaultTrace.items)
    }

    /** `https_response`: hand the request to the transport, then classify
        what came back. Every exception it raises is constructed with the
        default trace list. */
    method HttpsResponse(verb: Verb, url: string, header: seq<(string, string)>,
                         params: seq<(string, Value)>, reply: Reply,
                         stack: seq<TraceNode>, lib: Lib)
      returns (sent: Request, result: Outcome<Json>)
      modifies globals.defaultTrace
      ensures sent == Request(verb, url, header, params)
      ensures Settled(Classify(reply, lib.repr), result, j => j, stack)
    {
      sent := Request(verb, url, header, params);
      var v := Classify(reply, lib.repr);
      match v
      case Body(j) =>
        result := Returned(j);
      case Crash(e) =>
        result := Crashed(e);
      case Fail(m) =>
        var exc := new BusException(m, globals.defaultTrace, stack);
        result := Raised(exc);
    }

    /** `binance_response(name, data)`, with `data == null` for an omitted
        map. An unknown name raises KeyError before anything changes. */
    method BinanceResponse(name: string, data: ParamMap?, now: int, reply: Reply,
                           stack: seq<TraceNode>, lib: Lib)
      returns (sent: Option<Request>, result: Outcome<Json>)
      requires globals.Valid()
      requires data != null ==> data.Valid()
      modifies globals, globals.defaultTrace, data
      ensures globals.Valid()
      ensures data != null ==> data.Valid()
      ensures name !in DefHttps ==>
        && sent == None && result == Crashed(KeyError)
        && unchanged(globals, globals.defaultTrace)
        && (data != null ==> unchanged(data))
      ensures name in DefHttps ==>
        var ep := DefHttps[name];
        var given := if data == null then [] else old(data.entries);
        var params := Prepared(ep.auth, given, apiSecret, now, lib);
        && HeaderAfter(ep.auth)
        && (data != null ==> data.entries == params)
        && sent == Some(Request(ep.verb, ep.url, globals.header, params))
        && Settled(Classify(reply, lib.repr), result, j => j, stack)
    {
      if name !in DefHttps {
        return None, Crashed(KeyError);
      }
      var ep := DefHttps[name];
      var respData := data;
      if respData == null {
        respData := new ParamMap([]);
      }
      ghost var given := respData.entries;
      if ep.auth {
        globals.WriteApiKey(apiKey);
        respData.Set(TimestampKey, Int(now));
        respData.Set(RecvWindowKey, Int(RecvWindow));
        assert respData.entries == Stamped(given, now);
        respData.Set(SignatureKey, Text(Sign(lib, apiSecret, respData.entries)));
      }
      assert respData.entries == Prepared(ep.auth, given, apiSecret, now, lib);
      var request;
      request, result := HttpsResponse(ep.verb, ep.url, globals.header, respData.entries, reply, stack, lib);
      sent := Some(request);
    }

    /** `ping()`: true whenever the dispatch does not raise. */
    method Ping(reply: Reply, stack: seq<TraceNode>, lib: Lib)
      returns (sent: Option<Request>, result: Outcome<bool>)
      requires globals.Valid()
      modifies globals, globals.defaultTrace
      ensures globals.Valid() && HeaderAfter(false)
      ensures sent == Some(Request(GET, "https://api.binance.com/api/v3/ping", globals.header, []))
      ensures Settled(Classify(reply, lib.repr), result, _ => true, stack)
    {
      var r;
      sent, r := BinanceResponse("ping", null, 0, reply, stack, lib);
      match r
      case Returned(_) => result := Returned(true);
      case Raised(e) => result := Raised(e);
      case Crashed(e) => result := Crashed(e);
    }

    method GetServerTime(reply: Reply, stack: seq<TraceNode>, lib: Lib)
      returns (sent: Option<Request>, result: Outcome<Json>)
      requires globals.Valid()
      modifies globals, globals.defaultTrace
      ensures globals.Valid() && HeaderAfter(false)
      ensures sent == Some(Request(GET, "https://api.binance.com/api/v3/time", globals.header, []))
      ensures Settled(Classify(reply, lib.repr), result, j => j, stack)
    {
      sent, result := BinanceResponse("get_server_time", null, 0, reply, stack, lib);
    }

    method GetSymbolData(reply: Reply, stack: seq<TraceNode>, lib: Lib)
      returns (sent: Option<Request>, result: Outcome<Json>)
      requires globals.Valid()
      modifies globals, globals.defaultTrace
      ensures globals.Valid() && HeaderAfter(false)
      ensures sent == Some(Request(GET, "https://api.binance.com/api/v3/exchangeInfo", globals.header, []))
      ensures Settled(Classify(reply, lib.repr), result, j => j, stack)
    {
      sent, result := BinanceResponse("get_symbol_data", null, 0, reply, stack, lib);
    }

    method GetSymbolPrice(symbol: Value, reply: Reply, stack: seq<TraceNode>, lib: Lib)
      returns (sent: Option<Request>, result: Outcome<Json>)
      requires globals.Valid()
      modifies globals, globals.defaultTrace
      ensures globals.Valid() && HeaderAfter(false)
      ensures sent == Some(Request(GET, "https://api.binance.com/api/v3/ticker/price", globals.header,
                                   [("symbol", symbol)]))
      ensures Settled(Classify(reply, lib.repr), result, j => j, stack)
    {
      var data := new ParamMap([("symbol", symbol)]);
      sent, result := BinanceResponse("get_symbol_price", data, 0, reply, stack, lib);
    }

    method GetUserData(now: int, reply: Reply, stack: seq<TraceNode>, lib: Lib)
      returns (sent: Option<Request>, result: Outcome<Json>)
      requires globals.Valid()
      modifies globals, globals.defaultTrace
      ensures globals.Valid() && HeaderAfter(true)
      ensures sent == Some(Request(GET, "https://api.binance.com/api/v3/account", globals.header,
                                   Signed([], apiSecret, now, lib)))
      ensures Settled(Classify(reply, lib.repr), result, j => j, stack)
    {
      sent, result := BinanceResponse("get_user_data", null, now, reply, stack, lib);
    }

    method GetOpenOrders(symbol: Value, now: int, reply: Reply, stack: seq<TraceNode>, lib: Lib)
      returns (sent: Option<Request>, result: Outcome<Json>)
      requires globals.Valid()
      modifies globals, globals.defaultTrace
      ensures globals.Valid() && HeaderAfter(true)
      ensures sent == Some(Request(GET, "https://api.binance.com/api/v3/openOrders", globals.header,
                                   Signed([("symbol", symbol)], apiSecret, now, lib)))
      ensures Settled(Classify(reply, lib.repr), result, j => j, stack)
    {
      var data := new ParamMap([("symbol", symbol)]);
      sent, result := BinanceResponse("get_open_orders", data, now, reply, stack, lib);
    }

    method GetOrderInfo(symbol: Value, orderId: Value, now: int, reply: Reply,
                        stack: seq<TraceNode>, lib: Lib)
      returns (sent: Option<Request>, result: Outcome<Json>)
      requires globals.Valid()
      modifies globals, globals.defaultTrace
      ensures globals.Valid() && HeaderAfter(true)
      ensures sent == Some(Request(GET, "https://api.binance.com/api/v3/order", globals.header,
                                   Signed([("symbol", symbol), ("orderId", orderId)], apiSecret, now, lib)))
      ensures Settled(Classify(reply, lib.repr), result, j => j, stack)
    {
      var data := new ParamMap([("symbol", symbol), ("orderId", orderId)]);
      sent, result := BinanceResponse("get_order_info", data, now, reply, stack, lib);
    }

    method CreateOrder(symbol: Value, side: Value, quantity: Value, price: Value, now: int,
                       reply: Reply, stack: seq<TraceNode>, lib: Lib)
      returns (sent: Option<Request>, result: Outcome<Json>)
      requires globals.Valid()
      modifies globals, globals.defaultTrace
      ensures globals.Valid() && HeaderAfter(true)
      ensures sent == Some(Request(POST, "https://api.binance.com/api/v3/order", globals.header,
                                   Signed(OrderFields(symbol, side, quantity, price), apiSecret, now, lib)))
      ensures Settled(Classify(reply, lib.repr), result, j => j, stack)
    {
      var data := new ParamMap([("symbol", symbol), ("side", side), ("type", Text("LIMIT")),
                                ("timeInForce", Text("GTC")), ("quantity", quantity),
                                ("price", price), ("newOrderRespType", Text("RESULT"))]);
      sent, result := BinanceResponse("create_order", data, now, reply, stack, lib);
    }

    method CancelOrder(symbol: Value, orderId: Value, now: int, reply: Reply,
                       stack: seq<TraceNode>, lib: Lib)
      returns (sent: Option<Request>, result: Outcome<Json>)
      requires globals.Valid()
      modifies globals, globals.defaultTrace
      ensures globals.Valid() && HeaderAfter(true)
      ensures sent == Some(Request(DELETE, "https://api.binance.com/api/v3/order", globals.header,
                                   Signed([("symbol", symbol), ("orderId", orderId)], apiSecret, now, lib)))
      ensures Settled(Classify(reply, lib.repr), result, j => j, stack)
    {
      var data := new ParamMap([("symbol", symbol), ("orderId", orderId)]);
      sent, result := BinanceResponse("cancel_order", data, now, reply, stack, lib);
    }
  }

  /** The order ticket createOrder builds, in its key order. */
  function OrderFields(symbol: Value, side: Value, quantity: Value, price: Value): seq<(string, Value)> {
    [("symbol", symbol), ("side", side), ("type", Text("LIMIT")), ("timeInForce", Text("GTC")),
     ("quantity", quantity), ("price", price), ("newOrderRespType", Text("RESULT"))]
  }

  // -----------------------------------------------------------------------
  // What the shared module state means for a sequence of calls

  /** Every client writes into the one DEF_HEADER: after client `a` makes a
      signed call, an unsigned call by client `b`, which never signed
      anything, still sends `a`'s API key. */
  method SharedHeaderScenario(g: ModuleState, a: BinanceBus, b: BinanceBus, now: int,
                              first: Reply, second: Reply, stack: seq<TraceNode>, lib: Lib)
    returns (sent: Option<Request>)
    requires g.Valid() && a.globals == g && b.globals == g
    modifies g, g.defaultTrace
    ensures sent.Some? && HeaderShape(sent.value.headers)
    ensures Get(sent.value.headers, ApiKeyHeader) == Some(a.apiKey)
  {
    var _, _ := a.GetUserData(now, first, stack, lib);
    GetPut(old(g.header), ApiKeyHeader, a.apiKey, ApiKeyHeader);
    var pong;
    sent, pong := b.Ping(second, stack, lib);
  }

  /** The default `trace` list is one object: the first classified failure
      captures its stack into it, and a later failure's exception carries the
      same list, still holding the first stack. */
  method DefaultTraceScenario(g: ModuleState, bus: BinanceBus, first: Reply, second: Reply,
                              firstStack: seq<TraceNode>, secondStack: seq<TraceNode>, lib: Lib)
    returns (e1: BusException, e2: BusException)
    requires g.Valid() && bus.globals == g && g.defaultTrace.items == []
    requires Classify(first, lib.repr).Fail? && Classify(second, lib.repr).Fail?
    requires |firstStack| >= 2
    modifies g, g.defaultTrace
    ensures e1 != e2 && e1.traceback == g.defaultTrace && e2.traceback == g.defaultTrace
    ensures g.defaultTrace.items == firstStack[..|firstStack| - 1]
  {
    var _, o1 := bus.GetServerTime(first, firstStack, lib);
    e1 := o1.exc;
    var _, o2 := bus.GetServerTime(second, secondStack, lib);
    e2 := o2.exc;
  }

  /** Two pings are two independent requests: the same request is sent each
      time, and each returns true when its own reply decodes as a success. */
  method PingTwice(bus: BinanceBus, first: Reply, second: Reply, stack: seq<TraceNode>, lib: Lib)
    returns (sent1: Option<Request>, sent2: Option<Request>, r1: Outcome<bool>, r2: Outcome<bool>)
    requires bus.globals.Valid()
    modifies bus.globals, bus.globals.defaultTrace
    ensures sent1 == sent2 && sent1.Some?
    ensures Classify(first, lib.repr).Body? ==> r1 == Returned(true)
    ensures Classify(second, lib.repr).Body? ==> r2 == Returned(true)
  {
    sent1, r1 := bus.Ping(first, stack, lib);
    sent2, r2 := bus.Ping(second, stack, lib);
  }
}
