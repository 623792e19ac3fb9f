/** The fixed tables at the top of binancebus.py: the endpoint registry
    (DEF_HTTPS), the default request headers (DEF_HEADER) and the receive
    window sent with every signed request (DEF_RECV_WINDOW). */
module Registry {
  import opened PyModel

  datatype Verb = GET | POST | DELETE

  /** One registry entry: HTTP method, URL, and whether the call is signed. */
  datatype Endpoint = Endpoint(verb: Verb, url: string, auth: bool)

  const DefHttps: map<string, Endpoint> := map[
    "ping"             := Endpoint(GET,    "https://api.binance.com/api/v3/ping",         false),
    "get_server_time"  := Endpoint(GET,    "https://api.binance.com/api/v3/time",         false),
    "get_symbol_data"  := Endpoint(GET,    "https://api.binance.com/api/v3/exchangeInfo", false),
    "get_symbol_price" := Endpoint(GET,    "https://api.binance.com/api/v3/ticker/price", false),
    "get_user_data"    := Endpoint(GET,    "https://api.binance.com/api/v3/account",      true),
    "get_open_orders"  := Endpoint(GET,    "https://api.binance.com/api/v3/openOrders",   true),
    "get_order_info"   := Endpoint(GET,    "https://api.binance.com/api/v3/order",        true),
    "create_order"     := Endpoint(POST,   "https://api.binance.com/api/v3/order",        true),
    "cancel_order"     := Endpoint(DELETE, "https://api.binance.com/api/v3/order",        true)
  ]

  const RecvWindow: int := 5000

  /** The header key an authenticated call writes into the shared headers. */
  const ApiKeyHeader: string := "X-MBX-APIKEY"

  /** DEF_HEADER as the module creates it; the key is spelled `ContentType`. */
  const DefaultHeader: seq<(string, string)> := [
    ("ContentType", "application/x-www-form-urlencoded"),
    ("Accept", "application/json"),
    ("User-Agent", "binance/python/api")
  ]

  /** The operations that are sent unsigned. */
  const PublicNames: set<string> :=
    {"ping", "get_server_time", "get_symbol_data", "get_symbol_price"}

  /** The registry knows exactly nine operation names. */
  lemma RegistryNames()
    ensures DefHttps.Keys == PublicNames +
      {"get_user_data", "get_open_orders", "get_order_info", "create_order", "cancel_order"}
    ensures |DefHttps| == 9
  {
    var signed := {"get_user_data", "get_open_orders", "get_order_info", "create_order", "cancel_order"};
    assert |PublicNames| == 4;
    assert |signed| == 5;
    assert PublicNames !! signed;
    assert |PublicNames + signed| == 9;
  }

  /** The auth flag is off exactly for the four public operations. */
  lemma RegistryAuth(name: string)
    requires name in DefHttps
    ensures !DefHttps[name].auth <==> name in PublicNames
  {
  }

  /** Every operation is a GET except create_order (POST) and cancel_order (DELETE). */
  lemma RegistryVerbs(name: string)
    requires name in DefHttps
    ensures DefHttps[name].verb == POST <==> name == "create_order"
    ensures DefHttps[name].verb == DELETE <==> name == "cancel_order"
    ensures DefHttps[name].verb == GET <==> name != "create_order" && name != "cancel_order"
  {
  }

  /** The shape the shared header dict keeps for the whole run: the three
      defaults, in order, followed by at most the API-key entry. */
  predicate HeaderShape(h: seq<(string, string)>) {
    && |h| >= 3
    && h[..3] == DefaultHeader
    && (|h| == 3 || (|h| == 4 && h[3].0 == ApiKeyHeader))
  }

  /** Writing the API key keeps the header shape, leaves the defaults alone
      and makes the key readable under X-MBX-APIKEY. */
  lemma PutApiKeyKeepsShape(h: seq<(string, string)>, key: string)
    requires HeaderShape(h)
    ensures HeaderShape(Put(h, ApiKeyHeader, key))
    ensures Get(Put(h, ApiKeyHeader, key), ApiKeyHeader) == Some(key)
  {
    GetPut(h, ApiKeyHeader, key, ApiKeyHeader);
    DefaultKeys(h);
    var r := Put(h, ApiKeyHeader, key);
    if |h| == 3 {
      assert r[..3] == h;
    } else {
      assert HasKey(h, ApiKeyHeader) by { assert h[3].0 == ApiKeyHeader; }
      PutReplaces(h, ApiKeyHeader, key);
      assert r[3].0 == ApiKeyHeader;
      assert r[..3] == h[..3];
    }
  }

  lemma DefaultKeys(h: seq<(string, string)>)
    requires HeaderShape(h)
    ensures DistinctKeys(h)
    ensures |h| == 3 ==> !HasKey(h, ApiKeyHeader)
  {
    assert h[0] == DefaultHeader[0] && h[1] == DefaultHeader[1] && h[2] == DefaultHeader[2];
  }
}
