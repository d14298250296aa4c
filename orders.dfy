/**
 * The request-building steps of `place_bitget_order` (app.py:48-80) and
 * `place_bybit_order` (app.py:87-116). The order size is
 * `str(round(balance * percent / price, 6))`, float arithmetic that the model
 * leaves out, so it arrives here as the string `size`. Timestamps, keys and
 * secrets come from the clock and the environment and are parameters.
 */
module Orders {
  import opened Wrappers
  import opened JsonValues
  import opened Text
  import opened Signing

  const BitgetBalancePath := "/api/spot/v1/account/assets"
  const BitgetOrderPath := "/api/spot/v1/trade/place-order"

  const AccessKey := "ACCESS-KEY"
  const AccessSign := "ACCESS-SIGN"
  const AccessTimestamp := "ACCESS-TIMESTAMP"
  const AccessPassphrase := "ACCESS-PASSPHRASE"
  const ContentType := "Content-Type"

  /** The body Bitget's place-order call sends and signs (app.py:68-74). */
  function BitgetOrderBody(symbol: string, side: string, size: string): (b: Json)
    ensures b.Obj? && Truthy(b)
    ensures Names(b.members) == ["symbol", "side", "orderType", "force", "size"]
    ensures DistinctNames(b.members)
    ensures Lookup(b.members, "symbol") == Some(Str(symbol))
    ensures Lookup(b.members, "side") == Some(Str(side))
    ensures Lookup(b.members, "orderType") == Some(Str("market"))
    ensures Lookup(b.members, "force") == Some(Str("normal"))
    ensures Lookup(b.members, "size") == Some(Str(size))
  {
    var members := [("symbol", Str(symbol)), ("side", Str(side)), ("orderType", Str("market")),
                    ("force", Str("normal")), ("size", Str(size))];
    assert Names(members) == ["symbol", "side", "orderType", "force", "size"];
    assert DistinctNames(members);
    LookupDistinct(members, 0); LookupDistinct(members, 1); LookupDistinct(members, 2);
    LookupDistinct(members, 3); LookupDistinct(members, 4);
    Obj(members)
  }

  /** Bybit only knows "Buy" and "Sell" (app.py:106). */
  function BybitSide(side: string): (r: string)
    ensures r == "Buy" <==> side == "buy"
    ensures r == "Sell" <==> side != "buy"
  {
    if side == "buy" then "Buy" else "Sell"
  }

  /** The parameters of Bybit's wallet-balance call (app.py:90). */
  function BybitBalanceParams(): (p: Json)
    ensures p.Obj?
    ensures Names(p.members) == ["category", "coin"]
    ensures DistinctNames(p.members)
    ensures Lookup(p.members, "category") == Some(Str("spot"))
    ensures Lookup(p.members, "coin") == Some(Str("USDT"))
  {
    var members := [("category", Str("spot")), ("coin", Str("USDT"))];
    assert Names(members) == ["category", "coin"];
    assert DistinctNames(members);
    LookupDistinct(members, 0); LookupDistinct(members, 1);
    Obj(members)
  }

  /** The parameters of Bybit's order-create call (app.py:103-109). */
  function BybitOrderParams(symbol: string, side: string, qty: string): (p: Json)
    ensures p.Obj?
    ensures Names(p.members) == ["category", "symbol", "side", "orderType", "qty"]
    ensures DistinctNames(p.members)
    ensures Lookup(p.members, "category") == Some(Str("spot"))
    ensures Lookup(p.members, "symbol") == Some(Str(symbol))
    ensures Lookup(p.members, "side") == Some(Str(BybitSide(side)))
    ensures Lookup(p.members, "orderType") == Some(Str("Market"))
    ensures Lookup(p.members, "qty") == Some(Str(qty))
  {
    var members := [("category", Str("spot")), ("symbol", Str(symbol)), ("side", Str(BybitSide(side))),
                    ("orderType", Str("Market")), ("qty", Str(qty))];
    assert Names(members) == ["category", "symbol", "side", "orderType", "qty"];
    assert DistinctNames(members);
    LookupDistinct(members, 0); LookupDistinct(members, 1); LookupDistinct(members, 2);
    LookupDistinct(members, 3); LookupDistinct(members, 4);
    Obj(members)
  }

  /** Bybit's four signing headers (app.py:94, app.py:114). */
  function BybitHeaders(apiKey: string, sign: string, timestamp: string): (h: map<string, string>)
    ensures h.Keys == {"X-BAPI-API-KEY", "X-BAPI-SIGN", "X-BAPI-TIMESTAMP", "X-BAPI-RECV-WINDOW"}
    ensures h["X-BAPI-SIGN"] == sign && h["X-BAPI-TIMESTAMP"] == timestamp
    ensures h["X-BAPI-API-KEY"] == apiKey && h["X-BAPI-RECV-WINDOW"] == RecvWindow
  {
    map["X-BAPI-API-KEY" := apiKey, "X-BAPI-SIGN" := sign,
        "X-BAPI-TIMESTAMP" := timestamp, "X-BAPI-RECV-WINDOW" := RecvWindow]
  }

  /** A Python dict of request headers, updated in place. */
  class Headers {
    var entries: map<string, string>

    constructor (initial: map<string, string>)
      ensures entries == initial
    {
      entries := initial;
    }

    /** `headers.copy()`: a new dict with the same entries. */
    method Copy() returns (c: Headers)
      ensures fresh(c) && c.entries == entries
    {
      c := new Headers(entries);
    }

    /** `headers[key] = value` */
    method Put(key: string, value: string)
      modifies this
      ensures entries == old(entries)[key := value]
    {
      entries := entries[key := value];
    }
  }

  /** The five headers of the balance call (app.py:53-59). */
  function BitgetHeaderMap(apiKey: string, sign: string, timestamp: string, passphrase: string)
    : (h: map<string, string>)
    ensures h.Keys == {AccessKey, AccessSign, AccessTimestamp, AccessPassphrase, ContentType}
    ensures h[AccessSign] == sign && h[AccessTimestamp] == timestamp
    ensures h[AccessKey] == apiKey && h[AccessPassphrase] == passphrase
    ensures h[ContentType] == "application/json"
  {
    map[AccessKey := apiKey, AccessSign := sign, AccessTimestamp := timestamp,
        AccessPassphrase := passphrase, ContentType := "application/json"]
  }

  /**
   * Re-signing the balance call's headers gives exactly the headers the
   * order call would have built from scratch with the new signature and
   * timestamp: the key, passphrase and content type carry over unchanged.
   */
  lemma BitgetHeadersResigned(apiKey: string, sign: string, timestamp: string, passphrase: string,
                              sign2: string, timestamp2: string)
    ensures BitgetHeaderMap(apiKey, sign, timestamp, passphrase)[AccessSign := sign2][AccessTimestamp := timestamp2]
         == BitgetHeaderMap(apiKey, sign2, timestamp2, passphrase)
  {
  }

  /**
   * Lines 77-79: a copy of `headers` whose signature and timestamp are
   * replaced; every other header is carried over, and the original dict
   * is left as it was.
   */
  method Resign(headers: Headers, sign: string, timestamp: string) returns (headers2: Headers)
    ensures fresh(headers2)
    ensures headers.entries == old(headers.entries)
    ensures headers2.entries == headers.entries[AccessSign := sign][AccessTimestamp := timestamp]
    ensures headers2.entries.Keys == headers.entries.Keys + {AccessSign, AccessTimestamp}
    ensures headers2.entries[AccessSign] == sign && headers2.entries[AccessTimestamp] == timestamp
    ensures forall k | k in headers.entries && k != AccessSign && k != AccessTimestamp ::
      headers2.entries[k] == headers.entries[k]
  {
    headers2 := headers.Copy();
    headers2.Put(AccessSign, sign);
    headers2.Put(AccessTimestamp, timestamp);
  }

  /**
   * The requests `place_bitget_order` sends, in order: the balance call's
   * headers, signed over GET and the path alone at `ts`, then the order body
   * and the order call's headers, signed over POST, the path and the body
   * at `ts2`.
   */
  method BitgetOrderRequest(apiKey: string, secret: string, passphrase: string,
                            symbol: string, side: string, size: string, ts: string, ts2: string,
                            hmac: (string, string) -> string, dumps: Json -> string)
    returns (balanceHeaders: Headers, body: Json, orderHeaders: Headers)
    ensures fresh(balanceHeaders) && fresh(orderHeaders) && balanceHeaders != orderHeaders
    ensures balanceHeaders.entries
      == BitgetHeaderMap(apiKey, hmac(secret, ts + "GET" + BitgetBalancePath), ts, passphrase)
    ensures body == BitgetOrderBody(symbol, side, size)
    ensures orderHeaders.entries
      == BitgetHeaderMap(apiKey, hmac(secret, ts2 + "POST" + BitgetOrderPath + dumps(body)), ts2, passphrase)
  {
    var sign := BitgetSign(secret, "GET", BitgetBalancePath, Str(""), ts, hmac, dumps);
    BitgetBalancePreimage(ts, dumps);
    balanceHeaders := new Headers(BitgetHeaderMap(apiKey, sign, ts, passphrase));
    body := BitgetOrderBody(symbol, side, size);
    var sign2 := BitgetSign(secret, "POST", BitgetOrderPath, body, ts2, hmac, dumps);
    UpperOfMethods();
    orderHeaders := Resign(balanceHeaders, sign2, ts2);
    BitgetHeadersResigned(apiKey, sign, ts, passphrase, sign2, ts2);
  }

  /**
   * The requests `place_bybit_order` sends: the wallet-balance call signed
   * over its parameters at `ts`, then the order call signed over the order
   * parameters at `ts2`; both carry the receive window they signed.
   */
  method BybitOrderRequest(apiKey: string, secret: string, symbol: string, side: string,
                           qty: string, ts: string, ts2: string,
                           hmac: (string, string) -> string, dumps: Json -> string)
    returns (balanceParams: Json, balanceHeaders: map<string, string>,
             orderParams: Json, orderHeaders: map<string, string>)
    ensures balanceParams == BybitBalanceParams()
    ensures balanceHeaders == BybitHeaders(apiKey, hmac(secret, apiKey + ts + "5000" + dumps(balanceParams)), ts)
    ensures orderParams == BybitOrderParams(symbol, side, qty)
    ensures Lookup(orderParams.members, "side") == Some(Str(if side == "buy" then "Buy" else "Sell"))
    ensures orderHeaders == BybitHeaders(apiKey, hmac(secret, apiKey + ts2 + "5000" + dumps(orderParams)), ts2)
  {
    balanceParams := BybitBalanceParams();
    var sign := BybitSign(secret, apiKey, balanceParams, ts, hmac, dumps);
    balanceHeaders := BybitHeaders(apiKey, sign, ts);
    orderParams := BybitOrderParams(symbol, side, qty);
    var sign2 := BybitSign(secret, apiKey, orderParams, ts2, hmac, dumps);
    orderHeaders := BybitHeaders(apiKey, sign2, ts2);
  }
}
