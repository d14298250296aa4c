/**
 * `bitget_sign` (app.py:43-46) and `bybit_sign` (app.py:83-85). HMAC-SHA256
 * with hex encoding is foreign code: it comes in as `hmac(secret, message)`,
 * and `json.dumps` as `dumps`. The model fixes the message each exchange
 * signs, the preimage.
 */
module Signing {
  import opened JsonValues
  import opened Text

  /** The receive window Bybit signs and also sends as a header. */
  const RecvWindow := "5000"

  /**
   * What Bitget signs: the timestamp, the upper-cased HTTP verb and the
   * request path, then the serialised body when the body is truthy.
   */
  function BitgetPreimage(verb: string, url: string, body: Json, timestamp: string,
                          dumps: Json -> string): string {
    timestamp + Upper(verb) + url + (if Truthy(body) then dumps(body) else "")
  }

  function BitgetSign(secret: string, verb: string, url: string, body: Json, timestamp: string,
                      hmac: (string, string) -> string, dumps: Json -> string): string {
    hmac(secret, BitgetPreimage(verb, url, body, timestamp, dumps))
  }

  /**
   * What Bybit signs: the API key, the timestamp, the receive window and
   * the serialised parameters, in that order.
   */
  function BybitPreimage(apiKey: string, params: Json, timestamp: string,
                         dumps: Json -> string): string {
    apiKey + timestamp + RecvWindow + dumps(params)
  }

  function BybitSign(secret: string, apiKey: string, params: Json, timestamp: string,
                     hmac: (string, string) -> string, dumps: Json -> string): string {
    hmac(secret, BybitPreimage(apiKey, params, timestamp, dumps))
  }

  lemma UpperOfMethods()
    ensures Upper("GET") == "GET" && Upper("POST") == "POST"
    ensures Upper("get") == "GET" && Upper("post") == "POST"
  {
  }

  /** The balance request signs only timestamp, verb and path: its body '' is falsy. */
  lemma BitgetBalancePreimage(timestamp: string, dumps: Json -> string)
    ensures BitgetPreimage("GET", "/api/spot/v1/account/assets", Str(""), timestamp, dumps)
      == timestamp + "GET" + "/api/spot/v1/account/assets"
  {
    UpperOfMethods();
  }

  /** A non-empty body is serialised after the path; an empty one adds nothing. */
  lemma BitgetPreimageShape(verb: string, url: string, body: Json, timestamp: string,
                            dumps: Json -> string)
    ensures var p := BitgetPreimage(verb, url, body, timestamp, dumps);
      && var head := timestamp + Upper(verb) + url;
      && StartsWith(p, head)
      && (Truthy(body) ==> p == head + dumps(body))
      && (!Truthy(body) ==> p == head)
      && |p| >= |timestamp| + |verb| + |url|
  {
    var head := timestamp + Upper(verb) + url;
    var p := BitgetPreimage(verb, url, body, timestamp, dumps);
    assert p[..|head|] == head;
  }

  /**
   * Two Bitget signatures over the same request differ only if their
   * timestamps do: equal preimages force equal timestamps.
   */
  lemma {:induction false} BitgetPreimageFixesTimestamp(verb: string, url: string, body: Json,
                                                       ts1: string, ts2: string, dumps: Json -> string)
    requires BitgetPreimage(verb, url, body, ts1, dumps) == BitgetPreimage(verb, url, body, ts2, dumps)
    ensures ts1 == ts2
  {
    var tail := Upper(verb) + url + (if Truthy(body) then dumps(body) else "");
    assert BitgetPreimage(verb, url, body, ts1, dumps) == ts1 + tail;
    assert BitgetPreimage(verb, url, body, ts2, dumps) == ts2 + tail;
    assert ts1 == (ts1 + tail)[..|ts1|];
    assert ts2 == (ts2 + tail)[..|ts2|];
  }

  /**
   * A signed POST preimage fixes the serialised body it carries: two truthy
   * bodies signed alike for one request serialise to the same text.
   */
  lemma {:induction false} BitgetPreimageFixesBody(verb: string, url: string, b1: Json, b2: Json,
                                                  timestamp: string, dumps: Json -> string)
    requires Truthy(b1) && Truthy(b2)
    requires BitgetPreimage(verb, url, b1, timestamp, dumps) == BitgetPreimage(verb, url, b2, timestamp, dumps)
    ensures dumps(b1) == dumps(b2)
  {
    var head := timestamp + Upper(verb) + url;
    assert BitgetPreimage(verb, url, b1, timestamp, dumps) == head + dumps(b1);
    assert BitgetPreimage(verb, url, b2, timestamp, dumps) == head + dumps(b2);
    assert dumps(b1) == (head + dumps(b1))[|head|..];
    assert dumps(b2) == (head + dumps(b2))[|head|..];
  }

  /**
   * For one API key and millisecond timestamps of one width, a Bybit
   * preimage fixes both the timestamp and the serialised parameters.
   */
  lemma {:induction false} BybitPreimageFixesTimestampAndParams(apiKey: string, p1: Json, p2: Json,
                                                               ts1: string, ts2: string, dumps: Json -> string)
    requires |ts1| == |ts2|
    requires BybitPreimage(apiKey, p1, ts1, dumps) == BybitPreimage(apiKey, p2, ts2, dumps)
    ensures ts1 == ts2 && dumps(p1) == dumps(p2)
  {
    var x1 := BybitPreimage(apiKey, p1, ts1, dumps);
    var x2 := BybitPreimage(apiKey, p2, ts2, dumps);
    assert x1 == apiKey + ts1 + RecvWindow + dumps(p1);
    assert x2 == apiKey + ts2 + RecvWindow + dumps(p2);
    var k := |apiKey|;
    assert ts1 == x1[k..k + |ts1|];
    assert ts2 == x2[k..k + |ts2|];
    var h := k + |ts1| + |RecvWindow|;
    assert dumps(p1) == x1[h..];
    assert dumps(p2) == x2[h..];
  }

  /**
   * Signing is a function of its inputs, and a fresh timestamp gives a fresh
   * Bitget preimage; so two equal signatures at different timestamps would
   * be an HMAC collision on two different messages.
   */
  lemma BitgetSignFreshTimestamp(secret: string, verb: string, url: string, body: Json,
                                 ts1: string, ts2: string,
                                 hmac: (string, string) -> string, dumps: Json -> string)
    requires ts1 != ts2
    ensures BitgetPreimage(verb, url, body, ts1, dumps) != BitgetPreimage(verb, url, body, ts2, dumps)
    ensures (BitgetSign(secret, verb, url, body, ts1, hmac, dumps)
             == BitgetSign(secret, verb, url, body, ts2, hmac, dumps)) ==>
      var m1, m2 := BitgetPreimage(verb, url, body, ts1, dumps), BitgetPreimage(verb, url, body, ts2, dumps);
      m1 != m2 && hmac(secret, m1) == hmac(secret, m2)
  {
    if BitgetPreimage(verb, url, body, ts1, dumps) == BitgetPreimage(verb, url, body, ts2, dumps) {
      BitgetPreimageFixesTimestamp(verb, url, body, ts1, ts2, dumps);
    }
  }

  /** The same for Bybit: a fresh timestamp gives a fresh preimage. */
  lemma BybitSignFreshTimestamp(secret: string, apiKey: string, params: Json,
                                ts1: string, ts2: string,
                                hmac: (string, string) -> string, dumps: Json -> string)
    requires ts1 != ts2
    ensures BybitPreimage(apiKey, params, ts1, dumps) != BybitPreimage(apiKey, params, ts2, dumps)
    ensures (BybitSign(secret, apiKey, params, ts1, hmac, dumps)
             == BybitSign(secret, apiKey, params, ts2, hmac, dumps)) ==>
      var m1, m2 := BybitPreimage(apiKey, params, ts1, dumps), BybitPreimage(apiKey, params, ts2, dumps);
      m1 != m2 && hmac(secret, m1) == hmac(secret, m2)
  {
    var m1, m2 := BybitPreimage(apiKey, params, ts1, dumps), BybitPreimage(apiKey, params, ts2, dumps);
    if m1 == m2 {
      assert |m1| == |apiKey| + |ts1| + |RecvWindow| + |dumps(params)|;
      assert |m2| == |apiKey| + |ts2| + |RecvWindow| + |dumps(params)|;
      BybitPreimageFixesTimestampAndParams(apiKey, params, params, ts1, ts2, dumps);
    }
  }
}
