# chartibot webhook core in Dafny

chartibot is a small Flask service. It receives TradingView alerts relayed by
TVExtBot and places the same spot market order on Bitget and on Bybit. This
project models the sequential, non-I/O logic of `app.py` and proves its
properties:

- **`parse_tvext`** turns the envelope `TVM:<json>:MVT` into a signal with
  four fields (module `TvExt`). It checks the frame, takes the Python slice
  `message[4:-4]`, reads the dict with its defaults, strips `/` from the
  token, picks the side from the Korean word for "buy" (매수), and takes the
  percent from the last word before the first `%`. Every Python exception
  becomes `None`.
- **The signing preimages** of `bitget_sign` and `bybit_sign` (module
  `Signing`). HMAC-SHA256 is a function parameter `hmac(secret, message)`.
- **The USDT balance search** `next((x for x in … if x['coin'] == 'USDT'), {}).get(field, '0')`
  (module `Balance`). It is a `while` loop over the entries, proved against
  a predicate that says which value the search yields.
- **Request construction** in `place_bitget_order` and `place_bybit_order`
  (module `Orders`). This covers the Bitget order body, the Bybit parameters
  with their `Buy`/`Sell` mapping, the Bybit headers, and Bitget's
  copy-then-override of its header dict. That dict is a class `Headers` with
  a field `entries` of type `map<string, string>`, which `Copy` and `Put` manipulate as the Python dict is.

Supporting modules:

- `Text`: Python `str` operations, namely `startswith`, `endswith`,
  slicing with negative and clamped bounds, `in`, `replace('/', '')`,
  `split()` on Python's whitespace set, `split('%')[0]` and ASCII `upper()`.
- `JsonValues`: decoded JSON values, with dict `get` (the last duplicate
  key wins), truthiness and iteration.
- `Wrappers`: `Option`.

`json.loads`, `json.dumps` and `float()` are library code. They are passed in
as functions:

- `loads: string -> Option<Json>` and `toFloat: string -> Option<real>`
  return `None` where Python raises.
- `dumps: Json -> string`.

Keys, secrets, passphrases and timestamps come from the environment and the
clock, so they are parameters.

The model follows `app.py` as written, and nothing beyond it:

- **Symbols.** `parse_tvext` only deletes every `/` from the token. It
  appends no `USDT` and upper-cases nothing, so `btc/usdt` becomes `btcusdt`
  and `BTC` stays `BTC`.
- **No extra features.** The file has no account registry, leverage, margin
  mode, open/close direction or error for an unknown side, so the model has
  none either.
- **Side.** A string memo without 매수 sells, and so does a list or dict
  memo with no element or key 매수. A null, boolean or numeric memo makes
  `in` raise, so the message gives no signal at all.

## Model

| member | source | states |
|---|---|---|
| TvExt.Framed | app.py:23 | the message starts with `TVM:` and ends with `:MVT` |
| TvExt.Interior | app.py:26 | `message[4:-4]`: the text between the first and last four characters, or "" for a message shorter than 8 |
| TvExt.MemoHas | app.py:33 | `'매수' in memo`: a substring test on a string, element membership on a list, key membership on a dict; None (TypeError) exactly for null, booleans and numbers |
| TvExt.PercentToken | app.py:36 | `memo.split('%')[0].split()[-1]`: absent exactly when only whitespace precedes the first '%', otherwise the last word before it |
| TvExt.MemoPercent | app.py:34-37 | the percent: 0.1 unless the memo is a string with '%' and a percent token that `float` accepts, then that number / 100 |
| TvExt.Extract | app.py:28-38 | the four fields read from the decoded value: None unless it is a dict, its token a string and its memo a string, list or dict |
| TvExt.ParseTvext | app.py:22-40 | the frame check, then decoding of the interior, then extraction; a result implies the message is framed and its interior decodes |
| TvExt.UnframedRejected | app.py:23-24 | a message that does not start with `TVM:` or does not end with `:MVT` is rejected before anything is decoded |
| TvExt.FramedShape | app.py:23 | a framed message is `TVM:MVT` (prefix and suffix share the colon) or is at least 8 characters long |
| TvExt.FramedInterior | app.py:26 | the decoder gets the message minus its first and last four characters; for `TVM:MVT` that is the empty text; otherwise message = prefix + interior + suffix |
| TvExt.EmptyEnvelopeRejected | app.py:23-27 | `TVM:MVT` yields None whenever the empty text does not decode |
| TvExt.WrappedTextDecoded | app.py:23-27 | framing any text hands exactly that text to `json.loads`, so the result is the extraction of whatever it decodes to |
| TvExt.ParseTvextSucceeds | app.py:22-40 | all or nothing: a signal exists iff the message is framed, decodes to a dict, its token (default '') is a string and its memo (default '') is a string, list or dict; otherwise None |
| TvExt.ExtractStrings | app.py:28-38 | with string memo and token, the signal is (orderid or None, stripped token, buy iff memo contains 매수, memo percent) |
| TvExt.OrderIdFromDict | app.py:28 | on every successful extraction, whatever the memo, `orderid` is `data.get('orderid')`: the decoded value, or None when the key is absent |
| TvExt.SymbolStripped | app.py:30 | the symbol is the token with every '/' removed; it has no '/', stripping again changes nothing, and a missing token gives "" |
| TvExt.BtcUsdtSymbol | app.py:30 | "BTC/USDT" becomes "BTCUSDT" |
| TvExt.SideFromMemo | app.py:29-33 | with a string memo the side is "buy" exactly when the memo contains 매수, otherwise "sell"; a missing memo gives "sell" and no failure |
| TvExt.ScalarMemoRejected | app.py:33-40 | a memo that is null, a boolean or a number makes `'매수' in memo` raise, so extraction gives None |
| TvExt.SideIsBuyOrSell | app.py:33 | every signal's side is "buy" or "sell" |
| TvExt.PercentTokenIsLastWord | app.py:36 | the percent token is the one last whitespace-separated word of the text before the first '%' |
| TvExt.PercentTokenAbsent | app.py:36 | with only whitespace before the first '%' there is no token (`[-1]` raises) |
| TvExt.PercentFromLastToken | app.py:34-37 | with '%' in the memo and last word w before it, the percent is float(w)/100, or 0.1 when w is not a number |
| TvExt.PercentDefault | app.py:34-37 | the percent stays 0.1 for a non-string memo, a memo without '%', or one with no word before its first '%' |
| TvExt.ThirtyPercentToken | app.py:36 | the percent token of "매수 30%" is "30" |
| TvExt.BuyThirtyPercent | app.py:32-36 | "매수 30%" contains 매수 and gives percent 0.3 |
| TvExt.GluedPercentIgnored | app.py:34-37 | "매수30%" has the single token "매수30", which is no number, so the percent stays 0.1 |
| TvExt.ExtractExample | app.py:28-38 | {orderid 7, memo "매수 30%", token "BTC/USDT"} gives (7, "BTCUSDT", "buy", 0.3) |
| TvExt.EnvelopeExample | app.py:22-38 | the framed envelope of that object gives the same signal |
| Text.StartsWith | app.py:23 | `s.startswith(p)`: `p` is a prefix of `s` |
| Text.EndsWith | app.py:23 | `s.endswith(p)`: `p` is a suffix of `s` |
| Text.OccursAt | app.py:33 | `t` occurs in `s` starting at position `i` |
| Text.Contains | app.py:33 | `t in s` on strings: `t` occurs at some position of `s` |
| Text.IsSpace | app.py:36 | the characters `str.isspace()` accepts, which `split()` separates on |
| Text.Words | app.py:36 | `s.split()`: the maximal runs of non-whitespace characters, in order |
| Text.PySlice | app.py:26 | `s[start:stop]`: both bounds resolved as Python does; "" when they cross |
| Text.SliceBound | app.py:26 | Python's slice-bound resolution: a negative bound counts from the end, and the result is clamped to 0..len |
| Text.PySliceDropBoth | app.py:26 | `s[k:-m]` is `s` without k leading and m trailing characters, or "" when those overlap |
| Text.StripSlashes | app.py:30 | the result of `replace('/', '')` contains no '/' |
| Text.StripSlashesAppend | app.py:30 | removing slashes distributes over concatenation |
| Text.StripSlashesFixed | app.py:30 | a text without '/' is left unchanged |
| Text.StripSlashesIdempotent | app.py:30 | stripping twice equals stripping once |
| Text.DropLeadingSlash | app.py:30 | a leading '/' is simply dropped |
| Text.StripOneSlash | app.py:30 | a + "/" + b becomes a + b when a and b have no '/' |
| Text.WordLength | app.py:36 | the first word is the longest prefix free of whitespace |
| Text.WordsEmpty | app.py:36 | `split()` returns no words exactly when the text is all whitespace |
| Text.LastOfWords | app.py:36 | the last element of `split()` is the last maximal non-whitespace run, followed only by whitespace |
| Text.LastWordUnique | app.py:36 | a text has at most one such last word |
| Text.BeforeFirst | app.py:36 | `split('%')[0]` is a prefix without '%' that stops at the first '%' or runs to the end |
| Text.BeforeFirstAt | app.py:36 | the part before the first '%' is the prefix up to a '%' with none before it |
| Text.UpperChar | app.py:44 | one character of `upper()`: an ASCII lower-case letter becomes its capital, any other character is kept |
| Text.Upper | app.py:44 | `upper()` keeps the length and upper-cases each ASCII letter |
| JsonValues.LastIndex | app.py:28-30 | a decoded dict holds the value of the last member with a given name, or nothing when the name is absent |
| JsonValues.Lookup | app.py:28-30 | the value a decoded dict holds under a key, or None when absent |
| JsonValues.GetOr | app.py:28-30 | `d.get(key, default)` |
| JsonValues.Truthy | app.py:44 | Python's truth value: null, false, 0, "", [] and {} are false |
| JsonValues.Iterated | app.py:61 | what a `for` visits: a list's items, a dict's keys, a string's characters; nothing for null, booleans and numbers |
| JsonValues.Names | app.py:68-74 | the member names of an object in order |
| JsonValues.LookupDistinct | app.py:68-74 | in a dict the program builds itself (distinct names) every member is found under its own name |
| JsonValues.NamesAndLookupsDetermine | app.py:68-74 | two objects with the same names in order, distinct names and equal values under each name are the same object |
| Signing.BitgetPreimage | app.py:44 | timestamp + upper(method) + path, followed by `json.dumps(body)` when the body is truthy |
| Signing.BitgetSign | app.py:43-46 | HMAC of the Bitget preimage under the secret |
| Signing.BybitPreimage | app.py:84 | apiKey + timestamp + "5000" + `json.dumps(params)` |
| Signing.BybitSign | app.py:83-85 | HMAC of the Bybit preimage under the secret |
| Signing.UpperOfMethods | app.py:44 | `method.upper()` maps "GET"/"POST" (and lower-case spellings) to "GET"/"POST" |
| Signing.BitgetBalancePreimage | app.py:44-52 | the balance call (GET, body '') signs exactly ts + "GET" + "/api/spot/v1/account/assets" |
| Signing.BitgetPreimageShape | app.py:44 | the preimage is ts + METHOD + path, followed by json(body) exactly when the body is truthy |
| Signing.BitgetPreimageFixesTimestamp | app.py:44 | equal preimages for the same request force equal timestamps |
| Signing.BitgetPreimageFixesBody | app.py:44 | two truthy bodies with equal preimages for one request serialise to the same text |
| Signing.BybitPreimageFixesTimestampAndParams | app.py:84 | for one key and timestamps of equal width, apiKey + ts + "5000" + json(params) fixes the timestamp and the serialised params |
| Signing.BitgetSignFreshTimestamp | app.py:43-46 | different timestamps give different Bitget preimages, so equal signatures at different timestamps are an HMAC collision on two different messages |
| Signing.BybitSignFreshTimestamp | app.py:83-85 | different timestamps give different Bybit preimages, so equal signatures at different timestamps are an HMAC collision on two different messages |
| Balance.HasCoin | app.py:61 | `x['coin']` succeeds: the entry is a dict with a `coin` key |
| Balance.IsUsdt | app.py:61 | `x['coin'] == 'USDT'` on an entry whose `coin` can be read |
| Balance.SelectsBalance | app.py:61 | the specification of the search: the field of the first USDT entry (default '0'); '0' when every entry is inspected without a match; None for a non-iterable container or a malformed entry before any match |
| Balance.BitgetEntries | app.py:61 | `bal_res.get('data', [])`, None when the response is not a dict |
| Balance.BybitEntries | app.py:97 | `bal_res.get('result', {}).get('balances', [])`, None when either level is not a dict |
| Balance.ScanEntries | app.py:61 | the loop returns the first entry that is USDT, or the first one whose `x['coin']` raises, or reports that it found neither |
| Balance.ScanExhaustive | app.py:61 | every entry list is one of these three cases |
| Balance.ScanStopsOnce | app.py:61 | only one position can stop the generator |
| Balance.SelectsBalanceUnique | app.py:61 | the balance selection determines its result |
| Balance.SelectUsdtBalance | app.py:61 | the result is the field of the first USDT entry (default '0'), '0' without one, None for a non-iterable container or a malformed entry before the match |
| Balance.BitgetUsdtBalance | app.py:61 | Bitget reads `available` from the list under `data` (default []) |
| Balance.BybitUsdtBalance | app.py:97 | Bybit reads `walletBalance` from `result.balances` (defaults {} and []) |
| Balance.MissingListIsZero | app.py:61 | a response without `data`, or with an empty list there, gives the balance '0' |
| Balance.BybitMissingListIsZero | app.py:97 | a Bybit response whose `result` is missing or empty, or whose `balances` list is missing or empty, gives the balance '0' |
| Balance.FirstMatchWins | app.py:61 | entries after the first USDT entry are never inspected, however malformed |
| Balance.BitgetResponseExample | app.py:61 | with BTC listed before USDT, the USDT `available` "42.5" is chosen |
| Orders.BitgetOrderBody | app.py:68-74 | the body is a non-empty dict whose members are exactly symbol, side, orderType, force, size in that order, with distinct names and the values symbol, side, "market", "normal", size; by JsonValues.NamesAndLookupsDetermine this fixes the whole object that `json.dumps` signs |
| Orders.BybitSide | app.py:106 | "Buy" iff the side is "buy", otherwise "Sell" |
| Orders.BybitBalanceParams | app.py:90 | the balance parameters are exactly category "spot" then coin "USDT", with nothing else |
| Orders.BybitOrderParams | app.py:103-109 | the members are exactly category, symbol, side, orderType, qty in that order, with the values "spot", the symbol, the mapped side, "Market" and qty |
| Orders.BybitHeaders | app.py:94 | exactly the four X-BAPI headers, with the signature, timestamp, key and receive window "5000" |
| Orders.BitgetHeaderMap | app.py:53-59 | exactly the five Bitget headers with their values |
| Orders.BitgetHeadersResigned | app.py:77-79 | re-signing the balance headers gives the headers built afresh from the new signature and timestamp |
| Orders.Headers.Copy | app.py:77 | `headers.copy()` is a new dict with the same entries |
| Orders.Headers.Put | app.py:78-79 | `headers[key] = value` updates that key alone |
| Orders.Resign | app.py:77-79 | a fresh dict equal to the old one with ACCESS-SIGN and ACCESS-TIMESTAMP replaced; the original is untouched and every other header carries over |
| Orders.BitgetOrderRequest | app.py:48-80 | the balance headers are signed over ts + "GET" + path, and the order headers are the same five headers signed over ts2 + "POST" + path + json(body) |
| Orders.BybitOrderRequest | app.py:87-116 | both Bybit calls sign apiKey + ts + "5000" + json(params) and send that signature with their timestamp; the order side is mapped |

## Left out

- **Flask.** The webhook route, its 400/200 responses and the two worker
  threads (app.py:119-140) are HTTP plumbing and concurrency.
- **HTTP calls.** Every `requests.get`/`requests.post` is left out. Their
  response JSON is an input to the balance search.
- **Ticker prices.** The ticker responses and the price fallback of 1 are
  not modelled, because they only feed float arithmetic.
- **Library code.** HMAC-SHA256 with hex encoding, `json.loads`,
  `json.dumps` and `float()` are function parameters with no internals.
- **Float arithmetic.** `float(usdt_balance) * percent / price` and
  `round(qty, 6)` are floating point. The order size arrives as a string
  parameter.
- **Percent representation.** The percent is an exact `real` (x / 100),
  not an IEEE double, so rounding and `inf`/`nan` are not modelled.
- **Environment and clock.** `os.getenv` and `datetime.now` become
  parameters.
- **Non-string message.** `parse_tvext` is modelled on a string message.
  The webhook's `message` default of '' is not modelled, and neither is the
  AttributeError raised when it is not a string.
- **Text.Upper: ASCII only.** It upper-cases only ASCII letters. Python's
  full Unicode case mapping is not modelled, and the methods passed to it
  here are ASCII.
- **Lone surrogates.** A Dafny `char` excludes U+D800 to U+DFFF, which a
  Python `str` can hold, for instance after decoding `"\ud800"`. Memos,
  tokens and messages containing lone surrogates are not modelled.
- **JSON numbers.** `Number(n: real)` merges JSON integers and floats. An
  `orderid` of 7 and one of 7.0, which `parse_tvext` returns as different
  values, are one value here. The NaN and Infinity literals that
  `json.loads` accepts by default have no counterpart.
- **Dict ordering.** A decoded dict with a repeated name keeps every pair
  when iterated. Iteration only matters for the balance search, where any
  string entry stops the search with an error either way.
