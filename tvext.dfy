/**
 * `parse_tvext` (app.py:22-40): the TVExtBot envelope `TVM:<json>:MVT`
 * turned into the order signal the two exchange workers receive.
 * `json.loads` and `float` are library code and come in as functions:
 * `loads` gives None where Python raises, `toFloat` gives None where
 * `float(token)` raises ValueError.
 */
module TvExt {
  import opened Wrappers
  import opened JsonValues
  import opened Text

  const Prefix := "TVM:"
  const Suffix := ":MVT"
  /** The Korean word for "buy" that the memo is searched for. */
  const BuyWord := "매수"
  const DefaultPercent: real := 0.1

  /** The dict `parse_tvext` returns: exactly these four keys. */
  datatype Signal = Signal(orderid: Json, symbol: string, side: string, percent: real)

  predicate Framed(message: string) {
    StartsWith(message, Prefix) && EndsWith(message, Suffix)
  }

  /** `message[4:-4]`, the text handed to the JSON decoder. */
  function Interior(message: string): (r: string)
    ensures |message| < 8 ==> r == ""
    ensures |message| >= 8 ==> r == message[4..|message| - 4]
  {
    PySliceDropBoth(message, 4, 4);
    PySlice(message, 4, -4)
  }

  /**
   * Python's `needle in memo` for whatever type the memo decoded to: a
   * substring test on a string, element membership on a list, key membership
   * on a dict; on null, booleans and numbers it raises TypeError (None).
   */
  function MemoHas(memo: Json, needle: string): (r: Option<bool>)
    ensures r.None? <==> !(memo.Str? || memo.Arr? || memo.Obj?)
    ensures memo.Str? ==> r == Some(Contains(memo.s, needle))
  {
    match memo
    case Str(s) => Some(Contains(s, needle))
    case Arr(items) => Some(Str(needle) in items)
    case Obj(members) => Some(exists i | 0 <= i < |members| :: members[i].0 == needle)
    case _ => None
  }

  /**
   * `memo.split('%')[0].split()[-1]`: the last whitespace-separated token
   * before the first '%', or None where `[-1]` raises IndexError.
   */
  function PercentToken(memo: string): (r: Option<string>)
    ensures r.None? <==> AllSpace(BeforeFirst(memo, '%'))
    ensures r.Some? ==> IsLastWord(BeforeFirst(memo, '%'), r.value)
  {
    var words := Words(BeforeFirst(memo, '%'));
    WordsEmpty(BeforeFirst(memo, '%'));
    if words == [] then None
    else
      LastOfWords(BeforeFirst(memo, '%'));
      Some(Last(words))
  }

  /**
   * Lines 34-37: the default 10%, or the percent token divided by 100 when
   * `float` accepts it. A memo that is not a string has no `split`, so the
   * inner `except` keeps the default.
   */
  function MemoPercent(memo: Json, toFloat: string -> Option<real>): real {
    if memo.Str? && '%' in memo.s then
      match PercentToken(memo.s)
      case None => DefaultPercent
      case Some(w) =>
        match toFloat(w)
        case Some(x) => x / 100.0
        case None => DefaultPercent
    else DefaultPercent
  }

  /** Lines 28-38, run on the decoded value `data`; None where Python raises. */
  function Extract(data: Json, toFloat: string -> Option<real>): Option<Signal> {
    if !data.Obj? then None  // `data.get` exists only on a dict
    else
      var orderid := GetOr(data.members, "orderid", Null);
      var memo := GetOr(data.members, "memo", Str(""));
      var token := GetOr(data.members, "token", Str(""));
      if !token.Str? then None  // only a string has `replace`
      else match MemoHas(memo, BuyWord)
        case None => None
        case Some(buy) =>
          Some(Signal(orderid, StripSlashes(token.s), if buy then "buy" else "sell",
                      MemoPercent(memo, toFloat)))
  }

  function ParseTvext(message: string, loads: string -> Option<Json>,
                      toFloat: string -> Option<real>): (r: Option<Signal>)
    ensures r.Some? ==> Framed(message) && loads(Interior(message)).Some?
  {
    if !Framed(message) then None
    else match loads(Interior(message))
      case None => None
      case Some(data) => Extract(data, toFloat)
  }

  // ---------------------------------------------------------------------
  // Framing and the decoder's input

  /** An unframed message never reaches the decoder and yields None. */
  lemma UnframedRejected(message: string, loads: string -> Option<Json>,
                         toFloat: string -> Option<real>)
    requires !StartsWith(message, Prefix) || !EndsWith(message, Suffix)
    ensures ParseTvext(message, loads, toFloat) == None
  {
  }

  /**
   * A framed message is "TVM:MVT", whose prefix and suffix share the colon,
   * or is at least eight characters long.
   */
  lemma {:induction false} FramedShape(message: string)
    requires Framed(message)
    ensures message == "TVM:MVT" || |message| >= 8
  {
    var n := |message|;
    assert forall k | 0 <= k < 4 :: message[k] == message[..4][k] == Prefix[k];
    assert forall k | n - 4 <= k < n :: message[k] == message[n - 4..][k - (n - 4)] == Suffix[k - (n - 4)];
    assert message[n - 4] == ':';
    assert n >= 7;
    if n == 7 {
      assert message == "TVM:MVT";
    }
  }

  /**
   * The decoder receives the message minus its first four and last four
   * characters; for "TVM:MVT" that is the empty text.
   */
  lemma FramedInterior(message: string)
    requires Framed(message)
    ensures message == "TVM:MVT" ==> Interior(message) == ""
    ensures message != "TVM:MVT" ==> |message| >= 8 && Interior(message) == message[4..|message| - 4]
    ensures message == Prefix + Interior(message) + Suffix || message == "TVM:MVT"
  {
    FramedShape(message);
    PySliceDropBoth(message, 4, 4);
    if message != "TVM:MVT" {
      var n := |message|;
      assert message == message[..4] + message[4..n - 4] + message[n - 4..];
    }
  }

  /** The envelope with nothing inside is rejected, since "" is not JSON. */
  lemma EmptyEnvelopeRejected(loads: string -> Option<Json>, toFloat: string -> Option<real>)
    requires loads("") == None
    ensures ParseTvext("TVM:MVT", loads, toFloat) == None
  {
    assert Framed("TVM:MVT");
    FramedInterior("TVM:MVT");
  }

  /** Wrapping any text in the frame hands exactly that text to the decoder. */
  lemma WrappedTextDecoded(body: string, loads: string -> Option<Json>,
                           toFloat: string -> Option<real>)
    ensures ParseTvext(Prefix + body + Suffix, loads, toFloat) ==
      match loads(body)
      case None => None
      case Some(data) => Extract(data, toFloat)
  {
    var m := Prefix + body + Suffix;
    assert m[..4] == Prefix;
    assert m[|m| - 4..] == Suffix;
    PySliceDropBoth(m, 4, 4);
    assert m[4..|m| - 4] == body;
  }

  // ---------------------------------------------------------------------
  // The extracted fields

  /**
   * All or nothing: the result exists exactly when the text decodes to a
   * dict whose token (if any) is a string and whose memo (if any) is a
   * string, a list or a dict; it then carries all four fields.
   */
  lemma ParseTvextSucceeds(message: string, loads: string -> Option<Json>,
                           toFloat: string -> Option<real>)
    ensures ParseTvext(message, loads, toFloat).Some? <==>
      && Framed(message)
      && loads(Interior(message)).Some?
      && var data := loads(Interior(message)).value;
      && data.Obj?
      && GetOr(data.members, "token", Str("")).Str?
      && var memo := GetOr(data.members, "memo", Str(""));
      (memo.Str? || memo.Arr? || memo.Obj?)
  {
  }

  /** `symbol` is the token with every '/' removed; the default token is "". */
  lemma {:induction false} SymbolStripped(data: Json, toFloat: string -> Option<real>)
    requires Extract(data, toFloat).Some?
    ensures var sym := Extract(data, toFloat).value.symbol;
      && '/' !in sym
      && StripSlashes(sym) == sym
      && sym == StripSlashes(GetOr(data.members, "token", Str("")).s)
      && ((forall i | 0 <= i < |data.members| :: data.members[i].0 != "token") ==> sym == "")
  {
    StripSlashesIdempotent(GetOr(data.members, "token", Str("")).s);
  }

  /**
   * `orderid` is `data.get('orderid')`, whatever the memo: the decoded value
   * when present and None (null) when the dict has no such key.
   */
  lemma OrderIdFromDict(data: Json, toFloat: string -> Option<real>)
    requires Extract(data, toFloat).Some?
    ensures Extract(data, toFloat).value.orderid == GetOr(data.members, "orderid", Null)
    ensures (forall i | 0 <= i < |data.members| :: data.members[i].0 != "orderid") ==>
      Extract(data, toFloat).value.orderid == Null
  {
  }

  lemma BtcUsdtSymbol(token: string)
    requires token == "BTC/USDT"
    ensures StripSlashes(token) == "BTCUSDT"
  {
    StripOneSlash("BTC", "USDT");
    assert "BTC" + "/" + "USDT" == token;
  }

  /**
   * Side: "buy" exactly when the string memo contains the word for buying,
   * otherwise "sell"; a missing memo is "" and so gives "sell" without
   * failing.
   */
  lemma SideFromMemo(data: Json, toFloat: string -> Option<real>)
    requires data.Obj? && GetOr(data.members, "token", Str("")).Str?
    requires GetOr(data.members, "memo", Str("")).Str?
    ensures Extract(data, toFloat).Some?
    ensures var memo := GetOr(data.members, "memo", Str("")).s;
      Extract(data, toFloat).value.side == (if Contains(memo, BuyWord) then "buy" else "sell")
    ensures (forall i | 0 <= i < |data.members| :: data.members[i].0 != "memo") ==>
      Extract(data, toFloat).value.side == "sell"
  {
    if forall i | 0 <= i < |data.members| :: data.members[i].0 != "memo" {
      assert !OccursAt("", BuyWord, 0);
    }
  }

  /** A memo that is null, a boolean or a number makes `in` raise: no signal at all. */
  lemma ScalarMemoRejected(data: Json, toFloat: string -> Option<real>)
    requires data.Obj?
    requires var memo := GetOr(data.members, "memo", Str(""));
      !(memo.Str? || memo.Arr? || memo.Obj?)
    ensures Extract(data, toFloat) == None
  {
  }

  lemma SideIsBuyOrSell(data: Json, toFloat: string -> Option<real>)
    requires Extract(data, toFloat).Some?
    ensures Extract(data, toFloat).value.side in {"buy", "sell"}
  {
  }

  /** The percent token is the last word of the text before the first '%'. */
  lemma PercentTokenIsLastWord(memo: string, w: string)
    requires IsLastWord(BeforeFirst(memo, '%'), w)
    ensures PercentToken(memo) == Some(w)
  {
    var before := BeforeFirst(memo, '%');
    LastWordNotAllSpace(before, w);
    LastWordUnique(before, w, PercentToken(memo).value);
  }

  /** Without a word before the first '%' there is no percent token. */
  lemma PercentTokenAbsent(memo: string)
    requires AllSpace(BeforeFirst(memo, '%'))
    ensures PercentToken(memo) == None
  {
    WordsEmpty(BeforeFirst(memo, '%'));
  }

  /**
   * Percent: with a '%' in a string memo and a last token `w` before the
   * first '%', the percent is float(w) / 100, or 0.1 when `float` rejects
   * `w`.
   */
  lemma PercentFromLastToken(memo: string, w: string, toFloat: string -> Option<real>)
    requires '%' in memo && IsLastWord(BeforeFirst(memo, '%'), w)
    ensures MemoPercent(Str(memo), toFloat) ==
      match toFloat(w)
      case Some(x) => x / 100.0
      case None => DefaultPercent
  {
    PercentTokenIsLastWord(memo, w);
  }

  /** Percent stays 0.1 with no '%', or with only spaces before the first '%'. */
  lemma PercentDefault(memo: Json, toFloat: string -> Option<real>)
    requires !memo.Str? || '%' !in memo.s || AllSpace(BeforeFirst(memo.s, '%'))
    ensures MemoPercent(memo, toFloat) == DefaultPercent
  {
    if memo.Str? && '%' in memo.s {
      PercentTokenAbsent(memo.s);
    }
  }

  /** The memo "매수 30%" has the percent token "30". */
  lemma ThirtyPercentToken(memo: string)
    requires memo == "매수 30%"
    ensures PercentToken(memo) == Some("30")
  {
    BeforeFirstAt(memo, '%', 5);
    var before := BeforeFirst(memo, '%');
    assert before == memo[..5];
    assert before[2] == ' ' && before[3] == '3' && before[4] == '0';
    assert LastWordAt(before, 3, 5);
    assert before[3..5] == [before[3], before[4]] == "30";
    PercentTokenIsLastWord(memo, "30");
  }

  /** "매수 30%" buys 30%. */
  lemma BuyThirtyPercent(memo: string, toFloat: string -> Option<real>)
    requires memo == "매수 30%"
    requires toFloat("30") == Some(30.0)
    ensures MemoHas(Str(memo), BuyWord) == Some(true)
    ensures MemoPercent(Str(memo), toFloat) == 0.3
  {
    assert memo[..2] == BuyWord;
    assert OccursAt(memo, BuyWord, 0);
    ThirtyPercentToken(memo);
  }

  /** "매수30%" has no space before its number: the token is "매수30", which is no number. */
  lemma GluedPercentIgnored(memo: string, toFloat: string -> Option<real>)
    requires memo == "매수30%"
    requires toFloat("매수30") == None
    ensures MemoPercent(Str(memo), toFloat) == DefaultPercent
  {
    BeforeFirstAt(memo, '%', 4);
    var before := BeforeFirst(memo, '%');
    assert before == memo[..4] == "매수30";
    assert LastWordAt(before, 0, 4);
    assert before[0..4] == before;
    PercentFromLastToken(memo, "매수30", toFloat);
  }

  /**
   * A whole envelope: the decoded dict gives order id 7, a 30% buy, and the
   * symbol without its slash.
   */
  lemma EnvelopeExample(body: string, loads: string -> Option<Json>, toFloat: string -> Option<real>)
    requires loads(body) == Some(Obj([("orderid", Number(7.0)), ("memo", Str("매수 30%")),
                                      ("token", Str("BTC/USDT"))]))
    requires toFloat("30") == Some(30.0)
    ensures ParseTvext(Prefix + body + Suffix, loads, toFloat)
      == Some(Signal(Number(7.0), "BTCUSDT", "buy", 0.3))
  {
    WrappedTextDecoded(body, loads, toFloat);
    ExtractExample(loads(body).value, "매수 30%", "BTC/USDT", toFloat);
  }

  /** Extraction of a dict whose memo and token are strings never fails. */
  lemma ExtractStrings(data: Json, toFloat: string -> Option<real>)
    requires data.Obj?
    requires GetOr(data.members, "memo", Str("")).Str? && GetOr(data.members, "token", Str("")).Str?
    ensures var memo := GetOr(data.members, "memo", Str(""));
      Extract(data, toFloat) == Some(Signal(
        GetOr(data.members, "orderid", Null),
        StripSlashes(GetOr(data.members, "token", Str("")).s),
        if Contains(memo.s, BuyWord) then "buy" else "sell",
        MemoPercent(memo, toFloat)))
  {
  }

  lemma ExtractExample(data: Json, memo: string, token: string, toFloat: string -> Option<real>)
    requires memo == "매수 30%" && token == "BTC/USDT"
    requires data == Obj([("orderid", Number(7.0)), ("memo", Str(memo)), ("token", Str(token))])
    requires toFloat("30") == Some(30.0)
    ensures Extract(data, toFloat) == Some(Signal(Number(7.0), "BTCUSDT", "buy", 0.3))
  {
    var members := data.members;
    LookupDistinct(members, 0);
    LookupDistinct(members, 1);
    LookupDistinct(members, 2);
    assert GetOr(members, "orderid", Null) == Number(7.0);
    assert GetOr(members, "memo", Str("")) == Str(memo);
    assert GetOr(members, "token", Str("")) == Str(token);
    ExtractStrings(data, toFloat);
    BtcUsdtSymbol(token);
    BuyThirtyPercent(memo, toFloat);
  }
}
