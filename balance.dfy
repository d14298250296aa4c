/**
 * The USDT balance search of `place_bitget_order` (app.py:61) and
 * `place_bybit_order` (app.py:97):
 * `next((x for x in entries if x['coin'] == 'USDT'), {}).get(field, '0')`.
 * The response JSON is an input (the HTTP call is not modelled). The
 * generator stops at the first match, so only entries before it are
 * inspected; an inspected entry that is not a dict with a 'coin' key makes
 * `x['coin']` raise, and the whole order attempt with it (None here).
 */
module Balance {
  import opened Wrappers
  import opened JsonValues

  const Usdt := Str("USDT")
  /** The balance read when no USDT entry exists: the default '0'. */
  const Zero := Str("0")

  /** `x['coin']` succeeds on `x`. */
  predicate HasCoin(x: Json) {
    x.Obj? && Lookup(x.members, "coin").Some?
  }

  predicate IsUsdt(x: Json) {
    HasCoin(x) && Lookup(x.members, "coin") == Some(Usdt)
  }

  /** Every entry before position `k` is inspected without error and is not USDT. */
  predicate Passed(items: seq<Json>, k: nat)
    requires k <= |items|
  {
    forall j | 0 <= j < k :: HasCoin(items[j]) && !IsUsdt(items[j])
  }

  predicate FirstUsdtAt(items: seq<Json>, k: nat) {
    k < |items| && IsUsdt(items[k]) && Passed(items, k)
  }

  predicate FaultAt(items: seq<Json>, k: nat) {
    k < |items| && !HasCoin(items[k]) && Passed(items, k)
  }

  /** How the generator ends. */
  datatype Scan = Match(index: nat) | NoMatch | Fault(index: nat)

  /** The first entry that is USDT or cannot be inspected, found by a loop. */
  method ScanEntries(items: seq<Json>) returns (s: Scan)
    ensures s.Match? ==> FirstUsdtAt(items, s.index)
    ensures s.Fault? ==> FaultAt(items, s.index)
    ensures s.NoMatch? ==> Passed(items, |items|)
  {
    var k := 0;
    while k < |items|
      invariant 0 <= k <= |items|
      invariant Passed(items, k)
    {
      var x := items[k];
      if !HasCoin(x) {
        return Fault(k);
      }
      if Lookup(x.members, "coin") == Some(Usdt) {
        return Match(k);
      }
      k := k + 1;
    }
    return NoMatch;
  }

  /** The scan has exactly one outcome: some entry stops it, or none does. */
  lemma {:induction false} ScanExhaustive(items: seq<Json>)
    ensures Passed(items, |items|) || exists k :: FirstUsdtAt(items, k) || FaultAt(items, k)
    decreases |items|
  {
    if items != [] {
      var init := items[..|items| - 1];
      ScanExhaustive(init);
      assert forall j | 0 <= j < |init| :: init[j] == items[j];
      if Passed(init, |init|) {
        var last := |items| - 1;
        assert Passed(items, last);
        if !HasCoin(items[last]) {
          assert FaultAt(items, last);
        } else if IsUsdt(items[last]) {
          assert FirstUsdtAt(items, last);
        }
      } else {
        var k :| FirstUsdtAt(init, k) || FaultAt(init, k);
        assert FirstUsdtAt(items, k) || FaultAt(items, k);
      }
    }
  }

  /** No entry after the one that stops the scan can stop it too. */
  lemma ScanStopsOnce(items: seq<Json>, k: nat)
    requires FirstUsdtAt(items, k) || FaultAt(items, k)
    ensures forall k': nat | FirstUsdtAt(items, k') || FaultAt(items, k') :: k' == k
  {
  }

  /**
   * `r` is what the selection yields on the container `entries`: the `field`
   * of the first USDT entry (default '0'), '0' when there is none, and None
   * when `entries` is not iterable or an inspected entry is malformed.
   */
  ghost predicate SelectsBalance(entries: Json, field: string, r: Option<Json>) {
    match Iterated(entries)
    case None => r == None
    case Some(items) =>
      && (forall k: nat | FirstUsdtAt(items, k) :: r == Some(GetOr(items[k].members, field, Zero)))
      && (forall k: nat | FaultAt(items, k) :: r == None)
      && (Passed(items, |items|) ==> r == Some(Zero))
  }

  /** The selection is determined: at most one result satisfies it. */
  lemma SelectsBalanceUnique(entries: Json, field: string, r1: Option<Json>, r2: Option<Json>)
    requires SelectsBalance(entries, field, r1) && SelectsBalance(entries, field, r2)
    ensures r1 == r2
  {
    if Iterated(entries).Some? {
      var items := Iterated(entries).value;
      ScanExhaustive(items);
      if !Passed(items, |items|) {
        var k :| FirstUsdtAt(items, k) || FaultAt(items, k);
      }
    }
  }

  method SelectUsdtBalance(entries: Json, field: string) returns (r: Option<Json>)
    ensures SelectsBalance(entries, field, r)
  {
    var it := Iterated(entries);
    if it.None? {
      return None;
    }
    var items := it.value;
    var s := ScanEntries(items);
    match s
    case Match(k) =>
      r := Some(GetOr(items[k].members, field, Zero));
      ScanStopsOnce(items, k);
    case Fault(k) =>
      r := None;
      ScanStopsOnce(items, k);
    case NoMatch =>
      r := Some(Zero);
  }

  /** `bal_res.get('data', [])`; None when `bal_res` is not a dict. */
  function BitgetEntries(balRes: Json): Option<Json> {
    if balRes.Obj? then Some(GetOr(balRes.members, "data", Arr([]))) else None
  }

  /** `bal_res.get('result', {}).get('balances', [])`; None when either is not a dict. */
  function BybitEntries(balRes: Json): Option<Json> {
    if !balRes.Obj? then None
    else
      var result := GetOr(balRes.members, "result", Obj([]));
      if result.Obj? then Some(GetOr(result.members, "balances", Arr([]))) else None
  }

  /** Bitget reads the `available` field of its USDT entry. */
  method BitgetUsdtBalance(balRes: Json) returns (r: Option<Json>)
    ensures BitgetEntries(balRes).None? ==> r == None
    ensures BitgetEntries(balRes).Some? ==> SelectsBalance(BitgetEntries(balRes).value, "available", r)
  {
    var entries := BitgetEntries(balRes);
    if entries.None? {
      return None;
    }
    r := SelectUsdtBalance(entries.value, "available");
  }

  /** Bybit reads the `walletBalance` field of its USDT entry. */
  method BybitUsdtBalance(balRes: Json) returns (r: Option<Json>)
    ensures BybitEntries(balRes).None? ==> r == None
    ensures BybitEntries(balRes).Some? ==> SelectsBalance(BybitEntries(balRes).value, "walletBalance", r)
  {
    var entries := BybitEntries(balRes);
    if entries.None? {
      return None;
    }
    r := SelectUsdtBalance(entries.value, "walletBalance");
  }

  /** A response without the list, or with an empty one, gives the balance '0'. */
  lemma MissingListIsZero(balRes: Json, field: string, r: Option<Json>)
    requires balRes.Obj?
    requires Lookup(balRes.members, "data").None? || Lookup(balRes.members, "data") == Some(Arr([]))
    requires SelectsBalance(BitgetEntries(balRes).value, field, r)
    ensures r == Some(Zero)
  {
    assert BitgetEntries(balRes).value == Arr([]);
    assert Passed([], 0);
  }

  /**
   * Bybit likewise reads '0' when `result` is missing or empty, or when its
   * `balances` list is missing or empty.
   */
  lemma BybitMissingListIsZero(balRes: Json, field: string, r: Option<Json>)
    requires balRes.Obj?
    requires || Lookup(balRes.members, "result").None?
             || Lookup(balRes.members, "result") == Some(Obj([]))
             || (exists m :: Lookup(balRes.members, "result") == Some(Obj(m))
                             && (Lookup(m, "balances").None? || Lookup(m, "balances") == Some(Arr([]))))
    requires BybitEntries(balRes).Some? && SelectsBalance(BybitEntries(balRes).value, field, r)
    ensures r == Some(Zero)
  {
    assert BybitEntries(balRes).value == Arr([]);
    assert Passed([], 0);
  }

  /** Entries after the first USDT one are never inspected, even malformed ones. */
  lemma FirstMatchWins(before: seq<Json>, hit: Json, after: seq<Json>, field: string, r: Option<Json>)
    requires Passed(before, |before|) && IsUsdt(hit)
    requires SelectsBalance(Arr(before + [hit] + after), field, r)
    ensures r == Some(GetOr(hit.members, field, Zero))
  {
    var items := before + [hit] + after;
    assert forall j | 0 <= j < |before| :: items[j] == before[j];
    assert items[|before|] == hit;
    assert FirstUsdtAt(items, |before|);
  }

  /** A Bitget response listing BTC first and USDT second yields USDT's `available`. */
  lemma BitgetResponseExample(btc: seq<(string, Json)>, usdt: seq<(string, Json)>,
                              balRes: Json, r: Option<Json>)
    requires btc == [("coin", Str("BTC")), ("available", Str("1"))]
    requires usdt == [("coin", Str("USDT")), ("available", Str("42.5"))]
    requires balRes == Obj([("data", Arr([Obj(btc), Obj(usdt)]))])
    requires SelectsBalance(BitgetEntries(balRes).value, "available", r)
    ensures r == Some(Str("42.5"))
  {
    var top := balRes.members;
    LookupDistinct(top, 0);
    LookupDistinct(btc, 0);
    LookupDistinct(usdt, 0);
    LookupDistinct(usdt, 1);
    assert BitgetEntries(Obj(top)).value == Arr([Obj(btc)] + [Obj(usdt)] + []);
    FirstMatchWins([Obj(btc)], Obj(usdt), [], "available", r);
  }
}
