/**
 * The trading helpers behind a rollover: reading the open orders for a symbol
 * out of the order book, naming and finding the next month's futures contract,
 * closing the positions held in a symbol and reopening them on a new contract.
 */
module TradeFunctions {
  import opened Wrappers
  import opened Models
  import opened Fyers
  import opened Runtime
  import Seqs
  import Text

  // ---------------------------------------------------------------------------
  // Open orders

  /** Order-book status 2: an open order. */
  const OpenStatus: int := 2

  predicate IsOpenFor(symbol: string, o: BookOrder) { o.symbol == symbol && o.status == OpenStatus }

  /**
   * `fetchOpenPositions`: the open orders in `symbol`, in order-book order. A
   * failed order-book request and a non-ok body both end in an error; a body
   * without a book gives no orders.
   */
  function FetchOpenPositions(w: WireReply, symbol: string): (r: Result<seq<BookOrder>>)
    ensures r.Err? <==> GetOrderBook(w).Err? || GetOrderBook(w).value.s != "ok"
    ensures GetOrderBook(w).Ok? && GetOrderBook(w).value.s != "ok" ==> r.error == "Failed to fetch open positions from broker"
    ensures r.Ok? ==> var book := GetOrderBook(w).value.orderBook.GetOr([]);
      Seqs.IsSubsequence(r.value, book)
      && (forall i :: 0 <= i < |r.value| ==> IsOpenFor(symbol, r.value[i]))
      && (forall i :: 0 <= i < |book| && IsOpenFor(symbol, book[i]) ==> book[i] in r.value)
      && (forall o :: multiset(r.value)[o] == if IsOpenFor(symbol, o) then multiset(book)[o] else 0)
  {
    match GetOrderBook(w)
    case Err(e) => Err(e)
    case Ok(resp) =>
      if resp.s != "ok" then Err("Failed to fetch open positions from broker")
      else
        var book := resp.orderBook.GetOr([]);
        Seqs.FilterIsSubsequence(book, o => IsOpenFor(symbol, o));
        Seqs.FilterCounts(book, o => IsOpenFor(symbol, o));
        Ok(Seqs.Filter(book, o => IsOpenFor(symbol, o)))
  }

  /** Only an ok reply from the brokerage yields positions. */
  lemma FetchOpenPositionsNeedsOk(w: WireReply, symbol: string)
    ensures FetchOpenPositions(w, symbol).Ok? <==> w.Reply? && w.s == "ok"
  {
  }

  // ---------------------------------------------------------------------------
  // The next contract

  /** The month codes in calendar order. */
  const Months: seq<string> := ["JAN", "FEB", "MAR", "APR", "MAY", "JUN", "JUL", "AUG", "SEP", "OCT", "NOV", "DEC"]

  /** `monthMap`: each month code to the following one, December to January. */
  const MonthMap: map<string, string> := map[
    "JAN" := "FEB", "FEB" := "MAR", "MAR" := "APR", "APR" := "MAY", "MAY" := "JUN", "JUN" := "JUL",
    "JUL" := "AUG", "AUG" := "SEP", "SEP" := "OCT", "OCT" := "NOV", "NOV" := "DEC", "DEC" := "JAN"]

  lemma MonthMapFollowsCalendar(i: nat)
    requires i < 12
    ensures Months[i] in MonthMap && MonthMap[Months[i]] == Months[(i + 1) % 12]
  {
  }

  lemma MonthMapKeysAreMonths(m: string)
    ensures m in MonthMap <==> m in Months
  {
  }

  lemma MonthIndex(m: string) returns (i: nat)
    requires m in MonthMap
    ensures i < 12 && Months[i] == m
  {
    MonthMapKeysAreMonths(m);
    i :| 0 <= i < 12 && Months[i] == m;
  }

  lemma MonthsDistinct()
    ensures Seqs.NoDuplicates(Months)
  {
  }

  /** `ms` lists twelve codes and `mm` takes each to the next one, the last back to the first. */
  predicate IsTwelveCycle(ms: seq<string>, mm: map<string, string>) {
    |ms| == 12 && forall i :: 0 <= i < 12 ==> StepsToNext(ms, mm, i)
  }

  /** `mm` takes the `i`-th code of `ms` to the next one. */
  predicate StepsToNext(ms: seq<string>, mm: map<string, string>, i: nat)
    requires |ms| == 12 && i < 12
  {
    ms[i] in mm && mm[ms[i]] == ms[(i + 1) % 12]
  }

  lemma MonthMapCycle()
    ensures IsTwelveCycle(Months, MonthMap)
  {
    forall i | 0 <= i < 12 ensures StepsToNext(Months, MonthMap, i) {
      MonthMapFollowsCalendar(i);
    }
  }

  /** `k` steps of a successor map, stopping at a code it does not map. */
  function Advance(mm: map<string, string>, m: string, k: nat): string
    decreases k
  {
    if k == 0 || m !in mm then m else Advance(mm, mm[m], k - 1)
  }

  lemma NextIndex(i: nat, k: nat)
    requires i < 12 && k > 0
    ensures ((i + 1) % 12 + (k - 1)) % 12 == (i + k) % 12
  {
    if i == 11 {
      assert (i + k) % 12 == (k - 1 + 12) % 12 == (k - 1) % 12;
    }
  }

  lemma {:induction false} AdvanceByIndex(ms: seq<string>, mm: map<string, string>, i: nat, k: nat)
    requires IsTwelveCycle(ms, mm) && i < 12
    ensures Advance(mm, ms[i], k) == ms[(i + k) % 12]
    decreases k
  {
    if k > 0 {
      var j := (i + 1) % 12;
      assert StepsToNext(ms, mm, i);
      calc {
        Advance(mm, ms[i], k);
        Advance(mm, ms[j], k - 1);
        { AdvanceByIndex(ms, mm, j, k - 1); }
        ms[(j + (k - 1)) % 12];
        { NextIndex(i, k); }
        ms[(i + k) % 12];
      }
    }
  }

  /** In a cycle of twelve distinct codes, `k` steps return to the start exactly when `k` is a multiple of twelve. */
  lemma CycleReturnsIff(ms: seq<string>, mm: map<string, string>, i: nat, k: nat)
    requires IsTwelveCycle(ms, mm) && Seqs.NoDuplicates(ms) && i < 12
    ensures Advance(mm, ms[i], k) == ms[i] <==> k % 12 == 0
  {
    AdvanceByIndex(ms, mm, i, k);
    var j := (i + k) % 12;
    if k % 12 != 0 {
      assert j != i;
      if i < j {
        assert ms[i] != ms[j];
      } else {
        assert ms[j] != ms[i];
      }
    }
  }

  /**
   * The month map is one cycle through all twelve months: `k` steps lead back
   * to the starting month exactly when `k` is a multiple of twelve.
   */
  lemma MonthMapIsTwelveCycle(m: string, k: nat)
    requires m in MonthMap
    ensures Advance(MonthMap, m, k) == m <==> k % 12 == 0
  {
    var i := MonthIndex(m);
    MonthMapCycle();
    MonthsDistinct();
    CycleReturnsIff(Months, MonthMap, i, k);
  }

  predicate IsUpperOrDigit(c: char) { Text.IsUpper(c) || Text.IsDigit(c) }

  /**
   * The pattern `^([A-Z0-9]+)([A-Z]{3})FUT$`: a non-empty base of capitals and
   * digits, a three-letter month code, then `FUT`. The end anchor fixes where
   * the groups split, so a match is unique.
   */
  function ParseContractName(name: string): (r: Option<(string, string)>)
    ensures r.Some? ==> name == r.value.0 + r.value.1 + "FUT"
    ensures r.Some? ==> |r.value.0| >= 1 && |r.value.1| == 3
  {
    var n := |name|;
    if n >= 7 && name[n - 3..] == "FUT"
      && (forall i :: n - 6 <= i < n - 3 ==> Text.IsUpper(name[i]))
      && (forall i :: 0 <= i < n - 6 ==> IsUpperOrDigit(name[i]))
    then
      assert name == name[..n - 6] + name[n - 6..n - 3] + "FUT";
      Some((name[..n - 6], name[n - 6..n - 3]))
    else None
  }

  /** Any base of capitals and digits with any capital three-letter month parses back to its parts. */
  lemma ParseContractNameRoundTrip(base: string, mon: string)
    requires |base| >= 1 && forall i :: 0 <= i < |base| ==> IsUpperOrDigit(base[i])
    requires |mon| == 3 && forall i :: 0 <= i < 3 ==> Text.IsUpper(mon[i])
    ensures ParseContractName(base + mon + "FUT") == Some((base, mon))
  {
    var name := base + mon + "FUT";
    var n := |name|;
    assert name[n - 3..] == "FUT";
    assert name[..n - 6] == base;
    assert name[n - 6..n - 3] == mon;
    assert forall i :: n - 6 <= i < n - 3 ==> name[i] == mon[i - (n - 6)];
  }

  /** The exchange symbol name of the contract following `name`, or why there is none. */
  function NextContractName(name: string): (r: Result<string>)
    ensures r.Ok? ==> (ParseContractName(name).Some? &&
      var (base, mon) := ParseContractName(name).value;
      mon in MonthMap && r.value == base + MonthMap[mon] + "FUT")
    ensures r.Err? ==> r.error == "Invalid symbol format" || r.error == "Invalid month in symbol"
  {
    match ParseContractName(name)
    case None => Err("Invalid symbol format")
    case Some((base, mon)) =>
      if mon !in MonthMap then Err("Invalid month in symbol") else Ok(base + MonthMap[mon] + "FUT")
  }

  /** A December contract rolls into January of the same base: the year digits in the base are kept. */
  lemma DecemberRollsIntoSameBase(base: string)
    requires |base| >= 1 && forall i :: 0 <= i < |base| ==> IsUpperOrDigit(base[i])
    ensures NextContractName(base + "DEC" + "FUT") == Ok(base + "JANFUT")
  {
    ParseContractNameRoundTrip(base, "DEC");
    assert base + "JAN" + "FUT" == base + "JANFUT";
  }

  /** Rolling a parsed name keeps its base and moves its month one step on the calendar. */
  lemma NextContractNameAdvancesMonth(base: string, i: nat)
    requires |base| >= 1 && forall j :: 0 <= j < |base| ==> IsUpperOrDigit(base[j])
    requires i < 12
    ensures NextContractName(base + Months[i] + "FUT") == Ok(base + Months[(i + 1) % 12] + "FUT")
  {
    ParseContractNameRoundTrip(base, Months[i]);
    MonthMapFollowsCalendar(i);
  }

  /** `Instrument.findOne({ exSymName })`: the first instrument, in collection order, with that name. */
  function FindByExSymName(catalog: seq<Instrument>, name: string): (r: Option<Instrument>)
    ensures r.Some? ==> r.value in catalog && r.value.exSymName == name
    ensures r.None? <==> forall i :: 0 <= i < |catalog| ==> catalog[i].exSymName != name
  {
    Seqs.Find(catalog, (x: Instrument) => x.exSymName == name)
  }

  /**
   * `getNextContract`: the catalog entry named like `symbol` with the month
   * moved on by one; it fails, in this order, when the current contract is not
   * in the catalog, its name does not fit the pattern, the month is unknown,
   * or the successor is not in the catalog.
   */
  function GetNextContract(catalog: seq<Instrument>, symbol: string): (r: Result<Instrument>)
    ensures FindByExSymName(catalog, symbol).None? ==> r == Err("Expired symbol not found")
    ensures FindByExSymName(catalog, symbol).Some? && NextContractName(symbol).Err? ==>
      r == Err(NextContractName(symbol).error)
    ensures FindByExSymName(catalog, symbol).Some? && NextContractName(symbol).Ok? ==>
      match FindByExSymName(catalog, NextContractName(symbol).value)
      case None => r == Err("Next contract not found in Instrument table")
      case Some(next) => r == Ok(next)
    ensures r.Ok? ==> r.value in catalog && NextContractName(symbol) == Ok(r.value.exSymName)
  {
    if FindByExSymName(catalog, symbol).None? then Err("Expired symbol not found")
    else match NextContractName(symbol)
      case Err(e) => Err(e)
      case Ok(nextName) =>
        match FindByExSymName(catalog, nextName)
        case None => Err("Next contract not found in Instrument table")
        case Some(next) => Ok(next)
  }

  // ---------------------------------------------------------------------------
  // Closing and reopening positions

  /** A held position as the rollover sees it; `side` is the text the position record carries. */
  datatype Position = Position(symbol: string, qty: int, side: string)

  /** The order that closes one position: the opposite side, on margin, tagged as a rollover close. */
  function CloseOrderFor(p: Position): (r: OrderRequest)
    ensures r.symbol == p.symbol && r.qty == p.qty
    ensures r.side == (if p.side == "BUY" then "sell" else "buy")
    ensures r.productType == Some("MARGIN") && r.orderTag == Some("rollover_close")
    ensures r.limitPrice.None? && r.stopPrice.None? && r.validity.None?
  {
    OrderRequest(p.symbol, p.qty, if p.side == "BUY" then "sell" else "buy", Some("MARGIN"), Some("rollover_close"), None, None, None)
  }

  /** The order that reopens one position on the new contract: same quantity, the recorded side verbatim. */
  function OpenOrderFor(p: Position, next: Instrument): (r: OrderRequest)
    ensures r.symbol == next.fyersSymbol && r.qty == p.qty && r.side == p.side
    ensures r.productType == Some("MARGIN") && r.orderTag == Some("rollover_open")
    ensures r.limitPrice.None? && r.stopPrice.None? && r.validity.None?
  {
    OrderRequest(next.fyersSymbol, p.qty, p.side, Some("MARGIN"), Some("rollover_open"), None, None, None)
  }

  /** `positionsToClose`: the positions held in `symbol`, in input order. */
  function PositionsIn(positions: seq<Position>, symbol: string): seq<Position> {
    Seqs.Filter(positions, (p: Position) => p.symbol == symbol)
  }

  /** The orders `closeAllPositions` sends. */
  function CloseRequests(positions: seq<Position>, symbol: string): (r: seq<OrderRequest>)
    ensures |r| == |PositionsIn(positions, symbol)|
    ensures forall i :: 0 <= i < |r| ==> r[i] == CloseOrderFor(PositionsIn(positions, symbol)[i])
  {
    Seqs.Map(PositionsIn(positions, symbol), CloseOrderFor)
  }

  /** The orders `openNewPositions` sends. */
  function OpenRequests(positions: seq<Position>, next: Instrument): (r: seq<OrderRequest>)
    ensures |r| == |positions|
    ensures forall i :: 0 <= i < |r| ==> r[i] == OpenOrderFor(positions[i], next)
  {
    Seqs.Map(positions, (p: Position) => OpenOrderFor(p, next))
  }

  /**
   * Closing is position by position: one close order per position held in the
   * symbol, none for a position in another symbol, and the orders follow the
   * positions' order.
   */
  lemma CloseRequestsCompose(a: seq<Position>, b: seq<Position>, symbol: string)
    ensures CloseRequests(a + b, symbol) == CloseRequests(a, symbol) + CloseRequests(b, symbol)
  {
    var p := (x: Position) => x.symbol == symbol;
    Seqs.FilterAppend(a, b, p);
    Seqs.MapAppend(Seqs.Filter(a, p), Seqs.Filter(b, p), CloseOrderFor);
  }

  lemma CloseRequestsSingle(x: Position, symbol: string)
    ensures CloseRequests([x], symbol) == if x.symbol == symbol then [CloseOrderFor(x)] else []
  {
    assert [x][1..] == [];
  }

  /** Every position, held in any symbol, is reopened once on the new contract. */
  lemma OpenRequestsCompose(a: seq<Position>, b: seq<Position>, next: Instrument)
    ensures OpenRequests(a + b, next) == OpenRequests(a, next) + OpenRequests(b, next)
  {
  }

  /**
   * Close and reopen send the same wire side for a position recorded as `BUY`
   * or `buy`: a `BUY` position is closed with a sell and reopened with a sell
   * (the upper-case side is not `buy`), a `buy` position is closed with a buy
   * and reopened with a buy. Only `SELL`-like sides get opposite sides.
   */
  lemma CloseAndReopenSides(p: Position, next: Instrument)
    ensures MapToFyersRequest(CloseOrderFor(p)).side == (if p.side == "BUY" then SellSide else BuySide)
    ensures MapToFyersRequest(OpenOrderFor(p, next)).side == (if p.side == "buy" then BuySide else SellSide)
    ensures p.side == "BUY" || p.side == "buy" <==>
      MapToFyersRequest(CloseOrderFor(p)).side == MapToFyersRequest(OpenOrderFor(p, next)).side
  {
  }

  /** `closeAllPositions`: one close order per position held in `symbol`; a failed order does not stop the loop. */
  method CloseAllPositions(backend: Backend, broker: FyersBroker, openPositions: seq<Position>, symbol: string)
    modifies backend`log
    ensures backend.log == old(backend.log) + OrderEvents(broker.appId, CloseRequests(openPositions, symbol))
  {
    var positionsToClose := PositionsIn(openPositions, symbol);
    ghost var sent := CloseRequests(openPositions, symbol);
    for i := 0 to |positionsToClose|
      invariant backend.log == old(backend.log) + OrderEvents(broker.appId, sent[..i])
    {
      var order := CloseOrderFor(positionsToClose[i]);
      assert order == sent[i];
      var closeResponse := backend.PlaceOrder(broker, order);
      OrderEventsSnoc(broker.appId, sent, i);
    }
    assert sent[..|positionsToClose|] == sent;
  }

  /** `openNewPositions`: one order per previous position, on the new contract; failures do not stop the loop. */
  method OpenNewPositions(backend: Backend, broker: FyersBroker, previousPositions: seq<Position>, next: Instrument)
    modifies backend`log
    ensures backend.log == old(backend.log) + OrderEvents(broker.appId, OpenRequests(previousPositions, next))
  {
    var sent := OpenRequests(previousPositions, next);
    for i := 0 to |previousPositions|
      invariant backend.log == old(backend.log) + OrderEvents(broker.appId, sent[..i])
    {
      var openResponse := backend.PlaceOrder(broker, OpenOrderFor(previousPositions[i], next));
      OrderEventsSnoc(broker.appId, sent, i);
    }
    assert sent[..|previousPositions|] == sent;
  }
}
