/** The execution engine: the single position slot for one symbol, the exit
    rules for an open position, and the bounded retry loops that send open and
    close orders to the exchange.  The exchange is an oracle: each order
    attempt is described by an `Attempt` (the clock reading, whether
    `place_order` returned or raised, whether the audit-log upload raised, and
    the single-position reply the attempt's refresh sees). */
module Execution {
  import opened PyValues
  import opened PositionReply

  datatype ExecutionConfig = ExecutionConfig(
    symbol: string,
    size: string,             // order size, as the decimal string sent to the exchange
    leverage: int,
    takeProfitPct: real,
    stopLossPct: real,
    maxHoldMinutes: int,
    regimeFlipExit: bool,
    maxCloseRetries: int,
    maxOpenRetries: int)

  /** The dataclass defaults. */
  const DEFAULT_CONFIG := ExecutionConfig("cmt_btcusdt", "0.0010", 3, 0.0025, 0.0020, 45, true, 2, 2)

  /** The engine's cached view of the open position. */
  datatype PositionState = PositionState(
    symbol: string,
    side: Side,
    size: real,
    entryPrice: real,
    openedAtMs: int,
    lastUpdateMs: int)

  function AgeSeconds(p: PositionState, nowMs: int): real
  {
    (nowMs - p.openedAtMs) as real / 1000.0
  }

  /** `_pct_change`: the relative move from `entry` to `current`, 0 for an unknown entry. */
  function PctChange(current: real, entry: real): (r: real)
    ensures entry == 0.0 ==> r == 0.0
    ensures entry != 0.0 ==> current == entry * (1.0 + r)
  {
    if entry == 0.0 then 0.0 else (current - entry) / entry
  }

  /** `_open_type`: the order-type code that opens a position in `direction`. */
  function OpenType(direction: string): (r: Result<string>)
    ensures r == Ok("1") <==> direction == "BUY"
    ensures r == Ok("2") <==> direction == "SELL"
    ensures r.Raise? <==> direction != "BUY" && direction != "SELL"
  {
    if direction == "BUY" then Ok("1")
    else if direction == "SELL" then Ok("2")
    else Raise("ValueError")
  }

  /** `_close_type`: the order-type code that closes a position held on `positionSide`. */
  function CloseType(positionSide: string): (r: Result<string>)
    ensures r == Ok("3") <==> positionSide == "LONG"
    ensures r == Ok("4") <==> positionSide == "SHORT"
    ensures r.Raise? <==> positionSide != "LONG" && positionSide != "SHORT"
  {
    if positionSide == "LONG" then Ok("3")
    else if positionSide == "SHORT" then Ok("4")
    else Raise("ValueError")
  }

  /** The close code of a side the engine holds; `_close_type` never raises on it. */
  function CloseCode(side: Side): (r: string)
    ensures CloseType(SideName(side)) == Ok(r)
  {
    match side
    case Long => "3"
    case Short => "4"
  }

  /** The body handed to `place_order`.  `client_oid` is the clock reading in
      milliseconds; orders are market orders ("match_price" 1) at price 0. */
  datatype OrderRequest = OrderRequest(
    symbol: string,
    clientOidMs: int,
    size: string,
    typeCode: string,
    orderType: string,
    matchPrice: string,
    price: string)

  function OrderPayload(cfg: ExecutionConfig, nowMs: int, typeCode: string): OrderRequest
  {
    OrderRequest(cfg.symbol, nowMs, cfg.size, typeCode, "0", "1", "0")
  }

  /** What the exchange does with one order attempt. */
  datatype PlaceResult = PlaceRaised | PlaceReturned(response: Value)

  datatype Attempt = Attempt(
    nowMs: int,
    place: PlaceResult,
    logRaises: bool,       // building or uploading the audit log raised
    positionReply: Value)  // what get_single_position answers to the refresh after an open

  /** `int(resp.get("order_id")) if resp and resp.get("order_id") else None`. */
  function OrderIdOf(resp: Value, py: Builtins): (r: Result<Option<int>>)
    ensures r == Ok(None) <==> !Truthy(resp) || (resp.Dict? && !Truthy(Get(resp.fields, "order_id")))
    ensures r.Ok? && r.value.Some? ==> resp.Dict? && ToInt(Get(resp.fields, "order_id"), py) == Ok(r.value.value)
    ensures r.Raise? <==>
      Truthy(resp) && (!resp.Dict? || (Truthy(Get(resp.fields, "order_id")) && ToInt(Get(resp.fields, "order_id"), py).Raise?))
  {
    if !Truthy(resp) then Ok(None)
    else if !resp.Dict? then Raise("AttributeError")
    else
      var oid := Get(resp.fields, "order_id");
      if !Truthy(oid) then Ok(None)
      else match ToInt(oid, py)
        case Ok(n) => Ok(Some(n))
        case Raise(e) => Raise(e)
  }

  /** An attempt whose order call, order-id conversion and log upload all
      returned normally. */
  predicate AttemptReturns(att: Attempt, py: Builtins)
  {
    att.place.PlaceReturned? && OrderIdOf(att.place.response, py).Ok? && !att.logRaises
  }

  /** An open attempt that runs to its `return True`: the payload can be built,
      the attempt returns, and the refresh does not raise. */
  predicate OpenCompletes(direction: string, att: Attempt, py: Builtins)
  {
    OpenType(direction).Ok? && AttemptReturns(att, py) && Classify(att.positionReply, py) != NotARecord
  }

  /** The order id an attempt assigns, if it gets as far as assigning one. */
  function AssignedId(att: Attempt, py: Builtins): Option<Option<int>>
  {
    if att.place.PlaceRaised? then None
    else match OrderIdOf(att.place.response, py)
      case Ok(id) => Some(id)
      case Raise(_) => None
  }

  /** The order id left by the last of the first `n` attempts that assigned one. */
  function LastAssigned(oracle: nat -> Attempt, n: nat, py: Builtins): Option<int>
  {
    if n == 0 then None
    else match AssignedId(oracle(n - 1), py)
      case Some(id) => id
      case None => LastAssigned(oracle, n - 1, py)
  }

  /** `range(1, retries + 1)` has this many attempts. */
  function Budget(retries: int): nat
  {
    if retries > 0 then retries else 0
  }

  /** The position a reconciliation adopts from a live report: the exchange's
      side, size and entry price under the configured symbol, stamped now, and
      opened when the previous local position was opened, if there was one. */
  function Adopted(cfg: ExecutionConfig, previous: Option<PositionState>, report: Report, nowMs: int): (p: PositionState)
    requires report.Live?
    ensures p.symbol == cfg.symbol
    ensures p.side == report.side && p.size == report.size && p.entryPrice == report.entryPrice
    ensures previous.Some? ==> p.openedAtMs == previous.value.openedAtMs
    ensures previous.None? ==> p.openedAtMs == nowMs
    ensures p.lastUpdateMs == nowMs
  {
    var openedAt := if previous.Some? then previous.value.openedAtMs else nowMs;
    PositionState(cfg.symbol, report.side, report.size, report.entryPrice, openedAt, nowMs)
  }

  /** The local position after `fetch_position` sees `data`: only a live report
      replaces it; an empty, unrecognised or zero-size reply leaves it as it was. */
  function AfterFetch(cfg: ExecutionConfig, previous: Option<PositionState>, data: Value, nowMs: int, py: Builtins): (r: Option<PositionState>)
    ensures !Classify(data, py).Live? ==> r == previous
    ensures Classify(data, py).Live? ==> r.Some? && r.value.symbol == cfg.symbol && r.value.size != 0.0
    ensures Classify(data, py).Live? && previous.Some? ==> r.value.openedAtMs == previous.value.openedAtMs
  {
    var report := Classify(data, py);
    if report.Live? then Some(Adopted(cfg, previous, report, nowMs)) else previous
  }

  /** Why `should_exit` did or did not exit (the reason strings of the source,
      without their formatted percentages). */
  datatype ExitReason =
    | NoPosition
    | UnknownEntryPrice
    | TakeProfitHit(pnlPct: real)
    | StopLossHit(pnlPct: real)
    | TimeStop
    | RegimeFlipExit(regime: Value)
    | Hold

  predicate IsExit(reason: ExitReason)
  {
    reason.TakeProfitHit? || reason.StopLossHit? || reason.TimeStop? || reason.RegimeFlipExit?
  }

  datatype ExitCheck = ExitCheck(exitNow: bool, reason: ExitReason)

  /** `_safe_float(ticker.get("last") or ticker.get("markPrice") or 0.0)`. */
  function TickerLast(ticker: map<string, Value>, py: Builtins): real
  {
    SafeFloat(Or(Or(Get(ticker, "last"), Get(ticker, "markPrice")), Num(0.0)), py)
  }

  /** The profit of the held side: a short gains when the price falls. */
  function SidedPnl(side: Side, last: real, entry: real): (r: real)
    ensures side == Long ==> r == PctChange(last, entry)
    ensures side == Short ==> r == -PctChange(last, entry)
  {
    if side == Short then -PctChange(last, entry) else PctChange(last, entry)
  }

  /** A regime that runs against the held side: DOWNTREND or CHOP for a long,
      UPTREND or CHOP for a short. */
  predicate Opposes(side: Side, regime: Value)
  {
    match side
    case Long => regime == Str("DOWNTREND") || regime == Str("CHOP")
    case Short => regime == Str("UPTREND") || regime == Str("CHOP")
  }

  /** `should_exit`: the exit rules in their fixed priority order.  The first
      rule that holds wins: take-profit, stop-loss, time-stop, regime flip. */
  function ShouldExit(cfg: ExecutionConfig, position: Option<PositionState>, router: map<string, Value>,
                      ticker: map<string, Value>, nowMs: int, py: Builtins): (r: ExitCheck)
    ensures position.None? ==> r == ExitCheck(false, NoPosition)
    ensures position.Some? && position.value.entryPrice <= 0.0 ==> r == ExitCheck(false, UnknownEntryPrice)
    ensures r.exitNow <==> IsExit(r.reason)
    ensures position.Some? && position.value.entryPrice > 0.0 ==>
      var p := position.value;
      var pnl := SidedPnl(p.side, TickerLast(ticker, py), p.entryPrice);
      var regime := GetOr(router, "regime", Str(""));
      var tp := pnl >= cfg.takeProfitPct;
      var sl := pnl <= -cfg.stopLossPct;
      var ts := AgeSeconds(p, nowMs) >= (cfg.maxHoldMinutes * 60) as real;
      var rf := cfg.regimeFlipExit && Opposes(p.side, regime);
      && (r.reason == TakeProfitHit(pnl) <==> tp)
      && (r.reason == StopLossHit(pnl) <==> !tp && sl)
      && (r.reason == TimeStop <==> !tp && !sl && ts)
      && (r.reason == RegimeFlipExit(regime) <==> !tp && !sl && !ts && rf)
      && (r.reason == Hold <==> !tp && !sl && !ts && !rf)
  {
    if position.None? then ExitCheck(false, NoPosition)
    else
      var p := position.value;
      var last := TickerLast(ticker, py);
      var entry := p.entryPrice;
      if entry <= 0.0 then ExitCheck(false, UnknownEntryPrice)
      else
        var pnl := PctChange(last, entry);
        var pnl := if p.side == Short then -pnl else pnl;
        if pnl >= cfg.takeProfitPct then ExitCheck(true, TakeProfitHit(pnl))
        else if pnl <= -cfg.stopLossPct then ExitCheck(true, StopLossHit(pnl))
        else if AgeSeconds(p, nowMs) >= (cfg.maxHoldMinutes * 60) as real then ExitCheck(true, TimeStop)
        else
          var regime := GetOr(router, "regime", Str(""));
          if cfg.regimeFlipExit && Opposes(p.side, regime) then ExitCheck(true, RegimeFlipExit(regime))
          else ExitCheck(false, Hold)
  }

  /** A long opened at 100 and now at 100.26 exits for take-profit under the
      default 0.25% target, even when its maximum hold time has also passed. */
  lemma TakeProfitWinsOverTimeStop(router: map<string, Value>, py: Builtins)
    ensures var p := PositionState("cmt_btcusdt", Long, 0.001, 100.0, 0, 0);
      var late := DEFAULT_CONFIG.maxHoldMinutes * 60 * 1000 + 1;
      ShouldExit(DEFAULT_CONFIG, Some(p), router, map["last" := Num(100.26)], late, py).reason.TakeProfitHit?
  {
    var p := PositionState("cmt_btcusdt", Long, 0.001, 100.0, 0, 0);
    assert TickerLast(map["last" := Num(100.26)], py) == 100.26;
    assert PctChange(100.26, 100.0) == 0.0026;
  }

  /** The outcome of `manage` (its "action" with the fields that go with it). */
  datatype ManageResult =
    | Closed(ok: bool, orderId: Option<int>, reason: ExitReason)   // "CLOSE"
    | HoldPosition                                                  // "HOLD_POSITION", reason "no_exit_signal"
    | NoTrade                                                       // "NO_TRADE", reason "decision_hold"
    | Opened(ok: bool, orderId: Option<int>)                        // "OPEN", reason "entry_signal"

  /** A direction `manage` opens for. */
  predicate IsEntrySignal(d: Value)
  {
    d == Str("BUY") || d == Str("SELL")
  }

  class ExecutionEngine {
    const cfg: ExecutionConfig
    const py: Builtins
    var position: Option<PositionState>
    /** Every request handed to the exchange's `place_order`, in order. */
    ghost var sent: seq<OrderRequest>

    constructor (cfg: ExecutionConfig, py: Builtins)
      ensures this.cfg == cfg && this.py == py
      ensures position == None && sent == []
    {
      this.cfg := cfg;
      this.py := py;
      position := None;
      sent := [];
    }

    /** `fetch_position`: reconciles the cached position with the exchange's reply. */
    method FetchPosition(data: Value, nowMs: int) returns (r: Result<Option<PositionState>>)
      modifies this`position
      ensures position == AfterFetch(cfg, old(position), data, nowMs, py)
      ensures r.Raise? <==> Classify(data, py) == NotARecord
      ensures r.Ok? && !Classify(data, py).Live? ==> r.value == None
      ensures Classify(data, py).Live? ==> r == Ok(position)
    {
      if !Truthy(data) {
        return Ok(None);
      }
      var pos: Value;
      if data.List? && |data.items| > 0 {
        pos := data.items[0];
      } else if data.Dict? {
        pos := data;
      } else {
        return Ok(None);
      }
      if !pos.Dict? {
        return Raise("AttributeError");
      }
      var size := ReportedSize(pos.fields, py);
      if size == 0.0 {
        return Ok(None);
      }
      var side := ReportedSide(pos.fields);
      var entryPrice := ReportedEntryPrice(pos.fields, py);
      var openedAt := if position.Some? then position.value.openedAtMs else nowMs;
      position := Some(PositionState(cfg.symbol, side, size, entryPrice, openedAt, nowMs));
      r := Ok(position);
    }

    /** `open_position`: up to `max_open_retries` attempts; success only on an
        attempt that ran to completion, after which the cache is refreshed. */
    method OpenPosition(direction: string, oracle: nat -> Attempt) returns (ok: bool, orderId: Option<int>, ghost tried: nat)
      modifies this`position, this`sent
      ensures tried <= Budget(cfg.maxOpenRetries)
      ensures forall j :: 0 <= j < tried && !(ok && j == tried - 1) ==> !OpenCompletes(direction, oracle(j), py)
      ensures ok ==> 1 <= tried && OpenCompletes(direction, oracle(tried - 1), py)
      ensures ok ==> position == AfterFetch(cfg, old(position), oracle(tried - 1).positionReply, oracle(tried - 1).nowMs, py)
      ensures !ok ==> tried == Budget(cfg.maxOpenRetries) && position == old(position)
      ensures OpenType(direction).Raise? ==> orderId == None
      ensures OpenType(direction).Ok? ==> orderId == LastAssigned(oracle, tried, py)
      ensures OpenType(direction).Raise? ==> sent == old(sent)
      ensures OpenType(direction).Ok? ==>
        |sent| == |old(sent)| + tried && sent[..|old(sent)|] == old(sent) &&
        forall j :: 0 <= j < tried ==> sent[|old(sent)| + j] == OrderPayload(cfg, oracle(j).nowMs, OpenType(direction).value)
      ensures OpenType(direction).Ok? ==> forall k :: |old(sent)| <= k < |sent| ==> sent[k].typeCode == OpenType(direction).value
    {
      ok, orderId, tried := false, None, 0;
      var budget := Budget(cfg.maxOpenRetries);
      var attempts := 0;
      while attempts < budget
        invariant tried == attempts <= budget
        invariant position == old(position)
        invariant forall j :: 0 <= j < tried ==> !OpenCompletes(direction, oracle(j), py)
        invariant OpenType(direction).Raise? ==> orderId == None && sent == old(sent)
        invariant OpenType(direction).Ok? ==> orderId == LastAssigned(oracle, tried, py)
        invariant OpenType(direction).Ok? ==>
          |sent| == |old(sent)| + tried && sent[..|old(sent)|] == old(sent) &&
          forall j :: 0 <= j < tried ==> sent[|old(sent)| + j] == OrderPayload(cfg, oracle(j).nowMs, OpenType(direction).value)
        invariant OpenType(direction).Ok? ==> forall k :: |old(sent)| <= k < |sent| ==> sent[k].typeCode == OpenType(direction).value
      {
        var att := oracle(attempts);
        attempts := attempts + 1;
        tried := attempts;
        var typeCode := OpenType(direction);
        if typeCode.Raise? {
          continue;
        }
        sent := sent + [OrderPayload(cfg, att.nowMs, typeCode.value)];
        if att.place.PlaceRaised? {
          continue;
        }
        var id := OrderIdOf(att.place.response, py);
        if id.Raise? {
          continue;
        }
        orderId := id.value;
        if att.logRaises {
          continue;
        }
        var refreshed := FetchPosition(att.positionReply, att.nowMs);
        if refreshed.Raise? {
          continue;
        }
        ok := true;
        return;
      }
    }

    /** `close_position`: nothing to do without a position; otherwise up to
        `max_close_retries` attempts of the held side's close order for the
        configured size, clearing the cache on the first that completes. */
    method ClosePosition(reason: ExitReason, oracle: nat -> Attempt) returns (ok: bool, closeOrderId: Option<int>, ghost tried: nat)
      modifies this`position, this`sent
      ensures old(position).None? ==> !ok && closeOrderId == None && tried == 0 && position == None && sent == old(sent)
      ensures tried <= Budget(cfg.maxCloseRetries)
      ensures forall j :: 0 <= j < tried && !(ok && j == tried - 1) ==> !AttemptReturns(oracle(j), py)
      ensures ok ==> 1 <= tried && AttemptReturns(oracle(tried - 1), py) && position == None
      ensures !ok ==> position == old(position)
      ensures !ok && old(position).Some? ==> tried == Budget(cfg.maxCloseRetries)
      ensures closeOrderId == LastAssigned(oracle, tried, py)
      ensures old(position).Some? ==>
        |sent| == |old(sent)| + tried && sent[..|old(sent)|] == old(sent) &&
        forall j :: 0 <= j < tried ==>
          sent[|old(sent)| + j] == OrderPayload(cfg, oracle(j).nowMs, CloseCode(old(position).value.side))
      ensures old(position).Some? ==> forall k :: |old(sent)| <= k < |sent| ==> sent[k].typeCode == CloseCode(old(position).value.side)
    {
      ok, closeOrderId, tried := false, None, 0;
      if position.None? {
        return;
      }
      var side := position.value.side;
      var budget := Budget(cfg.maxCloseRetries);
      var attempts := 0;
      while attempts < budget
        invariant tried == attempts <= budget
        invariant position == old(position)
        invariant forall j :: 0 <= j < tried ==> !AttemptReturns(oracle(j), py)
        invariant closeOrderId == LastAssigned(oracle, tried, py)
        invariant |sent| == |old(sent)| + tried && sent[..|old(sent)|] == old(sent)
        invariant forall j :: 0 <= j < tried ==> sent[|old(sent)| + j] == OrderPayload(cfg, oracle(j).nowMs, CloseCode(side))
        invariant forall k :: |old(sent)| <= k < |sent| ==> sent[k].typeCode == CloseCode(side)
      {
        var att := oracle(attempts);
        attempts := attempts + 1;
        tried := attempts;
        sent := sent + [OrderPayload(cfg, att.nowMs, CloseCode(side))];
        if att.place.PlaceRaised? {
          continue;
        }
        var id := OrderIdOf(att.place.response, py);
        if id.Raise? {
          continue;
        }
        closeOrderId := id.value;
        if att.logRaises {
          continue;
        }
        position := None;
        ok := true;
        return;
      }
    }

    /** `manage`: refresh the cache, then manage the exit of a held position,
        or open one on a BUY/SELL decision when flat.  It never opens while a
        position is held and never closes while flat. */
    method Manage(router: map<string, Value>, decision: map<string, Value>, ticker: map<string, Value>,
                  positionReply: Value, nowMs: int, oracle: nat -> Attempt) returns (r: Result<ManageResult>)
      modifies this`position, this`sent
      ensures r.Raise? <==> Classify(positionReply, py) == NotARecord
      ensures r.Raise? ==> position == old(position) && sent == old(sent)
      ensures r.Ok? ==>
        var synced := AfterFetch(cfg, old(position), positionReply, nowMs, py);
        var check := ShouldExit(cfg, synced, router, ticker, nowMs, py);
        && (synced.Some? <==> r.value.Closed? || r.value.HoldPosition?)
        && (r.value.HoldPosition? ==> !check.exitNow && position == synced && sent == old(sent))
        && (r.value.Closed? ==> check.exitNow && r.value.reason == check.reason)
        && (r.value.Closed? ==> (r.value.ok ==> position == None) && (!r.value.ok ==> position == synced))
        && (r.value.Closed? ==>
              exists t: nat :: t <= Budget(cfg.maxCloseRetries) && r.value.orderId == LastAssigned(oracle, t, py)
                && (r.value.ok ==> 1 <= t && AttemptReturns(oracle(t - 1), py))
                && (!r.value.ok ==> t == Budget(cfg.maxCloseRetries))
                && forall j :: 0 <= j < t && !(r.value.ok && j == t - 1) ==> !AttemptReturns(oracle(j), py))
        && (r.value.NoTrade? <==> synced.None? && !IsEntrySignal(Get(decision, "decision")))
        && (r.value.NoTrade? ==> position == synced && sent == old(sent))
        && (r.value.Opened? ==> IsEntrySignal(Get(decision, "decision")))
        && (r.value.Opened? && !r.value.ok ==> position == synced)
        && (r.value.Opened? ==>
              var direction := Get(decision, "decision").s;
              exists t: nat :: t <= Budget(cfg.maxOpenRetries) && r.value.orderId == LastAssigned(oracle, t, py)
                && (r.value.ok ==>
                      && 1 <= t && OpenCompletes(direction, oracle(t - 1), py)
                      && position == AfterFetch(cfg, synced, oracle(t - 1).positionReply, oracle(t - 1).nowMs, py))
                && (!r.value.ok ==> t == Budget(cfg.maxOpenRetries))
                && forall j :: 0 <= j < t && !(r.value.ok && j == t - 1) ==> !OpenCompletes(direction, oracle(j), py))
        && |old(sent)| <= |sent| && sent[..|old(sent)|] == old(sent)
        && (forall k :: |old(sent)| <= k < |sent| ==>
              if synced.Some? then sent[k].typeCode == CloseCode(synced.value.side)
              else sent[k].typeCode == "1" || sent[k].typeCode == "2")
    {
      var fetched := FetchPosition(positionReply, nowMs);
      if fetched.Raise? {
        return Raise(fetched.error);
      }
      if position.Some? {
        var check := ShouldExit(cfg, position, router, ticker, nowMs, py);
        if check.exitNow {
          var ok, closeId;
          ghost var tried;
          ok, closeId, tried := ClosePosition(check.reason, oracle);
          return Ok(Closed(ok, closeId, check.reason));
        }
        return Ok(HoldPosition);
      }
      var d := Get(decision, "decision");
      if !IsEntrySignal(d) {
        return Ok(NoTrade);
      }
      var ok, openId;
      ghost var tried;
      ok, openId, tried := OpenPosition(d.s, oracle);
      return Ok(Opened(ok, openId));
    }
  }
}
