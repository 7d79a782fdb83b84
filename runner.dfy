/** The live runner's bookkeeping: the consecutive-failure kill switch of the
    main loop, the ticker projection used in logs, the counted sleep and the
    condition for uploading a log on a tick that did not trade.  The body of
    a tick (market fetch, routing, decision, execution) is summarised by its
    outcome. */
module Runner {
  import opened PyValues
  import ConfigLoader
  import Execution

  /** How one pass of the loop body ends. */
  datatype TickOutcome =
    | Completed     // the body ran to its end
    | Failed        // the body raised an Exception
    | Interrupted   // the body raised KeyboardInterrupt

  datatype StopReason = KillSwitch | StoppedByUser | HorizonEnd

  /** The number of consecutive failures at the end of a trace of ticks. */
  function TrailingFailures(trace: seq<TickOutcome>): (n: nat)
    ensures n <= |trace|
  {
    if trace == [] then 0
    else if trace[|trace| - 1] == Failed then TrailingFailures(trace[..|trace| - 1]) + 1
    else 0
  }

  /** The count is exactly the length of the trace's maximal all-failure
      suffix: every tick it covers failed, and the tick before it did not. */
  lemma {:induction false} TrailingFailuresIsRun(trace: seq<TickOutcome>)
    ensures var n := TrailingFailures(trace);
      && (forall k :: |trace| - n <= k < |trace| ==> trace[k] == Failed)
      && (n < |trace| ==> trace[|trace| - n - 1] != Failed)
  {
    if trace != [] && trace[|trace| - 1] == Failed {
      var init := trace[..|trace| - 1];
      TrailingFailuresIsRun(init);
      assert forall k :: 0 <= k < |init| ==> init[k] == trace[k];
    }
  }

  /** The failure count at which the kill switch fires: the first failure
      already reaches a bound below 1. */
  function Limit(maxFailures: int): int
  {
    if maxFailures < 1 then 1 else maxFailures
  }

  /** The main loop over the ticks `ticks` (the model's horizon).  A completed
      tick resets the failure counter, a failed one adds exactly 1 to it and a
      keyboard interrupt stops the loop without counting; the loop stops at
      the first tick where the counter reaches `maxFailures`.  `ran` is the
      number of ticks the loop handled before it stopped. */
  method RunLoop(ticks: seq<TickOutcome>, maxFailures: int) returns (stop: StopReason, failures: int, ran: nat)
    ensures ran <= |ticks|
    ensures forall k :: 0 <= k < ran ==> ticks[k] != Interrupted
    ensures failures == TrailingFailures(ticks[..ran])
    ensures forall k :: 0 <= k < ran ==> TrailingFailures(ticks[..k]) < Limit(maxFailures)
    ensures failures <= Limit(maxFailures)
    ensures stop == KillSwitch <==> ran > 0 && ticks[ran - 1] == Failed && failures >= maxFailures
    ensures stop == KillSwitch ==> failures == Limit(maxFailures)
    ensures stop == StoppedByUser <==> ran < |ticks| && !(ran > 0 && ticks[ran - 1] == Failed && failures >= maxFailures)
    ensures stop == StoppedByUser ==> ticks[ran] == Interrupted
    ensures stop == HorizonEnd <==> ran == |ticks| && !(ran > 0 && ticks[ran - 1] == Failed && failures >= maxFailures)
  {
    failures := 0;
    ran := 0;
    while ran < |ticks|
      invariant 0 <= ran <= |ticks|
      invariant forall k :: 0 <= k < ran ==> ticks[k] != Interrupted
      invariant failures == TrailingFailures(ticks[..ran])
      invariant forall k :: 0 <= k <= ran ==> TrailingFailures(ticks[..k]) < Limit(maxFailures)
    {
      assert ticks[..ran + 1][..ran] == ticks[..ran];
      match ticks[ran]
      case Interrupted =>
        return StoppedByUser, failures, ran;
      case Completed =>
        failures := 0;
        ran := ran + 1;
      case Failed =>
        failures := failures + 1;
        ran := ran + 1;
        if failures >= maxFailures {
          return KillSwitch, failures, ran;
        }
    }
    return HorizonEnd, failures, ran;
  }

  /** `safe_sleep`: one one-second sleep per whole second; none for a
      negative count. */
  method SafeSleep(seconds: int) returns (slept: nat)
    ensures slept == if seconds < 0 then 0 else seconds
  {
    var count := if seconds < 0 then 0 else seconds;
    slept := 0;
    while slept < count
      invariant slept <= count
    {
      slept := slept + 1;
    }
  }

  const TICKER_FIELDS: set<string> := {
    "symbol", "last", "best_bid", "best_ask", "markPrice", "indexPrice", "volume_24h",
    "priceChangePercent", "timestamp"}

  /** `_ticker_min`: exactly the nine market fields kept for logs, each as
      the ticker has it or None. */
  function TickerMin(ticker: map<string, Value>): (r: map<string, Value>)
    ensures r.Keys == TICKER_FIELDS
    ensures forall k :: k in TICKER_FIELDS ==> r[k] == Get(ticker, k)
  {
    map k | k in TICKER_FIELDS :: Get(ticker, k)
  }

  /** Projecting a projection changes nothing. */
  lemma TickerMinIdempotent(ticker: map<string, Value>)
    ensures TickerMin(TickerMin(ticker)) == TickerMin(ticker)
  {
  }

  /** Whether a tick uploads a log although it did not trade: logging is on,
      hold-log uploads are configured, and the engine reported NO_TRADE or
      HOLD_POSITION.  Both settings are read as `bool(cfg_get(...))` with
      their defaults (on and off). */
  predicate UploadsHoldLog(cfg: Value, result: Execution.ManageResult)
  {
    && Truthy(ConfigLoader.Resolve(cfg, "ai_log.enabled", Bool(true)))
    && Truthy(ConfigLoader.Resolve(cfg, "ai_log.upload_hold_logs", Bool(false)))
    && (result.NoTrade? || result.HoldPosition?)
  }

  /** Opening or closing never triggers a hold log. */
  lemma HoldLogOnlyWhenIdle(cfg: Value, result: Execution.ManageResult)
    ensures result.Opened? || result.Closed? ==> !UploadsHoldLog(cfg, result)
  {
  }
}
