/** The risk gate: four ordered rejection checks in front of every order,
    confidence-scaled position sizing, and the two running counters (daily
    profit and loss, open exposure) that the checks read. */
module RiskEngine {
  import opened PyValues
  import opened Numeric

  const MAX_RISK_PER_TRADE: real := 0.01
  const MAX_POSITION_SIZE: real := 0.20
  const MAX_DAILY_DRAWDOWN: real := 0.05
  const MIN_CONFIDENCE: real := 0.20

  /** `check_confidence`. */
  predicate CheckConfidence(confidence: real)
  {
    confidence >= MIN_CONFIDENCE
  }

  /** `equity * MAX_RISK_PER_TRADE * clamp(confidence, 0, 1)`, before rounding. */
  function RawPositionSize(equity: real, confidence: real): (r: real)
    ensures 0.0 <= equity ==> 0.0 <= r <= equity * MAX_RISK_PER_TRADE
    ensures confidence >= 1.0 ==> r == equity * MAX_RISK_PER_TRADE
    ensures confidence <= 0.0 ==> r == 0.0
  {
    var base := equity * MAX_RISK_PER_TRADE;
    var c := Clamp(confidence, 0.0, 1.0);
    assert 0.0 <= equity ==> 0.0 <= base;
    ScaleBound(base, c);
    base * c
  }

  lemma ScaleBound(base: real, c: real)
    requires 0.0 <= c <= 1.0
    ensures 0.0 <= base ==> 0.0 <= base * c <= base
  {
    if 0.0 <= base {
      NonNegProduct(base, c);
      NonNegProduct(base, 1.0 - c);
      assert base * c + base * (1.0 - c) == base;
    }
  }

  lemma NonNegProduct(a: real, b: real)
    requires 0.0 <= a && 0.0 <= b
    ensures 0.0 <= a * b
  {
  }

  /** `calculate_position_size`: the raw size rounded to 2 places. */
  function CalculatePositionSize(equity: real, confidence: real, py: Builtins): real
  {
    py.round(RawPositionSize(equity, confidence), 2)
  }

  /** The number `confidence >= MIN_CONFIDENCE` compares: a bool counts as 0 or
      1; None, a str or a container raises TypeError. */
  function Comparable(v: Value): (r: Result<real>)
    ensures r.Ok? <==> v.Num? || v.Bool?
    ensures v.Num? ==> r == Ok(v.x)
  {
    match v
    case Num(x) => Ok(x)
    case Bool(b) => Ok(if b then 1.0 else 0.0)
    case _ => Raise("TypeError")
  }

  /** What `approve_trade` returns. */
  datatype Approval =
    | Approved(decision: Value, positionSize: real, confidence: Value)
    | Rejected(reason: string)

  /** The risk counters, a single shared record in the source. */
  class RiskState {
    var dailyPnl: real
    var openExposure: real

    constructor ()
      ensures dailyPnl == 0.0 && openExposure == 0.0
    {
      dailyPnl := 0.0;
      openExposure := 0.0;
    }

    /** Exposure never goes negative. */
    predicate Valid()
      reads this
    {
      openExposure >= 0.0
    }

    /** `check_drawdown`. */
    predicate CheckDrawdown()
      reads this
    {
      Abs(dailyPnl) < MAX_DAILY_DRAWDOWN
    }

    /** `check_exposure`. */
    predicate CheckExposure(equity: real, newPositionSize: real)
      reads this
    {
      openExposure + newPositionSize <= equity * MAX_POSITION_SIZE
    }

    /** `approve_trade`: a HOLD, a weak signal, a breached drawdown and too
        much exposure are rejected in that order; otherwise the trade is
        approved with a confidence-scaled size.  The payload's confidence
        defaults to 0.0; one that cannot be compared with a number raises. */
    function ApproveTrade(payload: map<string, Value>, equity: real, py: Builtins): (r: Result<Approval>)
      reads this
      ensures var decision := Get(payload, "decision");
        var conf := GetOr(payload, "confidence", Num(0.0));
        && (decision == Str("HOLD") <==> r == Ok(Rejected("No trade decision")))
        && (r.Raise? <==> decision != Str("HOLD") && Comparable(conf).Raise?)
        && (r == Ok(Rejected("Low confidence signal")) <==>
              decision != Str("HOLD") && Comparable(conf).Ok? && !CheckConfidence(Comparable(conf).value))
        && (r == Ok(Rejected("Daily drawdown limit breached")) <==>
              decision != Str("HOLD") && Comparable(conf).Ok? && CheckConfidence(Comparable(conf).value)
              && !CheckDrawdown())
        && (r == Ok(Rejected("Exposure limit exceeded")) <==>
              decision != Str("HOLD") && Comparable(conf).Ok? && CheckConfidence(Comparable(conf).value)
              && CheckDrawdown()
              && !CheckExposure(equity, CalculatePositionSize(equity, Comparable(conf).value, py)))
        && (r.Ok? && r.value.Approved? ==>
              r.value == Approved(decision, CalculatePositionSize(equity, Comparable(conf).value, py), conf))
      ensures var decision := Get(payload, "decision");
        var conf := Comparable(GetOr(payload, "confidence", Num(0.0)));
        decision != Str("HOLD") && conf.Ok? && CheckConfidence(conf.value) && CheckDrawdown()
        && CheckExposure(equity, CalculatePositionSize(equity, conf.value, py))
        ==> r.Ok? && r.value.Approved?
      ensures r.Ok? && r.value.Rejected? ==>
        r.value.reason in {"No trade decision", "Low confidence signal", "Daily drawdown limit breached", "Exposure limit exceeded"}
    {
      var decision := Get(payload, "decision");
      var conf := GetOr(payload, "confidence", Num(0.0));
      if decision == Str("HOLD") then Ok(Rejected("No trade decision"))
      else match Comparable(conf)
        case Raise(e) => Raise(e)
        case Ok(confidence) =>
          if !CheckConfidence(confidence) then Ok(Rejected("Low confidence signal"))
          else if !CheckDrawdown() then Ok(Rejected("Daily drawdown limit breached"))
          else
            var size := CalculatePositionSize(equity, confidence, py);
            if !CheckExposure(equity, size) then Ok(Rejected("Exposure limit exceeded"))
            else Ok(Approved(decision, size, conf))
    }

    /** An approval means every check passed: the decision is not HOLD, the
        confidence is at least the minimum, the drawdown is inside its limit and
        the new exposure fits under 20% of equity. */
    lemma ApprovalImpliesLimits(payload: map<string, Value>, equity: real, py: Builtins)
      requires ApproveTrade(payload, equity, py).Ok? && ApproveTrade(payload, equity, py).value.Approved?
      ensures Get(payload, "decision") != Str("HOLD")
      ensures var c := Comparable(GetOr(payload, "confidence", Num(0.0)));
        c.Ok? && c.value >= MIN_CONFIDENCE
      ensures Abs(dailyPnl) < MAX_DAILY_DRAWDOWN
      ensures openExposure + ApproveTrade(payload, equity, py).value.positionSize <= equity * MAX_POSITION_SIZE
    {
    }

    /** `update_after_trade`: books the closed trade's result and releases its
        exposure, never below zero. */
    method UpdateAfterTrade(pnl: real, positionSize: real)
      modifies this
      ensures dailyPnl == old(dailyPnl) + pnl
      ensures openExposure == Max(old(openExposure) - positionSize, 0.0)
      ensures Valid()
    {
      dailyPnl := dailyPnl + pnl;
      openExposure := openExposure - positionSize;
      openExposure := Max(openExposure, 0.0);
    }

    /** `register_open_trade`: adds the new position's size to the exposure. */
    method RegisterOpenTrade(positionSize: real)
      modifies this
      ensures openExposure == old(openExposure) + positionSize
      ensures dailyPnl == old(dailyPnl)
      ensures old(Valid()) && positionSize >= 0.0 ==> Valid()
    {
      openExposure := openExposure + positionSize;
    }
  }
}
