/** The decision scorer: clamps the raw signals into [-1, 1], blocks trading
    when volatility is too high, otherwise combines the signals with fixed
    weights into a score and compares it with the buy and sell thresholds.
    Every decision carries a per-signal explanation.

    A signal dict is a sequence of (name, value) pairs in insertion order; a
    Python dict has distinct keys, which `DistinctKeys` states where a proof
    needs it. */
module DecisionEngine {
  import opened PyValues
  import opened Numeric

  type Signals = seq<(string, real)>

  const BUY_THRESHOLD: real := 0.30
  const SELL_THRESHOLD: real := -0.30
  const MAX_VOLATILITY: real := 0.80

  /** `WEIGHTS.get(name, 0.0)`. */
  function Weight(name: string): real
  {
    if name == "momentum" then 0.35
    else if name == "trend" then 0.30
    else if name == "volatility" then -0.20
    else if name == "sentiment" then 0.15
    else 0.0
  }

  predicate DistinctKeys(s: Signals)
  {
    forall i, j :: 0 <= i < j < |s| ==> s[i].0 != s[j].0
  }

  predicate HasKey(s: Signals, key: string)
  {
    exists i :: 0 <= i < |s| && s[i].0 == key
  }

  /** `signals.get(key, 0)`: the value stored under `key`, or 0. */
  function ValueOf(s: Signals, key: string): (r: real)
    ensures !HasKey(s, key) ==> r == 0.0
  {
    if s == [] then 0.0
    else if s[|s| - 1].0 == key then s[|s| - 1].1
    else ValueOf(s[..|s| - 1], key)
  }

  /** In a dict, `ValueOf` finds the value stored under the key. */
  lemma {:induction false} ValueOfStored(s: Signals, i: int)
    requires DistinctKeys(s)
    requires 0 <= i < |s|
    ensures ValueOf(s, s[i].0) == s[i].1
  {
    if i < |s| - 1 {
      var init := s[..|s| - 1];
      assert DistinctKeys(init);
      assert init[i] == s[i];
      ValueOfStored(init, i);
    }
  }

  /** `normalize_signals`: the same keys in the same order, each value clamped
      into [-1, 1]. */
  function NormalizeSignals(s: Signals): (r: Signals)
    ensures |r| == |s|
    ensures forall i :: 0 <= i < |s| ==> r[i].0 == s[i].0
    ensures forall i :: 0 <= i < |s| ==> -1.0 <= r[i].1 <= 1.0
    ensures forall i :: 0 <= i < |s| && -1.0 <= s[i].1 <= 1.0 ==> r[i].1 == s[i].1
    ensures forall i :: 0 <= i < |s| && s[i].1 > 1.0 ==> r[i].1 == 1.0
    ensures forall i :: 0 <= i < |s| && s[i].1 < -1.0 ==> r[i].1 == -1.0
  {
    seq(|s|, i requires 0 <= i < |s| => (s[i].0, Clamp(s[i].1, -1.0, 1.0)))
  }

  /** `risk_check`: trading is allowed unless the volatility signal (0 when
      absent) exceeds MAX_VOLATILITY. */
  predicate RiskCheck(s: Signals)
  {
    ValueOf(s, "volatility") <= MAX_VOLATILITY
  }

  /** The weighted score: the sum of weight times value over the signals, in
      order. */
  function Score(s: Signals): real
  {
    if s == [] then 0.0
    else Score(s[..|s| - 1]) + Weight(s[|s| - 1].0) * s[|s| - 1].1
  }

  /** `compute_score`: the accumulator loop over the signals. */
  method ComputeScore(signals: Signals) returns (score: real)
    ensures score == Score(signals)
  {
    score := 0.0;
    var i := 0;
    while i < |signals|
      invariant 0 <= i <= |signals|
      invariant score == Score(signals[..i])
    {
      assert signals[..i + 1][..i] == signals[..i];
      score := score + Weight(signals[i].0) * signals[i].1;
      i := i + 1;
    }
    assert signals[..i] == signals;
  }

  /** Names the scorer does not weigh add nothing: the score of a dict is the
      four weighted signals read by name, each 0 when absent. */
  lemma {:induction false} ScoreByName(s: Signals)
    requires DistinctKeys(s)
    ensures Score(s) == 0.35 * ValueOf(s, "momentum") + 0.30 * ValueOf(s, "trend")
                        - 0.20 * ValueOf(s, "volatility") + 0.15 * ValueOf(s, "sentiment")
  {
    if s != [] {
      var init := s[..|s| - 1];
      var k := s[|s| - 1].0;
      assert DistinctKeys(init);
      ScoreByName(init);
      assert forall i :: 0 <= i < |init| ==> init[i].0 == s[i].0 != k;
    }
  }

  /** After normalisation the score lies in [-1, 1], since the absolute
      weights add up to 1. */
  lemma ScoreBound(raw: Signals)
    requires DistinctKeys(raw)
    ensures -1.0 <= Score(NormalizeSignals(raw)) <= 1.0
  {
    var s := NormalizeSignals(raw);
    assert DistinctKeys(s);
    ScoreByName(s);
    ValueInRange(s, "momentum");
    ValueInRange(s, "trend");
    ValueInRange(s, "volatility");
    ValueInRange(s, "sentiment");
  }

  lemma {:induction false} ValueInRange(s: Signals, key: string)
    requires forall i :: 0 <= i < |s| ==> -1.0 <= s[i].1 <= 1.0
    ensures -1.0 <= ValueOf(s, key) <= 1.0
  {
    if s != [] && s[|s| - 1].0 != key {
      ValueInRange(s[..|s| - 1], key);
    }
  }

  /** `explain_decision`: for each signal in order, its name and its weighted
      contribution rounded to 4 places. */
  function Explain(s: Signals, py: Builtins): (r: Signals)
    ensures |r| == |s|
    ensures forall i :: 0 <= i < |s| ==> r[i].0 == s[i].0
    ensures forall i :: 0 <= i < |s| ==> r[i].1 == Contribution(s[i], py)
  {
    seq(|s|, i requires 0 <= i < |s| => (s[i].0, Contribution(s[i], py)))
  }

  /** A signal's weighted contribution, rounded to 4 places. */
  function Contribution(signal: (string, real), py: Builtins): real
  {
    py.round(signal.1 * Weight(signal.0), 4)
  }

  /** The dict `make_decision` returns; `score` is present only on the scored
      path and `reason` only on the gated one. */
  datatype Decision = Decision(
    decision: string,
    confidence: real,
    score: Option<real>,
    reason: Option<string>,
    signals: Signals,
    explanation: Signals)

  /** `make_decision`. */
  function MakeDecision(raw: Signals, py: Builtins): (d: Decision)
    ensures d.signals == NormalizeSignals(raw)
    ensures d.explanation == Explain(NormalizeSignals(raw), py)
    ensures !RiskCheck(NormalizeSignals(raw)) ==>
      d.decision == "HOLD" && d.confidence == 0.0 && d.score == None && d.reason == Some("High volatility regime")
    ensures RiskCheck(NormalizeSignals(raw)) ==>
      var score := Score(NormalizeSignals(raw));
      && d.reason == None
      && d.score == Some(py.round(score, 4))
      && d.confidence == py.round(Abs(score), 4)
      && (d.decision == "BUY" <==> score >= BUY_THRESHOLD)
      && (d.decision == "SELL" <==> score <= SELL_THRESHOLD)
      && (d.decision == "HOLD" <==> SELL_THRESHOLD < score < BUY_THRESHOLD)
  {
    var signals := NormalizeSignals(raw);
    if !RiskCheck(signals) then
      Decision("HOLD", 0.0, None, Some("High volatility regime"), signals, Explain(signals, py))
    else
      var score := Score(signals);
      var decision := if score >= BUY_THRESHOLD then "BUY" else if score <= SELL_THRESHOLD then "SELL" else "HOLD";
      var confidence := if score >= BUY_THRESHOLD then py.round(score, 4) else py.round(Abs(score), 4);
      Decision(decision, confidence, Some(py.round(score, 4)), None, signals, Explain(signals, py))
  }

  /** The volatility gate only depends on the volatility signal: two inputs
      that clamp to the same volatility above the limit get the same verdict
      and confidence, whatever their other signals. */
  lemma GateIgnoresOtherSignals(a: Signals, b: Signals, py: Builtins)
    requires ValueOf(NormalizeSignals(a), "volatility") > MAX_VOLATILITY
    requires ValueOf(NormalizeSignals(b), "volatility") > MAX_VOLATILITY
    ensures MakeDecision(a, py).decision == MakeDecision(b, py).decision == "HOLD"
    ensures MakeDecision(a, py).confidence == MakeDecision(b, py).confidence == 0.0
  {
  }

  /** Clamping first: a volatility reading above 1 still reads as at most 1
      after normalisation, and one in range passes through; so the gate trips
      exactly when the raw volatility exceeds 0.80. */
  lemma {:induction false} GateOnRawVolatility(raw: Signals)
    ensures RiskCheck(NormalizeSignals(raw)) <==> ValueOf(raw, "volatility") <= MAX_VOLATILITY
  {
    ValueOfNormalized(raw, "volatility");
  }

  lemma {:induction false} ValueOfNormalized(raw: Signals, key: string)
    ensures ValueOf(NormalizeSignals(raw), key) == Clamp(ValueOf(raw, key), -1.0, 1.0)
  {
    if raw != [] {
      var init := raw[..|raw| - 1];
      assert NormalizeSignals(raw)[..|raw| - 1] == NormalizeSignals(init);
      ValueOfNormalized(init, key);
    }
  }
}
