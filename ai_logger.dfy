/** The exchange's AI-log payload: the explanation is cut to the exchange's
    1000-character limit, missing parts become empty dicts, and a decision
    record's dict is mapped onto the payload's fields. */
module AiLogger {
  import opened PyValues
  import DecisionRecords

  const MAX_EXPLANATION: int := 1000

  /** Python's `s[:k]`: a negative `k` counts from the end. */
  function PrefixTo(s: string, k: int): (r: string)
    ensures 0 <= k <= |s| ==> r == s[..k]
    ensures k > |s| ==> r == s
    ensures k < 0 ==> r == s[..if |s| + k < 0 then 0 else |s| + k]
  {
    if k >= 0 then (if k <= |s| then s[..k] else s)
    else if |s| + k < 0 then []
    else s[..|s| + k]
  }

  /** `_truncate`: None becomes "", a text within the limit is kept, a longer
      one is cut and ends in "...". */
  function Truncate(text: Option<string>, maxLen: int): (r: string)
    ensures text.None? ==> r == ""
    ensures text.Some? && |text.value| <= maxLen ==> r == text.value
    ensures text.Some? && |text.value| > maxLen && maxLen >= 3 ==>
      |r| == maxLen && r == text.value[..maxLen - 3] + "..."
    ensures maxLen >= 3 ==> |r| <= maxLen
  {
    if text.None? then ""
    else if |text.value| <= maxLen then text.value
    else PrefixTo(text.value, maxLen - 3) + "..."
  }

  /** The `input` part of a payload. */
  datatype LogInput = LogInput(symbol: string, features: Value)

  /** The `output` part of a payload. */
  datatype LogOutput = LogOutput(signal: string, confidence: real, order: Value)

  datatype AiLogPayload = AiLogPayload(
    orderId: Option<int>,
    stage: string,
    model: Value,
    input: LogInput,
    output: LogOutput,
    explanation: string)

  /** `build_ai_log_payload`.  The model name is whatever value the caller
      passes; feature and order dicts that are None or empty become `{}`. */
  function BuildAiLogPayload(orderId: Option<int>, stage: string, model: Value, symbol: string, decision: string,
                             confidence: Value, features: Value, execution: Value, explanation: Option<string>,
                             py: Builtins): (p: AiLogPayload)
    ensures p.orderId.None? <==> orderId.None?
    ensures p.orderId == orderId
    ensures |p.explanation| <= MAX_EXPLANATION
    ensures explanation.Some? && |explanation.value| <= MAX_EXPLANATION ==> p.explanation == explanation.value
    ensures explanation.Some? && |explanation.value| > MAX_EXPLANATION ==>
      p.explanation == explanation.value[..MAX_EXPLANATION - 3] + "..."
    ensures explanation.None? ==> p.explanation == ""
    ensures !Truthy(features) ==> p.input.features == Dict(map[])
    ensures Truthy(features) ==> p.input.features == features
    ensures !Truthy(execution) ==> p.output.order == Dict(map[])
    ensures Truthy(execution) ==> p.output.order == execution
    ensures p.output.confidence == py.round(SafeFloat(confidence, py), 4)
    ensures p.stage == stage && p.model == model && p.input.symbol == symbol && p.output.signal == decision
  {
    AiLogPayload(
      orderId, stage, model,
      LogInput(symbol, Or(features, Dict(map[]))),
      LogOutput(decision, py.round(SafeFloat(confidence, py), 4), Or(execution, Dict(map[]))),
      Truncate(explanation, MAX_EXPLANATION))
  }

  /** The order side the bridge reports for a decision. */
  function SideOf(decision: string): (r: string)
    ensures decision == "BUY" ==> r == "BUY"
    ensures decision == "SELL" ==> r == "SELL"
    ensures decision != "BUY" && decision != "SELL" ==> r == "NONE"
  {
    if decision == "BUY" then "BUY" else if decision == "SELL" then "SELL" else "NONE"
  }

  /** The sentence appended for the risk outcome: the blocked sentence with the
      rejection reason when `approved` is False, the approved sentence when it
      is True, nothing otherwise (a missing key, None, or any other value). */
  function RiskSentence(record: map<string, Value>, py: Builtins): (r: string)
    ensures Get(record, "approved") == Bool(false) ==>
      r == "Trade blocked by risk engine: " + PyStr(Get(record, "rejection_reason"), py) + "."
    ensures Get(record, "approved") == Bool(true) ==> r == "Trade approved under risk constraints."
    ensures !Get(record, "approved").Bool? ==> r == ""
  {
    var approved := Get(record, "approved");
    if approved == Bool(false) then
      "Trade blocked by risk engine: " + PyStr(Get(record, "rejection_reason"), py) + "."
    else if approved == Bool(true) then "Trade approved under risk constraints."
    else ""
  }

  /** The features the bridge reports: what the model saw. */
  function FeaturesOf(record: map<string, Value>): Value
  {
    Dict(map[
      "timeframe" := Get(record, "timeframe"),
      "price" := Get(record, "price"),
      "signals" := Or(Get(record, "signals"), Dict(map[])),
      "decision_hash" := Get(record, "decision_hash")])
  }

  /** The execution details the bridge reports: what the bot tried to do. */
  function ExecutionOf(record: map<string, Value>, symbol: string, decision: string): Value
  {
    Dict(map[
      "symbol" := Str(symbol),
      "side" := Str(SideOf(decision)),
      "order_type" := Str("IOC"),
      "requested_position_size" := Get(record, "position_size"),
      "approved" := Get(record, "approved")])
  }

  function BaseExplanation(symbol: string, decision: string, confidence: real, py: Builtins): string
  {
    "OmniQuantAI generated a " + decision + " decision for " + symbol + " "
    + "based on regime-aware signals (momentum/trend/volatility). "
    + "Confidence=" + py.show(Num(py.round(confidence, 2))) + ". "
  }

  /** `build_ai_log_from_decision_record`: maps a decision record's dict onto
      the payload.  `float` of the record's confidence may raise. */
  function BuildAiLogFromDecisionRecord(orderId: Option<int>, record: map<string, Value>, stage: string, model: Value,
                                        py: Builtins): (r: Result<AiLogPayload>)
    ensures r.Raise? <==> Float(GetOr(record, "confidence", Num(0.0)), py).Raise?
    ensures r.Ok? ==>
      var symbol := PyStr(GetOr(record, "symbol", Str("")), py);
      var decision := PyStr(GetOr(record, "decision", Str("HOLD")), py);
      && r.value.orderId == orderId
      && r.value.stage == stage
      && r.value.input.symbol == symbol
      && r.value.output.signal == decision
      && r.value.output.confidence == py.round(Float(GetOr(record, "confidence", Num(0.0)), py).value, 4)
      && r.value.output.order == ExecutionOf(record, symbol, decision)
      && r.value.input.features == FeaturesOf(record)
      && r.value.model == Or(Get(record, "model_version"), model)
      && |r.value.explanation| <= MAX_EXPLANATION
    ensures r.Ok? ==>
      var symbol := PyStr(GetOr(record, "symbol", Str("")), py);
      var decision := PyStr(GetOr(record, "decision", Str("HOLD")), py);
      var full := BaseExplanation(symbol, decision, Float(GetOr(record, "confidence", Num(0.0)), py).value, py)
                  + RiskSentence(record, py);
      && (|full| <= MAX_EXPLANATION ==> r.value.explanation == full)
      && (|full| > MAX_EXPLANATION ==> r.value.explanation == full[..MAX_EXPLANATION - 3] + "...")
  {
    var symbol := PyStr(GetOr(record, "symbol", Str("")), py);
    var decision := PyStr(GetOr(record, "decision", Str("HOLD")), py);
    match Float(GetOr(record, "confidence", Num(0.0)), py)
    case Raise(e) => Raise(e)
    case Ok(confidence) =>
      var explanation := BaseExplanation(symbol, decision, confidence, py) + RiskSentence(record, py);
      Ok(BuildAiLogPayload(orderId, stage, Or(Get(record, "model_version"), model), symbol, decision,
                           Num(confidence), FeaturesOf(record), ExecutionOf(record, symbol, decision),
                           Some(explanation), py))
  }

  /** The bridge accepts every decision record's dict: it never raises, it
      reports the record's side and hash, and the model is the record's
      model version when it has a non-empty one. */
  lemma BridgeOnDecisionRecord(orderId: Option<int>, rec: DecisionRecords.DecisionRecord, stage: string, model: Value,
                               py: Builtins)
    ensures var r := BuildAiLogFromDecisionRecord(orderId, DecisionRecords.ToDict(rec), stage, model, py);
      && r.Ok?
      && r.value.output.confidence == py.round(rec.confidence, 4)
      && r.value.output.order.fields["side"] == Str(SideOf(rec.decision))
      && r.value.input.features.fields["decision_hash"] == DecisionRecords.OptStr(rec.decisionHash)
      && r.value.model == (if rec.modelVersion.Some? && rec.modelVersion.value != "" then Str(rec.modelVersion.value)
                           else model)
  {
    var d := DecisionRecords.ToDict(rec);
    assert d["confidence"] == Num(rec.confidence);
    assert d["decision"] == Str(rec.decision);
    assert d["model_version"] == DecisionRecords.OptStr(rec.modelVersion);
  }
}
