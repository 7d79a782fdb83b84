/** The decision record: the immutable, auditable form of one trading
    decision.  Its integrity hash is SHA-256 over the sorted-key JSON of the
    record with the hash field itself set to None; both SHA-256 and the JSON
    serialiser are left abstract. */
module DecisionRecords {
  import opened PyValues

  datatype DecisionRecord = DecisionRecord(
    decisionId: string,
    timestamp: string,
    symbol: string,
    timeframe: string,
    price: real,
    decision: string,
    confidence: real,
    positionSize: Option<real>,
    approved: Option<bool>,
    rejectionReason: Option<string>,
    signals: Option<map<string, real>>,
    modelVersion: Option<string>,
    decisionHash: Option<string>)

  /** The hashing primitives: `hashlib.sha256(s.encode()).hexdigest()` and
      `json.dumps(d, sort_keys=True)`. */
  datatype Hashing = Hashing(sha256: string -> string, dumpsSorted: map<string, Value> -> string)

  function OptNum(x: Option<real>): Value
  {
    if x.Some? then Num(x.value) else Null
  }

  function OptBool(x: Option<bool>): Value
  {
    if x.Some? then Bool(x.value) else Null
  }

  function OptStr(x: Option<string>): Value
  {
    if x.Some? then Str(x.value) else Null
  }

  function SignalsValue(m: map<string, real>): Value
  {
    Dict(map k | k in m :: Num(m[k]))
  }

  function OptSignals(x: Option<map<string, real>>): Value
  {
    if x.Some? then SignalsValue(x.value) else Null
  }

  const FIELD_NAMES: set<string> := {
    "decision_id", "timestamp", "symbol", "timeframe", "price", "decision", "confidence",
    "position_size", "approved", "rejection_reason", "signals", "model_version", "decision_hash"}

  /** `to_dict` (`asdict`): every field under its own name, the hash included. */
  function ToDict(r: DecisionRecord): (d: map<string, Value>)
    ensures d.Keys == FIELD_NAMES
    ensures d["decision_hash"] == OptStr(r.decisionHash)
  {
    map[
      "decision_id" := Str(r.decisionId),
      "timestamp" := Str(r.timestamp),
      "symbol" := Str(r.symbol),
      "timeframe" := Str(r.timeframe),
      "price" := Num(r.price),
      "decision" := Str(r.decision),
      "confidence" := Num(r.confidence),
      "position_size" := OptNum(r.positionSize),
      "approved" := OptBool(r.approved),
      "rejection_reason" := OptStr(r.rejectionReason),
      "signals" := OptSignals(r.signals),
      "model_version" := OptStr(r.modelVersion),
      "decision_hash" := OptStr(r.decisionHash)]
  }

  lemma SignalsValueInjective(a: map<string, real>, b: map<string, real>)
    requires SignalsValue(a) == SignalsValue(b)
    ensures a == b
  {
    var da := SignalsValue(a).fields;
    var db := SignalsValue(b).fields;
    assert a.Keys == da.Keys == db.Keys == b.Keys;
    forall k | k in a
      ensures a[k] == b[k]
    {
      assert da[k] == Num(a[k]) && db[k] == Num(b[k]);
    }
  }

  /** `to_dict` loses nothing: two records with the same dict are the same
      record. */
  lemma ToDictInjective(a: DecisionRecord, b: DecisionRecord)
    requires ToDict(a) == ToDict(b)
    ensures a == b
  {
    var da, db := ToDict(a), ToDict(b);
    assert da["price"] == Num(a.price) && db["price"] == Num(b.price);
    assert da["position_size"] == OptNum(a.positionSize) && db["position_size"] == OptNum(b.positionSize);
    assert da["approved"] == OptBool(a.approved) && db["approved"] == OptBool(b.approved);
    assert da["rejection_reason"] == OptStr(a.rejectionReason) && db["rejection_reason"] == OptStr(b.rejectionReason);
    assert da["model_version"] == OptStr(a.modelVersion) && db["model_version"] == OptStr(b.modelVersion);
    assert da["signals"] == OptSignals(a.signals) && db["signals"] == OptSignals(b.signals);
    if a.signals.Some? {
      SignalsValueInjective(a.signals.value, b.signals.value);
    }
    assert da["decision_id"] == Str(a.decisionId) && db["decision_id"] == Str(b.decisionId);
    assert da["timestamp"] == Str(a.timestamp) && db["timestamp"] == Str(b.timestamp);
    assert da["symbol"] == Str(a.symbol) && db["symbol"] == Str(b.symbol);
    assert da["timeframe"] == Str(a.timeframe) && db["timeframe"] == Str(b.timeframe);
    assert da["decision"] == Str(a.decision) && db["decision"] == Str(b.decision);
    assert da["confidence"] == Num(a.confidence) && db["confidence"] == Num(b.confidence);
  }

  /** The record's content: everything but its hash. */
  function Content(r: DecisionRecord): DecisionRecord
  {
    r.(decisionHash := None)
  }

  /** The digest `attach_hash` computes: over the record's dict with
      `decision_hash` set to None. */
  function HashOf(r: DecisionRecord, h: Hashing): string
  {
    h.sha256(h.dumpsSorted(ToDict(r)["decision_hash" := Null]))
  }

  /** `attach_hash`: the same record carrying the digest of its content. */
  function AttachHash(r: DecisionRecord, h: Hashing): (s: DecisionRecord)
    ensures Content(s) == Content(r)
    ensures s.decisionHash == Some(HashOf(r, h))
  {
    r.(decisionHash := Some(HashOf(r, h)))
  }

  /** The hash ignores whatever hash the record already carried. */
  lemma HashIgnoresOldHash(r: DecisionRecord, previous: Option<string>, h: Hashing)
    ensures AttachHash(r.(decisionHash := previous), h) == AttachHash(r, h)
  {
    assert ToDict(r.(decisionHash := previous))["decision_hash" := Null] == ToDict(r)["decision_hash" := Null];
  }

  /** Re-hashing a hashed record changes nothing. */
  lemma AttachHashIdempotent(r: DecisionRecord, h: Hashing)
    ensures AttachHash(AttachHash(r, h), h) == AttachHash(r, h)
  {
    HashIgnoresOldHash(r, AttachHash(r, h).decisionHash, h);
  }

  /** Hashing is deterministic: equal content gives an equal hash. */
  lemma HashDeterministic(a: DecisionRecord, b: DecisionRecord, h: Hashing)
    requires Content(a) == Content(b)
    ensures AttachHash(a, h).decisionHash == AttachHash(b, h).decisionHash
  {
    HashIgnoresOldHash(Content(a), a.decisionHash, h);
    HashIgnoresOldHash(Content(b), b.decisionHash, h);
  }

  /** With an injective serialiser and digest, the hash tells records with
      different content apart. */
  lemma HashSeparatesContent(a: DecisionRecord, b: DecisionRecord, h: Hashing)
    requires forall x, y :: h.sha256(x) == h.sha256(y) ==> x == y
    requires forall x, y :: h.dumpsSorted(x) == h.dumpsSorted(y) ==> x == y
    requires Content(a) != Content(b)
    ensures AttachHash(a, h).decisionHash != AttachHash(b, h).decisionHash
  {
    if AttachHash(a, h).decisionHash == AttachHash(b, h).decisionHash {
      var da := ToDict(a)["decision_hash" := Null];
      var db := ToDict(b)["decision_hash" := Null];
      assert da == db;
      assert ToDict(Content(a)) == da;
      assert ToDict(Content(b)) == db;
      ToDictInjective(Content(a), Content(b));
      assert false;
    }
  }

  /** `create_decision_record`: a fresh record with no risk outcome yet, its
      confidence rounded to 4 places, its id the digest of
      "symbol:timeframe:timestamp", and its hash attached.  The clock reading
      is the `timestamp` parameter. */
  function CreateDecisionRecord(symbol: string, timeframe: string, price: real, decision: string, confidence: real,
                                signals: Option<map<string, real>>, modelVersion: Option<string>, timestamp: string,
                                h: Hashing, py: Builtins): (r: DecisionRecord)
    ensures r.decisionId == h.sha256(symbol + ":" + timeframe + ":" + timestamp)
    ensures r.timestamp == timestamp && r.symbol == symbol && r.timeframe == timeframe
    ensures r.price == price && r.decision == decision && r.confidence == py.round(confidence, 4)
    ensures r.positionSize.None? && r.approved.None? && r.rejectionReason.None?
    ensures r.signals == signals && r.modelVersion == modelVersion
    ensures r == AttachHash(r, h)
  {
    var record := DecisionRecord(
      h.sha256(symbol + ":" + timeframe + ":" + timestamp), timestamp, symbol, timeframe, price, decision,
      py.round(confidence, 4), None, None, None, signals, modelVersion, None);
    AttachHashIdempotent(record, h);
    AttachHash(record, h)
  }

  /** `attach_risk_outcome`: the risk engine's verdict replaces the three risk
      fields, nothing else changes apart from the re-computed hash. */
  function AttachRiskOutcome(r: DecisionRecord, approved: bool, positionSize: Option<real>,
                             rejectionReason: Option<string>, h: Hashing): (s: DecisionRecord)
    ensures s.approved == Some(approved) && s.positionSize == positionSize && s.rejectionReason == rejectionReason
    ensures Content(s) == Content(r).(approved := Some(approved), positionSize := positionSize,
                                      rejectionReason := rejectionReason)
    ensures s == AttachHash(s, h)
  {
    var updated := r.(approved := Some(approved), positionSize := positionSize, rejectionReason := rejectionReason);
    AttachHashIdempotent(updated, h);
    AttachHash(updated, h)
  }
}
