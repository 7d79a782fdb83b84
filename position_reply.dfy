/** How the bot reads the exchange's single-position reply.  The same parsing
    appears in the execution engine's `fetch_position` and in the position
    manager's `sync_from_exchange`; the two differ only in what they do with
    each kind of reply. */
module PositionReply {
  import opened PyValues

  datatype Side = Long | Short

  function SideName(side: Side): string
  {
    match side
    case Long => "LONG"
    case Short => "SHORT"
  }

  /** The side of an upper-cased side text: LONG and SHORT stay, BUY and SELL
      are translated, and anything else is taken as LONG. */
  function NormaliseSide(text: string): (r: Side)
    ensures r == Short <==> text == "SHORT" || text == "SELL"
    ensures r == Long <==> text != "SHORT" && text != "SELL"
  {
    if text == "LONG" || text == "SHORT" then
      (if text == "LONG" then Long else Short)
    else if text == "BUY" then Long
    else if text == "SELL" then Short
    else Long
  }

  /** `str(pos.get("positionSide") or pos.get("side") or "").upper()`, normalised.
      A value that is not a str prints as something that is none of the four
      side words ("None", "1.0", "True", "[...]"), so it reads as LONG. */
  function ReportedSide(pos: map<string, Value>): (r: Side)
    ensures var v := Or(Or(Get(pos, "positionSide"), Get(pos, "side")), Str(""));
      r == Short <==> v.Str? && (Upper(v.s) == "SHORT" || Upper(v.s) == "SELL")
  {
    var v := Or(Or(Get(pos, "positionSide"), Get(pos, "side")), Str(""));
    if v.Str? then NormaliseSide(Upper(v.s)) else Long
  }

  /** `_safe_float(pos.get("positionAmt") or pos.get("size") or 0.0)`. */
  function ReportedSize(pos: map<string, Value>, py: Builtins): real
  {
    SafeFloat(Or(Or(Get(pos, "positionAmt"), Get(pos, "size")), Num(0.0)), py)
  }

  /** `_safe_float(pos.get("avgPrice") or pos.get("entryPrice") or 0.0)`. */
  function ReportedEntryPrice(pos: map<string, Value>, py: Builtins): real
  {
    SafeFloat(Or(Or(Get(pos, "avgPrice"), Get(pos, "entryPrice")), Num(0.0)), py)
  }

  /** What a single-position reply says. */
  datatype Report =
    | Absent          // a falsy reply: no position
    | Unrecognised    // truthy, but neither a list nor a dict
    | NotARecord      // a list whose first element is not a dict: `pos.get` raises AttributeError
    | Flat            // a record whose parsed size is 0
    | Live(side: Side, size: real, entryPrice: real)

  function RecordReport(pos: Value, py: Builtins): Report
  {
    if !pos.Dict? then NotARecord
    else
      var size := ReportedSize(pos.fields, py);
      if size == 0.0 then Flat
      else Live(ReportedSide(pos.fields), size, ReportedEntryPrice(pos.fields, py))
  }

  /** Classifies a reply: a non-empty list is read through its first element,
      a dict directly. */
  function Classify(data: Value, py: Builtins): (r: Report)
    ensures r == Absent <==> !Truthy(data)
    ensures r == Unrecognised <==> Truthy(data) && !data.List? && !data.Dict?
    ensures r == NotARecord <==> Truthy(data) && data.List? && !data.items[0].Dict?
    ensures data.Dict? && Truthy(data) ==> r == RecordReport(data, py)
    ensures data.List? && Truthy(data) ==> r == RecordReport(data.items[0], py)
    ensures r.Live? ==> r.size != 0.0
  {
    if !Truthy(data) then Absent
    else if data.List? then RecordReport(data.items[0], py)
    else if data.Dict? then RecordReport(data, py)
    else Unrecognised
  }
}
