/** The position manager: the persisted, restart-safe view of the one position
    for a symbol.  Local writes record an open or a close, reconciliation adopts
    what the exchange reports, and every change is written to a keyed state
    document.  The document store is a field holding what the state file
    contains. */
module Positions {
  import opened PyValues
  import opened PositionReply

  datatype PositionState = PositionState(
    symbol: string,
    side: string,
    size: real,
    entryPrice: real,
    openedAtMs: int,
    lastUpdateMs: int,
    lastOrderId: Option<int>,
    lastCloseOrderId: Option<int>)

  /** What the state file holds: nothing yet, text that is not JSON, or a document. */
  datatype StateFile = Missing | Corrupt | Stored(doc: Value)

  function IdValue(id: Option<int>): Value
  {
    match id
    case None => Null
    case Some(n) => Num(n as real)
  }

  /** `asdict(position)`. */
  function PositionDoc(p: PositionState): Value
  {
    Dict(map[
      "symbol" := Str(p.symbol),
      "side" := Str(p.side),
      "size" := Num(p.size),
      "entry_price" := Num(p.entryPrice),
      "opened_at_ms" := Num(p.openedAtMs as real),
      "last_update_ms" := Num(p.lastUpdateMs as real),
      "last_order_id" := IdValue(p.lastOrderId),
      "last_close_order_id" := IdValue(p.lastCloseOrderId)])
  }

  /** The document `save` writes. */
  function SavedDocument(symbol: string, position: Option<PositionState>, savedAtMs: int): Value
  {
    Dict(map[
      "saved_at_ms" := Num(savedAtMs as real),
      "symbol" := Str(symbol),
      "position" := if position.Some? then PositionDoc(position.value) else Null])
  }

  /** A stored order id: None, or an integral number. */
  function IdOf(v: Value): Result<Option<int>>
  {
    if v.Null? then Ok(None)
    else if v.Num? && v.x == v.x.Floor as real then Ok(Some(v.x.Floor))
    else Raise("TypeError")
  }

  function Field(p: map<string, Value>, key: string): Result<Value>
  {
    if key in p then Ok(p[key]) else Raise("KeyError")
  }

  function Text(v: Result<Value>): Result<string>
  {
    if v.Ok? && v.value.Str? then Ok(v.value.s) else Raise("TypeError")
  }

  function AsFloat(v: Result<Value>, py: Builtins): Result<real>
  {
    if v.Raise? then Raise(v.error) else Float(v.value, py)
  }

  function AsInt(v: Result<Value>, py: Builtins): Result<int>
  {
    if v.Raise? then Raise(v.error) else ToInt(v.value, py)
  }

  /** The `PositionState(...)` that `load` rebuilds from the stored record `p`,
      or the exception that building it raises. */
  function ParseRecord(p: Value, py: Builtins): Result<PositionState>
  {
    if !p.Dict? then Raise("TypeError")
    else
      var f := p.fields;
      var symbol := Text(Field(f, "symbol"));
      var side := Text(Field(f, "side"));
      var size := AsFloat(Field(f, "size"), py);
      var entry := AsFloat(Field(f, "entry_price"), py);
      var openedAt := AsInt(Field(f, "opened_at_ms"), py);
      var updated := AsInt(Field(f, "last_update_ms"), py);
      var orderId := IdOf(Get(f, "last_order_id"));
      var closeId := IdOf(Get(f, "last_close_order_id"));
      if symbol.Raise? || side.Raise? || size.Raise? || entry.Raise? || openedAt.Raise? || updated.Raise?
         || orderId.Raise? || closeId.Raise?
      then Raise("ValueError")
      else Ok(PositionState(symbol.value, side.value, size.value, entry.value, openedAt.value, updated.value,
                            orderId.value, closeId.value))
  }

  /** The position `load` reads from a parsed document; any exception while
      reading it counts as a corrupted file and yields None. */
  function LoadedPosition(raw: Value, py: Builtins): (r: Option<PositionState>)
    ensures !raw.Dict? ==> r == None
    ensures raw.Dict? && !Truthy(Get(raw.fields, "position")) ==> r == None
  {
    if !raw.Dict? then None
    else
      var p := Get(raw.fields, "position");
      if !Truthy(p) then None
      else match ParseRecord(p, py)
        case Ok(s) => Some(s)
        case Raise(_) => None
  }

  /** The position after `load`: a missing file changes nothing, a corrupted one
      clears the position, a readable one replaces it. */
  function AfterLoad(current: Option<PositionState>, file: StateFile, py: Builtins): (r: Option<PositionState>)
    ensures file == Missing ==> r == current
    ensures file == Corrupt ==> r == None
  {
    match file
    case Missing => current
    case Corrupt => None
    case Stored(doc) => LoadedPosition(doc, py)
  }

  /** Persistence round-trip: loading what `save` wrote gives back every field
      of the position, or None when there was none. */
  lemma {:induction false} LoadAfterSave(symbol: string, position: Option<PositionState>, savedAtMs: int, py: Builtins)
    ensures LoadedPosition(SavedDocument(symbol, position, savedAtMs), py) == position
  {
    var raw := SavedDocument(symbol, position, savedAtMs);
    assert Get(raw.fields, "position") == if position.Some? then PositionDoc(position.value) else Null;
    if position.Some? {
      var p := position.value;
      var f := PositionDoc(p).fields;
      assert "symbol" in f;
      assert Truthy(PositionDoc(p));
      assert Trunc(p.openedAtMs as real) == p.openedAtMs;
      assert Trunc(p.lastUpdateMs as real) == p.lastUpdateMs;
      assert IdOf(IdValue(p.lastOrderId)) == Ok(p.lastOrderId);
      assert IdOf(IdValue(p.lastCloseOrderId)) == Ok(p.lastCloseOrderId);
      assert ParseRecord(PositionDoc(p), py) == Ok(p);
    }
  }

  /** The position `sync_from_exchange` leaves behind for a reply that does not
      raise.  An empty or zero-size reply clears it; a reply that is neither a
      list nor a dict keeps it; a live reply adopts the exchange's side, size and
      entry price and keeps the local opening time and order ids. */
  function Synced(symbol: string, current: Option<PositionState>, data: Value, nowMs: int, py: Builtins): (r: Option<PositionState>)
    ensures Classify(data, py) == Absent || Classify(data, py) == Flat ==> r == None
    ensures Classify(data, py) == Unrecognised ==> r == current
    ensures Classify(data, py).Live? ==>
      var report := Classify(data, py);
      && r.Some? && r.value.symbol == symbol
      && r.value.side == SideName(report.side) && r.value.size == report.size && r.value.entryPrice == report.entryPrice
      && r.value.lastUpdateMs == nowMs
      && r.value.openedAtMs == (if current.Some? then current.value.openedAtMs else nowMs)
      && r.value.lastOrderId == (if current.Some? then current.value.lastOrderId else None)
      && r.value.lastCloseOrderId == (if current.Some? then current.value.lastCloseOrderId else None)
  {
    match Classify(data, py)
    case Absent => None
    case Flat => None
    case Unrecognised => current
    case NotARecord => current
    case Live(side, size, entry) =>
      Some(PositionState(
        symbol, SideName(side), size, entry,
        if current.Some? then current.value.openedAtMs else nowMs,
        nowMs,
        if current.Some? then current.value.lastOrderId else None,
        if current.Some? then current.value.lastCloseOrderId else None))
  }

  /** Whether `sync_from_exchange` writes the state file for this reply: clearing
      writes only when there was something to clear. */
  predicate SyncWrites(current: Option<PositionState>, data: Value, py: Builtins)
  {
    match Classify(data, py)
    case Absent => current.Some?
    case Flat => current.Some?
    case Unrecognised => false
    case NotARecord => false
    case Live(_, _, _) => true
  }

  /** Two positions equal in everything but their last-update stamp. */
  predicate SameApartFromUpdate(a: Option<PositionState>, b: Option<PositionState>)
  {
    (a.None? && b.None?) ||
    (a.Some? && b.Some? && a.value.(lastUpdateMs := b.value.lastUpdateMs) == b.value)
  }

  /** Reconciliation converges: syncing a second time with the same reply
      changes nothing but the last-update stamp (in particular it does not
      reset the opening time). */
  lemma SyncConverges(symbol: string, current: Option<PositionState>, data: Value, t1: int, t2: int, py: Builtins)
    ensures var once := Synced(symbol, current, data, t1, py);
      SameApartFromUpdate(once, Synced(symbol, once, data, t2, py))
  {
  }

  class PositionManager {
    const symbol: string
    const py: Builtins
    var position: Option<PositionState>
    var file: StateFile

    /** A manager for `symbol` whose state file currently holds `file`; it
        loads the file on construction. */
    constructor (symbol: string, py: Builtins, file: StateFile)
      ensures this.symbol == symbol && this.py == py && this.file == file
      ensures position == AfterLoad(None, file, py)
    {
      this.symbol := symbol;
      this.py := py;
      this.file := file;
      position := None;
      new;
      Load();
    }

    /** `save`: writes the current position (or None) under the symbol. */
    method Save(nowMs: int)
      modifies this`file
      ensures file == Stored(SavedDocument(symbol, position, nowMs))
    {
      file := Stored(SavedDocument(symbol, position, nowMs));
    }

    /** `load`. */
    method Load()
      modifies this`position
      ensures position == AfterLoad(old(position), file, py)
    {
      match file
      case Missing =>
      case Corrupt =>
        position := None;
      case Stored(raw) =>
        if !raw.Dict? {
          position := None;
          return;
        }
        var p := Get(raw.fields, "position");
        if !Truthy(p) {
          position := None;
          return;
        }
        var parsed := ParseRecord(p, py);
        position := if parsed.Ok? then Some(parsed.value) else None;
    }

    predicate HasPosition()
      reads this
      ensures HasPosition() <==> position.Some? && position.value.size > 0.0
    {
      position.Some? && position.value.size > 0.0
    }

    function GetSide(): (r: Option<string>)
      reads this
      ensures r.None? <==> position.None?
      ensures r.Some? ==> r.value == position.value.side
    {
      if position.Some? then Some(position.value.side) else None
    }

    function GetSize(): (r: real)
      reads this
      ensures position.None? ==> r == 0.0
      ensures HasPosition() ==> r > 0.0
      ensures position.Some? ==> r == position.value.size
    {
      if position.Some? then position.value.size else 0.0
    }

    function GetEntryPrice(): (r: real)
      reads this
      ensures position.None? ==> r == 0.0
      ensures position.Some? ==> r == position.value.entryPrice
    {
      if position.Some? then position.value.entryPrice else 0.0
    }

    function GetAgeSeconds(nowMs: int): (r: real)
      reads this
      ensures position.None? ==> r == 0.0
      ensures position.Some? ==> r * 1000.0 == (nowMs - position.value.openedAtMs) as real
    {
      if position.Some? then (nowMs - position.value.openedAtMs) as real / 1000.0 else 0.0
    }

    /** `summary`: the symbol and, for a held position, what the getters
        report about it (the age rounded to 2 places) and its order ids. */
    function Summary(nowMs: int): (r: Value)
      reads this
      ensures r.Dict? && r.fields.Keys == {"symbol", "position"} && r.fields["symbol"] == Str(symbol)
      ensures r.fields["position"] == Null <==> position.None?
      ensures position.Some? ==>
        && r.fields["position"].Dict?
        && var f := r.fields["position"].fields;
        && f.Keys == {"side", "size", "entry_price", "age_seconds", "last_order_id", "last_close_order_id"}
        && f["side"] == Str(position.value.side) && GetSide() == Some(position.value.side)
        && f["size"] == Num(GetSize())
        && f["entry_price"] == Num(GetEntryPrice())
        && f["age_seconds"] == Num(py.round(GetAgeSeconds(nowMs), 2))
        && f["last_order_id"] == IdValue(position.value.lastOrderId)
        && f["last_close_order_id"] == IdValue(position.value.lastCloseOrderId)
    {
      if position.None? then Dict(map["symbol" := Str(symbol), "position" := Null])
      else
        var p := position.value;
        Dict(map[
          "symbol" := Str(symbol),
          "position" := Dict(map[
            "side" := Str(p.side),
            "size" := Num(p.size),
            "entry_price" := Num(p.entryPrice),
            "age_seconds" := Num(py.round((nowMs - p.openedAtMs) as real / 1000.0, 2)),
            "last_order_id" := IdValue(p.lastOrderId),
            "last_close_order_id" := IdValue(p.lastCloseOrderId)])])
    }

    /** `set_open`: records a freshly opened position and saves it. */
    method SetOpen(side: string, size: real, entryPrice: real, orderId: Option<int>, nowMs: int)
      modifies this`position, this`file
      ensures position == Some(PositionState(symbol, side, size, entryPrice, nowMs, nowMs, orderId, None))
      ensures file == Stored(SavedDocument(symbol, position, nowMs))
    {
      position := Some(PositionState(symbol, side, size, entryPrice, nowMs, nowMs, orderId, None));
      Save(nowMs);
    }

    /** `set_closed`: forgets the position and saves. */
    method SetClosed(closeOrderId: Option<int>, nowMs: int)
      modifies this`position, this`file
      ensures position == None
      ensures file == Stored(SavedDocument(symbol, None, nowMs))
    {
      if position.Some? {
        position := Some(position.value.(lastCloseOrderId := closeOrderId));
      }
      position := None;
      Save(nowMs);
    }

    /** `touch`: refreshes the last-update stamp of a held position only. */
    method Touch(nowMs: int)
      modifies this`position, this`file
      ensures old(position).None? ==> position == None && file == old(file)
      ensures old(position).Some? ==>
        position == Some(old(position).value.(lastUpdateMs := nowMs)) &&
        file == Stored(SavedDocument(symbol, position, nowMs))
    {
      if position.Some? {
        position := Some(position.value.(lastUpdateMs := nowMs));
        Save(nowMs);
      }
    }

    /** `sync_from_exchange`: reconciles with the exchange's reply and saves
        whenever the position changed. */
    method SyncFromExchange(data: Value, nowMs: int) returns (r: Result<Option<PositionState>>)
      modifies this`position, this`file
      ensures r.Raise? <==> Classify(data, py) == NotARecord
      ensures r.Raise? ==> position == old(position) && file == old(file)
      ensures r.Ok? ==> position == Synced(symbol, old(position), data, nowMs, py) && r.value == position
      ensures r.Ok? ==>
        file == if SyncWrites(old(position), data, py) then Stored(SavedDocument(symbol, position, nowMs)) else old(file)
    {
      if !Truthy(data) {
        if position.Some? {
          position := None;
          Save(nowMs);
        }
        return Ok(None);
      }
      var pos: Value;
      if data.List? && |data.items| > 0 {
        pos := data.items[0];
      } else if data.Dict? {
        pos := data;
      } else {
        return Ok(position);
      }
      if !pos.Dict? {
        return Raise("AttributeError");
      }
      var size := ReportedSize(pos.fields, py);
      if size == 0.0 {
        if position.Some? {
          position := None;
          Save(nowMs);
        }
        return Ok(None);
      }
      var side := ReportedSide(pos.fields);
      var entryPrice := ReportedEntryPrice(pos.fields, py);
      var openedAt := if position.Some? then position.value.openedAtMs else nowMs;
      position := Some(PositionState(
        symbol, SideName(side), size, entryPrice, openedAt, nowMs,
        if position.Some? then position.value.lastOrderId else None,
        if position.Some? then position.value.lastCloseOrderId else None));
      Save(nowMs);
      return Ok(position);
    }
  }
}
