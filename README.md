# OmniQuantAI trading core, modelled in Dafny

OmniQuantAI is a trading bot for WEEX perpetual futures. Each tick it:

- reads the market;
- scores a set of regime signals into BUY, SELL or HOLD;
- passes the decision through a risk gate;
- manages a single position per symbol: it opens it on an entry signal and closes it on take-profit, stop-loss, a time limit or a regime flip;
- writes an audit log for the exchange.

This project models that decision-to-position path and proves what each step promises. It has one Dafny module per source file, plus three shared modules:

| module | file | models |
|---|---|---|
| `PyValues` | pyvalues.dfy | Python's loosely typed values: truthiness, `dict.get`, `or`, `float()`/`int()` (which may raise), `str.upper` |
| `Numeric` | numeric.dfy | the `clamp` that the decision engine and the risk engine each define identically |
| `PositionReply` | position_reply.dfy | how the exchange's single-position reply is read; the execution engine and the position manager share this parsing |
| `Execution` | execution_engine.dfy | `weex/execution_engine.py`: the engine is a class with a position slot and a ghost log of the orders it sent |
| `Positions` | position_manager.dfy | `weex/position_manager.py`: the manager is a class whose state file is a field |
| `DecisionEngine` | decision_engine.dfy | `core/decision_engine.py` |
| `RiskEngine` | risk_engine.dfy | `core/risk_engine.py`: the module-level `risk_state` dict becomes the `RiskState` class |
| `DecisionRecords` | decision_record.dfy | `core/decision_record.py` |
| `AiLogger` | ai_logger.dfy | `logging/ai_logger.py` |
| `ConfigLoader` | config_loader.dfy | `config/config_loader.py` |
| `Client` | client.dfy | `weex/client.py`, up to the HTTP call |
| `Runner` | runner.dfy | `run.py`'s loop bookkeeping |

Everything outside the program is an explicit parameter:

- **The clock:** `nowMs`, `timestampMs`, `timestamp`.
- **The exchange:** an oracle `nat -> Attempt`. For each order attempt it says the clock reading, whether `place_order` returned (and what) or raised, whether the audit-log upload raised, and what the position refresh sees.
- **Python built-ins the model does not define:** a `Builtins` value with fields for `round`, `str`, `json.dumps`, and string-to-number parsing.
- **SHA-256 and sorted-key JSON:** a `Hashing` value.

Prices and sizes are `real`.

The weights and thresholds follow the code: weights 0.35/0.30/-0.20/0.15 and thresholds ±0.30 (core/decision_engine.py:20-28).

## Model

| member | source | states |
|---|---|---|
| PyValues.Or | weex/execution_engine.py:129 | `a or b` is truthy iff either operand is; a truthy first operand is the result |
| PyValues.Float | weex/execution_engine.py:73-77 | `float(v)` is the number itself for a number; it raises exactly for None, containers and unparsable strings |
| PyValues.SafeFloat | weex/execution_engine.py:73-77 | `_safe_float` is `float(v)` when that does not raise, else 0.0 |
| PyValues.Trunc | weex/execution_engine.py:221 | `int(x)` of a float truncates toward zero: the result is within 1 of `x`, on the zero side |
| PyValues.ToInt | weex/execution_engine.py:221 | `int(v)` truncates a number; it raises exactly for None, containers and unparsable strings |
| PyValues.Upper | weex/execution_engine.py:133 | an ASCII-only model of `upper()`: it keeps the length, maps each of `a`-`z` to its capital and leaves every other character as it is |
| PyValues.UpperIdempotent | weex/client.py:111 | upper-casing an upper-cased method name changes nothing |
| Numeric.Clamp | core/decision_engine.py:36-38 | the result lies in [lo, hi] when lo ≤ hi; values in range are kept; values below go to lo and above to hi; inverted bounds give lo (the same holds for core/risk_engine.py:40-41) |
| PositionReply.NormaliseSide | weex/execution_engine.py:134-141 | the side is SHORT iff the text is SHORT or SELL, and LONG in every other case (LONG, BUY, anything else) |
| PositionReply.ReportedSide | weex/execution_engine.py:133-141 | the reported side is SHORT iff `positionSide` (else `side`) is a string that upper-cases to SHORT or SELL |
| PositionReply.Classify | weex/execution_engine.py:118-131 | a reply is absent iff falsy; unrecognised iff truthy and neither a list nor a dict; not a record iff its first list element is not a dict; otherwise a dict or the list's first element is read as the record; a live report has non-zero size |
| Execution.PctChange | weex/execution_engine.py:80-83 | the change is 0 for an unknown (zero) entry, else the relative move: `current == entry * (1 + r)` |
| Execution.OpenType | weex/execution_engine.py:163-174 | BUY gives "1" and SELL gives "2", each exactly; every other direction raises |
| Execution.CloseType | weex/execution_engine.py:176-187 | LONG gives "3" and SHORT gives "4", each exactly; every other side raises |
| Execution.CloseCode | weex/execution_engine.py:286 | the close code of a held side is what `_close_type` returns for it, so it never raises |
| Execution.OrderIdOf | weex/execution_engine.py:221 | the order id is None iff the response is falsy or has no truthy `order_id`; otherwise it is `int(order_id)`, which raises exactly when that conversion raises or the response is not a dict |
| Execution.Adopted | weex/execution_engine.py:143-156 | a reconciled position has the configured symbol and the exchange's side, size and entry price; it keeps the previous opening time if there was a position, else now; its update time is now |
| Execution.AfterFetch | weex/execution_engine.py:118-157 | an absent, unrecognised or zero-size reply leaves the cached position as it was; a live reply replaces it with a non-zero position under the configured symbol that keeps the earlier opening time |
| Execution.SidedPnl | weex/execution_engine.py:352-356 | a long's pnl is the price change and a short's is its negation |
| Execution.ShouldExit | weex/execution_engine.py:342-378 | no position gives no_position and an entry ≤ 0 gives unknown_entry_price, neither exiting; otherwise the first rule that holds wins, in the order take-profit, stop-loss, time-stop, regime flip (only when enabled: a long against DOWNTREND/CHOP, a short against UPTREND/CHOP), else hold; the engine exits iff the reason is an exit reason |
| Execution.TakeProfitWinsOverTimeStop | weex/execution_engine.py:358-368 | under the default config, a long up 0.26% exits for take-profit even after its maximum hold time |
| Execution.ExecutionEngine.constructor | weex/execution_engine.py:98-101 | a new engine holds no position and has sent no orders |
| Execution.ExecutionEngine.FetchPosition | weex/execution_engine.py:107-157 | the new position is `AfterFetch` of the old one; the call raises AttributeError iff the reply's record is not a dict; non-live replies return None; a live reply returns the new position |
| Execution.ExecutionEngine.OpenPosition | weex/execution_engine.py:208-254 | at most `max_open_retries` attempts; success only on an attempt that ran to completion, and every earlier attempt failed; on success the position is refreshed from that attempt's reply, on failure it is unchanged and the budget is spent; each attempt sends exactly one order with the direction's open code (none for a bad direction); the order id is the last one assigned |
| Execution.ExecutionEngine.ClosePosition | weex/execution_engine.py:273-326 | with no position it fails with None and sends nothing; otherwise at most `max_close_retries` orders with the configured size and the held side's close code; success clears the position, failure leaves it and spends the budget; the id is the last one assigned |
| Execution.ExecutionEngine.Manage | weex/execution_engine.py:398-426 | after the refresh it closes or holds iff a position is held, and closes only when `should_exit` says so, for its reason; it returns NO_TRADE iff flat and the decision is not BUY/SELL, and opens only on BUY/SELL; every order sent while holding is the held side's close code, and every order sent while flat is an open code; hold and no-trade send nothing; after a close the cache is empty iff the close succeeded and is otherwise the refreshed one; after an open that failed the cache is the refreshed one, and after one that succeeded it is the refreshed one reconciled with the completing attempt's position reply; for both, the returned order id is the last one an attempt assigned, success means the last attempt made ran to completion and no earlier one did, and failure means the whole retry budget was spent without one completing |
| Positions.LoadedPosition | weex/position_manager.py:107-129 | a document that is not a dict, or has a falsy `position`, loads as None |
| Positions.AfterLoad | weex/position_manager.py:103-129 | a missing file leaves the position unchanged; a corrupted one loads as None |
| Positions.LoadAfterSave | weex/position_manager.py:91-129 | loading what `save` wrote gives back every field of the position, or None when there was none |
| Positions.Synced | weex/position_manager.py:190-255 | an empty or zero-size reply clears the position; a reply that is neither a list nor a dict keeps it; a live reply adopts the normalised side, size and entry price under the manager's symbol, stamped now, keeping the earlier opening time and both order ids |
| Positions.SyncConverges | weex/position_manager.py:240-252 | syncing a second time with the same reply changes nothing but the last-update stamp |
| Positions.PositionManager.constructor | weex/position_manager.py:73-85 | a new manager has the position that loading its state file gives |
| Positions.PositionManager.Save | weex/position_manager.py:91-101 | the state file holds the saved-at time, the symbol and the position's document (or None) |
| Positions.PositionManager.Load | weex/position_manager.py:103-129 | the new position is `AfterLoad` of the old one and the file |
| Positions.PositionManager.HasPosition | weex/position_manager.py:135-136 | true iff a position is held and its size is positive |
| Positions.PositionManager.GetSide | weex/position_manager.py:138-139 | None iff there is no position, else the held side |
| Positions.PositionManager.GetSize | weex/position_manager.py:141-142 | 0.0 without a position, else the held size, which is positive whenever `has_position` holds |
| Positions.PositionManager.GetEntryPrice | weex/position_manager.py:144-145 | 0.0 without a position, else the held entry price |
| Positions.PositionManager.GetAgeSeconds | weex/position_manager.py:147-148 | 0.0 without a position, else the time since opening in seconds |
| Positions.PositionManager.Summary | weex/position_manager.py:261-275 | the symbol, plus None or the held position; the position's side, size, entry price and age agree with the getters, and its order ids are copied |
| Positions.PositionManager.SetOpen | weex/position_manager.py:154-172 | the position has the given side, size, entry price and order id, opened and updated now, with no close id; it is saved |
| Positions.PositionManager.SetClosed | weex/position_manager.py:174-178 | the position is always None afterwards, and the state file says so |
| Positions.PositionManager.Touch | weex/position_manager.py:180-184 | a held position changes only its last-update stamp and is saved; without one, nothing changes |
| Positions.PositionManager.SyncFromExchange | weex/position_manager.py:190-255 | the call raises iff the reply's record is not a dict, and then changes nothing; otherwise the new position is `Synced` of the old one and is returned, and the file is rewritten exactly when the position was cleared from a held one or adopted |
| DecisionEngine.ValueOf | core/decision_engine.py:54 | `signals.get(key, 0)` is 0 for a missing key |
| DecisionEngine.ValueOfStored | core/decision_engine.py:54 | in a dict, the lookup finds the value stored under the key |
| DecisionEngine.NormalizeSignals | core/decision_engine.py:41-43 | the same keys in the same order; every value lies in [-1, 1]; in-range values are kept and others go to the nearer bound |
| DecisionEngine.ValueOfNormalized | core/decision_engine.py:41-43 | looking a key up after normalisation is clamping the raw value |
| DecisionEngine.GateOnRawVolatility | core/decision_engine.py:50-56 | the volatility gate trips exactly when the raw volatility (0 when absent) exceeds 0.80 |
| DecisionEngine.ComputeScore | core/decision_engine.py:63-70 | the accumulator loop computes the weighted sum over the signals in order |
| DecisionEngine.ScoreByName | core/decision_engine.py:63-70 | for a dict, the score is 0.35·momentum + 0.30·trend − 0.20·volatility + 0.15·sentiment; unknown names add nothing and missing ones count as 0 |
| DecisionEngine.ScoreBound | core/decision_engine.py:20-25 | after normalisation the score lies in [-1, 1] |
| DecisionEngine.Explain | core/decision_engine.py:73-80 | the explanation has the signals' names in order, each with its weighted value rounded to 4 places |
| DecisionEngine.MakeDecision | core/decision_engine.py:87-123 | gated: HOLD, confidence 0.0, reason "High volatility regime", no score; otherwise BUY iff score ≥ 0.30, SELL iff score ≤ −0.30, HOLD iff in between, with confidence round(abs(score), 4) and the rounded score; both paths carry the normalised signals and their explanation |
| DecisionEngine.GateIgnoresOtherSignals | core/decision_engine.py:94-101 | two gated inputs give the same HOLD with confidence 0.0, whatever their other signals |
| RiskEngine.RawPositionSize | core/risk_engine.py:81-82 | for equity ≥ 0 the unrounded size lies in [0, 0.01·equity]; it is that maximum at full confidence and 0 at confidence ≤ 0 |
| RiskEngine.Comparable | core/risk_engine.py:104 | comparing the confidence with 0.20 works exactly for a number or a bool, and raises TypeError otherwise |
| RiskEngine.RiskState.constructor | core/risk_engine.py:30-33 | the counters start at 0.0 |
| RiskEngine.RiskState.ApproveTrade | core/risk_engine.py:90-120 | "No trade decision" is returned iff the decision is HOLD; then a confidence that cannot be compared raises; "Low confidence signal", "Daily drawdown limit breached" and "Exposure limit exceeded" each hold exactly when every earlier check passed and their own check fails; when every check passes the trade is approved, and an approval carries the decision, the confidence and the rounded confidence-scaled size; there are no other reasons |
| RiskEngine.RiskState.ApprovalImpliesLimits | core/risk_engine.py:101-113 | an approval implies decision ≠ HOLD, confidence ≥ 0.20, abs(daily_pnl) < 0.05 and open exposure + size ≤ 0.20·equity |
| RiskEngine.RiskState.UpdateAfterTrade | core/risk_engine.py:127-133 | the pnl is added to the daily pnl and the exposure drops by the size but never below 0 |
| RiskEngine.RiskState.RegisterOpenTrade | core/risk_engine.py:136-140 | the size is added to the open exposure; the daily pnl is unchanged; a non-negative size keeps the exposure non-negative |
| DecisionRecords.ToDict | core/decision_record.py:143-144 | the dict has exactly the thirteen record fields, the hash included |
| DecisionRecords.ToDictInjective | core/decision_record.py:143-144 | `to_dict` loses nothing: equal dicts come from equal records |
| DecisionRecords.AttachHash | core/decision_record.py:120-136 | every field but the hash is copied, and the hash is the digest of the record with its hash set to None |
| DecisionRecords.HashIgnoresOldHash | core/decision_record.py:125-126 | any hash already on the record has no effect on the result |
| DecisionRecords.AttachHashIdempotent | core/decision_record.py:120-136 | hashing a hashed record again changes nothing |
| DecisionRecords.HashDeterministic | core/decision_record.py:126-129 | records with equal content get equal hashes |
| DecisionRecords.HashSeparatesContent | core/decision_record.py:126-129 | with an injective digest and serialiser, records with different content get different hashes |
| DecisionRecords.CreateDecisionRecord | core/decision_record.py:58-87 | the id is the digest of "symbol:timeframe:timestamp"; the inputs are stored with confidence rounded to 4 places; the risk fields are None; the record carries its own correct hash |
| DecisionRecords.AttachRiskOutcome | core/decision_record.py:94-113 | only approved, position_size and rejection_reason change, and the result carries its correct hash |
| AiLogger.PrefixTo | logging/ai_logger.py:30 | Python's `s[:k]`, a negative `k` counting from the end |
| AiLogger.Truncate | logging/ai_logger.py:26-30 | None gives ""; a text within the limit is kept; a longer one is its first max_len−3 characters plus "...", exactly max_len long when max_len ≥ 3 |
| AiLogger.BuildAiLogPayload | logging/ai_logger.py:44-84 | orderId is None iff the order id is; the explanation has at most 1000 characters and is kept when it fits, cut to its first 997 characters plus "..." when it does not, and empty when there is none; falsy features and execution become `{}`; the confidence is rounded `_safe_float` |
| AiLogger.SideOf | logging/ai_logger.py:123 | BUY and SELL keep their names; every other decision reports NONE |
| AiLogger.RiskSentence | logging/ai_logger.py:136-139 | approved False appends the blocked sentence with the rejection reason, True the approved sentence, anything else nothing |
| AiLogger.BuildAiLogFromDecisionRecord | logging/ai_logger.py:91-154 | it raises iff `float(confidence)` raises; otherwise it maps the symbol, decision, confidence, features (timeframe, price, signals, hash) and execution (side, IOC, requested size, approved) onto the payload; the model is `model_version or model`; the explanation is the base sentence (symbol, decision, confidence rounded to 2 places) followed by the risk sentence, kept whole when it fits in 1000 characters and otherwise cut to 997 characters plus "..." |
| AiLogger.BridgeOnDecisionRecord | logging/ai_logger.py:91-154 | on the dict of any decision record the bridge never raises; it reports the record's rounded confidence, its side and hash, and its model version when non-empty |
| ConfigLoader.Split | config/config_loader.py:62 | `split(".")` yields at least one segment, none containing the separator |
| ConfigLoader.JoinSplit | config/config_loader.py:62 | joining the segments gives the dotted key back |
| ConfigLoader.SplitFirst | config/config_loader.py:62 | a first segment without a dot splits off on its own |
| ConfigLoader.LookupAppend | config/config_loader.py:65-68 | walking a path is walking its first part and then the rest |
| ConfigLoader.LookupStops | config/config_loader.py:65-67 | the walk stops at the first parent that is not a map or lacks the segment, whatever follows |
| ConfigLoader.CfgGet | config/config_loader.py:55-70 | the loop returns the nested value when the whole path exists, else the default |
| ConfigLoader.CfgGetNested | config/config_loader.py:62-70 | "a.rest" resolves as "rest" inside the value at "a", or gives the default when there is none |
| ConfigLoader.MissingKeysMembers | config/config_loader.py:98-101 | a key is reported iff it is required and resolves to None (absent or null) |
| ConfigLoader.MissingKeysAppend | config/config_loader.py:98-106 | missing keys are reported in the order of the required list |
| ConfigLoader.CheckRequired | config/config_loader.py:98-107 | it raises iff some required key is missing, with a message listing the missing keys in order |
| ConfigLoader.ValidateConfig | config/config_loader.py:77-107 | the same for the twelve required keys |
| Client.RstripSlash | weex/client.py:94 | trailing slashes are removed and only they: the result is a prefix that does not end in "/" |
| Client.NormalisePath | weex/client.py:112 | the path starts with "/"; one is added only when missing |
| Client.NormalisePathIdempotent | weex/client.py:112 | normalising a normalised path changes nothing |
| Client.LeTotal | weex/client.py:117 | Python's string order is total |
| Client.LeTrans | weex/client.py:117 | Python's string order is transitive |
| Client.LeAntisymmetric | weex/client.py:117 | Python's string order is antisymmetric |
| Client.Sort | weex/client.py:117 | `sorted(keys)` is sorted and a permutation of the keys |
| Client.SortedUnique | weex/client.py:117 | there is only one sorted arrangement of the keys |
| Client.Pairs | weex/client.py:117 | each pair is `key=str(value)`, in the given key order |
| Client.QueryString | weex/client.py:114-117 | the query string is empty iff there are no params, and otherwise is "?" followed by the params' `key=value` pairs joined by "&", listed in an ascending ordering of exactly the params' keys |
| Client.QueryStringCanonical | weex/client.py:114-117 | the query string depends only on the params' contents, not on their insertion order |
| Client.SigningMessage | weex/client.py:57 | the message is the timestamp, the upper-cased method, the path, the query string and the body, each found at its own offset, with nothing else in between |
| Client.NewClient | weex/client.py:93-95 | the base URL is stored without trailing slashes |
| Client.PrepareRequest | weex/client.py:97-153 | any method other than GET or POST raises ValueError; the URL is base, normalised path and query; only a POST carries the JSON body; a private request signs the body for POST and "" for GET |
| Client.PublicGet | weex/client.py:159-160 | an unsigned GET without data |
| Client.PrivateGet | weex/client.py:162-163 | a GET that signs timestamp, GET, path and query |
| Client.PrivatePost | weex/client.py:165-166 | a POST without a query that sends and signs the JSON body |
| Runner.TrailingFailures | run.py:213-221 | the counter never exceeds the number of ticks seen |
| Runner.TrailingFailuresIsRun | run.py:213-221 | the counter is the length of the longest run of failed ticks at the end of the trace: each tick it covers failed and the one before it did not |
| Runner.RunLoop | run.py:125-230 | a completed tick resets the counter and a failure adds exactly 1; an interrupt stops the loop without counting; the counter is below the limit before every tick and never exceeds it; the kill switch fires iff a failure brings the counter to `max_failures`; otherwise the loop stops by user iff a tick was interrupted, and runs to the horizon otherwise |
| Runner.SafeSleep | run.py:43-45 | one one-second sleep per whole second, none for a negative count |
| Runner.TickerMin | run.py:55-67 | exactly the nine market keys, each copied from the ticker or None |
| Runner.TickerMinIdempotent | run.py:55-67 | projecting a projection changes nothing |
| Runner.HoldLogOnlyWhenIdle | run.py:198-211 | a tick that opened or closed never uploads a hold log |

## Left out

- Network and HTTP: the `requests` session, the HTTP calls, status codes and response text (weex/client.py:143-153) are not part of this model. `Client.PrepareRequest` stops where the call would be made.
- HMAC and base64: `_generate_signature`'s digest and `_build_headers` (weex/client.py:58-85) are left out. The model keeps the message being signed.
- `upload_ai_log` (logging/ai_logger.py:161) is left out: it is network I/O.
- weex/api_test.py and weex/upload_ai_log.py are not part of this model. They are standalone scripts, and they contain unresolved merge-conflict markers.
- File I/O, JSON and YAML:
  - `load_config` (config/config_loader.py:33-48) reads a file and parses YAML, so it is left out.
  - `print_config_summary` only prints, so it is left out.
  - `ConfigError` is represented as a raised error carrying the message.
- `DecisionRecords.HashOf`: SHA-256 and `json.dumps(sort_keys=True)` are left uninterpreted. The model says nothing about the digest's value, only what it is computed over.
- `to_json` (core/decision_record.py:147-148) only serialises a record with `json.dumps`, which the model does not define.
- Clock and sleeps: `time.time()` and `datetime.utcnow()` are parameters. The one-second pauses between order retries are not modelled, and `Runner.SafeSleep` only counts its sleeps.
- Floating point: numbers are exact reals. `round(x, n)`, `str(x)` and float parsing are abstract functions. `Execution.ShouldExit` reports the take-profit and stop-loss percentages as values and leaves out their `%.3f` formatting in the reason strings.
- `PyValues.Upper`: ASCII-only case mapping. Python's `str.upper()` applies the full Unicode mapping, which changes other letters too and can change the length: "ſ" becomes "S" and "ß" becomes "SS". So the model differs from Python on non-ASCII input: a position side reported as "ſhort" (weex/execution_engine.py:132) is SHORT to Python but LONG in the model (`PositionReply.ReportedSide`), and an HTTP method containing such letters (weex/client.py:111) would be signed differently.
- `PyValues.Value`: `Num` stands for both `int` and `float`. As a result, `str()` of an integer and of the equal float are not told apart.
- `Positions.LoadedPosition` is stricter than `load`:
  - A stored record whose symbol or side is not a string, or whose order id is not None or an integral number, loads as None.
  - Python's `load` would keep such values in the dataclass unchecked.
- `Positions.PositionManager.Save`:
  - The write is not atomic (weex/position_manager.py:100). A crash in the middle, and a failing write, are not modelled.
  - The saved time is the clock reading of the operation that saves.
- `Positions.PositionManager.SetClosed`: the model has no aliasing. Storing the close order id on the position that is about to be dropped (weex/position_manager.py:176) leaves no trace in it. It only matters to another holder of the same object, and the model has none.
- `Execution.ExecutionEngine.OpenPosition` and `Execution.ExecutionEngine.ClosePosition` take no router, decision, ticker or model name, because those parameters only feed the audit log.
  - The oracle records only whether building and uploading the log raised; the log's contents are left out.
  - A failure of the exchange call behind `fetch_position` is not modelled.
  - The success messages at weex/execution_engine.py:247 and :316 are printed, so they are left out.
- `Execution.ExecutionEngine.FetchPosition` takes the exchange's reply as a parameter. `get_single_position` raising is not modelled.
- Wiring between modules and calls into undefined code are left out:
  - run.py:116 passes a `pm=` argument that the engine's constructor does not take.
  - `WEEXClient`, `get_single_position`, `place_order`, `get_ticker`, `set_leverage`, `AILogger` and `weex.ai_logger` are used but not defined in the files modelled.

  Each piece is modelled on its own, against an abstract exchange.
- `Runner.RunLoop`:
  - It runs over a finite horizon of tick outcomes; the source's `while True` loop never ends by itself.
  - The body of a tick (market fetch, regime routing, decision, execution, log upload) is summarised by how it ends.
  - Reading the settings at startup (run.py:75-90) and setting the leverage (run.py:106-111) are left out; only the two logging settings are modelled, in `Runner.UploadsHoldLog`.
- core/regime_router.py (pandas indicators, truncated), strategy.py and utils/plotting.py are not part of this model.
- Python dicts whose iteration order matters (signals, request params) are sequences of pairs. `DistinctKeys` states where a proof needs the dict's distinct keys.
