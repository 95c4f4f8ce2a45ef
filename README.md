# Smart Tourist Safety backend: a Dafny model

This project models the backend of a tourist-safety prototype. Tourists register, report
their location and press a panic button. The server classifies each location report,
raises alerts, pushes them to connected dashboards, and records every event in an
append-only, hash-chained ledger kept as a JSON-lines file.

Modules, following the source files:

- `HashChain` (`hash_chain.dfy`) models `backend/blockchain_mock.py`.
  - `LedgerFile` is the ledger file: whether it exists, and its text.
  - `LedgerFile.Append` is `append_entry`. It scans back byte by byte for the last line
    (`ReadLastLine`, which has the source's loop). It takes `prev_hash` from that line,
    seals the record and appends one line.
  - `LedgerFile.Verify` is `verify_chain`. It replays every line and returns `Intact`
    (True), `Broken` (False) or `Raises`. `Raises` covers `json.loads` failing, a line
    that is not an object, and a missing key.
  - The lemmas prove three things. A run of appends from an empty ledger always
    verifies. Each record links to the one before it. Changing any one member of any
    one record makes verification fail.
- `Text` (`text.dfy`) models the parts of Python's text handling the ledger relies on:
  `str.strip()`, `readline()` and iterating a file line by line.
- `Geofence` (`geofence.dfy`) models `backend/geofence.py`: bounding-box membership.
- `Anomaly` (`anomaly.dfy`) models `backend/anomaly.py`: route deviation and inactivity.
- `Server` (`server.dfy`) models `backend/app.py`.
  - `AppState` holds `TOURISTS`, `ALERTS` and `DASHBOARD_CLIENTS`, and has one method
    per request handler.
  - A ghost `history` records the order of effects: an alert raised, a ledger entry recorded.
- `Wrappers` and `JsonValue` hold `Option` and a JSON value type.
  - JSON non-integer numbers (`JNum`), ledger timestamps and request coordinates are `Float`s:
    `mantissa * 2^exponent` in lowest terms, as Python's finite floats are.
  - `JsonValue.ValueInjective` proves that each number has exactly one such form. So two
    JSON floats are equal exactly when their values are.
  - JSON integers are a separate constructor, `JInt`. `json.loads` reads `26` as an int
    and `26.0` as a float, and `json.dumps` writes them back differently, so `JInt(26)`
    and the `JNum` of 26.0 are different values with different canonical texts.
    `HashChain.IntSpellingDetected` proves that respelling a float member of a stored
    payload as the equal int breaks verification.
  - The classifiers work on the exact value (`Value`) of a float, as a real.

Collaborators the model cannot see are parameters:

- SHA-256, the two `json.dumps` forms and `json.loads` are fields of `HashChain.Codec`.
  Linkage, chain integrity and tamper detection assume `WellBehaved(c)`: a compact dump is one
  non-empty line with no surrounding white space, and `json.loads` reads it back.
  Tamper detection additionally assumes `Injective(c)`: the canonical encoding and the
  digest have no collisions.
  - Both assumptions can hold. JSON values are built from integers, characters, finite
    sequences and finite maps, so there are countably many of them, just as there are strings.
  - Any one-to-one map from values into non-empty, newline-free strings without surrounding
    white space is a possible `dumps`, with `loads` as its inverse.
- The geodesic distance is a function parameter `dist` in kilometres.
- `time.time()` is one `now` per handler. `uuid.uuid4()` is the `touristId` argument of
  `Register`.
- A failed `asyncio.create_task(ws.send_json(..))` is modelled by a set `failing`: the
  clients whose send cannot be scheduled on this call. `UpdateLocation` passes the same
  set to both of its broadcasts, while the source runs its try/except again on each call.
  No delivery is modelled, so the final client list is the one that separate sets would
  give when `failing` is their union.

The last-line scan is modelled exactly as written:

- The first `f.read(1)` happens at end of file, so the final byte is never examined.
- The loop stops at position 0 without examining byte 0.
- So in a ledger made of a blank line followed by a single record line, the scan reads
  the blank line. The record is not found, and the next append links to GENESIS
  (`HashChain.LeadingBlankLineHidesTail`). A ledger with two or more lines after the
  blank line is read correctly.
- Files written only by appends never start with a blank line. `HashChain.TailOfAppended`
  states the condition under which the scan finds the last line.

Facts about the code that the model keeps:

- `verify_chain` returns only a boolean. It does not say where the chain breaks.
- A malformed line makes `verify_chain` raise an exception (`Raises`); it does not return False.
- In `/location` and `/panic`, each alert is broadcast before its ledger entry is appended.
- Nothing guards the read-tail-then-append step against a concurrent append.
- On attach, a dashboard receives the last 50 entries of ALERTS. It does not receive ledger records.

## Model

| member | source | states |
|---|---|---|
| JsonValue.ValueInjective | backend/blockchain_mock.py:31 | two floats with the same value have the same form, so the stored `ts` is a unique JSON number |
| Text.StripSpec | backend/blockchain_mock.py:23 | `strip()` leaves a slice of the text that neither starts nor ends with white space, and leaves nothing exactly when the text is all white space |
| Text.ReadLineFrom | backend/blockchain_mock.py:23 | `readline()` from a position returns a prefix of the rest of the file |
| Text.LineLength | backend/blockchain_mock.py:23 | a line's length includes its terminating '\n'; no earlier character is a newline; the line is non-empty when the text is |
| Text.StripNewline | backend/blockchain_mock.py:47 | `strip()` removes a trailing '\n' |
| Text.SplitLines | backend/blockchain_mock.py:46 | iterating a file yields no empty line, and yields nothing exactly when the file is empty |
| Text.SplitLinesJoin | backend/blockchain_mock.py:46 | the lines of a file, concatenated, are the file |
| Text.SplitLinesEnd | backend/blockchain_mock.py:46 | every line but the last ends with '\n' |
| Text.SplitLinesInner | backend/blockchain_mock.py:46 | each line holds no '\n' before its last character, so iteration cuts the file at every '\n' |
| Text.SplitOneLine | backend/blockchain_mock.py:46 | a newline-free line followed by '\n' is read back as one line, followed by the lines of the rest |
| HashChain.HashRecord | backend/blockchain_mock.py:6-9 | without collisions, the digest of a record's canonical encoding determines the record |
| HashChain.Seal | backend/blockchain_mock.py:30-35 | the new record keeps its timestamp, `prev_hash` and payload, and its stored hash is the digest of those three |
| HashChain.LastNewlineIn | backend/blockchain_mock.py:19-22 | the position the scan stops at holds '\n', or is 0; no later position in range holds '\n' |
| HashChain.ReadLastLine | backend/blockchain_mock.py:18-23 | the backward scan and `readline().strip()` yield exactly `TailLine(f)` |
| HashChain.TailOfAppended | backend/blockchain_mock.py:18-23 | when the earlier text is empty, or at least two characters long and ending in '\n', the scan returns the stripped last line |
| HashChain.LeadingBlankLineHidesTail | backend/blockchain_mock.py:19-29 | as written, for a ledger made of a blank line and then a single line, the scan yields an empty last line, so the next record links to GENESIS |
| HashChain.PrevHash | backend/blockchain_mock.py:24-29 | `prev_hash` is the parsed last line's `hash` member when it has one, and GENESIS otherwise |
| HashChain.GenesisFirst | backend/blockchain_mock.py:14-15 | the first record of an absent or empty ledger links to GENESIS |
| HashChain.NextLinksToLast | backend/blockchain_mock.py:24-27 | after a record is appended, the next record's `prev_hash` is that record's hash |
| HashChain.UnreadableTailLinksToGenesis | backend/blockchain_mock.py:24-29 | a last line that does not parse, is not an object or has no `hash` member gives `prev_hash` GENESIS |
| HashChain.LedgerFile.Append | backend/blockchain_mock.py:11-38 | the file then exists; exactly one line, the returned record's, is added at the end; the record is sealed, carries the given time and payload, and links to the last line's hash |
| HashChain.CheckLineSpec | backend/blockchain_mock.py:47-56 | a blank line is skipped; a line that does not parse to an object with `ts`, `prev_hash` and `payload` raises; a line is accepted, handing its stored hash on, exactly when its hash is the digest of its body and its `prev_hash` is the expected one; otherwise False |
| HashChain.CheckWrittenLine | backend/blockchain_mock.py:46-56 | a line written by an append is accepted, and moves the expected hash to its own, exactly when its hash matches its body and its `prev_hash` is the expected one; otherwise verification stops with False |
| HashChain.BlankLineSkipped | backend/blockchain_mock.py:47-48 | a blank line anywhere in the file does not change the outcome of verification |
| HashChain.BlankLinesReplay | backend/blockchain_mock.py:46-48 | replaying only blank lines accepts them and leaves the expected hash unchanged |
| HashChain.VerifyFile | backend/blockchain_mock.py:40-57 | an absent ledger, an empty one and one holding only blank lines verify as True |
| HashChain.LedgerFile.Verify | backend/blockchain_mock.py:40-57 | the loop's verdict is the replay `VerifyFile` of the whole file; an absent file is intact |
| HashChain.BuildIsChain | backend/blockchain_mock.py:11-38 | a run of appends from an empty ledger writes one line per record of a linked chain starting at GENESIS |
| HashChain.AppendsVerify | backend/blockchain_mock.py:11-57 | chain integrity: every ledger produced by appends from an empty ledger verifies as True |
| HashChain.TamperedLineRejected | backend/blockchain_mock.py:50-55 | a sealed record with one of `ts`, `prev_hash`, `payload`, `hash` changed fails its own check |
| HashChain.ReplayStopsAt | backend/blockchain_mock.py:46-56 | when the lines before `i` are accepted in sequence and line `i` is rejected, verification returns False whatever follows |
| HashChain.LinkedAt | backend/blockchain_mock.py:30-35 | in a linked run every record is sealed and points to its predecessor's hash, the first to the starting hash |
| HashChain.TamperReplay | backend/blockchain_mock.py:44-56 | in a linked run, replacing record `i` by a one-member mutation stops verification at that record |
| HashChain.TamperedRendering | backend/blockchain_mock.py:37 | the tampered file's lines before `i` are the original records' lines, and line `i` is the tampered one |
| HashChain.IntSpellingDetected | backend/blockchain_mock.py:40-57 | rewriting a float member of a stored payload (26.0) as the int of the same value (26) makes verification return False, because the canonical text differs |
| HashChain.TamperDetected | backend/blockchain_mock.py:40-57 | tamper evidence: changing any one member of any one record of an appended ledger makes verification return False |
| HashChain.PanicThenGeofenceChain | backend/blockchain_mock.py:11-38 | two appends produce a first record linked to GENESIS and a second linked to the first |
| HashChain.PanicThenGeofence | backend/blockchain_mock.py:11-57 | a PANIC then a GEOFENCE event: links GENESIS to first to second, the file verifies, and rewriting the first payload's event to SAFE makes it fail |
| Geofence.InZones | backend/geofence.py:9-13 | a point is in the zones exactly when some zone contains it, edges included, with longitude against entries 0 and 2 and latitude against 1 and 3 |
| Geofence.InHighRiskZone | backend/geofence.py:3-13 | with the configured zone, a point is high-risk exactly when 91.73 <= lng <= 91.80 and 26.14 <= lat <= 26.20 |
| Geofence.NoZonesNoRisk | backend/geofence.py:9-13 | an empty zone list contains no point |
| Geofence.CornersInside | backend/geofence.py:11 | both corners of a non-degenerate zone are inside it |
| Geofence.ConfiguredZone | backend/geofence.py:3-5 | with the configured zone, (26.17, 91.75) and the corner (26.14, 91.73) are high-risk and (26.17, 91.70) is not |
| Anomaly.FarFromAll | backend/anomaly.py:9-13 | the loop returns True exactly when every planned point is farther than the threshold |
| Anomaly.DeviationFromRoute | backend/anomaly.py:4-13 | deviation holds exactly when the route is non-empty and every planned point is farther than the threshold |
| Anomaly.AtThresholdIsOnRoute | backend/anomaly.py:11-12 | a planned point at exactly the threshold distance means no deviation |
| Anomaly.ExtraPointNarrows | backend/anomaly.py:9-13 | adding a point to a non-empty route keeps a deviation only if the new point is also too far |
| Anomaly.EffectiveNow | backend/anomaly.py:16 | a given non-zero `now_ts` is used as it is; a missing or zero one is replaced by the clock |
| Anomaly.Inactivity | backend/anomaly.py:15-18 | inactive exactly when the elapsed seconds are at least 60 times the idle limit in minutes |
| Anomaly.IdleLimitInclusive | backend/anomaly.py:17-18 | being idle for exactly the limit is inactivity |
| Anomaly.ZeroNowMeansClock | backend/anomaly.py:16 | a zero `now_ts` is replaced by the clock |
| Server.Surviving | backend/app.py:36-44 | the surviving clients are exactly the old clients whose send did not fail |
| Server.Failed | backend/app.py:36-41 | `to_remove` holds exactly the clients whose send failed |
| Server.CollectFailed | backend/app.py:36-41 | the first loop of `broadcast_alert` collects exactly `Failed`, in client order |
| Server.RemoveEach | backend/app.py:42-44 | removing the collected clients keeps only listed clients and drops at most one per removal |
| Server.RemovePresent | backend/app.py:42-44 | the second loop of `broadcast_alert` removes, one by one, each collected client still listed |
| Server.RemoveFirst | backend/app.py:130-132 | `list.remove` drops the first occurrence and keeps the rest in order, and changes nothing when the value is absent |
| Server.RemoveFirstKeepsOthers | backend/app.py:130-132 | a detach removes one connection of that client and leaves every other client's count unchanged |
| Server.PruneFailed | backend/app.py:36-44 | removing the collected failures one by one leaves exactly the surviving clients, in order |
| Server.SurvivingIdempotent | backend/app.py:84-93 | a second broadcast with the same failures prunes nothing more |
| Server.Window | backend/app.py:125 | the backlog is the last 50 alerts, or all of them when there are fewer |
| Server.AppState.constructor | backend/app.py:18-20 | the stores start empty |
| Server.AppState.BroadcastAlert | backend/app.py:33-44 | the alert is appended to ALERTS and the client list becomes the surviving clients |
| Server.AppState.RaiseAndRecord | backend/app.py:85-87 | one alert broadcast, then one ledger append of the event entry, in that order |
| Server.AppState.Register | backend/app.py:58-73 | the tourist is stored with score 80, active and without a location; one REGISTER entry is appended, so the ledger file exists afterwards; the reply carries the record's hash |
| Server.LedgerSteps | backend/app.py:83-93 | the ledger after the two optional appends holds the GEOFENCE entry, then the DEVIATION entry, for the checks that fired |
| Server.AppState.UpdateLocation | backend/app.py:75-95 | an unknown id changes nothing and returns 404; otherwise the location and time are stored, and each check that fires adds its alert, its broadcast and its ledger entry, geofence first; the ledger file exists afterwards exactly when it existed before or a check fired |
| Server.AppState.Panic | backend/app.py:97-105 | an unknown id changes nothing; otherwise one PANIC alert, then one PANIC entry (so the ledger file exists), with the tourist record unchanged |
| Server.AppState.Attach | backend/app.py:119-125 | the dashboard joins the client list and receives the last 50 alerts |
| Server.AppState.Detach | backend/app.py:130-132 | the dashboard's first occurrence leaves the client list, if it is still there |

## Left out

- The FastAPI application, static files, templates and the three HTML pages (`backend/app.py:46-56`): they serve files and do no computation.
- `/tourists`, `/alerts` and `/ledger/verify` (`backend/app.py:107-117`): they return the stores or `verify_chain()` unchanged. `HashChain.LedgerFile.Verify` is the model of the last one.
- Pydantic validation of request bodies. Itinerary points without `lat`/`lng` keys, which make `deviation_from_route` raise `KeyError`, are not modelled: itineraries are sequences of locations.
- WebSocket I/O and the asyncio event loop. Sends that fail to be scheduled are the `failing` input. Sends that fail later, and the keep-alive receive loop, are not modelled.
- Concurrency: handlers run one at a time. The source has no lock, so interleaved appends that fork the chain are outside the model.
- File-system effects such as `mkdir`, opening and flushing, and I/O errors. The ledger file is a string plus an existence flag.
- UTF-8 encoding and decoding, universal-newline translation of "\r" and "\r\n", and `str.strip()` on non-ASCII white space. Text is a sequence of characters, so a byte offset is a character offset.
- SHA-256 and the JSON encoder and decoder. They are abstract `Codec` functions, constrained only by `WellBehaved` and `Injective`.
- Floating-point arithmetic and range. A `Float` has an unbounded mantissa and exponent. NaN, the infinities and -0.0 are not modelled.
- The classifiers compute with reals. Their constants (the zone edges, 3.0, 60.0) are exact decimals, not the nearest doubles, and `(now_ts - last_update_ts) / 60.0` is exact.
- The keyword defaults of the classifiers (`threshold_km=3.0`, `max_idle_minutes=30.0`) are not separate constants. Every parameter is passed explicitly, and `/location` passes 3.0 (`Server.RouteThresholdKm`).
- The geodesic distance of geopy: it is the parameter `dist`, a total function. geopy
  raises `ValueError` for a latitude outside [-90, 90]. `/location` then fails with a
  server error after it has already stored `last_location` and `last_update`, while
  `UpdateLocation` returns `Ok` for every coordinate.
- The separate `time.time()` readings in one handler (the stored `last_update`, each alert's `ts`, each ledger record's `ts`): the model uses one `now` for all of them.
- `inactivity` is modelled, but `backend/app.py` never calls it.
- The `safety_score` and `active` fields are stored as written and never updated, as in the source.
- HashChain.TamperDetected: covers a change to one member of one record. Deleting, reordering or inserting lines is not covered.
