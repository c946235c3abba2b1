# Session runtime of go-fiber-live-view, modelled in Dafny

This project models the session runtime in `liveview/view`: the process-wide
registry of layouts (one layout per browser session) with its broadcast
operations, the per-layout scheduler loop, and the websocket handler of one
connection: its frame dispatcher, its deferred teardown, and the page settings
that `Register` defaults. Goroutines, locks and tickers are replaced by
"one event at a time". The network becomes a finite sequence of frames. The
file system becomes a map from path to contents.

Files:

- `values.dfy` (module `Values`): decoded JSON values (Go's `interface{}`), plus
  Go's `m[k]` lookup and `m[k].(string)` assertion on them.
- `utils.dfy` (modules `Utils`, `Files`): `ContainsString`, and the
  "replace a path by its contents if the file exists" idiom.
- `layout.dfy` (module `Layouts`): `Handler` is the content of a callback slot:
  nil, the empty closure, an application function, or one of the closures
  `NewLayout` installs. Class `Layout` holds the fields and setters. Class
  `Registry` is the global `Layaouts` map with `NewLayout`, `DeleteLayout`,
  `SendToAllLayouts` and `SendToLayouts`. Each broadcast returns the deliveries
  it makes as `(target id, callback, message)`.
- `scheduler.dfy` (module `Scheduler`): the `select` loop `NewLayout` starts. It
  is given as a trace function over quit / first-tick / interval-tick events,
  and as the loop itself. The application's setter calls
  (`SetHandlerFirstTime`, `SetHandlerEventTime`) are events too, interleaved
  with the ticks. The loop reads the callback slots of the layout each time a
  ticker fires, so a setter that runs after the loop has started changes what
  later ticks call.
- `page_content.dfy` (module `PageContent`): `PageControl.Register`, the asset
  route, the read loop over frames, and the teardown.

The model follows the code, including where the code does something a reader
may not expect:

- A `"data"` frame whose `id` has no driver does not get dropped. `drivers[id]`
  is then a nil interface, and the call panics. The same happens when `id` or
  `event` is missing or is not a string. The panic ends the read loop. The
  deferred teardown still runs.
- A `"get"` frame whose `id_ret` has no channel does not get dropped either. It
  sends on a nil channel, which blocks forever. The loop stops, and the
  teardown never runs.
- `NewLayout` gives no default to `HandlerEventTime` (it stays nil). So an
  interval tick on a layout that never called `SetHandlerEventTime` panics in
  the scheduler goroutine (`NilEventTimePanic`).
- Both destroy callbacks run inside one `recover` scope. A nil
  `HandlerEventDestroy`, or a root component that is not a `*Layout`, therefore
  also skips `HandlerInternalDestroy`, so the scheduler's quit channel is never
  closed.
- A second `NewLayout` for an identifier that is already registered returns the
  existing layout. It does not replace it.

## Model

| member | source | states |
|---|---|---|
| `Utils.ContainsString` | liveview/view/utils.go:7-14 | true iff some element of the slice equals `e` |
| `Utils.ContainsIsMembership` | liveview/view/utils.go:7-14 | the scan agrees with sequence membership |
| `Utils.ContainsEmpty` | liveview/view/utils.go:8-13 | nothing is found in an empty slice |
| `Utils.ContainsAppended` | liveview/view/utils.go:8-12 | an element appended to a slice is found |
| `Utils.ContainsConcat` | liveview/view/utils.go:7-14 | scanning `a + b` finds `e` iff scanning `a` or scanning `b` does |
| `Utils.ContainsDependsOnlyOnElements` | liveview/view/utils.go:7-14 | two slices with the same elements, in any order and with any duplicates, give the same answer |
| `Values.Lookup` | liveview/view/page_content.go:164 | `data["data"]` reads the value under the key, and a missing key reads as nil (`Null`) |
| `Values.StringField` | liveview/view/page_content.go:169 | the assertion `m[k].(string)` succeeds iff the key is present and holds a string, and then yields that string; otherwise Go panics (`None`), as also for `id_ret` at line 176 |
| `Files.ContentsOrSelf` | liveview/view/layout.go:85-87 | a name that is an existing path becomes the file's contents, any other string is kept as it is; `Register` applies the same idiom at page_content.go:57-62 |
| `Layouts.Layout.constructor` | liveview/view/layout.go:90-106 | a new layout has id `uid`, interval 24h, a first-contact callback that sends "FIRST_TIME" to `uid`, empty inbound and destroy callbacks, a quit-closing internal destroy, and a nil repeating callback |
| `Layouts.Layout.SetHandlerFirstTime` | liveview/view/layout.go:172-174 | sets the first-contact callback and changes no other field |
| `Layouts.Layout.SetHandlerEventIn` | liveview/view/layout.go:175-177 | sets the inbound-event callback and changes no other field |
| `Layouts.Layout.SetHandlerEventTime` | liveview/view/layout.go:179-182 | sets both the interval and the repeating callback, and no other field |
| `Layouts.Layout.SetHandlerEventDestroy` | liveview/view/layout.go:184-186 | sets the destroy callback and changes no other field |
| `Layouts.Registry.constructor` | liveview/view/layout.go:28-32 | the registry starts empty |
| `Layouts.Registry.DeleteLayout` | liveview/view/layout.go:34-41 | the new map is the old one without `uid`, every other entry unchanged; an absent `uid` leaves the map as it was, so deleting twice equals deleting once; keeps every layout under its own id |
| `Layouts.Registry.NewLayout` | liveview/view/layout.go:74-112 | a registered `uid` returns the existing layout and leaves the map unchanged; a fresh `uid` inserts a new layout with the defaults under `uid` and changes no other entry |
| `Layouts.Registry.SnapshotAll` | liveview/view/layout.go:44-49 | the copy holds every registered layout exactly once (as a multiset of ids) and each is the one registered under its id |
| `Layouts.Registry.Deliver` | liveview/view/layout.go:51-55 | one delivery per snapshotted layout, in snapshot order, each calling that layout's inbound-event callback with `msg` |
| `Layouts.Registry.SendToAllLayouts` | liveview/view/layout.go:43-56 | the delivery targets are exactly the registered ids, each once; the number of deliveries is the registry size; each carries `msg` to that layout's callback |
| `Layouts.Registry.SnapshotSome` | liveview/view/layout.go:58-67 | the copy holds the registered layouts named in `uuids`, in argument order, once per occurrence |
| `LayoutsScenario.TwoSessionsBroadcast` | liveview/view/layout.go:34-56 | with sessions "s1" and "s2" registered, a broadcast reaches both once each; after "s2" is deleted, the next broadcast reaches only "s1" |
| `Layouts.Registry.SendToLayouts` | liveview/view/layout.go:57-72 | the delivery targets are `Known(uuids, registered ids)`; unknown ids are skipped; each delivery carries `msg` to the target's callback |
| `Layouts.Known` | liveview/view/layout.go:62-66 | the kept ids are registered and come from the argument list, and there are no more of them than arguments |
| `Layouts.KnownConcat` | liveview/view/layout.go:62-66 | filtering distributes over concatenation, so argument order is kept |
| `Layouts.KnownCount` | liveview/view/layout.go:62-66 | a registered id is delivered once per occurrence in the arguments; an unknown one never |
| `Layouts.KnownIsContains` | liveview/view/layout.go:57-72 | an id is reached iff it is registered and `ContainsString(uuids, id)` |
| `Layouts.KnownAllRegistered` | liveview/view/layout.go:62-66 | when every argument is registered, all are reached, in order |
| `Layouts.Registry.FirstTimeToOwner` | liveview/view/layout.go:94-96 | the default first-contact callback delivers "FIRST_TIME" to its own layout and nobody else when that layout is registered, and to nobody otherwise |
| `Scheduler.Apply` | liveview/view/layout.go:172-182 | `SetHandlerFirstTime` replaces only the first-contact slot; `SetHandlerEventTime` replaces the repeating callback and the interval together; any other event leaves the slots as they are |
| `Scheduler.FirstContact` | liveview/view/layout.go:134-138 | a nil first-contact callback falls back to the broadcast to all layouts; a non-nil one is itself the call |
| `Scheduler.StepOf` | liveview/view/layout.go:127-142 | one pass of the `select`: it stops the loop iff the event is quit or an interval tick on a nil repeating callback; the first contact stays pending iff it was pending and the event is not a first tick; it takes an action iff it is a pending first tick or an interval tick, and never more than one; a pending first tick takes `FirstContact` of the first-contact slot current at that tick (the callback, or the broadcast when it is nil); an interval tick calls the repeating slot current at that tick, or panics when it is nil |
| `Scheduler.Trace` | liveview/view/layout.go:127-144 | the loop takes at most one action per event |
| `Scheduler.TraceShape` | liveview/view/layout.go:131-142 | whatever the setters do, a first-contact call or a repeating call only ever runs a non-nil callback, and a nil-callback panic can only be the last action |
| `Scheduler.FixedCallbacksShape` | liveview/view/layout.go:131-142 | while no setter runs, every first-contact action is the one `FirstContact` picks for the current slot (the callback, or the broadcast fallback when it is nil), and every repeating call runs the current repeating callback |
| `Scheduler.SetterTakesEffect` | liveview/view/layout.go:133-141 | after a setter, the loop goes on with the updated slots: the callbacks are read when a ticker fires, not when the loop starts |
| `Scheduler.FirstContactAtMostOnce` | liveview/view/layout.go:118-139 | over any event sequence, setters included, the first-contact action happens at most once, and never again once fired |
| `Scheduler.FirstContactFiresOnce` | liveview/view/layout.go:127-139 | a first tick reaching the loop before any quit, and before any interval tick on a nil repeating callback, makes the first contact fire exactly once |
| `Scheduler.NothingAfterQuit` | liveview/view/layout.go:127-130 | events after a quit add no action |
| `Scheduler.TraceStep` | liveview/view/layout.go:126-144 | an event that does not stop the loop contributes its step's actions, and the rest of the trace and the final slots follow from the slots it left |
| `Scheduler.TraceStop` | liveview/view/layout.go:128-141 | an event that stops the loop contributes its step's actions and nothing after; the slots stay as they were |
| `Scheduler.Tick` | liveview/view/layout.go:127-142 | one pass of the `select` on layout `l` takes exactly `StepOf` of the slots read from `l`, and a setter event changes the slots by `Apply` and no other field |
| `Scheduler.Run` | liveview/view/layout.go:116-145 | the loop, with its `firstTime` flag, produces exactly `Trace` of the layout's slots at the start over the events, leaves the slots as `Final` says, and changes no other field of the layout |
| `PageContent.LangOrDefault` | liveview/view/page_content.go:63-65 | the language is never empty; a set language is kept; an empty one becomes "en" |
| `PageContent.PageControl.Register` | liveview/view/page_content.go:56-68 | code fields naming an existing file get its contents; `Lang` is defaulted; "live.js" is loaded when present; no other field changes |
| `PageContent.ServeAsset` | liveview/view/page_content.go:70-85 | 404 iff the file is absent; otherwise the file's contents, with `application/wasm` exactly for `json.wasm`, `application/javascript` exactly for `wasm_exec.js`, and no content type for other names |
| `PageContent.Classify` | liveview/view/page_content.go:162-180 | no `type` or another type: ignored; an `ExecuteEvent` happens iff the frame is a well-formed "data" frame for a registered driver, with its `id`, `event` and `data`; a channel send happens iff it is a well-formed "get" frame for a registered `id_ret`, with its `data`; it blocks iff it is a well-formed "get" frame with an unknown `id_ret`; it panics iff it is a "data" frame that is malformed or names an unknown driver, or a "get" frame without a string `id_ret` |
| `PageContent.Dispatched` | liveview/view/page_content.go:149-181 | no more dispatches than frames; every event goes to a registered driver and every send to a registered channel |
| `PageContent.SkippedFramesVanish` | liveview/view/page_content.go:156-163 | undecodable frames and frames without an acted-on type leave no trace; the loop continues with the next frame |
| `PageContent.DispatchedConcat` | liveview/view/page_content.go:149-181 | frames are handled in order, one after the other; after a read error, a panic or a blocked send, no later frame is read |
| `PageContent.ReadErrorEndsLoop` | liveview/view/page_content.go:149-154 | a read error ends the loop: the dispatches made before it stand and no later frame is read |
| `PageContent.PanicEndsLoop` | liveview/view/page_content.go:163-178 | a frame that panics ends the loop with the panic after the earlier dispatches; no later frame is read |
| `PageContent.UnknownQueryBlocksLoop` | liveview/view/page_content.go:172-178 | a "get" frame with an unknown `id_ret` blocks the loop for good on that channel; no later frame is read |
| `PageContent.DataFrameExecutesOnce` | liveview/view/page_content.go:164-171 | a well-formed "data" frame makes exactly one `ExecuteEvent`, on the driver under its `id`, with its `data` |
| `PageContent.GetFrameDeliversToIdRet` | liveview/view/page_content.go:172-178 | a well-formed "get" frame sends its `data` to the channel under `id_ret` and nowhere else |
| `PageContent.ReadLoop` | liveview/view/page_content.go:149-181 | the loop with its `break`/`continue` produces exactly `Dispatched` of the frames |
| `PageContent.TeardownSteps` | liveview/view/page_content.go:104-125 | unregistering comes first; `HandlerEventDestroy` is called with the id iff the root is a layout with a non-nil destroy callback; `HandlerInternalDestroy` runs after it, iff both are non-nil; otherwise the step is a recovered panic |
| `PageContent.DefaultLayoutTeardown` | liveview/view/page_content.go:119-121 | a layout with the default callbacks is unregistered, gets its empty destroy call with its id, then has its quit channel closed |
| `PageContent.Teardown` | liveview/view/page_content.go:104-125 | removes the id from the registry before the destroy callbacks, with the steps of `TeardownSteps` |
| `PageContent.Serve` | liveview/view/page_content.go:99-183 | dispatches as `Dispatched`; a read error or a panic then tears down (registry loses the id); a blocked or waiting loop tears nothing down |

## Left out

- Locks, goroutines and tickers: there is no concurrency. Operations and scheduler events happen one at a time. This hides the race in `NewLayout` between its read-locked lookup and its later insert: two concurrent calls for one fresh id can both build a layout, and the last insert wins.
- The 250ms and interval timing, including `time.NewTicker`'s panic on a non-positive interval. The interval is stored but has no effect in the model; in the code too, the interval ticker's period is read once when the goroutine starts, so a later `SetHandlerEventTime` changes the stored interval and not the ticker.
- The `html.Parse` walk that calls `Join` (liveview/view/layout.go:147-167): a foreign parser and a function that is not part of this model.
- `NewDriver`, `ComponentDriver`, `Start`/`Commit` and `GetDriver`: the driver code is not part of this model. `NewLayout` returns the layout instead of its driver.
- `GetTemplate`: it only returns the `html` field.
- Logging with `fmt.Println`.
- The page route that renders `templateBase`, the fiber router, and the websocket upgrade.
- `conn.ReadMessage`: replaced by the input sequence of frames.
- Mounting `componentsDrivers`, `SetID("content")` and `StartDriver`: not part of this model. The driver ids and query channel ids are parameters, fixed during one run of the loop. The teardown id is the parameter `rootId` (the driver's `GetIDComponet()`).
- Application callbacks (`App` handlers) and `ExecuteEvent`: recorded as calls only. Their effects are opaque, and so is any panic raised inside them.
- `ReadLoop`: a send to a registered query channel is taken to complete; whether it can block depends on the channel buffering and the receiver in driver code that is not part of this model.
- `Layouts.Registry.Deliver`: a nil `HandlerEventIn` makes Go panic in the caller and skip the remaining deliveries; the model records the call with the `Nil` callback and goes on.
- What a panic does to the process after the loop ends (the scheduler goroutine's panic, and the read loop's panic once teardown ran).
- `Exists`, `FileToString` and `StringToFile`: the file system is a map from path to contents. A read failure after `Exists` succeeded is not modelled.
- The `recover` helpers of liveview/view/recover.go: only the recover scope in the teardown is modelled.
- The synchronous value query and its pending-request table: the code is not part of this model. Only the delivery of a "get" frame is modelled.
