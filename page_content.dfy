/** liveview/view/page_content.go: the page settings and their defaults, the
    asset route's content types, and the websocket handler of one connection:
    the loop that reads frames and dispatches them, and the deferred teardown. */
module PageContent {
  import opened Values
  import opened Layouts
  import Files

  /** The script `Register` loads when it exists. */
  const LiveJsFile: string := "live.js"

  /** The language a page gets when none is set. */
  function LangOrDefault(lang: string): (r: string)
    ensures r != ""
    ensures lang != "" ==> r == lang
    ensures lang == "" ==> r == "en"
  {
    if lang == "" then "en" else lang
  }

  /** The settings of one page. The fiber router is not part of this model. */
  class PageControl {
    var path: string
    var title: string
    var headCode: string
    var lang: string
    var css: string
    var liveJs: string
    var afterCode: string
    var debug: bool

    /** The settings part of `Register`: code fields naming an existing file
        (in `files`) are replaced by its contents, an empty language becomes
        "en", and "live.js" is loaded when it exists. */
    method Register(files: map<string, string>)
      modifies this
      ensures afterCode == Files.ContentsOrSelf(files, old(afterCode))
      ensures headCode == Files.ContentsOrSelf(files, old(headCode))
      ensures lang == LangOrDefault(old(lang))
      ensures liveJs == if LiveJsFile in files then files[LiveJsFile] else old(liveJs)
      ensures path == old(path) && title == old(title) && css == old(css) && debug == old(debug)
    {
      if afterCode in files {
        afterCode := files[afterCode];
      }
      if headCode in files {
        headCode := files[headCode];
      }
      if lang == "" {
        lang := "en";
      }
      if LiveJsFile in files {
        liveJs := files[LiveJsFile];
      }
    }
  }

  /** Where the asset route looks a requested file up. */
  const AssetDir: string := "../../liveview/assets/"

  const WasmContentType: string := "application/wasm"
  const JavaScriptContentType: string := "application/javascript"

  /** The answer of the asset route: the file with the content type it set (if
      any), or status 404. */
  datatype AssetResponse = AssetFound(contentType: Option<string>, body: string) | AssetNotFound

  /** The `/assets/:file` route over the file system `files`. */
  function ServeAsset(files: map<string, string>, file: string): (r: AssetResponse)
    ensures r.AssetFound? <==> AssetDir + file in files
    ensures r.AssetFound? ==> r.body == files[AssetDir + file]
    ensures r.AssetFound? ==> (r.contentType == Some(WasmContentType) <==> file == "json.wasm")
    ensures r.AssetFound? ==> (r.contentType == Some(JavaScriptContentType) <==> file == "wasm_exec.js")
    ensures r.AssetFound? ==> (r.contentType == None <==> file != "json.wasm" && file != "wasm_exec.js")
  {
    var path := AssetDir + file;
    if path in files then
      var contentType := if file == "json.wasm" then Some(WasmContentType) else None;
      var contentType := if file == "wasm_exec.js" then Some(JavaScriptContentType) else contentType;
      AssetFound(contentType, files[path])
    else
      AssetNotFound
  }

  /** The result of `json.Unmarshal` of one frame into a `map[string]interface{}`. */
  datatype Decoded = Malformed | Object(fields: map<string, Value>)

  /** The result of one `conn.ReadMessage`. */
  datatype Inbound = ReadFailure | Received(frame: Decoded)

  /** A dispatch the loop makes: an event executed on a component driver, or a
      value sent to a pending query's channel. */
  datatype Effect =
    | ExecuteEvent(driver: string, event: string, payload: Value)
    | ChannelSend(channel: string, payload: Value)

  /** What one decoded frame does to the loop. `Panic` is a failed type
      assertion or a call on the nil driver of an unknown id; `Block` is a send
      on the nil channel of an unknown `id_ret`, which never completes. */
  datatype Outcome = Ignored | Dispatch(effect: Effect) | Panic | Block(channel: string)

  /** How the read loop stops: a read error breaks it, a panic unwinds it,
      a blocked send holds it forever, or it is waiting for the next frame. */
  datatype LoopEnd = ReadFailed | Panicked | Blocked(channel: string) | AwaitingFrame

  datatype LoopResult = LoopResult(effects: seq<Effect>, end: LoopEnd)

  /** A well-formed "data" frame: a string `id` and a string `event`. */
  predicate IsDataFrame(fields: map<string, Value>) {
    "type" in fields && fields["type"] == Str("data")
    && "id" in fields && fields["id"].Str? && "event" in fields && fields["event"].Str?
  }

  /** A well-formed "get" frame: a string `id_ret`. */
  predicate IsGetFrame(fields: map<string, Value>) {
    "type" in fields && fields["type"] == Str("get") && "id_ret" in fields && fields["id_ret"].Str?
  }

  /** The body of the loop for a frame that decoded to `fields`, given the
      component drivers and pending-query channels registered for the session. */
  function Classify(fields: map<string, Value>, drivers: set<string>, channels: set<string>): (o: Outcome)
    ensures "type" !in fields ==> o == Ignored
    ensures "type" in fields && fields["type"] != Str("data") && fields["type"] != Str("get") ==> o == Ignored
    ensures o.Dispatch? && o.effect.ExecuteEvent? <==> IsDataFrame(fields) && fields["id"].s in drivers
    ensures o.Dispatch? && o.effect.ExecuteEvent? ==>
      o.effect == ExecuteEvent(fields["id"].s, fields["event"].s, Lookup(fields, "data"))
    ensures o.Dispatch? && o.effect.ChannelSend? <==> IsGetFrame(fields) && fields["id_ret"].s in channels
    ensures o.Dispatch? && o.effect.ChannelSend? ==>
      o.effect == ChannelSend(fields["id_ret"].s, Lookup(fields, "data"))
    ensures o.Block? <==> IsGetFrame(fields) && fields["id_ret"].s !in channels
    ensures o.Block? ==> o.channel == fields["id_ret"].s
    ensures o == Panic <==>
      "type" in fields &&
      ((fields["type"] == Str("data") && !(IsDataFrame(fields) && fields["id"].s in drivers)) ||
       (fields["type"] == Str("get") && !("id_ret" in fields && fields["id_ret"].Str?)))
  {
    if "type" !in fields then Ignored
    else
      var param := Lookup(fields, "data");
      if fields["type"] == Str("data") then
        match StringField(fields, "id")
        case None => Panic
        case Some(id) =>
          match StringField(fields, "event")
          case None => Panic
          case Some(event) => if id in drivers then Dispatch(ExecuteEvent(id, event, param)) else Panic
      else if fields["type"] == Str("get") then
        match StringField(fields, "id_ret")
        case None => Panic
        case Some(idRet) => if idRet in channels then Dispatch(ChannelSend(idRet, param)) else Block(idRet)
      else Ignored
  }

  /** What the read loop does with `frames`: the dispatches it makes, in order,
      and how it stops. */
  function Dispatched(frames: seq<Inbound>, drivers: set<string>, channels: set<string>): (r: LoopResult)
    ensures |r.effects| <= |frames|
    ensures forall i :: 0 <= i < |r.effects| && r.effects[i].ExecuteEvent? ==> r.effects[i].driver in drivers
    ensures forall i :: 0 <= i < |r.effects| && r.effects[i].ChannelSend? ==> r.effects[i].channel in channels
    decreases |frames|
  {
    if frames == [] then LoopResult([], AwaitingFrame)
    else match frames[0]
      case ReadFailure => LoopResult([], ReadFailed)
      case Received(Malformed) => Dispatched(frames[1..], drivers, channels)
      case Received(Object(fields)) =>
        match Classify(fields, drivers, channels)
        case Ignored => Dispatched(frames[1..], drivers, channels)
        case Dispatch(e) =>
          var rest := Dispatched(frames[1..], drivers, channels);
          LoopResult([e] + rest.effects, rest.end)
        case Panic => LoopResult([], Panicked)
        case Block(c) => LoopResult([], Blocked(c))
  }

  /** A frame the loop passes over: undecodable, or decoded without a type the
      loop acts on. */
  predicate Skipped(f: Inbound, drivers: set<string>, channels: set<string>) {
    f.Received? && (f.frame.Malformed? || Classify(f.frame.fields, drivers, channels) == Ignored)
  }

  /** Skipped frames leave no trace: the loop goes on with what follows them. */
  lemma {:induction false} SkippedFramesVanish(skipped: seq<Inbound>, rest: seq<Inbound>, drivers: set<string>, channels: set<string>)
    requires forall i :: 0 <= i < |skipped| ==> Skipped(skipped[i], drivers, channels)
    ensures Dispatched(skipped + rest, drivers, channels) == Dispatched(rest, drivers, channels)
  {
    if skipped == [] {
      assert skipped + rest == rest;
    } else {
      var f := skipped[0];
      assert (skipped + rest)[0] == f;
      assert f.Received?;
      if f.frame.Object? {
        assert Classify(f.frame.fields, drivers, channels) == Ignored;
      }
      assert (skipped + rest)[1..] == skipped[1..] + rest;
      assert Dispatched(skipped + rest, drivers, channels) == Dispatched(skipped[1..] + rest, drivers, channels);
      SkippedFramesVanish(skipped[1..], rest, drivers, channels);
    }
  }

  /** Frames are handled one after the other: while the loop is waiting, the
      next frames only add their own dispatches; once it has stopped, later
      frames are never read. */
  lemma {:induction false} DispatchedConcat(a: seq<Inbound>, b: seq<Inbound>, drivers: set<string>, channels: set<string>)
    ensures Dispatched(a, drivers, channels).end == AwaitingFrame ==>
      Dispatched(a + b, drivers, channels)
        == LoopResult(Dispatched(a, drivers, channels).effects + Dispatched(b, drivers, channels).effects,
                      Dispatched(b, drivers, channels).end)
    ensures Dispatched(a, drivers, channels).end != AwaitingFrame ==>
      Dispatched(a + b, drivers, channels) == Dispatched(a, drivers, channels)
  {
    if a == [] {
      assert a + b == b;
    } else {
      assert (a + b)[0] == a[0];
      assert (a + b)[1..] == a[1..] + b;
      DispatchedConcat(a[1..], b, drivers, channels);
      var ra, rb := Dispatched(a[1..], drivers, channels), Dispatched(b, drivers, channels);
      if a[0].Received? && a[0].frame.Object? {
        match Classify(a[0].frame.fields, drivers, channels)
        case Dispatch(e) =>
          if ra.end == AwaitingFrame {
            assert [e] + (ra.effects + rb.effects) == [e] + ra.effects + rb.effects;
          }
        case _ =>
      }
    }
  }

  /** A read error ends the loop: the dispatches made before it stand, and no
      later frame is read. */
  lemma ReadErrorEndsLoop(a: seq<Inbound>, b: seq<Inbound>, drivers: set<string>, channels: set<string>)
    requires Dispatched(a, drivers, channels).end == AwaitingFrame
    ensures Dispatched(a + [ReadFailure] + b, drivers, channels)
      == LoopResult(Dispatched(a, drivers, channels).effects, ReadFailed)
  {
    StopsAt(a, ReadFailure, b, drivers, channels);
  }

  /** A frame that panics (a failed type assertion, or the nil driver of an
      unknown id) ends the loop with the panic, after the dispatches made
      before it; no later frame is read. */
  lemma PanicEndsLoop(a: seq<Inbound>, fields: map<string, Value>, b: seq<Inbound>, drivers: set<string>, channels: set<string>)
    requires Dispatched(a, drivers, channels).end == AwaitingFrame
    requires Classify(fields, drivers, channels) == Panic
    ensures Dispatched(a + [Received(Object(fields))] + b, drivers, channels)
      == LoopResult(Dispatched(a, drivers, channels).effects, Panicked)
  {
    StopsAt(a, Received(Object(fields)), b, drivers, channels);
  }

  /** A "get" frame whose `id_ret` has no pending query blocks the loop for
      good on that channel; no later frame is read. */
  lemma UnknownQueryBlocksLoop(a: seq<Inbound>, fields: map<string, Value>, b: seq<Inbound>, drivers: set<string>, channels: set<string>)
    requires Dispatched(a, drivers, channels).end == AwaitingFrame
    requires IsGetFrame(fields) && fields["id_ret"].s !in channels
    ensures Dispatched(a + [Received(Object(fields))] + b, drivers, channels)
      == LoopResult(Dispatched(a, drivers, channels).effects, Blocked(fields["id_ret"].s))
  {
    StopsAt(a, Received(Object(fields)), b, drivers, channels);
  }

  /** The frames after `a`: frame `f` is read next, and if it stops the loop
      the rest is never read. */
  lemma StopsAt(a: seq<Inbound>, f: Inbound, b: seq<Inbound>, drivers: set<string>, channels: set<string>)
    requires Dispatched(a, drivers, channels).end == AwaitingFrame
    requires Dispatched([f], drivers, channels).end != AwaitingFrame
    ensures Dispatched(a + [f] + b, drivers, channels)
      == LoopResult(Dispatched(a, drivers, channels).effects, Dispatched([f], drivers, channels).end)
  {
    assert a + [f] + b == a + ([f] + b);
    DispatchedConcat(a, [f] + b, drivers, channels);
    DispatchedConcat([f], b, drivers, channels);
    assert Dispatched([f], drivers, channels).effects == [];
    assert Dispatched(a, drivers, channels).effects + [] == Dispatched(a, drivers, channels).effects;
  }

  /** A well-formed "data" frame for a registered driver executes its event
      exactly once, on that driver, with the frame's `data` as payload. */
  lemma DataFrameExecutesOnce(fields: map<string, Value>, drivers: set<string>, channels: set<string>)
    requires IsDataFrame(fields) && fields["id"].s in drivers
    ensures Dispatched([Received(Object(fields))], drivers, channels)
      == LoopResult([ExecuteEvent(fields["id"].s, fields["event"].s, Lookup(fields, "data"))], AwaitingFrame)
  {
    assert [Received(Object(fields))][1..] == [];
  }

  /** A well-formed "get" frame for a pending query sends the frame's `data` to
      that query's channel and nowhere else. */
  lemma GetFrameDeliversToIdRet(fields: map<string, Value>, drivers: set<string>, channels: set<string>)
    requires IsGetFrame(fields) && fields["id_ret"].s in channels
    ensures Dispatched([Received(Object(fields))], drivers, channels)
      == LoopResult([ChannelSend(fields["id_ret"].s, Lookup(fields, "data"))], AwaitingFrame)
  {
    assert [Received(Object(fields))][1..] == [];
  }

  /** Prepends the dispatches already made to the result of the remaining frames. */
  function After(done: seq<Effect>, rest: LoopResult): LoopResult {
    LoopResult(done + rest.effects, rest.end)
  }

  /** The read loop of the websocket handler over the frames the connection
      delivers. */
  method ReadLoop(frames: seq<Inbound>, drivers: set<string>, channels: set<string>)
    returns (effects: seq<Effect>, end: LoopEnd)
    ensures LoopResult(effects, end) == Dispatched(frames, drivers, channels)
  {
    effects := [];
    end := AwaitingFrame;
    var i := 0;
    while i < |frames|
      invariant 0 <= i <= |frames|
      invariant After(effects, Dispatched(frames[i..], drivers, channels)) == Dispatched(frames, drivers, channels)
    {
      assert frames[i..][0] == frames[i];
      assert frames[i..][1..] == frames[i + 1..];
      var frame := frames[i];
      if frame.ReadFailure? {
        end := ReadFailed;
        assert effects + [] == effects;
        break;
      }
      if frame.frame.Malformed? {
        i := i + 1;
        continue;
      }
      var fields := frame.frame.fields;
      match Classify(fields, drivers, channels) {
        case Ignored =>
        case Dispatch(e) =>
          ghost var rest := Dispatched(frames[i + 1..], drivers, channels);
          assert effects + ([e] + rest.effects) == (effects + [e]) + rest.effects;
          effects := effects + [e];
        case Panic =>
          end := Panicked;
          assert effects + [] == effects;
          return;
        case Block(c) =>
          end := Blocked(c);
          assert effects + [] == effects;
          return;
      }
      i := i + 1;
    }
    if i == |frames| {
      assert frames[i..] == [];
      assert effects + [] == effects;
    }
  }

  /** The root component seen by the teardown: a `*Layout` with its destroy
      callbacks, or some other component (the type assertion then panics). */
  datatype Root = NotALayout | LayoutRoot(destroy: Handler, internal: Handler)

  function RootOf(root: Layout?): (r: Root)
    reads root
    ensures r.LayoutRoot? <==> root != null
  {
    if root == null then NotALayout else LayoutRoot(root.handlerEventDestroy, root.handlerInternalDestroy)
  }

  /** One step of the deferred teardown. `RecoveredPanic` is a panic caught by
      the `recover` that wraps both destroy callbacks; nothing after it in that
      scope runs. */
  datatype TeardownStep =
    | Unregister(id: string)
    | CallEventDestroy(h: Handler, id: string)
    | CallInternalDestroy(h: Handler)
    | RecoveredPanic

  /** The deferred teardown for the root whose component id is `id`. */
  function TeardownSteps(id: string, root: Root): (steps: seq<TeardownStep>)
    ensures 2 <= |steps| <= 3 && steps[0] == Unregister(id)
    ensures forall i :: 1 <= i < |steps| ==> !steps[i].Unregister?
    ensures steps[1].CallEventDestroy? <==> root.LayoutRoot? && root.destroy != Nil
    ensures steps[1].CallEventDestroy? ==> root.LayoutRoot? && steps[1] == CallEventDestroy(root.destroy, id)
    ensures |steps| == 3 <==> root.LayoutRoot? && root.destroy != Nil
    ensures steps[|steps| - 1].CallInternalDestroy? <==> root.LayoutRoot? && root.destroy != Nil && root.internal != Nil
    ensures steps[|steps| - 1].CallInternalDestroy? ==> root.LayoutRoot? && steps[2] == CallInternalDestroy(root.internal)
    ensures RecoveredPanic in steps <==> !(root.LayoutRoot? && root.destroy != Nil && root.internal != Nil)
  {
    match root
    case NotALayout => [Unregister(id), RecoveredPanic]
    case LayoutRoot(destroy, internal) =>
      if destroy == Nil then [Unregister(id), RecoveredPanic]
      else
        var last := if internal == Nil then RecoveredPanic else CallInternalDestroy(internal);
        [Unregister(id), CallEventDestroy(destroy, id), last]
  }

  /** A layout built by `NewLayout` and never given other destroy callbacks is
      torn down completely: unregistered, its empty destroy callback called with
      its id, then its quit channel closed. */
  lemma DefaultLayoutTeardown(id: string)
    ensures TeardownSteps(id, LayoutRoot(NoOp, CloseQuit))
      == [Unregister(id), CallEventDestroy(NoOp, id), CallInternalDestroy(CloseQuit)]
  {
  }

  /** The deferred teardown: remove `id` from the registry, then call the
      root's destroy callbacks inside one recovered scope. */
  method Teardown(registry: Registry, id: string, root: Layout?) returns (steps: seq<TeardownStep>)
    requires registry.Valid()
    modifies registry
    ensures registry.Valid()
    ensures registry.layouts == old(registry.layouts) - {id}
    ensures steps == TeardownSteps(id, RootOf(root))
  {
    registry.DeleteLayout(id);
    steps := [Unregister(id)];
    if root == null {
      steps := steps + [RecoveredPanic];
      return;
    }
    if root.handlerEventDestroy == Nil {
      steps := steps + [RecoveredPanic];
      return;
    }
    steps := steps + [CallEventDestroy(root.handlerEventDestroy, id)];
    if root.handlerInternalDestroy == Nil {
      steps := steps + [RecoveredPanic];
      return;
    }
    steps := steps + [CallInternalDestroy(root.handlerInternalDestroy)];
  }

  /** The handler function returns, normally or by a panic, so its deferred
      teardown runs. */
  predicate Returns(end: LoopEnd) {
    end.ReadFailed? || end.Panicked?
  }

  /** One connection: the read loop over `frames`, then the teardown of the
      root `root` whose component id is `rootId` when the handler returns. */
  method Serve(registry: Registry, root: Layout?, rootId: string, drivers: set<string>, channels: set<string>,
               frames: seq<Inbound>)
    returns (effects: seq<Effect>, end: LoopEnd, steps: seq<TeardownStep>)
    requires registry.Valid()
    modifies registry
    ensures registry.Valid()
    ensures LoopResult(effects, end) == Dispatched(frames, drivers, channels)
    ensures Returns(end) ==> steps == TeardownSteps(rootId, RootOf(root))
    ensures Returns(end) ==> registry.layouts == old(registry.layouts) - {rootId}
    ensures !Returns(end) ==> steps == [] && registry.layouts == old(registry.layouts)
  {
    effects, end := ReadLoop(frames, drivers, channels);
    steps := [];
    if Returns(end) {
      steps := Teardown(registry, rootId, root);
    }
  }
}
