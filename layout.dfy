/** The process-wide layout registry of liveview/view/layout.go: the `Layout`
    record with its callback slots, the `Layaouts` map, and the two broadcast
    operations. Locks are left out: every operation runs on its own. */
module Layouts {
  import opened Values
  import opened Utils
  import Files

  /** One hour as a Go `time.Duration` (nanoseconds). */
  const Hour: int := 3600 * 1000000000

  /** The repeating-callback interval a new layout starts with. */
  const DefaultInterval: int := 24 * Hour

  /** The message of the first-contact notification. */
  const FirstTimeMessage: Value := Str("FIRST_TIME")

  /** What a callback slot of a layout holds. `Nil` is Go's nil func, `App(tag)`
      stands for a function the application installed, and the other three are
      the closures `NewLayout` installs: the empty function, the one that sends
      "FIRST_TIME" to the layout `uid`, and the one that closes the scheduler's
      quit channel. */
  datatype Handler =
    | Nil
    | NoOp
    | App(tag: string)
    | SendFirstTimeTo(uid: string)
    | CloseQuit

  /** One call of a layout's inbound-event callback with a message. */
  datatype Delivery = Delivery(target: string, handler: Handler, msg: Value)

  /** The identifiers reached by `ds`, in delivery order. */
  function Targets(ds: seq<Delivery>): seq<string> {
    seq(|ds|, i requires 0 <= i < |ds| => ds[i].target)
  }

  /** The root of one session. Its identifier never changes once built. */
  class Layout {
    const uuid: string
    var html: string
    var handlerEventIn: Handler
    var handlerEventTime: Handler
    var handlerEventDestroy: Handler
    var handlerInternalDestroy: Handler
    var handlerFirstTime: Handler
    var intervalEventTime: int

    /** The state `NewLayout` gives a layout it creates. */
    ghost predicate HasDefaults(uid: string, contents: string)
      reads this
    {
      && uuid == uid
      && html == contents
      && intervalEventTime == DefaultInterval
      && handlerFirstTime == SendFirstTimeTo(uid)
      && handlerEventIn == NoOp
      && handlerEventDestroy == NoOp
      && handlerInternalDestroy == CloseQuit
      && handlerEventTime == Nil
    }

    constructor (uid: string, contents: string)
      ensures HasDefaults(uid, contents)
    {
      uuid := uid;
      html := contents;
      intervalEventTime := DefaultInterval;
      handlerFirstTime := SendFirstTimeTo(uid);
      handlerEventIn := NoOp;
      handlerEventDestroy := NoOp;
      handlerInternalDestroy := CloseQuit;
      handlerEventTime := Nil;
    }

    method SetHandlerFirstTime(fx: Handler)
      modifies this
      ensures handlerFirstTime == fx
      ensures html == old(html) && intervalEventTime == old(intervalEventTime)
      ensures handlerEventIn == old(handlerEventIn) && handlerEventTime == old(handlerEventTime)
      ensures handlerEventDestroy == old(handlerEventDestroy)
      ensures handlerInternalDestroy == old(handlerInternalDestroy)
    {
      handlerFirstTime := fx;
    }

    method SetHandlerEventIn(fx: Handler)
      modifies this
      ensures handlerEventIn == fx
      ensures html == old(html) && intervalEventTime == old(intervalEventTime)
      ensures handlerFirstTime == old(handlerFirstTime) && handlerEventTime == old(handlerEventTime)
      ensures handlerEventDestroy == old(handlerEventDestroy)
      ensures handlerInternalDestroy == old(handlerInternalDestroy)
    {
      handlerEventIn := fx;
    }

    /** Sets the interval and the repeating callback together. */
    method SetHandlerEventTime(interval: int, fx: Handler)
      modifies this
      ensures intervalEventTime == interval && handlerEventTime == fx
      ensures html == old(html)
      ensures handlerFirstTime == old(handlerFirstTime) && handlerEventIn == old(handlerEventIn)
      ensures handlerEventDestroy == old(handlerEventDestroy)
      ensures handlerInternalDestroy == old(handlerInternalDestroy)
    {
      intervalEventTime := interval;
      handlerEventTime := fx;
    }

    method SetHandlerEventDestroy(fx: Handler)
      modifies this
      ensures handlerEventDestroy == fx
      ensures html == old(html) && intervalEventTime == old(intervalEventTime)
      ensures handlerFirstTime == old(handlerFirstTime) && handlerEventIn == old(handlerEventIn)
      ensures handlerEventTime == old(handlerEventTime)
      ensures handlerInternalDestroy == old(handlerInternalDestroy)
    {
      handlerEventDestroy := fx;
    }
  }

  /** The identifiers of a snapshot of layouts, in snapshot order. */
  function Uuids(ls: seq<Layout>): seq<string> {
    seq(|ls|, i requires 0 <= i < |ls| => ls[i].uuid)
  }

  /** The identifiers of `ids` that are registered, in the order and with the
      multiplicity they have in `ids`: whom `SendToLayouts` reaches. */
  function Known(ids: seq<string>, registered: set<string>): (r: seq<string>)
    ensures |r| <= |ids|
    ensures forall x :: x in r ==> x in registered && x in ids
  {
    if ids == [] then []
    else (if ids[0] in registered then [ids[0]] else []) + Known(ids[1..], registered)
  }

  /** Filtering distributes over concatenation, so the order of `ids` is kept. */
  lemma {:induction false} KnownConcat(a: seq<string>, b: seq<string>, registered: set<string>)
    ensures Known(a + b, registered) == Known(a, registered) + Known(b, registered)
  {
    if a == [] {
      assert a + b == b;
    } else {
      assert (a + b)[1..] == a[1..] + b;
      KnownConcat(a[1..], b, registered);
    }
  }

  /** Every occurrence of a registered identifier is kept, and no occurrence of
      an unknown one. */
  lemma {:induction false} KnownCount(ids: seq<string>, registered: set<string>, x: string)
    ensures multiset(Known(ids, registered))[x] == if x in registered then multiset(ids)[x] else 0
  {
    if ids != [] {
      KnownCount(ids[1..], registered, x);
      assert ids == [ids[0]] + ids[1..];
    }
  }

  /** A registered identifier is reached exactly when the argument list contains it. */
  lemma KnownIsContains(ids: seq<string>, registered: set<string>, x: string)
    ensures x in Known(ids, registered) <==> x in registered && ContainsString(ids, x)
  {
    KnownCount(ids, registered, x);
    ContainsIsMembership(ids, x);
  }

  /** When every identifier is registered, every one is reached, in order. */
  lemma {:induction false} KnownAllRegistered(ids: seq<string>, registered: set<string>)
    requires forall i :: 0 <= i < |ids| ==> ids[i] in registered
    ensures Known(ids, registered) == ids
  {
    if ids != [] {
      KnownAllRegistered(ids[1..], registered);
    }
  }

  lemma UuidsSnoc(ls: seq<Layout>, l: Layout)
    ensures Uuids(ls + [l]) == Uuids(ls) + [l.uuid]
  {
  }

  /** Moving `k` from the set still to copy to the copied ids keeps their
      union the same multiset. */
  lemma SnapshotStep(ids: seq<string>, remaining: set<string>, all: set<string>, k: string)
    requires k in remaining
    requires multiset(ids) + multiset(remaining) == multiset(all)
    ensures multiset(ids + [k]) + multiset(remaining - {k}) == multiset(all)
  {
    assert multiset(remaining) == multiset(remaining - {k}) + multiset{k};
  }

  /** The global `Layaouts` map from session identifier to layout. */
  class Registry {
    var layouts: map<string, Layout>

    /** Each layout is registered under its own identifier. */
    ghost predicate Valid()
      reads this
    {
      forall k :: k in layouts ==> layouts[k].uuid == k
    }

    constructor ()
      ensures Valid() && layouts == map[]
    {
      layouts := map[];
    }

    /** Removes `uid`; an identifier that is not registered is left alone. */
    method DeleteLayout(uid: string)
      requires Valid()
      modifies this
      ensures Valid()
      ensures layouts == old(layouts) - {uid}
      ensures uid !in old(layouts) ==> layouts == old(layouts)
    {
      if uid in layouts {
        layouts := layouts - {uid};
      }
    }

    /** Returns the registered layout under `uid` if there is one and changes
        nothing; otherwise registers a new layout with the default callbacks.
        `files` stands for the file system: a `contents` naming an existing file
        is replaced by that file's text. */
    method NewLayout(uid: string, contents: string, files: map<string, string>) returns (l: Layout)
      requires Valid()
      modifies this
      ensures Valid()
      ensures uid in old(layouts) ==> l == old(layouts)[uid] && layouts == old(layouts)
      ensures uid !in old(layouts) ==> fresh(l) && layouts == old(layouts)[uid := l]
      ensures uid !in old(layouts) ==> l.HasDefaults(uid, Files.ContentsOrSelf(files, contents))
    {
      if uid in layouts {
        l := layouts[uid];
        return;
      }
      var html := Files.ContentsOrSelf(files, contents);
      l := new Layout(uid, html);
      layouts := layouts[uid := l];
    }

    /** Calls the inbound-event callback of every layout in `snapshot`, in order. */
    method Deliver(snapshot: seq<Layout>, msg: Value) returns (ds: seq<Delivery>)
      ensures |ds| == |snapshot|
      ensures forall i :: 0 <= i < |ds| ==> ds[i] == Delivery(snapshot[i].uuid, snapshot[i].handlerEventIn, msg)
    {
      ds := [];
      for i := 0 to |snapshot|
        invariant |ds| == i
        invariant forall j :: 0 <= j < i ==> ds[j] == Delivery(snapshot[j].uuid, snapshot[j].handlerEventIn, msg)
      {
        ds := ds + [Delivery(snapshot[i].uuid, snapshot[i].handlerEventIn, msg)];
      }
    }

    /** Every layout of `snapshot` is the one registered under its identifier. */
    ghost predicate FromRegistry(snapshot: seq<Layout>)
      reads this
    {
      forall j :: 0 <= j < |snapshot| ==> snapshot[j].uuid in layouts && layouts[snapshot[j].uuid] == snapshot[j]
    }

    /** The copy loop of `SendToAllLayouts`: every registered layout, once each,
        in the unspecified order of Go's map iteration. */
    method SnapshotAll() returns (snapshot: seq<Layout>)
      requires Valid()
      ensures FromRegistry(snapshot)
      ensures multiset(Uuids(snapshot)) == multiset(layouts.Keys)
    {
      snapshot := [];
      var remaining := layouts.Keys;
      while remaining != {}
        invariant remaining <= layouts.Keys
        invariant FromRegistry(snapshot)
        invariant multiset(Uuids(snapshot)) + multiset(remaining) == multiset(layouts.Keys)
        decreases remaining
      {
        var k :| k in remaining;
        var l := layouts[k];
        UuidsSnoc(snapshot, l);
        SnapshotStep(Uuids(snapshot), remaining, layouts.Keys, k);
        snapshot := snapshot + [l];
        remaining := remaining - {k};
      }
    }

    /** Snapshots every registered layout, then delivers `msg` to each: every
        registered identifier is reached exactly once. */
    method SendToAllLayouts(msg: Value) returns (ds: seq<Delivery>)
      requires Valid()
      ensures multiset(Targets(ds)) == multiset(layouts.Keys)
      ensures |ds| == |layouts|
      ensures forall i :: 0 <= i < |ds| ==> ds[i].target in layouts
      ensures forall i :: 0 <= i < |ds| ==> ds[i].msg == msg && ds[i].handler == layouts[ds[i].target].handlerEventIn
    {
      var snapshot := SnapshotAll();
      ds := Deliver(snapshot, msg);
      assert Targets(ds) == Uuids(snapshot);
      assert |multiset(layouts.Keys)| == |layouts.Keys|;
      assert |multiset(Targets(ds))| == |ds|;
    }

    /** The copy loop of `SendToLayouts`: the registered layouts among `uuids`,
        in argument order, once per occurrence. */
    method SnapshotSome(uuids: seq<string>) returns (snapshot: seq<Layout>)
      requires Valid()
      ensures FromRegistry(snapshot)
      ensures Uuids(snapshot) == Known(uuids, layouts.Keys)
    {
      snapshot := [];
      for i := 0 to |uuids|
        invariant FromRegistry(snapshot)
        invariant Uuids(snapshot) == Known(uuids[..i], layouts.Keys)
      {
        var uid := uuids[i];
        assert uuids[..i + 1] == uuids[..i] + [uid];
        KnownConcat(uuids[..i], [uid], layouts.Keys);
        if uid in layouts {
          UuidsSnoc(snapshot, layouts[uid]);
          snapshot := snapshot + [layouts[uid]];
        } else {
          assert Known([uid], layouts.Keys) == [];
        }
      }
      assert uuids[..|uuids|] == uuids;
    }

    /** Delivers `msg` to the registered layouts named in `uuids`; unknown
        identifiers are skipped. */
    method SendToLayouts(msg: Value, uuids: seq<string>) returns (ds: seq<Delivery>)
      requires Valid()
      ensures Targets(ds) == Known(uuids, layouts.Keys)
      ensures forall i :: 0 <= i < |ds| ==> ds[i].target in layouts
      ensures forall i :: 0 <= i < |ds| ==> ds[i].msg == msg && ds[i].handler == layouts[ds[i].target].handlerEventIn
    {
      var snapshot := SnapshotSome(uuids);
      ds := Deliver(snapshot, msg);
      assert Targets(ds) == Uuids(snapshot);
    }

    /** The first-contact closure `NewLayout` installs: it notifies its own
        layout, and nobody else, when that layout is still registered. */
    method FirstTimeToOwner(uid: string) returns (ds: seq<Delivery>)
      requires Valid()
      ensures uid in layouts ==> ds == [Delivery(uid, layouts[uid].handlerEventIn, FirstTimeMessage)]
      ensures uid !in layouts ==> ds == []
    {
      ds := SendToLayouts(FirstTimeMessage, [uid]);
      assert Known([uid], layouts.Keys) == if uid in layouts then [uid] else [];
    }
  }
}

/** Two sessions share the registry: a broadcast reaches both; once one of
    them is deleted, the next broadcast reaches only the other. */
module LayoutsScenario {
  import opened Values
  import opened Layouts

  method TwoSessionsBroadcast() returns (first: seq<Delivery>, second: seq<Delivery>)
    ensures multiset(Targets(first)) == multiset{"s1", "s2"}
    ensures forall i :: 0 <= i < |first| ==> first[i].msg == Str("NEW_USER")
    ensures Targets(second) == ["s1"] && second[0].msg == Str("X")
  {
    var registry := new Registry();
    var s1 := registry.NewLayout("s1", "", map[]);
    var s2 := registry.NewLayout("s2", "", map[]);
    assert registry.layouts.Keys == {"s1", "s2"};
    first := registry.SendToAllLayouts(Str("NEW_USER"));
    registry.DeleteLayout("s2");
    assert registry.layouts.Keys == {"s1"};
    second := registry.SendToAllLayouts(Str("X"));
    assert |second| == 1;
    assert Targets(second)[0] in multiset(Targets(second));
  }
}
