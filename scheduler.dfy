/** The control loop `NewLayout` starts for each layout: a `select` over the
    quit channel, the 250ms first-contact ticker and the interval ticker. Time
    is replaced by a finite sequence of events, each one the case the `select`
    picked, or a setter call the application made between two of them; the
    loop handles them one at a time. */
module Scheduler {
  import opened Layouts

  /** A case of the `select`, or an application call of a setter of the layout
      while the loop runs. */
  datatype Event =
    | Quit
    | FirstTimeTick
    | IntervalTick
    | SetFirstTime(h: Handler)
    | SetEventTime(interval: int, h: Handler)

  /** The slots of the layout the loop reads when a ticker fires. */
  datatype Callbacks = Callbacks(firstTime: Handler, eventTime: Handler, interval: int)

  function CallbacksOf(l: Layout): Callbacks
    reads l
  {
    Callbacks(l.handlerFirstTime, l.handlerEventTime, l.intervalEventTime)
  }

  /** The slots after event `e`: a setter replaces its own slots, nothing else
      touches them. */
  function Apply(cb: Callbacks, e: Event): (cb': Callbacks)
    ensures e.SetFirstTime? ==> cb' == cb.(firstTime := e.h)
    ensures e.SetEventTime? ==> cb' == cb.(eventTime := e.h, interval := e.interval)
    ensures !e.SetFirstTime? && !e.SetEventTime? ==> cb' == cb
  {
    match e
    case SetFirstTime(h) => cb.(firstTime := h)
    case SetEventTime(interval, h) => cb.(eventTime := h, interval := interval)
    case _ => cb
  }

  /** What the loop does on an event. */
  datatype Action =
    | CallFirstTime(h: Handler)   // the layout's first-contact callback
    | BroadcastFirstTime          // fallback for a nil first-contact callback: "FIRST_TIME" to every layout
    | CallEventTime(h: Handler)   // the layout's repeating callback
    | NilEventTimePanic           // calling a nil repeating callback: the goroutine panics

  /** The first-contact action for the callback slot `h`. */
  function FirstContact(h: Handler): (a: Action)
    ensures a.BroadcastFirstTime? <==> h == Nil
    ensures h != Nil ==> a == CallFirstTime(h)
  {
    if h == Nil then BroadcastFirstTime else CallFirstTime(h)
  }

  predicate IsFirstContact(a: Action) {
    a.CallFirstTime? || a.BroadcastFirstTime?
  }

  /** The actions the loop takes on `events`, starting from the slots `cb`,
      while `pending` says the first contact has not fired yet. */
  function Trace(cb: Callbacks, pending: bool, events: seq<Event>): (t: seq<Action>)
    ensures |t| <= |events|
    decreases |events|
  {
    if events == [] then []
    else match events[0]
      case Quit => []
      case FirstTimeTick =>
        if pending then [FirstContact(cb.firstTime)] + Trace(cb, false, events[1..])
        else Trace(cb, pending, events[1..])
      case IntervalTick =>
        if cb.eventTime == Nil then [NilEventTimePanic]
        else [CallEventTime(cb.eventTime)] + Trace(cb, pending, events[1..])
      case _ => Trace(Apply(cb, events[0]), pending, events[1..])
  }

  /** The slots when the loop stops (on quit, on a panic, or when the events
      run out). */
  function Final(cb: Callbacks, events: seq<Event>): Callbacks
    decreases |events|
  {
    if events == [] then cb
    else match events[0]
      case Quit => cb
      case IntervalTick => if cb.eventTime == Nil then cb else Final(cb, events[1..])
      case _ => Final(Apply(cb, events[0]), events[1..])
  }

  /** What any trace looks like: a first-contact call or a repeating call only
      ever runs a non-nil callback, and a panic on a nil repeating callback can
      only come last. */
  predicate CallsNonNil(t: seq<Action>) {
    && (forall i :: 0 <= i < |t| && t[i].CallFirstTime? ==> t[i].h != Nil)
    && (forall i :: 0 <= i < |t| && t[i].CallEventTime? ==> t[i].h != Nil)
    && (forall i :: 0 <= i < |t| - 1 ==> !t[i].NilEventTimePanic?)
  }

  lemma CallsNonNilCons(a: Action, t: seq<Action>)
    requires CallsNonNil(t)
    requires a.CallFirstTime? ==> a.h != Nil
    requires a.CallEventTime? ==> a.h != Nil
    requires !a.NilEventTimePanic?
    ensures CallsNonNil([a] + t)
  {
    var t' := [a] + t;
    forall i | 1 <= i < |t'|
      ensures t'[i] == t[i - 1]
    {
    }
  }

  /** The loop never calls a nil callback: a nil first-contact callback falls
      back to the broadcast, and a nil repeating callback panics and ends it. */
  lemma {:induction false} TraceShape(cb: Callbacks, pending: bool, events: seq<Event>)
    ensures CallsNonNil(Trace(cb, pending, events))
    decreases |events|
  {
    if events != [] {
      match events[0]
      case Quit =>
      case FirstTimeTick =>
        TraceShape(cb, false, events[1..]);
        TraceShape(cb, pending, events[1..]);
        if pending {
          CallsNonNilCons(FirstContact(cb.firstTime), Trace(cb, false, events[1..]));
        }
      case IntervalTick =>
        if cb.eventTime != Nil {
          TraceShape(cb, pending, events[1..]);
          CallsNonNilCons(CallEventTime(cb.eventTime), Trace(cb, pending, events[1..]));
        }
      case _ =>
        TraceShape(Apply(cb, events[0]), pending, events[1..]);
    }
  }

  /** No setter runs during `events`. */
  predicate NoSetters(events: seq<Event>) {
    forall i :: 0 <= i < |events| ==> !events[i].SetFirstTime? && !events[i].SetEventTime?
  }

  /** Which callbacks a trace uses while the slots stay `cb`. */
  predicate UsesCallbacks(cb: Callbacks, t: seq<Action>) {
    && (forall i :: 0 <= i < |t| && IsFirstContact(t[i]) ==> t[i] == FirstContact(cb.firstTime))
    && (forall i :: 0 <= i < |t| && t[i].CallEventTime? ==> t[i].h == cb.eventTime)
  }

  lemma UsesCallbacksCons(cb: Callbacks, a: Action, t: seq<Action>)
    requires UsesCallbacks(cb, t)
    requires IsFirstContact(a) ==> a == FirstContact(cb.firstTime)
    requires a.CallEventTime? ==> a.h == cb.eventTime
    ensures UsesCallbacks(cb, [a] + t)
  {
    var t' := [a] + t;
    forall i | 1 <= i < |t'|
      ensures t'[i] == t[i - 1]
    {
    }
  }

  /** While no setter runs, every first contact is the one `FirstContact`
      picks for the current first-contact slot, and every repeating call runs
      the current repeating slot. */
  lemma {:induction false} FixedCallbacksShape(cb: Callbacks, pending: bool, events: seq<Event>)
    requires NoSetters(events)
    ensures UsesCallbacks(cb, Trace(cb, pending, events))
    decreases |events|
  {
    if events != [] {
      assert NoSetters(events[1..]);
      match events[0]
      case Quit =>
      case FirstTimeTick =>
        FixedCallbacksShape(cb, false, events[1..]);
        FixedCallbacksShape(cb, pending, events[1..]);
        if pending {
          UsesCallbacksCons(cb, FirstContact(cb.firstTime), Trace(cb, false, events[1..]));
        }
      case IntervalTick =>
        if cb.eventTime != Nil {
          FixedCallbacksShape(cb, pending, events[1..]);
          UsesCallbacksCons(cb, CallEventTime(cb.eventTime), Trace(cb, pending, events[1..]));
        }
    }
  }

  /** A setter changes what later ticks run: the loop goes on with the new slots. */
  lemma SetterTakesEffect(cb: Callbacks, pending: bool, e: Event, rest: seq<Event>)
    requires e.SetFirstTime? || e.SetEventTime?
    ensures Trace(cb, pending, [e] + rest) == Trace(Apply(cb, e), pending, rest)
  {
    assert ([e] + rest)[1..] == rest;
  }

  function CountFirstContacts(t: seq<Action>): nat {
    if t == [] then 0
    else (if IsFirstContact(t[0]) then 1 else 0) + CountFirstContacts(t[1..])
  }

  /** The first contact fires at most once, and never once it has fired,
      whatever the setters do. */
  lemma {:induction false} FirstContactAtMostOnce(cb: Callbacks, pending: bool, events: seq<Event>)
    ensures CountFirstContacts(Trace(cb, pending, events)) <= if pending then 1 else 0
    decreases |events|
  {
    if events != [] {
      var t := Trace(cb, pending, events);
      match events[0]
      case Quit =>
      case FirstTimeTick =>
        if pending {
          FirstContactAtMostOnce(cb, false, events[1..]);
          assert t[1..] == Trace(cb, false, events[1..]);
        } else {
          FirstContactAtMostOnce(cb, pending, events[1..]);
        }
      case IntervalTick =>
        if cb.eventTime != Nil {
          FirstContactAtMostOnce(cb, pending, events[1..]);
          assert t[1..] == Trace(cb, pending, events[1..]);
        }
      case _ =>
        FirstContactAtMostOnce(Apply(cb, events[0]), pending, events[1..]);
    }
  }

  /** The loop is still running before event `k`: no quit so far, and no
      interval tick while the repeating slot was nil. */
  predicate RunningBefore(cb: Callbacks, events: seq<Event>, k: nat)
    requires k <= |events|
    decreases k
  {
    k == 0 ||
      (&& events[0] != Quit
       && (events[0] == IntervalTick ==> cb.eventTime != Nil)
       && RunningBefore(Apply(cb, events[0]), events[1..], k - 1))
  }

  /** A first-contact tick that reaches a running loop makes the first contact
      fire, exactly once. */
  lemma {:induction false} FirstContactFiresOnce(cb: Callbacks, events: seq<Event>, k: nat)
    requires k < |events| && events[k] == FirstTimeTick
    requires RunningBefore(cb, events, k)
    ensures CountFirstContacts(Trace(cb, true, events)) == 1
    decreases k
  {
    var t := Trace(cb, true, events);
    match events[0]
    case FirstTimeTick =>
      FirstContactAtMostOnce(cb, false, events[1..]);
      assert t[1..] == Trace(cb, false, events[1..]);
    case IntervalTick =>
      FirstContactFiresOnce(cb, events[1..], k - 1);
      assert t[1..] == Trace(cb, true, events[1..]);
    case SetFirstTime(_) =>
      FirstContactFiresOnce(Apply(cb, events[0]), events[1..], k - 1);
    case SetEventTime(_, _) =>
      FirstContactFiresOnce(Apply(cb, events[0]), events[1..], k - 1);
  }

  /** No callback runs after the quit event: whatever follows it is ignored. */
  lemma {:induction false} NothingAfterQuit(cb: Callbacks, pending: bool, before: seq<Event>, after: seq<Event>)
    ensures Trace(cb, pending, before + [Quit] + after) == Trace(cb, pending, before)
    decreases |before|
  {
    var all := before + [Quit] + after;
    if before == [] {
      assert all[0] == Quit;
    } else {
      assert all[0] == before[0];
      assert all[1..] == before[1..] + [Quit] + after;
      var p' := if before[0] == FirstTimeTick then false else pending;
      NothingAfterQuit(Apply(cb, before[0]), p', before[1..], after);
      NothingAfterQuit(cb, p', before[1..], after);
    }
  }

  /** What one event does to the loop: the actions it takes, whether the first
      contact is still pending afterwards, and whether the loop stops. */
  datatype Step = Step(actions: seq<Action>, pending: bool, stops: bool)

  function StepOf(cb: Callbacks, pending: bool, e: Event): (s: Step)
    ensures s.stops <==> e == Quit || (e == IntervalTick && cb.eventTime == Nil)
    ensures s.pending <==> pending && e != FirstTimeTick
    ensures |s.actions| <= 1
    ensures s.actions != [] <==> (e == FirstTimeTick && pending) || e == IntervalTick
    ensures e == FirstTimeTick && pending ==> s.actions == [FirstContact(cb.firstTime)]
    ensures e == IntervalTick ==>
      s.actions == [if cb.eventTime == Nil then NilEventTimePanic else CallEventTime(cb.eventTime)]
  {
    match e
    case Quit => Step([], pending, true)
    case FirstTimeTick =>
      if pending then Step([FirstContact(cb.firstTime)], false, false) else Step([], pending, false)
    case IntervalTick =>
      if cb.eventTime == Nil then Step([NilEventTimePanic], pending, true)
      else Step([CallEventTime(cb.eventTime)], pending, false)
    case _ => Step([], pending, false)
  }

  /** `Trace` and `Final` taken one event at a time: an event that does not
      stop the loop contributes its step, and the rest runs with the slots it
      left. */
  lemma TraceStep(cb: Callbacks, pending: bool, events: seq<Event>, i: nat)
    requires i < |events|
    requires !StepOf(cb, pending, events[i]).stops
    ensures Trace(cb, pending, events[i..])
      == StepOf(cb, pending, events[i]).actions
         + Trace(Apply(cb, events[i]), StepOf(cb, pending, events[i]).pending, events[i + 1..])
    ensures Final(cb, events[i..]) == Final(Apply(cb, events[i]), events[i + 1..])
  {
    assert events[i..][0] == events[i];
    assert events[i..][1..] == events[i + 1..];
  }

  /** An event that stops the loop contributes its step and nothing follows. */
  lemma TraceStop(cb: Callbacks, pending: bool, events: seq<Event>, i: nat)
    requires i < |events|
    requires StepOf(cb, pending, events[i]).stops
    ensures Trace(cb, pending, events[i..]) == StepOf(cb, pending, events[i]).actions
    ensures Final(cb, events[i..]) == cb
  {
    assert events[i..][0] == events[i];
  }

  /** The loop invariant of `Run` carried over one event that does not stop
      the loop. */
  lemma GoesOn(start: Callbacks, cb: Callbacks, pending: bool, events: seq<Event>, i: nat, done: seq<Action>)
    requires i < |events|
    requires done + Trace(cb, pending, events[i..]) == Trace(start, true, events)
    requires Final(cb, events[i..]) == Final(start, events)
    requires !StepOf(cb, pending, events[i]).stops
    ensures (done + StepOf(cb, pending, events[i]).actions)
      + Trace(Apply(cb, events[i]), StepOf(cb, pending, events[i]).pending, events[i + 1..])
      == Trace(start, true, events)
    ensures Final(Apply(cb, events[i]), events[i + 1..]) == Final(start, events)
  {
    TraceStep(cb, pending, events, i);
    Regroup(done, StepOf(cb, pending, events[i]).actions,
      Trace(Apply(cb, events[i]), StepOf(cb, pending, events[i]).pending, events[i + 1..]),
      Trace(cb, pending, events[i..]), Trace(start, true, events));
  }

  lemma Regroup(done: seq<Action>, actions: seq<Action>, rest: seq<Action>, here: seq<Action>, whole: seq<Action>)
    requires here == actions + rest && done + here == whole
    ensures (done + actions) + rest == whole
  {
  }

  /** The loop invariant of `Run` at an event that stops the loop. */
  lemma Stops(start: Callbacks, cb: Callbacks, pending: bool, events: seq<Event>, i: nat, done: seq<Action>)
    requires i < |events|
    requires done + Trace(cb, pending, events[i..]) == Trace(start, true, events)
    requires Final(cb, events[i..]) == Final(start, events)
    requires StepOf(cb, pending, events[i]).stops
    ensures done + StepOf(cb, pending, events[i]).actions == Trace(start, true, events)
    ensures cb == Final(start, events)
  {
    TraceStop(cb, pending, events, i);
  }

  /** One pass of the `select`: handle event `e` for layout `l`, reading the
      callback slots from `l`, and running a setter event through the
      layout's own setter. */
  method Tick(l: Layout, e: Event, pending: bool) returns (actions: seq<Action>, pending': bool, stops: bool)
    modifies l
    ensures Step(actions, pending', stops) == StepOf(old(CallbacksOf(l)), pending, e)
    ensures CallbacksOf(l) == Apply(old(CallbacksOf(l)), e)
    ensures l.html == old(l.html) && l.handlerEventIn == old(l.handlerEventIn)
    ensures l.handlerEventDestroy == old(l.handlerEventDestroy)
    ensures l.handlerInternalDestroy == old(l.handlerInternalDestroy)
  {
    actions, pending', stops := [], pending, false;
    match e {
      case Quit =>
        stops := true;
      case FirstTimeTick =>
        if pending {
          pending' := false;
          if l.handlerFirstTime != Nil {
            actions := [CallFirstTime(l.handlerFirstTime)];
          } else {
            actions := [BroadcastFirstTime];
          }
        }
      case IntervalTick =>
        if l.handlerEventTime == Nil {
          actions, stops := [NilEventTimePanic], true;
        } else {
          actions := [CallEventTime(l.handlerEventTime)];
        }
      case SetFirstTime(h) =>
        l.SetHandlerFirstTime(h);
      case SetEventTime(interval, h) =>
        l.SetHandlerEventTime(interval, h);
    }
  }

  /** The goroutine of `NewLayout` run over `events` for layout `l`. The
      callbacks are read from `l` each time a ticker fires, so a setter event
      changes what later ticks run. */
  method Run(l: Layout, events: seq<Event>) returns (trace: seq<Action>)
    modifies l
    ensures trace == Trace(old(CallbacksOf(l)), true, events)
    ensures CallbacksOf(l) == Final(old(CallbacksOf(l)), events)
    ensures l.html == old(l.html) && l.handlerEventIn == old(l.handlerEventIn)
    ensures l.handlerEventDestroy == old(l.handlerEventDestroy)
    ensures l.handlerInternalDestroy == old(l.handlerInternalDestroy)
  {
    ghost var start := CallbacksOf(l);
    ghost var cb := start;
    var firstTime := true;
    trace := [];
    var i := 0;
    while i < |events|
      invariant 0 <= i <= |events|
      invariant cb == CallbacksOf(l)
      invariant trace + Trace(cb, firstTime, events[i..]) == Trace(start, true, events)
      invariant Final(cb, events[i..]) == Final(start, events)
      invariant l.html == old(l.html) && l.handlerEventIn == old(l.handlerEventIn)
      invariant l.handlerEventDestroy == old(l.handlerEventDestroy)
      invariant l.handlerInternalDestroy == old(l.handlerInternalDestroy)
    {
      var actions, stops, pending;
      actions, pending, stops := Tick(l, events[i], firstTime);
      if stops {
        Stops(start, cb, firstTime, events, i, trace);
        trace := trace + actions;
        return;
      }
      GoesOn(start, cb, firstTime, events, i, trace);
      trace, firstTime := trace + actions, pending;
      cb := Apply(cb, events[i]);
      i := i + 1;
    }
    assert events[i..] == [];
    assert trace + [] == trace;
  }
}
