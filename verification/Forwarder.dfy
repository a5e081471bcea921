/** The update forwarder: polled updates pass through it to the handlers, one slot each, and none may
    be lost when the program is told to stop. */
module Forwarder {
  const MAX_HANDLERS := 64

  /** Where the loop stands: receiving, wanting a slot for an update, holding one, or returned with
      the destination closed. */
  datatype Place<U> = Receiving | Wanting(update: U) | Holding(update: U) | Returned

  /** `polled` is everything put into the source so far, of which `taken` were received; `acquired`
      counts slots ever taken and `released` those given back by handlers that ended. */
  datatype State<U> = State(
    polled: seq<U>, taken: nat, closed: bool, cancelled: bool,
    draining: bool, place: Place<U>, emitted: seq<U>, acquired: nat, released: nat)

  datatype Event<U> = Polled(update: U) | SourceClosed | Cancelled | HandlerEnded
    | NoticesCancel | Receives | Acquires | Sends | Returns

  function Start<U>(): State<U> { State([], 0, false, false, false, Receiving, [], 0, 0) }

  /** What can happen next. The first four are the surroundings; the rest are the loop's selects and
      blocking operations. Once draining, cancellation is no longer looked at. */
  predicate Enabled<U>(s: State<U>, e: Event<U>) {
    match e
    case Polled(_) => !s.closed
    case SourceClosed => true
    case Cancelled => true
    case HandlerEnded => s.released < |s.emitted|
    case NoticesCancel => s.cancelled && !s.draining && !s.place.Returned?
    case Receives => s.place.Receiving? && s.taken < |s.polled|
    case Acquires => s.place.Wanting? && s.acquired - s.released < MAX_HANDLERS
    case Sends => s.place.Holding?
    case Returns => s.place.Receiving? && s.taken == |s.polled| && s.closed
  }

  function Next<U>(s: State<U>, e: Event<U>): State<U>
    requires Enabled(s, e)
  {
    match e
    case Polled(u) => s.(polled := s.polled + [u])
    case SourceClosed => s.(closed := true)
    case Cancelled => s.(cancelled := true)
    case HandlerEnded => s.(released := s.released + 1)
    case NoticesCancel => s.(draining := true)
    case Receives => s.(taken := s.taken + 1, place := Wanting(s.polled[s.taken]))
    case Acquires => s.(acquired := s.acquired + 1, place := Holding(s.place.update))
    case Sends => s.(emitted := s.emitted + [s.place.update], place := Receiving)
    case Returns => s.(place := Returned)
  }

  function Held<U>(s: State<U>): seq<U> { if s.place.Wanting? || s.place.Holding? then [s.place.update] else [] }

  /** What every step keeps. */
  ghost predicate Sound<U>(s: State<U>) {
    && s.taken <= |s.polled| && s.emitted + Held(s) == s.polled[..s.taken]
    && s.acquired == |s.emitted| + (if s.place.Holding? then 1 else 0)
    && s.released <= |s.emitted| && s.acquired - s.released <= MAX_HANDLERS
    && (s.draining ==> s.cancelled)
    && (s.place.Returned? ==> s.closed && s.taken == |s.polled|)
  }

  /** One step: nothing emitted is taken back or repeated, and what was polled stays polled. */
  lemma StepIsSound<U>(s: State<U>, e: Event<U>)
    requires Sound(s) && Enabled(s, e)
    ensures Sound(Next(s, e)) && s.emitted <= Next(s, e).emitted && s.polled <= Next(s, e).polled
  {
    var s' := Next(s, e);
    if e.Receives? {
      assert s.polled[..s'.taken] == s.polled[..s.taken] + [s.polled[s.taken]];
    }
    if e.Polled? {
      assert s'.polled[..s.taken] == s.polled[..s.taken];
    }
    if e.Sends? {
      assert s'.emitted + Held(s') == s.emitted + Held(s);
    }
    if e.Acquires? || e.Returns? {
      assert Held(s') == Held(s);
    }
  }

  ghost predicate Runs<U>(s: State<U>, events: seq<Event<U>>, s': State<U>)
    decreases |events|
  {
    if events == [] then s == s'
    else Enabled(s, events[0]) && Runs(Next(s, events[0]), events[1..], s')
  }

  lemma {:induction false} RunIsSound<U>(s: State<U>, events: seq<Event<U>>, s': State<U>)
    requires Sound(s) && Runs(s, events, s')
    ensures Sound(s') && s.emitted <= s'.emitted && s.polled <= s'.polled
    decreases |events|
  {
    if events != [] {
      StepIsSound(s, events[0]);
      RunIsSound(Next(s, events[0]), events[1..], s');
    }
  }

  /** Whenever the stop comes: what left is a prefix of what was polled, in order; at most one update
      is held; every update got one slot and was sent once; at most 64 handlers are at work; and the
      loop returns only with everything delivered. */
  lemma NothingIsLost<U>(events: seq<Event<U>>, s: State<U>)
    requires Runs(Start(), events, s)
    ensures s.emitted <= s.polled && 0 <= s.taken - |s.emitted| <= 1
    ensures |s.emitted| <= s.acquired <= |s.emitted| + 1
    ensures |s.emitted| - s.released <= s.acquired - s.released <= 64
    ensures s.place.Returned? ==> s.emitted == s.polled
  {
    RunIsSound(Start<U>(), events, s);
    assert |s.emitted + Held(s)| == s.taken;
    assert s.emitted <= s.emitted + Held(s) <= s.polled;
  }

  /** An update has to wait for its slot exactly while sixty-four handlers are at work. */
  lemma WaitsForHandlers<U>(events: seq<Event<U>>, s: State<U>)
    requires Runs(Start(), events, s) && s.place.Wanting?
    ensures Enabled(s, Acquires) <==> |s.emitted| - s.released < 64
  {
    RunIsSound(Start<U>(), events, s);
  }

  predicate Own<U>(e: Event<U>) { e.NoticesCancel? || e.Receives? || e.Acquires? || e.Sends? || e.Returns? }

  /** How much the loop has left to do. */
  function Left<U>(s: State<U>): nat
    requires Sound(s)
  {
    3 * (|s.polled| - s.taken)
    + (match s.place case Receiving => 1 case Wanting(_) => 3 case Holding(_) => 2 case Returned => 0)
    + (if s.draining then 0 else 1)
  }

  /** Every step of the loop itself gets nearer the end; with the source closed the surroundings take
      it no farther away. So it makes a bounded number of steps, whatever is cancelled meanwhile. */
  lemma EveryStepGetsNearer<U>(s: State<U>, e: Event<U>)
    requires Sound(s) && Enabled(s, e)
    ensures Sound(Next(s, e))
    ensures Own(e) ==> Left(Next(s, e)) < Left(s)
    ensures s.closed && !Own(e) ==> Left(Next(s, e)) == Left(s)
  {
    StepIsSound(s, e);
  }

  function OwnSteps<U>(events: seq<Event<U>>): nat {
    if events == [] then 0 else (if Own(events[0]) then 1 else 0) + OwnSteps(events[1..])
  }

  lemma {:induction false} BoundedSteps<U>(s: State<U>, events: seq<Event<U>>, s': State<U>)
    requires Sound(s) && s.closed && Runs(s, events, s')
    ensures Sound(s') && OwnSteps(events) + Left(s') <= Left(s)
    decreases |events|
  {
    if events != [] {
      EveryStepGetsNearer(s, events[0]);
      BoundedSteps(Next(s, events[0]), events[1..], s');
    }
  }

  /** Once the source is closed, a run that goes as far as the loop and the handlers can takes a
      bounded number of the loop's steps and ends with every update delivered. */
  lemma DrainsCompletely<U>(s: State<U>, events: seq<Event<U>>, s': State<U>)
    requires Sound(s) && s.closed && Runs(s, events, s')
    requires (forall e: Event<U> | Own(e) :: !Enabled(s', e)) && !Enabled(s', HandlerEnded)
    ensures s'.place.Returned? && s'.emitted == s'.polled && OwnSteps(events) <= Left(s)
  {
    BoundedSteps(s, events, s');
    StaysClosed(s, events, s');
    assert Own<U>(Receives) && Own<U>(Returns) && Own<U>(Acquires) && Own<U>(Sends);
    assert s'.place.Returned?;
    assert s'.emitted == s'.emitted + Held(s');
  }

  lemma {:induction false} StaysClosed<U>(s: State<U>, events: seq<Event<U>>, s': State<U>)
    requires s.closed && Runs(s, events, s')
    ensures s'.closed
    decreases |events|
  {
    if events != [] { StaysClosed(Next(s, events[0]), events[1..], s'); }
  }

  // ---- The loop itself ----

  lemma {:induction false} OneMore<U>(first: State<U>, events: seq<Event<U>>, s: State<U>, e: Event<U>)
    requires Runs(first, events, s) && Enabled(s, e)
    ensures Runs(first, events + [e], Next(s, e))
    decreases |events|
  {
    if events == [] {
      assert (events + [e])[1..] == [];
    } else {
      OneMore(Next(first, events[0]), events[1..], s, e);
      assert (events + [e])[1..] == events[1..] + [e];
    }
  }

  /** What the loop and its surroundings have done so far. */
  datatype Trace<U> = Trace(first: State<U>, events: seq<Event<U>>, now: State<U>)

  ghost predicate Happened<U>(t: Trace<U>) { Runs(t.first, t.events, t.now) && Sound(t.now) }

  lemma Took<U>(t: Trace<U>, e: Event<U>) returns (t': Trace<U>)
    requires Happened(t) && Enabled(t.now, e)
    ensures Happened(t') && t'.first == t.first && t'.now == Next(t.now, e)
  {
    OneMore(t.first, t.events, t.now, e);
    StepIsSound(t.now, e);
    t' := Trace(t.first, t.events + [e], Next(t.now, e));
  }

  /** What goes on around the loop: whether the program was told to stop, how many handlers are at
      work, and how much of `script`, all that may ever be polled, has been, before the source closed. */
  datatype Around = Around(cancelled: bool, running: nat, arrived: nat, closed: bool)

  /** The loop's variables, and the surroundings, say where the world stands. */
  ghost predicate Matches<U>(t: Trace<U>, script: seq<U>, around: Around, draining: bool) {
    && Happened(t) && t.first == Start()
    && t.now.cancelled == around.cancelled && t.now.closed == around.closed && t.now.draining == draining
    && around.running == |t.now.emitted| - t.now.released
    && around.arrived <= |script| && t.now.polled == script[..around.arrived]
  }

  /** The loop has not moved. */
  ghost predicate Waited<U>(t: Trace<U>, t': Trace<U>) {
    && t'.now.taken == t.now.taken && t'.now.place == t.now.place && t'.now.emitted == t.now.emitted
    && t'.now.acquired == t.now.acquired && t.now.polled <= t'.now.polled
  }

  /** What a blocking operation waits for. */
  datatype Need = Nothing | Slot | Update

  predicate Met(need: Need, around: Around, taken: nat) {
    match need
    case Nothing => true
    case Slot => around.running < MAX_HANDLERS
    case Update => taken < around.arrived || around.closed
  }

  /** Some more of the script is polled. */
  method Arriving<U>(ghost t: Trace<U>, script: seq<U>, around: Around, ghost draining: bool)
    returns (around': Around, ghost t': Trace<U>)
    requires Matches(t, script, around, draining) && !around.closed
    ensures Matches(t', script, around', draining) && Waited(t, t') && around' == around.(arrived := around'.arrived)
  {
    around', t' := around, t;
    var goal: nat :| around.arrived <= goal <= |script|;
    while around'.arrived < goal
      invariant Matches(t', script, around', draining) && Waited(t, t') && around'.arrived <= goal
      invariant around' == around.(arrived := around'.arrived)
    {
      assert script[..around'.arrived + 1] == script[..around'.arrived] + [script[around'.arrived]];
      t' := Took(t', Polled(script[around'.arrived]));
      around' := around'.(arrived := around'.arrived + 1);
    }
  }

  /** Updates are polled, and the source may close; when one of the two is needed, it happens. */
  method Polling<U>(ghost t: Trace<U>, script: seq<U>, around: Around, ghost draining: bool, taken: nat, need: Need)
    returns (around': Around, ghost t': Trace<U>)
    requires Matches(t, script, around, draining) && taken == t.now.taken
    ensures Matches(t', script, around', draining) && Waited(t, t')
    ensures around' == around.(arrived := around'.arrived, closed := around'.closed)
    ensures need.Update? ==> Met(need, around', taken)
  {
    around', t' := around, t;
    if around.closed {
      return;
    }
    around', t' := Arriving(t, script, around, draining);
    var closes: bool := *;
    if closes || (need.Update? && taken >= around'.arrived) {
      t' := Took(t', SourceClosed);
      around' := around'.(closed := true);
    }
  }

  /** The program may be told to stop, and handlers end; when every slot is taken and one is needed, at
      least one does. */
  method Handling<U>(ghost t: Trace<U>, ghost script: seq<U>, around: Around, ghost draining: bool, need: Need)
    returns (around': Around, ghost t': Trace<U>)
    requires Matches(t, script, around, draining)
    ensures Matches(t', script, around', draining) && Waited(t, t')
    ensures around' == around.(cancelled := around'.cancelled, running := around'.running)
    ensures need.Slot? ==> around'.running < MAX_HANDLERS
  {
    around', t' := around, t;
    if * {
      t' := Took(t', Cancelled);
      around' := around'.(cancelled := true);
    }
    var goal: nat :| goal <= around.running && (need.Slot? ==> goal < MAX_HANDLERS);
    while around'.running > goal
      invariant Matches(t', script, around', draining) && Waited(t, t') && goal <= around'.running
      invariant around' == around.(cancelled := around'.cancelled, running := around'.running)
    {
      t' := Took(t', HandlerEnded);
      around' := around'.(running := around'.running - 1);
    }
  }

  /** What goes on while the loop waits. */
  method Meanwhile<U>(ghost t: Trace<U>, script: seq<U>, around: Around, ghost draining: bool, taken: nat, need: Need)
    returns (around': Around, ghost t': Trace<U>)
    requires Matches(t, script, around, draining) && taken == t.now.taken
    ensures Matches(t', script, around', draining) && Waited(t, t') && Met(need, around', taken)
  {
    around', t' := Polling(t, script, around, draining, taken, need);
    around', t' := Handling(t', script, around', draining, need);
  }

  /** Whether a select with nothing better to do than to look at the cancellation does so. */
  method MayNotice<U>(ghost t: Trace<U>, ghost script: seq<U>, around: Around, draining: bool)
    returns (draining': bool, ghost t': Trace<U>)
    requires Matches(t, script, around, draining) && !t.now.place.Returned?
    ensures Matches(t', script, around, draining') && Waited(t, t') && (draining ==> draining')
  {
    draining', t' := draining, t;
    var notices: bool := *;
    if around.cancelled && !draining && notices {
      t' := Took(t, NoticesCancel);
      draining' := true;
    }
  }

  /** Taking a slot: at once, or after noticing the stop while waiting for one. */
  method AcquireSlot<U>(ghost t: Trace<U>, script: seq<U>, around: Around, draining: bool, taken: nat)
    returns (around': Around, draining': bool, ghost t': Trace<U>)
    requires Matches(t, script, around, draining) && t.now.place.Wanting? && taken == t.now.taken
    ensures Matches(t', script, around', draining') && (draining ==> draining')
    ensures t'.now.place == Holding(t.now.place.update) && t'.now.emitted == t.now.emitted && t'.now.taken == taken
  {
    var slotAcquired := false;
    draining' := draining;
    around', t' := Meanwhile(t, script, around, draining, taken, Slot);
    if !draining {
      draining', t' := MayNotice(t', script, around', draining);
      if !draining' {
        t' := Took(t', Acquires);
        slotAcquired := true;
      }
    }
    if !slotAcquired {
      around', t' := Meanwhile(t', script, around', draining', taken, Slot);
      t' := Took(t', Acquires);
    }
  }

  /** Handing the update over, the same way. */
  method Send<U>(ghost t: Trace<U>, script: seq<U>, around: Around, draining: bool, taken: nat)
    returns (around': Around, draining': bool, ghost t': Trace<U>)
    requires Matches(t, script, around, draining) && t.now.place.Holding? && taken == t.now.taken
    ensures Matches(t', script, around', draining') && (draining ==> draining')
    ensures t'.now.place.Receiving? && t'.now.emitted == t.now.emitted + [t.now.place.update] && t'.now.taken == taken
  {
    var sent := false;
    draining' := draining;
    around', t' := Meanwhile(t, script, around, draining, taken, Nothing);
    if !draining {
      draining', t' := MayNotice(t', script, around', draining);
      if !draining' {
        t' := Took(t', Sends);
        around', sent := around'.(running := around'.running + 1), true;
      }
    }
    if !sent {
      around', t' := Meanwhile(t', script, around', draining', taken, Nothing);
      t' := Took(t', Sends);
      around' := around'.(running := around'.running + 1);
    }
  }

  /** `forwardUpdates`, over a source that fills from `script` as it goes and closes at some point: its
      selects fall either way, whenever the stop comes, and it returns having sent all that was polled,
      in order. */
  method ForwardUpdates<U>(script: seq<U>) returns (emitted: seq<U>, ghost t: Trace<U>)
    ensures emitted <= script
    ensures Happened(t) && t.first == Start() && t.now.place.Returned? && t.now.closed
    ensures emitted == t.now.emitted == t.now.polled && t.now.acquired == |emitted|
  {
    t, emitted := Trace(Start(), [], Start()), [];
    var around, draining, i := Around(false, 0, 0, false), false, 0;
    while true
      invariant Matches(t, script, around, draining) && t.now.place.Receiving?
      invariant t.now.taken == i == |emitted| <= around.arrived && t.now.emitted == emitted
      decreases |script| - i, !draining
    {
      around, t := Meanwhile(t, script, around, draining, i, Nothing);
      if !draining {
        draining, t := MayNotice(t, script, around, draining);
        if draining {
          continue;
        }
      }
      around, t := Meanwhile(t, script, around, draining, i, Update);
      if i == around.arrived {
        break;
      }
      emitted := emitted + [script[i]];
      around, draining, t := PassOn(t, script, around, draining, i);
      i := i + 1;
    }
    AllTaken(t, script, around, i);
    t := Took(t, Returns);
  }

  /** One update, from the source to a handler. */
  method PassOn<U>(ghost t: Trace<U>, script: seq<U>, around: Around, draining: bool, i: nat)
    returns (around': Around, draining': bool, ghost t': Trace<U>)
    requires Matches(t, script, around, draining) && t.now.place.Receiving? && t.now.taken == i < around.arrived
    ensures Matches(t', script, around', draining') && (draining ==> draining')
    ensures t'.now.place.Receiving? && t'.now.taken == i + 1 <= around'.arrived
    ensures t'.now.emitted == t.now.emitted + [script[i]]
  {
    t' := Took(t, Receives);
    around', draining', t' := AcquireSlot(t', script, around, draining, i + 1);
    around', draining', t' := Send(t', script, around', draining', i + 1);
    AllTaken(t', script, around', i + 1);
  }

  lemma AllTaken<U>(t: Trace<U>, script: seq<U>, around: Around, i: nat)
    requires Sound(t.now) && t.now.place.Receiving? && t.now.taken == i
    requires around.arrived <= |script| && t.now.polled == script[..around.arrived]
    ensures i <= around.arrived && t.now.emitted == script[..i]
  {
    assert t.now.emitted == t.now.emitted + Held(t.now);
  }
}
