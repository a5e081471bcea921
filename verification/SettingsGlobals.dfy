/** Clients of the bot-wide settings: none of them overwrites a change it has not seen. */
module SettingsGlobals {
  import opened Options
  import opened Settings
  import opened Registrations
  import opened SettingsStore

  datatype Seen = Seen(revision: nat, settings: GlobalOverrides)

  datatype Event =
    | Read(client: nat)
    | Write(client: nat, change: GlobalOverrides -> GlobalOverrides, disk: Disk)
    | Other(step: Step)

  datatype World = World(state: State, seen: map<nat, Seen>, log: seq<GlobalOverrides -> GlobalOverrides>)

  predicate Possible(w: World, e: Event) {
    match e
    case Read(_) => true
    case Write(client, _, _) => client in w.seen
    case Other(step) => !step.OnGlobal?
  }

  function After(b: Baseline, w: World, e: Event): World
    requires Possible(w, e)
  {
    match e
    case Read(client) => w.(seen := w.seen[client := Seen(w.state.globalRevision, w.state.global)])
    case Write(client, change, disk) =>
      var seen := w.seen[client];
      var out := TryCommit(b, w.state, OnGlobal(seen.revision, change(seen.settings), disk));
      w.(state := out.0, log := if Accepted(out.1) then w.log + [change] else w.log)
    case Other(step) => w.(state := TryCommit(b, w.state, step).0)
  }

  ghost predicate Happens(b: Baseline, w: World, events: seq<Event>, w': World)
    decreases |events|
  {
    if events == [] then w' == w
    else Possible(w, events[0]) && Happens(b, After(b, w, events[0]), events[1..], w')
  }

  /** What each accepted change left: it was computed from what the one before it left, and its
      effect is the one it asked for. */
  ghost predicate Sequel(
    b: Baseline, first: GlobalOverrides, log: seq<GlobalOverrides -> GlobalOverrides>, states: seq<GlobalOverrides>)
  {
    && |states| == |log| + 1 && states[0] == first
    && forall i | 0 <= i < |log| :: EffectiveGlobal(b, states[i + 1]) == EffectiveGlobal(b, log[i](states[i]))
  }

  ghost predicate InStep(b: Baseline, first: GlobalOverrides, w: World, states: seq<GlobalOverrides>) {
    && Sequel(b, first, w.log, states) && states[|w.log|] == w.state.global
    && (forall c | c in w.seen :: w.seen[c].revision <= w.state.globalRevision
          && (w.seen[c].revision == w.state.globalRevision ==> w.seen[c].settings == w.state.global))
  }

  lemma WriteShape(b: Baseline, s: State, seen: Seen, next: GlobalOverrides, disk: Disk)
    ensures var (s', out) := TryCommit(b, s, OnGlobal(seen.revision, next, disk));
      && (!Accepted(out) ==> s' == s)
      && (Accepted(out) ==> s.globalRevision == seen.revision && EffectiveGlobal(b, s'.global) == EffectiveGlobal(b, next))
      && (s'.globalRevision == s.globalRevision ==> s'.global == s.global) && s'.globalRevision >= s.globalRevision
  {
    CompactGlobalKeepsEffective(b, next, next);
  }

  lemma OtherShape(b: Baseline, s: State, step: Step)
    requires !step.OnGlobal?
    ensures TryCommit(b, s, step).0.global == s.global && TryCommit(b, s, step).0.globalRevision == s.globalRevision
  {
  }

  lemma StepStaysInStep(b: Baseline, first: GlobalOverrides, w: World, states: seq<GlobalOverrides>, e: Event)
    returns (states': seq<GlobalOverrides>)
    requires InStep(b, first, w, states) && Possible(w, e)
    ensures InStep(b, first, After(b, w, e), states')
  {
    var w' := After(b, w, e);
    states' := states;
    if e.Write? {
      WriteShape(b, w.state, w.seen[e.client], e.change(w.seen[e.client].settings), e.disk);
      if w'.log != w.log {
        states' := states + [w'.state.global];
        assert forall i | 0 <= i < |states| :: states'[i] == states[i];
      }
    }
    if e.Other? { OtherShape(b, w.state, e.step); }
  }

  lemma {:induction false} ClientsStayInStep(
    b: Baseline, first: GlobalOverrides, w: World, states: seq<GlobalOverrides>, events: seq<Event>, w': World)
    returns (states': seq<GlobalOverrides>)
    requires InStep(b, first, w, states) && Happens(b, w, events, w')
    ensures InStep(b, first, w', states')
    decreases |events|
  {
    if events == [] {
      states' := states;
    } else {
      var next := StepStaysInStep(b, first, w, states, events[0]);
      states' := ClientsStayInStep(b, first, After(b, w, events[0]), next, events[1..], w');
    }
  }

  /** In any interleaving of clients, readers and commits to everything else, the bot-wide settings
      have gone from one accepted change to the next: each was computed from what the one before it
      left, came to what it asked for, and the last one's result is what stands. */
  lemma NoUpdateIsLost(b: Baseline, s: State, events: seq<Event>, w: World) returns (states: seq<GlobalOverrides>)
    requires Happens(b, World(s, map[], []), events, w)
    ensures |states| == |w.log| + 1 && states[0] == s.global && states[|w.log|] == w.state.global
    ensures forall i | 0 <= i < |w.log| :: EffectiveGlobal(b, states[i + 1]) == EffectiveGlobal(b, w.log[i](states[i]))
  {
    states := ClientsStayInStep(b, s.global, World(s, map[], []), [s.global], events, w);
  }
}
