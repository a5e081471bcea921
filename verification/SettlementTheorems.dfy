/** What the settlement protocol promises over every run of `SettlementRuns`. */
module SettlementTheorems {
  import opened Options
  import opened Settlement
  import opened SettlementRuns

  /** One step of a run, and nothing else. */
  ghost predicate Stepped<P>(s: System<P>, step: Step<P>, s': System<P>) {
    Wired(s) && Enabled(s, step) && s' == Next(s, step)
  }

  lemma SteppedKeepsInv<P>(s: System<P>, step: Step<P>, s': System<P>)
    requires Inv(s) && Stepped(s, step, s')
    ensures Inv(s')
  {
    StepKeepsInv(s, step);
  }

  ghost predicate Runs<P>(s: System<P>, steps: seq<Step<P>>, s': System<P>)
    decreases |steps|
  {
    if steps == [] then s' == s
    else Wired(s) && Enabled(s, steps[0]) && Runs(Next(s, steps[0]), steps[1..], s')
  }

  lemma RunsFirst<P>(s: System<P>, step: Step<P>, rest: seq<Step<P>>, s': System<P>) returns (s1: System<P>)
    requires Runs(s, [step] + rest, s')
    ensures Stepped(s, step, s1) && Runs(s1, rest, s')
  {
    s1 := Next(s, step);
    assert ([step] + rest)[1..] == rest;
  }

  lemma {:induction false} RunsThen<P>(s: System<P>, steps: seq<Step<P>>, s1: System<P>, step: Step<P>, s2: System<P>)
    requires Runs(s, steps, s1) && Stepped(s1, step, s2)
    ensures Runs(s, steps + [step], s2)
    decreases |steps|
  {
    if steps == [] {
      assert ([] + [step])[1..] == [] && ([] + [step])[0] == step;
    } else {
      RunsThen(Next(s, steps[0]), steps[1..], s1, step, s2);
      assert (steps + [step])[1..] == steps[1..] + [step];
    }
  }

  lemma RunsUpTo<P>(s: System<P>, steps: seq<Step<P>>, k: nat, s1: System<P>, s2: System<P>)
    requires k < |steps| && Runs(s, steps[..k], s1) && Stepped(s1, steps[k], s2)
    ensures Runs(s, steps[..k + 1], s2)
  {
    RunsThen(s, steps[..k], s1, steps[k], s2);
    assert steps[..k] + [steps[k]] == steps[..k + 1];
  }

  function Empty<P(==)>(now: Time, groups: set<int>): System<P> {
    System(Core(now, map[], map[], map[], {}, [], false), groups, map[], 0, {})
  }

  lemma EmptyIsSafe<P>(now: Time, groups: set<int>)
    ensures Inv(Empty<P>(now, groups))
  {
    var c := Empty<P>(now, groups).core;
    assert forall g :: GroupKeys(c.pend, g) == {};
  }

  lemma {:induction false} RunsKeepInv<P>(s: System<P>, steps: seq<Step<P>>, s': System<P>)
    requires Inv(s) && Runs(s, steps, s')
    ensures Inv(s')
    decreases |steps|
  {
    if steps != [] {
      StepKeepsInv(s, steps[0]);
      RunsKeepInv(Next(s, steps[0]), steps[1..], s');
    }
  }

  // ---- Ownership of a settlement ----

  /** In every interleaving: a claimed pending still in the map is the one in `terminal`; an
      unclaimed one is in the map; no pending has two settlements in flight; a terminal marker
      always has a settlement that will release it; and the queue caps hold. */
  lemma SettlementIsExclusive<P>(now: Time, groups: set<int>, steps: seq<Step<P>>, s: System<P>)
    requires Runs(Empty<P>(now, groups), steps, s)
    ensures forall k | k in s.core.pend :: s.core.pend[k] in s.core.cells
    ensures forall k | k in s.core.pend ::
      s.core.cells[s.core.pend[k]].done <==> k in s.core.terminal && s.core.terminal[k] == s.core.pend[k]
    ensures forall p | p in s.core.cells && !s.core.cells[p].done :: s.core.cells[p].key in s.core.pend && s.core.pend[s.core.cells[p].key] == p
    ensures forall t, u | t in s.flights && u in s.flights && s.flights[t].owner == s.flights[u].owner :: t == u
    ensures forall k | k in s.core.terminal :: exists t :: t in s.flights && s.flights[t].owner == s.core.terminal[k]
    ensures |s.core.pend| <= 2000
    ensures forall g :: |GroupKeys(s.core.pend, g)| <= 500
  {
    EmptyIsSafe<P>(now, groups);
    RunsKeepInv(Empty(now, groups), steps, s);
    forall k | k in s.core.terminal ensures exists t :: t in s.flights && s.flights[t].owner == s.core.terminal[k] {
      assert InFlight(s, s.core.terminal[k]);
    }
    forall p | p in s.core.cells && !s.core.cells[p].done
      ensures s.core.cells[p].key in s.core.pend && s.core.pend[s.core.cells[p].key] == p
    {
      assert Held(s.core, p);
    }
  }

  /** Whose action a step is: the settlement's, the delivery's or the recovery's pending. */
  ghost predicate ActsFor<P>(s: System<P>, step: Step<P>, p: P)
    requires Wired(s) && Enabled(s, step)
  {
    match step
    case Deliver(q, _, _, _, _) => q == p
    case Message(prompt, _, _, _, _, _) => prompt.owner == p
    case RecoveryDrop(q) => q == p
    case Adopt(q) => q == p
    case Renotify(q, _) => q == p
    case NotePassing(t) => s.flights[t].owner == p
    case Retry(t, _) => s.flights[t].owner == p
    case Abandon(t) => s.flights[t].owner == p
    case Weigh(t, _) => s.flights[t].owner == p
    case PutStrike(t) => s.flights[t].owner == p
    case Finish(t) => s.flights[t].owner == p
    case _ => false
  }

  /** Nothing but `p` has changed: not another entry of the map, not another terminal marker,
      and no field of another pending. */
  ghost predicate Spares<P>(c: Core<P>, c': Core<P>, p: P) {
    && (forall k | k in c.pend && c.pend[k] != p :: k in c'.pend && c'.pend[k] == c.pend[k])
    && (forall k | k in c.terminal && c.terminal[k] != p :: k in c'.terminal && c'.terminal[k] == c.terminal[k])
    && (forall q | q in c.cells && q != p :: q in c'.cells && c'.cells[q] == c.cells[q])
    && (forall k | k in c'.pend :: k in c.pend && c'.pend[k] == c.pend[k])
    && (forall k | k in c'.terminal :: k in c.terminal && c'.terminal[k] == c.terminal[k])
  }

  lemma DeliverySpares<P>(c: Core<P>, p: P, g: int, m: int, d: bool, w: int)
    requires p in c.cells
    ensures Spares(c, FinishChallenge(c, c.cells[p].key, p, g, m, d, w).0, p)
  {
  }

  lemma MessageSpares<P>(c: Core<P>, prompt: Prompt<P>, send: Send, question: bool, text: string, reset: bool, window: int)
    requires prompt.owner in c.cells
    ensures Spares(c, CompleteDM(c, prompt, send, question, text, reset, window).0, prompt.owner)
  {
  }

  lemma FlagsSpare<P>(c: Core<P>, p: P)
    requires p in c.cells
    ensures Spares(c, MarkPassing(c, c.cells[p].key, p), p)
    ensures Spares(c, AdoptAsHeld(c, c.cells[p].key, p), p)
    ensures forall g :: Spares(c, Renotified(c, c.cells[p].key, p, g), p)
  {
  }

  lemma FinishSpares<P>(c: Core<P>, p: P)
    requires p in c.cells
    ensures Spares(c, FinishTerminal(c, c.cells[p].key, p), p)
    ensures Spares(c, Discard(c, c.cells[p].key, p), p)
  {
  }

  lemma RetrySpares<P>(c: Core<P>, p: P, reason: Reason)
    requires p in c.cells && c.cells[p].done
    ensures Spares(c, Reopen(c, c.cells[p].key, p, reason).0, p)
  {
    ReopenShape(c, p, reason);
  }

  /** An action that belongs to one pending never touches a newer one under the same key, or any
      other: it cannot delete it, release its terminal marker, or write to it. */
  lemma OldActionSparesNewPending<P>(s: System<P>, step: Step<P>, p: P)
    requires Inv(s) && Wired(s) && Enabled(s, step) && ActsFor(s, step, p)
    ensures Spares(s.core, Next(s, step).core, p)
  {
    var c := s.core;
    match step
    case Deliver(_, g, m, d, w) => DeliverySpares(c, p, g, m, d, w);
    case Message(prompt, send, q, text, reset, w) => MessageSpares(c, prompt, send, q, text, reset, w);
    case RecoveryDrop(_) => FinishSpares(c, p);
    case Adopt(_) => FlagsSpare(c, p);
    case Renotify(_, _) => FlagsSpare(c, p);
    case NotePassing(_) => FlagsSpare(c, p);
    case Retry(t, reason) => RetrySpares(c, p, reason);
    case Abandon(_) => FinishSpares(c, p);
    case Finish(_) => FinishSpares(c, p);
    case Weigh(t, outcome) => WeighingIsJudged(s, t, outcome);
    case PutStrike(t) => StrikeIsJudged(s, t);
  }
}
