/** The service at work: every section its methods run is one step of a run, so that what is proved
    over runs holds of the objects. */
module VerifyBot {
  import opened Options
  import opened Settlement
  import opened SettlementRuns
  import opened SettlementTheorems
  import opened VerifyService

  type Pended = PendingObject

  class Bot {
    const service: Service
    ghost const start: System<Pended>
    ghost var history: seq<Step<Pended>>
    ghost var system: System<Pended>

    constructor (clock: Time, groups: set<int>)
      ensures Valid() && fresh(service) && start == Empty(clock, groups) && system == start
    {
      var s := new Service(clock);
      service := s;
      start, history, system := Empty(clock, groups), [], Empty(clock, groups);
    }

    /** The objects stand where the run so far has led. */
    ghost predicate Valid()
      reads this, service, service.cells.Keys
    {
      service.Valid() && system.core == service.Abs() && InRun()
    }

    ghost predicate InRun()
      reads `history, `system
    {
      start == Empty(start.core.now, start.groups) && Runs(start, history, system)
    }

    lemma RunHolds()
      requires InRun()
      ensures Inv(system) && Wired(system)
    {
      EmptyIsSafe<Pended>(start.core.now, start.groups);
      RunsKeepInv(start, history, system);
    }

    /** At every moment: a claimed pending in the map is exactly the one in `terminal`, an unclaimed one
        is exactly the one the map holds, and the queue caps hold. */
    lemma ObjectsAreExclusive()
      requires Valid()
      ensures forall k | k in service.pend ::
        service.pend[k].done <==> k in service.terminal && service.terminal[k] == service.pend[k]
      ensures forall p | p in service.cells && !p.done :: p.key in service.pend && service.pend[p.key] == p
      ensures |service.pend| <= 2000
    {
      RunHolds();
      forall k | k in service.pend
        ensures service.pend[k].done <==> k in service.terminal && service.terminal[k] == service.pend[k]
      {
        assert service.pend[k] in service.cells && service.cells[service.pend[k]] == service.pend[k].Snapshot();
      }
      forall p | p in service.cells && !p.done ensures p.key in service.pend && service.pend[p.key] == p {
        assert service.cells[p] == p.Snapshot() && Held(system.core, p);
      }
    }

    lemma RunIsWired()
      requires InRun()
      ensures Wired(system)
    {
      RunHolds();
    }

    /** A settlement is of a claimed pending, under its key. */
    lemma OfClaimed(ticket: nat)
      requires InRun() && ticket in system.flights
      ensures var f := system.flights[ticket];
        f.owner in system.core.cells && f.key == system.core.cells[f.owner].key && system.core.cells[f.owner].done
    {
      RunHolds();
    }

    /** The settlement under the ticket is of this pending. */
    ghost predicate At(ticket: nat, p: Pended)
      reads this
    {
      ticket in system.flights && system.flights[ticket].owner == p
    }

    /** The end of a section. */
    ghost method Take(step: Step<Pended>)
      requires InRun() && Wired(system) && Enabled(system, step)
      modifies `history, `system
      ensures InRun() && Stepped(old(system), step, system)
    {
      RunsThen(start, history, system, step, Next(system, step));
      history, system := history + [step], Next(system, step);
    }

    // ---- Challenges ----

    /** Nothing has happened to the challenge yet, and its nonce is drawn fresh. */
    ghost predicate NewChallenge(p: Pended)
      reads service, p
    {
      && !p.done && !p.removed && !p.passing && p.epoch == 0 && p.armed.None? && p.deferredSince.None?
      && p.settleFailures == 0 && p.tries == 0 && p.spent == {}
      && forall q | q in service.cells && service.cells[q].key == p.key :: service.cells[q].nonce != p.nonce
    }

    method Arrive(p: Pended) returns (status: StartStatus)
      requires Valid() && p !in service.cells && NewChallenge(p)
      modifies this, service, service.cells.Keys, p
      ensures Valid() && Stepped(old(system), Step.Arrive(p, old(p.Snapshot())), system)
    {
      RunIsWired();
      ghost var r := p.Snapshot();
      status := service.StartPending(p);
      Take(Step.Arrive(p, r));
    }

    method Deliver(p: Pended, groupMsg: int, privateMsg: int, delivered: bool, window: int) returns (ok: bool)
      requires Valid() && p in service.cells
      modifies this, service, service.cells.Keys
      ensures Valid() && Stepped(old(system), Step.Deliver(p, groupMsg, privateMsg, delivered, window), system)
    {
      RunIsWired();
      assert service.cells[p] == p.Snapshot();
      ok := service.FinishChallenge(p, groupMsg, privateMsg, delivered, window);
      Take(Step.Deliver(p, groupMsg, privateMsg, delivered, window));
    }

    // ---- Claims ----

    method AdminApprove(key: Key) returns (p: Option<Pended>)
      requires Valid()
      modifies this, service, service.cells.Keys
      ensures Valid() && Stepped(old(system), Step.AdminApprove(key), system)
    {
      RunIsWired();
      p := service.Consume(key);
      Take(Step.AdminApprove(key));
    }

    method AdminBan(key: Key) returns (p: Option<Pended>)
      requires Valid()
      modifies this, service, service.cells.Keys
      ensures Valid() && Stepped(old(system), Step.AdminBan(key), system)
    {
      RunIsWired();
      p := service.Consume(key);
      Take(Step.AdminBan(key));
    }

    method Answer(key: Key, nonce: string, correct: bool) returns (p: Option<Pended>)
      requires Valid()
      modifies this, service, service.cells.Keys
      ensures Valid() && Stepped(old(system), Step.Answer(key, nonce, correct), system)
    {
      RunIsWired();
      p := service.ClaimNonce(key, nonce);
      Take(Step.Answer(key, nonce, correct));
    }

    method Message(prompt: Prompt<Pended>, send: Send, question: bool, kernelText: string, resetExpiry: bool, window: int) returns (current: bool)
      requires Valid() && prompt.owner in service.cells && prompt.key == prompt.owner.key
      modifies this, service, service.cells.Keys
      ensures Valid() && Stepped(old(system), Step.Message(prompt, send, question, kernelText, resetExpiry, window), system)
    {
      RunIsWired();
      assert service.cells[prompt.owner] == prompt.owner.Snapshot();
      current := service.CompleteDM(prompt, send, question, kernelText, resetExpiry, window);
      Take(Step.Message(prompt, send, question, kernelText, resetExpiry, window));
    }

    method Renotify(p: Pended, groupMsg: int)
      requires Valid() && p in service.cells
      modifies this, service, service.cells.Keys
      ensures Valid() && Stepped(old(system), Step.Renotify(p, groupMsg), system)
    {
      RunIsWired();
      assert service.cells[p] == p.Snapshot();
      service.Renotified(p, groupMsg);
      Take(Step.Renotify(p, groupMsg));
    }

    method Fallback(key: Key, nonce: string, text: string, answers: seq<string>) returns (begun: bool)
      requires Valid()
      modifies this, service, service.cells.Keys
      ensures Valid() && Stepped(old(system), Step.Fallback(key, nonce, text, answers), system)
    {
      RunIsWired();
      begun := service.BeginFallback(key, nonce, text, answers);
      Take(Step.Fallback(key, nonce, text, answers));
    }

    // ---- Settlements, each under its ticket ----

    method NotePassing(ghost ticket: nat, p: Pended)
      requires Valid() && At(ticket, p) && system.flights[ticket].action.Approving?
      modifies this, service, service.cells.Keys
      ensures Valid() && Stepped(old(system), Step.NotePassing(ticket), system)
    {
      RunIsWired();
      OfClaimed(ticket);
      assert service.cells[p] == p.Snapshot() && p.done;
      service.MarkPassing(p);
      Take(Step.NotePassing(ticket));
    }

    method Retry(ghost ticket: nat, p: Pended, reason: Reason) returns (ok: bool)
      requires Valid() && At(ticket, p) && system.flights[ticket].stage.Open?
      requires reason != Timeout && reason != WrongAnswer
      requires system.flights[ticket].action.Approving? && p.key in service.pend && service.pend[p.key] == p ==> p.passing
      modifies this, service, service.cells.Keys
      ensures Valid() && Stepped(old(system), Step.Retry(ticket, reason), system)
    {
      RunIsWired();
      OfClaimed(ticket);
      assert service.cells[p] == p.Snapshot() && p.done;
      assert Enabled(system, Step.Retry(ticket, reason));
      ok := service.Reopen(p, reason);
      Take(Step.Retry(ticket, reason));
    }

    method Abandon(ghost ticket: nat, p: Pended)
      requires Valid() && At(ticket, p) && system.flights[ticket].stage.Open?
      modifies this, service, service.cells.Keys
      ensures Valid() && Stepped(old(system), Step.Abandon(ticket), system)
    {
      RunIsWired();
      OfClaimed(ticket);
      assert service.cells[p] == p.Snapshot() && p.done;
      service.Discard(p);
      Take(Step.Abandon(ticket));
    }

    method Weigh(ghost ticket: nat, p: Pended, reason: Reason, outcome: Outcome) returns (charge: bool)
      requires Valid() && At(ticket, p)
      requires system.flights[ticket].action == Declining(reason) && system.flights[ticket].stage.Open?
      modifies this
      ensures Valid() && Stepped(old(system), Step.Weigh(ticket, outcome), system)
      ensures ticket in system.flights && system.flights[ticket].stage == Weighed(outcome, charge)
    {
      RunIsWired();
      OfClaimed(ticket);
      assert service.cells[p] == p.Snapshot();
      charge := StrikesFor(outcome, reason) && !p.channelUnreadable;
      Take(Step.Weigh(ticket, outcome));
    }

    method PutStrike(ghost ticket: nat, p: Pended, reason: Reason, outcome: Outcome, charge: bool, isGroup: bool)
      returns (recorded: bool)
      requires Valid() && At(ticket, p) && system.flights[ticket].action == Declining(reason)
      requires system.flights[ticket].stage == Weighed(outcome, charge) && (isGroup <==> p.key.gid in system.groups)
      modifies this, service, service.cells.Keys
      ensures Valid() && Stepped(old(system), Step.PutStrike(ticket), system)
    {
      RunIsWired();
      OfClaimed(ticket);
      assert service.cells[p] == p.Snapshot() && p.done;
      recorded := false;
      if charge {
        recorded := service.RecordStrike(p, reason, outcome, isGroup);
      }
      Take(Step.PutStrike(ticket));
    }

    method Finish(ghost ticket: nat, p: Pended)
      requires Valid() && At(ticket, p)
      modifies this, service, service.cells.Keys
      ensures Valid() && Stepped(old(system), Step.Finish(ticket), system)
    {
      RunIsWired();
      OfClaimed(ticket);
      assert service.cells[p] == p.Snapshot() && p.done;
      service.FinishTerminal(p);
      Take(Step.Finish(ticket));
    }

    // ---- Timers, recovery, groups ----

    method Tick(elapsed: nat)
      requires Valid()
      modifies this, service, service.cells.Keys
      ensures Valid() && Stepped(old(system), Step.Tick(elapsed), system)
    {
      RunIsWired();
      service.Tick(elapsed);
      Take(Step.Tick(elapsed));
    }

    method Fire(timer: Timer<Pended>) returns (check: CapCheck)
      requires Valid() && timer in system.core.timers && timer.armed.due <= service.now
      modifies this, service, service.cells.Keys
      ensures Valid() && Stepped(old(system), Step.Fire(timer), system)
    {
      RunIsWired();
      check := service.DeferralCapState(timer.key, timer.nonce, timer.epoch);
      Take(Step.Fire(timer));
    }

    method Defer(callback: Callback<Pended>, window: int)
      requires Valid() && callback in system.callbacks
      modifies this, service, service.cells.Keys
      ensures Valid() && Stepped(old(system), Step.Defer(callback, window), system)
    {
      RunIsWired();
      service.DeferExpiry(callback.timer.key, callback.timer.nonce, callback.timer.epoch, callback.timer.armed.reason, window);
      Take(Step.Defer(callback, window));
    }

    method Expire(callback: Callback<Pended>) returns (p: Option<Pended>)
      requires Valid() && callback in system.callbacks
      modifies this, service, service.cells.Keys
      ensures Valid() && Stepped(old(system), Step.Expire(callback), system)
    {
      RunIsWired();
      p := service.ClaimExpiry(callback.timer.key, callback.timer.nonce, callback.timer.epoch);
      Take(Step.Expire(callback));
    }

    method RecoverAll(windows: (int, Gate) -> int)
      requires Valid()
      modifies this, service, service.cells.Keys
      ensures Valid() && Stepped(old(system), Step.RecoverAll(windows), system)
    {
      RunIsWired();
      service.Recover(windows);
      Take(Step.RecoverAll(windows));
    }

    method RecoveryDrop(p: Pended)
      requires Valid() && p in service.cells
      modifies this, service, service.cells.Keys
      ensures Valid() && Stepped(old(system), Step.RecoveryDrop(p), system)
    {
      RunIsWired();
      assert service.cells[p] == p.Snapshot();
      service.Discard(p);
      Take(Step.RecoveryDrop(p));
    }

    method Disable(gid: int)
      requires Valid()
      modifies this, service, service.cells.Keys
      ensures Valid() && Stepped(old(system), Step.Disable(gid), system)
    {
      RunIsWired();
      service.CancelGroup(gid);
      Take(Step.Disable(gid));
    }

    method Unregister(gid: int)
      requires Valid()
      modifies this, service, service.cells.Keys
      ensures Valid() && Stepped(old(system), Step.Unregister(gid), system)
    {
      RunIsWired();
      service.RemoveGroup(gid);
      Take(Step.Unregister(gid));
    }

    /** The settings add or drop the group; the service learns of it only when it asks. */
    ghost method Register(gid: int, known: bool)
      requires Valid()
      modifies `history, `system
      ensures Valid() && Stepped(old(system), Step.Register(gid, known), system)
    {
      RunIsWired();
      Take(Step.Register(gid, known));
    }

    method Shutdown()
      requires Valid()
      modifies this, service, service.cells.Keys
      ensures Valid() && Stepped(old(system), Step.Shutdown, system)
    {
      RunIsWired();
      service.Shutdown();
      Take(Step.Shutdown);
    }

    // ---- Grading ----

    method ReadChannel(key: Key, known: bool)
      requires Valid()
      modifies this, service, service.cells.Keys
      ensures Valid() && Stepped(old(system), Step.ReadChannel(key, known), system)
    {
      RunIsWired();
      service.MarkChannel(key, known);
      Take(Step.ReadChannel(key, known));
    }

    method Adopt(p: Pended)
      requires Valid() && p in service.cells
      modifies this, service, service.cells.Keys
      ensures Valid() && Stepped(old(system), Step.Adopt(p), system)
    {
      RunIsWired();
      assert service.cells[p] == p.Snapshot();
      service.AdoptAsHeld(p);
      Take(Step.Adopt(p));
    }

    method FreeAnswer(key: Key, nonce: string, reply: FreeReply) returns (granted: bool)
      requires Valid()
      modifies this, service, service.cells.Keys
      ensures Valid() && Stepped(old(system), Step.FreeAnswer(key, nonce, reply), system)
    {
      RunIsWired();
      granted := service.MarkFree(key, nonce, reply);
      Take(Step.FreeAnswer(key, nonce, reply));
    }

    method FailedTry(key: Key, nonce: string) returns (left: Option<nat>)
      requires Valid()
      modifies this, service, service.cells.Keys
      ensures Valid() && Stepped(old(system), Step.FailedTry(key, nonce), system)
    {
      RunIsWired();
      left := service.RecordTry(key, nonce);
      Take(Step.FailedTry(key, nonce));
    }
  }
}
