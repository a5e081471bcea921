/** What follows one settlement through a run: its pending and its action never change, and it goes
    from open to weighed to recorded. */
module SettlementTickets {
  import opened Options
  import opened Settlement
  import opened SettlementRuns
  import opened SettlementTheorems

  predicate Later(a: Stage, b: Stage) {
    b == a || b.Recorded? || (a.Open? && b.Weighed?)
  }

  /** The ticket still stands for the same settlement, or for none, and is not given out again. */
  ghost predicate KeepsTicket<P>(s: System<P>, s': System<P>, ticket: nat) {
    && s.next <= s'.next
    && (ticket in s'.flights ==>
          && ticket in s.flights
          && s'.flights[ticket] == s.flights[ticket].(stage := s'.flights[ticket].stage)
          && Later(s.flights[ticket].stage, s'.flights[ticket].stage))
  }

  lemma LaunchKeepsTicket<P>(s: System<P>, key: Key, claim: (Core<P>, Option<P>), action: Action, ticket: nat)
    requires ticket < s.next
    ensures KeepsTicket(s, Launch(s, key, claim, action), ticket)
  {
  }

  lemma ClaimKeepsTicket<P>(s: System<P>, step: Step<P>, ticket: nat)
    requires Wired(s) && Enabled(s, step) && ticket < s.next
    requires step.AdminApprove? || step.AdminBan? || step.Answer? || step.Expire?
    ensures KeepsTicket(s, Next(s, step), ticket)
  {
    match step
    case AdminApprove(key) => LaunchKeepsTicket(s, key, Claim(s.core, key, AnyClaim), Approving, ticket);
    case AdminBan(key) => LaunchKeepsTicket(s, key, Claim(s.core, key, AnyClaim), Banning, ticket);
    case Answer(key, nonce, correct) =>
      LaunchKeepsTicket(s, key, Claim(s.core, key, NonceClaim(nonce)), if correct then Approving else Declining(WrongAnswer), ticket);
    case Expire(cb) =>
      var claim := Claim(s.core, cb.timer.key, ExpiryClaim(cb.timer.nonce, cb.timer.epoch));
      LaunchKeepsTicket(s, cb.timer.key, claim, ExpiryAction(claim, cb), ticket);
  }

  lemma JudgingKeepsTicket<P>(s: System<P>, step: Step<P>, ticket: nat)
    requires Wired(s) && Enabled(s, step) && (step.Weigh? || step.PutStrike?)
    ensures KeepsTicket(s, Next(s, step), ticket)
  {
  }

  lemma OtherKeepsTicket<P>(s: System<P>, step: Step<P>, ticket: nat)
    requires Wired(s) && Enabled(s, step)
    requires step.Fire? || step.Register? || step.Retry? || step.Abandon? || step.Finish?
    ensures KeepsTicket(s, Next(s, step), ticket)
  {
  }

  lemma StepKeepsTicket<P>(s: System<P>, step: Step<P>, ticket: nat)
    requires Wired(s) && Enabled(s, step) && ticket < s.next
    ensures KeepsTicket(s, Next(s, step), ticket)
  {
    if CoreStep(step) { CoreStepShape(s, step); }
    else if step.AdminApprove? || step.AdminBan? || step.Answer? || step.Expire? { ClaimKeepsTicket(s, step, ticket); }
    else if step.Weigh? || step.PutStrike? { JudgingKeepsTicket(s, step, ticket); }
    else { OtherKeepsTicket(s, step, ticket); }
  }

  lemma {:induction false} RunKeepsTicket<P>(s: System<P>, steps: seq<Step<P>>, s': System<P>, ticket: nat)
    requires Runs(s, steps, s') && ticket < s.next
    ensures KeepsTicket(s, s', ticket)
    decreases |steps|
  {
    if steps != [] {
      StepKeepsTicket(s, steps[0], ticket);
      RunKeepsTicket(Next(s, steps[0]), steps[1..], s', ticket);
    }
  }
}
