/** How long a pocket can live: a bound on accepted events, and runs that reach it. */
module Lifetime {
  import opened PocketMachine
  import opened Invariants

  /** The most events the machine can still accept. */
  function Budget(p: Pocket): nat
    requires CodePolicy(p)
  {
    match p.state
    case Created => 9
    case Funded => 8 - p.codeAttempts
    case Frozen => 7 - p.codeAttempts
    case DeliveredPending => 2
    case Disputed => 1
    case _ => 0
  }

  /** The attempt counter is within the policy, and a pocket not yet funded has none. */
  predicate CodePolicy(p: Pocket) {
    && 0 <= p.codeAttempts <= MAX_ATTEMPTS
    && (p.codeLocked <==> p.codeAttempts == MAX_ATTEMPTS)
    && (p.state.Created? ==> p.codeAttempts == 0)
  }

  lemma EventSpendsBudget(p: Pocket, now: Time, ev: Event)
    requires CodePolicy(p) && Transition(p, now, ev).Ok?
    ensures CodePolicy(Transition(p, now, ev).value.pocket)
    ensures Budget(Transition(p, now, ev).value.pocket) < Budget(p)
  {
    MachineFollowsTable(p, now, ev);
  }

  datatype Input = Input(now: Time, ev: Event)

  /** The pocket and the number of accepted events after offering the inputs in order; a refused event
      changes nothing. */
  function Offer(p: Pocket, inputs: seq<Input>): (Pocket, nat)
    decreases inputs
  {
    if inputs == [] then (p, 0)
    else
      match Transition(p, inputs[0].now, inputs[0].ev)
      case Err(_) => Offer(p, inputs[1..])
      case Ok(out) => var (q, n) := Offer(out.pocket, inputs[1..]); (q, n + 1)
  }

  lemma {:induction false} AcceptedWithinBudget(p: Pocket, inputs: seq<Input>)
    requires CodePolicy(p)
    ensures Offer(p, inputs).1 <= Budget(p)
    decreases inputs
  {
    hide Transition, Budget, CodePolicy;
    if inputs != [] {
      var result := Transition(p, inputs[0].now, inputs[0].ev);
      if result.Ok? {
        EventSpendsBudget(p, inputs[0].now, inputs[0].ev);
        AcceptedWithinBudget(result.value.pocket, inputs[1..]);
      } else {
        AcceptedWithinBudget(p, inputs[1..]);
      }
    }
  }

  /** The longest way down: fund, exhaust the code, freeze at the deadline, dispute, concede. */
  function SlowestNext(p: Pocket, now: Time): Input {
    match p.state
    case Created => Input(now, Plain(FundingConfirmed))
    case Funded =>
      if !p.codeLocked then Input(now, Plain(CodeRejected))
      else
        var lapse := if Before(now, p.deliveryDeadline) then p.deliveryDeadline.value else now;
        Input(lapse, Plain(DeliveryDeadlineLapsed))
    case Frozen => Input(now, Plain(if !p.codeLocked then CodeRejected else FrozenDispute))
    case _ => Input(now, Plain(VendorConcede))
  }

  function SlowestRun(p: Pocket, now: Time): seq<Input>
    requires CodePolicy(p)
    decreases Budget(p)
  {
    if !p.state.Created? && !p.state.Funded? && !p.state.Frozen? && !p.state.Disputed? then []
    else
      var next := SlowestNext(p, now);
      MachineFollowsTable(p, next.now, next.ev);
      EventSpendsBudget(p, next.now, next.ev);
      [next] + SlowestRun(Transition(p, next.now, next.ev).value.pocket, next.now)
  }

  /** The budget is exact: every pocket not yet delivered has a run that accepts that many events. */
  lemma {:induction false} BudgetIsReached(p: Pocket, now: Time)
    requires CodePolicy(p) && !p.state.DeliveredPending?
    ensures Offer(p, SlowestRun(p, now)).1 == Budget(p)
    decreases Budget(p)
  {
    if p.state.Created? || p.state.Funded? || p.state.Frozen? || p.state.Disputed? {
      var next := SlowestNext(p, now);
      MachineFollowsTable(p, next.now, next.ev);
      EventSpendsBudget(p, next.now, next.ev);
      var q := Transition(p, next.now, next.ev).value.pocket;
      hide Transition;
      BudgetIsReached(q, next.now);
      assert SlowestRun(p, now)[1..] == SlowestRun(q, next.now);
    }
  }

  /** Such a run needs no clock that runs backwards. */
  lemma {:induction false} SlowestRunMovesForward(p: Pocket, now: Time)
    requires CodePolicy(p)
    ensures forall i :: 0 <= i < |SlowestRun(p, now)| ==> SlowestRun(p, now)[i].now >= now
    ensures forall i, j :: 0 <= i < j < |SlowestRun(p, now)| ==> SlowestRun(p, now)[i].now <= SlowestRun(p, now)[j].now
    decreases Budget(p)
  {
    if p.state.Created? || p.state.Funded? || p.state.Frozen? || p.state.Disputed? {
      var next := SlowestNext(p, now);
      MachineFollowsTable(p, next.now, next.ev);
      EventSpendsBudget(p, next.now, next.ev);
      var q := Transition(p, next.now, next.ev).value.pocket;
      hide Transition, Budget, CodePolicy;
      SlowestRunMovesForward(q, next.now);
      assert SlowestRun(p, now) == [next] + SlowestRun(q, next.now);
    }
  }

  /** No pocket accepts more than nine events after it is created, and nine is reached. */
  lemma NineEventsAtMost(now: Time, s: Spec, inputs: seq<Input>)
    requires New(now, s).Ok?
    ensures Offer(New(now, s).value.pocket, inputs).1 <= 9
    ensures Offer(New(now, s).value.pocket, SlowestRun(New(now, s).value.pocket, now)).1 == 9
  {
    AcceptedWithinBudget(New(now, s).value.pocket, inputs);
    BudgetIsReached(New(now, s).value.pocket, now);
  }
}
