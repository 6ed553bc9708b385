/** Saving and reloading between transitions is unobservable: the stored machine simulates the
    in-memory one, up to the dispute class, which only the disputes table keeps. */
module Persistence {
  import opened Results
  import opened PocketMachine
  import opened Records
  import opened Invariants
  import opened Lifetime

  function Forget(p: Pocket): Pocket { p.(disputeClass := NoDispute) }

  /** What a caller sees of a transition, up to the dispute class. */
  function Seen(r: Result<Outcome>): Result<Outcome> {
    match r
    case Ok(out) => Ok(out.(pocket := Forget(out.pocket)))
    case Err(e) => Err(e)
  }

  predicate Synced(pol: Policy, r: Row, p: Pocket) { Load(pol, r) == Forget(p) }

  /** The answers of a pocket kept in memory. */
  function InMemory(p: Pocket, inputs: seq<Input>): seq<Result<Outcome>>
    decreases inputs
  {
    if inputs == [] then []
    else
      var r := Transition(p, inputs[0].now, inputs[0].ev);
      [Seen(r)] + InMemory(if r.Ok? then r.value.pocket else p, inputs[1..])
  }

  /** The answers of a pocket loaded before and saved after every transition. */
  function Stored(pol: Policy, row: Row, inputs: seq<Input>): seq<Result<Outcome>>
    decreases inputs
  {
    if inputs == [] then []
    else
      var r := Transition(Load(pol, row), inputs[0].now, inputs[0].ev);
      [Seen(r)] + Stored(pol, if r.Ok? then Save(row, r.value.pocket) else row, inputs[1..])
  }

  /** The events of the first half of the lifecycle. */
  predicate Early(kind: EventKind) {
    kind.FundingConfirmed? || kind.FundingExpired? || kind.Cancel? || kind.VendorCancel?
    || kind.CodeAccepted? || kind.CodeRejected? || kind.DeliveryDeadlineLapsed?
  }

  lemma ClassIsInertEarly(p: Pocket, now: Time, ev: Event)
    requires Early(ev.kind)
    ensures Seen(Transition(Forget(p), now, ev)) == Seen(Transition(p, now, ev))
  {
    hide SettleEffects, DisputeNotify, BothNotify;
  }

  lemma ClassIsInertLate(p: Pocket, now: Time, ev: Event)
    requires !Early(ev.kind)
    ensures Seen(Transition(Forget(p), now, ev)) == Seen(Transition(p, now, ev))
  {
    hide BothNotify;
  }

  /** The dispute class influences no transition. */
  lemma ClassIsInert(p: Pocket, now: Time, ev: Event)
    ensures Seen(Transition(Forget(p), now, ev)) == Seen(Transition(p, now, ev))
  {
    hide Transition, Seen, Forget;
    if Early(ev.kind) { ClassIsInertEarly(p, now, ev); } else { ClassIsInertLate(p, now, ev); }
  }

  lemma StepStaysSynced(pol: Policy, row: Row, p: Pocket, now: Time, ev: Event)
    requires Synced(pol, row, p)
    ensures Seen(Transition(Load(pol, row), now, ev)) == Seen(Transition(p, now, ev))
    ensures Transition(p, now, ev).Ok? ==>
              Transition(Load(pol, row), now, ev).Ok?
              && Synced(pol, Save(row, Transition(Load(pol, row), now, ev).value.pocket),
                        Transition(p, now, ev).value.pocket)
  {
    ClassIsInert(p, now, ev);
    MachineFollowsTable(p, now, ev);
    MachineFollowsTable(Load(pol, row), now, ev);
    hide Transition, Guard, Target;
  }

  /** Along any run, the stored pocket answers as the in-memory one: same errors, states, deadlines,
      attempt fields and effects. */
  lemma {:induction false} StoredSimulatesInMemory(pol: Policy, row: Row, p: Pocket, inputs: seq<Input>)
    requires Synced(pol, row, p)
    ensures Stored(pol, row, inputs) == InMemory(p, inputs)
    decreases inputs
  {
    if inputs != [] {
      var now, ev := inputs[0].now, inputs[0].ev;
      StepStaysSynced(pol, row, p, now, ev);
      hide Transition, Synced, Load, Save;
      var r := Transition(Load(pol, row), now, ev);
      StoredSimulatesInMemory(
        pol, if r.Ok? then Save(row, r.value.pocket) else row,
        if r.Ok? then Transition(p, now, ev).value.pocket else p, inputs[1..]);
    }
  }

  /** The pocket launched from a stored draft survives its first save and load if and only if the platform's
      policy durations are set: New replaces a zero one by its default, and reloading brings the zero back.
      From there StoredSimulatesInMemory carries every run. */
  lemma LaunchSurvivesReloadIff(pol: Policy, now: Time, r: Row)
    requires New(now, SpecOf(pol, Load(pol, r))).Ok?
    ensures var p := New(now, SpecOf(pol, Load(pol, r))).value.pocket;
            Synced(pol, Save(r, p), p) <==> pol.gracePeriod != 0 && pol.captureWindow != 0
  {
    LaunchReloaded(pol, now, r);
  }

  lemma LaunchReloaded(pol: Policy, now: Time, r: Row)
    requires New(now, SpecOf(pol, Load(pol, r))).Ok?
    ensures var p := New(now, SpecOf(pol, Load(pol, r))).value.pocket;
            Load(pol, Save(r, p)) == p.(gracePeriod := pol.gracePeriod, captureWindow := pol.captureWindow)
  {
  }
}
