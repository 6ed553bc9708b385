/** App.Cancel checks the role against an unlocked read and cancels in a later transaction: who can refund a
    FUNDED pocket, over every run of the system. */
module Cancellation {
  import opened Results
  import opened PocketMachine
  import opened Records
  import opened Invariants
  import opened Guarantees
  import opened System
  import opened Witnesses

  predicate InState(s: Sys, id: PocketId, state: State) {
    id in s.db && s.db[id].row.state == state
  }

  predicate Applied(s: Sys, id: PocketId) {
    id in s.db && FundingApplied(s.db[id].row.state)
  }

  // ---------------------------------------------------------------- one write, one step

  /** How a write enters and leaves FUNDED. */
  lemma ExecAroundFunded(pol: Policy, s: Slice, op: Op)
    requires Exec(pol, s, op).Ok?
    ensures Exec(pol, s, op).value.row.state.Funded? ==> s.row.state.Created? || s.row.state.Funded?
    ensures s.row.state.Funded? && Exec(pol, s, op).value.row.state.Refunded? ==> op.CancelOp?
  {
    hide ApplyTransition, AllAccepted, HoldsSeat, Load, Due;
    forall actor: Actor, now: Time, ev: Event, paid: int | ApplyTransition(s, Read(pol, s), actor, now, ev, paid).Ok?
      ensures Target(s.row.state, ev.kind)
           == Some(ApplyTransition(s, Read(pol, s), actor, now, ev, paid).value.row.state)
    {
      ApplyTargets(pol, s, actor, now, ev, paid);
    }
    if op.SweepOp? && s.row.state.Funded? { DueState(op.rule, s.row, op.now); }
  }

  lemma ApplyTargets(pol: Policy, s: Slice, actor: Actor, now: Time, ev: Event, paid: int)
    requires ApplyTransition(s, Read(pol, s), actor, now, ev, paid).Ok?
    ensures Target(s.row.state, ev.kind) == Some(ApplyTransition(s, Read(pol, s), actor, now, ev, paid).value.row.state)
  {
    MachineFollowsTable(Load(pol, s.row), now, ev);
  }

  lemma DueState(rule: Rule, r: Row, now: Time)
    ensures Due(rule, r, now) ==> r.state == SourceState(rule)
  {
  }

  lemma StepAroundFunded(pol: Policy, s: Sys, step: Step, id: PocketId)
    ensures id in s.db ==> id in Next(pol, s, step).db
    ensures Applied(s, id) ==> Applied(Next(pol, s, step), id)
    ensures InState(Next(pol, s, step), id, Funded) ==> InState(s, id, Funded) || InState(s, id, Created)
    ensures InState(s, id, Funded) && InState(Next(pol, s, step), id, Refunded) ==>
              step.CommitCancel? && CancellerAt(s, step.w).Decided? && CancellerAt(s, step.w).pocket == id
  {
    hide Exec, CreateDraft, Next, FundingApplied;
    StepChanges(pol, s, step);
    var c := ChangeOf(pol, s, step);
    if c.Written? {
      ExecAroundFunded(pol, s.db[c.id], c.op);
      if FundingApplied(s.db[c.id].row.state) { ExecKeepsFunding(pol, s.db[c.id], c.op); }
    }
    if c.Drafted? { CreateIsDraft(pol, step.terms, step.user, step.now); }
  }

  lemma CreateIsDraft(pol: Policy, t: Terms, user: string, now: Time)
    requires CreateDraft(pol, t, user, now).Ok?
    ensures CreateDraft(pol, t, user, now).value.row.state.Draft?
  {
  }

  // ---------------------------------------------------------------- runs

  predicate CancelsAs(step: Step, w: WorkerId) {
    (step.ReadForCancel? || step.CommitCancel? || step.GiveUp?) && step.w == w
  }

  lemma AfterOne(pol: Policy, steps: seq<Step>, step: Step)
    ensures After(pol, steps + [step]) == Next(pol, After(pol, steps), step)
  {
    assert (steps + [step])[..|steps + [step]| - 1] == steps;
  }

  /** The i-th step after some others takes the pocket from CREATED into FUNDED. */
  predicate FundsAt(pol: Policy, steps: seq<Step>, id: PocketId, i: nat)
    requires i < |steps|
  {
    InState(After(pol, steps[..i]), id, Created) && InState(After(pol, steps[..i + 1]), id, Funded)
  }

  predicate FundedBetween(pol: Policy, steps: seq<Step>, id: PocketId, from: nat) {
    exists i :: from <= i < |steps| && FundsAt(pol, steps, id, i)
  }

  lemma {:induction false} AppliedStays(pol: Policy, steps: seq<Step>, id: PocketId, n: nat)
    requires n <= |steps| && Applied(After(pol, steps[..n]), id)
    ensures Applied(After(pol, steps), id)
    decreases |steps|
  {
    if n == |steps| {
      assert steps[..n] == steps;
    } else {
      var front := steps[..|steps| - 1];
      assert front[..n] == steps[..n];
      AppliedStays(pol, front, id, n);
      hide After, Next, Applied;
      LastStep(pol, steps);
      StepAroundFunded(pol, After(pol, front), steps[|steps| - 1], id);
    }
  }

  lemma LastStep(pol: Policy, steps: seq<Step>)
    requires steps != []
    ensures After(pol, steps) == Next(pol, After(pol, steps[..|steps| - 1]), steps[|steps| - 1])
  {
  }

  /** Between an instant at which a pocket is not FUNDED and a later one at which it is, some step funds it. */
  lemma {:induction false} CrossesIntoFunded(pol: Policy, steps: seq<Step>, id: PocketId, n: nat) returns (i: nat)
    requires n <= |steps| && !InState(After(pol, steps[..n]), id, Funded) && InState(After(pol, steps), id, Funded)
    ensures n <= i < |steps| && FundsAt(pol, steps, id, i)
    decreases |steps|
  {
    hide After, Next, InState, FundsAt, Applied;
    assert steps[..|steps|] == steps;
    var front := steps[..|steps| - 1];
    assert front[..n] == steps[..n];
    LastStep(pol, steps);
    StepAroundFunded(pol, After(pol, front), steps[|steps| - 1], id);
    if InState(After(pol, front), id, Funded) {
      i := CrossesIntoFunded(pol, front, id, n);
      FundsAtInFront(pol, steps, id, i);
    } else {
      i := |steps| - 1;
      FundsAtLast(pol, steps, id);
    }
  }

  lemma FundsAtInFront(pol: Policy, steps: seq<Step>, id: PocketId, i: nat)
    requires i < |steps| - 1 && FundsAt(pol, steps[..|steps| - 1], id, i)
    ensures FundsAt(pol, steps, id, i)
  {
    hide After, InState;
    var front := steps[..|steps| - 1];
    assert front[..i] == steps[..i] && front[..i + 1] == steps[..i + 1];
  }

  lemma FundsAtLast(pol: Policy, steps: seq<Step>, id: PocketId)
    requires steps != []
    requires InState(After(pol, steps[..|steps| - 1]), id, Created) && InState(After(pol, steps), id, Funded)
    ensures FundsAt(pol, steps, id, |steps| - 1)
  {
    hide After, InState;
    assert steps[..|steps|] == steps;
  }

  /** No other step touches a canceller between its read and its commit. */
  lemma {:induction false} DecisionStays(pol: Policy, steps: seq<Step>, w: WorkerId, n: nat)
    requires n <= |steps| && forall k :: n <= k < |steps| ==> !CancelsAs(steps[k], w)
    ensures CancellerAt(After(pol, steps), w) == CancellerAt(After(pol, steps[..n]), w)
    decreases |steps|
  {
    if n == |steps| {
      assert steps[..n] == steps;
    } else {
      var front, last := steps[..|steps| - 1], steps[|steps| - 1];
      assert front[..n] == steps[..n];
      DecisionStays(pol, front, w, n);
      hide After;
      LastStep(pol, steps);
      OthersKeepDecision(pol, After(pol, front), last, w);
    }
  }

  lemma OthersKeepDecision(pol: Policy, s: Sys, step: Step, w: WorkerId)
    requires !CancelsAs(step, w)
    ensures CancellerAt(Next(pol, s, step), w) == CancellerAt(s, w)
  {
    hide Exec, CreateDraft, UpdateLeg, Check;
  }

  lemma ReadDecides(pol: Policy, s: Sys, w: WorkerId, id: PocketId, role: Role)
    requires id in s.db && CancellerAt(s, w).Away?
    ensures var t := Next(pol, s, ReadForCancel(w, id, role));
            && t.db == s.db
            && CancellerAt(t, w) == if InState(s, id, Funded) && !role.Vendor? then Away else Decided(id, role)
  {
  }

  lemma CommitRefunds(pol: Policy, s: Sys, w: WorkerId, id: PocketId, now: Time)
    requires InState(s, id, Funded)
    ensures InState(Next(pol, s, CommitCancel(w, now)), id, Refunded)
       <==> CancellerAt(s, w).Decided? && CancellerAt(s, w).pocket == id
  {
    StepAroundFunded(pol, s, CommitCancel(w, now), id);
    var at := CancellerAt(s, w);
    if at.Decided? && at.pocket == id {
      hide Transition, RecordLegs, RecordDispute, Load;
      MachineFollowsTable(Load(pol, s.db[id].row), now, Plain(VendorCancel));
      RefundsFunded(pol, s.db[id], at.role, now);
    }
  }

  lemma RefundsFunded(pol: Policy, s: Slice, role: Role, now: Time)
    requires s.row.state.Funded?
    ensures Exec(pol, s, CancelOp(role, now)).Ok?
    ensures Exec(pol, s, CancelOp(role, now)).value.row.state.Refunded?
  {
    MachineFollowsTable(Load(pol, s.row), now, Plain(VendorCancel));
  }

  // ---------------------------------------------------------------- the race

  /** A non-vendor reads a pocket after any steps and commits its cancel after any further ones. If the
      pocket is FUNDED by then, the cancel refunds it if and only if it was funded in between. */
  lemma {:induction false} NonVendorRefundsIffFundedInBetween(
    pol: Policy, before: seq<Step>, between: seq<Step>, w: WorkerId, id: PocketId, role: Role, now: Time)
    requires !role.Vendor?
    requires id in After(pol, before).db && CancellerAt(After(pol, before), w).Away?
    requires forall step :: step in between ==> !CancelsAs(step, w)
    ensures var steps := before + [ReadForCancel(w, id, role)] + between;
            InState(After(pol, steps), id, Funded) ==>
              (InState(After(pol, steps + [CommitCancel(w, now)]), id, Refunded)
               <==> FundedBetween(pol, steps, id, |before| + 1))
  {
    var read := before + [ReadForCancel(w, id, role)];
    var steps, n := read + between, |before| + 1;
    assert steps[..n] == read;
    if InState(After(pol, steps), id, Funded) {
      AfterOne(pol, before, ReadForCancel(w, id, role));
      AfterOne(pol, steps, CommitCancel(w, now));
      ReadDecides(pol, After(pol, before), w, id, role);
      DecisionStays(pol, steps, w, n);
      hide After, Next, FundsAt;
      CommitRefunds(pol, After(pol, steps), w, id, now);
      if FundedBetween(pol, steps, id, n) {
        var i :| n <= i < |steps| && FundsAt(pol, steps, id, i);
        FundedLaterOnly(pol, steps, id, n, i);
      } else if !InState(After(pol, read), id, Funded) {
        var i := CrossesIntoFunded(pol, steps, id, n);
      }
    }
  }

  lemma FundedLaterOnly(pol: Policy, steps: seq<Step>, id: PocketId, n: nat, i: nat)
    requires n <= i < |steps| && FundsAt(pol, steps, id, i)
    ensures !InState(After(pol, steps[..n]), id, Funded)
  {
    hide After;
    if InState(After(pol, steps[..n]), id, Funded) {
      assert steps[..i][..n] == steps[..n];
      AppliedStays(pol, steps[..i], id, n);
    }
  }

  /** A decision was made by a read. */
  lemma {:induction false} DecidedByARead(pol: Policy, steps: seq<Step>, w: WorkerId) returns (k: nat)
    requires CancellerAt(After(pol, steps), w).Decided?
    ensures k < |steps|
    ensures var at := CancellerAt(After(pol, steps), w);
            && steps[k] == ReadForCancel(w, at.pocket, at.role)
            && (InState(After(pol, steps[..k]), at.pocket, Funded) ==> at.role.Vendor?)
  {
    assert steps != [];
    var front, last := steps[..|steps| - 1], steps[|steps| - 1];
    hide After, Next;
    LastStep(pol, steps);
    DecisionComesFrom(pol, After(pol, front), last, w);
    if CancellerAt(After(pol, front), w) == CancellerAt(After(pol, steps), w) {
      k := DecidedByARead(pol, front, w);
      assert front[..k] == steps[..k];
    } else {
      k := |front|;
    }
  }

  lemma DecisionComesFrom(pol: Policy, s: Sys, step: Step, w: WorkerId)
    requires CancellerAt(Next(pol, s, step), w).Decided?
    ensures var at := CancellerAt(Next(pol, s, step), w);
            || CancellerAt(s, w) == at
            || (step == ReadForCancel(w, at.pocket, at.role) && (InState(s, at.pocket, Funded) ==> at.role.Vendor?))
  {
    if !CancelsAs(step, w) { OthersKeepDecision(pol, s, step, w); }
    hide Exec, CreateDraft, UpdateLeg, Check;
  }

  /** In every run: the step that takes a pocket from FUNDED to REFUNDED commits somebody's cancel, and when
      that is not the vendor's, it was read before the pocket was funded. */
  lemma {:induction false} NonVendorRefundsReadEarlier(pol: Policy, steps: seq<Step>, step: Step, id: PocketId)
    returns (k: nat, i: nat)
    requires InState(After(pol, steps), id, Funded) && InState(After(pol, steps + [step]), id, Refunded)
    ensures step.CommitCancel? && CancellerAt(After(pol, steps), step.w).Decided?
            && CancellerAt(After(pol, steps), step.w).pocket == id
    ensures var role := CancellerAt(After(pol, steps), step.w).role;
            !role.Vendor? ==>
              k < i < |steps| && steps[k] == ReadForCancel(step.w, id, role) && FundsAt(pol, steps, id, i)
  {
    AfterOne(pol, steps, step);
    hide After, Next, FundsAt;
    StepAroundFunded(pol, After(pol, steps), step, id);
    k, i := 0, 0;
    if !CancellerAt(After(pol, steps), step.w).role.Vendor? {
      k := DecidedByARead(pol, steps, step.w);
      i := CrossesIntoFunded(pol, steps, id, k);
      if i == k {
        ReadFundsNothing(pol, steps, id, k);
      }
    }
  }

  /** A read changes no pocket. */
  lemma ReadFundsNothing(pol: Policy, steps: seq<Step>, id: PocketId, k: nat)
    requires k < |steps| && steps[k].ReadForCancel?
    ensures !FundsAt(pol, steps, id, k)
  {
    hide After, Exec, CreateDraft;
    assert steps[..k + 1][..k] == steps[..k];
    LastStep(pol, steps[..k + 1]);
  }

  /** Such a run exists: create, claim, accept; the buyer reads the CREATED pocket; the payment arrives; the
      buyer's cancel commits and refunds the FUNDED pocket. */
  lemma TheRaceHappens(pol: Policy)
    requires pol.fundingTTL > 0
    ensures var steps := RACE;
            && InState(After(pol, steps[..3]), "pocket", Created)
            && InState(After(pol, steps[..5]), "pocket", Funded)
            && CancellerAt(After(pol, steps[..5]), 0) == Decided("pocket", Buyer)
            && InState(After(pol, steps), "pocket", Refunded)
  {
    hide Exec, Run, Next, Start, After;
    var first := Create("pocket", Sample(HOUR), "buyer", 0);
    var s := Start(pol, HOUR);
    FirstStep(pol);
    Opening(pol, HOUR);
    assert [] + [CLAIM] == [CLAIM] && [CLAIM] + [ACCEPT] == [CLAIM, ACCEPT];
    WriteRuns(pol, [first], [], CLAIM);
    WriteRuns(pol, [first] + [Write("pocket", CLAIM)], [CLAIM], ACCEPT);
    var made := [first] + [Write("pocket", CLAIM)] + [Write("pocket", ACCEPT)];
    assert RACE[..3] == made;
    AfterOne(pol, made, ReadForCancel(0, "pocket", Buyer));
    ReadDecides(pol, After(pol, made), 0, "pocket", Buyer);
    var read := made + [ReadForCancel(0, "pocket", Buyer)];
    OneMoreWrite(pol, s, [CLAIM, ACCEPT], PAY);
    PayFunds(pol, Run(pol, s, [CLAIM, ACCEPT]));
    WriteRuns(pol, read, [CLAIM, ACCEPT], PAY);
    var funded := read + [Write("pocket", PAY)];
    assert RACE[..5] == funded && RACE == funded + [CommitCancel(0, 0)];
    AfterOne(pol, funded, CommitCancel(0, 0));
    CommitRefunds(pol, After(pol, funded), 0, "pocket", 0);
  }

  const RACE: seq<Step> := [
    Create("pocket", Sample(HOUR), "buyer", 0), Write("pocket", CLAIM), Write("pocket", ACCEPT),
    ReadForCancel(0, "pocket", Buyer), Write("pocket", PAY), CommitCancel(0, 0)]

  lemma FirstStep(pol: Policy)
    requires pol.fundingTTL > 0
    ensures var s := After(pol, [Create("pocket", Sample(HOUR), "buyer", 0)]);
            "pocket" in s.db && s.db["pocket"] == Run(pol, Start(pol, HOUR), []) && CancellerAt(s, 0).Away?
  {
    SampleIsCreated(pol, HOUR);
    hide CreateDraft;
    var first := Create("pocket", Sample(HOUR), "buyer", 0);
    AfterOne(pol, [], first);
    assert [] + [first] == [first];
  }

  lemma WriteRuns(pol: Policy, steps: seq<Step>, ops: seq<Op>, op: Op)
    requires pol.fundingTTL > 0 && !op.CancelOp? && (op.CreditFundingOp? ==> op.paid == 0)
    requires "pocket" in After(pol, steps).db && After(pol, steps).db["pocket"] == Run(pol, Start(pol, HOUR), ops)
    ensures var t := After(pol, steps + [Write("pocket", op)]);
            && "pocket" in t.db && t.db["pocket"] == Run(pol, Start(pol, HOUR), ops + [op])
            && t.cancellers == After(pol, steps).cancellers
  {
    hide Exec, Start, After, Run;
    AfterOne(pol, steps, Write("pocket", op));
    OneMoreWrite(pol, Start(pol, HOUR), ops, op);
  }
}
