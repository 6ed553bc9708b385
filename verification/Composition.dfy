/** What holds of the whole system after any run: money out against pockets, and funding in. */
module Composition {
  import opened Results
  import opened PocketMachine
  import opened LegStatus
  import opened Records
  import opened History
  import opened Invariants
  import opened Runs
  import opened Guarantees
  import opened System
  import opened Protocol

  // ---------------------------------------------------------------- every pocket keeps its invariant

  ghost predicate PocketsOk(pol: Policy, db: Db) {
    forall id :: id in db ==> Inv(pol, db[id])
  }

  lemma StatusesKeepInv(pol: Policy, s: Slice, legs: Legs)
    requires Inv(pol, s) && Amounts(legs) == Amounts(s.legs)
    ensures Inv(pol, s.(legs := legs))
  {
    hide TermsInv, LogInv, RebuildInv, DeadlineInv, TimingInv, DisputeInv, OutcomeInv, InstantInv, SeatsInv, Plan,
        Amounts;
  }

  lemma UpdateKeepsPockets(pol: Policy, db: Db, key: LegKey, u: Update)
    requires PocketsOk(pol, db) && KeyIn(db, key)
    ensures PocketsOk(pol, UpdateLeg(db, key, u))
  {
    hide Inv;
    var s, t := db[key.pocket], UpdateLeg(db, key, u)[key.pocket];
    assert Amounts(t.legs) == Amounts(s.legs);
    StatusesKeepInv(pol, s, t.legs);
  }

  lemma WriteKeepsPockets(pol: Policy, db: Db, id: PocketId, s: Slice)
    requires PocketsOk(pol, db) && Inv(pol, s)
    ensures PocketsOk(pol, db[id := s])
  {
    hide Inv;
  }

  lemma ExecKeepsPockets(pol: Policy, db: Db, id: PocketId, op: Op)
    requires PocketsOk(pol, db) && id in db && Exec(pol, db[id], op).Ok?
    ensures PocketsOk(pol, db[id := Exec(pol, db[id], op).value])
  {
    hide Inv, Exec;
    ExecKeepsInv(pol, db[id], op);
    WriteKeepsPockets(pol, db, id, Exec(pol, db[id], op).value);
  }

  lemma NextKeepsPockets(pol: Policy, s: Sys, step: Step)
    requires PocketsOk(pol, s.db)
    ensures PocketsOk(pol, Next(pol, s, step).db)
  {
    hide Inv, Exec, CreateDraft, UpdateLeg, PocketsOk, Next, ChangeOf;
    StepChanges(pol, s, step);
    match ChangeOf(pol, s, step) {
      case Same =>
      case Drafted(id, slice) =>
        CreateEstablishesInv(pol, step.terms, step.user, step.now);
        WriteKeepsPockets(pol, s.db, id, slice);
      case Written(id, op) => ExecKeepsPockets(pol, s.db, id, op);
      case Marked(key, u) => UpdateKeepsPockets(pol, s.db, key, u);
    }
  }

  // ---------------------------------------------------------------- funding comes in once

  /** A credit logged with a stated amount was not an underpayment. */
  ghost predicate NoUnderpayment(s: Slice) {
    forall i :: 0 <= i < |s.log| && s.log[i].paid > 0 ==> s.log[i].paid >= s.row.buyerTotalKobo
  }

  /** What an ingester has established stays established while it is between steps. */
  ghost predicate IngesterOk(db: Db, g: Ingester) {
    && (g.Checked? ==> g.pocket in db && (g.paid > 0 ==> g.paid >= db[g.pocket].row.buyerTotalKobo))
    && (g.Rechecking? ==> g.pocket in db)
    && (g.Credited? ==> g.pocket in db && FundingApplied(db[g.pocket].row.state))
  }

  ghost predicate FundingOk(s: Sys) {
    && (forall w :: w in s.ingesters ==> IngesterOk(s.db, s.ingesters[w]))
    && (forall e :: e in s.hooks && s.hooks[e].Some? ==>
          s.hooks[e].value in s.db && FundingApplied(s.db[s.hooks[e].value].row.state))
    && (forall id :: id in s.db ==> NoUnderpayment(s.db[id]))
  }

  /** A write extends the log by at most one row, with the stated amount of a funding credit and no other,
      and keeps the buyer's total and any applied funding. */
  ghost predicate FundingKept(s: Slice, t: Slice, paid: int) {
    && t.row.buyerTotalKobo == s.row.buyerTotalKobo
    && (FundingApplied(s.row.state) ==> FundingApplied(t.row.state))
    && (t.log == s.log || (|t.log| == |s.log| + 1 && t.log[..|s.log|] == s.log && t.log[|s.log|].paid in {0, paid}))
  }

  lemma TransitionKeepsFundingFacts(pol: Policy, s: Slice, actor: Actor, now: Time, ev: Event, paid: int)
    requires ApplyTransition(s, Read(pol, s), actor, now, ev, paid).Ok?
    ensures FundingKept(s, ApplyTransition(s, Read(pol, s), actor, now, ev, paid).value, paid)
  {
    MachineFollowsTable(Load(pol, s.row), now, ev);
  }

  function StatedAmount(op: Op): int { if op.CreditFundingOp? then op.paid else 0 }

  lemma ExecKeepsFundingFacts(pol: Policy, s: Slice, op: Op)
    requires Exec(pol, s, op).Ok?
    ensures FundingKept(s, Exec(pol, s, op).value, StatedAmount(op))
  {
    hide ApplyTransition, AllAccepted, HoldsSeat, Load;
    forall actor: Actor, now: Time, ev: Event, paid: int | ApplyTransition(s, Read(pol, s), actor, now, ev, paid).Ok?
      ensures FundingKept(s, ApplyTransition(s, Read(pol, s), actor, now, ev, paid).value, paid)
    {
      TransitionKeepsFundingFacts(pol, s, actor, now, ev, paid);
    }
  }

  lemma WriteKeepsFunding(s: Sys, id: PocketId, t: Slice, paid: int)
    requires FundingOk(s)
    requires id in s.db ==> FundingKept(s.db[id], t, paid)
    requires id !in s.db ==> t.log == []
    requires paid > 0 ==> id in s.db && paid >= s.db[id].row.buyerTotalKobo
    ensures FundingOk(s.(db := s.db[id := t]))
  {
    var db' := s.db[id := t];
    assert NoUnderpayment(t) by {
      if id in s.db {
        assert NoUnderpayment(s.db[id]);
        assert forall i :: 0 <= i < |s.db[id].log| ==> t.log[i] == s.db[id].log[i];
      }
    }
    forall w | w in s.ingesters ensures IngesterOk(db', s.ingesters[w]) {
      assert IngesterOk(s.db, s.ingesters[w]);
    }
  }

  lemma UpdateKeepsFunding(s: Sys, key: LegKey, u: Update)
    requires FundingOk(s) && KeyIn(s.db, key)
    ensures FundingOk(s.(db := UpdateLeg(s.db, key, u)))
  {
    var t := UpdateLeg(s.db, key, u)[key.pocket];
    assert FundingKept(s.db[key.pocket], t, 0);
    WriteKeepsFunding(s, key.pocket, t, 0);
  }

  lemma IngesterStepKeepsFunding(s: Sys, w: WorkerId, g: Ingester)
    requires FundingOk(s) && IngesterOk(s.db, g)
    ensures FundingOk(s.(ingesters := s.ingesters[w := g]))
  {
  }

  lemma CheckIsRight(pol: Policy, s: Sys, event: Option<EventId>, id: PocketId, paid: int)
    requires PocketsOk(pol, s.db) && id in s.db
    ensures IngesterOk(s.db, Check(pol, s, event, id, paid))
  {
    assert Inv(pol, s.db[id]);
    hide LogInv, RebuildInv, DeadlineInv, TimingInv, LegsInv, DisputeInv, OutcomeInv, InstantInv, SeatsInv;
    PlanFacts(pol, s.db[id].row);
  }

  lemma CreditKeepsFunding(pol: Policy, s: Sys, w: WorkerId, now: Time)
    requires FundingOk(s)
    ensures FundingOk(Next(pol, s, Credit(w, now)))
  {
    var at := IngesterAt(s, w);
    if at.Checked? {
      assert IngesterOk(s.db, at);
      var op := CreditFundingOp(at.paid, now);
      if Exec(pol, s.db[at.pocket], op).Ok? {
        var t := Exec(pol, s.db[at.pocket], op).value;
        ExecKeepsFundingFacts(pol, s.db[at.pocket], op);
        CreditIsFunding(pol, s.db[at.pocket], at.paid, now);
        hide Exec;
        WriteKeepsFunding(s, at.pocket, t, at.paid);
        IngesterStepKeepsFunding(s.(db := s.db[at.pocket := t]), w, Credited(at.event, at.pocket));
      } else {
        IngesterStepKeepsFunding(s, w, Rechecking(at.event, at.pocket));
      }
    }
  }

  lemma CreditIsFunding(pol: Policy, s: Slice, paid: int, now: Time)
    requires Exec(pol, s, CreditFundingOp(paid, now)).Ok?
    ensures Exec(pol, s, CreditFundingOp(paid, now)).value.row.state.Funded?
  {
    MachineFollowsTable(Load(pol, s.row), now, Plain(FundingConfirmed));
  }

  lemma RecheckKeepsFunding(pol: Policy, s: Sys, w: WorkerId)
    requires FundingOk(s)
    ensures FundingOk(Next(pol, s, Recheck(w)))
    ensures FundingOk(Next(pol, s, Drop(w)))
  {
    var at := IngesterAt(s, w);
    if at.Rechecking? && at.pocket in s.db && FundingApplied(s.db[at.pocket].row.state) {
      IngesterStepKeepsFunding(s, w, Credited(at.event, at.pocket));
    }
    IngesterStepKeepsFunding(s, w, Off);
  }

  lemma MarkKeepsFunding(pol: Policy, s: Sys, w: WorkerId)
    requires FundingOk(s)
    ensures FundingOk(Next(pol, s, Mark(w)))
  {
    var at := IngesterAt(s, w);
    if at.Credited? { assert IngesterOk(s.db, at); }
  }

  lemma ReceiveKeepsFunding(pol: Policy, s: Sys, w: WorkerId, event: EventId)
    requires FundingOk(s)
    ensures FundingOk(Next(pol, s, Receive(w, event)))
  {
  }

  lemma FundingIgnoresWorkers(s: Sys, t: Sys)
    requires FundingOk(s) && (t.db, t.hooks, t.ingesters) == (s.db, s.hooks, s.ingesters)
    ensures FundingOk(t)
  {
  }

  lemma CancelKeepsFunding(pol: Policy, s: Sys, w: WorkerId, now: Time)
    requires FundingOk(s)
    ensures FundingOk(Next(pol, s, CommitCancel(w, now)))
  {
    hide Exec, FundingOk;
    var at, t := CancellerAt(s, w), Next(pol, s, CommitCancel(w, now));
    if at.Decided? && at.pocket in s.db {
      var op := CancelOp(at.role, now);
      if Exec(pol, s.db[at.pocket], op).Ok? {
        ExecKeepsFundingFacts(pol, s.db[at.pocket], op);
        WriteKeepsFunding(s, at.pocket, Exec(pol, s.db[at.pocket], op).value, 0);
      }
      FundingIgnoresWorkers(s.(db := t.db), t);
    }
  }

  /** Steps of workers and the bank. */
  lemma LegStepKeepsFunding(pol: Policy, s: Sys, step: Step)
    requires FundingOk(s) && (step.Claim? || step.Settle? || step.NoticePaid? || step.NoticeFailed?)
    ensures FundingOk(Next(pol, s, step))
  {
    hide UpdateLeg, FundingOk;
    var t := Next(pol, s, step);
    match step {
      case Claim(w, key) =>
        if KeyIn(s.db, key) && t != s {
          UpdateKeepsFunding(s, key, ClaimLeg);
          FundingIgnoresWorkers(s.(db := t.db), t);
        }
      case Settle(w) =>
        var at := WorkerAt(s, w);
        if at.Returned? && KeyIn(s.db, at.key) {
          if UpdateFor(at.answer).Some? { UpdateKeepsFunding(s, at.key, UpdateFor(at.answer).value); }
          FundingIgnoresWorkers(s.(db := t.db), t);
        }
      case NoticePaid(i) =>
        if i < |s.ledger| && KeyIn(s.db, s.ledger[i].key) { UpdateKeepsFunding(s, s.ledger[i].key, ConfirmLeg); }
      case NoticeFailed(i) =>
        if i < |s.ledger| && KeyIn(s.db, s.ledger[i].key) { UpdateKeepsFunding(s, s.ledger[i].key, FailLeg); }
      case _ =>
    }
  }

  lemma NextKeepsFunding(pol: Policy, s: Sys, step: Step)
    requires PocketsOk(pol, s.db) && FundingOk(s)
    ensures FundingOk(Next(pol, s, step))
  {
    hide Next, PocketsOk, FundingOk;
    match step {
      case Create(id, terms, user, now) => WriteStepKeepsFunding(pol, s, step);
      case Write(id, op) => WriteStepKeepsFunding(pol, s, step);
      case Claim(w, key) => LegStepKeepsFunding(pol, s, step);
      case Settle(w) => LegStepKeepsFunding(pol, s, step);
      case NoticePaid(i) => LegStepKeepsFunding(pol, s, step);
      case NoticeFailed(i) => LegStepKeepsFunding(pol, s, step);
      case Look(w, id, paid) => CheckStepKeepsFunding(pol, s, step);
      case Pull(w, id, paid) => CheckStepKeepsFunding(pol, s, step);
      case Credit(w, now) => CreditKeepsFunding(pol, s, w, now);
      case Receive(w, event) => ReceiveKeepsFunding(pol, s, w, event);
      case Recheck(w) => RecheckKeepsFunding(pol, s, w);
      case Mark(w) => MarkKeepsFunding(pol, s, w);
      case Drop(w) => RecheckKeepsFunding(pol, s, w);
      case CommitCancel(w, now) => CancelKeepsFunding(pol, s, w, now);
      case _ => OtherStepKeepsFunding(pol, s, step);
    }
  }

  lemma WriteStepKeepsFunding(pol: Policy, s: Sys, step: Step)
    requires FundingOk(s) && (step.Create? || step.Write?)
    ensures FundingOk(Next(pol, s, step))
  {
    hide Exec, CreateDraft, FundingOk;
    match step {
      case Create(id, terms, user, now) =>
        var result := CreateDraft(pol, terms, user, now);
        if id !in s.db && result.Ok? {
          CreateHasNoLog(pol, terms, user, now);
          WriteKeepsFunding(s, id, result.value, 0);
        }
      case Write(id, op) =>
        if id in s.db && Exec(pol, s.db[id], op).Ok? && (op.CreditFundingOp? ==> op.paid == 0) {
          ExecKeepsFundingFacts(pol, s.db[id], op);
          WriteKeepsFunding(s, id, Exec(pol, s.db[id], op).value, 0);
        }
    }
  }

  lemma CheckStepKeepsFunding(pol: Policy, s: Sys, step: Step)
    requires PocketsOk(pol, s.db) && FundingOk(s) && (step.Look? || step.Pull?)
    ensures FundingOk(Next(pol, s, step))
  {
    hide Check, PocketsOk, FundingOk, IngesterOk;
    match step {
      case Look(w, id, paid) =>
        if id in s.db && IngesterAt(s, w).Received? {
          CheckIsRight(pol, s, Some(IngesterAt(s, w).hook), id, paid);
          IngesterStepKeepsFunding(s, w, Check(pol, s, Some(IngesterAt(s, w).hook), id, paid));
        }
      case Pull(w, id, paid) =>
        if id in s.db {
          CheckIsRight(pol, s, None, id, paid);
          IngesterStepKeepsFunding(s, w, Check(pol, s, None, id, paid));
        }
    }
  }

  lemma OtherStepKeepsFunding(pol: Policy, s: Sys, step: Step)
    requires FundingOk(s)
    requires step.Submit? || step.Unauthorised? || step.Reply? || step.Crash? || step.Refuse? || step.TakeOn?
             || step.Execute? || step.Reverse? || step.ReadForCancel? || step.GiveUp?
    ensures FundingOk(Next(pol, s, step))
  {
    hide FundingOk, Exec, Check, UpdateLeg, CreateDraft;
    FundingIgnoresWorkers(s, Next(pol, s, step));
  }

  lemma CreateHasNoLog(pol: Policy, terms: Terms, user: string, now: Time)
    requires CreateDraft(pol, terms, user, now).Ok?
    ensures CreateDraft(pol, terms, user, now).value.log == []
  {
  }

  // ---------------------------------------------------------------- every run

  lemma {:induction false} EveryRunKeepsInvariants(pol: Policy, steps: seq<Step>)
    ensures Safe(After(pol, steps)) && PocketsOk(pol, After(pol, steps).db) && FundingOk(After(pol, steps))
  {
    if steps != [] {
      var before := After(pol, steps[..|steps| - 1]);
      EveryRunKeepsInvariants(pol, steps[..|steps| - 1]);
      hide Next, Safe, PocketsOk, FundingOk;
      NextKeepsSafe(pol, before, steps[|steps| - 1]);
      NextKeepsPockets(pol, before, steps[|steps| - 1]);
      NextKeepsFunding(pol, before, steps[|steps| - 1]);
    }
  }

  /** Funding happens once, however webhooks, their redeliveries, pull verification and the sandbox
      shortcut interleave: a pocket's log holds at most one credit, exactly the states at or past FUNDED
      hold one, a notification marked processed did fund its pocket, and no stated amount below the
      buyer total was ever credited. */
  lemma {:induction false} FundingHappensOnce(pol: Policy, steps: seq<Step>, id: PocketId)
    requires id in After(pol, steps).db
    ensures var s := After(pol, steps).db[id];
            && CountOf(s.log, Of(FundingConfirmed)) <= 1
            && (FundingApplied(s.row.state) <==> CountOf(s.log, Of(FundingConfirmed)) == 1)
            && (forall e :: e in After(pol, steps).hooks && After(pol, steps).hooks[e] == Some(id) ==>
                  FundingApplied(s.row.state))
            && forall i :: 0 <= i < |s.log| && s.log[i].paid > 0 ==> s.log[i].paid >= s.row.buyerTotalKobo
  {
    EveryRunKeepsInvariants(pol, steps);
    hide Safe, After, TermsInv, RebuildInv, DeadlineInv, TimingInv, LegsInv, DisputeInv, OutcomeInv, InstantInv,
        SeatsInv;
    assert Inv(pol, After(pol, steps).db[id]) && NoUnderpayment(After(pol, steps).db[id]);
  }

  // ---------------------------------------------------------------- money goes out once

  /** Transfers of a leg the bank has executed and not sent back. */
  function Executions(ledger: seq<Transfer>, key: LegKey): nat {
    if ledger == [] then 0
    else
      var last := ledger[|ledger| - 1];
      Executions(ledger[..|ledger| - 1], key) + if last.key == key && last.verdict.Executed? then 1 else 0
  }

  /** Transfers of a leg not refused outright: the only ones that ever move its money. */
  function Standing(ledger: seq<Transfer>, key: LegKey): nat {
    if ledger == [] then 0
    else
      var last := ledger[|ledger| - 1];
      Standing(ledger[..|ledger| - 1], key) + if last.key == key && !last.verdict.Refused? then 1 else 0
  }

  /** Nothing the bank took on for these is still to be executed, or was sent back. */
  predicate Cleared(ledger: seq<Transfer>, key: LegKey) {
    forall i :: 0 <= i < |ledger| && ledger[i].key == key ==> !ledger[i].verdict.Taken? && !ledger[i].verdict.Reversed?
  }

  lemma {:induction false} StandingCount(ledger: seq<Transfer>, key: LegKey)
    requires OneLive(ledger)
    ensures Executions(ledger, key) <= Standing(ledger, key) <= 1
    ensures Standing(ledger, key) == 0 <==> AllRefused(ledger, key)
    ensures Acknowledged(ledger, key) && Cleared(ledger, key) ==> Executions(ledger, key) == 1
  {
    if ledger != [] {
      var n := |ledger| - 1;
      var front := ledger[..n];
      StandingCount(front, key);
      assert forall i :: 0 <= i < n ==> front[i] == ledger[i];
      if Acknowledged(ledger, key) && !(ledger[n].key == key && ledger[n].verdict.TakenOn()) {
        var i :| 0 <= i < |ledger| && ledger[i].key == key && ledger[i].verdict.TakenOn();
        assert front[i] == ledger[i];
      }
    }
  }

  /** In every interleaving of workers, sweeps, bank verdicts and truthful notices, with crashes between
      any two steps: at most one transfer of a leg is ever let through, so it is executed at most once; one
      stands behind a confirmed leg, and it is executed unless the bank has yet to or sent it back; a
      pending leg has none, executed or on the wire; and no two workers hold the same leg. */
  lemma EachLegMovesAtMostOnce(pol: Policy, steps: seq<Step>, key: LegKey)
    ensures var s := After(pol, steps);
            && Executions(s.ledger, key) <= Standing(s.ledger, key) <= 1
            && (KeyIn(s.db, key) && LegAt(s.db, key).status.Confirmed? ==>
                  && Standing(s.ledger, key) == 1
                  && (Cleared(s.ledger, key) ==> Executions(s.ledger, key) == 1))
            && (KeyIn(s.db, key) && LegAt(s.db, key).status.Pending? ==>
                  Standing(s.ledger, key) == 0 && AllRefused(s.ledger, key))
            && (!KeyIn(s.db, key) ==> Standing(s.ledger, key) == 0)
            && forall v, w :: v != w && !WorkerAt(s, v).Idle? && !WorkerAt(s, w).Idle? ==>
                 WorkerAt(s, v).key != WorkerAt(s, w).key
  {
    EveryRunKeepsInvariants(pol, steps);
    hide After, PocketsOk, FundingOk;
    var s := After(pol, steps);
    StandingCount(s.ledger, key);
    hide OneLive;
  }

  /** Everything the bank executed for one pocket. */
  function Outflow(ledger: seq<Transfer>, id: PocketId): int {
    if ledger == [] then 0
    else
      var last := ledger[|ledger| - 1];
      Outflow(ledger[..|ledger| - 1], id)
      + if last.key.pocket == id && last.verdict.Executed? then last.amountKobo else 0
  }

  /** Everything the bank executed for one leg. */
  function LegFlow(ledger: seq<Transfer>, key: LegKey): int {
    if ledger == [] then 0
    else
      var last := ledger[|ledger| - 1];
      LegFlow(ledger[..|ledger| - 1], key) + if last.key == key && last.verdict.Executed? then last.amountKobo else 0
  }

  /** A leg executed at most once carried its recorded amount. */
  lemma {:induction false} LegFlowIsItsAmount(ledger: seq<Transfer>, key: LegKey, amountKobo: int)
    requires forall i :: 0 <= i < |ledger| && ledger[i].key == key ==> ledger[i].amountKobo == amountKobo
    requires Executions(ledger, key) <= 1
    ensures LegFlow(ledger, key) == if Executions(ledger, key) == 1 then amountKobo else 0
  {
    if ledger != [] { LegFlowIsItsAmount(ledger[..|ledger| - 1], key, amountKobo); }
  }

  /** A pocket's outflow is that of its three possible legs. */
  lemma {:induction false} OutflowByLeg(ledger: seq<Transfer>, id: PocketId)
    requires forall i :: 0 <= i < |ledger| && ledger[i].key.pocket == id ==>
               ledger[i].key.slot in {VENDOR_PAYOUT, BROKER_PAYOUT, BUYER_REFUND}
    ensures Outflow(ledger, id) == LegFlow(ledger, LegKey(id, VENDOR_PAYOUT))
                                 + LegFlow(ledger, LegKey(id, BROKER_PAYOUT))
                                 + LegFlow(ledger, LegKey(id, BUYER_REFUND))
  {
    if ledger != [] { OutflowByLeg(ledger[..|ledger| - 1], id); }
  }

  /** What a leg has moved, given how often it was executed. */
  function Moved(ledger: seq<Transfer>, id: PocketId, legs: Legs, slot: LegSlot): int {
    if Executions(ledger, LegKey(id, slot)) == 1 then AmountAt(legs, slot) else 0
  }

  lemma OutflowOfPocket(ledger: seq<Transfer>, id: PocketId, legs: Legs)
    requires legs.Keys <= {VENDOR_PAYOUT, BROKER_PAYOUT, BUYER_REFUND}
    requires forall i :: 0 <= i < |ledger| && ledger[i].key.pocket == id ==>
               ledger[i].key.slot in legs && ledger[i].amountKobo == legs[ledger[i].key.slot].amountKobo
    requires forall slot :: Executions(ledger, LegKey(id, slot)) <= 1
    ensures Outflow(ledger, id) == Moved(ledger, id, legs, VENDOR_PAYOUT) + Moved(ledger, id, legs, BROKER_PAYOUT)
                                 + Moved(ledger, id, legs, BUYER_REFUND)
  {
    OutflowByLeg(ledger, id);
    hide Outflow, LegFlow, Executions;
    LegFlowIsItsAmount(ledger, LegKey(id, VENDOR_PAYOUT), AmountAt(legs, VENDOR_PAYOUT));
    LegFlowIsItsAmount(ledger, LegKey(id, BROKER_PAYOUT), AmountAt(legs, BROKER_PAYOUT));
    LegFlowIsItsAmount(ledger, LegKey(id, BUYER_REFUND), AmountAt(legs, BUYER_REFUND));
  }

  predicate AllConfirmed(legs: Legs) {
    forall slot :: slot in legs ==> legs[slot].status.Confirmed?
  }

  ghost predicate AllCleared(ledger: seq<Transfer>, id: PocketId) {
    forall slot :: Cleared(ledger, LegKey(id, slot))
  }

  /** Conservation: in every reachable state of the whole system, the bank has paid out for a pocket at most
      what its buyer owed, nothing before it was funded, never both a payout and a refund; and once every
      leg is confirmed, with no transfer taken on but not executed and none sent back, exactly the goods
      value of a SETTLED pocket or the buyer's whole total of a REFUNDED one. */
  lemma MoneyIsConserved(pol: Policy, steps: seq<Step>, id: PocketId)
    requires id in After(pol, steps).db
    ensures var s, p := After(pol, steps), After(pol, steps).db[id]; var out := Outflow(s.ledger, id);
            && 0 <= out <= p.row.buyerTotalKobo
            && (out > 0 ==> FundingApplied(p.row.state) && CountOf(p.log, Of(FundingConfirmed)) == 1)
            && (Standing(s.ledger, LegKey(id, BUYER_REFUND)) == 0
                || (Standing(s.ledger, LegKey(id, VENDOR_PAYOUT)) == 0
                    && Standing(s.ledger, LegKey(id, BROKER_PAYOUT)) == 0))
            && (p.row.state.Settled? && AllConfirmed(p.legs) && AllCleared(s.ledger, id)
                ==> out == p.row.buyerTotalKobo - p.row.premiumKobo)
            && (p.row.state.Refunded? && AllConfirmed(p.legs) && AllCleared(s.ledger, id)
                ==> out == p.row.buyerTotalKobo)
  {
    hide After, Next, Safe, PocketsOk, FundingOk, TermsInv, LegsInv, WorkerAt, Executions, Standing, Cleared,
        Outflow, AllRefused;
    var s, p := After(pol, steps), After(pol, steps).db[id];
    EveryRunKeepsInvariants(pol, steps);
    FundingHappensOnce(pol, steps, id);
    PocketMoney(pol, s.db, id);
    LegsAddUp(pol, p.row, p.legs);
    forall slot ensures Executions(s.ledger, LegKey(id, slot)) <= Standing(s.ledger, LegKey(id, slot)) <= 1
                ensures slot !in p.legs ==> Standing(s.ledger, LegKey(id, slot)) == 0
                ensures slot in p.legs && p.legs[slot].status.Confirmed? && Cleared(s.ledger, LegKey(id, slot)) ==>
                          Executions(s.ledger, LegKey(id, slot)) == 1
    {
      EachLegMovesAtMostOnce(pol, steps, LegKey(id, slot));
    }
    LedgerOfPocket(s, id);
    OutflowOfPocket(s.ledger, id, p.legs);
  }

  lemma LedgerOfPocket(s: Sys, id: PocketId)
    requires Safe(s) && id in s.db
    ensures forall i :: 0 <= i < |s.ledger| && s.ledger[i].key.pocket == id ==>
              s.ledger[i].key.slot in s.db[id].legs
              && s.ledger[i].amountKobo == s.db[id].legs[s.ledger[i].key.slot].amountKobo
  {
    hide OneLive, StatusesMatch, WorkersOk;
    assert forall i :: 0 <= i < |s.ledger| ==> KeyIn(s.db, s.ledger[i].key);
  }

  lemma PocketMoney(pol: Policy, db: Db, id: PocketId)
    requires PocketsOk(pol, db) && id in db
    ensures TermsInv(db[id].row) && LegsInv(db[id].row, db[id].legs)
  {
    assert Inv(pol, db[id]);
  }
}
