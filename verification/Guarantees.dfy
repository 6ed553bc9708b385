/** The guarantees of the write path, over every reachable set of rows. */
module Guarantees {
  import opened Results
  import opened PocketMachine
  import opened Records
  import opened History
  import opened Invariants
  import opened Runs

  // ---------------------------------------------------------------- money terms

  /** What the parties agreed to: never rewritten, only split. */
  predicate SameAgreement(a: Row, b: Row) {
    && a.buyerTotalKobo == b.buyerTotalKobo && a.premiumKobo == b.premiumKobo
    && a.amountKobo + a.commissionKobo == b.amountKobo + b.commissionKobo
    && (a.mode, a.inspectionMinutes, a.deliveryMinutes) == (b.mode, b.inspectionMinutes, b.deliveryMinutes)
  }

  lemma ExecKeepsAgreement(pol: Policy, s: Slice, op: Op)
    requires TermsInv(s.row) && Exec(pol, s, op).Ok?
    ensures SameAgreement(s.row, Exec(pol, s, op).value.row)
  {
    hide Transition, New, RecordLegs, RecordDispute, AllAccepted, HoldsSeat, Load, TermsInv;
    if op.ConvertOp? { ConvertShape(s, op.user, op.vendorKobo, op.now); P2PHasNoCommission(s.row); }
  }

  lemma InvTerms(pol: Policy, s: Slice)
    requires Inv(pol, s)
    ensures TermsInv(s.row)
  {
  }

  lemma P2PHasNoCommission(r: Row)
    requires TermsInv(r)
    ensures r.structure.P2P? ==> r.commissionKobo == 0
  {
  }

  /** The buyer's total, the goods value and the premium survive every sequence of writes. */
  lemma {:induction false} RunKeepsAgreement(pol: Policy, s: Slice, ops: seq<Op>)
    requires Inv(pol, s)
    ensures SameAgreement(s.row, Run(pol, s, ops).row)
  {
    hide Inv, Exec;
    if ops != [] {
      var before := Run(pol, s, ops[..|ops| - 1]);
      RunKeepsInv(pol, s, ops[..|ops| - 1]);
      RunKeepsAgreement(pol, s, ops[..|ops| - 1]);
      assert TermsInv(before.row) by { InvTerms(pol, before); }
      if Exec(pol, before, ops[|ops| - 1]).Ok? { ExecKeepsAgreement(pol, before, ops[|ops| - 1]); }
    }
  }

  // ---------------------------------------------------------------- tables agree

  const VENDOR_PAYOUT := LegSlot(Payout, Vendor)
  const BROKER_PAYOUT := LegSlot(Payout, Broker)
  const BUYER_REFUND := LegSlot(Refund, Buyer)

  function AmountAt(legs: Legs, slot: LegSlot): int {
    if slot in legs then legs[slot].amountKobo else 0
  }

  /** Everything the recorded legs are to move. */
  function PlannedTotal(legs: Legs): int {
    AmountAt(legs, VENDOR_PAYOUT) + AmountAt(legs, BROKER_PAYOUT) + AmountAt(legs, BUYER_REFUND)
  }

  /** The settlements table agrees with the pocket: payout legs are exactly PayoutLegs once SETTLED, the
      refund leg is the buyer total once REFUNDED, and no other state has legs. */
  lemma LegsAgree(pol: Policy, s: Slice)
    requires Reachable(pol, s)
    ensures s.row.state.Settled? ==>
              && (forall slot :: slot in s.legs <==>
                    slot.direction.Payout?
                    && exists leg :: leg in PayoutLegs(Load(pol, s.row)) && leg.role == slot.role)
              && (forall leg :: leg in PayoutLegs(Load(pol, s.row)) ==>
                    s.legs[LegSlot(Payout, leg.role)].amountKobo == leg.amountKobo)
    ensures s.row.state.Refunded? ==>
              s.legs.Keys == {BUYER_REFUND} && s.legs[BUYER_REFUND].amountKobo == s.row.buyerTotalKobo
                                            && BuyerTotalKobo(Load(pol, s.row)) == s.row.buyerTotalKobo
    ensures !s.row.state.Settled? && !s.row.state.Refunded? ==> s.legs == map[]
    ensures forall slot :: slot in s.legs ==> s.legs[slot].amountKobo > 0
  {
    hide Inv, Reachable, TermsInv, LogInv, RebuildInv, DeadlineInv, TimingInv, DisputeInv, OutcomeInv, InstantInv,
        SeatsInv,
         Plan;
    ReachableInv(pol, s);
    PlanFacts(pol, s.row);
    assert s.legs.Keys == Plan(s.row).Keys by { assert s.legs.Keys == Amounts(s.legs).Keys; }
    assert forall slot :: slot in s.legs ==> s.legs[slot].amountKobo == Plan(s.row)[slot];
  }

  /** The legs of a pocket add up: the goods value to the sellers, or everything back to the buyer. */
  lemma LegsAddUp(pol: Policy, r: Row, legs: Legs)
    requires TermsInv(r) && LegsInv(r, legs)
    ensures legs.Keys <= {VENDOR_PAYOUT, BROKER_PAYOUT, BUYER_REFUND}
    ensures r.state.Settled? <==> VENDOR_PAYOUT in legs
    ensures r.state.Refunded? <==> BUYER_REFUND in legs
    ensures BROKER_PAYOUT in legs ==> r.state.Settled?
    ensures forall slot :: slot in legs ==> legs[slot].amountKobo > 0
    ensures PlannedTotal(legs) == if r.state.Settled? then r.buyerTotalKobo - r.premiumKobo
                                  else if r.state.Refunded? then r.buyerTotalKobo else 0
    ensures PlannedTotal(legs) <= r.buyerTotalKobo
  {
    PlanFacts(pol, r);
    hide TermsInv;
    assert legs.Keys == Plan(r).Keys by { assert legs.Keys == Amounts(legs).Keys; }
    assert forall slot :: slot in legs ==> legs[slot].amountKobo == Plan(r)[slot];
    assert VENDOR_PAYOUT in legs <==> VENDOR_PAYOUT in Plan(r);
    assert BROKER_PAYOUT in legs <==> BROKER_PAYOUT in Plan(r);
    assert BUYER_REFUND in legs <==> BUYER_REFUND in Plan(r);
  }

  lemma PlanFacts(pol: Policy, r: Row)
    requires TermsInv(r)
    ensures var plan, legs := Plan(r), PayoutLegs(Load(pol, r));
            && (r.state.Settled? ==>
                  && VENDOR_PAYOUT in plan && plan[VENDOR_PAYOUT] == r.amountKobo
                  && (BROKER_PAYOUT in plan <==> r.commissionKobo > 0)
                  && (BROKER_PAYOUT in plan ==> plan[BROKER_PAYOUT] == r.commissionKobo)
                  && BUYER_REFUND !in plan
                  && (forall slot :: slot in plan <==>
                        slot.direction.Payout? && exists leg :: leg in legs && leg.role == slot.role)
                  && (forall leg :: leg in legs ==> plan[LegSlot(Payout, leg.role)] == leg.amountKobo))
            && (r.state.Refunded? ==> plan == map[BUYER_REFUND := r.buyerTotalKobo] && VENDOR_PAYOUT !in plan)
            && (!r.state.Settled? && !r.state.Refunded? ==> plan == map[])
            && (forall slot :: slot in plan ==> plan[slot] > 0)
            && BuyerTotalKobo(Load(pol, r)) == r.buyerTotalKobo
            && r.commissionKobo >= 0 && r.premiumKobo >= 0
                && r.amountKobo + r.commissionKobo == r.buyerTotalKobo - r.premiumKobo
  {
    var legs := PayoutLegs(Load(pol, r));
    assert legs[0] == PayoutLeg(Vendor, r.amountKobo);
    if r.structure.Brokered? && r.commissionKobo > 0 { assert legs[1] == PayoutLeg(Broker, r.commissionKobo); }
  }

  /** The disputes table agrees with the pocket: open exactly while DISPUTED, resolved as it ended. */
  lemma DisputesAgree(pol: Policy, s: Slice)
    requires Reachable(pol, s)
    ensures s.row.state.Disputed? <==> s.dispute.Some? && s.dispute.value.resolution.None?
    ensures s.dispute.Some? && s.dispute.value.resolution.Some? ==>
              if s.dispute.value.resolution.value.ByRefund? then s.row.state.Refunded? else s.row.state.Settled?
    ensures s.dispute.Some? <==>
              CountOf(s.log, Of(FrozenDispute)) + CountOf(s.log, Of(BuyerReportIssue)) == 1
    ensures CountOf(s.log, Of(FrozenDispute)) + CountOf(s.log, Of(BuyerReportIssue)) <= 1
    ensures s.dispute.Some? ==>
              s.dispute.value.openedBy == Party(Buyer)
              && (s.dispute.value.burden.NotDelivered? <==> CountOf(s.log, Of(FrozenDispute)) == 1)
  {
    hide Inv, Reachable, TermsInv, LogInv, RebuildInv, DeadlineInv, TimingInv, LegsInv, OutcomeInv, InstantInv,
        SeatsInv;
    ReachableInv(pol, s);
  }

  // ---------------------------------------------------------------- the log

  datatype Progress = Progress(state: State, codeAttempts: int, codeLocked: bool)

  /** One row's kind, read as a move of the table. */
  function Moved(p: Progress, tag: Tag): Option<Progress> {
    match tag
    case Launch => if p.state.Draft? then Some(Progress(Created, 0, false)) else None
    case Conversion => if p.state.Draft? then Some(p) else None
    case Of(kind) =>
      if p.state.Draft? then if kind.Cancel? then Some(p.(state := Cancelled)) else None
      else if Target(p.state, kind).None? then None
      else
        var attempts := p.codeAttempts + if kind.CodeRejected? then 1 else 0;
        Some(Progress(Target(p.state, kind).value, attempts,
                      if kind.CodeRejected? then attempts >= MAX_ATTEMPTS else p.codeLocked))
  }

  function KindsFold(log: seq<LogRow>): Option<Progress> {
    if log == [] then Some(Progress(Draft, 0, false))
    else
      var before := KindsFold(log[..|log| - 1]);
      if before.None? then None else Moved(before.value, TagOf(log[|log| - 1]))
  }

  /** The audit log is a faithful replay: gap-free, one row per version, and folding it through the
      machine rebuilds the stored pocket, deadlines and lockout included. */
  lemma LogIsFaithful(pol: Policy, s: Slice)
    requires Reachable(pol, s)
    ensures Chained(s.log, s.row.state)
    ensures s.row.version == 1 + |s.log|
    ensures s.row.codeAttempts == CountOf(s.log, Of(CodeRejected)) <= MAX_ATTEMPTS
    ensures s.row.codeLocked <==> CountOf(s.log, Of(CodeRejected)) == MAX_ATTEMPTS
    ensures Rebuild(pol, Base(pol, s.row), s.log) == Some(Load(pol, s.row))
  {
    hide Inv, Reachable, TermsInv, DeadlineInv, TimingInv, LegsInv, DisputeInv, OutcomeInv, InstantInv, SeatsInv;
    ReachableInv(pol, s);
  }

  predicate RowMatches(log: seq<LogRow>, i: nat)
    requires i < |log|
  {
    && KindsFold(log[..i]).Some? && KindsFold(log[..i]).value.state == log[i].from
    && KindsFold(log[..i + 1]).Some? && KindsFold(log[..i + 1]).value.state == log[i].to
  }

  /** Every row records the states its kind moves between. */
  predicate RowsMatch(log: seq<LogRow>) {
    forall i :: 0 <= i < |log| ==> RowMatches(log, i)
  }

  /** What the audit table itself stores says as much about state, attempts and lockout: folding the kinds
      of the rows alone, without any instant, rebuilds them, and agrees with every row's from and to. */
  lemma StoredColumnsAreEnough(pol: Policy, s: Slice)
    requires Reachable(pol, s)
    ensures KindsFold(s.log) == Some(Progress(s.row.state, s.row.codeAttempts, s.row.codeLocked))
    ensures RowsMatch(s.log)
  {
    var t: Terms, user: string, now: Time, ops: seq<Op> :|
      CreateDraft(pol, t, user, now).Ok? && s == Run(pol, CreateDraft(pol, t, user, now).value, ops);
    hide CreateDraft, Run, Inv, RowsMatch, KindsFold;
    CreateEstablishesInv(pol, t, user, now);
    RunKeepsInv(pol, CreateDraft(pol, t, user, now).value, ops);
    KindsRebuild(pol, s);
    CreateLogsNothing(pol, t, user, now);
    RunsMatch(pol, CreateDraft(pol, t, user, now).value, ops);
  }

  lemma CreateLogsNothing(pol: Policy, t: Terms, user: string, now: Time)
    requires CreateDraft(pol, t, user, now).Ok?
    ensures CreateDraft(pol, t, user, now).value.log == []
  {
  }

  lemma KindsRebuild(pol: Policy, s: Slice)
    requires Inv(pol, s)
    ensures KindsFold(s.log) == Some(Progress(s.row.state, s.row.codeAttempts, s.row.codeLocked))
  {
    assert RebuildInv(pol, s.row, s.log);
    hide Inv, Rebuild;
    KindsFollowRebuild(pol, Base(pol, s.row), s.log);
  }

  lemma {:induction false} RunsMatch(pol: Policy, s: Slice, ops: seq<Op>)
    requires Inv(pol, s) && s.log == []
    ensures RowsMatch(Run(pol, s, ops).log)
  {
    hide Inv, Exec, KindsFold;
    if ops != [] {
      var before, op := Run(pol, s, ops[..|ops| - 1]), ops[|ops| - 1];
      RunsMatch(pol, s, ops[..|ops| - 1]);
      RunKeepsInv(pol, s, ops[..|ops| - 1]);
      if Exec(pol, before, op).Ok? {
        var after := Exec(pol, before, op).value;
        ExecKeepsInv(pol, before, op);
        KindsRebuild(pol, before);
        KindsRebuild(pol, after);
        ExecLogs(pol, before, op);
        OneMoreRowMatches(before.log, after.log);
      }
    }
  }

  lemma OneMoreRowMatches(log: seq<LogRow>, log': seq<LogRow>)
    requires RowsMatch(log)
    requires log' == log
             || (&& |log'| == |log| + 1 && log'[..|log|] == log
                 && KindsFold(log).Some? && KindsFold(log).value.state == log'[|log|].from
                 && KindsFold(log').Some? && KindsFold(log').value.state == log'[|log|].to)
    ensures RowsMatch(log')
  {
    hide KindsFold;
    assert log'[..|log'|] == log';
    forall i | 0 <= i < |log'| ensures RowMatches(log', i) {
      if i < |log| {
        assert RowMatches(log, i);
        assert log'[..i] == log[..i] && log'[..i + 1] == log[..i + 1] && log'[i] == log[i];
      }
    }
  }

  /** A write logs nothing, or one row from the state it found to the state it leaves. */
  lemma ExecLogs(pol: Policy, s: Slice, op: Op)
    requires Exec(pol, s, op).Ok?
    ensures var t := Exec(pol, s, op).value;
            || t.log == s.log
            || (|t.log| == |s.log| + 1 && t.log[..|s.log|] == s.log
                && t.log[|s.log|].from == s.row.state && t.log[|s.log|].to == t.row.state)
  {
    hide Transition, AllAccepted, HoldsSeat, RecordLegs, RecordDispute;
  }

  lemma {:induction false} KindsFollowRebuild(pol: Policy, base: Pocket, log: seq<LogRow>)
    requires base.state.Draft? && base.codeAttempts == 0 && !base.codeLocked
    requires Rebuild(pol, base, log).Some?
    ensures var p := Rebuild(pol, base, log).value;
            KindsFold(log) == Some(Progress(p.state, p.codeAttempts, p.codeLocked))
  {
    if log != [] {
      var front, last := log[..|log| - 1], log[|log| - 1];
      KindsFollowRebuild(pol, base, front);
      ReplayMoves(pol, Rebuild(pol, base, front).value, last);
    }
  }

  lemma ReplayMoves(pol: Policy, p: Pocket, r: LogRow)
    requires Replay(pol, p, r).Some?
    ensures var q := Replay(pol, p, r).value;
            Moved(Progress(p.state, p.codeAttempts, p.codeLocked), TagOf(r))
            == Some(Progress(q.state, q.codeAttempts, q.codeLocked))
  {
    if r.kind.EventRow? && !p.state.Draft? { MachineFollowsTable(p, r.at, r.kind.ev); }
  }

  /** A chained log has no row after a terminal state. */
  lemma ChainGoesOn(log: seq<LogRow>, state: State, i: nat)
    requires Chained(log, state) && i + 1 < |log|
    ensures !log[i].to.IsTerminal()
  {
    assert log[i + 1].from == log[i].to;
  }

  /** A terminal state is entered by the last row alone. */
  lemma TerminalIsLast(pol: Policy, s: Slice, i: nat)
    requires Reachable(pol, s)
    requires i < |s.log| && s.log[i].to.IsTerminal()
    ensures i == |s.log| - 1 && s.row.state == s.log[i].to
  {
    LogIsFaithful(pol, s);
    hide Reachable, Chained;
    if i + 1 < |s.log| { ChainGoesOn(s.log, s.row.state, i); }
  }

  // ---------------------------------------------------------------- why money moved

  /** No refund fires on a timer alone: the run's one step into REFUNDED is its last, and is a
      participant's cancel of a FUNDED pocket, a vendor's concession, an admin's decision, or a sweep
      with the buyer's attestation on record no earlier than funding + delivery window + grace. */
  lemma RefundsAreJustified(pol: Policy, s: Slice)
    requires Reachable(pol, s) && s.row.state.Refunded?
    ensures RefundJustified(pol, s.row, s.log)
    ensures forall i :: 0 <= i < |s.log| && s.log[i].to.Refunded? ==> i == |s.log| - 1
    ensures s.row.attestedAt.Some? ==> LastAt(s.log, Of(DeliveryDeadlineLapsed)).Some?
  {
    forall i | 0 <= i < |s.log| && s.log[i].to.Refunded? ensures i == |s.log| - 1 { TerminalIsLast(pol, s, i); }
    hide Inv, Reachable, TermsInv, LogInv, RebuildInv, DeadlineInv, LegsInv, DisputeInv, InstantInv, SeatsInv;
    ReachableInv(pol, s);
  }

  /** The i-th write of a run is the buyer's attestation, made while the pocket was FROZEN. */
  predicate AttestedAt(pol: Policy, s: Slice, ops: seq<Op>, i: nat)
    requires i < |ops|
  {
    && ops[i].AttestOp? && ops[i].role.Buyer?
    && Run(pol, s, ops[..i]).row.state.Frozen? && Run(pol, s, ops[..i]).row.attestedAt.None?
  }

  /** The j-th write is the sweep that refunds a FROZEN, attested pocket past its grace deadline. */
  predicate GraceRefundAt(pol: Policy, s: Slice, ops: seq<Op>, j: nat)
    requires j < |ops|
  {
    var before := Run(pol, s, ops[..j]);
    && ops[j].SweepOp? && ops[j].rule.RefundGrace? && Due(RefundGrace, before.row, ops[j].now)
    && Run(pol, s, ops[..j + 1]).row.state.Refunded?
  }

  lemma ExecKeepsAttestation(pol: Policy, s: Slice, op: Op)
    requires Exec(pol, s, op).Ok?
    ensures s.row.attestedAt.Some? ==> Exec(pol, s, op).value.row.attestedAt == s.row.attestedAt
    ensures s.row.attestedAt.None? && Exec(pol, s, op).value.row.attestedAt.Some? ==>
              && op.AttestOp? && op.role.Buyer? && s.row.state.Frozen?
              && Exec(pol, s, op).value.row.attestedAt.value == op.now
  {
    hide Transition, AllAccepted, HoldsSeat, RecordLegs, RecordDispute, New;
  }

  /** The attestation on record was made by the buyer, at the recorded instant, while FROZEN. */
  lemma {:induction false} AttestedWhileFrozen(pol: Policy, s: Slice, ops: seq<Op>) returns (i: nat)
    requires s.row.attestedAt.None? && Run(pol, s, ops).row.attestedAt.Some?
    ensures i < |ops| && AttestedAt(pol, s, ops, i) && Run(pol, s, ops).row.attestedAt.value == ops[i].now
  {
    hide Exec;
    var n := |ops| - 1;
    var before := Run(pol, s, ops[..n]);
    if Exec(pol, before, ops[n]).Ok? { ExecKeepsAttestation(pol, before, ops[n]); }
    if before.row.attestedAt.None? {
      i := n;
    } else {
      i := AttestedWhileFrozen(pol, s, ops[..n]);
      assert ops[..n][..i] == ops[..i];
    }
  }

  /** What a write that ends in REFUNDED on the grace ground is. */
  lemma GraceRefundIsSwept(pol: Policy, s: Slice, op: Op)
    requires Exec(pol, s, op).Ok? && Exec(pol, s, op).value.row.state.Refunded?
    ensures !s.row.state.Refunded?
    ensures var t := Exec(pol, s, op).value;
            && t.log != []
            && (EndsInGraceRefund(t.log) ==> op.SweepOp? && op.rule.RefundGrace? && Due(RefundGrace, s.row, op.now))
  {
    hide AllAccepted, HoldsSeat, RecordLegs, RecordDispute, ApplyTransition;
    forall actor: Actor, now: Time, ev: Event, paid: int | ApplyTransition(s, Read(pol, s), actor, now, ev, paid).Ok?
      ensures var t := ApplyTransition(s, Read(pol, s), actor, now, ev, paid).value;
              !s.row.state.IsTerminal() && t.log != [] && t.log[|t.log| - 1].kind == EventRow(ev)
    {
      ApplyLogsItsEvent(pol, s, actor, now, ev, paid);
    }
  }

  lemma ApplyLogsItsEvent(pol: Policy, s: Slice, actor: Actor, now: Time, ev: Event, paid: int)
    requires ApplyTransition(s, Read(pol, s), actor, now, ev, paid).Ok?
    ensures var t := ApplyTransition(s, Read(pol, s), actor, now, ev, paid).value;
            !s.row.state.IsTerminal() && t.log != [] && t.log[|t.log| - 1].kind == EventRow(ev)
  {
  }

  predicate EndsInGraceRefund(log: seq<LogRow>) {
    log != [] && log[|log| - 1].kind == EventRow(Event(RefundFrozen, GraceNonReceipt, false))
  }

  /** No refund on a timer alone, as a property of the run: when a pocket was refunded on the grace ground,
      the buyer attested while it was FROZEN, and the sweep that refunded it came later. */
  lemma {:induction false} GraceRefundFollowsAttestation(pol: Policy, s: Slice, ops: seq<Op>) returns (i: nat, j: nat)
    requires s.row.attestedAt.None? && !s.row.state.Refunded?
    requires Run(pol, s, ops).row.state.Refunded? && EndsInGraceRefund(Run(pol, s, ops).log)
    ensures i < j < |ops| && AttestedAt(pol, s, ops, i) && GraceRefundAt(pol, s, ops, j)
  {
    hide Exec, Due;
    var n := |ops| - 1;
    var before := Run(pol, s, ops[..n]);
    if Exec(pol, before, ops[n]).Ok? {
      GraceRefundIsSwept(pol, before, ops[n]);
      DueIsAttested(before.row, ops[n].now);
      j := n;
      i := AttestedWhileFrozen(pol, s, ops[..n]);
      assert ops[..n + 1] == ops;
    } else {
      i, j := GraceRefundFollowsAttestation(pol, s, ops[..n]);
      assert ops[..n][..j] == ops[..j] && ops[..n][..j + 1] == ops[..j + 1];
    }
    assert ops[..n][..i] == ops[..i];
  }

  lemma DueIsAttested(r: Row, now: Time)
    requires Due(RefundGrace, r, now)
    ensures r.attestedAt.Some? && r.state.Frozen?
  {
  }

  /** Possession-gated release: a settlement follows an accepted, unlocked code and a full inspection
      window with nothing logged in between, or an admin's payout of a dispute. A locked pocket can
      only be paid out by force. */
  lemma SettlementsAreJustified(pol: Policy, s: Slice)
    requires Reachable(pol, s) && s.row.state.Settled?
    ensures s.log != [] && SettleJustified(s.row, s.log)
    ensures s.row.codeLocked ==> TagOf(s.log[|s.log| - 1]) == Of(AdminForcePayout)
    ensures forall i :: 0 <= i < |s.log| && s.log[i].to.Settled? ==> i == |s.log| - 1
  {
    forall i | 0 <= i < |s.log| && s.log[i].to.Settled? ensures i == |s.log| - 1 { TerminalIsLast(pol, s, i); }
    hide Inv, Reachable, TermsInv, LogInv, RebuildInv, DeadlineInv, TimingInv, LegsInv, DisputeInv, InstantInv,
        SeatsInv;
    ReachableInv(pol, s);
  }

  /** A locked pocket has only two ends: a refund, or an admin's payout of a dispute. */
  lemma LockedPocketsEnd(pol: Policy, s: Slice)
    requires Reachable(pol, s) && s.row.codeLocked && s.row.state.IsTerminal()
    ensures s.row.state.Refunded?
            || (s.row.state.Settled? && s.log != [] && TagOf(s.log[|s.log| - 1]) == Of(AdminForcePayout))
  {
    if s.row.state.Settled? {
      SettlementsAreJustified(pol, s);
    } else {
      hide Inv, Reachable, TermsInv, RebuildInv, DeadlineInv, TimingInv, LegsInv, DisputeInv, OutcomeInv, InstantInv,
          SeatsInv;
      ReachableInv(pol, s);
    }
  }

  /** "Settlement only from DELIVERED_PENDING" holds of a reachable pocket exactly when no admin paid
      it out of a dispute. */
  lemma SettlesFromDeliveredIff(pol: Policy, s: Slice)
    requires Reachable(pol, s) && s.row.state.Settled?
    ensures s.log != []
    ensures s.log[|s.log| - 1].from.DeliveredPending? <==> TagOf(s.log[|s.log| - 1]) != Of(AdminForcePayout)
  {
    SettlementsAreJustified(pol, s);
  }

  /** With commit times that never run backwards, an instant-mode pocket is never disputed as
      not-as-described; in general any such report came strictly inside the inspection window. */
  lemma ReportsComeInsideTheWindow(pol: Policy, s: Slice)
    requires Reachable(pol, s)
    ensures CountOf(s.log, Of(BuyerReportIssue)) <= 1
    ensures LastAt(s.log, Of(BuyerReportIssue)).Some? ==>
              && LastAt(s.log, Of(CodeAccepted)).Some?
              && LastAt(s.log, Of(BuyerReportIssue)).value
                 < LastAt(s.log, Of(CodeAccepted)).value + s.row.inspectionMinutes * MINUTE
    ensures s.row.mode.Instant? && Monotone(s.log) ==>
              CountOf(s.log, Of(BuyerReportIssue)) == 0
              && (s.dispute.Some? ==> s.dispute.value.burden.NotDelivered?)
  {
    DisputesAgree(pol, s);
    hide Inv, Reachable, TermsInv, LogInv, RebuildInv, LegsInv, DisputeInv, OutcomeInv, SeatsInv;
    ReachableInv(pol, s);
  }

  // ---------------------------------------------------------------- funding

  /** The log holds at most one funding credit, and exactly the states at or past FUNDED hold one. */
  lemma FundingIsLoggedOnce(pol: Policy, s: Slice)
    requires Reachable(pol, s)
    ensures CountOf(s.log, Of(FundingConfirmed)) <= 1
    ensures FundingApplied(s.row.state) <==> CountOf(s.log, Of(FundingConfirmed)) == 1
  {
    hide Inv, Reachable, TermsInv, RebuildInv, DeadlineInv, TimingInv, LegsInv, DisputeInv, OutcomeInv, InstantInv,
        SeatsInv;
    ReachableInv(pol, s);
  }

  lemma ExecKeepsFunding(pol: Policy, s: Slice, op: Op)
    requires Exec(pol, s, op).Ok? && FundingApplied(s.row.state)
    ensures FundingApplied(Exec(pol, s, op).value.row.state)
  {
    hide ApplyTransition, AllAccepted, HoldsSeat, Load;
    forall actor: Actor, now: Time, ev: Event, paid: int | ApplyTransition(s, Read(pol, s), actor, now, ev, paid).Ok?
      ensures FundingApplied(ApplyTransition(s, Read(pol, s), actor, now, ev, paid).value.row.state)
    {
      TransitionKeepsFunding(pol, s, actor, now, ev, paid);
    }
  }

  lemma TransitionKeepsFunding(pol: Policy, s: Slice, actor: Actor, now: Time, ev: Event, paid: int)
    requires ApplyTransition(s, Read(pol, s), actor, now, ev, paid).Ok? && FundingApplied(s.row.state)
    ensures FundingApplied(ApplyTransition(s, Read(pol, s), actor, now, ev, paid).value.row.state)
  {
    MachineFollowsTable(Load(pol, s.row), now, ev);
  }

  /** Once applied, funding stays applied. */
  lemma {:induction false} FundingStaysApplied(pol: Policy, s: Slice, ops: seq<Op>)
    requires FundingApplied(s.row.state)
    ensures FundingApplied(Run(pol, s, ops).row.state)
  {
    hide Exec;
    if ops != [] {
      var before := Run(pol, s, ops[..|ops| - 1]);
      FundingStaysApplied(pol, s, ops[..|ops| - 1]);
      if Exec(pol, before, ops[|ops| - 1]).Ok? { ExecKeepsFunding(pol, before, ops[|ops| - 1]); }
    }
  }
}
