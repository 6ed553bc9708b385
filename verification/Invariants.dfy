/** What holds of one pocket's rows after any sequence of writes. */
module Invariants {
  import opened Int64
  import opened Results
  import opened PocketMachine
  import opened LegStatus
  import opened Records
  import opened History

  // ---------------------------------------------------------------- the invariant, table by table

  predicate TermsInv(r: Row) {
    && r.amountKobo > 0 && r.commissionKobo >= 0
    && r.amountKobo + r.commissionKobo <= Int64.MAX
    && r.premiumKobo == ProtectionPremiumKobo(r.amountKobo + r.commissionKobo)
    && r.buyerTotalKobo == r.amountKobo + r.commissionKobo + r.premiumKobo
    && (r.structure.P2P? ==> r.commissionKobo == 0 && (r.creatorRole.Buyer? || r.creatorRole.Vendor?))
    && (r.structure.Brokered? ==> r.creatorRole.Broker?)
    && (r.mode.Instant? ==> r.inspectionMinutes == 0)
    && r.inspectionMinutes >= 0 && r.deliveryMinutes >= 0
  }

  predicate LogInv(r: Row, log: seq<LogRow>) {
    && r.version == 1 + |log|
    && Chained(log, r.state)
    && CountOf(log, Of(CodeRejected)) == r.codeAttempts <= MAX_ATTEMPTS
    && (r.codeLocked <==> r.codeAttempts == MAX_ATTEMPTS)
    && (r.codeAttempts > 0 ==> FundingApplied(r.state))
    && CountOf(log, Of(FundingConfirmed)) == (if FundingApplied(r.state) then 1 else 0)
    && CountOf(log, Launch) <= 1
    && (r.state.Draft? ==> CountOf(log, Launch) == 0 && forall e :: e in log ==> e.kind.ConvertedRow?)
    && (!r.state.Draft? && !r.state.Cancelled? ==> CountOf(log, Launch) == 1)
  }

  predicate RebuildInv(pol: Policy, r: Row, log: seq<LogRow>) {
    Rebuild(pol, Base(pol, r), log) == Some(Load(pol, r))
  }

  function Shifted(at: Option<Time>, window: Duration): Option<Time> {
    if at.Some? then Some(at.value + window) else None
  }

  /** Every stored deadline is a logged instant plus its window. */
  predicate DeadlineInv(pol: Policy, r: Row, log: seq<LogRow>) {
    && r.fundingExpiresAt == Shifted(LastAt(log, Launch), pol.fundingTTL)
    && r.deliveryDeadline == Shifted(LastAt(log, Of(FundingConfirmed)), r.deliveryMinutes * MINUTE)
    && r.settleAfter == Shifted(LastAt(log, Of(CodeAccepted)), r.inspectionMinutes * MINUTE)
    && (r.state.Created? ==> r.fundingExpiresAt.Some?)
    && (FundingApplied(r.state) <==> r.deliveryDeadline.Some?)
    && (r.settleAfter.Some? ==>
          !r.codeLocked && FundingApplied(r.state) && !r.state.Funded? && !r.state.Frozen?)
    && (r.state.DeliveredPending? ==> r.settleAfter.Some?)
  }

  /** A freeze waited for the delivery deadline, an issue was reported inside its window. */
  predicate TimingInv(pol: Policy, r: Row, log: seq<LogRow>) {
    var lapsed := LastAt(log, Of(DeliveryDeadlineLapsed));
    var reported := LastAt(log, Of(BuyerReportIssue));
    && (lapsed.Some? ==> r.deliveryDeadline.Some? && lapsed.value >= r.deliveryDeadline.value)
    && (r.state.Frozen? ==> lapsed.Some? && r.graceDeadline == Shifted(lapsed, pol.gracePeriod))
    && (r.attestedAt.Some? ==> lapsed.Some?)
    && (reported.Some? ==> r.settleAfter.Some? && reported.value < r.settleAfter.value)
  }

  /** The money a pocket in this state is to move. */
  function Plan(r: Row): map<LegSlot, int> {
    match r.state
    case Settled =>
      map[LegSlot(Payout, Vendor) := r.amountKobo]
      + if r.structure.Brokered? && r.commissionKobo > 0
        then map[LegSlot(Payout, Broker) := r.commissionKobo] else map[]
    case Refunded => map[LegSlot(Refund, Buyer) := r.buyerTotalKobo]
    case _ => map[]
  }

  function Amounts(legs: Legs): map<LegSlot, int> {
    map k | k in legs :: legs[k].amountKobo
  }

  predicate LegsInv(r: Row, legs: Legs) {
    Amounts(legs) == Plan(r)
  }

  predicate DisputeInv(state: State, log: seq<LogRow>, dispute: Option<Dispute>) {
    var openings := CountOf(log, Of(FrozenDispute)) + CountOf(log, Of(BuyerReportIssue));
    && openings <= 1
    && (dispute.Some? <==> openings == 1)
    && (dispute.Some? ==>
          && dispute.value.openedBy == Party(Buyer)
          && dispute.value.burden == (if CountOf(log, Of(FrozenDispute)) == 1 then NotDelivered else NotAsDescribed)
          && (dispute.value.resolution == None <==> state.Disputed?)
          && (dispute.value.resolution == Some(ByRefund) <==> state.Refunded?)
          && (dispute.value.resolution == Some(ByPayout) <==> state.Settled?)
          && (state.Disputed? || state.Refunded? || state.Settled?))
    && (state.Disputed? ==> dispute.Some?)
  }

  /** Who may refund, and when. */
  predicate RefundJustified(pol: Policy, r: Row, log: seq<LogRow>) {
    && log != []
    && var last := log[|log| - 1];
    && last.kind.EventRow? && last.to.Refunded?
    && match last.kind.ev.kind
       case VendorCancel => last.from.Funded? && last.actor.Party?
       case VendorConcede => last.from.Disputed? && last.actor == Party(Vendor)
       case AdminForceRefund => last.from.Disputed? && last.actor.Admin?
       case RefundFrozen =>
         && last.from.Frozen?
         && (|| (last.actor == Party(Vendor) && last.kind.ev.reason.VendorFailure?)
             || (&& last.actor.System? && last.kind.ev.reason.GraceNonReceipt?
                 && r.attestedAt.Some?
                 && LastAt(log, Of(FundingConfirmed)).Some?
                 && last.at >= LastAt(log, Of(FundingConfirmed)).value + r.deliveryMinutes * MINUTE + pol.gracePeriod))
       case _ => false
  }

  /** An unlocked code was accepted, the inspection window then ran out with nothing logged in
      between, or an admin paid out a dispute. */
  predicate SettleJustified(r: Row, log: seq<LogRow>) {
    && log != []
    && var last := log[|log| - 1];
    && last.to.Settled?
    && ((&& TagOf(last) == Of(SettleDue) && last.from.DeliveredPending? && |log| >= 2 && !r.codeLocked
         && var handoff := log[|log| - 2];
         && TagOf(handoff) == Of(CodeAccepted) && handoff.actor == Party(Vendor)
         && last.at >= handoff.at + r.inspectionMinutes * MINUTE)
        || (TagOf(last) == Of(AdminForcePayout) && last.actor.Admin? && last.from.Disputed?))
  }

  predicate OutcomeInv(pol: Policy, r: Row, log: seq<LogRow>) {
    && (r.state.DeliveredPending? ==>
          log != [] && TagOf(log[|log| - 1]) == Of(CodeAccepted) && log[|log| - 1].actor == Party(Vendor))
    && (r.state.Settled? ==> SettleJustified(r, log))
    && (r.state.Refunded? ==> RefundJustified(pol, r, log))
  }

  /** On a clock that never ran backwards an instant-mode pocket is not reported after its handoff. */
  predicate InstantInv(r: Row, log: seq<LogRow>) {
    Monotone(log) && r.mode.Instant? ==> CountOf(log, Of(BuyerReportIssue)) == 0
  }

  /** An accepted seat is claimed. */
  predicate Bound(seat: Seat) { seat.acceptedAt.Some? ==> seat.user != "" }

  predicate Apart(a: Seat, b: Seat) { a.user != "" ==> a.user != b.user }

  predicate SeatsInv(r: Row, log: seq<LogRow>, seats: map<Role, Seat>) {
    && seats.Keys == (if r.structure.Brokered? then {Buyer, Vendor, Broker} else {Buyer, Vendor})
    && var buyer, vendor := seats[Buyer], seats[Vendor];
    && Bound(buyer) && Bound(vendor) && Apart(buyer, vendor)
    && (CountOf(log, Launch) == 1 ==> buyer.acceptedAt.Some? && vendor.acceptedAt.Some?)
    && (r.structure.P2P? ==>
          && CountOf(log, Conversion) == 0
          && r.creatorRole in seats && seats[r.creatorRole].acceptedAt.Some?
          && (r.state.Draft? ==> buyer.acceptedAt.None? || vendor.acceptedAt.None?))
    && (r.structure.Brokered? ==>
          && var broker := seats[Broker];
          && broker.acceptedAt.Some? && Bound(broker) && Apart(buyer, broker) && Apart(vendor, broker)
          && (r.state.Draft? ==> buyer.acceptedAt.None? || vendor.acceptedAt.None?)
          && (if CountOf(log, Conversion) == 0 then buyer.acceptedAt.Some? ==> vendor.acceptedAt.Some?
              else buyer.acceptedAt.Some?))
  }

  predicate Inv(pol: Policy, s: Slice) {
    && TermsInv(s.row) && LogInv(s.row, s.log) && RebuildInv(pol, s.row, s.log)
    && DeadlineInv(pol, s.row, s.log) && TimingInv(pol, s.row, s.log)
    && LegsInv(s.row, s.legs) && DisputeInv(s.row.state, s.log, s.dispute)
    && OutcomeInv(pol, s.row, s.log) && InstantInv(s.row, s.log) && SeatsInv(s.row, s.log, s.seats)
  }

  // ---------------------------------------------------------------- the transition table

  /** The documented edges #2 to #15, and the attempt policy, which keeps the state. */
  function Target(from: State, kind: EventKind): Option<State> {
    match kind
    case FundingConfirmed => if from.Created? then Some(Funded) else None
    case FundingExpired => if from.Created? then Some(Expired) else None
    case Cancel => if from.Created? then Some(Cancelled) else None
    case VendorCancel => if from.Funded? then Some(Refunded) else None
    case CodeAccepted => if from.Funded? || from.Frozen? then Some(DeliveredPending) else None
    case CodeRejected => if from.Funded? || from.Frozen? then Some(from) else None
    case DeliveryDeadlineLapsed => if from.Funded? then Some(Frozen) else None
    case RefundFrozen => if from.Frozen? then Some(Refunded) else None
    case FrozenDispute => if from.Frozen? then Some(Disputed) else None
    case SettleDue => if from.DeliveredPending? then Some(Settled) else None
    case BuyerReportIssue => if from.DeliveredPending? then Some(Disputed) else None
    case VendorConcede => if from.Disputed? then Some(Refunded) else None
    case AdminForceRefund => if from.Disputed? then Some(Refunded) else None
    case AdminForcePayout => if from.Disputed? then Some(Settled) else None
  }

  /** The clock and lockout guards on those edges. */
  predicate Guard(p: Pocket, now: Time, kind: EventKind) {
    match kind
    case FundingExpired => !Before(now, p.fundingExpiresAt)
    case DeliveryDeadlineLapsed => !Before(now, p.deliveryDeadline)
    case SettleDue => !Before(now, p.settleAfter)
    case BuyerReportIssue => Before(now, p.settleAfter)
    case CodeAccepted => !p.codeLocked
    case CodeRejected => !p.codeLocked
    case _ => true
  }

  /** The machine accepts exactly the table's edges under exactly its guards, and each accepted
      event changes only the fields that belong to it. */
  lemma MachineFollowsTable(p: Pocket, now: Time, ev: Event)
    ensures Transition(p, now, ev).Ok? <==> Target(p.state, ev.kind).Some? && Guard(p, now, ev.kind)
    ensures Transition(p, now, ev).Ok? ==>
              var q := Transition(p, now, ev).value.pocket;
              q == p.(state := Target(p.state, ev.kind).value,
                      codeAttempts := p.codeAttempts + if ev.kind.CodeRejected? then 1 else 0,
                      codeLocked := if ev.kind.CodeRejected? then p.codeAttempts + 1 >= MAX_ATTEMPTS else p.codeLocked,
                      deliveryDeadline :=
                        if ev.kind.FundingConfirmed? then Some(now + p.deliveryWindow) else p.deliveryDeadline,
                      settleAfter := if ev.kind.CodeAccepted? then Some(now + p.inspectionWindow) else p.settleAfter,
                      graceDeadline := if ev.kind.DeliveryDeadlineLapsed? then Some(now + p.gracePeriod)
                                       else if ev.kind.CodeAccepted? then None else p.graceDeadline,
                      disputeClass := if ev.kind.FrozenDispute? then NotDelivered
                                      else if ev.kind.BuyerReportIssue? then NotAsDescribed else p.disputeClass)
  {
  }

  /** A committed step, read off the tables. */
  ghost predicate Stepped(pol: Policy, s: Slice, actor: Actor, now: Time, ev: Event, paid: int, t: Slice) {
    var p, kind := Load(pol, s.row), ev.kind;
    && Target(p.state, kind) == Some(t.row.state)
    && Guard(p, now, kind)
    && t.row == s.row.(
                  state := t.row.state,
                  codeAttempts := p.codeAttempts + if kind.CodeRejected? then 1 else 0,
                  codeLocked := if kind.CodeRejected? then p.codeAttempts + 1 >= MAX_ATTEMPTS else p.codeLocked,
                  deliveryDeadline :=
                    if kind.FundingConfirmed? then Some(now + p.deliveryWindow) else p.deliveryDeadline,
                  settleAfter := if kind.CodeAccepted? then Some(now + p.inspectionWindow) else p.settleAfter,
                  graceDeadline := if kind.DeliveryDeadlineLapsed? then Some(now + pol.gracePeriod)
                                   else if kind.CodeAccepted? then None else p.graceDeadline,
                  version := s.row.version + 1)
    && t.seats == s.seats
    && t.log == s.log + [LogRow(actor, s.row.state, t.row.state, EventRow(ev), now, paid)]
    && t.dispute == RecordDispute(s.dispute, actor, s.row.state, t.row.state,
                                  if kind.FrozenDispute? then NotDelivered else NotAsDescribed)
  }

  lemma ApplyIsStep(pol: Policy, s: Slice, actor: Actor, now: Time, ev: Event, paid: int, t: Slice)
    requires ApplyTransition(s, Read(pol, s), actor, now, ev, paid) == Ok(t)
    ensures Stepped(pol, s, actor, now, ev, paid, t)
    ensures Transition(Load(pol, s.row), now, ev).Ok?
    ensures t.legs == RecordLegs(s.legs, Transition(Load(pol, s.row), now, ev).value.effects)
  {
    MachineFollowsTable(Load(pol, s.row), now, ev);
  }

  // ---------------------------------------------------------------- transitions keep it

  /** The pairs of actor and event the use cases and sweeps can produce. */
  predicate Authorised(s: Slice, actor: Actor, now: Time, ev: Event) {
    match ev.kind
    case FundingConfirmed => actor.System?
    case FundingExpired => actor.System?
    case DeliveryDeadlineLapsed => actor.System?
    case Cancel => actor.Party?
    case VendorCancel => actor.Party?
    case CodeAccepted => actor == Party(Vendor)
    case CodeRejected => actor == Party(Vendor)
    case RefundFrozen =>
      || (actor == Party(Vendor) && ev.reason.VendorFailure?)
      || (actor.System? && ev.reason.GraceNonReceipt? && Due(RefundGrace, s.row, now))
    case FrozenDispute => actor == Party(Buyer)
    case BuyerReportIssue => actor == Party(Buyer)
    case SettleDue => actor == Party(Vendor) || actor.System?
    case VendorConcede => actor == Party(Vendor)
    case AdminForceRefund => actor.Admin?
    case AdminForcePayout => actor.Admin?
  }

  lemma StepKeepsLog(pol: Policy, s: Slice, actor: Actor, now: Time, ev: Event, paid: int, t: Slice)
    requires Stepped(pol, s, actor, now, ev, paid, t)
    requires LogInv(s.row, s.log)
    ensures LogInv(t.row, t.log)
  {
    hide Chained;
    var r := t.log[|s.log|];
    Appended(s.log, r);
    ChainAppended(s.log, s.row.state, r);
  }

  lemma StepKeepsRebuild(pol: Policy, s: Slice, actor: Actor, now: Time, ev: Event, paid: int, t: Slice)
    requires Stepped(pol, s, actor, now, ev, paid, t)
    requires !s.row.state.Draft? && RebuildInv(pol, s.row, s.log)
    requires Transition(Load(pol, s.row), now, ev).Ok?
    ensures RebuildInv(pol, t.row, t.log)
  {
    hide Transition, New, Guard;
    RebuildAppended(pol, Base(pol, s.row), s.log, t.log[|s.log|]);
    MachineFollowsTable(Load(pol, s.row), now, ev);
  }

  lemma StepKeepsDeadlines(pol: Policy, s: Slice, actor: Actor, now: Time, ev: Event, paid: int, t: Slice)
    requires Stepped(pol, s, actor, now, ev, paid, t)
    requires DeadlineInv(pol, s.row, s.log)
    ensures DeadlineInv(pol, t.row, t.log)
  {
    Appended(s.log, t.log[|s.log|]);
  }

  lemma StepKeepsTiming(pol: Policy, s: Slice, actor: Actor, now: Time, ev: Event, paid: int, t: Slice)
    requires Stepped(pol, s, actor, now, ev, paid, t)
    requires DeadlineInv(pol, s.row, s.log) && TimingInv(pol, s.row, s.log)
    ensures TimingInv(pol, t.row, t.log)
  {
    Appended(s.log, t.log[|s.log|]);
  }

  lemma StepKeepsDispute(pol: Policy, s: Slice, actor: Actor, now: Time, ev: Event, paid: int, t: Slice)
    requires Stepped(pol, s, actor, now, ev, paid, t)
    requires Authorised(s, actor, now, ev) && LogInv(s.row, s.log) && DisputeInv(s.row.state, s.log, s.dispute)
    ensures DisputeInv(t.row.state, t.log, t.dispute)
  {
    Appended(s.log, t.log[|s.log|]);
  }

  lemma StepKeepsOutcome(pol: Policy, s: Slice, actor: Actor, now: Time, ev: Event, paid: int, t: Slice)
    requires Stepped(pol, s, actor, now, ev, paid, t)
    requires Authorised(s, actor, now, ev) && LogInv(s.row, s.log) && DeadlineInv(pol, s.row, s.log)
        && TimingInv(pol, s.row, s.log) && OutcomeInv(pol, s.row, s.log)
    ensures OutcomeInv(pol, t.row, t.log)
  {
    Appended(s.log, t.log[|s.log|]);
  }

  lemma StepKeepsInstant(pol: Policy, s: Slice, actor: Actor, now: Time, ev: Event, paid: int, t: Slice)
    requires Stepped(pol, s, actor, now, ev, paid, t)
    requires TermsInv(s.row) && DeadlineInv(pol, s.row, s.log) && OutcomeInv(pol, s.row, s.log)
    requires InstantInv(s.row, s.log)
    ensures InstantInv(t.row, t.log)
  {
    InstantAppended(s.log, t.log[|s.log|]);
  }

  lemma InstantAppended(log: seq<LogRow>, e: LogRow)
    ensures Monotone(log + [e]) ==> Monotone(log) && (log != [] ==> log[|log| - 1].at <= e.at)
    ensures CountOf(log + [e], Of(BuyerReportIssue))
         == CountOf(log, Of(BuyerReportIssue)) + if TagOf(e) == Of(BuyerReportIssue) then 1 else 0
  {
    Appended(log, e);
    if Monotone(log + [e]) {
      forall i | 0 < i < |log| ensures log[i - 1].at <= log[i].at {
        assert (log + [e])[i] == log[i] && (log + [e])[i - 1] == log[i - 1];
      }
      assert log != [] ==> (log + [e])[|log| - 1] == log[|log| - 1] && (log + [e])[|log|] == e;
    }
  }

  lemma StepKeepsSeats(pol: Policy, s: Slice, actor: Actor, now: Time, ev: Event, paid: int, t: Slice)
    requires Stepped(pol, s, actor, now, ev, paid, t)
    requires SeatsInv(s.row, s.log, s.seats)
    ensures SeatsInv(t.row, t.log, t.seats)
  {
    Appended(s.log, t.log[|s.log|]);
  }

  lemma {:induction false} OnlyFirstMovesMoney(legs: Legs, es: seq<Effect>)
    requires es != []
    requires forall i :: 0 < i < |es| ==> !MovesMoney(es[i])
    ensures RecordLegs(legs, es) == RecordEffect(legs, es[0])
  {
    var front := es[..|es| - 1];
    if front == [] {
      assert RecordLegs(legs, front) == legs;
    } else {
      OnlyFirstMovesMoney(legs, front);
    }
  }

  lemma {:induction false} NothingMovesMoney(legs: Legs, es: seq<Effect>)
    requires forall i :: 0 <= i < |es| ==> !MovesMoney(es[i])
    ensures RecordLegs(legs, es) == legs
  {
    if es != [] { NothingMovesMoney(legs, es[..|es| - 1]); }
  }

  lemma PayoutsRecorded(p: Pocket)
    ensures InsertPayouts(map[], PayoutLegs(p))
         == map[LegSlot(Payout, Vendor) := Leg(p.amountKobo, Pending)]
          + if p.structure.Brokered? && p.commissionKobo > 0
            then map[LegSlot(Payout, Broker) := Leg(p.commissionKobo, Pending)] else map[]
  {
    var plan := PayoutLegs(p);
    var vendorLeg := [PayoutLeg(Vendor, p.amountKobo)];
    assert vendorLeg[..|vendorLeg| - 1] == [];
    assert InsertPayouts(map[], vendorLeg) == map[LegSlot(Payout, Vendor) := Leg(p.amountKobo, Pending)];
    if |plan| == 2 { assert plan[..|plan| - 1] == vendorLeg; }
  }

  /** Settlements and refunds lead with their one money effect; the rest are notices. */
  lemma NoticesMoveNothing(p: Pocket, kind: NotifyKind)
    ensures forall i :: 0 < i < |SettleEffects(p)| ==> !MovesMoney(SettleEffects(p)[i])
    ensures forall i :: 0 < i < |RefundEffects(p)| ==> !MovesMoney(RefundEffects(p)[i])
    ensures forall i :: 0 <= i < |DisputeNotify(p)| ==> !MovesMoney(DisputeNotify(p)[i])
    ensures forall i :: 0 <= i < |BothNotify(kind)| ==> !MovesMoney(BothNotify(kind)[i])
  {
  }

  /** Only a step into SETTLED or REFUNDED moves money, by its first effect. */
  lemma MoneyEffects(p: Pocket, now: Time, ev: Event)
    requires Transition(p, now, ev).Ok?
    ensures var out := Transition(p, now, ev).value; var es := out.effects;
            if out.pocket.state.Settled? || out.pocket.state.Refunded? then
              && es != []
              && es[0] == (if out.pocket.state.Settled? then SchedulePayout(PayoutLegs(p))
                           else ExecuteRefund(Buyer, BuyerTotalKobo(p)))
              && forall i :: 0 < i < |es| ==> !MovesMoney(es[i])
            else forall i :: 0 <= i < |es| ==> !MovesMoney(es[i])
  {
    match ev.kind {
      case FundingConfirmed =>
      case FundingExpired => NoticesMoveNothing(p, FundingExpiredNotice);
      case Cancel => NoticesMoveNothing(p, CancelledNotice);
      case VendorCancel => NoticesMoveNothing(p, RefundIssued);
      case CodeAccepted =>
      case CodeRejected => NoticesMoveNothing(p, CodeLockedNotice);
      case DeliveryDeadlineLapsed => NoticesMoveNothing(p, DeliveryWindowClosed);
      case RefundFrozen => NoticesMoveNothing(p, RefundIssued);
      case FrozenDispute => NoticesMoveNothing(p, DisputeOpened);
      case SettleDue => NoticesMoveNothing(p, SettledNotice);
      case BuyerReportIssue => NoticesMoveNothing(p, DisputeOpened);
      case VendorConcede => NoticesMoveNothing(p, RefundIssued);
      case AdminForceRefund => NoticesMoveNothing(p, RefundIssued);
      case AdminForcePayout => NoticesMoveNothing(p, SettledNotice);
    }
  }

  /** The leading money effect of a step records exactly the plan of the row it leads to. */
  lemma PlanRecorded(p: Pocket, r: Row, e: Effect)
    requires TermsInv(r)
    requires (r.structure, r.amountKobo, r.commissionKobo, r.premiumKobo)
          == (p.structure, p.amountKobo, p.commissionKobo, p.premiumKobo)
    requires r.state.Settled? || r.state.Refunded?
    requires e == if r.state.Settled? then SchedulePayout(PayoutLegs(p)) else ExecuteRefund(Buyer, BuyerTotalKobo(p))
    ensures Amounts(RecordEffect(map[], e)) == Plan(r)
  {
    PayoutsRecorded(p);
  }

  lemma StepKeepsLegs(pol: Policy, s: Slice, actor: Actor, now: Time, ev: Event, paid: int, t: Slice)
    requires Stepped(pol, s, actor, now, ev, paid, t)
    requires Transition(Load(pol, s.row), now, ev).Ok?
    requires t.legs == RecordLegs(s.legs, Transition(Load(pol, s.row), now, ev).value.effects)
    requires TermsInv(t.row) && LegsInv(s.row, s.legs)
    ensures LegsInv(t.row, t.legs)
  {
    var p := Load(pol, s.row);
    assert s.legs == map[] by { assert Amounts(s.legs).Keys == s.legs.Keys == {}; }
    var out := Transition(p, now, ev).value;
    MoneyEffects(p, now, ev);
    MachineFollowsTable(p, now, ev);
    if t.row.state.Settled? || t.row.state.Refunded? {
      OnlyFirstMovesMoney(map[], out.effects);
      PlanRecorded(p, t.row, out.effects[0]);
    } else {
      NothingMovesMoney(map[], out.effects);
    }
  }

  lemma StepKeepsInv(pol: Policy, s: Slice, actor: Actor, now: Time, ev: Event, paid: int)
    requires Inv(pol, s) && Authorised(s, actor, now, ev) && !s.row.state.Draft?
    requires ApplyTransition(s, Read(pol, s), actor, now, ev, paid).Ok?
    ensures Inv(pol, ApplyTransition(s, Read(pol, s), actor, now, ev, paid).value)
  {
    var t := ApplyTransition(s, Read(pol, s), actor, now, ev, paid).value;
    ApplyIsStep(pol, s, actor, now, ev, paid, t);
    assert TermsInv(t.row) && t.row.state == Target(s.row.state, ev.kind).value;
    hide Stepped, ApplyTransition, Authorised, TermsInv, LogInv, RebuildInv, DeadlineInv, TimingInv, LegsInv,
        DisputeInv,
         OutcomeInv, InstantInv, SeatsInv;
    StepKeepsLog(pol, s, actor, now, ev, paid, t);
    StepKeepsRebuild(pol, s, actor, now, ev, paid, t);
    StepKeepsDeadlines(pol, s, actor, now, ev, paid, t);
    StepKeepsTiming(pol, s, actor, now, ev, paid, t);
    StepKeepsLegs(pol, s, actor, now, ev, paid, t);
    StepKeepsDispute(pol, s, actor, now, ev, paid, t);
    StepKeepsOutcome(pol, s, actor, now, ev, paid, t);
    StepKeepsInstant(pol, s, actor, now, ev, paid, t);
    StepKeepsSeats(pol, s, actor, now, ev, paid, t);
  }
}
