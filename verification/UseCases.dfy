/** What every write of the application does, told by tables of its own: who may, from which states and up to
    which clocks and locks, with which error otherwise, and the whole of the rows it leaves. */
module UseCases {
  import opened Int64
  import opened Results
  import opened PocketMachine
  import opened LegStatus
  import opened Records
  import opened History
  import opened Invariants
  import opened Runs
  import opened Guarantees

  // ---------------------------------------------------------------- the table of moves

  /** The writes that move a launched pocket, or close a draft, and log an event. */
  predicate IsMove(op: Op) {
    !op.ClaimOp? && !op.AcceptOp? && !op.ConvertOp? && !op.AttestOp?
  }

  /** One line of the table: the role that must ask, the states the move starts from, who is logged for it, as
      what and why, and where it leads. */
  datatype Case = Case(
    asks: Option<Role>, from: set<State>, actor: Actor, kind: EventKind, reason: Reason, to: State)

  function CaseOf(op: Op, state: State): Case
    requires IsMove(op)
  {
    match op
    case CreditFundingOp(_, _) => Case(None, {Created}, System, FundingConfirmed, NoReason, Funded)
    case EnterCodeOp(_, check, _) =>
      if check.Match? then
        Case(Some(Vendor), {Funded, Frozen}, Party(Vendor), CodeAccepted, NoReason, DeliveredPending)
      else Case(Some(Vendor), {Funded, Frozen}, Party(Vendor), CodeRejected, NoReason, state)
    case SettleNowOp(_) => Case(None, {DeliveredPending}, Party(Vendor), SettleDue, NoReason, Settled)
    case ReportIssueOp(_, _) =>
      Case(Some(Buyer), {DeliveredPending}, Party(Buyer), BuyerReportIssue, NoReason, Disputed)
    case DispatchFailureOp(_, _) =>
      Case(Some(Vendor), {Frozen}, Party(Vendor), RefundFrozen, VendorFailure, Refunded)
    case OpenDisputeOp(_, _) => Case(Some(Buyer), {Frozen}, Party(Buyer), FrozenDispute, NoReason, Disputed)
    case ConcedeOp(_, _) => Case(Some(Vendor), {Disputed}, Party(Vendor), VendorConcede, NoReason, Refunded)
    case ForceRefundOp(_) => Case(None, {Disputed}, Admin, AdminForceRefund, NoReason, Refunded)
    case ForcePayoutOp(_, _) => Case(None, {Disputed}, Admin, AdminForcePayout, NoReason, Settled)
    case CancelOp(role, _) =>
      if state.Funded? then Case(None, {Funded}, Party(role), VendorCancel, NoReason, Refunded)
      else Case(None, {Draft, Created}, Party(role), EventKind.Cancel, NoReason, Cancelled)
    case SweepOp(rule, _) =>
      match rule
      case ExpireFunding => Case(None, {Created}, System, FundingExpired, NoReason, Expired)
      case FreezeDelivery => Case(None, {Funded}, System, DeliveryDeadlineLapsed, NoReason, Frozen)
      case RefundGrace => Case(None, {Frozen}, System, RefundFrozen, GraceNonReceipt, Refunded)
      case SettleWindow => Case(None, {DeliveredPending}, System, SettleDue, NoReason, Settled)
  }

  /** Set, and reached. */
  predicate Reached(deadline: Option<Time>, now: Time) {
    deadline.Some? && deadline.value <= now
  }

  predicate SweepFinds(rule: Rule, r: Row, now: Time) {
    match rule
    case ExpireFunding => r.state.Created? && Reached(r.fundingExpiresAt, now)
    case FreezeDelivery => r.state.Funded? && Reached(r.deliveryDeadline, now)
    case RefundGrace => r.state.Frozen? && Reached(r.graceDeadline, now) && r.attestedAt.Some?
    case SettleWindow => r.state.DeliveredPending? && Reached(r.settleAfter, now)
  }

  /** Why a move is refused; None when it is made. */
  function Refusal(op: Op, r: Row): Option<Error>
    requires IsMove(op)
  {
    var c := CaseOf(op, r.state);
    if c.asks.Some? && op.role != c.asks.value then Some(Forbidden)
    else if op.EnterCodeOp? && op.check.NotReady? then Some(CodeNotReady)
    else if op.SweepOp? then if SweepFinds(op.rule, r, op.now) then None else Some(NotFound)
    else if op.CancelOp? then if r.state in c.from then None else Some(IllegalState)
    else if r.state.Draft? then Some(IllegalState)
    else if r.state in {Settled, Refunded, Cancelled, Expired} then Some(Terminal)
    else if r.state !in c.from then Some(IllegalTransition)
    else if op.EnterCodeOp? && r.codeLocked then Some(CodeLocked)
    else if op.SettleNowOp? && r.settleAfter.Some? && op.now < r.settleAfter.value then Some(NotYetDue)
    else if op.ReportIssueOp? && (r.settleAfter.None? || r.settleAfter.value <= op.now) then Some(WindowClosed)
    else None
  }

  /** The legs a pocket is to have on entering a state: the sellers' shares, or the whole total back. */
  function Owed(r: Row, state: State): Legs {
    if state.Settled? then
      map[VENDOR_PAYOUT := Leg(r.amountKobo, LegStatus.Pending)]
      + if r.commissionKobo > 0 then map[BROKER_PAYOUT := Leg(r.commissionKobo, LegStatus.Pending)] else map[]
    else if state.Refunded? then map[BUYER_REFUND := Leg(r.buyerTotalKobo, LegStatus.Pending)]
    else map[]
  }

  /** The row after a move: the counters and deadlines that belong to it, and nothing else. */
  function MovedRow(pol: Policy, r: Row, op: Op): Row
    requires IsMove(op)
  {
    var wrong, right := op.EnterCodeOp? && op.check.Mismatch?, op.EnterCodeOp? && op.check.Match?;
    r.(state := CaseOf(op, r.state).to, version := r.version + 1,
       codeAttempts := if wrong then r.codeAttempts + 1 else r.codeAttempts,
       codeLocked := if wrong then r.codeAttempts >= 4 else r.codeLocked,
       deliveryDeadline :=
         if op.CreditFundingOp? then Some(op.now + r.deliveryMinutes * MINUTE) else r.deliveryDeadline,
       settleAfter := if right then Some(op.now + r.inspectionMinutes * MINUTE) else r.settleAfter,
       graceDeadline := if right then None
                        else if op.SweepOp? && op.rule.FreezeDelivery? then Some(op.now + pol.gracePeriod)
                        else r.graceDeadline)
  }

  /** Opened by the buyer with its burden of proof, closed as the pocket ends. */
  function MovedDispute(s: Slice, op: Op): Option<Dispute>
    requires IsMove(op)
  {
    if op.OpenDisputeOp? then Some(Dispute(NotDelivered, Party(Buyer), None))
    else if op.ReportIssueOp? then Some(Dispute(NotAsDescribed, Party(Buyer), None))
    else if op.ForcePayoutOp? && s.dispute.Some? then Some(s.dispute.value.(resolution := Some(ByPayout)))
    else if (op.ConcedeOp? || op.ForceRefundOp?) && s.dispute.Some?
    then Some(s.dispute.value.(resolution := Some(ByRefund)))
    else s.dispute
  }

  /** Every table of a pocket after a move. */
  function AfterMove(pol: Policy, s: Slice, op: Op): Slice
    requires IsMove(op)
  {
    var c := CaseOf(op, s.row.state);
    Slice(
      MovedRow(pol, s.row, op), s.seats,
      s.log + [LogRow(c.actor, s.row.state, c.to, EventRow(Event(c.kind, c.reason, op.ForcePayoutOp? && op.badFaith)),
                      op.now, if op.CreditFundingOp? then op.paid else 0)],
      Owed(s.row, c.to), MovedDispute(s, op))
  }

  // ---------------------------------------------------------------- the write path follows it

  /** The event a move hands to the machine. */
  function EventOf(op: Op, state: State): Event
    requires IsMove(op)
  {
    var c := CaseOf(op, state);
    Event(c.kind, c.reason, op.ForcePayoutOp? && op.badFaith)
  }

  /** Past its own gates a move is one transition of the write path. */
  predicate PastGates(op: Op, r: Row)
    requires IsMove(op)
  {
    var c := CaseOf(op, r.state);
    && (c.asks.Some? ==> op.role == c.asks.value)
    && (op.EnterCodeOp? ==> !op.check.NotReady?)
    && (op.SweepOp? ==> SweepFinds(op.rule, r, op.now))
    && (op.CancelOp? ==> r.state.Created? || r.state.Funded?)
    && !r.state.Draft?
  }

  lemma GatesAsTabled(pol: Policy, s: Slice, op: Op)
    requires IsMove(op)
    ensures if PastGates(op, s.row) then
              Exec(pol, s, op)
              == ApplyTransition(s, Read(pol, s), CaseOf(op, s.row.state).actor, op.now, EventOf(op, s.row.state),
                                 if op.CreditFundingOp? then op.paid else 0)
            else
              (op.CancelOp? && s.row.state.Draft?)
              || (Refusal(op, s.row).Some? && Exec(pol, s, op) == Err(Refusal(op, s.row).value))
  {
    hide ApplyTransition, Load;
  }

  lemma GuardsAsTabled(pol: Policy, s: Slice, op: Op)
    requires IsMove(op) && PastGates(op, s.row)
    ensures var guarded := Transition(Load(pol, s.row), op.now, EventOf(op, s.row.state));
            match Refusal(op, s.row)
            case Some(e) => guarded == Err(e)
            case None => guarded.Ok?
  {
    hide RefundEffects, SettleEffects, DisputeNotify, BothNotify;
  }

  /** The legs of a committed move are the owed ones. */
  lemma LegsAsTabled(pol: Policy, s: Slice, now: Time, ev: Event)
    requires TermsInv(s.row) && s.legs == map[] && Transition(Load(pol, s.row), now, ev).Ok?
    ensures var out := Transition(Load(pol, s.row), now, ev).value;
            RecordLegs(s.legs, out.effects) == Owed(s.row, out.pocket.state)
  {
    var p := Load(pol, s.row);
    var out := Transition(p, now, ev).value;
    MoneyEffects(p, now, ev);
    TotalIsStored(pol, s.row);
    if out.pocket.state.Settled? || out.pocket.state.Refunded? {
      OnlyFirstMovesMoney(map[], out.effects);
      PayoutsRecorded(p);
    } else {
      NothingMovesMoney(map[], out.effects);
    }
  }

  lemma TotalIsStored(pol: Policy, r: Row)
    requires TermsInv(r)
    ensures BuyerTotalKobo(Load(pol, r)) == r.buyerTotalKobo
    ensures r.structure.P2P? ==> r.commissionKobo == 0
  {
  }

  lemma OpenPocketHasNoLegs(pol: Policy, s: Slice)
    requires Inv(pol, s) && !s.row.state.Settled? && !s.row.state.Refunded?
    ensures s.legs == map[]
  {
    hide TermsInv, LogInv, RebuildInv, DeadlineInv, TimingInv, DisputeInv, OutcomeInv, InstantInv, SeatsInv;
    assert LegsInv(s.row, s.legs);
    assert s.legs.Keys == Amounts(s.legs).Keys == {};
  }

  lemma InvParts(pol: Policy, s: Slice)
    requires Inv(pol, s)
    ensures TermsInv(s.row)
    ensures s.row.state.Disputed? <==> s.dispute.Some? && s.dispute.value.resolution.None?
    ensures s.dispute.Some? ==> s.row.state.Disputed? || s.row.state.Refunded? || s.row.state.Settled?
  {
    hide TermsInv, LogInv, RebuildInv, DeadlineInv, TimingInv, LegsInv, OutcomeInv, InstantInv, SeatsInv;
    assert DisputeInv(s.row.state, s.log, s.dispute);
  }

  /** Every move of the application is the table's: refused with the table's error, or else leaving exactly the
      table's rows. */
  lemma MovesFollowTable(pol: Policy, s: Slice, op: Op)
    requires IsMove(op) && Inv(pol, s)
    ensures Exec(pol, s, op)
         == match Refusal(op, s.row)
            case Some(e) => Err(e)
            case None => Ok(AfterMove(pol, s, op))
  {
    hide Exec, Transition, RecordLegs, Inv, Owed, TermsInv, Refusal, SweepFinds;
    GatesAsTabled(pol, s, op);
    InvParts(pol, s);
    if PastGates(op, s.row) {
      GuardsAsTabled(pol, s, op);
      if Refusal(op, s.row).None? { MoveAsTabled(pol, s, op); }
    } else if op.CancelOp? && s.row.state.Draft? {
      OpenPocketHasNoLegs(pol, s);
      DraftCancelAsTabled(pol, s, op);
    }
  }

  lemma DraftCancelAsTabled(pol: Policy, s: Slice, op: Op)
    requires op.CancelOp? && s.row.state.Draft? && s.legs == map[]
    ensures Refusal(op, s.row).None? && Exec(pol, s, op) == Ok(AfterMove(pol, s, op))
  {
    DraftCancelShape(pol, s, op.role, op.now);
  }

  lemma MoveAsTabled(pol: Policy, s: Slice, op: Op)
    requires IsMove(op) && Inv(pol, s) && PastGates(op, s.row)
    requires Transition(Load(pol, s.row), op.now, EventOf(op, s.row.state)).Ok?
    ensures ApplyTransition(s, Read(pol, s), CaseOf(op, s.row.state).actor, op.now, EventOf(op, s.row.state),
                            if op.CreditFundingOp? then op.paid else 0)
         == Ok(AfterMove(pol, s, op))
  {
    hide Transition, RecordLegs, Owed, Inv, TermsInv;
    var ev, actor := EventOf(op, s.row.state), CaseOf(op, s.row.state).actor;
    var paid := if op.CreditFundingOp? then op.paid else 0;
    var t := ApplyTransition(s, Read(pol, s), actor, op.now, ev, paid).value;
    InvParts(pol, s);
    MachineFollowsTable(Load(pol, s.row), op.now, ev);
    OpenPocketHasNoLegs(pol, s);
    LegsAsTabled(pol, s, op.now, ev);
  }

  /** AttestNonReceipt: the buyer's, while FROZEN; the first instant stays on record and nothing else changes. */
  lemma AttestationAsTabled(pol: Policy, s: Slice, role: Role, now: Time)
    ensures Exec(pol, s, AttestOp(role, now))
         == if !role.Buyer? then Err(Forbidden)
            else if !s.row.state.Frozen? then Err(IllegalState)
            else if s.row.attestedAt.Some? then Ok(s)
            else Ok(s.(row := s.row.(attestedAt := Some(now))))
  {
  }

  // ---------------------------------------------------------------- what a step sets off

  /** The step that enters a state. */
  predicate Enters(p: Pocket, q: Pocket, state: State) {
    p.state != state && q.state == state
  }

  /** Who is told what, by what has happened to the pocket: a broker hears of disputes and settlements only, and
      only of its own. */
  predicate Tells(p: Pocket, q: Pocket, role: Role, kind: NotifyKind) {
    match kind
    case FundsSecured => role.Vendor? && Enters(p, q, Funded)
    case DeliveryConfirmed => role.Buyer? && Enters(p, q, DeliveredPending)
    case HandoffConfirmed => role.Vendor? && Enters(p, q, DeliveredPending)
    case CodeLockedNotice => !role.Broker? && q.codeLocked && !p.codeLocked
    case FundingExpiredNotice => !role.Broker? && Enters(p, q, Expired)
    case CancelledNotice => !role.Broker? && Enters(p, q, Cancelled)
    case RefundIssued => !role.Broker? && Enters(p, q, Refunded)
    case DeliveryWindowClosed => !role.Broker? && Enters(p, q, Frozen)
    case DisputeOpened => (role.Broker? ==> p.structure.Brokered?) && Enters(p, q, Disputed)
    case SettledNotice => (role.Vendor? || (role.Broker? && p.structure.Brokered?)) && Enters(p, q, Settled)
  }

  /** What a step asks for, effect by effect. */
  predicate Wanted(p: Pocket, ev: Event, q: Pocket, e: Effect) {
    match e
    case Notify(role, kind) => Tells(p, q, role, kind)
    case GenerateReleaseCode => Enters(p, q, Funded)
    case PromptEvidence(window) =>
      Enters(p, q, DeliveredPending) && p.mode.Cooldown? && window == p.captureWindow
    case StartGrace(until) => Enters(p, q, Frozen) && q.graceDeadline == Some(until)
    case Sanction(role, FraudFlag) => role.Vendor? && ev.kind.AdminForceRefund?
    case Sanction(role, Strike) => role.Buyer? && ev.kind.AdminForcePayout? && ev.badFaith
    case SchedulePayout(legs) => Enters(p, q, Settled) && legs == PayoutLegs(p)
    case ExecuteRefund(role, amountKobo) =>
      Enters(p, q, Refunded) && role.Buyer? && amountKobo == BuyerTotalKobo(p)
    case CreateFundingLink(_) => false
  }

  lemma BothAreTold(kind: NotifyKind, e: Effect)
    ensures e in BothNotify(kind) <==> e.Notify? && !e.role.Broker? && e.kind == kind
  {
    var both := BothNotify(kind);
    assert both == [Notify(Buyer, kind), Notify(Vendor, kind)];
    assert e in both <==> e == both[0] || e == both[1];
  }

  lemma DisputesAreTold(p: Pocket, e: Effect)
    ensures e in DisputeNotify(p)
       <==> e.Notify? && e.kind.DisputeOpened? && (e.role.Broker? ==> p.structure.Brokered?)
  {
    BothAreTold(DisputeOpened, e);
    hide BothNotify;
  }

  lemma SettlementsAreTold(p: Pocket, e: Effect)
    ensures e in SettleEffects(p)
       <==> || (e.SchedulePayout? && e.legs == PayoutLegs(p))
            || (e.Notify? && e.kind.SettledNotice? && (e.role.Vendor? || (e.role.Broker? && p.structure.Brokered?)))
  {
    hide PayoutLegs;
    var first := [SchedulePayout(PayoutLegs(p)), Notify(Vendor, SettledNotice)];
    assert e in first <==> e == first[0] || e == first[1];
  }

  lemma RefundsAreTold(p: Pocket, e: Effect)
    ensures e in RefundEffects(p)
       <==> || (e.ExecuteRefund? && e.beneficiary.Buyer? && e.amountKobo == BuyerTotalKobo(p))
            || (e.Notify? && !e.role.Broker? && e.kind.RefundIssued?)
  {
    BothAreTold(RefundIssued, e);
    hide BuyerTotalKobo, BothNotify;
  }

  /** An accepted event sets off every effect that is wanted and no other. */
  lemma EffectsFollowTable(p: Pocket, now: Time, ev: Event, e: Effect)
    requires Transition(p, now, ev).Ok?
    ensures var out := Transition(p, now, ev).value;
            e in out.effects <==> Wanted(p, ev, out.pocket, e)
  {
    hide Transition, Wanted;
    if ev.kind in {VendorCancel, RefundFrozen, VendorConcede, AdminForceRefund} {
      RefundsSetOff(p, now, ev, e);
    } else if ev.kind in {SettleDue, AdminForcePayout} {
      PayoutsSetOff(p, now, ev, e);
    } else if ev.kind in {CodeAccepted, CodeRejected, FrozenDispute, BuyerReportIssue} {
      HandoffsSetOff(p, now, ev, e);
    } else {
      OthersSetOff(p, now, ev, e);
    }
  }

  lemma RefundsSetOff(p: Pocket, now: Time, ev: Event, e: Effect)
    requires Transition(p, now, ev).Ok? && ev.kind in {VendorCancel, RefundFrozen, VendorConcede, AdminForceRefund}
    ensures e in Transition(p, now, ev).value.effects <==> Wanted(p, ev, Transition(p, now, ev).value.pocket, e)
  {
    hide PayoutLegs, BuyerTotalKobo, RefundEffects;
    RefundsAreTold(p, e);
  }

  lemma PayoutsSetOff(p: Pocket, now: Time, ev: Event, e: Effect)
    requires Transition(p, now, ev).Ok? && ev.kind in {SettleDue, AdminForcePayout}
    ensures e in Transition(p, now, ev).value.effects <==> Wanted(p, ev, Transition(p, now, ev).value.pocket, e)
  {
    hide PayoutLegs, BuyerTotalKobo, SettleEffects;
    SettlementsAreTold(p, e);
  }

  lemma HandoffsSetOff(p: Pocket, now: Time, ev: Event, e: Effect)
    requires Transition(p, now, ev).Ok? && ev.kind in {CodeAccepted, CodeRejected, FrozenDispute, BuyerReportIssue}
    ensures e in Transition(p, now, ev).value.effects <==> Wanted(p, ev, Transition(p, now, ev).value.pocket, e)
  {
    hide PayoutLegs, BuyerTotalKobo, BothNotify, DisputeNotify;
    BothAreTold(CodeLockedNotice, e);
    DisputesAreTold(p, e);
  }

  lemma OthersSetOff(p: Pocket, now: Time, ev: Event, e: Effect)
    requires Transition(p, now, ev).Ok?
    requires ev.kind !in {VendorCancel, RefundFrozen, VendorConcede, AdminForceRefund, SettleDue, AdminForcePayout}
    requires ev.kind !in {CodeAccepted, CodeRejected, FrozenDispute, BuyerReportIssue}
    ensures e in Transition(p, now, ev).value.effects <==> Wanted(p, ev, Transition(p, now, ev).value.pocket, e)
  {
    hide PayoutLegs, BuyerTotalKobo, BothNotify;
    BothAreTold(FundingExpiredNotice, e);
    BothAreTold(CancelledNotice, e);
    BothAreTold(DeliveryWindowClosed, e);
  }

  // ---------------------------------------------------------------- the draft phase

  /** The terms a creator may propose. */
  predicate Acceptable(pol: Policy, t: Terms) {
    && t.amountKobo > 0 && t.commissionKobo >= 0 && t.deliveryWindow > 0 && pol.fundingTTL > 0
    && (t.structure.P2P? ==> t.commissionKobo == 0 && t.creatorRole in {Buyer, Vendor})
    && (t.structure.Brokered? ==> t.creatorRole == Broker)
    && (t.mode.Instant? ==> t.inspectionWindow == 0)
    && (t.mode.Cooldown? ==> t.inspectionWindow > 0)
  }

  /** What the buyer will pay fits the column. */
  predicate TotalFits(t: Terms) {
    && 0 < t.amountKobo + t.commissionKobo <= Int64.MAX
    && t.amountKobo + t.commissionKobo + ProtectionPremiumKobo(t.amountKobo + t.commissionKobo) <= Int64.MAX
  }

  /** A fresh draft: the creator's terms as proposed, the creator's seat taken and accepted, every other seat
      open, and nothing in any other table. */
  ghost predicate Proposed(t: Terms, user: string, now: Time, s: Slice) {
    var r := s.row;
    && (r.structure, r.creatorRole, r.mode) == (t.structure, t.creatorRole, t.mode)
    && (r.amountKobo, r.commissionKobo) == (t.amountKobo, t.commissionKobo)
    && 0 < t.amountKobo + t.commissionKobo <= Int64.MAX
    && r.premiumKobo == ProtectionPremiumKobo(t.amountKobo + t.commissionKobo)
    && r.buyerTotalKobo == t.amountKobo + t.commissionKobo + r.premiumKobo
    && r.inspectionMinutes * MINUTE <= t.inspectionWindow < (r.inspectionMinutes + 1) * MINUTE
    && r.deliveryMinutes * MINUTE <= t.deliveryWindow < (r.deliveryMinutes + 1) * MINUTE
    && r.state.Draft? && r.version == 1 && r.codeAttempts == 0 && !r.codeLocked
    && r.deliveryDeadline.None? && r.settleAfter.None? && r.graceDeadline.None? && r.fundingExpiresAt.None?
    && r.attestedAt.None?
    && s.seats.Keys == {Buyer, Vendor} + (if t.structure.Brokered? then {Broker} else {})
    && (forall role :: role in s.seats ==>
          s.seats[role] == if role == t.creatorRole then Seat(user, Some(now)) else Seat("", None))
    && s.log == [] && s.legs == map[] && s.dispute.None?
  }

  lemma AcceptableIsValid(pol: Policy, t: Terms)
    ensures ValidSpec(SpecOfTerms(pol, t)) <==> Acceptable(pol, t)
  {
  }

  /** Create succeeds if and only if the terms are acceptable, the creator is named and the sum fits, and then
      stores the terms as they were proposed. */
  lemma CreationAsTabled(pol: Policy, t: Terms, user: string, now: Time)
    ensures match CreateDraft(pol, t, user, now)
            case Ok(s) => Acceptable(pol, t) && user != "" && TotalFits(t) && Proposed(t, user, now, s)
            case Err(e) =>
              if Acceptable(pol, t) && user != "" then !TotalFits(t) && e == CheckViolation else e == InvalidInput
  {
    AcceptableIsValid(pol, t);
    var roles := ParticipantRoles(t.structure);
    assert roles[0] == Buyer && roles[1] == Vendor && (t.structure.Brokered? ==> roles[2] == Broker);
    if Acceptable(pol, t) {
      MinutesBelow(t.inspectionWindow);
      MinutesBelow(t.deliveryWindow);
    }
  }

  lemma MinutesBelow(d: Duration)
    requires d >= 0
    ensures Minutes(d) * MINUTE <= d < (Minutes(d) + 1) * MINUTE
  {
  }

  /** Why a claim is refused. */
  function ClaimRefusal(s: Slice, role: Role, user: string): Option<Error> {
    if user == "" then Some(InvalidInput)
    else if !s.row.state.Draft? then Some(IllegalState)
    else if role !in s.seats then Some(NoSuchSeat)
    else if s.seats[role].user == user then None
    else if s.seats[role].user != "" then Some(AlreadyClaimed)
    else if exists other :: other in s.seats && s.seats[other].user == user then Some(RoleConflict)
    else None
  }

  /** A claim puts the user in the seat, and does nothing when it is theirs already. */
  lemma ClaimAsTabled(pol: Policy, s: Slice, role: Role, user: string)
    ensures Exec(pol, s, ClaimOp(role, user)) == ClaimSeat(s, role, user)
         == match ClaimRefusal(s, role, user)
            case Some(e) => Err(e)
            case None => Ok(s.(seats := s.seats[role := Seat(user, s.seats[role].acceptedAt)]))
  {
    if role in s.seats && s.seats[role].user == user {
      assert s.seats[role := Seat(user, s.seats[role].acceptedAt)] == s.seats;
    }
  }

  /** Everybody else has accepted. */
  predicate LastToAccept(s: Slice, role: Role) {
    forall other :: other in s.seats && other != role ==> s.seats[other].acceptedAt.Some?
  }

  /** The stored windows let the pocket start. */
  predicate Startable(pol: Policy, r: Row) {
    r.deliveryMinutes >= 1 && (r.mode.Cooldown? ==> r.inspectionMinutes >= 1) && pol.fundingTTL > 0
  }

  /** Why an acceptance is refused. */
  function AcceptRefusal(pol: Policy, s: Slice, role: Role): Option<Error> {
    if !s.row.state.Draft? then Some(IllegalState)
    else if role !in s.seats then Some(NoSuchSeat)
    else if s.seats[role].user == "" then Some(NotClaimed)
    else if s.seats[role].acceptedAt.Some? then Some(AlreadyAccepted)
    else if s.row.structure.Brokered? && role.Buyer? && Vendor in s.seats && s.seats[Vendor].acceptedAt.None?
    then Some(AwaitingVendor)
    else if LastToAccept(s, role) && !Startable(pol, s.row) then Some(InvalidSpec)
    else None
  }

  /** An acceptance stamps its seat; the last one also starts the pocket, whose funding window opens. */
  function AfterAcceptance(pol: Policy, s: Slice, role: Role, now: Time): Slice
    requires role in s.seats
  {
    var stamped := s.(seats := s.seats[role := Seat(s.seats[role].user, Some(now))]);
    if !LastToAccept(s, role) then stamped
    else
      stamped.(row := s.row.(state := Created, codeAttempts := 0, codeLocked := false,
                             deliveryDeadline := None, settleAfter := None, graceDeadline := None,
                             fundingExpiresAt := Some(now + pol.fundingTTL), version := s.row.version + 1),
               log := s.log + [LogRow(Party(role), Draft, Created, CreatedRow, now, 0)])
  }

  lemma AcceptanceAsTabled(pol: Policy, s: Slice, role: Role, now: Time)
    requires Inv(pol, s)
    ensures Exec(pol, s, AcceptOp(role, now)) == AcceptSeat(pol, s, role, now)
         == match AcceptRefusal(pol, s, role)
            case Some(e) => Err(e)
            case None => Ok(AfterAcceptance(pol, s, role, now))
  {
    assert TermsInv(s.row);
    assert Vendor in s.seats by { assert SeatsInv(s.row, s.log, s.seats); }
    hide Inv, TermsInv, AcceptSeat, AcceptRefusal, AfterAcceptance, Exec;
    ExecAccepts(pol, s, role, now);
    if AcceptRefusal(pol, s, role).Some? {
      AcceptanceRefused(pol, s, role, now);
    } else {
      AcceptanceMade(pol, s, role, now);
    }
  }

  lemma AcceptanceRefused(pol: Policy, s: Slice, role: Role, now: Time)
    requires TermsInv(s.row) && Vendor in s.seats && AcceptRefusal(pol, s, role).Some?
    ensures AcceptSeat(pol, s, role, now) == Err(AcceptRefusal(pol, s, role).value)
  {
    hide TermsInv, New, AllAccepted, LastToAccept, Startable, Save, Load, SpecOf;
    if role in s.seats {
      AllButOne(s, role, now);
      StartsIff(pol, s.row, now);
    }
  }

  lemma AcceptanceMade(pol: Policy, s: Slice, role: Role, now: Time)
    requires TermsInv(s.row) && Vendor in s.seats && AcceptRefusal(pol, s, role).None?
    ensures role in s.seats && AcceptSeat(pol, s, role, now) == Ok(AfterAcceptance(pol, s, role, now))
  {
    hide TermsInv, New, AllAccepted, LastToAccept, Startable, Save, Load, SpecOf;
    AllButOne(s, role, now);
    StartsIff(pol, s.row, now);
  }

  lemma ExecAccepts(pol: Policy, s: Slice, role: Role, now: Time)
    ensures Exec(pol, s, AcceptOp(role, now)) == AcceptSeat(pol, s, role, now)
  {
  }

  lemma AllButOne(s: Slice, role: Role, now: Time)
    requires role in s.seats
    ensures AllAccepted(s.seats[role := s.seats[role].(acceptedAt := Some(now))]) <==> LastToAccept(s, role)
  {
    var stamped := s.seats[role := s.seats[role].(acceptedAt := Some(now))];
    assert role in stamped;
    if AllAccepted(stamped) {
      forall other | other in s.seats && other != role ensures s.seats[other].acceptedAt.Some? {
        assert stamped[other] == s.seats[other];
      }
    }
  }

  lemma StartsIff(pol: Policy, r: Row, now: Time)
    requires TermsInv(r)
    ensures var launched := New(now, SpecOf(pol, Load(pol, r)));
            if Startable(pol, r) then
              launched.Ok?
              && Save(r, launched.value.pocket)
                 == r.(state := Created, codeAttempts := 0, codeLocked := false, deliveryDeadline := None,
                       settleAfter := None, graceDeadline := None, fundingExpiresAt := Some(now + pol.fundingTTL),
                       version := r.version + 1)
              && launched.value.pocket.state.Created?
            else launched == Err(InvalidSpec)
  {
  }

  /** Why a conversion is refused. */
  function ConversionRefusal(s: Slice, user: string, vendorKobo: int64): Option<Error> {
    if user == "" || vendorKobo <= 0 then Some(InvalidInput)
    else if !(s.row.state.Draft? && s.row.structure.P2P? && s.row.creatorRole.Buyer?) then Some(IllegalState)
    else if vendorKobo >= s.row.amountKobo then Some(InvalidSplit)
    else if Vendor in s.seats && s.seats[Vendor].user != "" then Some(AlreadyClaimed)
    else if exists role :: role in s.seats && s.seats[role].user == user then Some(RoleConflict)
    else None
  }

  /** A conversion splits the price between the vendor and an accepted broker, and logs it. */
  lemma ConversionAsTabled(pol: Policy, s: Slice, user: string, vendorKobo: int64, now: Time)
    requires Inv(pol, s)
    ensures Exec(pol, s, ConvertOp(user, vendorKobo, now)) == Convert(s, user, vendorKobo, now)
    ensures match ConversionRefusal(s, user, vendorKobo)
            case Some(e) => Convert(s, user, vendorKobo, now) == Err(e)
            case None =>
              Convert(s, user, vendorKobo, now)
              == Ok(s.(row := s.row.(structure := Brokered, creatorRole := Broker, amountKobo := vendorKobo,
                                     commissionKobo := s.row.amountKobo - vendorKobo,
                                     version := s.row.version + 1),
                       seats := s.seats[Broker := Seat(user, Some(now))],
                       log := s.log + [LogRow(Party(Broker), Draft, Draft, ConvertedRow, now, 0)]))
  {
    assert Vendor in s.seats by { assert SeatsInv(s.row, s.log, s.seats); }
  }

  // ---------------------------------------------------------------- who is paid what was agreed

  /** The i-th write of a run converted the draft. */
  predicate ConvertedAt(pol: Policy, s: Slice, ops: seq<Op>, i: nat)
    requires i < |ops|
  {
    ops[i].ConvertOp? && Exec(pol, Run(pol, s, ops[..i]), ops[i]).Ok?
  }

  /** The row's prices, and how often it was converted. */
  predicate KeepsPrices(s: Slice, t: Slice) {
    && (t.row.amountKobo, t.row.commissionKobo, t.row.structure)
       == (s.row.amountKobo, s.row.commissionKobo, s.row.structure)
    && CountOf(t.log, Conversion) == CountOf(s.log, Conversion)
  }

  lemma ExecKeepsPrices(pol: Policy, s: Slice, op: Op)
    requires Inv(pol, s) && Exec(pol, s, op).Ok? && !op.ConvertOp?
    ensures KeepsPrices(s, Exec(pol, s, op).value)
  {
    hide Inv, Exec, AfterMove, AcceptSeat, AfterAcceptance, AcceptRefusal, ClaimSeat, Refusal, KeepsPrices;
    if IsMove(op) {
      MovesFollowTable(pol, s, op);
      MoveKeepsPrices(pol, s, op);
    } else {
      DraftWriteKeepsPrices(pol, s, op);
    }
  }

  lemma MoveKeepsPrices(pol: Policy, s: Slice, op: Op)
    requires IsMove(op)
    ensures KeepsPrices(s, AfterMove(pol, s, op))
  {
    hide Owed, MovedDispute;
    var t := AfterMove(pol, s, op);
    Appended(s.log, t.log[|s.log|]);
  }

  lemma DraftWriteKeepsPrices(pol: Policy, s: Slice, op: Op)
    requires Inv(pol, s) && Exec(pol, s, op).Ok? && !op.ConvertOp? && !IsMove(op)
    ensures KeepsPrices(s, Exec(pol, s, op).value)
  {
    hide Inv, AcceptSeat, AfterAcceptance, ClaimSeat, ClaimRefusal, LastToAccept, Startable;
    match op {
      case ClaimOp(role, user) => ClaimAsTabled(pol, s, role, user);
      case AcceptOp(role, now) =>
        AcceptanceAsTabled(pol, s, role, now);
        AcceptanceKeepsPrices(pol, s, role, now);
      case AttestOp(role, now) => AttestationAsTabled(pol, s, role, now);
    }
  }

  lemma AcceptanceKeepsPrices(pol: Policy, s: Slice, role: Role, now: Time)
    requires role in s.seats
    ensures KeepsPrices(s, AfterAcceptance(pol, s, role, now))
  {
    hide LastToAccept;
    if LastToAccept(s, role) { Appended(s.log, LogRow(Party(role), Draft, Created, CreatedRow, now, 0)); }
  }

  /** The prices of a pocket are those it started with, or those of the conversion that was the i-th write; one
      that is still between two parties has not changed its price. */
  ghost predicate PricedBy(pol: Policy, s: Slice, ops: seq<Op>, i: nat, t: Slice) {
    && (t.row.structure.P2P? ==> s.row.structure.P2P? && t.row.amountKobo == s.row.amountKobo)
    && if CountOf(t.log, Conversion) == 0 then
         (t.row.amountKobo, t.row.commissionKobo) == (s.row.amountKobo, s.row.commissionKobo)
       else
         && i < |ops| && ConvertedAt(pol, s, ops, i)
         && t.row.structure.Brokered? && t.row.amountKobo == ops[i].vendorKobo
         && t.row.commissionKobo == s.row.amountKobo - ops[i].vendorKobo
  }

  lemma PricedLater(pol: Policy, s: Slice, ops: seq<Op>, i: nat, t: Slice, later: Slice)
    requires ops != [] && PricedBy(pol, s, ops[..|ops| - 1], i, t) && KeepsPrices(t, later)
    ensures PricedBy(pol, s, ops, i, later)
  {
    hide Exec, Run;
    if i < |ops| - 1 { assert ops[..|ops| - 1][..i] == ops[..i]; }
  }

  lemma PricedAnew(pol: Policy, s: Slice, ops: seq<Op>, i: nat)
    requires ops != [] && ops[|ops| - 1].ConvertOp?
    requires var before := Run(pol, s, ops[..|ops| - 1]);
             && Inv(pol, before) && Exec(pol, before, ops[|ops| - 1]).Ok?
             && PricedBy(pol, s, ops[..|ops| - 1], i, before)
    ensures PricedBy(pol, s, ops, |ops| - 1, Run(pol, s, ops))
  {
    hide Inv, Exec;
    ConversionSplits(pol, Run(pol, s, ops[..|ops| - 1]), ops[|ops| - 1]);
  }

  /** Through every run of a pocket. */
  lemma {:induction false} PricesComeFrom(pol: Policy, s: Slice, ops: seq<Op>) returns (i: nat)
    requires Inv(pol, s) && s.log == []
    ensures PricedBy(pol, s, ops, i, Run(pol, s, ops))
  {
    i := 0;
    if ops != [] {
      hide Inv, Exec, PricedBy, KeepsPrices;
      var n := |ops| - 1;
      var before := Run(pol, s, ops[..n]);
      i := PricesComeFrom(pol, s, ops[..n]);
      RunKeepsInv(pol, s, ops[..n]);
      if Exec(pol, before, ops[n]).Ok? && ops[n].ConvertOp? {
        PricedAnew(pol, s, ops, i);
        i := n;
      } else {
        if Exec(pol, before, ops[n]).Ok? { ExecKeepsPrices(pol, before, ops[n]); } else { PricesStay(before); }
        PricedLater(pol, s, ops, i, before, Run(pol, s, ops));
      }
    }
  }

  lemma PricesStay(s: Slice)
    ensures KeepsPrices(s, s)
  {
  }

  lemma ConversionSplits(pol: Policy, s: Slice, op: Op)
    requires op.ConvertOp? && Inv(pol, s) && Exec(pol, s, op).Ok?
    ensures s.row.structure.P2P?
    ensures var t := Exec(pol, s, op).value;
            && t.row.structure.Brokered?
            && t.row.amountKobo == op.vendorKobo && t.row.commissionKobo == s.row.amountKobo - op.vendorKobo
            && CountOf(t.log, Conversion) == CountOf(s.log, Conversion) + 1
  {
    hide Inv, Convert;
    ConversionAsTabled(pol, s, op.user, op.vendorKobo, op.now);
    Appended(s.log, LogRow(Party(Broker), Draft, Draft, ConvertedRow, op.now, 0));
  }

  /** Whatever happens in between, a settled pocket that was never converted pays the vendor the amount and the
      broker the commission its creator proposed; a converted one pays the shares of its conversion. */
  lemma SettledSharesAreAgreed(
    pol: Policy, t: Terms, creator: string, made: Time, ops: seq<Op>) returns (i: nat)
    requires CreateDraft(pol, t, creator, made).Ok?
    requires Run(pol, CreateDraft(pol, t, creator, made).value, ops).row.state.Settled?
    ensures var s0 := CreateDraft(pol, t, creator, made).value;
            var legs := Run(pol, s0, ops).legs;
            && VENDOR_PAYOUT in legs && BUYER_REFUND !in legs
            && if CountOf(Run(pol, s0, ops).log, Conversion) == 0 then
                 && legs[VENDOR_PAYOUT].amountKobo == t.amountKobo
                 && (if t.commissionKobo == 0 then BROKER_PAYOUT !in legs
                     else BROKER_PAYOUT in legs && legs[BROKER_PAYOUT].amountKobo == t.commissionKobo)
               else
                 && i < |ops| && ConvertedAt(pol, s0, ops, i)
                 && legs[VENDOR_PAYOUT].amountKobo == ops[i].vendorKobo
                 && BROKER_PAYOUT in legs
                 && legs[BROKER_PAYOUT].amountKobo == t.amountKobo - ops[i].vendorKobo
  {
    var s0 := CreateDraft(pol, t, creator, made).value;
    CreationAsTabled(pol, t, creator, made);
    hide CreateDraft, Run, Exec, Acceptable, TotalFits, ConvertedAt;
    CreateEstablishesInv(pol, t, creator, made);
    i := PricesComeFrom(pol, s0, ops);
    var s := Run(pol, s0, ops);
    RunKeepsInv(pol, s0, ops);
    InvParts(pol, s);
    assert LegsInv(s.row, s.legs) by { InvLegs(pol, s); }
    hide Inv;
    if CountOf(s.log, Conversion) != 0 { ConvertedSplit(pol, s0, ops, i); }
    SharesOfPlan(pol, s.row, s.legs);
  }

  lemma InvLegs(pol: Policy, s: Slice)
    requires Inv(pol, s)
    ensures LegsInv(s.row, s.legs)
  {
  }

  lemma SharesOfPlan(pol: Policy, r: Row, legs: Legs)
    requires TermsInv(r) && LegsInv(r, legs) && r.state.Settled?
    ensures VENDOR_PAYOUT in legs && legs[VENDOR_PAYOUT].amountKobo == r.amountKobo && BUYER_REFUND !in legs
    ensures BROKER_PAYOUT in legs <==> r.commissionKobo > 0
    ensures BROKER_PAYOUT in legs ==> legs[BROKER_PAYOUT].amountKobo == r.commissionKobo
    ensures r.commissionKobo >= 0
  {
    PlanFacts(pol, r);
    hide TermsInv;
    assert legs.Keys == Plan(r).Keys by { assert legs.Keys == Amounts(legs).Keys; }
    assert forall slot :: slot in legs ==> legs[slot].amountKobo == Plan(r)[slot];
  }

  /** A conversion leaves something for the broker. */
  lemma ConvertedSplit(pol: Policy, s: Slice, ops: seq<Op>, i: nat)
    requires Inv(pol, s) && i < |ops| && ConvertedAt(pol, s, ops, i) && s.log == []
    ensures ops[i].vendorKobo < s.row.amountKobo
  {
    hide Inv, Run;
    var before := Run(pol, s, ops[..i]);
    RunKeepsInv(pol, s, ops[..i]);
    var _ := PricesComeFrom(pol, s, ops[..i]);
    ConversionAsTabled(pol, before, ops[i].user, ops[i].vendorKobo, ops[i].now);
  }
}
