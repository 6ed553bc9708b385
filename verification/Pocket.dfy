/** Results and options, as the Go code returns them: a value or an error. */
module Results {
  datatype Option<+T> = None | Some(value: T)

  datatype Result<+T> = Ok(value: T) | Err(error: Error)

  /** What a record that only grows has gained. */
  function Since<T>(before: seq<T>, after: seq<T>): (gained: seq<T>)
    requires before <= after
    ensures before + gained == after
  {
    after[|before|..]
  }

  /** Every sentinel error of the domain, the store and the use-case layer. */
  datatype Error =
    | Terminal | IllegalTransition | CodeLocked | NotYetDue | WindowClosed | InvalidSpec
    | NotFound | Conflict | AlreadyAccepted | NotClaimed | AlreadyClaimed | IllegalState
    | AwaitingVendor | RoleConflict | InvalidSplit | NoSuchSeat | CheckViolation
    | Forbidden | InvalidInput | CodeNotReady
}

/** The escrow aggregate and its state machine: pure functions of a snapshot. */
module PocketMachine {
  import opened Int64
  import opened Results

  /** Instants and durations share one integer granularity; a zero time.Time is None. */
  type Time = int
  type Duration = int
  const SECOND: Duration := 1_000_000_000
  const MINUTE: Duration := 60 * SECOND
  const HOUR: Duration := 60 * MINUTE
  const DEFAULT_GRACE_PERIOD: Duration := 24 * HOUR
  const DEFAULT_EVIDENCE_CAPTURE_WINDOW: Duration := 60 * MINUTE
  const MAX_ATTEMPTS := 5

  /** Draft is persistence-only: it precedes the machine, which has no edge from it. */
  datatype State =
    | Draft | Created | Funded | DeliveredPending | Settled
    | Disputed | Frozen | Refunded | Cancelled | Expired
  {
    predicate IsTerminal() {
      Settled? || Refunded? || Cancelled? || Expired?
    }
  }

  datatype Structure = P2P | Brokered
  datatype Mode = Instant | Cooldown
  datatype Role = Buyer | Vendor | Broker
  datatype DisputeClass = NoDispute | NotDelivered | NotAsDescribed
  datatype SanctionKind = FraudFlag | Strike

  datatype EventKind =
    | FundingConfirmed | FundingExpired | Cancel | VendorCancel | CodeAccepted | CodeRejected
    | DeliveryDeadlineLapsed | RefundFrozen | FrozenDispute | SettleDue | BuyerReportIssue
    | VendorConcede | AdminForceRefund | AdminForcePayout
  datatype Reason = NoReason | VendorFailure | GraceNonReceipt
  datatype Event = Event(kind: EventKind, reason: Reason, badFaith: bool)

  function Plain(kind: EventKind): Event { Event(kind, NoReason, false) }

  datatype NotifyKind =
    | FundsSecured | DeliveryConfirmed | HandoffConfirmed | CodeLockedNotice | FundingExpiredNotice
    | CancelledNotice | RefundIssued | DeliveryWindowClosed | DisputeOpened | SettledNotice

  datatype PayoutLeg = PayoutLeg(role: Role, amountKobo: int64)

  datatype Effect =
    | CreateFundingLink(expiresAt: Time)
    | GenerateReleaseCode
    | PromptEvidence(captureWindow: Duration)
    | StartGrace(until: Time)
    | SchedulePayout(legs: seq<PayoutLeg>)
    | ExecuteRefund(beneficiary: Role, amountKobo: int64)
    | Notify(role: Role, kind: NotifyKind)
    | Sanction(role: Role, sanction: SanctionKind)

  datatype Spec = Spec(
    structure: Structure, creatorRole: Role, mode: Mode,
    inspectionWindow: Duration, deliveryWindow: Duration,
    amountKobo: int64, commissionKobo: int64, premiumKobo: int64,
    fundingTTL: Duration, gracePeriod: Duration, captureWindow: Duration)

  datatype Pocket = Pocket(
    state: State, structure: Structure, creatorRole: Role, mode: Mode,
    inspectionWindow: Duration, deliveryWindow: Duration,
    amountKobo: int64, commissionKobo: int64, premiumKobo: int64,
    deliveryDeadline: Option<Time>, settleAfter: Option<Time>,
    graceDeadline: Option<Time>, fundingExpiresAt: Option<Time>,
    codeAttempts: int, codeLocked: bool, disputeClass: DisputeClass,
    gracePeriod: Duration, captureWindow: Duration)

  datatype Outcome = Outcome(pocket: Pocket, effects: seq<Effect>)

  /** Spec.validate: the construction invariants. */
  predicate ValidSpec(s: Spec) {
    && s.amountKobo > 0
    && s.commissionKobo >= 0 && s.premiumKobo >= 0
    && (s.structure.P2P? ==> s.commissionKobo == 0 && (s.creatorRole.Buyer? || s.creatorRole.Vendor?))
    && (s.structure.Brokered? ==> s.creatorRole.Broker?)
    && (s.mode.Instant? ==> s.inspectionWindow == 0)
    && (s.mode.Cooldown? ==> s.inspectionWindow > 0)
    && s.deliveryWindow > 0
    && s.fundingTTL > 0
  }

  /** Transition #1. */
  function New(now: Time, s: Spec): Result<Outcome> {
    if !ValidSpec(s) then Err(InvalidSpec)
    else
      var grace := if s.gracePeriod == 0 then DEFAULT_GRACE_PERIOD else s.gracePeriod;
      var capture := if s.captureWindow == 0 then DEFAULT_EVIDENCE_CAPTURE_WINDOW else s.captureWindow;
      var p := Pocket(
        Created, s.structure, s.creatorRole, s.mode, s.inspectionWindow, s.deliveryWindow,
        s.amountKobo, s.commissionKobo, s.premiumKobo,
        None, None, None, Some(now + s.fundingTTL), 0, false, NoDispute, grace, capture);
      Ok(Outcome(p, [CreateFundingLink(now + s.fundingTTL)]))
  }

  function BuyerTotalKobo(p: Pocket): int64 {
    Wrap(p.amountKobo + p.commissionKobo + p.premiumKobo)
  }

  function PayoutLegs(p: Pocket): seq<PayoutLeg> {
    [PayoutLeg(Vendor, p.amountKobo)]
    + if p.structure.Brokered? && p.commissionKobo > 0 then [PayoutLeg(Broker, p.commissionKobo)] else []
  }

  /** now.Before(deadline), where a zero deadline lies before every instant. */
  predicate Before(now: Time, deadline: Option<Time>) {
    deadline.Some? && now < deadline.value
  }

  predicate DueForSettlement(p: Pocket, now: Time) {
    p.state.DeliveredPending? && !Before(now, p.settleAfter)
  }

  function BothNotify(kind: NotifyKind): seq<Effect> {
    [Notify(Buyer, kind), Notify(Vendor, kind)]
  }

  function DisputeNotify(p: Pocket): seq<Effect> {
    BothNotify(DisputeOpened) + if p.structure.Brokered? then [Notify(Broker, DisputeOpened)] else []
  }

  function SettleEffects(p: Pocket): seq<Effect> {
    [SchedulePayout(PayoutLegs(p)), Notify(Vendor, SettledNotice)]
    + if p.structure.Brokered? then [Notify(Broker, SettledNotice)] else []
  }

  function RefundEffects(p: Pocket): seq<Effect> {
    [ExecuteRefund(Buyer, BuyerTotalKobo(p))] + BothNotify(RefundIssued)
  }

  /** releasecode.RegisterFailure: the new attempt count and whether it locks. */
  function RegisterFailure(current: int): (int, bool) {
    (current + 1, current + 1 >= MAX_ATTEMPTS)
  }

  /** Applies ev to the snapshot p at time now; terminal states are immutable. */
  function Transition(p: Pocket, now: Time, ev: Event): Result<Outcome> {
    if p.state.IsTerminal() then Err(Terminal)
    else match ev.kind
      case FundingConfirmed => FundingConfirmedAt(p, now)
      case FundingExpired => FundingExpiredAt(p, now)
      case Cancel => CancelUnfunded(p)
      case VendorCancel => CancelFunded(p)
      case CodeAccepted => CodeAcceptedAt(p, now)
      case CodeRejected => RejectCode(p)
      case DeliveryDeadlineLapsed => DeliveryLapsedAt(p, now)
      case RefundFrozen => RefundFrozenPocket(p)
      case FrozenDispute => OpenFrozenDispute(p)
      case SettleDue => SettleDueAt(p, now)
      case BuyerReportIssue => ReportIssueAt(p, now)
      case VendorConcede => Concede(p)
      case AdminForceRefund => ForceRefund(p)
      case AdminForcePayout => ForcePayout(p, ev.badFaith)
  }

  // #2 CREATED -> FUNDED
  function FundingConfirmedAt(p: Pocket, now: Time): Result<Outcome> {
    if !p.state.Created? then Err(IllegalTransition)
    else Ok(Outcome(p.(state := Funded, deliveryDeadline := Some(now + p.deliveryWindow)),
                    [GenerateReleaseCode, Notify(Vendor, FundsSecured)]))
  }

  // #3 CREATED -> EXPIRED
  function FundingExpiredAt(p: Pocket, now: Time): Result<Outcome> {
    if !p.state.Created? then Err(IllegalTransition)
    else if Before(now, p.fundingExpiresAt) then Err(NotYetDue)
    else Ok(Outcome(p.(state := Expired), BothNotify(FundingExpiredNotice)))
  }

  // #4 CREATED -> CANCELLED
  function CancelUnfunded(p: Pocket): Result<Outcome> {
    if !p.state.Created? then Err(IllegalTransition)
    else Ok(Outcome(p.(state := Cancelled), BothNotify(CancelledNotice)))
  }

  // #5 FUNDED -> REFUNDED
  function CancelFunded(p: Pocket): Result<Outcome> {
    if !p.state.Funded? then Err(IllegalTransition)
    else Ok(Outcome(p.(state := Refunded), RefundEffects(p)))
  }

  // #6 / #8 FUNDED | FROZEN -> DELIVERED_PENDING
  function CodeAcceptedAt(p: Pocket, now: Time): Result<Outcome> {
    if !p.state.Funded? && !p.state.Frozen? then Err(IllegalTransition)
    else if p.codeLocked then Err(CodeLocked)
    else
      var next := p.(state := DeliveredPending, settleAfter := Some(now + p.inspectionWindow), graceDeadline := None);
      Ok(Outcome(next,
                 (if p.mode.Cooldown? then [PromptEvidence(p.captureWindow)] else [])
                 + [Notify(Buyer, DeliveryConfirmed), Notify(Vendor, HandoffConfirmed)]))
  }

  // The attempt policy: no change of state, the fifth failure locks the code.
  function RejectCode(p: Pocket): Result<Outcome> {
    if !p.state.Funded? && !p.state.Frozen? then Err(IllegalTransition)
    else if p.codeLocked then Err(CodeLocked)
    else
      var (attempts, locked) := RegisterFailure(p.codeAttempts);
      Ok(Outcome(p.(codeAttempts := attempts, codeLocked := locked),
                 if locked then BothNotify(CodeLockedNotice) else []))
  }

  // #7 FUNDED -> FROZEN
  function DeliveryLapsedAt(p: Pocket, now: Time): Result<Outcome> {
    if !p.state.Funded? then Err(IllegalTransition)
    else if Before(now, p.deliveryDeadline) then Err(NotYetDue)
    else Ok(Outcome(p.(state := Frozen, graceDeadline := Some(now + p.gracePeriod)),
                    [StartGrace(now + p.gracePeriod)] + BothNotify(DeliveryWindowClosed)))
  }

  // #9 FROZEN -> REFUNDED
  function RefundFrozenPocket(p: Pocket): Result<Outcome> {
    if !p.state.Frozen? then Err(IllegalTransition)
    else Ok(Outcome(p.(state := Refunded), RefundEffects(p)))
  }

  // #10 FROZEN -> DISPUTED
  function OpenFrozenDispute(p: Pocket): Result<Outcome> {
    if !p.state.Frozen? then Err(IllegalTransition)
    else Ok(Outcome(p.(state := Disputed, disputeClass := NotDelivered), DisputeNotify(p)))
  }

  // #11 DELIVERED_PENDING -> SETTLED
  function SettleDueAt(p: Pocket, now: Time): Result<Outcome> {
    if !p.state.DeliveredPending? then Err(IllegalTransition)
    else if Before(now, p.settleAfter) then Err(NotYetDue)
    else Ok(Outcome(p.(state := Settled), SettleEffects(p)))
  }

  // #12 DELIVERED_PENDING -> DISPUTED, strictly before settlement is due
  function ReportIssueAt(p: Pocket, now: Time): Result<Outcome> {
    if !p.state.DeliveredPending? then Err(IllegalTransition)
    else if !Before(now, p.settleAfter) then Err(WindowClosed)
    else Ok(Outcome(p.(state := Disputed, disputeClass := NotAsDescribed), DisputeNotify(p)))
  }

  // #13 DISPUTED -> REFUNDED
  function Concede(p: Pocket): Result<Outcome> {
    if !p.state.Disputed? then Err(IllegalTransition)
    else Ok(Outcome(p.(state := Refunded), RefundEffects(p)))
  }

  // #14 DISPUTED -> REFUNDED
  function ForceRefund(p: Pocket): Result<Outcome> {
    if !p.state.Disputed? then Err(IllegalTransition)
    else Ok(Outcome(p.(state := Refunded), RefundEffects(p) + [Sanction(Vendor, FraudFlag)]))
  }

  // #15 DISPUTED -> SETTLED
  function ForcePayout(p: Pocket, badFaith: bool): Result<Outcome> {
    if !p.state.Disputed? then Err(IllegalTransition)
    else Ok(Outcome(p.(state := Settled),
                    SettleEffects(p) + if badFaith then [Sanction(Buyer, Strike)] else []))
  }

  /** fundingApplied: the state is at or past FUNDED on the lifecycle. */
  predicate FundingApplied(s: State) {
    s.Funded? || s.DeliveredPending? || s.Settled? || s.Disputed? || s.Frozen? || s.Refunded?
  }

  /** The Protection Premium schedule over the goods value. */
  function ProtectionPremiumKobo(goodsKobo: int64): (premium: int64)
    ensures 0 <= premium <= 10_000_00
  {
    if goodsKobo <= 0 then 0
    else if goodsKobo <= 10_000_00 then 100_00
    else if goodsKobo <= 50_000_00 then 200_00
    else if goodsKobo <= 100_000_00 then 500_00
    else if goodsKobo <= 200_000_00 then 1_000_00
    else if goodsKobo <= 500_000_00 then 3_000_00
    else if goodsKobo <= 1_000_000_00 then 5_000_00
    else 10_000_00
  }

  /** The published bands: from one kobo up to a ceiling of the goods value, and the fee for them. */
  datatype Band = Band(fromKobo: int, upToKobo: int, feeKobo: int)
  const PREMIUM_BANDS := [
    Band(1, 10_000_00, 100_00), Band(10_000_01, 50_000_00, 200_00), Band(50_000_01, 100_000_00, 500_00),
    Band(100_000_01, 200_000_00, 1_000_00), Band(200_000_01, 500_000_00, 3_000_00),
    Band(500_000_01, 1_000_000_00, 5_000_00), Band(1_000_000_01, Int64.MAX, 10_000_00)]

  /** The fee is the published one in every band, up to its ceiling; more goods never cost less protection, and
      nothing costs nothing. */
  lemma PremiumFollowsBands(goodsKobo: int64, moreKobo: int64, i: nat)
    requires i < |PREMIUM_BANDS| && goodsKobo <= moreKobo
    ensures PREMIUM_BANDS[i].fromKobo <= goodsKobo <= PREMIUM_BANDS[i].upToKobo ==>
              ProtectionPremiumKobo(goodsKobo) == PREMIUM_BANDS[i].feeKobo
    ensures ProtectionPremiumKobo(goodsKobo) <= ProtectionPremiumKobo(moreKobo)
    ensures goodsKobo <= 0 <==> ProtectionPremiumKobo(goodsKobo) == 0
  {
    assert |PREMIUM_BANDS| == 7;
    assert i == 0 || i == 1 || i == 2 || i == 3 || i == 4 || i == 5 || i == 6;
  }
}
