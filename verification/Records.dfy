/** The status machine of a settlement leg: each function is one conditional UPDATE. */
module LegStatus {
  datatype Status = Pending | Inflight | Confirmed | Failed

  datatype Update = ClaimLeg | ReleaseLeg | ConfirmLeg | FailLeg

  function Updated(s: Status, u: Update): Status {
    match u
    case ClaimLeg => if s.Pending? then Inflight else s
    case ReleaseLeg => if s.Inflight? then Pending else s
    case ConfirmLeg => if s.Pending? || s.Inflight? then Confirmed else s
    case FailLeg => if s.Pending? || s.Inflight? || s.Confirmed? then Failed else s
  }

  function AfterUpdates(s: Status, us: seq<Update>): Status {
    if us == [] then s else Updated(AfterUpdates(s, us[..|us| - 1]), us[|us| - 1])
  }

  /** However claims, releases, confirmations and failures are ordered or repeated, a failure wins,
      then a confirmation; otherwise the leg is still open. */
  lemma {:induction false} ResolutionIsOrderInsensitive(us: seq<Update>)
    ensures AfterUpdates(Pending, us).Failed? <==> FailLeg in us
    ensures AfterUpdates(Pending, us).Confirmed? <==> ConfirmLeg in us && FailLeg !in us
  {
    if us != [] {
      var front, last := us[..|us| - 1], us[|us| - 1];
      ResolutionIsOrderInsensitive(front);
      assert us == front + [last];
      assert forall u :: u in us <==> u in front || u == last;
    }
  }
}

/** One pocket's rows in every table, and each transaction of the single write path as a function
    from the rows it reads to the rows it commits (or an error, which rolls back). */
module Records {
  import opened Int64
  import opened Results
  import opened PocketMachine
  import opened LegStatus

  /** Platform configuration injected into the store, never per-pocket data. */
  datatype Policy = Policy(fundingTTL: Duration, gracePeriod: Duration, captureWindow: Duration)

  datatype Row = Row(
    structure: Structure, creatorRole: Role, mode: Mode,
    amountKobo: int64, commissionKobo: int64, premiumKobo: int64, buyerTotalKobo: int64,
    inspectionMinutes: int, deliveryMinutes: int,
    state: State, codeAttempts: int, codeLocked: bool,
    deliveryDeadline: Option<Time>, settleAfter: Option<Time>,
    graceDeadline: Option<Time>, fundingExpiresAt: Option<Time>,
    version: int, attestedAt: Option<Time>)

  /** A participant row; user is "" while the seat is unclaimed. */
  datatype Seat = Seat(user: string, acceptedAt: Option<Time>)

  datatype Actor = Party(role: Role) | Admin | System

  datatype LogKind = CreatedRow | ConvertedRow | EventRow(ev: Event)

  /** One audit row. at is the instant handed to the guard and paid the amount the provider stated
      for a funding credit (0 when unstated): history the audit table does not itself store. */
  datatype LogRow = LogRow(actor: Actor, from: State, to: State, kind: LogKind, at: Time, paid: int)

  datatype Direction = Payout | Refund
  datatype LegSlot = LegSlot(direction: Direction, role: Role)
  datatype Leg = Leg(amountKobo: int64, status: Status)
  type Legs = map<LegSlot, Leg>

  datatype Resolution = ByRefund | ByPayout
  datatype Dispute = Dispute(burden: DisputeClass, openedBy: Actor, resolution: Option<Resolution>)

  datatype Slice = Slice(
    row: Row, seats: map<Role, Seat>, log: seq<LogRow>, legs: Legs, dispute: Option<Dispute>)

  // ---------------------------------------------------------------- save and load

  /** minutes: Go's division truncates toward zero. */
  function Minutes(d: Duration): int {
    if d >= 0 then d / MINUTE else -((-d) / MINUTE)
  }

  /** scanPocket: the aggregate rebuilt from a row, with policy durations injected. */
  function Load(pol: Policy, r: Row): Pocket {
    Pocket(
      r.state, r.structure, r.creatorRole, r.mode,
      r.inspectionMinutes * MINUTE, r.deliveryMinutes * MINUTE,
      r.amountKobo, r.commissionKobo, r.premiumKobo,
      r.deliveryDeadline, r.settleAfter, r.graceDeadline, r.fundingExpiresAt,
      r.codeAttempts, r.codeLocked, NoDispute, pol.gracePeriod, pol.captureWindow)
  }

  /** updatePocketTx's column list. */
  function Save(r: Row, p: Pocket): Row {
    r.(state := p.state, codeAttempts := p.codeAttempts, codeLocked := p.codeLocked,
       deliveryDeadline := p.deliveryDeadline, settleAfter := p.settleAfter,
       graceDeadline := p.graceDeadline, fundingExpiresAt := p.fundingExpiresAt,
       version := r.version + 1)
  }

  /** specFromRecord. */
  function SpecOf(pol: Policy, p: Pocket): Spec {
    Spec(p.structure, p.creatorRole, p.mode, p.inspectionWindow, p.deliveryWindow,
         p.amountKobo, p.commissionKobo, p.premiumKobo,
         pol.fundingTTL, pol.gracePeriod, pol.captureWindow)
  }

  /** What a transaction holds after its SELECT. */
  datatype Record = Record(pocket: Pocket, version: int)

  function Read(pol: Policy, s: Slice): Record {
    Record(Load(pol, s.row), s.row.version)
  }

  // ---------------------------------------------------------------- settlement legs and disputes

  /** INSERT ... ON CONFLICT DO NOTHING. */
  function InsertLeg(legs: Legs, slot: LegSlot, amountKobo: int64): Legs {
    if slot in legs then legs else legs[slot := Leg(amountKobo, Pending)]
  }

  function InsertPayouts(legs: Legs, plan: seq<PayoutLeg>): Legs {
    if plan == [] then legs
    else
      var last := plan[|plan| - 1];
      InsertLeg(InsertPayouts(legs, plan[..|plan| - 1]), LegSlot(Payout, last.role), last.amountKobo)
  }

  predicate MovesMoney(e: Effect) { e.SchedulePayout? || e.ExecuteRefund? }

  function RecordEffect(legs: Legs, e: Effect): Legs {
    match e
    case SchedulePayout(plan) => InsertPayouts(legs, plan)
    case ExecuteRefund(role, amount) => InsertLeg(legs, LegSlot(Refund, role), amount)
    case _ => legs
  }

  function RecordLegs(legs: Legs, effects: seq<Effect>): Legs {
    if effects == [] then legs
    else RecordEffect(RecordLegs(legs, effects[..|effects| - 1]), effects[|effects| - 1])
  }

  /** recordDisputeTx: to and burden are the state and dispute class of the outcome. */
  function RecordDispute(
    d: Option<Dispute>, actor: Actor, from: State, to: State, burden: DisputeClass): Option<Dispute>
  {
    if to.Disputed? && !from.Disputed? then
      if d.Some? then d else Some(Dispute(burden, actor, None))
    else if from.Disputed? && (to.Refunded? || to.Settled?) then
      if d.Some? && d.value.resolution.None? then
        Some(d.value.(resolution := Some(if to.Settled? then ByPayout else ByRefund)))
      else d
    else d
  }

  // ---------------------------------------------------------------- the single write path

  /** applyTransitionTx: rec was read from the row, possibly before other commits; the write is
      guarded by "version = rec.version". */
  function ApplyTransition(s: Slice, rec: Record, actor: Actor, now: Time, ev: Event, paid: int): Result<Slice> {
    match Transition(rec.pocket, now, ev)
    case Err(e) => Err(e)
    case Ok(out) =>
      if s.row.version != rec.version then Err(Conflict)
      else Ok(s.(row := Save(s.row, out.pocket),
                 log := s.log + [LogRow(actor, rec.pocket.state, out.pocket.state, EventRow(ev), now, paid)],
                 legs := RecordLegs(s.legs, out.effects),
                 dispute := RecordDispute(s.dispute, actor, rec.pocket.state,
                                          out.pocket.state, out.pocket.disputeClass)))
  }

  /** RunTransition. */
  function RunTransition(pol: Policy, s: Slice, actor: Actor, now: Time, ev: Event, paid: int): Result<Slice> {
    if s.row.state.Draft? then Err(IllegalState)
    else ApplyTransition(s, Read(pol, s), actor, now, ev, paid)
  }

  /** Store.Cancel. */
  function CancelTx(pol: Policy, s: Slice, actor: Role, now: Time): Result<Slice> {
    match s.row.state
    case Draft =>
      Ok(s.(row := Save(s.row, Load(pol, s.row).(state := Cancelled)),
            log := s.log + [LogRow(Party(actor), Draft, Cancelled, EventRow(Plain(EventKind.Cancel)), now, 0)]))
    case Created => ApplyTransition(s, Read(pol, s), Party(actor), now, Plain(EventKind.Cancel), 0)
    case Funded => ApplyTransition(s, Read(pol, s), Party(actor), now, Plain(VendorCancel), 0)
    case _ => Err(IllegalState)
  }

  // ---------------------------------------------------------------- the draft phase

  function ParticipantRoles(structure: Structure): seq<Role> {
    if structure.Brokered? then [Buyer, Vendor, Broker] else [Buyer, Vendor]
  }

  datatype Terms = Terms(
    structure: Structure, creatorRole: Role, mode: Mode,
    inspectionWindow: Duration, deliveryWindow: Duration, amountKobo: int64, commissionKobo: int64)

  function SpecOfTerms(pol: Policy, t: Terms): Spec {
    Spec(t.structure, t.creatorRole, t.mode, t.inspectionWindow, t.deliveryWindow,
         t.amountKobo, t.commissionKobo, ProtectionPremiumKobo(Wrap(t.amountKobo + t.commissionKobo)),
         pol.fundingTTL, pol.gracePeriod, pol.captureWindow)
  }

  function DraftSeat(role: Role, t: Terms, user: string, now: Time): Seat {
    if role == t.creatorRole then Seat(user, Some(now)) else Seat("", None)
  }

  /** App.Create over CreatePocket. The premium is derived, never taken from the client, and the
      buyer_total CHECK refuses a sum that does not fit a bigint. */
  function CreateDraft(pol: Policy, t: Terms, user: string, now: Time): Result<Slice> {
    var spec := SpecOfTerms(pol, t);
    if !ValidSpec(spec) || user == "" then Err(InvalidInput)
    else
      var total := t.amountKobo + t.commissionKobo + spec.premiumKobo;
      if total > Int64.MAX then Err(CheckViolation)
      else
        var row := Row(
          t.structure, t.creatorRole, t.mode, t.amountKobo, t.commissionKobo, spec.premiumKobo, total,
          Minutes(t.inspectionWindow), Minutes(t.deliveryWindow),
          Draft, 0, false, None, None, None, None, 1, None);
        var roles := ParticipantRoles(t.structure);
        Ok(Slice(row, map r | r in roles :: DraftSeat(r, t, user, now), [], map[], None))
  }

  predicate HoldsSeat(seats: map<Role, Seat>, user: string) {
    exists r :: r in seats && seats[r].user == user
  }

  function ClaimSeat(s: Slice, role: Role, user: string): Result<Slice> {
    if user == "" then Err(InvalidInput)
    else if !s.row.state.Draft? then Err(IllegalState)
    else if role !in s.seats then Err(NoSuchSeat)
    else if s.seats[role].user != "" then
      if s.seats[role].user == user then Ok(s) else Err(AlreadyClaimed)
    else if HoldsSeat(s.seats, user) then Err(RoleConflict)
    else Ok(s.(seats := s.seats[role := s.seats[role].(user := user)]))
  }

  predicate AllAccepted(seats: map<Role, Seat>) {
    (forall r :: r in seats ==> seats[r].acceptedAt.Some?) && |seats| > 0
  }

  predicate RoleAccepted(seats: map<Role, Seat>, role: Role) {
    role in seats && seats[role].acceptedAt.Some?
  }

  /** Accept: the last acceptance fires transition #1 in the same transaction. */
  function AcceptSeat(pol: Policy, s: Slice, role: Role, now: Time): Result<Slice> {
    if !s.row.state.Draft? then Err(IllegalState)
    else if role !in s.seats then Err(NoSuchSeat)
    else if s.seats[role].user == "" then Err(NotClaimed)
    else if s.seats[role].acceptedAt.Some? then Err(AlreadyAccepted)
    else if s.row.structure.Brokered? && role.Buyer? && !RoleAccepted(s.seats, Vendor) then Err(AwaitingVendor)
    else
      var seats := s.seats[role := s.seats[role].(acceptedAt := Some(now))];
      if !AllAccepted(seats) then Ok(s.(seats := seats))
      else match New(now, SpecOf(pol, Load(pol, s.row)))
        case Err(e) => Err(e)
        case Ok(out) =>
          Ok(s.(seats := seats, row := Save(s.row, out.pocket),
                log := s.log + [LogRow(Party(role), Draft, out.pocket.state, CreatedRow, now, 0)]))
  }

  /** ConvertToBrokered. */
  function Convert(s: Slice, user: string, vendorKobo: int64, now: Time): Result<Slice> {
    if user == "" || vendorKobo <= 0 then Err(InvalidInput)
    else if !s.row.state.Draft? || !s.row.structure.P2P? || !s.row.creatorRole.Buyer? then Err(IllegalState)
    else if vendorKobo >= s.row.amountKobo then Err(InvalidSplit)
    else if Vendor !in s.seats then Err(NoSuchSeat)
    else if s.seats[Vendor].user != "" then Err(AlreadyClaimed)
    else if HoldsSeat(s.seats, user) then Err(RoleConflict)
    else
      Ok(s.(row := s.row.(structure := Brokered, creatorRole := Broker, amountKobo := vendorKobo,
                          commissionKobo := s.row.amountKobo - vendorKobo, version := s.row.version + 1),
            seats := s.seats[Broker := Seat(user, Some(now))],
            log := s.log + [LogRow(Party(Broker), Draft, Draft, ConvertedRow, now, 0)]))
  }

  // ---------------------------------------------------------------- clock rules

  datatype Rule = ExpireFunding | FreezeDelivery | RefundGrace | SettleWindow

  function SourceState(rule: Rule): State {
    match rule
    case ExpireFunding => Created
    case FreezeDelivery => Funded
    case RefundGrace => Frozen
    case SettleWindow => DeliveredPending
  }

  function RuleEvent(rule: Rule): Event {
    match rule
    case ExpireFunding => Plain(FundingExpired)
    case FreezeDelivery => Plain(DeliveryDeadlineLapsed)
    case RefundGrace => Event(RefundFrozen, GraceNonReceipt, false)
    case SettleWindow => Plain(SettleDue)
  }

  function RuleDeadline(rule: Rule, r: Row): Option<Time> {
    match rule
    case ExpireFunding => r.fundingExpiresAt
    case FreezeDelivery => r.deliveryDeadline
    case RefundGrace => r.graceDeadline
    case SettleWindow => r.settleAfter
  }

  /** The WHERE clause of the rule's scan. */
  predicate Due(rule: Rule, r: Row, now: Time) {
    && r.state == SourceState(rule)
    && RuleDeadline(rule, r).Some? && RuleDeadline(rule, r).value <= now
    && (rule.RefundGrace? ==> r.attestedAt.Some?)
  }

  function SweepTx(pol: Policy, s: Slice, rule: Rule, now: Time): Result<Slice> {
    if !Due(rule, s.row, now) then Err(NotFound)
    else ApplyTransition(s, Read(pol, s), System, now, RuleEvent(rule), 0)
  }

  function AttestTx(s: Slice, now: Time): Result<Slice> {
    if !s.row.state.Frozen? then Err(IllegalState)
    else Ok(s.(row := s.row.(attestedAt := if s.row.attestedAt.Some? then s.row.attestedAt else Some(now))))
  }

  // ---------------------------------------------------------------- use cases

  /** How the stored code hash, read before the transaction, compared with the entered code. */
  datatype CodeCheck = NotReady | Match | Mismatch

  datatype Op =
    | ClaimOp(role: Role, user: string)
    | AcceptOp(role: Role, now: Time)
    | ConvertOp(user: string, vendorKobo: int64, now: Time)
    | CancelOp(role: Role, now: Time)               // the locked write; App.Cancel's role check comes earlier
    | CreditFundingOp(paid: int, now: Time)
    | EnterCodeOp(role: Role, check: CodeCheck, now: Time)
    | SettleNowOp(now: Time)                        // acceptCode's synchronous second transition
    | ReportIssueOp(role: Role, now: Time)
    | DispatchFailureOp(role: Role, now: Time)
    | AttestOp(role: Role, now: Time)
    | OpenDisputeOp(role: Role, now: Time)
    | ConcedeOp(role: Role, now: Time)
    | ForceRefundOp(now: Time)
    | ForcePayoutOp(badFaith: bool, now: Time)
    | SweepOp(rule: Rule, now: Time)

  /** Every write the application can make to an existing pocket, behind the role gates that need no read. */
  function Exec(pol: Policy, s: Slice, op: Op): Result<Slice> {
    match op
    case ClaimOp(role, user) => ClaimSeat(s, role, user)
    case AcceptOp(role, now) => AcceptSeat(pol, s, role, now)
    case ConvertOp(user, vendorKobo, now) => Convert(s, user, vendorKobo, now)
    case CancelOp(role, now) => CancelTx(pol, s, role, now)
    case CreditFundingOp(paid, now) => RunTransition(pol, s, System, now, Plain(FundingConfirmed), paid)
    case EnterCodeOp(role, check, now) =>
      if !role.Vendor? then Err(Forbidden)
      else if check.NotReady? then Err(CodeNotReady)
      else RunTransition(pol, s, Party(Vendor), now, Plain(if check.Match? then CodeAccepted else CodeRejected), 0)
    case SettleNowOp(now) => RunTransition(pol, s, Party(Vendor), now, Plain(SettleDue), 0)
    case ReportIssueOp(role, now) =>
      if !role.Buyer? then Err(Forbidden) else RunTransition(pol, s, Party(Buyer), now, Plain(BuyerReportIssue), 0)
    case DispatchFailureOp(role, now) =>
      if !role.Vendor? then Err(Forbidden)
      else RunTransition(pol, s, Party(Vendor), now, Event(RefundFrozen, VendorFailure, false), 0)
    case AttestOp(role, now) => if !role.Buyer? then Err(Forbidden) else AttestTx(s, now)
    case OpenDisputeOp(role, now) =>
      if !role.Buyer? then Err(Forbidden) else RunTransition(pol, s, Party(Buyer), now, Plain(FrozenDispute), 0)
    case ConcedeOp(role, now) =>
      if !role.Vendor? then Err(Forbidden) else RunTransition(pol, s, Party(Vendor), now, Plain(VendorConcede), 0)
    case ForceRefundOp(now) => RunTransition(pol, s, Admin, now, Plain(AdminForceRefund), 0)
    case ForcePayoutOp(badFaith, now) =>
      RunTransition(pol, s, Admin, now, Event(AdminForcePayout, NoReason, badFaith), 0)
    case SweepOp(rule, now) => SweepTx(pol, s, rule, now)
  }

  /** The rows after a sequence of attempted writes; a refused one leaves them unchanged. */
  function Run(pol: Policy, s: Slice, ops: seq<Op>): Slice {
    if ops == [] then s
    else
      var before := Run(pol, s, ops[..|ops| - 1]);
      var result := Exec(pol, before, ops[|ops| - 1]);
      if result.Ok? then result.value else before
  }
}
