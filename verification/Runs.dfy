/** Every reachable set of rows of one pocket: a successful creation followed by any attempted writes. */
module Runs {
  import opened Int64
  import opened Results
  import opened PocketMachine
  import opened Records
  import opened History
  import opened Invariants

  // ---------------------------------------------------------------- creation

  lemma CreateEstablishesSeats(pol: Policy, t: Terms, user: string, now: Time)
    requires CreateDraft(pol, t, user, now).Ok?
    ensures var s := CreateDraft(pol, t, user, now).value; SeatsInv(s.row, s.log, s.seats)
  {
    var s := CreateDraft(pol, t, user, now).value;
    var roles := ParticipantRoles(t.structure);
    assert roles[0] == Buyer && roles[1] == Vendor && (t.structure.Brokered? ==> roles[2] == Broker);
    assert forall r :: r in s.seats ==> s.seats[r] == DraftSeat(r, t, user, now);
  }

  lemma CreateEstablishesInv(pol: Policy, t: Terms, user: string, now: Time)
    requires CreateDraft(pol, t, user, now).Ok?
    ensures Inv(pol, CreateDraft(pol, t, user, now).value)
  {
    CreateEstablishesSeats(pol, t, user, now);
    assert Amounts(map[]) == map[];
  }

  // ---------------------------------------------------------------- the draft phase keeps the invariant

  lemma ClaimKeepsInv(pol: Policy, s: Slice, role: Role, user: string)
    requires Inv(pol, s) && ClaimSeat(s, role, user).Ok?
    ensures Inv(pol, ClaimSeat(s, role, user).value)
  {
    hide TermsInv, LogInv, RebuildInv, DeadlineInv, TimingInv, LegsInv, DisputeInv, OutcomeInv, InstantInv;
    var t := ClaimSeat(s, role, user).value;
    assert SeatsInv(t.row, t.log, t.seats) by {
      if t != s {
        assert forall q :: q in s.seats ==> s.seats[q].user != user;
      }
    }
  }

  lemma DraftNotLaunched(r: Row, log: seq<LogRow>)
    requires r.state.Draft? && LogInv(r, log)
    ensures CountOf(log, Launch) == 0
  {
  }

  lemma AllAcceptedByRole(structure: Structure, seats: map<Role, Seat>)
    requires seats.Keys == (if structure.Brokered? then {Buyer, Vendor, Broker} else {Buyer, Vendor})
    ensures AllAccepted(seats)
       <==> (&& seats[Buyer].acceptedAt.Some? && seats[Vendor].acceptedAt.Some?
             && (structure.Brokered? ==> seats[Broker].acceptedAt.Some?))
  {
    assert Buyer in seats;
  }

  lemma AcceptKeepsSeats(pol: Policy, s: Slice, role: Role, now: Time)
    requires SeatsInv(s.row, s.log, s.seats) && AcceptSeat(pol, s, role, now).Ok?
    requires CountOf(s.log, Launch) == 0
    ensures var t := AcceptSeat(pol, s, role, now).value; SeatsInv(t.row, t.log, t.seats)
  {
    var seats := s.seats[role := s.seats[role].(acceptedAt := Some(now))];
    AllAcceptedByRole(s.row.structure, seats);
    if AllAccepted(seats) {
      Appended(s.log, LogRow(Party(role), Draft, Created, CreatedRow, now, 0));
    }
  }

  /** Transition #1 as the write path commits it: row r becomes t and the log gains the launch row. */
  ghost predicate Launched(pol: Policy, r: Row, now: Time, t: Row) {
    && r.state.Draft?
    && ValidSpec(SpecOf(pol, Load(pol, r)))
    && t == r.(state := Created, codeAttempts := 0, codeLocked := false,
               deliveryDeadline := None, settleAfter := None, graceDeadline := None,
               fundingExpiresAt := Some(now + pol.fundingTTL), version := r.version + 1)
  }

  lemma LaunchKeepsLog(pol: Policy, r: Row, log: seq<LogRow>, e: LogRow, t: Row)
    requires Launched(pol, r, e.at, t)
    requires e.from.Draft? && e.to.Created? && e.kind.CreatedRow?
    requires LogInv(r, log) && RebuildInv(pol, r, log)
    ensures LogInv(t, log + [e]) && RebuildInv(pol, t, log + [e])
  {
    Appended(log, e);
    ChainAppended(log, Draft, e);
    ConversionsRebuildBase(pol, Base(pol, r), log);
    RebuildAppended(pol, Base(pol, r), log, e);
  }

  /** A write that leaves the draft phase, or stays in it, touches neither money nor clocks. */
  lemma DraftWriteKeepsRest(pol: Policy, r: Row, log: seq<LogRow>, e: LogRow, t: Row)
    requires r.state.Draft? && (t.state.Draft? || t.state.Created? || t.state.Cancelled?)
    requires TagOf(e) == Launch <==> t.state.Created?
    requires TagOf(e) in {Launch, Conversion, Of(EventKind.Cancel)}
    requires t.deliveryDeadline in {None, r.deliveryDeadline} && t.settleAfter in {None, r.settleAfter}
    requires t.fundingExpiresAt == if t.state.Created? then Some(e.at + pol.fundingTTL) else r.fundingExpiresAt
    requires (t.attestedAt, t.mode) == (r.attestedAt, r.mode)
          && (t.inspectionMinutes, t.deliveryMinutes) == (r.inspectionMinutes, r.deliveryMinutes)
    requires DeadlineInv(pol, r, log) && TimingInv(pol, r, log) && InstantInv(r, log)
    ensures DeadlineInv(pol, t, log + [e]) && TimingInv(pol, t, log + [e]) && InstantInv(t, log + [e])
    ensures forall d :: DisputeInv(r.state, log, d) ==> DisputeInv(t.state, log + [e], d)
    ensures Plan(r) == Plan(t) && OutcomeInv(pol, t, log + [e])
  {
    Appended(log, e);
    InstantAppended(log, e);
  }

  /** What an acceptance commits: a stamped seat, and the launch when it was the last one. */
  lemma AcceptShape(pol: Policy, s: Slice, role: Role, now: Time)
    requires AcceptSeat(pol, s, role, now).Ok?
    ensures var t := AcceptSeat(pol, s, role, now).value;
            && s.row.state.Draft? && t.legs == s.legs && t.dispute == s.dispute
            && if t.row.state.Draft? then t.row == s.row && t.log == s.log
               else Launched(pol, s.row, now, t.row) && (TermsInv(s.row) ==> TermsInv(t.row))
                    && t.log == s.log + [LogRow(Party(role), Draft, Created, CreatedRow, now, 0)]
  {
  }

  lemma AcceptKeepsInv(pol: Policy, s: Slice, role: Role, now: Time)
    requires Inv(pol, s) && AcceptSeat(pol, s, role, now).Ok?
    ensures Inv(pol, AcceptSeat(pol, s, role, now).value)
  {
    hide TermsInv, AcceptSeat, LogInv, RebuildInv, DeadlineInv, TimingInv, DisputeInv, OutcomeInv, InstantInv,
         SeatsInv, Plan;
    AcceptShape(pol, s, role, now);
    DraftNotLaunched(s.row, s.log);
    var t := AcceptSeat(pol, s, role, now).value;
    AcceptKeepsSeats(pol, s, role, now);
    if !t.row.state.Draft? {
      var e := LogRow(Party(role), Draft, Created, CreatedRow, now, 0);
      LaunchKeepsLog(pol, s.row, s.log, e, t.row);
      DraftWriteKeepsRest(pol, s.row, s.log, e, t.row);
    }
  }

  lemma ConvertKeepsSeats(s: Slice, user: string, vendorKobo: int64, now: Time)
    requires SeatsInv(s.row, s.log, s.seats) && Convert(s, user, vendorKobo, now).Ok?
    requires CountOf(s.log, Launch) == 0
    ensures var t := Convert(s, user, vendorKobo, now).value; SeatsInv(t.row, t.log, t.seats)
  {
    var t := Convert(s, user, vendorKobo, now).value;
    Appended(s.log, t.log[|s.log|]);
    assert forall r :: r in s.seats ==> s.seats[r].user != user;
  }

  lemma ConvertKeepsLog(pol: Policy, r: Row, log: seq<LogRow>, e: LogRow, t: Row)
    requires r.state.Draft? && LogInv(r, log) && RebuildInv(pol, r, log)
    requires e.from.Draft? && e.to.Draft? && e.kind.ConvertedRow?
    requires t == r.(structure := t.structure, creatorRole := t.creatorRole, amountKobo := t.amountKobo,
                     commissionKobo := t.commissionKobo, version := r.version + 1)
    ensures LogInv(t, log + [e]) && RebuildInv(pol, t, log + [e])
  {
    Appended(log, e);
    ChainAppended(log, Draft, e);
    ConversionsRebuildBase(pol, Base(pol, r), log);
    ConversionsRebuildBase(pol, Base(pol, t), log + [e]);
  }

  /** What a conversion commits: the split of the same goods value, a broker, one row. */
  lemma ConvertShape(s: Slice, user: string, vendorKobo: int64, now: Time)
    requires TermsInv(s.row) && Convert(s, user, vendorKobo, now).Ok?
    ensures var t := Convert(s, user, vendorKobo, now).value;
            && s.row.state.Draft? && t.legs == s.legs && t.dispute == s.dispute
            && t.log == s.log + [LogRow(Party(Broker), Draft, Draft, ConvertedRow, now, 0)]
            && t.row == s.row.(structure := Brokered, creatorRole := Broker, amountKobo := vendorKobo,
                               commissionKobo := s.row.amountKobo - vendorKobo, version := s.row.version + 1)
            && TermsInv(t.row)
  {
  }

  lemma ConvertKeepsInv(pol: Policy, s: Slice, user: string, vendorKobo: int64, now: Time)
    requires Inv(pol, s) && Convert(s, user, vendorKobo, now).Ok?
    ensures Inv(pol, Convert(s, user, vendorKobo, now).value)
  {
    assert CountOf(s.log, Launch) == 0;
    hide TermsInv, Convert, LogInv, RebuildInv, DeadlineInv, TimingInv, DisputeInv, OutcomeInv, InstantInv, SeatsInv,
        Plan;
    ConvertShape(s, user, vendorKobo, now);
    ConvertKeepsSeats(s, user, vendorKobo, now);
    var e := LogRow(Party(Broker), Draft, Draft, ConvertedRow, now, 0);
    var t := Convert(s, user, vendorKobo, now).value;
    ConvertKeepsLog(pol, s.row, s.log, e, t.row);
    DraftWriteKeepsRest(pol, s.row, s.log, e, t.row);
  }

  lemma DraftCancelKeepsLog(pol: Policy, r: Row, log: seq<LogRow>, e: LogRow, t: Row)
    requires r.state.Draft? && t == r.(state := Cancelled, version := r.version + 1)
    requires e.from.Draft? && e.to.Cancelled? && TagOf(e) == Of(EventKind.Cancel)
    requires LogInv(r, log) && RebuildInv(pol, r, log)
    ensures LogInv(t, log + [e]) && RebuildInv(pol, t, log + [e])
  {
    Appended(log, e);
    ChainAppended(log, Draft, e);
    RebuildAppended(pol, Base(pol, r), log, e);
  }

  lemma DraftCancelShape(pol: Policy, s: Slice, role: Role, now: Time)
    requires s.row.state.Draft?
    ensures CancelTx(pol, s, role, now).Ok?
    ensures CancelTx(pol, s, role, now).value
         == s.(row := s.row.(state := Cancelled, version := s.row.version + 1),
               log := s.log + [LogRow(Party(role), Draft, Cancelled, EventRow(Plain(EventKind.Cancel)), now, 0)])
    ensures TermsInv(s.row) ==> TermsInv(s.row.(state := Cancelled, version := s.row.version + 1))
  {
  }

  lemma DraftCancelKeepsSeats(r: Row, log: seq<LogRow>, seats: map<Role, Seat>, e: LogRow)
    requires r.state.Draft? && TagOf(e) == Of(EventKind.Cancel)
    requires SeatsInv(r, log, seats)
    ensures SeatsInv(r.(state := Cancelled, version := r.version + 1), log + [e], seats)
  {
    Appended(log, e);
  }

  lemma DraftCancelKeepsInv(pol: Policy, s: Slice, role: Role, now: Time)
    requires Inv(pol, s) && s.row.state.Draft?
    ensures CancelTx(pol, s, role, now).Ok? && Inv(pol, CancelTx(pol, s, role, now).value)
  {
    hide CancelTx, TermsInv, LogInv, RebuildInv, DeadlineInv, TimingInv, DisputeInv, OutcomeInv, InstantInv,
        SeatsInv, Plan;
    DraftCancelShape(pol, s, role, now);
    var e := LogRow(Party(role), Draft, Cancelled, EventRow(Plain(EventKind.Cancel)), now, 0);
    var t := CancelTx(pol, s, role, now).value;
    DraftCancelKeepsLog(pol, s.row, s.log, e, t.row);
    DraftCancelKeepsSeats(s.row, s.log, s.seats, e);
    DraftWriteKeepsRest(pol, s.row, s.log, e, t.row);
  }

  lemma AttestKeepsInv(pol: Policy, s: Slice, now: Time)
    requires Inv(pol, s) && AttestTx(s, now).Ok?
    ensures Inv(pol, AttestTx(s, now).value)
  {
  }

  // ---------------------------------------------------------------- every write keeps it, so every run does

  lemma ExecKeepsInv(pol: Policy, s: Slice, op: Op)
    requires Inv(pol, s) && Exec(pol, s, op).Ok?
    ensures Inv(pol, Exec(pol, s, op).value)
  {
    hide Inv, ApplyTransition, ClaimSeat, AcceptSeat, Convert, AttestTx, Load;
    match op {
      case ClaimOp(role, user) => ClaimKeepsInv(pol, s, role, user);
      case AcceptOp(role, now) => AcceptKeepsInv(pol, s, role, now);
      case ConvertOp(user, vendorKobo, now) => ConvertKeepsInv(pol, s, user, vendorKobo, now);
      case CancelOp(role, now) =>
        match s.row.state {
          case Draft => DraftCancelKeepsInv(pol, s, role, now);
          case Created => StepKeepsInv(pol, s, Party(role), now, Plain(EventKind.Cancel), 0);
          case Funded => StepKeepsInv(pol, s, Party(role), now, Plain(VendorCancel), 0);
          case _ =>
        }
      case CreditFundingOp(paid, now) => StepKeepsInv(pol, s, System, now, Plain(FundingConfirmed), paid);
      case EnterCodeOp(role, check, now) =>
        StepKeepsInv(pol, s, Party(Vendor), now, Plain(if check.Match? then CodeAccepted else CodeRejected), 0);
      case SettleNowOp(now) => StepKeepsInv(pol, s, Party(Vendor), now, Plain(SettleDue), 0);
      case ReportIssueOp(role, now) => StepKeepsInv(pol, s, Party(Buyer), now, Plain(BuyerReportIssue), 0);
      case DispatchFailureOp(role, now) =>
        StepKeepsInv(pol, s, Party(Vendor), now, Event(RefundFrozen, VendorFailure, false), 0);
      case AttestOp(role, now) => AttestKeepsInv(pol, s, now);
      case OpenDisputeOp(role, now) => StepKeepsInv(pol, s, Party(Buyer), now, Plain(FrozenDispute), 0);
      case ConcedeOp(role, now) => StepKeepsInv(pol, s, Party(Vendor), now, Plain(VendorConcede), 0);
      case ForceRefundOp(now) => StepKeepsInv(pol, s, Admin, now, Plain(AdminForceRefund), 0);
      case ForcePayoutOp(badFaith, now) =>
        StepKeepsInv(pol, s, Admin, now, Event(AdminForcePayout, NoReason, badFaith), 0);
      case SweepOp(rule, now) => StepKeepsInv(pol, s, System, now, RuleEvent(rule), 0);
    }
  }

  lemma {:induction false} RunKeepsInv(pol: Policy, s: Slice, ops: seq<Op>)
    requires Inv(pol, s)
    ensures Inv(pol, Run(pol, s, ops))
  {
    hide Inv, Exec;
    if ops != [] {
      var before := Run(pol, s, ops[..|ops| - 1]);
      RunKeepsInv(pol, s, ops[..|ops| - 1]);
      if Exec(pol, before, ops[|ops| - 1]).Ok? { ExecKeepsInv(pol, before, ops[|ops| - 1]); }
    }
  }

  /** Rows some creation and some sequence of attempted writes lead to. */
  ghost predicate Reachable(pol: Policy, s: Slice) {
    exists t: Terms, user: string, now: Time, ops: seq<Op> ::
      CreateDraft(pol, t, user, now).Ok? && s == Run(pol, CreateDraft(pol, t, user, now).value, ops)
  }

  lemma ReachableInv(pol: Policy, s: Slice)
    requires Reachable(pol, s)
    ensures Inv(pol, s)
    ensures TermsInv(s.row) && LogInv(s.row, s.log) && RebuildInv(pol, s.row, s.log)
         && DeadlineInv(pol, s.row, s.log) && TimingInv(pol, s.row, s.log)
         && LegsInv(s.row, s.legs) && DisputeInv(s.row.state, s.log, s.dispute)
         && OutcomeInv(pol, s.row, s.log) && InstantInv(s.row, s.log) && SeatsInv(s.row, s.log, s.seats)
  {
    hide CreateDraft, TermsInv, LogInv, RebuildInv, DeadlineInv, TimingInv, LegsInv, DisputeInv, OutcomeInv, InstantInv,
         SeatsInv;
    var t: Terms, user: string, now: Time, ops: seq<Op> :|
      CreateDraft(pol, t, user, now).Ok? && s == Run(pol, CreateDraft(pol, t, user, now).value, ops);
    CreateEstablishesInv(pol, t, user, now);
    RunKeepsInv(pol, CreateDraft(pol, t, user, now).value, ops);
  }
}
