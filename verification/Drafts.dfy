/** The draft phase, the clock rules and the use cases around them. */
module Drafts {
  import opened Int64
  import opened Results
  import opened PocketMachine
  import opened Records
  import opened History
  import opened Invariants
  import opened Runs
  import opened Guarantees

  // ---------------------------------------------------------------- draft terms and seats

  /** Through every create, claim, accept and convert the terms stay priced and bounded: the premium is
      the schedule's value for the goods, the total is their exact sum and never wraps. */
  lemma TermsStayPriced(pol: Policy, s: Slice)
    requires Reachable(pol, s)
    ensures s.row.amountKobo > 0 && s.row.commissionKobo >= 0
    ensures s.row.structure.P2P? ==> s.row.commissionKobo == 0
    ensures s.row.amountKobo + s.row.commissionKobo <= Int64.MAX
    ensures s.row.premiumKobo == ProtectionPremiumKobo(s.row.amountKobo + s.row.commissionKobo)
    ensures BuyerTotalKobo(Load(pol, s.row)) == s.row.buyerTotalKobo
         == s.row.amountKobo + s.row.commissionKobo + s.row.premiumKobo
  {
    hide Inv, Reachable, LogInv, RebuildInv, DeadlineInv, TimingInv, LegsInv, DisputeInv, OutcomeInv, InstantInv,
        SeatsInv;
    ReachableInv(pol, s);
  }

  /** Whole minutes survive the store; anything shorter than a minute does not. */
  predicate StoredWindowsValid(t: Terms) {
    t.deliveryWindow >= MINUTE && (t.mode.Cooldown? ==> t.inspectionWindow >= MINUTE)
  }

  lemma StoredSpecValidIff(pol: Policy, t: Terms, r: Row)
    requires ValidSpec(SpecOfTerms(pol, t)) && TermsInv(r)
    requires (r.mode, r.inspectionMinutes, r.deliveryMinutes)
          == (t.mode, Minutes(t.inspectionWindow), Minutes(t.deliveryWindow))
    ensures ValidSpec(SpecOf(pol, Load(pol, r))) <==> StoredWindowsValid(t)
  {
    assert Minutes(t.deliveryWindow) >= 1 <==> t.deliveryWindow >= MINUTE;
    assert t.mode.Cooldown? ==> (Minutes(t.inspectionWindow) >= 1 <==> t.inspectionWindow >= MINUTE);
  }

  lemma CreateShape(pol: Policy, t: Terms, creator: string, made: Time)
    requires CreateDraft(pol, t, creator, made).Ok?
    ensures var r := CreateDraft(pol, t, creator, made).value.row;
            && ValidSpec(SpecOfTerms(pol, t)) && r.mode == t.mode
            && r.inspectionMinutes == Minutes(t.inspectionWindow) && r.deliveryMinutes == Minutes(t.deliveryWindow)
  {
  }

  /** The stored spec is validated again by the last acceptance. After any sequence of writes that
      acceptance succeeds if and only if the windows agreed at creation were at least a minute long,
      as the whole-minute windows the transport submits always are. */
  lemma LastAcceptanceSucceedsIff(
    pol: Policy, t: Terms, creator: string, made: Time, ops: seq<Op>, role: Role, now: Time)
    requires CreateDraft(pol, t, creator, made).Ok?
    requires var s := Run(pol, CreateDraft(pol, t, creator, made).value, ops);
             && s.row.state.Draft? && role in s.seats && s.seats[role].user != "" && s.seats[role].acceptedAt.None?
             && AllAccepted(s.seats[role := s.seats[role].(acceptedAt := Some(now))])
    ensures AcceptSeat(pol, Run(pol, CreateDraft(pol, t, creator, made).value, ops), role, now).Ok?
       <==> StoredWindowsValid(t)
  {
    hide Inv, Exec, CreateDraft, Run, Minutes, StoredWindowsValid, SpecOfTerms, ValidSpec, Load, TermsInv;
    var s0 := CreateDraft(pol, t, creator, made).value;
    var s := Run(pol, s0, ops);
    CreateShape(pol, t, creator, made);
    CreateEstablishesInv(pol, t, creator, made);
    RunKeepsInv(pol, s0, ops);
    RunKeepsAgreement(pol, s0, ops);
    InvTerms(pol, s);
    StoredSpecValidIff(pol, t, s.row);
    InvSeats(pol, s);
    var seats := s.seats[role := s.seats[role].(acceptedAt := Some(now))];
    assert forall q :: q in s.seats && q != role ==> seats[q] == s.seats[q];
  }

  predicate WholeMinutes(d: Duration) { d % MINUTE == 0 }

  /** The store keeps minutes. Through every run the windows the machine enforces are the agreed ones if and
      only if those were whole minutes; otherwise they are cut. */
  lemma {:induction false} WindowsAreKeptIff(pol: Policy, t: Terms, creator: string, made: Time, ops: seq<Op>)
    requires CreateDraft(pol, t, creator, made).Ok?
    ensures var p := Load(pol, Run(pol, CreateDraft(pol, t, creator, made).value, ops).row);
            && ((p.inspectionWindow, p.deliveryWindow) == (t.inspectionWindow, t.deliveryWindow)
                <==> WholeMinutes(t.inspectionWindow) && WholeMinutes(t.deliveryWindow))
            && t.inspectionWindow - MINUTE < p.inspectionWindow <= t.inspectionWindow
            && t.deliveryWindow - MINUTE < p.deliveryWindow <= t.deliveryWindow
  {
    hide Inv, Exec, CreateDraft, Run;
    var s0 := CreateDraft(pol, t, creator, made).value;
    CreateShape(pol, t, creator, made);
    CreateEstablishesInv(pol, t, creator, made);
    RunKeepsAgreement(pol, s0, ops);
    CutToMinutes(t.inspectionWindow);
    CutToMinutes(t.deliveryWindow);
  }

  lemma CutToMinutes(d: Duration)
    requires d >= 0
    ensures Minutes(d) * MINUTE == d <==> WholeMinutes(d)
    ensures d - MINUTE < Minutes(d) * MINUTE <= d
  {
  }

  lemma InvSeats(pol: Policy, s: Slice)
    requires Inv(pol, s)
    ensures s.seats.Keys == (if s.row.structure.Brokered? then {Buyer, Vendor, Broker} else {Buyer, Vendor})
  {
    assert SeatsInv(s.row, s.log, s.seats);
  }

  /** A launched pocket has exactly its structure's roles, every one accepted, and each held by a
      different account. */
  lemma LaunchedSeatsAreComplete(pol: Policy, s: Slice)
    requires Reachable(pol, s)
    requires !s.row.state.Draft? && !s.row.state.Cancelled?
    ensures s.seats.Keys == set r | r in ParticipantRoles(s.row.structure)
    ensures AllAccepted(s.seats)
    ensures forall r :: r in s.seats ==> s.seats[r].user != ""
    ensures forall r, q :: r in s.seats && q in s.seats && r != q ==> s.seats[r].user != s.seats[q].user
  {
    hide Inv, Reachable, TermsInv, RebuildInv, DeadlineInv, TimingInv, LegsInv, DisputeInv, OutcomeInv, InstantInv;
    ReachableInv(pol, s);
    AllAcceptedByRole(s.row.structure, s.seats);
    var roles := ParticipantRoles(s.row.structure);
    assert roles[0] == Buyer && roles[1] == Vendor && (s.row.structure.Brokered? ==> roles[2] == Broker);
  }

  /** Brokered acceptance is vendor-first except on a converted pocket, whose buyer accepted at creation:
      in a brokered draft the buyer is ahead of the vendor if and only if it was converted. */
  lemma BuyerAheadOfVendorIffConverted(pol: Policy, s: Slice)
    requires Reachable(pol, s) && s.row.structure.Brokered? && s.row.state.Draft?
    ensures RoleAccepted(s.seats, Buyer) && !RoleAccepted(s.seats, Vendor) <==> CountOf(s.log, Conversion) > 0
  {
    hide Inv, Reachable, TermsInv, LogInv, RebuildInv, DeadlineInv, TimingInv, LegsInv, DisputeInv, OutcomeInv,
        InstantInv;
    ReachableInv(pol, s);
  }

  // ---------------------------------------------------------------- clock rules agree with the guards

  /** A claimed pocket never errors, and its row leaves the rule's source state. */
  lemma DuePocketAdvances(pol: Policy, s: Slice, rule: Rule, now: Time)
    requires Due(rule, s.row, now)
    ensures SweepTx(pol, s, rule, now).Ok?
    ensures SweepTx(pol, s, rule, now).value.row.state
         == Target(SourceState(rule), RuleEvent(rule).kind).value != SourceState(rule)
  {
    MachineFollowsTable(Load(pol, s.row), now, RuleEvent(rule));
  }

  /** The scans and the domain guards agree on every reachable pocket: a rule's row is due exactly when
      the guard would let its event through; the grace rule waits, beyond its guard, for the deadline
      and for the buyer's attestation. */
  lemma ScansAgreeWithGuards(pol: Policy, s: Slice, rule: Rule, now: Time)
    requires Reachable(pol, s)
    ensures Due(rule, s.row, now)
       <==> && Transition(Load(pol, s.row), now, RuleEvent(rule)).Ok?
            && (rule.RefundGrace? ==> !Before(now, s.row.graceDeadline) && s.row.attestedAt.Some?)
  {
    hide Inv, Reachable, TermsInv, LogInv, RebuildInv, LegsInv, DisputeInv, OutcomeInv, InstantInv, SeatsInv;
    ReachableInv(pol, s);
    MachineFollowsTable(Load(pol, s.row), now, RuleEvent(rule));
  }

  // ---------------------------------------------------------------- handoff evidence

  /** unboxingWithinWindow: the handoff instant is recovered from the stored deadline. */
  function UnboxingWithinWindow(pol: Policy, p: Pocket, capturedAt: Time): Option<bool> {
    if p.settleAfter.None? then None
    else Some(capturedAt - (p.settleAfter.value - p.inspectionWindow) <= pol.captureWindow)
  }

  /** The recovered handoff is exactly the logged code acceptance. */
  lemma EvidenceUsesTheLoggedHandoff(pol: Policy, s: Slice, capturedAt: Time)
    requires Reachable(pol, s)
    ensures UnboxingWithinWindow(pol, Load(pol, s.row), capturedAt)
         == match LastAt(s.log, Of(CodeAccepted))
            case None => None
            case Some(handoff) => Some(capturedAt <= handoff + pol.captureWindow)
  {
    hide Inv, Reachable, TermsInv, LogInv, RebuildInv, TimingInv, LegsInv, DisputeInv, OutcomeInv, InstantInv, SeatsInv;
    ReachableInv(pol, s);
  }

  /** Instant mode settles in the same call: an accepted code is due at once on a clock that does not
      run backwards. */
  lemma InstantModeSettlesAtHandoff(pol: Policy, s: Slice, at: Time, later: Time)
    requires Reachable(pol, s) && s.row.mode.Instant? && at <= later
    requires Exec(pol, s, EnterCodeOp(Vendor, Match, at)).Ok?
    ensures var handed := Exec(pol, s, EnterCodeOp(Vendor, Match, at)).value;
            && DueForSettlement(Load(pol, handed.row), later)
            && Exec(pol, handed, SettleNowOp(later)).Ok?
            && Exec(pol, handed, SettleNowOp(later)).value.row.state.Settled?
  {
    hide Inv, Reachable, LogInv, RebuildInv, DeadlineInv, TimingInv, LegsInv, DisputeInv, OutcomeInv, InstantInv,
        SeatsInv;
    ReachableInv(pol, s);
    MachineFollowsTable(Load(pol, s.row), at, Plain(CodeAccepted));
    var handed := Exec(pol, s, EnterCodeOp(Vendor, Match, at)).value;
    MachineFollowsTable(Load(pol, handed.row), later, Plain(SettleDue));
  }
}
