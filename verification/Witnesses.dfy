/** Runs that exist: each shows the case that makes one of the exact conditions necessary. */
module Witnesses {
  import opened Results
  import opened PocketMachine
  import opened Records
  import opened History
  import opened Invariants
  import opened Runs
  import opened Persistence
  import opened UseCases
  import opened Guarantees

  /** A buyer's two-party draft with an hour of inspection. */
  function Sample(deliveryWindow: Duration): Terms {
    Terms(P2P, Buyer, Cooldown, HOUR, deliveryWindow, 100_00, 0)
  }

  function Start(pol: Policy, deliveryWindow: Duration): Slice
    requires pol.fundingTTL > 0 && deliveryWindow > 0
  {
    SampleIsCreated(pol, deliveryWindow);
    CreateDraft(pol, Sample(deliveryWindow), "buyer", 0).value
  }

  lemma SampleIsCreated(pol: Policy, deliveryWindow: Duration)
    requires pol.fundingTTL > 0 && deliveryWindow > 0
    ensures var result := CreateDraft(pol, Sample(deliveryWindow), "buyer", 0);
            && result.Ok?
            && result.value.row.state.Draft? && result.value.row.structure.P2P? && result.value.row.creatorRole.Buyer?
            && result.value.row.amountKobo == 100_00
            && result.value.row.inspectionMinutes == 60 && result.value.row.deliveryMinutes == Minutes(deliveryWindow)
            && result.value.seats == map[Buyer := Seat("buyer", Some(0)), Vendor := Seat("", None)]
            && result.value.log == []
  {
    var seats := CreateDraft(pol, Sample(deliveryWindow), "buyer", 0).value.seats;
    var roles := ParticipantRoles(P2P);
    assert roles == [Buyer, Vendor];
    assert seats.Keys == {Buyer, Vendor} && seats == map[Buyer := Seat("buyer", Some(0)), Vendor := Seat("", None)];
  }

  lemma OneMoreWrite(pol: Policy, s: Slice, ops: seq<Op>, op: Op)
    ensures Run(pol, s, ops + [op])
         == var before := Run(pol, s, ops);
            if Exec(pol, before, op).Ok? then Exec(pol, before, op).value else before
  {
    assert (ops + [op])[..|ops + [op]| - 1] == ops;
  }

  const CLAIM := ClaimOp(Vendor, "vendor")
  const ACCEPT := AcceptOp(Vendor, 0)

  /** The vendor claims and accepts: transition #1 fires if and only if the stored window is not empty. */
  lemma Opening(pol: Policy, deliveryWindow: Duration)
    requires pol.fundingTTL > 0 && deliveryWindow > 0
    ensures var claimed := Run(pol, Start(pol, deliveryWindow), [CLAIM]);
            && claimed.row.state.Draft? && claimed.seats.Keys == {Buyer, Vendor}
            && claimed.seats[Vendor] == Seat("vendor", None)
            && claimed.seats[Buyer] == Seat("buyer", Some(0))
            && claimed.row == Start(pol, deliveryWindow).row && claimed.log == []
            && claimed.row.deliveryMinutes == Minutes(deliveryWindow)
            && AllAccepted(claimed.seats[Vendor := Seat("vendor", Some(0))])
    ensures deliveryWindow < MINUTE ==>
              Exec(pol, Run(pol, Start(pol, deliveryWindow), [CLAIM]), ACCEPT) == Err(InvalidSpec)
    ensures deliveryWindow >= MINUTE ==>
              && Exec(pol, Run(pol, Start(pol, deliveryWindow), [CLAIM]), ACCEPT).Ok?
              && Run(pol, Start(pol, deliveryWindow), [CLAIM, ACCEPT]).row.state.Created?
              && Run(pol, Start(pol, deliveryWindow), [CLAIM, ACCEPT]).row.inspectionMinutes == 60
              && Run(pol, Start(pol, deliveryWindow), [CLAIM, ACCEPT]).row.deliveryMinutes == Minutes(deliveryWindow)
              && !Run(pol, Start(pol, deliveryWindow), [CLAIM, ACCEPT]).row.codeLocked
  {
    hide CreateDraft, Minutes, New, AllAccepted, HoldsSeat;
    var s := Start(pol, deliveryWindow);
    SampleIsCreated(pol, deliveryWindow);
    OneMoreWrite(pol, s, [], CLAIM);
    OneMoreWrite(pol, s, [CLAIM], ACCEPT);
    assert [] + [CLAIM] == [CLAIM] && [CLAIM] + [ACCEPT] == [CLAIM, ACCEPT];
    NobodyHolds(s.seats, "vendor");
    BothAccepted(Run(pol, s, [CLAIM]).seats[Vendor := Seat("vendor", Some(0))]);
    SampleLaunches(pol, s.row, deliveryWindow);
  }

  lemma NobodyHolds(seats: map<Role, Seat>, user: string)
    requires seats == map[Buyer := Seat("buyer", Some(0)), Vendor := Seat("", None)]
    ensures user != "" && user != "buyer" ==> !HoldsSeat(seats, user)
  {
  }

  lemma BothAccepted(seats: map<Role, Seat>)
    requires seats.Keys == {Buyer, Vendor} && seats[Buyer].acceptedAt.Some? && seats[Vendor].acceptedAt.Some?
    ensures AllAccepted(seats)
  {
    assert Buyer in seats;
  }

  lemma SampleLaunches(pol: Policy, r: Row, deliveryWindow: Duration)
    requires pol.fundingTTL > 0 && deliveryWindow > 0
    requires r == Start(pol, deliveryWindow).row
    ensures var launched := New(0, SpecOf(pol, Load(pol, r)));
            if deliveryWindow < MINUTE then launched == Err(InvalidSpec)
            else launched.Ok? && launched.value.pocket.state.Created? && !launched.value.pocket.codeLocked
  {
    assert Minutes(deliveryWindow) >= 1 <==> deliveryWindow >= MINUTE;
  }

  const PAY := CreditFundingOp(0, 0)
  const CODE := EnterCodeOp(Vendor, Match, 0)
  const REPORT := ReportIssueOp(Buyer, 0)
  const FORCE := ForcePayoutOp(false, 0)

  /** The sample's way into a dispute, one write at a time. */
  lemma PayFunds(pol: Policy, s: Slice)
    requires s.row.state.Created?
    ensures Exec(pol, s, PAY).Ok?
    ensures var r := Exec(pol, s, PAY).value.row;
            && r.state.Funded? && (r.codeLocked, r.inspectionMinutes) == (s.row.codeLocked, s.row.inspectionMinutes)
            && r.deliveryDeadline == Some(s.row.deliveryMinutes * MINUTE)
  {
    MachineFollowsTable(Load(pol, s.row), 0, Plain(FundingConfirmed));
  }

  lemma CodeDelivers(pol: Policy, s: Slice)
    requires s.row.state.Funded? && !s.row.codeLocked && s.row.inspectionMinutes == 60
    ensures Exec(pol, s, CODE).Ok?
    ensures Exec(pol, s, CODE).value.row.state.DeliveredPending?
    ensures Exec(pol, s, CODE).value.row.settleAfter == Some(HOUR)
  {
    MachineFollowsTable(Load(pol, s.row), 0, Plain(CodeAccepted));
  }

  lemma ReportDisputes(pol: Policy, s: Slice)
    requires s.row.state.DeliveredPending? && s.row.settleAfter == Some(HOUR)
    ensures Exec(pol, s, REPORT).Ok? && Exec(pol, s, REPORT).value.row.state.Disputed?
  {
    MachineFollowsTable(Load(pol, s.row), 0, Plain(BuyerReportIssue));
  }

  lemma ForceSettles(pol: Policy, s: Slice)
    requires s.row.state.Disputed?
    ensures Exec(pol, s, FORCE).Ok?
    ensures var t := Exec(pol, s, FORCE).value;
            && t.row.state.Settled? && t.log != []
            && t.log[|t.log| - 1].from.Disputed? && TagOf(t.log[|t.log| - 1]) == Of(AdminForcePayout)
  {
    MachineFollowsTable(Load(pol, s.row), 0, Event(AdminForcePayout, NoReason, false));
  }

  /** A reachable pocket settled without leaving DELIVERED_PENDING for it: force-paid out of a dispute. */
  lemma SomePocketIsForcePaid(pol: Policy)
    requires pol.fundingTTL > 0
    ensures var s := Run(pol, Start(pol, HOUR), [CLAIM, ACCEPT, PAY, CODE, REPORT, FORCE]);
            && Reachable(pol, s) && s.row.state.Settled?
            && s.log != [] && s.log[|s.log| - 1].from.Disputed? && TagOf(s.log[|s.log| - 1]) == Of(AdminForcePayout)
  {
    hide Exec, Run, Reachable, Start;
    var s := Start(pol, HOUR);
    Opening(pol, HOUR);
    var ops := [CLAIM, ACCEPT];
    OneMoreWrite(pol, s, ops, PAY);
    PayFunds(pol, Run(pol, s, ops));
    OneMoreWrite(pol, s, ops + [PAY], CODE);
    CodeDelivers(pol, Run(pol, s, ops + [PAY]));
    OneMoreWrite(pol, s, ops + [PAY] + [CODE], REPORT);
    ReportDisputes(pol, Run(pol, s, ops + [PAY] + [CODE]));
    OneMoreWrite(pol, s, ops + [PAY] + [CODE] + [REPORT], FORCE);
    ForceSettles(pol, Run(pol, s, ops + [PAY] + [CODE] + [REPORT]));
    assert ops + [PAY] + [CODE] + [REPORT] + [FORCE] == [CLAIM, ACCEPT, PAY, CODE, REPORT, FORCE];
    RunsAreReachable(pol, HOUR, [CLAIM, ACCEPT, PAY, CODE, REPORT, FORCE]);
  }

  const FREEZE := SweepOp(FreezeDelivery, HOUR)
  const ATTEST := AttestOp(Buyer, HOUR)

  function Grace(pol: Policy): Op { SweepOp(RefundGrace, HOUR + pol.gracePeriod) }

  lemma FreezeWaits(pol: Policy, s: Slice)
    requires Inv(pol, s) && s.row.state.Funded? && s.row.deliveryDeadline == Some(HOUR)
    ensures Exec(pol, s, FREEZE).Ok?
    ensures var r := Exec(pol, s, FREEZE).value.row;
            r.state.Frozen? && r.graceDeadline == Some(HOUR + pol.gracePeriod)
  {
    hide Inv, Exec;
    MovesFollowTable(pol, s, FREEZE);
  }

  lemma AttestationArms(pol: Policy, s: Slice)
    requires s.row.state.Frozen?
    ensures Exec(pol, s, ATTEST).Ok?
    ensures var r := Exec(pol, s, ATTEST).value.row;
            r.state.Frozen? && r.graceDeadline == s.row.graceDeadline && r.attestedAt.Some?
  {
    hide Exec;
    AttestationAsTabled(pol, s, Buyer, HOUR);
  }

  lemma GraceRefunds(pol: Policy, s: Slice)
    requires Inv(pol, s) && s.row.state.Frozen?
    requires s.row.graceDeadline == Some(HOUR + pol.gracePeriod) && s.row.attestedAt.Some?
    ensures Exec(pol, s, Grace(pol)).Ok?
    ensures var t := Exec(pol, s, Grace(pol)).value;
            && t.row.state.Refunded? && t.legs == map[BUYER_REFUND := Leg(t.row.buyerTotalKobo, LegStatus.Pending)]
            && t.log != [] && t.log[|t.log| - 1].kind == EventRow(Event(RefundFrozen, GraceNonReceipt, false))
  {
    hide Inv, Exec;
    MovesFollowTable(pol, s, Grace(pol));
  }

  /** A reachable pocket refunded on the grace ground: paid, frozen at its deadline, attested, and swept when its
      grace had run out. */
  lemma SomeGraceIsRefunded(pol: Policy)
    requires pol.fundingTTL > 0
    ensures var s := Run(pol, Start(pol, HOUR), [CLAIM, ACCEPT, PAY, FREEZE, ATTEST, Grace(pol)]);
            && Reachable(pol, s) && s.row.state.Refunded?
            && s.legs == map[BUYER_REFUND := Leg(s.row.buyerTotalKobo, LegStatus.Pending)]
            && s.log != [] && s.log[|s.log| - 1].kind == EventRow(Event(RefundFrozen, GraceNonReceipt, false))
  {
    hide Exec, Run, Reachable, Start, Inv;
    var s, grace := Start(pol, HOUR), Grace(pol);
    Opening(pol, HOUR);
    var ops := [CLAIM, ACCEPT];
    OneMoreWrite(pol, s, ops, PAY);
    PayFunds(pol, Run(pol, s, ops));
    RunIsSound(pol, HOUR, ops + [PAY]);
    OneMoreWrite(pol, s, ops + [PAY], FREEZE);
    FreezeWaits(pol, Run(pol, s, ops + [PAY]));
    OneMoreWrite(pol, s, ops + [PAY] + [FREEZE], ATTEST);
    AttestationArms(pol, Run(pol, s, ops + [PAY] + [FREEZE]));
    RunIsSound(pol, HOUR, ops + [PAY] + [FREEZE] + [ATTEST]);
    OneMoreWrite(pol, s, ops + [PAY] + [FREEZE] + [ATTEST], grace);
    GraceRefunds(pol, Run(pol, s, ops + [PAY] + [FREEZE] + [ATTEST]));
    assert ops + [PAY] + [FREEZE] + [ATTEST] + [grace] == [CLAIM, ACCEPT, PAY, FREEZE, ATTEST, grace];
    RunsAreReachable(pol, HOUR, [CLAIM, ACCEPT, PAY, FREEZE, ATTEST, grace]);
  }

  lemma RunIsSound(pol: Policy, deliveryWindow: Duration, ops: seq<Op>)
    requires pol.fundingTTL > 0 && deliveryWindow > 0
    ensures Inv(pol, Run(pol, Start(pol, deliveryWindow), ops))
  {
    hide Inv, Run, Start, Reachable;
    RunsAreReachable(pol, deliveryWindow, ops);
    ReachableInv(pol, Run(pol, Start(pol, deliveryWindow), ops));
  }

  lemma RunsAreReachable(pol: Policy, deliveryWindow: Duration, ops: seq<Op>)
    requires pol.fundingTTL > 0 && deliveryWindow > 0
    ensures Reachable(pol, Run(pol, Start(pol, deliveryWindow), ops))
  {
    SampleIsCreated(pol, deliveryWindow);
  }

  const CONVERT := ConvertOp("broker", 60_00, 0)

  /** A reachable brokered draft whose buyer is ahead of its vendor: a converted one. */
  lemma SomeBuyerIsAhead(pol: Policy)
    requires pol.fundingTTL > 0
    ensures var s := Run(pol, Start(pol, HOUR), [CONVERT]);
            && Reachable(pol, s) && s.row.state.Draft? && s.row.structure.Brokered?
            && RoleAccepted(s.seats, Buyer) && !RoleAccepted(s.seats, Vendor)
  {
    SampleIsCreated(pol, HOUR);
    hide CreateDraft, Reachable;
    OneMoreWrite(pol, Start(pol, HOUR), [], CONVERT);
    assert [] + [CONVERT] == [CONVERT];
    NobodyHolds(Start(pol, HOUR).seats, "broker");
    RunsAreReachable(pol, HOUR, [CONVERT]);
  }

  /** Half a minute of delivery is agreed at creation and refused by the acceptance that completes the draft. */
  lemma SomeLastAcceptanceFails(pol: Policy)
    requires pol.fundingTTL > 0
    ensures var s := Run(pol, Start(pol, 30 * SECOND), [CLAIM]);
            && Reachable(pol, s) && s.row.state.Draft?
            && Vendor in s.seats && s.seats[Vendor].user != "" && s.seats[Vendor].acceptedAt.None?
            && AllAccepted(s.seats[Vendor := s.seats[Vendor].(acceptedAt := Some(0))])
            && AcceptSeat(pol, s, Vendor, 0) == Err(InvalidSpec)
  {
    Opening(pol, 30 * SECOND);
    RunsAreReachable(pol, 30 * SECOND, [CLAIM]);
  }

  /** With no grace period configured the launched pocket has the default day of grace in memory and none
      once it is reloaded: the same funding and the same lapse freeze it until different instants. */
  lemma SomeLaunchIsNotReloaded(pol: Policy)
    requires pol.fundingTTL > 0 && pol.gracePeriod == 0
    ensures var draft, launched := Run(pol, Start(pol, HOUR), [CLAIM]), Run(pol, Start(pol, HOUR), [CLAIM, ACCEPT]);
            && New(0, SpecOf(pol, Load(pol, draft.row))).Ok?
            && var p := New(0, SpecOf(pol, Load(pol, draft.row))).value.pocket;
            && p.state.Created? && launched.row.state.Created? && !Synced(pol, launched.row, p)
            && var funded, stored := PaidPocket(p), PaidPocket(Load(pol, launched.row));
            && Transition(funded, HOUR, Plain(DeliveryDeadlineLapsed)).Ok?
            && Transition(stored, HOUR, Plain(DeliveryDeadlineLapsed)).Ok?
            && Transition(funded, HOUR, Plain(DeliveryDeadlineLapsed)).value.pocket.graceDeadline == Some(25 * HOUR)
            && Transition(stored, HOUR, Plain(DeliveryDeadlineLapsed)).value.pocket.graceDeadline == Some(HOUR)
  {
    hide Exec, Run, Start, New, Transition;
    var s := Start(pol, HOUR);
    Opening(pol, HOUR);
    SampleLaunches(pol, s.row, HOUR);
    OneMoreWrite(pol, s, [CLAIM], ACCEPT);
    assert [CLAIM] + [ACCEPT] == [CLAIM, ACCEPT];
    LaunchOfLast(pol, Run(pol, s, [CLAIM]));
    var r := Run(pol, s, [CLAIM]).row;
    LaunchReloaded(pol, 0, r);
    NewGrace(pol, r);
    var p := New(0, SpecOf(pol, Load(pol, r))).value.pocket;
    MachineFollowsTable(PaidPocket(p), HOUR, Plain(DeliveryDeadlineLapsed));
    MachineFollowsTable(PaidPocket(Load(pol, Save(r, p))), HOUR, Plain(DeliveryDeadlineLapsed));
  }

  /** The pocket after its payment at instant 0. */
  function PaidPocket(p: Pocket): (q: Pocket)
    requires p.state.Created?
    ensures q == p.(state := Funded, deliveryDeadline := Some(p.deliveryWindow))
  {
    MachineFollowsTable(p, 0, Plain(FundingConfirmed));
    Transition(p, 0, Plain(FundingConfirmed)).value.pocket
  }

  lemma LaunchOfLast(pol: Policy, s: Slice)
    requires Exec(pol, s, ACCEPT).Ok? && Exec(pol, s, ACCEPT).value.row.state.Created?
    ensures New(0, SpecOf(pol, Load(pol, s.row))).Ok?
    ensures Exec(pol, s, ACCEPT).value.row == Save(s.row, New(0, SpecOf(pol, Load(pol, s.row))).value.pocket)
  {
    hide New, AllAccepted;
  }

  lemma NewGrace(pol: Policy, r: Row)
    requires New(0, SpecOf(pol, Load(pol, r))).Ok? && pol.gracePeriod == 0
    ensures var p := New(0, SpecOf(pol, Load(pol, r))).value.pocket;
            p.state.Created? && p.gracePeriod == 24 * HOUR && p.deliveryWindow == r.deliveryMinutes * MINUTE
  {
  }
}
