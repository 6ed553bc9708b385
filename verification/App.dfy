/** The use-case layer over the store and the gateway: disbursement, the drain loops, a sweeper tick, funding
    notifications and the two-step use cases, as one caller runs them in place. What a call did is told by the
    records of the boundary: the clock readings, submissions, funding queries and orders it added to them. */
module Application {
  import opened Int64
  import opened Results
  import opened PocketMachine
  import opened LegStatus
  import opened Records
  import opened Invariants
  import opened UseCases
  import opened System
  import opened Database
  import opened Boundary
  import opened Disbursal

  class App {
    const store: Store
    const gateway: Gateway
    const clock: Clock

    constructor (store: Store, gateway: Gateway, clock: Clock)
      ensures this.store == store && this.gateway == gateway && this.clock == clock
    {
      this.store, this.gateway, this.clock := store, gateway, clock;
    }

    // -------------------------------------------------------------- disbursement

    /** payLeg: claim, call, record. A leg another worker or a notice already moved on is left alone. */
    method PayLeg(leg: SettlementLeg) returns (failed: bool, ghost answer: Answer)
      requires Sound(store.policy, store.rows, gateway.taken)
      modifies store`rows, gateway`submitted, gateway`taken
      ensures Sound(store.policy, store.rows, gateway.taken)
      ensures !HasStatus(old(store.rows), leg.key, LegStatus.Pending) ==>
                && !failed && store.rows == old(store.rows)
                && gateway.submitted == old(gateway.submitted) && gateway.taken == old(gateway.taken)
      ensures HasStatus(old(store.rows), leg.key, LegStatus.Pending) ==>
                && gateway.submitted == old(gateway.submitted) + [Submission(leg, answer)]
                && KeyIn(store.rows, leg.key) && LegAt(store.rows, leg.key).status == Resolved(answer)
                && store.rows == WithStatus(old(store.rows), leg.key, Resolved(answer))
                && (failed <==> !answer.Accepted?)
                && (answer.Accepted? ==> gateway.taken == old(gateway.taken) + multiset{leg.key})
                && (!answer.Accepted? && !answer.Ambiguous? ==> gateway.taken == old(gateway.taken))
      ensures gateway.healthy ==> !failed && !HasStatus(store.rows, leg.key, LegStatus.Pending)
    {
      hide Sound, UpdateLeg, WithStatus, KeyIn;
      answer := Ambiguous;
      ghost var before, spent := store.rows, gateway.taken;
      var won := store.ClaimSettlementLeg(leg.key);
      if !won {
        return false, answer;
      }
      var reply := gateway.Transfer(leg.key, leg.amountKobo);
      answer := reply;
      ghost var u := UpdateFor(answer);
      TwoUpdates(before, leg.key, ClaimLeg, if u.Some? then u.value else ClaimLeg);
      match reply {
        case Accepted =>
          store.UpdateLegRow(leg.key, ConfirmLeg);
        case Rejected =>
          store.UpdateLegRow(leg.key, FailLeg);
        case NotSubmitted =>
          store.UpdateLegRow(leg.key, ReleaseLeg);
        case Ambiguous =>
      }
      failed := !reply.Accepted?;
      WithStatusAt(before, leg.key, Resolved(answer));
      StatusKeepsSound(store.policy, before, leg.key, Resolved(answer), spent, gateway.taken);
    }

    /** paySettlements: every pending leg of one pocket, each submitted once with its recorded amount, up to
        the first failure; every answer is recorded. */
    method PaySettlements(id: PocketId) returns (failed: bool)
      requires Sound(store.policy, store.rows, gateway.taken)
      modifies store`rows, gateway`submitted, gateway`taken
      ensures Sound(store.policy, store.rows, gateway.taken)
      ensures DisbursedIn(old(store.rows), store.rows, Some(id))
      ensures old(gateway.submitted) <= gateway.submitted
      ensures var subs := Since(old(gateway.submitted), gateway.submitted);
              && PaidOut(old(store.rows), id, subs, store.rows)
              && (failed <==> !Unstopped(subs))
      ensures gateway.healthy ==> !failed && KeysWithStatus(store.rows, Some(id), LegStatus.Pending) == {}
    {
      hide Sound, Sent, DisbursedIn, Lists, KeysWithStatus, Recorded;
      var legs := store.LegsWithStatus(Some(id), LegStatus.Pending);
      var n;
      failed, n := PayInOrder(legs, Some(id));
    }

    /** The disbursing loop, over the answer to a query: one payLeg after the other, up to the first failure.
        n is the number of legs paid. */
    method PayInOrder(legs: seq<SettlementLeg>, ghost of: Option<PocketId>) returns (failed: bool, n: nat)
      requires Sound(store.policy, store.rows, gateway.taken)
      requires Lists(legs, store.rows, KeysWithStatus(store.rows, of, LegStatus.Pending))
      modifies store`rows, gateway`submitted, gateway`taken
      ensures Sound(store.policy, store.rows, gateway.taken)
      ensures DisbursedIn(old(store.rows), store.rows, of)
      ensures old(gateway.submitted) <= gateway.submitted
      ensures var subs := Since(old(gateway.submitted), gateway.submitted);
              && Sent(old(store.rows), of, subs) && store.rows == Recorded(old(store.rows), subs)
              && (failed <==> !Unstopped(subs)) && n == PaidCount(subs)
      ensures gateway.healthy ==> !failed && KeysWithStatus(store.rows, of, LegStatus.Pending) == {}
    {
      hide Sound, DisbursedIn, WithStatus, HasStatus, Lists, ListsSome, KeyIn, Waits, Sent, Recorded, LegsOf;
      ghost var before, sent, subs := store.rows, gateway.submitted, [];
      DisbursedReflexive(before, of);
      ListedWait(legs, before, of);
      NothingRecorded(before);
      n := 0;
      while n < |legs|
        invariant n <= |legs|
        invariant Sound(store.policy, store.rows, gateway.taken)
        invariant DisbursedIn(before, store.rows, of)
        invariant Waits(store.rows, legs, n)
        invariant gateway.submitted == sent + subs && |subs| == n && LegsOf(subs) == legs[..n]
        invariant forall i :: 0 <= i < n ==> subs[i].answer.Accepted?
        invariant store.rows == Recorded(before, subs)
        invariant gateway.healthy ==> forall j :: 0 <= j < n ==> !HasStatus(store.rows, legs[j].key, LegStatus.Pending)
      {
        ghost var rows, answer := store.rows, Ambiguous;
        ListedAt(legs, before, of, n);
        WaitsAt(rows, legs, n);
        failed, answer := PayLeg(legs[n]);
        OthersWait(legs, before, of, rows, n, Resolved(answer));
        LegStep(before, rows, legs[n].key, store.rows, of);
        OneMoreRecorded(before, subs, Submission(legs[n], answer));
        OneMoreLeg(subs, legs, answer);
        ghost var more := subs + [Submission(legs[n], answer)];
        assert gateway.submitted == sent + more;
        subs := more;
        if failed {
          SentPrefix(before, of, legs, subs);
          return;
        }
        n := n + 1;
      }
      failed := false;
      SentPrefix(before, of, legs, subs);
      NothingPending(legs, before, store.rows, of);
    }

    /** applyOutcome, as far as it moves money: the disbursement after a committed transition, whose outcome
        moves money exactly when it paid the sellers or refunded the buyer. */
    method ApplyOutcome(id: PocketId, out: PocketMachine.Outcome)
      requires Sound(store.policy, store.rows, gateway.taken)
      requires id in store.rows && MovesAsState(store.rows[id], out)
      modifies store`rows, gateway`submitted, gateway`taken
      ensures Sound(store.policy, store.rows, gateway.taken)
      ensures DisbursedIn(old(store.rows), store.rows, Some(id))
      ensures old(gateway.submitted) <= gateway.submitted
      ensures PaidOut(old(store.rows), id, Since(old(gateway.submitted), gateway.submitted), store.rows)
      ensures gateway.healthy ==> KeysWithStatus(store.rows, Some(id), LegStatus.Pending) == {}
      ensures !old(store.rows)[id].row.state.Settled? && !old(store.rows)[id].row.state.Refunded? ==>
                && store.rows == old(store.rows)
                && gateway.submitted == old(gateway.submitted) && gateway.taken == old(gateway.taken)
    {
      hide Sound, PaidOut, KeysWithStatus, DisbursedIn, MovesMoneyIn;
      DisbursedReflexive(store.rows, Some(id));
      if MovesMoneyIn(out) {
        var _ := PaySettlements(id);
      } else {
        NothingToPayOut(store.policy, store.rows, gateway.taken, id);
        assert Since(old(gateway.submitted), gateway.submitted) == [];
      }
    }

    /** SweepPendingSettlementLegs: every leg still pending anywhere, up to the first failure. */
    method SweepPendingSettlementLegs() returns (paid: nat)
      requires Sound(store.policy, store.rows, gateway.taken)
      modifies store`rows, gateway`submitted, gateway`taken
      ensures Sound(store.policy, store.rows, gateway.taken)
      ensures DisbursedIn(old(store.rows), store.rows, None)
      ensures old(gateway.submitted) <= gateway.submitted
      ensures var subs := Since(old(gateway.submitted), gateway.submitted);
              && Sent(old(store.rows), None, subs) && store.rows == Recorded(old(store.rows), subs)
              && paid == PaidCount(subs)
      ensures gateway.healthy ==>
                && KeysWithStatus(store.rows, None, LegStatus.Pending) == {}
                && paid == |KeysWithStatus(old(store.rows), None, LegStatus.Pending)|
      ensures KeysWithStatus(old(store.rows), None, LegStatus.Pending) == {} ==>
                paid == 0 && store.rows == old(store.rows) && gateway.submitted == old(gateway.submitted)
    {
      hide Sound, DisbursedIn, Lists, Sent, Recorded, KeysWithStatus;
      var legs := store.LegsWithStatus(None, LegStatus.Pending);
      var failed;
      failed, paid := PayInOrder(legs, None);
      SentCounts(old(store.rows), None, Since(old(gateway.submitted), gateway.submitted));
      NothingRecorded(old(store.rows));
    }

    // -------------------------------------------------------------- the clock

    /** drainRule: claims and advances one due pocket at a time, reading the clock anew each time. It
        terminates whatever the clock says, because the rows in the rule's source state run out, and leaves
        none due at its last reading; on a pinned clock it advances exactly the pockets that were due. */
    method DrainRule(rule: Rule) returns (processed: nat)
      requires Sound(store.policy, store.rows, gateway.taken)
      modifies store`rows, gateway`submitted, gateway`taken, clock
      ensures Sound(store.policy, store.rows, gateway.taken)
      ensures old(clock.readings) <= clock.readings && old(gateway.submitted) <= gateway.submitted
      ensures var r := Since(old(clock.readings), clock.readings);
              && |r| == processed + 1 && Pinned(clock.pinned, r)
              && Drained(store.policy, rule, r, old(store.rows), store.rows)
              && NoneDue(store.rows, rule, r[processed])
      ensures Flow(old(store.rows), store.rows, SourceState(rule), TargetState(rule), processed)
      ensures processed == 0 ==> store.rows == old(store.rows) && gateway.submitted == old(gateway.submitted)
      ensures gateway.healthy ==>
                KeysWithStatus(store.rows, None, LegStatus.Pending)
                == KeysWithStatus(old(store.rows), None, LegStatus.Pending)
    {
      hide Sound, DisbursedIn, Drained, NoneDue, CountIn, SweepTx, Transition, Due, Exec, Flow, KeysWithStatus,
          MovesAsState, PaidOut;
      processed := 0;
      ghost var before, r := store.rows, [];
      DrainedReflexive(store.policy, rule, before);
      FlowNothing(before, SourceState(rule), TargetState(rule));
      while true
        invariant Sound(store.policy, store.rows, gateway.taken)
        invariant clock.readings == old(clock.readings) + r && |r| == processed && Pinned(clock.pinned, r)
        invariant old(gateway.submitted) <= gateway.submitted
        invariant Drained(store.policy, rule, r, before, store.rows)
        invariant Flow(before, store.rows, SourceState(rule), TargetState(rule), processed)
        invariant processed == 0 ==> store.rows == before && gateway.submitted == old(gateway.submitted)
        invariant gateway.healthy ==>
            KeysWithStatus(store.rows, None, LegStatus.Pending) == KeysWithStatus(before, None, LegStatus.Pending)
        decreases CountIn(store.rows, SourceState(rule))
      {
        ghost var rows, spent := store.rows, gateway.taken;
        var now := clock.Now();
        assert clock.readings == old(clock.readings) + (r + [now]);
        var res := store.SweepOne(rule, now);
        if res.None? {
          NoneDueFrom(rows, rule, now);
          DrainedOneMore(store.policy, rule, r, now, before, rows);
          return;
        }
        var id := res.value.pocket;
        SweepIsExec(store.policy, rows[id], rule, now);
        WriteKeepsSound(store.policy, rows, id, SweepOp(rule, now), gateway.taken);
        SweepMoves(store.policy, rows[id], rule, now);
        ApplyOutcome(id, res.value.out);
        CountsFlow(store.policy, rows, id, rule, now, store.rows);
        FlowLowers(rows, store.rows, SourceState(rule), TargetState(rule));
        FlowOn(before, rows, store.rows, SourceState(rule), TargetState(rule), processed, 1);
        DrainedStep(store.policy, rule, r, now, before, rows, id, store.rows);
        if gateway.healthy { SweptLeavesNone(store.policy, rows, spent, id, rule, now, store.rows); }
        r := r + [now];
        processed := processed + 1;
      }
    }

    // -------------------------------------------------------------- funding

    /** creditFunding: refuses a stated underpayment, credits a CREATED pocket at the call's one reading of the
        clock, and reports success for one already at or past FUNDED. */
    method CreditFunding(id: PocketId, expected: int64, paid: int) returns (res: Result<bool>)
      requires Sound(store.policy, store.rows, gateway.taken)
      modifies store`rows, gateway`submitted, gateway`taken, clock
      ensures Sound(store.policy, store.rows, gateway.taken)
      ensures gateway.submitted == old(gateway.submitted) && gateway.taken == old(gateway.taken)
      ensures old(clock.readings) <= clock.readings
      ensures var r := Since(old(clock.readings), clock.readings);
              && Pinned(clock.pinned, r)
              && CreditEnds(store.policy, old(store.rows), id, expected, paid, r, res, store.rows)
    {
      hide ApplyTransition, Sound, MovesAsState, Load, Exec, AfterMove;
      if paid > 0 && paid < expected {
        return Ok(false);
      }
      ghost var rows := store.rows;
      var now := clock.Now();
      var written := store.RunTransition(id, Actor.System, now, Plain(FundingConfirmed), paid);
      if id in rows { CreditAsTabled(store.policy, rows, gateway.taken, id, paid, now); }
      if written.Ok? {
        CommittedMoves(store.policy, rows[id], Actor.System, now, Plain(FundingConfirmed), paid);
        WriteKeepsSound(store.policy, rows, id, CreditFundingOp(paid, now), gateway.taken);
        ApplyOutcome(id, written.value.out);
      } else if written.error.IllegalTransition? || written.error.Terminal? || written.error.IllegalState? {
        if !FundingApplied(store.rows[id].row.state) {
          return Ok(false);
        }
      } else {
        return Err(written.error);
      }
      res := Ok(true);
    }

    /** VerifyFunding, the pull side: asks about the order's references, the stored one and the one this
        system submitted, until one is answered as paid. A CREATED pocket is credited if and only if that
        answer covers its total; any other is reported as it stands, without asking. */
    method VerifyFunding(id: PocketId) returns (funded: Result<bool>)
      requires Sound(store.policy, store.rows, gateway.taken)
      modifies store`rows, gateway`submitted, gateway`taken, gateway`asked, clock
      ensures Sound(store.policy, store.rows, gateway.taken)
      ensures gateway.submitted == old(gateway.submitted) && gateway.taken == old(gateway.taken)
      ensures old(gateway.asked) <= gateway.asked && old(clock.readings) <= clock.readings
      ensures id !in old(store.rows) ==>
                && funded == Err(NotFound) && store.rows == old(store.rows)
                && gateway.asked == old(gateway.asked) && clock.readings == old(clock.readings)
      ensures id in old(store.rows) ==>
                var q, r := Since(old(gateway.asked), gateway.asked), Since(old(clock.readings), clock.readings);
                Verified(store.policy, old(store.rows), store.links, id, q, r, funded, store.rows)
                && Pinned(clock.pinned, r)
    {
      hide Sound, CreditEnds, Verified, Unpaid, Load, FundingApplied, Inv, TermsInv, BuyerTotalKobo,
          FundingRef, References, StoredRef;
      if id !in store.rows {
        return Err(NotFound);
      }
      var row := store.rows[id].row;
      FoundStanding(store.policy, store.rows, store.links, id);
      if FundingApplied(row.state) {
        return Ok(true);
      }
      if !row.state.Created? {
        return Ok(false);
      }
      var refs := [StoredRef(store.links, id)];
      if FundingRef(id) != StoredRef(store.links, id) {
        refs := refs + [FundingRef(id)];
      }
      ghost var wanted, asked, read, q :=
        References(StoredRef(store.links, id), id), gateway.asked, clock.readings, [];
      ghost var skipped := if refs[0] == "" then 1 else 0;
      RefsToAsk(StoredRef(store.links, id), id);
      SoundInv(store.policy, store.rows, gateway.taken, id);
      NotYetAsked(wanted);
      var total := BuyerTotalKobo(Load(store.policy, row));
      for i := 0 to |refs|
        invariant Sound(store.policy, store.rows, gateway.taken)
        invariant store.rows == old(store.rows) && clock.readings == old(clock.readings)
        invariant gateway.submitted == old(gateway.submitted) && gateway.taken == old(gateway.taken)
        invariant gateway.asked == asked + q && Unpaid(wanted, q)
        invariant |q| == if i < skipped then 0 else i - skipped
      {
        if refs[i] != "" {
          assert refs[i] == wanted[|q|];
          var status := gateway.VerifyFunding(refs[i]);
          assert Since(asked, gateway.asked) == q + [Query(refs[i], status)];
          if status.PaidOrder? {
            funded := CreditFunding(id, total, status.amountKobo);
            FoundPaid(store.policy, old(store.rows), store.links, id, q, status.amountKobo,
                      Since(read, clock.readings), funded, store.rows);
            return;
          }
          AskedOnce(wanted, q, status);
          q := q + [Query(refs[i], status)];
        }
      }
      FoundUnpaid(store.policy, store.rows, store.links, id, q);
      assert Since(asked, gateway.asked) == q;
      funded := Ok(false);
    }

    /** SweepPendingFundingVerification: reviews every pocket awaiting its payment at the call's first reading,
        and credits exactly those the provider answers as paid for. */
    method SweepPendingFundingVerification() returns (funded: nat, ghost reviews: seq<Review>)
      requires Sound(store.policy, store.rows, gateway.taken)
      modifies store`rows, gateway`submitted, gateway`taken, gateway`asked, clock
      ensures Sound(store.policy, store.rows, gateway.taken)
      ensures gateway.submitted == old(gateway.submitted) && gateway.taken == old(gateway.taken)
      ensures old(clock.readings) < clock.readings && gateway.asked == old(gateway.asked) + QueriesOf(reviews)
      ensures var r := Since(old(clock.readings), clock.readings);
              && Pinned(clock.pinned, r)
              && AwaitingList(PocketsOf(reviews), old(store.rows), store.links, r[0])
              && ReviewsDone(store.policy, old(store.rows), store.links, reviews, r, store.rows)
      ensures Flow(old(store.rows), store.rows, Created, Funded, funded)
      ensures funded == 0 ==> store.rows == old(store.rows)
      ensures KeysWithStatus(store.rows, None, LegStatus.Pending)
           == KeysWithStatus(old(store.rows), None, LegStatus.Pending)
    {
      hide Sound, Flow, KeysWithStatus, ReviewsDone, Verified, AwaitingList, PocketsOf, QueriesOf, StoredRef;
      var now := clock.Now();
      var ids := store.PocketsAwaitingFunding(now);
      funded := 0;
      ghost var before, r := store.rows, [now];
      reviews := [];
      FlowNothing(before, Created, Funded);
      NoReviews(store.policy, before, store.links, r);
      for i := 0 to |ids|
        invariant Sound(store.policy, store.rows, gateway.taken)
        invariant gateway.submitted == old(gateway.submitted) && gateway.taken == old(gateway.taken)
        invariant clock.readings == old(clock.readings) + r && Pinned(clock.pinned, r)
        invariant r != [] && r[0] == now
        invariant gateway.asked == old(gateway.asked) + QueriesOf(reviews) && PocketsOf(reviews) == ids[..i]
        invariant ReviewsDone(store.policy, before, store.links, reviews, r, store.rows)
        invariant Flow(before, store.rows, Created, Funded, funded)
        invariant funded == 0 ==> store.rows == before
        invariant KeysWithStatus(store.rows, None, LegStatus.Pending) == KeysWithStatus(before, None, LegStatus.Pending)
      {
        ghost var rows, asked, read := store.rows, gateway.asked, clock.readings;
        StillWaiting(store.policy, before, store.links, now, ids, reviews, r, rows);
        var check := VerifyFunding(ids[i]);
        ghost var q, t := Since(asked, gateway.asked), Since(read, clock.readings);
        OneMoreReview(store.policy, before, store.links, reviews, r, rows, ids[i], q, t, check, store.rows);
        VerificationFlows(store.policy, rows, gateway.taken, store.links, ids[i], q, t, check, store.rows);
        FlowOn(before, rows, store.rows, Created, Funded, funded, if check == Ok(true) then 1 else 0);
        reviews := reviews + [Review(ids[i], q)];
        r := r + t;
        if check == Ok(true) {
          funded := funded + 1;
        }
      }
      assert ids[..|ids|] == ids;
    }

    /** IngestGatewayEvent: an event already processed changes nothing; any other brings about what it reports
        and is marked exactly when that is done with. target is the pocket a payment's order reference names. */
    method IngestGatewayEvent(event: EventId, notice: Notice)
      returns (err: Option<Error>, ghost target: Option<PocketId>)
      requires Sound(store.policy, store.rows, gateway.taken)
      requires Truthful(notice, store.rows, gateway.taken)
      modifies store`rows, store`webhooks, gateway`submitted, gateway`taken, clock
      ensures Sound(store.policy, store.rows, gateway.taken)
      ensures gateway.submitted == old(gateway.submitted) && gateway.taken == old(gateway.taken)
      ensures err == if event == "" then Some(InvalidInput) else None
      ensures old(clock.readings) <= clock.readings
      ensures if event == "" || (event in old(store.webhooks) && old(store.webhooks)[event]) then
                && store.rows == old(store.rows) && store.webhooks == old(store.webhooks)
                && clock.readings == old(clock.readings)
              else
                var r := Since(old(clock.readings), clock.readings);
                && event in store.webhooks
                && store.webhooks == old(store.webhooks)[event := store.webhooks[event]]
                && Brings(store.policy, old(store.rows), store.links, notice, target, r, store.rows,
                          store.webhooks[event])
                && Pinned(clock.pinned, r)
    {
      hide Sound, Exec, UpdateLeg, Brings;
      target := None;
      if event == "" {
        return Some(InvalidInput), target;
      }
      err := None;
      var needsProcessing := store.RecordWebhookEvent(event);
      if !needsProcessing {
        return;
      }
      var done;
      done, target := ProcessGatewayEvent(notice);
      if done {
        store.MarkWebhookProcessed(event);
      }
    }

    /** processGatewayEvent. */
    method ProcessGatewayEvent(notice: Notice) returns (done: bool, ghost target: Option<PocketId>)
      requires Sound(store.policy, store.rows, gateway.taken)
      requires Truthful(notice, store.rows, gateway.taken)
      modifies store`rows, gateway`submitted, gateway`taken, clock
      ensures Sound(store.policy, store.rows, gateway.taken)
      ensures gateway.submitted == old(gateway.submitted) && gateway.taken == old(gateway.taken)
      ensures old(clock.readings) <= clock.readings
      ensures var r := Since(old(clock.readings), clock.readings);
              && Brings(store.policy, old(store.rows), store.links, notice, target, r, store.rows, done)
              && Pinned(clock.pinned, r)
    {
      hide Sound, UpdateLeg, AfterMove, WithStatus;
      target := None;
      match notice {
        case FundingSucceeded(orderRef, paid) =>
          done, target := ApplyFundingEvent(orderRef, paid);
        case PayoutSucceeded(leg) =>
          if leg.None? {
            return false, target;
          }
          ResolvedKeepsSound(store.policy, store.rows, leg.value, ConfirmLeg, gateway.taken);
          UpdateOutcome(store.rows, leg.value, ConfirmLeg);
          store.UpdateLegRow(leg.value, ConfirmLeg);
          done := true;
        case PayoutFailed(leg) =>
          if leg.None? {
            return false, target;
          }
          ResolvedKeepsSound(store.policy, store.rows, leg.value, FailLeg, gateway.taken);
          UpdateOutcome(store.rows, leg.value, FailLeg);
          store.UpdateLegRow(leg.value, FailLeg);
          done := true;
        case FundingFailed =>
          done := true;
        case Unrecognised =>
          done := true;
      }
    }

    /** applyFundingEvent: the reference is the stored one of a pocket, or the one this system submitted; an
        unknown one is acknowledged and left unprocessed. */
    method ApplyFundingEvent(orderRef: string, paid: int) returns (done: bool, ghost target: Option<PocketId>)
      requires Sound(store.policy, store.rows, gateway.taken)
      modifies store`rows, gateway`submitted, gateway`taken, clock
      ensures Sound(store.policy, store.rows, gateway.taken)
      ensures gateway.submitted == old(gateway.submitted) && gateway.taken == old(gateway.taken)
      ensures old(clock.readings) <= clock.readings
      ensures var r := Since(old(clock.readings), clock.readings);
              && Brings(store.policy, old(store.rows), store.links, FundingSucceeded(orderRef, paid), target, r,
                        store.rows, done)
              && Pinned(clock.pinned, r)
    {
      hide Sound, Exec, Load, AfterMove, LooksLikeUuid;
      target := None;
      if orderRef == "" {
        return false, target;
      }
      var found := store.GetByFundingRef(orderRef);
      if found.None? {
        var own := PocketIdFromRef(orderRef);
        if own.Some? && own.value in store.rows {
          found := own;
        }
      }
      target := found;
      if found.None? {
        return false, target;
      }
      SoundInv(store.policy, store.rows, gateway.taken, found.value);
      var total := BuyerTotalKobo(Load(store.policy, store.rows[found.value].row));
      var credited := CreditFunding(found.value, total, paid);
      done := credited == Ok(true);
    }

    // -------------------------------------------------------------- use cases that take two steps

    /** Create: the terms are validated with the derived premium before anything is stored, and stored as they
        were proposed. */
    method Create(id: PocketId, t: Terms, user: string) returns (res: Result<PocketId>)
      requires Sound(store.policy, store.rows, gateway.taken) && id !in store.rows
      modifies store`rows, clock
      ensures Sound(store.policy, store.rows, gateway.taken)
      ensures old(clock.readings) <= clock.readings
      ensures var r := Since(old(clock.readings), clock.readings);
              && Pinned(clock.pinned, r)
              && if !Acceptable(store.policy, t) || user == "" then
                   res == Err(InvalidInput) && store.rows == old(store.rows) && r == []
                 else if !TotalFits(t) then res == Err(CheckViolation) && store.rows == old(store.rows) && |r| == 1
                 else
                   && res == Ok(id) && |r| == 1
                   && id in store.rows && store.rows == old(store.rows)[id := store.rows[id]]
                   && Proposed(t, user, r[0], store.rows[id])
    {
      hide Sound, Acceptable, TotalFits, Proposed, CreateDraft;
      AcceptableIsValid(store.policy, t);
      if !ValidSpec(SpecOfTerms(store.policy, t)) || user == "" {
        return Err(InvalidInput);
      }
      hide ValidSpec, SpecOfTerms;
      ghost var before := store.rows;
      var now := clock.Now();
      res := store.CreatePocket(id, t, user, now);
      if res.Ok? { CreateKeepsSound(store.policy, before, id, t, user, now, gateway.taken); }
    }

    /** Accept: a role's acceptance; the last one starts the pocket, and a checkout order is asked for the
        buyer's total and its reference stored. */
    method Accept(id: PocketId, role: Role) returns (res: Result<bool>, ghost link: Option<string>)
      requires Sound(store.policy, store.rows, gateway.taken)
      modifies store`rows, store`links, gateway`orders, clock
      ensures Sound(store.policy, store.rows, gateway.taken)
      ensures old(clock.readings) <= clock.readings
      ensures var r := Since(old(clock.readings), clock.readings);
              && |r| == 1 && Pinned(clock.pinned, r)
              && if id !in old(store.rows) then res == Err(NotFound) && store.rows == old(store.rows)
                 else
                   var s := old(store.rows)[id];
                   match AcceptRefusal(store.policy, s, role)
                   case Some(e) => res == Err(e) && store.rows == old(store.rows)
                   case None =>
                     && res == Ok(LastToAccept(s, role))
                     && store.rows == old(store.rows)[id := AfterAcceptance(store.policy, s, role, r[0])]
      ensures if res == Ok(true) then
                && id in old(store.rows)
                && gateway.orders == old(gateway.orders) + [Order(id, old(store.rows)[id].row.buyerTotalKobo, link)]
                && store.links == if link.Some? then old(store.links)[id := link.value] else old(store.links)
              else gateway.orders == old(gateway.orders) && store.links == old(store.links)
    {
      hide Sound, AfterAcceptance, AcceptRefusal, AcceptSeat, LastToAccept, Load, Inv, TermsInv, BuyerTotalKobo;
      link := None;
      ghost var before := store.rows;
      if id in before { SoundInv(store.policy, before, gateway.taken, id); }
      var now := clock.Now();
      if id in before {
        AcceptanceAsTabled(store.policy, before[id], role, now);
        AcceptanceStates(store.policy, before[id], role, now);
      }
      var accepted := store.Accept(id, role, now);
      if accepted.Err? {
        return Err(accepted.error), link;
      }
      WriteKeepsSound(store.policy, before, id, AcceptOp(role, now), gateway.taken);
      if accepted.value.Some? {
        link := ExecuteEffects(id, accepted.value.value);
      }
      res := Ok(accepted.value.Some?);
    }

    /** executeEffects, for a pocket just started: the checkout order its one effect asks for. */
    method ExecuteEffects(id: PocketId, out: PocketMachine.Outcome) returns (ghost link: Option<string>)
      requires id in store.rows && |out.effects| == 1 && out.effects[0].CreateFundingLink?
      modifies store`links, gateway`orders
      ensures gateway.orders == old(gateway.orders) + [Order(id, BuyerTotalKobo(out.pocket), link)]
      ensures store.links == if link.Some? then old(store.links)[id := link.value] else old(store.links)
    {
      link := None;
      for i := 0 to |out.effects|
        invariant i == 0 ==> gateway.orders == old(gateway.orders) && store.links == old(store.links)
        invariant i == 1 ==>
          && gateway.orders == old(gateway.orders) + [Order(id, BuyerTotalKobo(out.pocket), link)]
          && store.links == if link.Some? then old(store.links)[id := link.value] else old(store.links)
      {
        match out.effects[i] {
          case CreateFundingLink(_) =>
            var minted := gateway.CreateFundingLink(id, BuyerTotalKobo(out.pocket));
            if minted.Some? {
              store.SetFundingLink(id, minted.value);
            }
            link := minted;
          case _ =>
        }
      }
    }

    /** Cancel: the role check reads the pocket, then the store decides by what it finds. Undisturbed both
        see one state, so only the vendor refunds a FUNDED pocket; a cancel leaves the pocket closed. */
    method Cancel(id: PocketId, role: Role) returns (res: Result<WriteResult>)
      requires Sound(store.policy, store.rows, gateway.taken)
      modifies store`rows, gateway`submitted, gateway`taken, clock
      ensures Sound(store.policy, store.rows, gateway.taken)
      ensures old(clock.readings) <= clock.readings && old(gateway.submitted) <= gateway.submitted
      ensures var r := Since(old(clock.readings), clock.readings);
              var subs := Since(old(gateway.submitted), gateway.submitted);
              && Pinned(clock.pinned, r)
              && if id in old(store.rows) then
                   CancelEnds(store.policy, old(store.rows), id, role, r, res, subs, store.rows)
                 else res == Err(NotFound) && r == [] && subs == [] && store.rows == old(store.rows)
    {
      hide Sound, ApplyTransition, DisbursedIn, AfterMove, PaidOut, Exec, MovesAsState, Transition, Cancels;
      if id !in store.rows {
        return Err(NotFound);
      }
      ghost var before := store.rows;
      var seen := store.rows[id].row.state;
      if seen.Funded? && !role.Vendor? {
        return Err(Forbidden);
      }
      var now := clock.Now();
      CancelAsTabled(store.policy, before, gateway.taken, id, role, now);
      res := store.Cancel(id, role, now);
      if res.Ok? {
        WriteKeepsSound(store.policy, before, id, CancelOp(role, now), gateway.taken);
        CancelMoves(store.policy, before[id], role, now, res.value.out);
        ApplyOutcome(id, res.value.out);
      }
    }

    /** EnterCode: a match is accepted and, when the inspection window is by then over, settled in the same
        call; a mismatch counts. A clock that ran backwards leaves the settlement to the sweeper. */
    method EnterCode(id: PocketId, role: Role, check: CodeCheck) returns (err: Option<Error>)
      requires Sound(store.policy, store.rows, gateway.taken)
      modifies store`rows, gateway`submitted, gateway`taken, clock
      ensures Sound(store.policy, store.rows, gateway.taken)
      ensures old(clock.readings) <= clock.readings && old(gateway.submitted) <= gateway.submitted
      ensures err.Some? ==> store.rows == old(store.rows) && gateway.submitted == old(gateway.submitted)
      ensures !role.Vendor? || id !in old(store.rows) || check.NotReady? ==>
                && clock.readings == old(clock.readings)
                && err == Some(if !role.Vendor? then Forbidden else if id !in old(store.rows) then NotFound
                               else CodeNotReady)
      ensures role.Vendor? && id in old(store.rows) && !check.NotReady? ==>
                var r := Since(old(clock.readings), clock.readings);
                && Pinned(clock.pinned, r) && CodeEntered(store.policy, old(store.rows)[id], check, r, err)
                && (err.None? ==>
                      PaidOut(old(store.rows)[id := CodeLeaves(store.policy, old(store.rows)[id], check, r)], id,
                              Since(old(gateway.submitted), gateway.submitted), store.rows))
      ensures role.Vendor? && id in old(store.rows) && check.Match? && clock.pinned.Some? ==>
                var s := old(store.rows)[id].row;
                !s.codeLocked && (s.state.Funded? || s.state.Frozen?) ==>
                  err.None? && id in store.rows && HandedOver(s, clock.pinned.value, store.rows[id])
    {
      hide Sound, CodeEntered, PaidOut, CodeLeaves, HandedOver;
      if !role.Vendor? {
        return Some(Forbidden);
      }
      if id !in store.rows {
        return Some(NotFound);
      }
      if check.NotReady? {
        return Some(CodeNotReady);
      }
      if check.Match? {
        err := AcceptCode(id);
        ghost var s := old(store.rows)[id];
        if clock.pinned.Some? && !s.row.codeLocked && (s.row.state.Funded? || s.row.state.Frozen?) {
          CodeOnFixedClock(
            store.policy, old(store.rows), id, clock.pinned.value, Since(old(clock.readings), clock.readings), err,
            Since(old(gateway.submitted), gateway.submitted), store.rows);
        }
      } else {
        err := RejectCode(id);
      }
    }

    /** acceptCode. */
    method AcceptCode(id: PocketId) returns (err: Option<Error>)
      requires Sound(store.policy, store.rows, gateway.taken) && id in store.rows
      modifies store`rows, gateway`submitted, gateway`taken, clock
      ensures Sound(store.policy, store.rows, gateway.taken)
      ensures old(clock.readings) <= clock.readings && old(gateway.submitted) <= gateway.submitted
      ensures err.Some? ==> store.rows == old(store.rows) && gateway.submitted == old(gateway.submitted)
      ensures var r := Since(old(clock.readings), clock.readings);
              && Pinned(clock.pinned, r) && CodeEntered(store.policy, old(store.rows)[id], Match, r, err)
              && (err.None? ==>
                    PaidOut(old(store.rows)[id := CodeLeaves(store.policy, old(store.rows)[id], Match, r)], id,
                            Since(old(gateway.submitted), gateway.submitted), store.rows))
    {
      hide Sound, ApplyTransition, DisbursedIn, Exec, Load, DueForSettlement, PaidOut, AfterMove, Refusal, Reached,
          MovesAsState, Transition;
      ghost var before, r := store.rows, clock.readings;
      var now := clock.Now();
      assert Since(r, clock.readings) == [now];
      CodeAsTabled(store.policy, before, gateway.taken, id, Match, now);
      var res := store.RunTransition(id, Party(Vendor), now, Plain(CodeAccepted), 0);
      if res.Err? {
        return Some(res.error);
      }
      ghost var handed := store.rows[id];
      CommittedMoves(store.policy, before[id], Party(Vendor), now, Plain(CodeAccepted), 0);
      WriteKeepsSound(store.policy, before, id, EnterCodeOp(Vendor, Match, now), gateway.taken);
      ApplyOutcome(id, res.value.out);
      err := None;
      var check := clock.Now();
      assert Since(r, clock.readings) == [now, check];
      HandoffIsDueIff(store.policy, before[id], now, check);
      CommittedIsDueIff(store.policy, before[id], Party(Vendor), now, Plain(CodeAccepted), 0, check);
      if DueForSettlement(res.value.out.pocket, check) {
        ghost var rows := store.rows;
        var last := clock.Now();
        assert Since(r, clock.readings) == [now, check, last];
        SettleAsTabled(store.policy, rows, gateway.taken, id, last);
        HandoffIsDueIff(store.policy, before[id], now, last);
        var settled := store.RunTransition(id, Party(Vendor), last, Plain(SettleDue), 0);
        if settled.Ok? {
          CommittedMoves(store.policy, handed, Party(Vendor), last, Plain(SettleDue), 0);
          WriteKeepsSound(store.policy, rows, id, SettleNowOp(last), gateway.taken);
          assert before[id := handed][id := store.rows[id]] == before[id := store.rows[id]];
          ApplyOutcome(id, settled.value.out);
        }
      }
    }

    /** rejectCode. */
    method RejectCode(id: PocketId) returns (err: Option<Error>)
      requires Sound(store.policy, store.rows, gateway.taken) && id in store.rows
      modifies store`rows, gateway`submitted, gateway`taken, clock
      ensures Sound(store.policy, store.rows, gateway.taken)
      ensures old(clock.readings) <= clock.readings && old(gateway.submitted) <= gateway.submitted
      ensures err.Some? ==> store.rows == old(store.rows) && gateway.submitted == old(gateway.submitted)
      ensures var r := Since(old(clock.readings), clock.readings);
              && Pinned(clock.pinned, r) && CodeEntered(store.policy, old(store.rows)[id], Mismatch, r, err)
              && (err.None? ==>
                    PaidOut(old(store.rows)[id := CodeLeaves(store.policy, old(store.rows)[id], Mismatch, r)], id,
                            Since(old(gateway.submitted), gateway.submitted), store.rows))
    {
      hide Sound, ApplyTransition, DisbursedIn, Exec, Load, PaidOut, AfterMove, Refusal, MovesAsState, Transition;
      ghost var before := store.rows;
      var now := clock.Now();
      CodeAsTabled(store.policy, before, gateway.taken, id, Mismatch, now);
      var res := store.RunTransition(id, Party(Vendor), now, Plain(CodeRejected), 0);
      if res.Err? {
        return Some(res.error);
      }
      CommittedMoves(store.policy, before[id], Party(Vendor), now, Plain(CodeRejected), 0);
      WriteKeepsSound(store.policy, before, id, EnterCodeOp(Vendor, Mismatch, now), gateway.taken);
      ApplyOutcome(id, res.value.out);
      err := None;
    }

    // -------------------------------------------------------------- the sweeper

    /** Tick: every rule once, in dependency order, and a report that accounts for every pocket that changed
        state. No gateway answers status queries, so the inflight pass resolves nothing. With a healthy gateway
        nothing stays pending; on a pinned clock nothing is then left to do, and a tick with nothing to do, and
        no payment newly found, changes no row and submits no transfer. found are the rows after the funding
        sweep. */
    method Tick() returns (report: Report, ghost reviews: seq<Review>, ghost found: Db)
      requires Sound(store.policy, store.rows, gateway.taken)
      modifies store`rows, gateway`submitted, gateway`taken, gateway`asked, clock
      ensures Sound(store.policy, store.rows, gateway.taken)
      ensures old(clock.readings) < clock.readings && gateway.asked == old(gateway.asked) + QueriesOf(reviews)
      ensures var r := Since(old(clock.readings), clock.readings);
              && Pinned(clock.pinned, r)
              && AwaitingList(PocketsOf(reviews), old(store.rows), store.links, r[0])
              && ReviewsDone(store.policy, old(store.rows), store.links, reviews, r, found)
      ensures Flow(old(store.rows), found, Created, Funded, report.fundingVerified)
      ensures StaysApplied(found, store.rows)
      ensures Balances(report, old(store.rows), store.rows) && report.legsResolved == 0
      ensures gateway.healthy ==>
                && KeysWithStatus(store.rows, None, LegStatus.Pending) == {}
                && report.legsReconciled == |KeysWithStatus(old(store.rows), None, LegStatus.Pending)|
      ensures clock.pinned.Some? && gateway.healthy ==> Quiet(store.rows, clock.pinned.value)
      ensures clock.pinned.Some? && old(Quiet(store.rows, clock.pinned.value)) && report.fundingVerified == 0 ==>
                && report == Report(0, 0, 0, 0, 0, 0, 0)
                && store.rows == old(store.rows) && gateway.submitted == old(gateway.submitted)
    {
      hide Sound, Drained, NoneDue, DisbursedIn, CountIn, KeysWithStatus, Flow, Balances, ReviewsDone, AwaitingList,
          Sent, Recorded, StaysApplied, PocketsOf, QueriesOf, Pinned, StoredRef;
      var fundingVerified;
      fundingVerified, reviews := SweepPendingFundingVerification();
      ghost var a, r0 := store.rows, clock.readings;
      found := a;
      var expired := DrainRule(ExpireFunding);
      ghost var b, r1 := store.rows, clock.readings;
      var frozen := DrainRule(FreezeDelivery);
      ghost var c, r2 := store.rows, clock.readings;
      var graceRefunded := DrainRule(RefundGrace);
      ghost var d, r3 := store.rows, clock.readings;
      var settled := DrainRule(SettleWindow);
      ghost var e, r4 := store.rows, clock.readings;
      var reconciled := SweepPendingSettlementLegs();
      report := Report(fundingVerified, expired, frozen, graceRefunded, settled, 0, reconciled);
      FlowsBalance(report, old(store.rows), a, b, c, d, e, store.rows);
      FourDrainsStayApplied(
        store.policy, Since(r0, r1), Since(r1, r2), Since(r2, r3), Since(r3, r4), a, b, c, d, e, store.rows);
      ghost var swept, later := Since(old(clock.readings), r0), Since(r0, clock.readings);
      assert Since(old(clock.readings), clock.readings) == swept + later;
      ReviewsStayDone(store.policy, old(store.rows), store.links, reviews, swept, later, found);
      PinnedOn(clock.pinned, r2, r3, r4);
      PinnedOn(clock.pinned, r1, r2, r4);
      PinnedOn(clock.pinned, r0, r1, r4);
      PinnedOn(clock.pinned, old(clock.readings), r0, r4);
      if clock.pinned.Some? {
        FourDrains(store.policy, clock.pinned.value, Since(r0, r1), Since(r1, r2), Since(r2, r3), Since(r3, r4),
                   a, b, c, d, e, store.rows);
        if old(Quiet(store.rows, clock.pinned.value)) && fundingVerified == 0 {
          NothingFlows(a, Created, Expired, expired);
          NothingFlows(a, Funded, Frozen, frozen);
          NothingFlows(a, Frozen, Refunded, graceRefunded);
          NothingFlows(a, DeliveredPending, Settled, settled);
        }
      }
    }
  }
}
