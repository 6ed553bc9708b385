/** What one caller's disbursements and drains do to the database, and what they keep. */
module Disbursal {
  import opened Results
  import opened PocketMachine
  import opened LegStatus
  import opened Records
  import opened Invariants
  import opened Drafts
  import opened System
  import opened Protocol
  import opened Runs
  import opened Guarantees
  import opened Composition
  import opened UseCases
  import opened Database
  import opened Boundary

  // ---------------------------------------------------------------- what the layer keeps

  /** Between calls: the provider took no leg on twice, a pending or unknown one never, a confirmed one once. */
  ghost predicate Books(db: Db, taken: multiset<LegKey>) {
    forall key: LegKey ::
      && taken[key] <= 1
      && (!KeyIn(db, key) || LegAt(db, key).status.Pending? ==> taken[key] == 0)
      && (KeyIn(db, key) && LegAt(db, key).status.Confirmed? ==> taken[key] == 1)
  }

  /** ... and every pocket keeps the invariant of the write path. */
  ghost predicate Sound(pol: Policy, db: Db, taken: multiset<LegKey>) {
    Books(db, taken) && PocketsOk(pol, db)
  }

  lemma EmptyIsSound(pol: Policy)
    ensures Sound(pol, map[], multiset{})
  {
  }

  /** How a leg stands after its call was answered. */
  function Resolved(answer: Answer): Status {
    match answer
    case Accepted => LegStatus.Confirmed
    case Rejected => LegStatus.Failed
    case NotSubmitted => LegStatus.Pending
    case Ambiguous => LegStatus.Inflight
  }

  function WithStatus(db: Db, key: LegKey, status: Status): Db
    requires KeyIn(db, key)
  {
    var s, leg := db[key.pocket], LegAt(db, key);
    db[key.pocket := s.(legs := s.legs[key.slot := leg.(status := status)])]
  }

  /** The rows once every answer to these submissions has been recorded. */
  function Recorded(db: Db, subs: seq<Submission>): Db {
    if subs == [] then db
    else
      var before, last := Recorded(db, subs[..|subs| - 1]), subs[|subs| - 1];
      if KeyIn(before, last.leg.key) then WithStatus(before, last.leg.key, Resolved(last.answer)) else before
  }

  lemma NothingRecorded(db: Db)
    ensures Recorded(db, []) == db && LegsOf([]) == []
  {
  }

  lemma WithStatusAt(db: Db, key: LegKey, status: Status)
    requires KeyIn(db, key)
    ensures KeyIn(WithStatus(db, key, status), key) && LegAt(WithStatus(db, key, status), key).status == status
  {
  }

  lemma OneMoreRecorded(db: Db, subs: seq<Submission>, sub: Submission)
    ensures Recorded(db, subs + [sub])
         == var before := Recorded(db, subs);
            if KeyIn(before, sub.leg.key) then WithStatus(before, sub.leg.key, Resolved(sub.answer)) else before
  {
    assert (subs + [sub])[..|subs + [sub]| - 1] == subs;
  }

  /** Disbursement resolves pending legs and touches nothing else. */
  ghost predicate Disbursed(s: Slice, t: Slice) {
    && t == s.(legs := t.legs) && t.legs.Keys == s.legs.Keys
    && forall slot :: slot in s.legs ==>
         && t.legs[slot].amountKobo == s.legs[slot].amountKobo
         && (!s.legs[slot].status.Pending? ==> t.legs[slot] == s.legs[slot])
  }

  /** ... of these pockets. */
  ghost predicate DisbursedIn(before: Db, after: Db, of: Option<PocketId>) {
    && after.Keys == before.Keys
    && forall id :: id in before ==>
         if of.None? || of.value == id then Disbursed(before[id], after[id]) else after[id] == before[id]
  }

  lemma StatusDisburses(db: Db, key: LegKey, status: Status)
    requires HasStatus(db, key, LegStatus.Pending)
    ensures DisbursedIn(db, WithStatus(db, key, status), Some(key.pocket))
    ensures DisbursedIn(db, WithStatus(db, key, status), None)
  {
  }

  lemma DisbursedTwice(a: Db, b: Db, c: Db, of: Option<PocketId>)
    requires DisbursedIn(a, b, of) && DisbursedIn(b, c, of)
    ensures DisbursedIn(a, c, of)
  {
    forall id | id in a && (of.None? || of.value == id) ensures Disbursed(a[id], c[id]) {
      assert Disbursed(a[id], b[id]) && Disbursed(b[id], c[id]);
    }
  }

  lemma TwoUpdates(db: Db, key: LegKey, u: Update, v: Update)
    requires KeyIn(db, key)
    ensures UpdateLeg(db, key, u) == WithStatus(db, key, Updated(LegAt(db, key).status, u))
    ensures KeyIn(UpdateLeg(db, key, u), key)
    ensures UpdateLeg(UpdateLeg(db, key, u), key, v)
         == WithStatus(db, key, Updated(Updated(LegAt(db, key).status, u), v))
  {
    var s := db[key.pocket];
    var once, twice := LegAt(UpdateLeg(db, key, u), key), LegAt(UpdateLeg(UpdateLeg(db, key, u), key, v), key);
    assert s.legs[key.slot := once][key.slot := twice] == s.legs[key.slot := twice];
  }

  lemma StatusKeepsBooks(db: Db, key: LegKey, status: Status, taken: multiset<LegKey>, taken': multiset<LegKey>)
    requires Books(db, taken) && HasStatus(db, key, LegStatus.Pending)
    requires taken' == taken || taken' == taken + multiset{key}
    requires status.Pending? ==> taken' == taken
    requires status.Confirmed? ==> taken' == taken + multiset{key}
    ensures Books(WithStatus(db, key, status), taken')
  {
    var db' := WithStatus(db, key, status);
    forall k: LegKey
      ensures KeyIn(db', k) <==> KeyIn(db, k)
      ensures k != key && KeyIn(db, k) ==> LegAt(db', k) == LegAt(db, k)
      ensures k != key ==> taken'[k] == taken[k]
    {
    }
    assert LegAt(db', key).status == status && taken[key] == 0;
  }

  lemma StatusKeepsSound(
    pol: Policy, db: Db, key: LegKey, status: Status, taken: multiset<LegKey>, taken': multiset<LegKey>)
    requires Sound(pol, db, taken) && HasStatus(db, key, LegStatus.Pending)
    requires taken' == taken || taken' == taken + multiset{key}
    requires status.Pending? ==> taken' == taken
    requires status.Confirmed? ==> taken' == taken + multiset{key}
    ensures Sound(pol, WithStatus(db, key, status), taken')
  {
    hide Books, PocketsOk, WithStatus;
    StatusKeepsBooks(db, key, status, taken, taken');
    StatusKeepsPockets(pol, db, key, status);
  }

  lemma StatusKeepsPockets(pol: Policy, db: Db, key: LegKey, status: Status)
    requires PocketsOk(pol, db) && KeyIn(db, key)
    ensures PocketsOk(pol, WithStatus(db, key, status))
  {
    hide Inv;
    var s, t := db[key.pocket], WithStatus(db, key, status)[key.pocket];
    assert Amounts(t.legs) == Amounts(s.legs);
    StatusesKeepInv(pol, s, t.legs);
  }

  /** A write through Exec, or a new draft, keeps the layer sound. */
  lemma WriteKeepsSound(pol: Policy, db: Db, id: PocketId, op: Op, taken: multiset<LegKey>)
    requires Sound(pol, db, taken) && id in db && Exec(pol, db[id], op).Ok?
    ensures Sound(pol, db[id := Exec(pol, db[id], op).value], taken)
  {
    hide Exec, Inv, Books;
    ExecGrows(pol, db[id], op);
    ExecKeepsInv(pol, db[id], op);
    GrowthKeepsBooks(db, id, Exec(pol, db[id], op).value, taken);
  }

  lemma CreateKeepsSound(pol: Policy, db: Db, id: PocketId, t: Terms, user: string, now: Time, taken: multiset<LegKey>)
    requires Sound(pol, db, taken) && id !in db && CreateDraft(pol, t, user, now).Ok?
    ensures Sound(pol, db[id := CreateDraft(pol, t, user, now).value], taken)
  {
    hide CreateDraft, Inv, Books;
    CreateHasNoLegs(pol, t, user, now);
    CreateEstablishesInv(pol, t, user, now);
    GrowthKeepsBooks(db, id, CreateDraft(pol, t, user, now).value, taken);
  }

  lemma GrowthKeepsBooks(db: Db, id: PocketId, s: Slice, taken: multiset<LegKey>)
    requires Books(db, taken)
    requires if id in db then Grows(db[id].legs, s.legs) else s.legs == map[]
    ensures Books(db[id := s], taken)
  {
    var db' := db[id := s];
    forall k: LegKey
      ensures KeyIn(db, k) ==> KeyIn(db', k) && LegAt(db', k) == LegAt(db, k)
      ensures KeyIn(db', k) && !KeyIn(db, k) ==> LegAt(db', k).status.Pending?
    {
    }
  }

  lemma DisbursedReflexive(db: Db, of: Option<PocketId>)
    ensures DisbursedIn(db, db, of)
  {
  }

  /** One leg paid or tried: what was disbursed stays so, and a resolved leg never becomes pending again. */
  lemma LegStep(a: Db, b: Db, key: LegKey, c: Db, of: Option<PocketId>)
    requires DisbursedIn(a, b, of) && (of.None? || of.value == key.pocket)
    requires c == b || (&& HasStatus(b, key, LegStatus.Pending) && KeyIn(c, key)
                        && c == WithStatus(b, key, LegAt(c, key).status))
    ensures DisbursedIn(a, c, of)
    ensures forall k: LegKey :: HasStatus(c, k, LegStatus.Pending) ==> HasStatus(b, k, LegStatus.Pending)
  {
    if c != b {
      StatusDisburses(b, key, LegAt(c, key).status);
      hide WithStatus;
      DisbursedTwice(a, b, c, of);
    } else {
      DisbursedReflexive(b, of);
    }
    StaysResolved(b, c, of);
  }

  lemma StaysResolved(a: Db, b: Db, of: Option<PocketId>)
    requires DisbursedIn(a, b, of)
    ensures forall k: LegKey :: KeyIn(b, k) <==> KeyIn(a, k)
    ensures forall k: LegKey :: HasStatus(b, k, LegStatus.Pending) ==> HasStatus(a, k, LegStatus.Pending)
  {
    forall k: LegKey
      ensures KeyIn(b, k) <==> KeyIn(a, k)
      ensures HasStatus(b, k, LegStatus.Pending) ==> HasStatus(a, k, LegStatus.Pending)
    {
      if k.pocket in a { assert Disbursed(a[k.pocket], b[k.pocket]) || b[k.pocket] == a[k.pocket]; }
    }
  }

  // ---------------------------------------------------------------- payLeg among the system's runs

  lemma AfterOneMore(pol: Policy, steps: seq<Step>, step: Step)
    ensures After(pol, steps + [step]) == Next(pol, After(pol, steps), step)
  {
    assert (steps + [step])[..|steps + [step]| - 1] == steps;
  }

  /** A worker's steps through payLeg when nobody interferes. */
  function PaySteps(w: WorkerId, key: LegKey, transfer: nat, answer: Answer, verdict: Verdict): seq<Step> {
    if answer.NotSubmitted? then [Step.Claim(w, key), Reply(w, answer), Settle(w)]
    else [Step.Claim(w, key), Submit(w), VerdictStep(transfer, verdict), Reply(w, answer), Settle(w)]
  }

  function VerdictStep(transfer: nat, verdict: Verdict): Step {
    match verdict
    case Taken => TakeOn(transfer)
    case Executed => Execute(transfer)
    case _ => Refuse(transfer)
  }

  /** What App.PayLeg promises of an undisturbed call is a run of the system, with the same rows and the same
      money moved: the in-place layer refines the interleaved one. */
  lemma {:induction false} PayLegIsARun(
    pol: Policy, steps: seq<Step>, w: WorkerId, key: LegKey, answer: Answer, verdict: Verdict)
    requires WorkerAt(After(pol, steps), w).Idle? && HasStatus(After(pol, steps).db, key, LegStatus.Pending)
    requires verdict.Refused? || verdict.Taken? || verdict.Executed?
    requires (answer.Accepted? ==> !verdict.Refused?) && (answer.Rejected? || answer.NotSubmitted? ==> verdict.Refused?)
    ensures var s := After(pol, steps); var t := After(pol, steps + PaySteps(w, key, |s.ledger|, answer, verdict));
            && t.db == WithStatus(s.db, key, Resolved(answer))
            && WorkerAt(t, w).Idle?
            && Standing(t.ledger, key) == Standing(s.ledger, key) + (if verdict.Refused? then 0 else 1)
            && Executions(t.ledger, key) == Executions(s.ledger, key) + (if verdict.Executed? then 1 else 0)
            && (answer.NotSubmitted? ==> t.ledger == s.ledger)
  {
    hide After, WithStatus, Executions, Standing, Next, UpdateLeg;
    var s, n := After(pol, steps), |After(pol, steps).ledger|;
    TwoUpdates(s.db, key, ClaimLeg, if UpdateFor(answer).Some? then UpdateFor(answer).value else ClaimLeg);
    var claimed, replied := steps + [Step.Claim(w, key)], Reply(w, answer);
    AfterOneMore(pol, steps, Step.Claim(w, key));
    ClaimStep(pol, s, w, key);
    if answer.NotSubmitted? {
      AfterOneMore(pol, claimed, replied);
      AfterOneMore(pol, claimed + [replied], Settle(w));
      ReplyAndSettle(pol, After(pol, claimed), w, key, answer);
      assert claimed + [replied] + [Settle(w)] == steps + PaySteps(w, key, n, answer, verdict);
    } else {
      AfterOneMore(pol, claimed, Submit(w));
      AfterOneMore(pol, claimed + [Submit(w)], VerdictStep(n, verdict));
      SubmitAndVerdict(pol, After(pol, claimed), w, key, verdict);
      var judged := claimed + [Submit(w)] + [VerdictStep(n, verdict)];
      AfterOneMore(pol, judged, replied);
      AfterOneMore(pol, judged + [replied], Settle(w));
      ReplyAndSettle(pol, After(pol, judged), w, key, answer);
      assert judged + [replied] + [Settle(w)] == steps + PaySteps(w, key, n, answer, verdict);
    }
  }

  lemma ClaimStep(pol: Policy, s: Sys, w: WorkerId, key: LegKey)
    requires WorkerAt(s, w).Idle? && HasStatus(s.db, key, LegStatus.Pending)
    ensures Next(pol, s, Step.Claim(w, key))
         == s.(db := UpdateLeg(s.db, key, ClaimLeg), workers := s.workers[w := Claimed(key)])
  {
  }

  lemma SubmitAndVerdict(pol: Policy, s: Sys, w: WorkerId, key: LegKey, verdict: Verdict)
    requires WorkerAt(s, w) == Claimed(key) && KeyIn(s.db, key)
    requires verdict.Refused? || verdict.Taken? || verdict.Executed?
    ensures var n := |s.ledger|;
            var t := Next(pol, Next(pol, s, Submit(w)), VerdictStep(n, verdict));
            && t.db == s.db && WorkerAt(t, w) == Waiting(key, n)
            && |t.ledger| == n + 1 && t.ledger[n].verdict == verdict
            && Standing(t.ledger, key) == Standing(s.ledger, key) + (if verdict.Refused? then 0 else 1)
            && Executions(t.ledger, key) == Executions(s.ledger, key) + (if verdict.Executed? then 1 else 0)
  {
    hide Executions, Standing, LegAt;
    OneMoreTransfer(s.ledger, key, LegAt(s.db, key).amountKobo, verdict);
  }

  /** The worker learns the answer and records it. */
  lemma ReplyAndSettle(pol: Policy, s: Sys, w: WorkerId, key: LegKey, answer: Answer)
    requires KeyIn(s.db, key)
    requires if answer.NotSubmitted? then WorkerAt(s, w) == Claimed(key)
             else
               var at := WorkerAt(s, w);
               && at.Waiting? && at.key == key && at.transfer < |s.ledger|
               && (answer.Accepted? ==> s.ledger[at.transfer].verdict.TakenOn())
               && (answer.Rejected? ==> s.ledger[at.transfer].verdict.Refused?)
    ensures var t := Next(pol, Next(pol, s, Reply(w, answer)), Settle(w));
            && t.db == (if UpdateFor(answer).Some? then UpdateLeg(s.db, key, UpdateFor(answer).value) else s.db)
            && t.ledger == s.ledger && WorkerAt(t, w).Idle?
  {
    hide UpdateLeg;
  }

  lemma OneMoreTransfer(ledger: seq<Transfer>, key: LegKey, amountKobo: int, verdict: Verdict)
    ensures var sent := ledger + [Transfer(key, amountKobo, OnWire)];
            var judged := sent[|ledger| := sent[|ledger|].(verdict := verdict)];
            && Executions(judged, key) == Executions(ledger, key) + (if verdict.Executed? then 1 else 0)
            && Standing(judged, key) == Standing(ledger, key) + (if verdict.Refused? then 0 else 1)
  {
    var sent := ledger + [Transfer(key, amountKobo, OnWire)];
    assert sent[|ledger| := sent[|ledger|].(verdict := verdict)][..|sent| - 1] == ledger;
  }

  // ---------------------------------------------------------------- draining a clock rule

  function InState(db: Db, state: State): set<PocketId> {
    set id | id in db && db[id].row.state == state
  }

  function CountIn(db: Db, state: State): nat { |InState(db, state)| }

  ghost predicate NoneDue(db: Db, rule: Rule, now: Time) {
    forall id :: id in db ==> !Due(rule, db[id].row, now)
  }

  lemma NoneDueFrom(db: Db, rule: Rule, now: Time)
    requires forall id :: id in db ==> !Due(rule, db[id].row, now)
    ensures NoneDue(db, rule, now)
  {
  }

  /** One pocket was due at an instant, took the rule's transition and had legs of its own disbursed. */
  ghost predicate SweptAt(pol: Policy, rule: Rule, now: Time, s: Slice, t: Slice) {
    Due(rule, s.row, now) && SweepTx(pol, s, rule, now).Ok? && Disbursed(SweepTx(pol, s, rule, now).value, t)
  }

  /** A drain over some readings of the clock: each pocket is as it was, or was swept at one of them. */
  ghost predicate Drained(pol: Policy, rule: Rule, instants: seq<Time>, before: Db, after: Db) {
    && after.Keys == before.Keys
    && forall id :: id in before ==>
         || after[id] == before[id]
         || exists i :: 0 <= i < |instants| && SweptAt(pol, rule, instants[i], before[id], after[id])
  }

  lemma DrainedReflexive(pol: Policy, rule: Rule, db: Db)
    ensures Drained(pol, rule, [], db, db)
  {
  }

  lemma SweepIsExec(pol: Policy, s: Slice, rule: Rule, now: Time)
    ensures Exec(pol, s, SweepOp(rule, now)) == SweepTx(pol, s, rule, now)
  {
  }

  /** The swept pocket after its disbursement, and every other one untouched. */
  lemma SweptThenDisbursed(pol: Policy, rows: Db, id: PocketId, rule: Rule, now: Time, after: Db)
    requires id in rows && Due(rule, rows[id].row, now) && SweepTx(pol, rows[id], rule, now).Ok?
    requires DisbursedIn(rows[id := SweepTx(pol, rows[id], rule, now).value], after, Some(id))
    ensures after.Keys == rows.Keys && Disbursed(SweepTx(pol, rows[id], rule, now).value, after[id])
    ensures SourceState(rule) == rows[id].row.state && after[id].row.state == TargetState(rule) != SourceState(rule)
    ensures forall other :: other in rows && other != id ==> after[other] == rows[other]
  {
    hide SweepTx;
    DuePocketAdvances(pol, rows[id], rule, now);
    assert id in rows[id := SweepTx(pol, rows[id], rule, now).value];
  }

  /** Where a rule takes its pockets. */
  function TargetState(rule: Rule): State {
    match rule
    case ExpireFunding => Expired
    case FreezeDelivery => Frozen
    case RefundGrace => Refunded
    case SettleWindow => Settled
  }

  /** n pockets went from one state to another, and none anywhere else. */
  ghost predicate Flow(before: Db, after: Db, from: State, to: State, n: int) {
    forall state :: CountIn(after, state)
      == CountIn(before, state) + (if state == to then n else 0) - (if state == from then n else 0)
  }

  lemma FlowNothing(db: Db, from: State, to: State)
    ensures Flow(db, db, from, to, 0)
  {
  }

  lemma FlowOn(a: Db, b: Db, c: Db, from: State, to: State, m: int, n: int)
    requires Flow(a, b, from, to, m) && Flow(b, c, from, to, n)
    ensures Flow(a, c, from, to, m + n)
  {
    hide CountIn;
  }

  lemma OneMoves(before: Db, after: Db, id: PocketId, state: State)
    requires id in before && after.Keys == before.Keys
    requires forall other :: other in before && other != id ==> after[other].row.state == before[other].row.state
    ensures InState(after, state) - {id} == InState(before, state) - {id}
  {
  }

  lemma CountWithout(db: Db, id: PocketId, state: State)
    requires id in db
    ensures CountIn(db, state) == |InState(db, state) - {id}| + if db[id].row.state == state then 1 else 0
  {
    if db[id].row.state == state {
      assert InState(db, state) == (InState(db, state) - {id}) + {id};
    } else {
      assert InState(db, state) - {id} == InState(db, state);
    }
  }

  lemma NothingFlows(db: Db, from: State, to: State, n: int)
    requires Flow(db, db, from, to, n) && from != to
    ensures n == 0
  {
    hide CountIn;
    var count := CountIn(db, to);
  }

  lemma FlowLowers(before: Db, after: Db, from: State, to: State)
    requires Flow(before, after, from, to, 1) && from != to
    ensures CountIn(after, from) < CountIn(before, from)
  {
    hide CountIn;
  }

  /** One pocket's move, counted. */
  lemma OneFlows(before: Db, after: Db, id: PocketId, from: State, to: State)
    requires id in before && after.Keys == before.Keys && from != to
    requires before[id].row.state == from && after[id].row.state == to
    requires forall other :: other in before && other != id ==> after[other].row.state == before[other].row.state
    ensures Flow(before, after, from, to, 1)
  {
    hide CountIn, InState;
    forall state
      ensures CountIn(after, state)
           == CountIn(before, state) + (if state == to then 1 else 0) - (if state == from then 1 else 0)
    {
      OneMoves(before, after, id, state);
      CountWithout(before, id, state);
      CountWithout(after, id, state);
    }
  }

  /** Each claimed pocket is one fewer in the rule's source state and one more in its target. */
  lemma CountsFlow(pol: Policy, rows: Db, id: PocketId, rule: Rule, now: Time, after: Db)
    requires id in rows && Due(rule, rows[id].row, now) && SweepTx(pol, rows[id], rule, now).Ok?
    requires DisbursedIn(rows[id := SweepTx(pol, rows[id], rule, now).value], after, Some(id))
    ensures Flow(rows, after, SourceState(rule), TargetState(rule), 1)
  {
    hide SweepTx, Due, DisbursedIn;
    SweptThenDisbursed(pol, rows, id, rule, now, after);
    OneFlows(rows, after, id, SourceState(rule), TargetState(rule));
  }

  lemma DisbursementKeepsCounts(before: Db, after: Db, of: Option<PocketId>)
    requires DisbursedIn(before, after, of)
    ensures forall state :: CountIn(after, state) == CountIn(before, state)
  {
    forall state ensures CountIn(after, state) == CountIn(before, state) {
      forall id | id in before ensures after[id].row == before[id].row {
        assert Disbursed(before[id], after[id]) || after[id] == before[id];
      }
      assert InState(after, state) == InState(before, state);
    }
  }

  lemma DrainedStep(
    pol: Policy, rule: Rule, instants: seq<Time>, now: Time, before: Db, rows: Db, id: PocketId, after: Db)
    requires Drained(pol, rule, instants, before, rows)
    requires id in rows && Due(rule, rows[id].row, now) && SweepTx(pol, rows[id], rule, now).Ok?
    requires DisbursedIn(rows[id := SweepTx(pol, rows[id], rule, now).value], after, Some(id))
    ensures Drained(pol, rule, instants + [now], before, after)
  {
    hide SweepTx, DisbursedIn, Due;
    SweptThenDisbursed(pol, rows, id, rule, now, after);
    if rows[id] != before[id] {
      var i :| 0 <= i < |instants| && SweptAt(pol, rule, instants[i], before[id], rows[id]);
      DuePocketAdvances(pol, before[id], rule, instants[i]);
    }
    var all := instants + [now];
    assert all[|instants|] == now && SweptAt(pol, rule, now, before[id], after[id]);
    forall other | other in before && other != id && rows[other] != before[other]
      ensures exists i :: 0 <= i < |all| && SweptAt(pol, rule, all[i], before[other], after[other])
    {
      var i :| 0 <= i < |instants| && SweptAt(pol, rule, instants[i], before[other], rows[other]);
      assert all[i] == instants[i];
    }
  }

  lemma DrainedOneMore(pol: Policy, rule: Rule, instants: seq<Time>, now: Time, before: Db, after: Db)
    requires Drained(pol, rule, instants, before, after)
    ensures Drained(pol, rule, instants + [now], before, after)
  {
    hide SweptAt;
    var all := instants + [now];
    forall id | id in before && after[id] != before[id]
      ensures exists i :: 0 <= i < |all| && SweptAt(pol, rule, all[i], before[id], after[id])
    {
      var i :| 0 <= i < |instants| && SweptAt(pol, rule, instants[i], before[id], after[id]);
      assert all[i] == instants[i];
    }
  }

  /** Draining one rule, at whatever instants, makes none of the others due, but that freezing may arm the
      grace rule. */
  lemma DrainKeepsNoneDue(
    pol: Policy, rule: Rule, instants: seq<Time>, other: Rule, now: Time, before: Db, after: Db)
    requires Drained(pol, rule, instants, before, after) && NoneDue(before, other, now)
    requires other != rule && !(rule.FreezeDelivery? && other.RefundGrace?)
    ensures NoneDue(after, other, now)
  {
    hide SweepTx;
    forall id | id in after ensures !Due(other, after[id].row, now) {
      if after[id] != before[id] {
        var i :| 0 <= i < |instants| && SweptAt(pol, rule, instants[i], before[id], after[id]);
        DuePocketAdvances(pol, before[id], rule, instants[i]);
      }
    }
  }

  lemma NothingToDrain(pol: Policy, rule: Rule, instants: seq<Time>, now: Time, before: Db, after: Db)
    requires Drained(pol, rule, instants, before, after) && NoneDue(before, rule, now)
    requires forall i :: 0 <= i < |instants| ==> instants[i] == now
    ensures after == before
  {
  }

  lemma DisbursementKeepsNoneDue(before: Db, after: Db, rule: Rule, now: Time)
    requires DisbursedIn(before, after, None) && NoneDue(before, rule, now)
    ensures NoneDue(after, rule, now)
  {
    forall id | id in after ensures !Due(rule, after[id].row, now) {
      assert Disbursed(before[id], after[id]);
    }
  }

  /** Nothing left for a tick to do at this instant. */
  ghost predicate Quiet(db: Db, now: Time) {
    && (forall rule :: NoneDue(db, rule, now))
    && KeysWithStatus(db, None, LegStatus.Pending) == {}
  }

  /** The four rules in order, then a disbursement: nothing is due afterwards, and if nothing was due before
      the rules changed nothing. */
  lemma FourDrains(
    pol: Policy, now: Time, r1: seq<Time>, r2: seq<Time>, r3: seq<Time>, r4: seq<Time>,
    a: Db, b: Db, c: Db, d: Db, e: Db, f: Db)
    requires Pinned(Some(now), r1) && Pinned(Some(now), r2) && Pinned(Some(now), r3) && Pinned(Some(now), r4)
    requires Drained(pol, ExpireFunding, r1, a, b) && NoneDue(b, ExpireFunding, now)
    requires Drained(pol, FreezeDelivery, r2, b, c) && NoneDue(c, FreezeDelivery, now)
    requires Drained(pol, RefundGrace, r3, c, d) && NoneDue(d, RefundGrace, now)
    requires Drained(pol, SettleWindow, r4, d, e) && NoneDue(e, SettleWindow, now)
    requires DisbursedIn(e, f, None)
    ensures forall rule :: NoneDue(f, rule, now)
    ensures (forall rule :: NoneDue(a, rule, now)) ==> a == b == c == d == e
  {
    hide Drained, NoneDue, DisbursedIn;
    DrainKeepsNoneDue(pol, FreezeDelivery, r2, ExpireFunding, now, b, c);
    DrainKeepsNoneDue(pol, RefundGrace, r3, ExpireFunding, now, c, d);
    DrainKeepsNoneDue(pol, RefundGrace, r3, FreezeDelivery, now, c, d);
    DrainKeepsNoneDue(pol, SettleWindow, r4, ExpireFunding, now, d, e);
    DrainKeepsNoneDue(pol, SettleWindow, r4, FreezeDelivery, now, d, e);
    DrainKeepsNoneDue(pol, SettleWindow, r4, RefundGrace, now, d, e);
    forall rule ensures NoneDue(f, rule, now) {
      assert rule == ExpireFunding || rule == FreezeDelivery || rule == RefundGrace || rule == SettleWindow;
      DisbursementKeepsNoneDue(e, f, rule, now);
    }
    if forall rule :: NoneDue(a, rule, now) {
      NothingToDrain(pol, ExpireFunding, r1, now, a, b);
      NothingToDrain(pol, FreezeDelivery, r2, now, b, c);
      NothingToDrain(pol, RefundGrace, r3, now, c, d);
      NothingToDrain(pol, SettleWindow, r4, now, d, e);
    }
  }

  datatype Report = Report(
    fundingVerified: nat, expired: nat, frozen: nat, graceRefunded: nat, settled: nat,
    legsResolved: nat, legsReconciled: nat)

  /** Where a report says pockets arrived, and where they left. */
  function ArrivedIn(r: Report, state: State): nat {
    match state
    case Funded => r.fundingVerified
    case Expired => r.expired
    case Frozen => r.frozen
    case Refunded => r.graceRefunded
    case Settled => r.settled
    case _ => 0
  }

  function LeftFrom(r: Report, state: State): nat {
    match state
    case Created => r.fundingVerified + r.expired
    case Funded => r.frozen
    case Frozen => r.graceRefunded
    case DeliveredPending => r.settled
    case _ => 0
  }

  /** A report accounts for every pocket that changed state. */
  ghost predicate Balances(r: Report, before: Db, after: Db) {
    forall state :: CountIn(after, state) == CountIn(before, state) + ArrivedIn(r, state) - LeftFrom(r, state)
  }

  lemma FlowsBalance(report: Report, o: Db, a: Db, b: Db, c: Db, d: Db, e: Db, f: Db)
    requires Flow(o, a, Created, Funded, report.fundingVerified) && Flow(a, b, Created, Expired, report.expired)
    requires Flow(b, c, Funded, Frozen, report.frozen) && Flow(c, d, Frozen, Refunded, report.graceRefunded)
    requires Flow(d, e, DeliveredPending, Settled, report.settled) && DisbursedIn(e, f, None)
    ensures Balances(report, o, f)
  {
    hide CountIn, DisbursedIn, Flow, ArrivedIn, LeftFrom;
    DisbursementKeepsCounts(e, f, None);
    forall state
      ensures CountIn(f, state) == CountIn(o, state) + ArrivedIn(report, state) - LeftFrom(report, state)
    {
      FlowAt(o, a, Created, Funded, report.fundingVerified, state);
      FlowAt(a, b, Created, Expired, report.expired, state);
      FlowAt(b, c, Funded, Frozen, report.frozen, state);
      FlowAt(c, d, Frozen, Refunded, report.graceRefunded, state);
      FlowAt(d, e, DeliveredPending, Settled, report.settled, state);
      AddedUp(report, state);
    }
  }

  /** What a flow changes a state's count by. */
  function Change(from: State, to: State, n: int, state: State): int {
    (if state == to then n else 0) - (if state == from then n else 0)
  }

  lemma FlowAt(before: Db, after: Db, from: State, to: State, n: int, state: State)
    requires Flow(before, after, from, to, n)
    ensures CountIn(after, state) == CountIn(before, state) + Change(from, to, n, state)
  {
    hide CountIn;
  }

  lemma AddedUp(r: Report, state: State)
    ensures ArrivedIn(r, state) - LeftFrom(r, state)
         == Change(Created, Funded, r.fundingVerified, state) + Change(Created, Expired, r.expired, state)
            + Change(Funded, Frozen, r.frozen, state) + Change(Frozen, Refunded, r.graceRefunded, state)
            + Change(DeliveredPending, Settled, r.settled, state)
  {
  }

  /** With every call succeeding, sweeping a pocket leaves the same legs waiting as before. */
  lemma SweepKeepsWaiting(pol: Policy, rows: Db, id: PocketId, t: Slice, after: Db)
    requires PocketsOk(pol, rows) && id in rows && !rows[id].row.state.Settled? && !rows[id].row.state.Refunded?
    requires DisbursedIn(rows[id := t], after, Some(id)) && KeysWithStatus(after, Some(id), LegStatus.Pending) == {}
    ensures KeysWithStatus(after, None, LegStatus.Pending) == KeysWithStatus(rows, None, LegStatus.Pending)
  {
    OpenPocketHasNoLegs(pol, rows[id]);
    OthersUntouched(rows, id, t, after);
    hide Inv, PocketsOk, DisbursedIn;
    forall key: LegKey ensures HasStatus(after, key, LegStatus.Pending) <==> HasStatus(rows, key, LegStatus.Pending) {
      if key.pocket == id { assert key !in KeysWithStatus(after, Some(id), LegStatus.Pending); }
    }
    SameKeys(after, rows, LegStatus.Pending);
  }

  lemma OthersUntouched(rows: Db, id: PocketId, t: Slice, after: Db)
    requires id in rows && DisbursedIn(rows[id := t], after, Some(id))
    ensures after.Keys == rows.Keys && forall other :: other in rows && other != id ==> after[other] == rows[other]
  {
    hide Disbursed;
    forall other | other in rows && other != id ensures after[other] == rows[other] {
      assert rows[id := t][other] == rows[other];
    }
  }

  lemma SameKeys(a: Db, b: Db, status: Status)
    requires forall key: LegKey :: HasStatus(a, key, status) <==> HasStatus(b, key, status)
    ensures KeysWithStatus(a, None, status) == KeysWithStatus(b, None, status)
  {
    hide HasStatus;
  }

  /** ... and a pocket no outcome moved money for has none waiting. */
  lemma SweptLeavesNone(
    pol: Policy, rows: Db, taken: multiset<LegKey>, id: PocketId, rule: Rule, now: Time, after: Db)
    requires Sound(pol, rows, taken) && id in rows && Due(rule, rows[id].row, now)
    requires SweepTx(pol, rows[id], rule, now).Ok?
    requires DisbursedIn(rows[id := SweepTx(pol, rows[id], rule, now).value], after, Some(id))
    requires KeysWithStatus(after, Some(id), LegStatus.Pending) == {}
    ensures KeysWithStatus(after, None, LegStatus.Pending) == KeysWithStatus(rows, None, LegStatus.Pending)
  {
    hide Books, Inv, SweepTx, DisbursedIn, KeysWithStatus;
    SweepKeepsWaiting(pol, rows, id, SweepTx(pol, rows[id], rule, now).value, after);
  }

  // ---------------------------------------------------------------- asking the provider about payments

  function StoredRef(links: map<PocketId, string>, id: PocketId): string {
    if id in links then links[id] else ""
  }

  /** A credit: nothing for a stated underpayment; otherwise, at one reading of the clock, a CREATED pocket moves,
      and any other is reported as it stands. */
  ghost predicate CreditEnds(
    pol: Policy, db: Db, id: PocketId, expected: int, paid: int, r: seq<Time>, res: Result<bool>, after: Db)
  {
    if !Covers(paid, expected) then r == [] && res == Ok(false) && after == db
    else
      && |r| == 1
      && if id !in db then res == Err(NotFound) && after == db
         else if db[id].row.state.Created? then
           res == Ok(true) && after == db[id := AfterMove(pol, db[id], CreditFundingOp(paid, r[0]))]
         else res == Ok(FundingApplied(db[id].row.state)) && after == db
  }

  /** A verification of one pocket: what was asked, when it was credited, what was reported, and the rows. */
  ghost predicate Verified(
    pol: Policy, db: Db, links: map<PocketId, string>, id: PocketId, q: seq<Query>, r: seq<Time>,
    funded: Result<bool>, after: Db)
  {
    && id in db
    && var s := db[id];
       if !s.row.state.Created? then
         q == [] && r == [] && funded == Ok(FundingApplied(s.row.state)) && after == db
       else
         && Consults(References(StoredRef(links, id), id), q)
         && funded == Ok(PaidFor(q, s.row.buyerTotalKobo))
         && if PaidFor(q, s.row.buyerTotalKobo) then
              && |r| == 1
              && after == db[id := AfterMove(pol, s, CreditFundingOp(q[|q| - 1].answer.amountKobo, r[0]))]
            else r == [] && after == db
  }

  /** The list the verification walks, less an empty stored reference, is what there is to ask about. */
  lemma RefsToAsk(link: string, id: PocketId)
    ensures var refs := [link] + if FundingRef(id) != link then [FundingRef(id)] else [];
            && References(link, id) == refs[(if link == "" then 1 else 0)..]
            && FundingRef(id) != ""
  {
    var refs := [link] + if FundingRef(id) != link then [FundingRef(id)] else [];
    assert refs[1..] == if FundingRef(id) != link then [FundingRef(id)] else [];
  }

  /** The first references, none answered as paid. */
  predicate Unpaid(refs: seq<string>, q: seq<Query>) {
    |q| <= |refs| && forall j :: 0 <= j < |q| ==> q[j].ref == refs[j] && !q[j].answer.PaidOrder?
  }

  lemma NotYetAsked(refs: seq<string>)
    ensures Unpaid(refs, [])
  {
  }

  lemma AskedOnce(refs: seq<string>, q: seq<Query>, answer: FundingAnswer)
    requires Unpaid(refs, q) && |q| < |refs|
    ensures var more := q + [Query(refs[|q|], answer)];
            if answer.PaidOrder? then
              Consults(refs, more) && forall total :: PaidFor(more, total) <==> Covers(answer.amountKobo, total)
            else Unpaid(refs, more)
  {
  }

  lemma AskedAll(refs: seq<string>, q: seq<Query>)
    requires Unpaid(refs, q) && |q| == |refs|
    ensures Consults(refs, q) && forall total: int :: !PaidFor(q, total)
  {
  }

  lemma FoundStanding(pol: Policy, db: Db, links: map<PocketId, string>, id: PocketId)
    requires id in db
    ensures if db[id].row.state.Created? then !FundingApplied(db[id].row.state)
            else Verified(pol, db, links, id, [], [], Ok(FundingApplied(db[id].row.state)), db)
  {
  }

  lemma FoundUnpaid(pol: Policy, db: Db, links: map<PocketId, string>, id: PocketId, q: seq<Query>)
    requires id in db && db[id].row.state.Created?
    requires var refs := References(StoredRef(links, id), id); Unpaid(refs, q) && |q| == |refs|
    ensures Verified(pol, db, links, id, q, [], Ok(false), db)
  {
    hide References;
    AskedAll(References(StoredRef(links, id), id), q);
  }

  lemma FoundPaid(
    pol: Policy, db: Db, links: map<PocketId, string>, id: PocketId, q: seq<Query>, paid: int, r: seq<Time>,
    funded: Result<bool>, after: Db)
    requires id in db && db[id].row.state.Created?
    requires CreditEnds(pol, db, id, db[id].row.buyerTotalKobo, paid, r, funded, after)
    requires var refs := References(StoredRef(links, id), id); Unpaid(refs, q) && |q| < |refs|
    ensures var asked := q + [Query(References(StoredRef(links, id), id)[|q|], PaidOrder(paid))];
            Verified(pol, db, links, id, asked, r, funded, after)
  {
    hide References, AfterMove, Consults, PaidFor, Covers, Unpaid;
    AskedOnce(References(StoredRef(links, id), id), q, PaidOrder(paid));
  }

  /** One pocket of a verification sweep, and the queries made about it. */
  datatype Review = Review(pocket: PocketId, asked: seq<Query>)

  function PocketsOf(reviews: seq<Review>): (ids: seq<PocketId>)
    ensures |ids| == |reviews| && forall i :: 0 <= i < |reviews| ==> ids[i] == reviews[i].pocket
  {
    seq(|reviews|, i requires 0 <= i < |reviews| => reviews[i].pocket)
  }

  function QueriesOf(reviews: seq<Review>): seq<Query> {
    if reviews == [] then []
    else QueriesOf(reviews[..|reviews| - 1]) + reviews[|reviews| - 1].asked
  }

  ghost predicate CreditedAt(pol: Policy, s: Slice, paid: int, instants: seq<Time>, t: Slice) {
    exists i :: 0 <= i < |instants| && t == AfterMove(pol, s, CreditFundingOp(paid, instants[i]))
  }

  /** What a review makes of its pocket. */
  ghost predicate ReviewDone(
    pol: Policy, s: Slice, links: map<PocketId, string>, review: Review, instants: seq<Time>, t: Slice)
  {
    && Consults(References(StoredRef(links, review.pocket), review.pocket), review.asked)
    && if PaidFor(review.asked, s.row.buyerTotalKobo)
       then CreditedAt(pol, s, review.asked[|review.asked| - 1].answer.amountKobo, instants, t)
       else t == s
  }

  /** A sweep of reviews: the pockets the provider answers as paid for are credited at one of its readings, and
      every other pocket is untouched. */
  ghost predicate ReviewsDone(
    pol: Policy, before: Db, links: map<PocketId, string>, reviews: seq<Review>, instants: seq<Time>, after: Db)
  {
    && after.Keys == before.Keys
    && (forall i :: 0 <= i < |reviews| ==>
          var id := reviews[i].pocket;
          id in before && ReviewDone(pol, before[id], links, reviews[i], instants, after[id]))
    && forall id :: id in before && id !in PocketsOf(reviews) ==> after[id] == before[id]
  }

  lemma NoReviews(pol: Policy, db: Db, links: map<PocketId, string>, instants: seq<Time>)
    ensures ReviewsDone(pol, db, links, [], instants, db) && PocketsOf([]) == [] && QueriesOf([]) == []
  {
  }

  lemma OneMoreReview(
    pol: Policy, before: Db, links: map<PocketId, string>, reviews: seq<Review>, instants: seq<Time>, rows: Db,
    id: PocketId, q: seq<Query>, r: seq<Time>, funded: Result<bool>, after: Db)
    requires ReviewsDone(pol, before, links, reviews, instants, rows)
    requires id in before && id !in PocketsOf(reviews) && before[id].row.state.Created?
    requires Verified(pol, rows, links, id, q, r, funded, after)
    ensures ReviewsDone(pol, before, links, reviews + [Review(id, q)], instants + r, after)
    ensures QueriesOf(reviews + [Review(id, q)]) == QueriesOf(reviews) + q
    ensures PocketsOf(reviews + [Review(id, q)]) == PocketsOf(reviews) + [id]
  {
    hide AfterMove, Consults, PaidFor;
    var more, all := reviews + [Review(id, q)], instants + r;
    assert more[..|more| - 1] == reviews;
    assert rows[id] == before[id];
    forall i | 0 <= i < |reviews|
      ensures ReviewDone(pol, before[reviews[i].pocket], links, reviews[i], all, after[reviews[i].pocket])
    {
      var at := reviews[i].pocket;
      assert at in PocketsOf(reviews) by { assert PocketsOf(reviews)[i] == at; }
      assert after[at] == rows[at];
      LaterReadings(pol, before[at], links, reviews[i], instants, r, rows[at]);
    }
    if r != [] { assert all[|instants|] == r[0]; }
    assert ReviewDone(pol, before[id], links, Review(id, q), all, after[id]);
    assert PocketsOf(more) == PocketsOf(reviews) + [id];
  }

  lemma LaterReadings(
    pol: Policy, s: Slice, links: map<PocketId, string>, review: Review, instants: seq<Time>, r: seq<Time>, t: Slice)
    requires ReviewDone(pol, s, links, review, instants, t)
    ensures ReviewDone(pol, s, links, review, instants + r, t)
  {
    hide AfterMove, Consults;
    if PaidFor(review.asked, s.row.buyerTotalKobo) {
      var paid := review.asked[|review.asked| - 1].answer.amountKobo;
      var i :| 0 <= i < |instants| && t == AfterMove(pol, s, CreditFundingOp(paid, instants[i]));
      assert (instants + r)[i] == instants[i];
    }
  }

  lemma ReviewsStayDone(
    pol: Policy, before: Db, links: map<PocketId, string>, reviews: seq<Review>, instants: seq<Time>, r: seq<Time>,
    after: Db)
    requires ReviewsDone(pol, before, links, reviews, instants, after)
    ensures ReviewsDone(pol, before, links, reviews, instants + r, after)
  {
    hide ReviewDone;
    forall i | 0 <= i < |reviews| {
      LaterReadings(pol, before[reviews[i].pocket], links, reviews[i], instants, r, after[reviews[i].pocket]);
    }
  }

  /** Funding that was applied stays applied. */
  ghost predicate StaysApplied(before: Db, after: Db) {
    && after.Keys == before.Keys
    && forall id :: id in before && FundingApplied(before[id].row.state) ==> FundingApplied(after[id].row.state)
  }

  lemma DrainStaysApplied(pol: Policy, rule: Rule, instants: seq<Time>, before: Db, after: Db)
    requires Drained(pol, rule, instants, before, after)
    ensures StaysApplied(before, after)
  {
    hide SweepTx;
    forall id | id in before && after[id] != before[id] && FundingApplied(before[id].row.state)
      ensures FundingApplied(after[id].row.state)
    {
      var i :| 0 <= i < |instants| && SweptAt(pol, rule, instants[i], before[id], after[id]);
      DuePocketAdvances(pol, before[id], rule, instants[i]);
    }
  }

  lemma FourDrainsStayApplied(
    pol: Policy, r1: seq<Time>, r2: seq<Time>, r3: seq<Time>, r4: seq<Time>, a: Db, b: Db, c: Db, d: Db, e: Db, f: Db)
    requires Drained(pol, ExpireFunding, r1, a, b) && Drained(pol, FreezeDelivery, r2, b, c)
    requires Drained(pol, RefundGrace, r3, c, d) && Drained(pol, SettleWindow, r4, d, e) && DisbursedIn(e, f, None)
    ensures StaysApplied(a, f)
  {
    hide Drained, FundingApplied;
    DrainStaysApplied(pol, ExpireFunding, r1, a, b);
    DrainStaysApplied(pol, FreezeDelivery, r2, b, c);
    DrainStaysApplied(pol, RefundGrace, r3, c, d);
    DrainStaysApplied(pol, SettleWindow, r4, d, e);
    forall id | id in e ensures f[id].row == e[id].row {
      assert Disbursed(e[id], f[id]);
    }
  }

  /** A pocket whose turn has not come is still waiting. */
  lemma StillWaiting(
    pol: Policy, before: Db, links: map<PocketId, string>, now: Time, ids: seq<PocketId>, reviews: seq<Review>,
    instants: seq<Time>, rows: Db)
    requires AwaitingList(ids, before, links, now)
    requires |reviews| < |ids| && PocketsOf(reviews) == ids[..|reviews|]
    requires ReviewsDone(pol, before, links, reviews, instants, rows)
    ensures var id := ids[|reviews|];
            && id in before && id in rows && id !in PocketsOf(reviews)
            && before[id].row.state.Created? && rows[id] == before[id]
  {
    hide ReviewDone;
    assert ids[|reviews|] in Awaiting(before, links, now);
  }

  lemma VerificationFlows(
    pol: Policy, rows: Db, taken: multiset<LegKey>, links: map<PocketId, string>, id: PocketId,
    q: seq<Query>, r: seq<Time>, funded: Result<bool>, after: Db)
    requires Sound(pol, rows, taken) && Verified(pol, rows, links, id, q, r, funded, after)
    requires rows[id].row.state.Created?
    ensures Flow(rows, after, Created, Funded, if funded == Ok(true) then 1 else 0)
    ensures funded != Ok(true) ==> after == rows
    ensures KeysWithStatus(after, None, LegStatus.Pending) == KeysWithStatus(rows, None, LegStatus.Pending)
  {
    hide Inv, Books, AfterMove, Flow, Consults, KeysWithStatus;
    if PaidFor(q, rows[id].row.buyerTotalKobo) {
      var paid := q[|q| - 1].answer.amountKobo;
      CreditedIsFunded(pol, rows[id], paid, r[0]);
      OneFlows(rows, after, id, Created, Funded);
      NoneWaiting(pol, rows, id);
      SameWaiting(rows, id, after);
    } else {
      FlowNothing(rows, Created, Funded);
    }
  }

  lemma SameWaiting(rows: Db, id: PocketId, after: Db)
    requires id in rows && KeysWithStatus(rows, Some(id), LegStatus.Pending) == {}
    requires id in after && after == rows[id := after[id]] && after[id].legs == map[]
    ensures KeysWithStatus(after, None, LegStatus.Pending) == KeysWithStatus(rows, None, LegStatus.Pending)
  {
    forall key: LegKey ensures HasStatus(after, key, LegStatus.Pending) <==> HasStatus(rows, key, LegStatus.Pending) {
      if key.pocket == id {
        assert key !in KeysWithStatus(rows, Some(id), LegStatus.Pending);
      }
    }
  }

  // ---------------------------------------------------------------- notifications

  /** A verified provider notification: an order reference as the provider echoes it, or the leg a payout
      reference names. */
  datatype Notice =
    | FundingSucceeded(orderRef: string, paid: int)
    | FundingFailed
    | PayoutSucceeded(leg: Option<LegKey>)
    | PayoutFailed(leg: Option<LegKey>)
    | Unrecognised

  /** A payout reported as successful is one the provider took on, if it names a leg of ours. */
  ghost predicate Truthful(notice: Notice, db: Db, taken: multiset<LegKey>) {
    notice.PayoutSucceeded? && notice.leg.Some? && KeyIn(db, notice.leg.value) ==> taken[notice.leg.value] == 1
  }

  /** The pocket an order reference names: one whose link was minted under it, else the one whose id it was
      submitted for. */
  ghost predicate Names(db: Db, links: map<PocketId, string>, ref: string, target: Option<PocketId>) {
    if ref == "" then target.None?
    else if exists id :: LinkedTo(db, links, ref, id) then target.Some? && LinkedTo(db, links, ref, target.value)
    else if PocketIdFromRef(ref).Some? && PocketIdFromRef(ref).value in db then target == PocketIdFromRef(ref)
    else target.None?
  }

  /** What a notice brings about, and whether its event is done with: a covering payment for a CREATED pocket is
      credited, one that was credited before is done, any other is left for an operator; a payout's outcome
      moves its leg on. */
  function Brought(pol: Policy, db: Db, notice: Notice, target: Option<PocketId>, at: Time): (Db, bool) {
    match notice
    case FundingSucceeded(_, paid) =>
      if target.None? || target.value !in db then (db, false)
      else
        var s := db[target.value];
        if !Covers(paid, s.row.buyerTotalKobo) then (db, false)
        else if s.row.state.Created? then (db[target.value := AfterMove(pol, s, CreditFundingOp(paid, at))], true)
        else (db, s.row.state in {Funded, DeliveredPending, Settled, Disputed, Frozen, Refunded})
    case PayoutSucceeded(leg) =>
      if leg.None? then (db, false)
      else if HasStatus(db, leg.value, LegStatus.Pending) || HasStatus(db, leg.value, LegStatus.Inflight)
      then (WithStatus(db, leg.value, LegStatus.Confirmed), true)
      else (db, true)
    case PayoutFailed(leg) =>
      if leg.None? then (db, false)
      else if KeyIn(db, leg.value) then (WithStatus(db, leg.value, LegStatus.Failed), true)
      else (db, true)
    case FundingFailed => (db, true)
    case Unrecognised => (db, true)
  }

  /** A notice's whole effect in one call: the pocket it names, at most one reading of the clock, and what it
      brings about. */
  ghost predicate Brings(
    pol: Policy, db: Db, links: map<PocketId, string>, notice: Notice, target: Option<PocketId>, r: seq<Time>,
    after: Db, done: bool)
  {
    && (notice.FundingSucceeded? ==> Names(db, links, notice.orderRef, target))
    && |r| == (if && notice.FundingSucceeded? && target.Some? && target.value in db
                  && Covers(notice.paid, db[target.value].row.buyerTotalKobo) then 1 else 0)
    && (after, done) == Brought(pol, db, notice, target, if r == [] then 0 else r[0])
  }

  lemma UpdateOutcome(db: Db, key: LegKey, u: Update)
    requires u.ConfirmLeg? || u.FailLeg?
    ensures (if KeyIn(db, key) then UpdateLeg(db, key, u) else db)
         == if u.FailLeg? then if KeyIn(db, key) then WithStatus(db, key, LegStatus.Failed) else db
            else if HasStatus(db, key, LegStatus.Pending) || HasStatus(db, key, LegStatus.Inflight)
            then WithStatus(db, key, LegStatus.Confirmed) else db
  {
    hide UpdateLeg, WithStatus;
    if KeyIn(db, key) { UpdateIsStatus(db, key, u); }
  }

  lemma UpdateIsStatus(db: Db, key: LegKey, u: Update)
    requires KeyIn(db, key)
    ensures UpdateLeg(db, key, u) == WithStatus(db, key, Updated(LegAt(db, key).status, u))
    ensures WithStatus(db, key, LegAt(db, key).status) == db
  {
    var s := db[key.pocket];
    assert s.legs[key.slot := s.legs[key.slot]] == s.legs;
  }

  lemma SoundInv(pol: Policy, db: Db, taken: multiset<LegKey>, id: PocketId)
    requires Sound(pol, db, taken) && id in db
    ensures Inv(pol, db[id]) && TermsInv(db[id].row)
    ensures BuyerTotalKobo(Load(pol, db[id].row)) == db[id].row.buyerTotalKobo
  {
    hide TermsInv, LogInv, RebuildInv, DeadlineInv, TimingInv, LegsInv, DisputeInv, OutcomeInv, InstantInv, SeatsInv;
    assert Inv(pol, db[id]);
    TotalIsStored(pol, db[id].row);
  }

  lemma ResolvedKeepsSound(pol: Policy, db: Db, key: LegKey, u: Update, taken: multiset<LegKey>)
    requires Sound(pol, db, taken) && (u.ConfirmLeg? || u.FailLeg?)
    requires u.ConfirmLeg? && KeyIn(db, key) ==> taken[key] == 1
    ensures KeyIn(db, key) ==>
              && Sound(pol, UpdateLeg(db, key, u), taken)
              && KeyIn(UpdateLeg(db, key, u), key)
              && LegAt(UpdateLeg(db, key, u), key).status == Updated(LegAt(db, key).status, u)
  {
    hide Inv;
    if KeyIn(db, key) {
      var db' := UpdateLeg(db, key, u);
      UpdateKeepsPockets(pol, db, key, u);
      forall k: LegKey
        ensures KeyIn(db', k) <==> KeyIn(db, k)
        ensures k != key && KeyIn(db, k) ==> LegAt(db', k) == LegAt(db, k)
      {
      }
    }
  }

  // ---------------------------------------------------------------- use cases

  /** After a commit, the disbursement of that pocket's legs: what was submitted, and every answer recorded. */
  ghost predicate PaidOut(db: Db, id: PocketId, subs: seq<Submission>, after: Db) {
    Sent(db, Some(id), subs) && after == Recorded(db, subs)
  }

  lemma NothingToPayOut(pol: Policy, db: Db, taken: multiset<LegKey>, id: PocketId)
    requires Sound(pol, db, taken) && id in db && !db[id].row.state.Settled? && !db[id].row.state.Refunded?
    ensures PaidOut(db, id, [], db) && KeysWithStatus(db, Some(id), LegStatus.Pending) == {}
  {
    hide Inv;
    NoneWaiting(pol, db, id);
    NothingSent(db, Some(id));
  }

  lemma NoneWaiting(pol: Policy, db: Db, id: PocketId)
    requires PocketsOk(pol, db) && id in db && !db[id].row.state.Settled? && !db[id].row.state.Refunded?
    ensures KeysWithStatus(db, Some(id), LegStatus.Pending) == {}
  {
    OpenPocketHasNoLegs(pol, db[id]);
    hide Inv;
    assert forall key :: key !in KeysWithStatus(db, Some(id), LegStatus.Pending);
  }

  lemma NothingSent(db: Db, of: Option<PocketId>)
    requires KeysWithStatus(db, of, LegStatus.Pending) == {}
    ensures Sent(db, of, [])
  {
    ListsNothing(db);
    hide KeysWithStatus;
    assert LegsOf([]) == [];
  }

  /** A submission answered in any way leaves every pocket's state. */
  lemma {:induction false} RecordedKeepsRows(db: Db, subs: seq<Submission>)
    ensures Recorded(db, subs).Keys == db.Keys
    ensures forall id :: id in db ==>
              Recorded(db, subs)[id] == db[id].(legs := Recorded(db, subs)[id].legs)
  {
    if subs != [] {
      RecordedKeepsRows(db, subs[..|subs| - 1]);
    }
  }

  /** What entering a code answers, and how often it reads the clock: a refused or a wrong code ends at the
      first reading; an accepted one asks again whether its inspection window is over, and once more to settle. */
  ghost predicate CodeEntered(pol: Policy, s: Slice, check: CodeCheck, r: seq<Time>, err: Option<Error>) {
    && r != []
    && err == Refusal(EnterCodeOp(Vendor, check, r[0]), s.row)
    && if err.Some? || !check.Match? then |r| == 1
       else
         && 2 <= |r| <= 3
         && (|r| == 3 <==> Reached(AfterMove(pol, s, EnterCodeOp(Vendor, check, r[0])).row.settleAfter, r[1]))
  }

  /** The pocket it leaves, before the disbursement: counted or handed over, and settled at once unless its
      window is open or the clock ran backwards. */
  function CodeLeaves(pol: Policy, s: Slice, check: CodeCheck, r: seq<Time>): Slice
    requires r != []
  {
    var entered := AfterMove(pol, s, EnterCodeOp(Vendor, check, r[0]));
    if |r| == 3 && Reached(entered.row.settleAfter, r[2]) then AfterMove(pol, entered, SettleNowOp(r[2])) else entered
  }

  /** A handoff on a fixed clock: settled at once when there is no inspection window, and otherwise waiting
      for its end. */
  ghost predicate HandedOver(was: Row, now: Time, t: Slice) {
    if was.inspectionMinutes > 0 then
      && t.row.state.DeliveredPending? && t.row.settleAfter == Some(now + was.inspectionMinutes * MINUTE)
      && t.legs == map[]
    else
      && t.row.state.Settled? && VENDOR_PAYOUT in t.legs && t.legs[VENDOR_PAYOUT].amountKobo == was.amountKobo
  }

  lemma CodeOnFixedClock(
    pol: Policy, db: Db, id: PocketId, now: Time, r: seq<Time>, err: Option<Error>, subs: seq<Submission>, after: Db)
    requires id in db && CodeEntered(pol, db[id], Match, r, err) && Pinned(Some(now), r)
    requires !db[id].row.codeLocked && (db[id].row.state.Funded? || db[id].row.state.Frozen?)
    requires err.None? ==> PaidOut(db[id := CodeLeaves(pol, db[id], Match, r)], id, subs, after)
    ensures err.None? && id in after && HandedOver(db[id].row, now, after[id])
  {
    var t := CodeLeaves(pol, db[id], Match, r);
    hide Sent, Recorded;
    RecordedKeepsAmounts(db[id := t], subs, id);
  }

  lemma {:induction false} RecordedKeepsAmounts(db: Db, subs: seq<Submission>, id: PocketId)
    requires id in db
    ensures id in Recorded(db, subs)
    ensures var t := Recorded(db, subs)[id];
            && t.row == db[id].row && t.legs.Keys == db[id].legs.Keys
            && forall slot :: slot in t.legs ==> t.legs[slot].amountKobo == db[id].legs[slot].amountKobo
  {
    if subs != [] {
      RecordedKeepsAmounts(db, subs[..|subs| - 1], id);
    }
  }

  /** The write path of a code entry is the table's. */
  lemma CodeAsTabled(pol: Policy, db: Db, taken: multiset<LegKey>, id: PocketId, check: CodeCheck, now: Time)
    requires Sound(pol, db, taken) && id in db && !check.NotReady?
    ensures var op := EnterCodeOp(Vendor, check, now);
            var written := Records.RunTransition(
              pol, db[id], Party(Vendor), now, Plain(if check.Match? then CodeAccepted else CodeRejected), 0);
            && Exec(pol, db[id], op) == written
            && written == (match Refusal(op, db[id].row)
                           case Some(e) => Err(e)
                           case None => Ok(AfterMove(pol, db[id], op)))
  {
    hide Inv, AfterMove, Refusal, ApplyTransition, Load;
    assert Inv(pol, db[id]);
    MovesFollowTable(pol, db[id], EnterCodeOp(Vendor, check, now));
  }

  /** An accepted code is due for settlement exactly when its deadline is reached, and settles then. */
  lemma HandoffIsDueIff(pol: Policy, s: Slice, now: Time, at: Time)
    ensures var handed := AfterMove(pol, s, EnterCodeOp(Vendor, Match, now));
            && handed.row.state.DeliveredPending?
            && (DueForSettlement(Load(pol, handed.row), at) <==> Reached(handed.row.settleAfter, at))
            && Refusal(SettleNowOp(at), handed.row)
               == if Reached(handed.row.settleAfter, at) then None else Some(NotYetDue)
  {
  }

  lemma SettleAsTabled(pol: Policy, db: Db, taken: multiset<LegKey>, id: PocketId, now: Time)
    requires Sound(pol, db, taken) && id in db
    ensures var written := Records.RunTransition(pol, db[id], Party(Vendor), now, Plain(SettleDue), 0);
            && Exec(pol, db[id], SettleNowOp(now)) == written
            && written == (match Refusal(SettleNowOp(now), db[id].row)
                           case Some(e) => Err(e)
                           case None => Ok(AfterMove(pol, db[id], SettleNowOp(now))))
  {
    hide Inv, AfterMove, Refusal, ApplyTransition, Load;
    assert Inv(pol, db[id]);
    MovesFollowTable(pol, db[id], SettleNowOp(now));
  }

  lemma CreditAsTabled(pol: Policy, db: Db, taken: multiset<LegKey>, id: PocketId, paid: int, now: Time)
    requires Sound(pol, db, taken) && id in db
    ensures var op := CreditFundingOp(paid, now);
            var written := Records.RunTransition(pol, db[id], Actor.System, now, Plain(FundingConfirmed), paid);
            && Exec(pol, db[id], op) == written
            && (if db[id].row.state.Created? then written == Ok(AfterMove(pol, db[id], op))
                else written.Err? && written.error in {IllegalTransition, Terminal, IllegalState})
            && AfterMove(pol, db[id], op).row.state.Funded?
  {
    hide Inv, ApplyTransition, Load, Owed, MovedRow, MovedDispute;
    assert Inv(pol, db[id]);
    MovesFollowTable(pol, db[id], CreditFundingOp(paid, now));
    CreditedIsFunded(pol, db[id], paid, now);
  }

  lemma CreditedIsFunded(pol: Policy, s: Slice, paid: int, now: Time)
    ensures AfterMove(pol, s, CreditFundingOp(paid, now)).row.state.Funded?
    ensures AfterMove(pol, s, CreditFundingOp(paid, now)).legs == map[]
  {
  }

  predicate Cancellable(state: State) { state.Draft? || state.Created? || state.Funded? }

  /** A cancel: refused to others than the vendor on a FUNDED pocket and to all on one that has moved on, and
      otherwise made at the call's one reading and disbursed. */
  ghost predicate CancelEnds<T>(
    pol: Policy, db: Db, id: PocketId, role: Role, r: seq<Time>, res: Result<T>, subs: seq<Submission>, after: Db)
    requires id in db
  {
    var s := db[id];
    if s.row.state.Funded? && !role.Vendor? then res == Err(Forbidden) && r == [] && subs == [] && after == db
    else if Cancellable(s.row.state) then
      && res.Ok? && |r| == 1
      && PaidOut(db[id := AfterMove(pol, s, CancelOp(role, r[0]))], id, subs, after)
    else res == Err(IllegalState) && |r| == 1 && subs == [] && after == db
  }

  lemma CancelAsTabled(pol: Policy, db: Db, taken: multiset<LegKey>, id: PocketId, role: Role, now: Time)
    requires Sound(pol, db, taken) && id in db
    ensures var op := CancelOp(role, now);
            && Exec(pol, db[id], op) == CancelTx(pol, db[id], role, now)
            && Exec(pol, db[id], op)
               == if Cancellable(db[id].row.state) then Ok(AfterMove(pol, db[id], op))
                  else Err(IllegalState)
  {
    hide Inv, AfterMove, ApplyTransition, Load;
    assert Inv(pol, db[id]);
    MovesFollowTable(pol, db[id], CancelOp(role, now));
  }

  /** A committed outcome moves money exactly when it paid the sellers or refunded the buyer. */
  predicate MovesAsState(s: Slice, out: PocketMachine.Outcome) {
    MovesMoneyIn(out) <==> s.row.state.Settled? || s.row.state.Refunded?
  }

  lemma CommittedMoves(pol: Policy, s: Slice, actor: Actor, now: Time, ev: Event, paid: int)
    requires Records.RunTransition(pol, s, actor, now, ev, paid).Ok?
    ensures MovesAsState(Records.RunTransition(pol, s, actor, now, ev, paid).value,
                         Transition(Load(pol, s.row), now, ev).value)
  {
    hide Transition, Load, RecordLegs, RecordDispute;
    var out := Transition(Load(pol, s.row), now, ev).value;
    MoneyEffects(Load(pol, s.row), now, ev);
    if out.pocket.state.Settled? || out.pocket.state.Refunded? {
      assert out.effects[0] in out.effects && MovesMoney(out.effects[0]);
    }
  }

  lemma CommittedIsDueIff(pol: Policy, s: Slice, actor: Actor, now: Time, ev: Event, paid: int, at: Time)
    requires Records.RunTransition(pol, s, actor, now, ev, paid).Ok?
    ensures DueForSettlement(Transition(Load(pol, s.row), now, ev).value.pocket, at)
        <==> DueForSettlement(Load(pol, Records.RunTransition(pol, s, actor, now, ev, paid).value.row), at)
  {
    hide Transition, RecordLegs, RecordDispute;
  }

  lemma SweepMoves(pol: Policy, s: Slice, rule: Rule, now: Time)
    requires SweepTx(pol, s, rule, now).Ok?
    ensures MovesAsState(SweepTx(pol, s, rule, now).value, Transition(Load(pol, s.row), now, RuleEvent(rule)).value)
  {
    hide Transition, Load, ApplyTransition, MovesAsState;
    CommittedMoves(pol, s, Actor.System, now, RuleEvent(rule), 0);
  }

  lemma CancelMoves(pol: Policy, s: Slice, role: Role, now: Time, out: PocketMachine.Outcome)
    requires CancelTx(pol, s, role, now).Ok?
    requires if s.row.state.Draft? then out.effects == []
             else Transition(Load(pol, s.row), now,
                             Plain(if s.row.state.Funded? then VendorCancel else EventKind.Cancel)) == Ok(out)
    ensures MovesAsState(CancelTx(pol, s, role, now).value, out)
  {
    hide Transition, Load, ApplyTransition;
    if !s.row.state.Draft? {
      hide MovesAsState;
      CommittedMoves(pol, s, Party(role), now,
                     Plain(if s.row.state.Funded? then VendorCancel else EventKind.Cancel), 0);
    }
  }

  lemma AcceptanceStates(pol: Policy, s: Slice, role: Role, now: Time)
    ensures AcceptRefusal(pol, s, role).None? ==>
              (AfterAcceptance(pol, s, role, now).row.state.Created? <==> LastToAccept(s, role))
  {
  }

  predicate MovesMoneyIn(out: PocketMachine.Outcome) {
    exists e :: e in out.effects && MovesMoney(e)
  }

  // ---------------------------------------------------------------- lists of legs

  lemma ListedAt(legs: seq<SettlementLeg>, db: Db, of: Option<PocketId>, i: nat)
    requires i < |legs| && Lists(legs, db, KeysWithStatus(db, of, LegStatus.Pending))
    ensures KeysWithStatus(db, of, LegStatus.Pending) != {}
    ensures KeyIn(db, legs[i].key) && (of.None? || of.value == legs[i].key.pocket)
  {
    assert legs[i].key in KeysWithStatus(db, of, LegStatus.Pending);
  }

  /** Legs still waiting for their turn in a pass over a list. */
  ghost predicate Waits(db: Db, legs: seq<SettlementLeg>, from: nat) {
    forall j :: from <= j < |legs| ==> HasStatus(db, legs[j].key, LegStatus.Pending)
  }

  lemma ListedWait(legs: seq<SettlementLeg>, db: Db, of: Option<PocketId>)
    requires Lists(legs, db, KeysWithStatus(db, of, LegStatus.Pending))
    ensures Waits(db, legs, 0)
  {
    forall j | 0 <= j < |legs| ensures HasStatus(db, legs[j].key, LegStatus.Pending) {
      assert legs[j].key in KeysWithStatus(db, of, LegStatus.Pending);
    }
  }

  lemma OthersWait(legs: seq<SettlementLeg>, first: Db, of: Option<PocketId>, db: Db, i: nat, status: Status)
    requires i < |legs| && Waits(db, legs, i)
    requires Lists(legs, first, KeysWithStatus(first, of, LegStatus.Pending))
    ensures KeyIn(db, legs[i].key) && Waits(WithStatus(db, legs[i].key, status), legs, i + 1)
  {
    assert HasStatus(db, legs[i].key, LegStatus.Pending);
    forall j | i + 1 <= j < |legs|
      ensures HasStatus(WithStatus(db, legs[i].key, status), legs[j].key, LegStatus.Pending)
    {
      assert HasStatus(db, legs[j].key, LegStatus.Pending) && legs[i].key != legs[j].key;
    }
  }

  function LegsOf(subs: seq<Submission>): (legs: seq<SettlementLeg>)
    ensures |legs| == |subs| && forall i :: 0 <= i < |subs| ==> legs[i] == subs[i].leg
  {
    seq(|subs|, i requires 0 <= i < |subs| => subs[i].leg)
  }

  /** The last answer was no failure. */
  predicate Unstopped(subs: seq<Submission>) {
    subs == [] || subs[|subs| - 1].answer.Accepted?
  }

  /** How many of them went through, when only the last may have failed. */
  function PaidCount(subs: seq<Submission>): int {
    if Unstopped(subs) then |subs| else |subs| - 1
  }

  /** What a pass submits: pending legs, none twice, each with its recorded amount, up to the first failure; and
      all of them when there was none. */
  ghost predicate Sent(db: Db, of: Option<PocketId>, subs: seq<Submission>) {
    var keys := KeysWithStatus(db, of, LegStatus.Pending);
    && ListsSome(LegsOf(subs), db, keys)
    && (forall i :: 0 <= i < |subs| - 1 ==> subs[i].answer.Accepted?)
    && (Unstopped(subs) ==> Lists(LegsOf(subs), db, keys))
  }

  lemma SentPrefix(db: Db, of: Option<PocketId>, legs: seq<SettlementLeg>, subs: seq<Submission>)
    requires Lists(legs, db, KeysWithStatus(db, of, LegStatus.Pending))
    requires |subs| <= |legs| && LegsOf(subs) == legs[..|subs|]
    requires forall i :: 0 <= i < |subs| - 1 ==> subs[i].answer.Accepted?
    requires Unstopped(subs) ==> |subs| == |legs|
    ensures Sent(db, of, subs)
  {
    assert legs[..|legs|] == legs;
    hide KeysWithStatus;
    PrefixListsSome(legs, db, KeysWithStatus(db, of, LegStatus.Pending), |subs|);
  }

  /** With nothing stopping it a pass submits as many legs as there were. */
  lemma SentCounts(db: Db, of: Option<PocketId>, subs: seq<Submission>)
    requires Sent(db, of, subs)
    ensures Unstopped(subs) ==> |subs| == |KeysWithStatus(db, of, LegStatus.Pending)|
    ensures KeysWithStatus(db, of, LegStatus.Pending) == {} ==> subs == []
  {
    var keys := KeysWithStatus(db, of, LegStatus.Pending);
    hide KeysWithStatus;
    if subs != [] { assert LegsOf(subs)[0].key in keys; }
    if Unstopped(subs) { ListedCount(LegsOf(subs), db, keys); }
  }

  lemma {:induction false} ListedCount(legs: seq<SettlementLeg>, db: Db, keys: set<LegKey>)
    requires Lists(legs, db, keys)
    ensures |legs| == |keys|
  {
    if legs == [] {
      assert keys == {};
    } else {
      var n := |legs| - 1;
      forall key | key in keys - {legs[n].key} ensures exists i :: 0 <= i < n && legs[..n][i].key == key {
        var i :| 0 <= i < |legs| && legs[i].key == key;
        assert legs[..n][i] == legs[i];
      }
      ListedCount(legs[..n], db, keys - {legs[n].key});
    }
  }

  lemma OneMoreLeg(subs: seq<Submission>, legs: seq<SettlementLeg>, answer: Answer)
    requires |subs| < |legs| && LegsOf(subs) == legs[..|subs|]
    ensures LegsOf(subs + [Submission(legs[|subs|], answer)]) == legs[..|subs| + 1]
  {
  }

  lemma WaitsAt(db: Db, legs: seq<SettlementLeg>, i: nat)
    requires Waits(db, legs, i) && i < |legs|
    ensures HasStatus(db, legs[i].key, LegStatus.Pending)
  {
  }

  lemma PrefixListsSome(legs: seq<SettlementLeg>, db: Db, keys: set<LegKey>, n: nat)
    requires Lists(legs, db, keys) && n <= |legs|
    ensures ListsSome(legs[..n], db, keys)
  {
  }

  lemma NothingPending(legs: seq<SettlementLeg>, before: Db, after: Db, of: Option<PocketId>)
    requires Lists(legs, before, KeysWithStatus(before, of, LegStatus.Pending)) && DisbursedIn(before, after, of)
    ensures (forall j :: 0 <= j < |legs| ==> !HasStatus(after, legs[j].key, LegStatus.Pending)) ==>
              KeysWithStatus(after, of, LegStatus.Pending) == {}
  {
    StaysResolved(before, after, of);
    if KeysWithStatus(after, of, LegStatus.Pending) != {} {
      var key :| key in KeysWithStatus(after, of, LegStatus.Pending);
      assert key in KeysWithStatus(before, of, LegStatus.Pending);
      var j :| 0 <= j < |legs| && legs[j].key == key;
      assert HasStatus(after, legs[j].key, LegStatus.Pending);
    }
  }
}
