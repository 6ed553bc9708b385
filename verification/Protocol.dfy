/** The settlement-leg claim protocol moves each leg's money at most once. */
module Protocol {
  import opened PocketMachine
  import opened LegStatus
  import opened Records
  import opened System

  // ---------------------------------------------------------------- the inductive invariant

  ghost predicate AllRefused(ledger: seq<Transfer>, key: LegKey) {
    forall i :: 0 <= i < |ledger| && ledger[i].key == key ==> ledger[i].verdict.Refused?
  }

  ghost predicate Acknowledged(ledger: seq<Transfer>, key: LegKey) {
    exists i :: 0 <= i < |ledger| && ledger[i].key == key && ledger[i].verdict.TakenOn()
  }

  /** At most one transfer per leg was not definitively refused. */
  ghost predicate OneLive(ledger: seq<Transfer>) {
    forall i, j :: 0 <= i < j < |ledger| && ledger[i].key == ledger[j].key ==>
      ledger[i].verdict.Refused? || ledger[j].verdict.Refused?
  }

  ghost predicate LedgerMatches(db: Db, ledger: seq<Transfer>) {
    forall i :: 0 <= i < |ledger| ==>
      KeyIn(db, ledger[i].key) && ledger[i].amountKobo == LegAt(db, ledger[i].key).amountKobo
  }

  /** A pending leg was never taken on and nothing for it is travelling; a confirmed leg was taken on. */
  ghost predicate StatusesMatch(db: Db, ledger: seq<Transfer>) {
    forall key :: KeyIn(db, key) ==>
      && (LegAt(db, key).status.Pending? ==> AllRefused(ledger, key))
      && (LegAt(db, key).status.Confirmed? ==> Acknowledged(ledger, key))
  }

  ghost predicate WorkerOk(db: Db, ledger: seq<Transfer>, w: Worker) {
    w.Idle?
    || (&& KeyIn(db, w.key) && !LegAt(db, w.key).status.Pending?
        && (w.Claimed? ==> AllRefused(ledger, w.key))
        && (w.Waiting? ==>
              && w.transfer < |ledger| && ledger[w.transfer].key == w.key
              && forall i :: 0 <= i < |ledger| && i != w.transfer && ledger[i].key == w.key
                  ==> ledger[i].verdict.Refused?)
        && (w.Returned? && w.answer.Accepted? ==>
              w.transfer < |ledger| && ledger[w.transfer].key == w.key && ledger[w.transfer].verdict.TakenOn())
        && (w.Returned? && w.answer.NotSubmitted? ==> AllRefused(ledger, w.key)))
  }

  /** Every holder's knowledge is right, and no two workers hold the same leg. */
  ghost predicate WorkersOk(db: Db, ledger: seq<Transfer>, workers: map<WorkerId, Worker>) {
    && (forall w :: w in workers ==> WorkerOk(db, ledger, workers[w]))
    && (forall v, w :: v in workers && w in workers && v != w && !workers[v].Idle? && !workers[w].Idle? ==>
          workers[v].key != workers[w].key)
  }

  ghost predicate Safe(s: Sys) {
    && OneLive(s.ledger) && LedgerMatches(s.db, s.ledger) && StatusesMatch(s.db, s.ledger)
    && WorkersOk(s.db, s.ledger, s.workers)
  }

  // ---------------------------------------------------------------- database steps

  /** Known legs keep amount and status, new ones are pending. */
  ghost predicate LegsGrow(db: Db, db': Db) {
    && (forall key :: KeyIn(db, key) ==> KeyIn(db', key) && LegAt(db', key) == LegAt(db, key))
    && (forall key :: KeyIn(db', key) && !KeyIn(db, key) ==> LegAt(db', key).status.Pending?)
  }

  lemma GrowthKeepsSafe(s: Sys, db': Db)
    requires Safe(s) && LegsGrow(s.db, db')
    ensures Safe(s.(db := db'))
  {
    forall key | KeyIn(db', key)
      ensures LegAt(db', key).status.Pending? ==> AllRefused(s.ledger, key)
      ensures LegAt(db', key).status.Confirmed? ==> Acknowledged(s.ledger, key)
    {
      if KeyIn(s.db, key) {
        assert LegAt(db', key) == LegAt(s.db, key);
      }
    }
    forall w | w in s.workers ensures WorkerOk(db', s.ledger, s.workers[w]) {
      assert WorkerOk(s.db, s.ledger, s.workers[w]);
    }
  }

  /** A status update that cannot reopen a leg, or reopens one whose transfers were all refused. */
  lemma UpdateKeepsSafe(s: Sys, key: LegKey, u: Update, workers': map<WorkerId, Worker>)
    requires Safe(s) && KeyIn(s.db, key)
    requires u.ConfirmLeg? ==> Acknowledged(s.ledger, key)
    requires u.ReleaseLeg? ==>
               AllRefused(s.ledger, key) && forall w :: w in workers' && !workers'[w].Idle? ==> workers'[w].key != key
    requires WorkersOk(s.db, s.ledger, workers')
    requires u.ClaimLeg? ==> AllRefused(s.ledger, key)
    ensures Safe(s.(db := UpdateLeg(s.db, key, u), workers := workers'))
  {
    var db' := UpdateLeg(s.db, key, u);
    forall k | KeyIn(db', k)
      ensures KeyIn(s.db, k) && LegAt(db', k).amountKobo == LegAt(s.db, k).amountKobo
      ensures k != key ==> LegAt(db', k) == LegAt(s.db, k)
      ensures LegAt(db', k).status.Pending? ==> AllRefused(s.ledger, k)
      ensures LegAt(db', k).status.Confirmed? ==> Acknowledged(s.ledger, k)
    {
    }
    forall k | KeyIn(s.db, k) ensures KeyIn(db', k) && LegAt(db', k).amountKobo == LegAt(s.db, k).amountKobo {}
    forall w | w in workers' ensures WorkerOk(db', s.ledger, workers'[w]) {
      assert WorkerOk(s.db, s.ledger, workers'[w]);
    }
  }

  // ---------------------------------------------------------------- what a write does to the legs table

  lemma {:induction false} PayoutsGrow(legs: Legs, plan: seq<PayoutLeg>)
    ensures forall k :: k in legs ==> k in InsertPayouts(legs, plan) && InsertPayouts(legs, plan)[k] == legs[k]
    ensures forall k :: k in InsertPayouts(legs, plan) && k !in legs ==> InsertPayouts(legs, plan)[k].status.Pending?
  {
    if plan != [] { PayoutsGrow(legs, plan[..|plan| - 1]); }
  }

  lemma {:induction false} RecordingGrows(legs: Legs, effects: seq<Effect>)
    ensures forall k :: k in legs ==> k in RecordLegs(legs, effects) && RecordLegs(legs, effects)[k] == legs[k]
    ensures forall k :: k in RecordLegs(legs, effects) && k !in legs ==> RecordLegs(legs, effects)[k].status.Pending?
  {
    if effects != [] {
      var before := RecordLegs(legs, effects[..|effects| - 1]);
      RecordingGrows(legs, effects[..|effects| - 1]);
      if effects[|effects| - 1].SchedulePayout? { PayoutsGrow(before, effects[|effects| - 1].legs); }
    }
  }

  ghost predicate Grows(legs: Legs, legs': Legs) {
    && (forall k :: k in legs ==> k in legs' && legs'[k] == legs[k])
    && (forall k :: k in legs' && k !in legs ==> legs'[k].status.Pending?)
  }

  lemma TransitionGrows(s: Slice, rec: Record, actor: Actor, now: Time, ev: Event, paid: int)
    requires ApplyTransition(s, rec, actor, now, ev, paid).Ok?
    ensures Grows(s.legs, ApplyTransition(s, rec, actor, now, ev, paid).value.legs)
  {
    hide RecordLegs;
    RecordingGrows(s.legs, Transition(rec.pocket, now, ev).value.effects);
  }

  lemma ExecGrows(pol: Policy, s: Slice, op: Op)
    requires Exec(pol, s, op).Ok?
    ensures Grows(s.legs, Exec(pol, s, op).value.legs)
  {
    hide ApplyTransition, AllAccepted, HoldsSeat, Load, New, Grows;
    assert Grows(s.legs, s.legs) by { GrowsReflexive(s.legs); }
    forall actor: Actor, now: Time, ev: Event, paid: int | ApplyTransition(s, Read(pol, s), actor, now, ev, paid).Ok?
      ensures Grows(s.legs, ApplyTransition(s, Read(pol, s), actor, now, ev, paid).value.legs)
    {
      TransitionGrows(s, Read(pol, s), actor, now, ev, paid);
    }
  }

  lemma GrowsReflexive(legs: Legs)
    ensures Grows(legs, legs)
  {
  }

  lemma WriteKeepsSafe(s: Sys, id: PocketId, slice: Slice)
    requires Safe(s)
    requires id in s.db ==> Grows(s.db[id].legs, slice.legs)
    requires id !in s.db ==> slice.legs == map[]
    ensures Safe(s.(db := s.db[id := slice]))
  {
    var db' := s.db[id := slice];
    assert LegsGrow(s.db, db');
    hide Safe;
    GrowthKeepsSafe(s, db');
  }

  // ---------------------------------------------------------------- worker and bank steps

  lemma HandOverKeepsWorkers(s: Sys, w: WorkerId, to: Worker)
    requires WorkersOk(s.db, s.ledger, s.workers)
    requires WorkerOk(s.db, s.ledger, to)
    requires to.Idle? || (!WorkerAt(s, w).Idle? && WorkerAt(s, w).key == to.key)
    ensures WorkersOk(s.db, s.ledger, s.workers[w := to])
  {
  }

  lemma ClaimKeepsSafe(pol: Policy, s: Sys, w: WorkerId, key: LegKey)
    requires Safe(s)
    ensures Safe(Next(pol, s, Claim(w, key)))
  {
    if WorkerAt(s, w).Idle? && KeyIn(s.db, key) && LegAt(s.db, key).status.Pending? {
      UpdateKeepsSafe(s, key, ClaimLeg, s.workers);
      var t := s.(db := UpdateLeg(s.db, key, ClaimLeg));
      assert forall v :: v in s.workers && !s.workers[v].Idle? ==> s.workers[v].key != key by {
        assert forall v :: v in s.workers ==> WorkerOk(s.db, s.ledger, s.workers[v]);
      }
      assert WorkerOk(t.db, t.ledger, Claimed(key));
      assert WorkersOk(t.db, t.ledger, t.workers);
    }
  }

  lemma SubmitKeepsSafe(pol: Policy, s: Sys, w: WorkerId)
    requires Safe(s)
    ensures Safe(Next(pol, s, Submit(w)))
  {
    var at := WorkerAt(s, w);
    if at.Claimed? && KeyIn(s.db, at.key) {
      assert WorkerOk(s.db, s.ledger, at);
      SubmissionKeepsSafe(s, w, at.key);
    }
  }

  lemma SubmissionKeepsSafe(s: Sys, w: WorkerId, key: LegKey)
    requires Safe(s) && KeyIn(s.db, key) && WorkerAt(s, w) == Claimed(key)
    ensures Safe(s.(ledger := s.ledger + [Transfer(key, LegAt(s.db, key).amountKobo, OnWire)],
                    workers := s.workers[w := Waiting(key, |s.ledger|)]))
  {
    assert WorkerOk(s.db, s.ledger, WorkerAt(s, w));
    var ledger', n := s.ledger + [Transfer(key, LegAt(s.db, key).amountKobo, OnWire)], |s.ledger|;
    AcknowledgedGrows(s.ledger, ledger');
    forall v | v in s.workers && v != w ensures WorkerOk(s.db, ledger', s.workers[v]) {
      assert WorkerOk(s.db, s.ledger, s.workers[v]);
    }
  }

  lemma AcknowledgedGrows(ledger: seq<Transfer>, ledger': seq<Transfer>)
    requires ledger <= ledger'
    ensures forall key :: Acknowledged(ledger, key) ==> Acknowledged(ledger', key)
  {
    forall key | Acknowledged(ledger, key) ensures Acknowledged(ledger', key) {
      var i :| 0 <= i < |ledger| && ledger[i].key == key && ledger[i].verdict.TakenOn();
      assert ledger'[i] == ledger[i];
    }
  }

  /** The bank gives its verdict on transfer i. */
  lemma VerdictKeepsSafe(s: Sys, i: nat, verdict: Verdict)
    requires Safe(s) && i < |s.ledger| && Judges(s.ledger[i].verdict, verdict)
    ensures Safe(s.(ledger := s.ledger[i := s.ledger[i].(verdict := verdict)]))
  {
    var ledger' := s.ledger[i := s.ledger[i].(verdict := verdict)];
    forall key | KeyIn(s.db, key)
      ensures Acknowledged(s.ledger, key) ==> Acknowledged(ledger', key)
      ensures AllRefused(s.ledger, key) ==> AllRefused(ledger', key)
    {
      if Acknowledged(s.ledger, key) {
        var j :| 0 <= j < |s.ledger| && s.ledger[j].key == key && s.ledger[j].verdict.TakenOn();
        assert j != i ==> ledger'[j] == s.ledger[j];
        assert ledger'[j].verdict.TakenOn();
      }
    }
    forall w | w in s.workers ensures WorkerOk(s.db, ledger', s.workers[w]) {
      assert WorkerOk(s.db, s.ledger, s.workers[w]);
    }
  }

  lemma JudgeKeepsSafe(s: Sys, i: nat, verdict: Verdict)
    requires Safe(s)
    ensures Safe(Judge(s, i, verdict))
  {
    if i < |s.ledger| && Judges(s.ledger[i].verdict, verdict) { VerdictKeepsSafe(s, i, verdict); }
  }

  lemma ReplyKeepsSafe(pol: Policy, s: Sys, w: WorkerId, answer: Answer)
    requires Safe(s)
    ensures Safe(Next(pol, s, Reply(w, answer)))
    ensures Safe(Next(pol, s, Unauthorised(w)))
    ensures Safe(Next(pol, s, Crash(w)))
  {
    var at := WorkerAt(s, w);
    if !at.Idle? {
      assert WorkerOk(s.db, s.ledger, at);
      if at.Claimed? && !answer.Accepted? { HandOverKeepsWorkers(s, w, Returned(at.key, answer, 0)); }
      if at.Waiting? {
        if s.ledger[at.transfer].verdict.Refused? { HandOverKeepsWorkers(s, w, Claimed(at.key)); }
        if (answer.Accepted? ==> s.ledger[at.transfer].verdict.TakenOn()) && !answer.NotSubmitted? {
          HandOverKeepsWorkers(s, w, Returned(at.key, answer, at.transfer));
        }
      }
    }
    HandOverKeepsWorkers(s, w, Idle);
  }

  lemma SettleKeepsSafe(pol: Policy, s: Sys, w: WorkerId)
    requires Safe(s)
    ensures Safe(Next(pol, s, Settle(w)))
  {
    var at := WorkerAt(s, w);
    if at.Returned? && KeyIn(s.db, at.key) {
      assert WorkerOk(s.db, s.ledger, at);
      HandOverKeepsWorkers(s, w, Idle);
      var u := UpdateFor(at.answer);
      if u.Some? { UpdateKeepsSafe(s, at.key, u.value, s.workers[w := Idle]); }
    }
  }

  lemma NoticeKeepsSafe(pol: Policy, s: Sys, i: nat)
    requires Safe(s)
    ensures Safe(Next(pol, s, NoticePaid(i)))
    ensures Safe(Next(pol, s, NoticeFailed(i)))
  {
    if i < |s.ledger| && KeyIn(s.db, s.ledger[i].key) {
      if s.ledger[i].verdict.TakenOn() { UpdateKeepsSafe(s, s.ledger[i].key, ConfirmLeg, s.workers); }
      UpdateKeepsSafe(s, s.ledger[i].key, FailLeg, s.workers);
    }
  }

  /** A new draft, a write or a funding credit: no worker and no transfer is touched. */
  lemma WriteStepKeepsSafe(pol: Policy, s: Sys, step: Step)
    requires Safe(s) && (step.Create? || step.Write? || step.Credit? || step.CommitCancel?)
    ensures Safe(Next(pol, s, step))
  {
    hide Safe, Exec, CreateDraft, Next, UpdateLeg;
    StepChanges(pol, s, step);
    var t := Next(pol, s, step);
    match ChangeOf(pol, s, step) {
      case Same =>
      case Drafted(id, slice) =>
        CreateHasNoLegs(pol, step.terms, step.user, step.now);
        WriteKeepsSafe(s, id, slice);
      case Written(id, op) =>
        ExecGrows(pol, s.db[id], op);
        WriteKeepsSafe(s, id, Exec(pol, s.db[id], op).value);
    }
    SafeIgnoresIngesters(s.(db := t.db), t);
  }

  lemma OtherStepKeepsSafe(pol: Policy, s: Sys, step: Step)
    requires Safe(s)
    requires step.Receive? || step.Look? || step.Pull? || step.Recheck? || step.Mark? || step.Drop?
             || step.ReadForCancel? || step.GiveUp?
    ensures Safe(Next(pol, s, step))
  {
    hide Safe, Check;
    SafeIgnoresIngesters(s, Next(pol, s, step));
  }

  lemma JudgeStepKeepsSafe(pol: Policy, s: Sys, i: nat)
    requires Safe(s)
    ensures Safe(Next(pol, s, Refuse(i))) && Safe(Next(pol, s, TakeOn(i)))
    ensures Safe(Next(pol, s, Execute(i))) && Safe(Next(pol, s, Reverse(i)))
  {
    hide Safe, Judge;
    JudgeKeepsSafe(s, i, Refused);
    JudgeKeepsSafe(s, i, Taken);
    JudgeKeepsSafe(s, i, Executed);
    JudgeKeepsSafe(s, i, Reversed);
  }

  lemma NextKeepsSafe(pol: Policy, s: Sys, step: Step)
    requires Safe(s)
    ensures Safe(Next(pol, s, step))
  {
    hide Safe, Next;
    match step {
      case Create(id, terms, user, now) => WriteStepKeepsSafe(pol, s, step);
      case Write(id, op) => WriteStepKeepsSafe(pol, s, step);
      case Credit(w, now) => WriteStepKeepsSafe(pol, s, step);
      case CommitCancel(w, now) => WriteStepKeepsSafe(pol, s, step);
      case Claim(w, key) => ClaimKeepsSafe(pol, s, w, key);
      case Submit(w) => SubmitKeepsSafe(pol, s, w);
      case Unauthorised(w) => ReplyKeepsSafe(pol, s, w, Ambiguous);
      case Reply(w, answer) => ReplyKeepsSafe(pol, s, w, answer);
      case Settle(w) => SettleKeepsSafe(pol, s, w);
      case Crash(w) => ReplyKeepsSafe(pol, s, w, Ambiguous);
      case Refuse(i) => JudgeStepKeepsSafe(pol, s, i);
      case TakeOn(i) => JudgeStepKeepsSafe(pol, s, i);
      case Execute(i) => JudgeStepKeepsSafe(pol, s, i);
      case Reverse(i) => JudgeStepKeepsSafe(pol, s, i);
      case NoticePaid(i) => NoticeKeepsSafe(pol, s, i);
      case NoticeFailed(i) => NoticeKeepsSafe(pol, s, i);
      case _ => OtherStepKeepsSafe(pol, s, step);
    }
  }

  lemma CreateHasNoLegs(pol: Policy, terms: Terms, user: string, now: Time)
    requires CreateDraft(pol, terms, user, now).Ok?
    ensures CreateDraft(pol, terms, user, now).value.legs == map[]
  {
  }

  lemma SafeIgnoresIngesters(s: Sys, t: Sys)
    requires Safe(s) && (t.db, t.workers, t.ledger) == (s.db, s.workers, s.ledger)
    ensures Safe(t)
  {
  }
}
