/** The whole system: every pocket's rows, any number of disbursing workers and funding ingesters, and a
    bank that may ignore idempotency keys. Each step is one database statement, one transaction or one
    message; a run is any sequence of steps, so every interleaving and every crash is one. A step whose
    guard does not hold changes nothing. */
module System {
  import opened Results
  import opened PocketMachine
  import opened LegStatus
  import opened Records

  type PocketId = string
  type WorkerId = nat
  type EventId = string

  /** The idempotency key "pocket:direction:role". */
  datatype LegKey = LegKey(pocket: PocketId, slot: LegSlot)

  /** What became of one submitted transfer: still travelling, refused before anything moved, taken on by
      the bank but not executed yet, executed, or sent back after it was taken on. */
  datatype Verdict = OnWire | Refused | Taken | Executed | Reversed {
    predicate TakenOn() { Taken? || Executed? || Reversed? }
  }

  datatype Transfer = Transfer(key: LegKey, amountKobo: int, verdict: Verdict)

  /** payLeg's view of the gateway's error contract. */
  datatype Answer = Accepted | Rejected | NotSubmitted | Ambiguous

  /** A worker inside payLeg, between two of its steps. */
  datatype Worker =
    | Idle
    | Claimed(key: LegKey)                                // won the claim, nothing of this attempt sent
    | Waiting(key: LegKey, transfer: nat)                 // submitted ledger entry transfer
    | Returned(key: LegKey, answer: Answer, transfer: nat) // the call returned, nothing recorded

  /** A funding notification or verification between two of its steps. */
  datatype Ingester =
    | Off
    | Received(hook: EventId)
    | Checked(event: Option<EventId>, pocket: PocketId, paid: int)
    | Rechecking(event: Option<EventId>, pocket: PocketId)
    | Credited(event: Option<EventId>, pocket: PocketId)

  /** App.Cancel between its role check, which reads without the lock, and its locked write. */
  datatype Canceller = Away | Decided(pocket: PocketId, role: Role)

  type Db = map<PocketId, Slice>

  /** hooks maps each recorded notification to the pocket it was processed for, or None. */
  datatype Sys = Sys(
    db: Db, workers: map<WorkerId, Worker>, ledger: seq<Transfer>,
    hooks: map<EventId, Option<PocketId>>, ingesters: map<WorkerId, Ingester>,
    cancellers: map<WorkerId, Canceller>)

  const EMPTY := Sys(map[], map[], [], map[], map[], map[])

  datatype Step =
    | Create(id: PocketId, terms: Terms, user: string, now: Time)
    | Write(id: PocketId, op: Op)
    // payLeg, by any worker, from an immediate disbursement or from a sweep
    | Claim(w: WorkerId, key: LegKey)
    | Submit(w: WorkerId)
    | Unauthorised(w: WorkerId)      // a 401: refused, the worker will resubmit once with a fresh token
    | Reply(w: WorkerId, answer: Answer)
    | Settle(w: WorkerId)            // record the answer
    | Crash(w: WorkerId)
    // the bank
    | Refuse(i: nat)
    | TakeOn(i: nat)
    | Execute(i: nat)
    | Reverse(i: nat)
    | NoticePaid(i: nat)
    | NoticeFailed(i: nat)
    // funding
    | Receive(w: WorkerId, event: EventId)
    | Look(w: WorkerId, id: PocketId, paid: int)
    | Pull(w: WorkerId, id: PocketId, paid: int)
    | Credit(w: WorkerId, now: Time)
    | Recheck(w: WorkerId)
    | Mark(w: WorkerId)
    | Drop(w: WorkerId)
    // cancelling
    | ReadForCancel(w: WorkerId, id: PocketId, role: Role)
    | CommitCancel(w: WorkerId, now: Time)
    | GiveUp(w: WorkerId)

  // ---------------------------------------------------------------- reading the state

  predicate KeyIn(db: Db, key: LegKey) {
    key.pocket in db && key.slot in db[key.pocket].legs
  }

  function LegAt(db: Db, key: LegKey): Leg
    requires KeyIn(db, key)
  {
    db[key.pocket].legs[key.slot]
  }

  function WorkerAt(s: Sys, w: WorkerId): Worker { if w in s.workers then s.workers[w] else Idle }

  function CancellerAt(s: Sys, w: WorkerId): Canceller { if w in s.cancellers then s.cancellers[w] else Away }

  function IngesterAt(s: Sys, w: WorkerId): Ingester { if w in s.ingesters then s.ingesters[w] else Off }

  /** One conditional UPDATE on a settlements row. */
  function UpdateLeg(db: Db, key: LegKey, u: Update): Db
    requires KeyIn(db, key)
  {
    var s, leg := db[key.pocket], LegAt(db, key);
    db[key.pocket := s.(legs := s.legs[key.slot := leg.(status := Updated(leg.status, u))])]
  }

  /** How payLeg records an answer; an ambiguous one leaves the leg inflight. */
  function UpdateFor(answer: Answer): Option<Update> {
    match answer
    case Accepted => Some(ConfirmLeg)
    case Rejected => Some(FailLeg)
    case NotSubmitted => Some(ReleaseLeg)
    case Ambiguous => None
  }

  // ---------------------------------------------------------------- steps

  /** The bank's verdicts: from the wire it refuses, takes on or executes; what it took on it may still
      execute, and what it took on or executed it may send back. */
  predicate Judges(from: Verdict, to: Verdict) {
    match from
    case OnWire => to.Refused? || to.Taken? || to.Executed?
    case Taken => to.Executed? || to.Reversed?
    case Executed => to.Reversed?
    case _ => false
  }

  function Judge(s: Sys, i: nat, verdict: Verdict): (t: Sys)
    ensures t == s.(ledger := t.ledger)
  {
    if i < |s.ledger| && Judges(s.ledger[i].verdict, verdict)
    then s.(ledger := s.ledger[i := s.ledger[i].(verdict := verdict)]) else s
  }

  function Next(pol: Policy, s: Sys, step: Step): Sys {
    match step
    case Create(id, terms, user, now) =>
      var result := CreateDraft(pol, terms, user, now);
      if id in s.db || result.Err? then s else s.(db := s.db[id := result.value])
    case Write(id, op) =>
      // creditFunding and Cancel take several steps, below; of funding here only the sandbox shortcut,
      // which states no amount
      if id !in s.db || op.CancelOp? || (op.CreditFundingOp? && op.paid != 0) || Exec(pol, s.db[id], op).Err? then s
      else s.(db := s.db[id := Exec(pol, s.db[id], op).value])
    case Claim(w, key) =>
      if !WorkerAt(s, w).Idle? || !KeyIn(s.db, key) || !LegAt(s.db, key).status.Pending? then s
      else s.(db := UpdateLeg(s.db, key, ClaimLeg), workers := s.workers[w := Claimed(key)])
    case Submit(w) =>
      var at := WorkerAt(s, w);
      if !at.Claimed? || !KeyIn(s.db, at.key) then s
      else s.(ledger := s.ledger + [Transfer(at.key, LegAt(s.db, at.key).amountKobo, OnWire)],
              workers := s.workers[w := Waiting(at.key, |s.ledger|)])
    case Unauthorised(w) =>
      var at := WorkerAt(s, w);
      if at.Waiting? && at.transfer < |s.ledger| && s.ledger[at.transfer].verdict.Refused?
      then s.(workers := s.workers[w := Claimed(at.key)]) else s
    case Reply(w, answer) =>
      var at := WorkerAt(s, w);
      if at.Claimed? && !answer.Accepted? then s.(workers := s.workers[w := Returned(at.key, answer, 0)])
      else if at.Waiting? && at.transfer < |s.ledger|
              && (answer.Accepted? ==> s.ledger[at.transfer].verdict.TakenOn())
              && (answer.Rejected?
                  ==> s.ledger[at.transfer].verdict.Refused? || s.ledger[at.transfer].verdict.Reversed?)
              && !answer.NotSubmitted?
      then s.(workers := s.workers[w := Returned(at.key, answer, at.transfer)])
      else s
    case Settle(w) =>
      var at := WorkerAt(s, w);
      if !at.Returned? || !KeyIn(s.db, at.key) then s
      else
        var u := UpdateFor(at.answer);
        s.(db := if u.Some? then UpdateLeg(s.db, at.key, u.value) else s.db, workers := s.workers[w := Idle])
    case Crash(w) => s.(workers := s.workers[w := Idle])
    case Refuse(i) => Judge(s, i, Refused)
    case TakeOn(i) => Judge(s, i, Taken)
    case Execute(i) => Judge(s, i, Executed)
    case Reverse(i) => Judge(s, i, Reversed)
    case NoticePaid(i) =>
      // truthful when sent: deliveries may repeat and come late, even after the money was sent back
      if i < |s.ledger| && (s.ledger[i].verdict.Executed? || s.ledger[i].verdict.Reversed?)
         && KeyIn(s.db, s.ledger[i].key)
      then s.(db := UpdateLeg(s.db, s.ledger[i].key, ConfirmLeg)) else s
    case NoticeFailed(i) =>
      // truthful: about a transfer the bank refused or sent back
      if i < |s.ledger| && (s.ledger[i].verdict.Refused? || s.ledger[i].verdict.Reversed?)
         && KeyIn(s.db, s.ledger[i].key)
      then s.(db := UpdateLeg(s.db, s.ledger[i].key, FailLeg)) else s
    case Receive(w, event) =>
      if !IngesterAt(s, w).Off? then s
      else if event !in s.hooks then
        s.(hooks := s.hooks[event := None], ingesters := s.ingesters[w := Received(event)])
      else if s.hooks[event].None? then s.(ingesters := s.ingesters[w := Received(event)])
      else s
    case Look(w, id, paid) =>
      if IngesterAt(s, w).Received? && id in s.db
      then s.(ingesters := s.ingesters[w := Check(pol, s, Some(IngesterAt(s, w).hook), id, paid)]) else s
    case Pull(w, id, paid) =>
      if IngesterAt(s, w).Off? && id in s.db
      then s.(ingesters := s.ingesters[w := Check(pol, s, None, id, paid)]) else s
    case Credit(w, now) =>
      var at := IngesterAt(s, w);
      if !at.Checked? || at.pocket !in s.db then s
      else
        var result := Exec(pol, s.db[at.pocket], CreditFundingOp(at.paid, now));
        if result.Err? then s.(ingesters := s.ingesters[w := Rechecking(at.event, at.pocket)])
        else s.(db := s.db[at.pocket := result.value],
                ingesters := s.ingesters[w := Credited(at.event, at.pocket)])
    case Recheck(w) =>
      var at := IngesterAt(s, w);
      if !at.Rechecking? || at.pocket !in s.db then s
      else if FundingApplied(s.db[at.pocket].row.state)
      then s.(ingesters := s.ingesters[w := Credited(at.event, at.pocket)])
      else s.(ingesters := s.ingesters[w := Off])
    case Mark(w) =>
      var at := IngesterAt(s, w);
      if !at.Credited? then s
      else s.(hooks := if at.event.Some? then s.hooks[at.event.value := Some(at.pocket)] else s.hooks,
              ingesters := s.ingesters[w := Off])
    case Drop(w) => s.(ingesters := s.ingesters[w := Off])
    case ReadForCancel(w, id, role) =>
      if !CancellerAt(s, w).Away? || id !in s.db || (s.db[id].row.state.Funded? && !role.Vendor?) then s
      else s.(cancellers := s.cancellers[w := Decided(id, role)])
    case CommitCancel(w, now) =>
      var at := CancellerAt(s, w);
      if !at.Decided? || at.pocket !in s.db then s
      else
        var result := Exec(pol, s.db[at.pocket], CancelOp(at.role, now));
        s.(db := if result.Ok? then s.db[at.pocket := result.value] else s.db, cancellers := s.cancellers[w := Away])
    case GiveUp(w) => s.(cancellers := s.cancellers[w := Away])
  }

  /** creditFunding's underpayment check, outside any lock. */
  function Check(pol: Policy, s: Sys, event: Option<EventId>, id: PocketId, paid: int): Ingester
    requires id in s.db
  {
    if paid > 0 && paid < BuyerTotalKobo(Load(pol, s.db[id].row)) then Off else Checked(event, id, paid)
  }

  // ---------------------------------------------------------------- what a step does to the tables

  datatype Change =
    | Same
    | Drafted(id: PocketId, slice: Slice)
    | Written(id: PocketId, op: Op)
    | Marked(key: LegKey, update: Update)

  function ChangeOf(pol: Policy, s: Sys, step: Step): Change {
    match step
    case Create(id, terms, user, now) =>
      var result := CreateDraft(pol, terms, user, now);
      if id in s.db || result.Err? then Same else Drafted(id, result.value)
    case Write(id, op) =>
      if op.CancelOp? || (op.CreditFundingOp? && op.paid != 0) then Same else WrittenIfOk(pol, s.db, id, op)
    case Credit(w, now) =>
      var at := IngesterAt(s, w);
      if at.Checked? then WrittenIfOk(pol, s.db, at.pocket, CreditFundingOp(at.paid, now)) else Same
    case CommitCancel(w, now) =>
      var at := CancellerAt(s, w);
      if at.Decided? then WrittenIfOk(pol, s.db, at.pocket, CancelOp(at.role, now)) else Same
    case Claim(w, key) =>
      if WorkerAt(s, w).Idle? && KeyIn(s.db, key) && LegAt(s.db, key).status.Pending?
      then Marked(key, ClaimLeg) else Same
    case Settle(w) =>
      var at := WorkerAt(s, w);
      if at.Returned? && KeyIn(s.db, at.key) && UpdateFor(at.answer).Some?
      then Marked(at.key, UpdateFor(at.answer).value) else Same
    case NoticePaid(i) =>
      if i < |s.ledger| && (s.ledger[i].verdict.Executed? || s.ledger[i].verdict.Reversed?)
         && KeyIn(s.db, s.ledger[i].key)
      then Marked(s.ledger[i].key, ConfirmLeg) else Same
    case NoticeFailed(i) =>
      if i < |s.ledger| && (s.ledger[i].verdict.Refused? || s.ledger[i].verdict.Reversed?)
         && KeyIn(s.db, s.ledger[i].key)
      then Marked(s.ledger[i].key, FailLeg) else Same
    case _ => Same
  }

  function WrittenIfOk(pol: Policy, db: Db, id: PocketId, op: Op): Change {
    if id in db && Exec(pol, db[id], op).Ok? then Written(id, op) else Same
  }

  predicate Fits(pol: Policy, db: Db, c: Change) {
    match c
    case Same => true
    case Drafted(id, _) => id !in db
    case Written(id, op) => id in db && Exec(pol, db[id], op).Ok?
    case Marked(key, _) => KeyIn(db, key)
  }

  function Changed(pol: Policy, db: Db, c: Change): Db
    requires Fits(pol, db, c)
  {
    match c
    case Same => db
    case Drafted(id, slice) => db[id := slice]
    case Written(id, op) => db[id := Exec(pol, db[id], op).value]
    case Marked(key, u) => UpdateLeg(db, key, u)
  }

  predicate WritesTables(step: Step) { step.Create? || step.Write? || step.Credit? || step.CommitCancel? }

  lemma WriteStepChanges(pol: Policy, s: Sys, step: Step)
    requires WritesTables(step)
    ensures Fits(pol, s.db, ChangeOf(pol, s, step))
    ensures Next(pol, s, step).db == Changed(pol, s.db, ChangeOf(pol, s, step))
    ensures ChangeOf(pol, s, step).Drafted? ==>
              step.Create? && CreateDraft(pol, step.terms, step.user, step.now) == Ok(ChangeOf(pol, s, step).slice)
    ensures Next(pol, s, step).workers == s.workers && Next(pol, s, step).ledger == s.ledger
  {
    hide Exec, CreateDraft;
  }

  lemma OtherStepChanges(pol: Policy, s: Sys, step: Step)
    requires !WritesTables(step)
    ensures ChangeOf(pol, s, step).Same? || ChangeOf(pol, s, step).Marked?
    ensures Fits(pol, s.db, ChangeOf(pol, s, step))
    ensures Next(pol, s, step).db == Changed(pol, s.db, ChangeOf(pol, s, step))
  {
    hide UpdateLeg, Check, Judge;
  }

  /** Every step changes the tables in one of four ways: not at all, by a new draft, by one write of the
      application to one pocket, or by one update of a leg's status. */
  lemma StepChanges(pol: Policy, s: Sys, step: Step)
    ensures Fits(pol, s.db, ChangeOf(pol, s, step))
    ensures Next(pol, s, step).db == Changed(pol, s.db, ChangeOf(pol, s, step))
    ensures ChangeOf(pol, s, step).Drafted? ==>
              step.Create? && CreateDraft(pol, step.terms, step.user, step.now) == Ok(ChangeOf(pol, s, step).slice)
    ensures WritesTables(step) ==> Next(pol, s, step).workers == s.workers && Next(pol, s, step).ledger == s.ledger
  {
    hide Next, ChangeOf, Fits, Changed, WritesTables;
    if WritesTables(step) { WriteStepChanges(pol, s, step); } else { OtherStepChanges(pol, s, step); }
  }

  /** The state after any sequence of steps from the empty system. */
  function After(pol: Policy, steps: seq<Step>): Sys {
    if steps == [] then EMPTY else Next(pol, After(pol, steps[..|steps| - 1]), steps[|steps| - 1])
  }
}
