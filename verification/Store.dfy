/** The database as the store changes it in place. Every table's rows are grouped by pocket; a statement
    rewrites one table of one pocket, and every transaction is a method whose commit is the function
    Records gives for it. One caller at a time: interleaved callers are the matter of Serial and System. */
module Database {
  import opened Int64
  import opened Results
  import opened PocketMachine
  import opened LegStatus
  import opened Records
  import opened Invariants
  import opened Drafts
  import opened UseCases
  import opened System

  datatype WriteResult = WriteResult(pocket: PocketId, from: State, out: PocketMachine.Outcome)

  /** A commit replaces one pocket's rows by those of the result; an error changes nothing. */
  ghost predicate Commits(before: Db, id: PocketId, result: Result<Slice>, after: Db) {
    after == if result.Ok? then before[id := result.value] else before
  }

  /** ... and the caller learns which. */
  ghost predicate Reports<T>(result: Result<Slice>, res: Result<T>) {
    if result.Ok? then res.Ok? else res == Err(result.error)
  }

  ghost predicate Wrote(before: Db, id: PocketId, result: Result<Slice>, after: Db, res: Result<WriteResult>) {
    && Commits(before, id, result, after) && Reports(result, res)
    && (res.Ok? ==> res.value.pocket == id)
  }

  /** A settlements row as the disbursing queries return it. */
  datatype SettlementLeg = SettlementLeg(key: LegKey, amountKobo: int64)

  predicate HasStatus(db: Db, key: LegKey, status: Status) {
    KeyIn(db, key) && LegAt(db, key).status == status
  }

  /** The legs of a status, of one pocket or of all. */
  function KeysWithStatus(db: Db, of: Option<PocketId>, status: Status): (keys: set<LegKey>)
    ensures forall key :: key in keys <==> HasStatus(db, key, status) && (of.None? || of.value == key.pocket)
  {
    set id, slot | id in db && slot in db[id].legs && db[id].legs[slot].status == status && (of.None? || of.value == id)
      :: LegKey(id, slot)
  }

  /** Some of the legs, none twice, each with its recorded amount. */
  ghost predicate ListsSome(legs: seq<SettlementLeg>, db: Db, keys: set<LegKey>) {
    && (forall i :: 0 <= i < |legs| ==>
          legs[i].key in keys && KeyIn(db, legs[i].key) && legs[i].amountKobo == LegAt(db, legs[i].key).amountKobo)
    && (forall i, j :: 0 <= i < j < |legs| ==> legs[i].key != legs[j].key)
  }

  /** A query's answer: all of them. */
  ghost predicate Lists(legs: seq<SettlementLeg>, db: Db, keys: set<LegKey>) {
    && ListsSome(legs, db, keys)
    && (forall key :: key in keys ==> exists i :: 0 <= i < |legs| && legs[i].key == key)
  }

  lemma ListsNothing(db: Db)
    ensures Lists([], db, {})
  {
  }

  lemma ListsOneMore(legs: seq<SettlementLeg>, db: Db, keys: set<LegKey>, key: LegKey)
    requires Lists(legs, db, keys) && key !in keys && KeyIn(db, key)
    ensures Lists(legs + [SettlementLeg(key, LegAt(db, key).amountKobo)], db, keys + {key})
  {
    var more := legs + [SettlementLeg(key, LegAt(db, key).amountKobo)];
    assert more[|legs|].key == key;
    forall k | k in keys ensures exists i :: 0 <= i < |more| && more[i].key == k {
      var i :| 0 <= i < |legs| && legs[i].key == k;
      assert more[i].key == k;
    }
  }

  /** What a cancel leaves behind: CANCELLED and no money moved, or REFUNDED from FUNDED with the buyer's total
      on its way back. */
  ghost predicate Cancels(pol: Policy, s: Slice, t: Slice) {
    if s.row.state.Funded? then
      && t.row.state.Refunded?
      && LegSlot(Refund, Buyer) in t.legs
      && (LegSlot(Refund, Buyer) !in s.legs ==>
            t.legs == s.legs[LegSlot(Refund, Buyer) := Leg(BuyerTotalKobo(Load(pol, s.row)), LegStatus.Pending)])
    else t.row.state.Cancelled? && t.legs == s.legs && (s.row.state.Draft? || s.row.state.Created?)
  }

  lemma CancelCloses(pol: Policy, s: Slice, actor: Role, now: Time)
    ensures CancelTx(pol, s, actor, now).Ok? ==> Cancels(pol, s, CancelTx(pol, s, actor, now).value)
  {
    if CancelTx(pol, s, actor, now).Ok? && !s.row.state.Draft? {
      hide Transition, RecordLegs, RecordDispute, Load;
      var p, ev := Load(pol, s.row), Plain(if s.row.state.Funded? then VendorCancel else EventKind.Cancel);
      LoadKeepsState(pol, s.row);
      MachineFollowsTable(p, now, ev);
      MoneyEffects(p, now, ev);
      var es := Transition(p, now, ev).value.effects;
      if s.row.state.Funded? { OnlyFirstMovesMoney(s.legs, es); } else { NothingMovesMoney(s.legs, es); }
    }
  }

  /** The pocket's funding link was minted under this reference. */
  predicate LinkedTo(db: Db, links: map<PocketId, string>, ref: string, id: PocketId) {
    ref != "" && id in db && id in links && links[id] == ref
  }

  /** CREATED pockets with a link whose funding window is open. */
  function Awaiting(db: Db, links: map<PocketId, string>, now: Time): set<PocketId> {
    set id | id in db && id in links && db[id].row.state.Created?
             && (db[id].row.fundingExpiresAt.None? || now < db[id].row.fundingExpiresAt.value)
  }

  predicate AwaitingList(ids: seq<PocketId>, db: Db, links: map<PocketId, string>, now: Time) {
    && |ids| <= 100
    && (forall i :: 0 <= i < |ids| ==> ids[i] in Awaiting(db, links, now))
    && (forall i, j :: 0 <= i < j < |ids| ==> ids[i] != ids[j])
    && (|ids| < 100 ==> forall id :: id in Awaiting(db, links, now) ==> id in ids)
  }

  lemma LoadKeepsState(pol: Policy, r: Row)
    ensures Load(pol, r).state == r.state
  {
  }

  class Store {
    const policy: Policy
    var rows: Db
    var webhooks: map<EventId, bool>   // whether processed_at is set
    var links: map<PocketId, string>  // funding_link_ref, the one column only an effect writes

    constructor (policy: Policy)
      ensures this.policy == policy && rows == map[] && webhooks == map[] && links == map[]
    {
      this.policy := policy;
      rows, webhooks, links := map[], map[], map[];
    }

    // -------------------------------------------------------------- statements inside a transaction

    method UpdatePocketTx(id: PocketId, p: Pocket, expectedVersion: int) returns (err: Option<Error>)
      requires id in rows
      modifies this`rows
      ensures old(rows)[id].row.version == expectedVersion ==>
                err.None? && rows == old(rows)[id := old(rows)[id].(row := Save(old(rows)[id].row, p))]
      ensures old(rows)[id].row.version != expectedVersion ==> err == Some(Conflict) && rows == old(rows)
    {
      var row := rows[id].row;
      if row.version != expectedVersion {
        return Some(Conflict);
      }
      rows := rows[id := rows[id].(row := Save(row, p))];
      err := None;
    }

    method InsertEventTx(id: PocketId, entry: LogRow)
      requires id in rows
      modifies this`rows
      ensures rows == old(rows)[id := old(rows)[id].(log := old(rows)[id].log + [entry])]
    {
      rows := rows[id := rows[id].(log := rows[id].log + [entry])];
    }

    /** ON CONFLICT (idempotency_key) DO NOTHING. */
    method InsertSettlementLegTx(id: PocketId, slot: LegSlot, amountKobo: int64)
      requires id in rows
      modifies this`rows
      ensures rows == old(rows)[id := old(rows)[id].(legs := InsertLeg(old(rows)[id].legs, slot, amountKobo))]
    {
      if slot !in rows[id].legs {
        rows := rows[id := rows[id].(legs := rows[id].legs[slot := Leg(amountKobo, LegStatus.Pending)])];
      }
    }

    /** One pending leg for each money effect, in the transition's own transaction. */
    method RecordSettlementLegsTx(id: PocketId, effects: seq<Effect>)
      requires id in rows
      modifies this`rows
      ensures rows == old(rows)[id := old(rows)[id].(legs := RecordLegs(old(rows)[id].legs, effects))]
    {
      ghost var s := rows[id];
      for i := 0 to |effects|
        invariant rows == old(rows)[id := s.(legs := RecordLegs(s.legs, effects[..i]))]
      {
        assert effects[..i + 1][..i] == effects[..i];
        match effects[i] {
          case SchedulePayout(plan) =>
            ghost var legs := rows[id].legs;
            for j := 0 to |plan|
              invariant rows == old(rows)[id := s.(legs := InsertPayouts(legs, plan[..j]))]
            {
              assert plan[..j + 1][..j] == plan[..j];
              InsertSettlementLegTx(id, LegSlot(Payout, plan[j].role), plan[j].amountKobo);
            }
            assert plan[..|plan|] == plan;
          case ExecuteRefund(role, amountKobo) =>
            InsertSettlementLegTx(id, LegSlot(Refund, role), amountKobo);
          case _ =>
        }
      }
      assert effects[..|effects|] == effects;
    }

    method RecordDisputeTx(id: PocketId, actor: Actor, from: State, out: PocketMachine.Outcome)
      requires id in rows
      modifies this`rows
      ensures rows == old(rows)[id := old(rows)[id].(dispute :=
                        RecordDispute(old(rows)[id].dispute, actor, from, out.pocket.state, out.pocket.disputeClass))]
    {
      var to, dispute := out.pocket.state, rows[id].dispute;
      if to.Disputed? && !from.Disputed? {
        if dispute.None? {
          rows := rows[id := rows[id].(dispute := Some(Dispute(out.pocket.disputeClass, actor, None)))];
        }
      } else if from.Disputed? && (to.Refunded? || to.Settled?) {
        var resolution := ByRefund;
        if to.Settled? {
          resolution := ByPayout;
        }
        if dispute.Some? && dispute.value.resolution.None? {
          rows := rows[id := rows[id].(dispute := Some(dispute.value.(resolution := Some(resolution))))];
        }
      }
    }

    /** The shared body of every transition: guard, guarded update, event, legs, dispute. */
    method ApplyTransitionTx(id: PocketId, actor: Actor, rec: Record, now: Time, ev: Event, paid: int)
      returns (res: Result<WriteResult>)
      requires id in rows
      modifies this`rows
      ensures Wrote(old(rows), id, ApplyTransition(old(rows)[id], rec, actor, now, ev, paid), rows, res)
      ensures res.Ok? ==> Transition(rec.pocket, now, ev) == Ok(res.value.out) && res.value.from == rec.pocket.state
    {
      hide Transition, Save, RecordLegs, RecordDispute;
      var guarded := Transition(rec.pocket, now, ev);
      if guarded.Err? {
        return Err(guarded.error);
      }
      var out := guarded.value;
      var err := UpdatePocketTx(id, out.pocket, rec.version);
      if err.Some? {
        return Err(err.value);
      }
      InsertEventTx(id, LogRow(actor, rec.pocket.state, out.pocket.state, EventRow(ev), now, paid));
      RecordSettlementLegsTx(id, out.effects);
      RecordDisputeTx(id, actor, rec.pocket.state, out);
      return Ok(WriteResult(id, rec.pocket.state, out));
    }

    // -------------------------------------------------------------- transactions

    method RunTransition(id: PocketId, actor: Actor, now: Time, ev: Event, paid: int) returns (res: Result<WriteResult>)
      modifies this`rows
      ensures id !in old(rows) ==> res == Err(NotFound) && rows == old(rows)
      ensures id in old(rows) ==>
                Wrote(old(rows), id, Records.RunTransition(policy, old(rows)[id], actor, now, ev, paid), rows, res)
      ensures res.Ok? ==>
                && Transition(Load(policy, old(rows)[id].row), now, ev) == Ok(res.value.out)
                && res.value.from == old(rows)[id].row.state
    {
      hide ApplyTransition, Transition;
      if id !in rows {
        return Err(NotFound);
      }
      if rows[id].row.state.Draft? {
        return Err(IllegalState);
      }
      res := ApplyTransitionTx(id, actor, Read(policy, rows[id]), now, ev, paid);
    }

    /** Cancel: closes an unfunded pocket for nothing, and refunds a FUNDED one in full. */
    method Cancel(id: PocketId, actor: Role, now: Time) returns (res: Result<WriteResult>)
      modifies this`rows
      ensures id !in old(rows) ==> res == Err(NotFound) && rows == old(rows)
      ensures res.Ok? ==> id in old(rows) && id in rows && Cancels(policy, old(rows)[id], rows[id])
      ensures id in old(rows) ==> Wrote(old(rows), id, CancelTx(policy, old(rows)[id], actor, now), rows, res)
      ensures res.Ok? ==>
                var r := old(rows)[id].row;
                if r.state.Draft? then res.value.out.effects == []
                else Transition(Load(policy, r), now, Plain(if r.state.Funded? then VendorCancel else EventKind.Cancel))
                     == Ok(res.value.out)
    {
      hide ApplyTransition, Transition, Cancels;
      if id !in rows {
        return Err(NotFound);
      }
      CancelCloses(policy, rows[id], actor, now);
      var rec := Read(policy, rows[id]);
      match rec.pocket.state {
        case Draft =>
          var next := rec.pocket.(state := Cancelled);
          var _ := UpdatePocketTx(id, next, rec.version);
          InsertEventTx(id, LogRow(Party(actor), Draft, Cancelled, EventRow(Plain(EventKind.Cancel)), now, 0));
          return Ok(WriteResult(id, Draft, Outcome.Outcome(next, [])));
        case Created =>
          res := ApplyTransitionTx(id, Party(actor), rec, now, Plain(EventKind.Cancel), 0);
        case Funded =>
          res := ApplyTransitionTx(id, Party(actor), rec, now, Plain(VendorCancel), 0);
        case _ =>
          return Err(IllegalState);
      }
    }

    /** sweepOne: at most one due pocket, advanced in the same transaction. A pocket the scan
        claims never errors. */
    method SweepOne(rule: Rule, now: Time) returns (res: Option<WriteResult>)
      modifies this`rows
      ensures res.None? ==> rows == old(rows) && forall id :: id in rows ==> !Due(rule, rows[id].row, now)
      ensures res.Some? ==>
                var id := res.value.pocket;
                && id in old(rows) && Due(rule, old(rows)[id].row, now)
                && SweepTx(policy, old(rows)[id], rule, now).Ok?
                && rows == old(rows)[id := SweepTx(policy, old(rows)[id], rule, now).value]
                && Transition(Load(policy, old(rows)[id].row), now, RuleEvent(rule)) == Ok(res.value.out)
    {
      hide Transition, ApplyTransition, Due;
      if forall id :: id in rows ==> !Due(rule, rows[id].row, now) {
        return None;
      }
      var id :| id in rows && Due(rule, rows[id].row, now);
      DuePocketAdvances(policy, rows[id], rule, now);
      var written := ApplyTransitionTx(id, Actor.System, Read(policy, rows[id]), now, RuleEvent(rule), 0);
      res := Some(written.value);
    }

    method AttestNonReceipt(id: PocketId, now: Time) returns (res: Result<bool>)
      modifies this`rows
      ensures id !in old(rows) ==> res == Err(IllegalState) && rows == old(rows)
      ensures id in old(rows) ==>
                Commits(old(rows), id, AttestTx(old(rows)[id], now), rows) && Reports(AttestTx(old(rows)[id], now), res)
    {
      if id !in rows || !rows[id].row.state.Frozen? {
        return Err(IllegalState);
      }
      if rows[id].row.attestedAt.None? {
        rows := rows[id := rows[id].(row := rows[id].row.(attestedAt := Some(now)))];
      }
      res := Ok(true);
    }

    // -------------------------------------------------------------- the draft phase

    /** CreatePocket: the row, guarded by the buyer_total check, and a seat for every role. The draft was
        validated by the use case; the id is the one the database generated. */
    method CreatePocket(id: PocketId, t: Terms, user: string, now: Time) returns (res: Result<PocketId>)
      requires Acceptable(policy, t) && user != "" && id !in rows
      modifies this`rows
      ensures if TotalFits(t) then
                res == Ok(id) && id in rows && rows == old(rows)[id := rows[id]] && Proposed(t, user, now, rows[id])
              else res == Err(CheckViolation) && rows == old(rows)
      ensures Commits(old(rows), id, CreateDraft(policy, t, user, now), rows)
      ensures Reports(CreateDraft(policy, t, user, now), res) && (res.Ok? ==> res.value == id)
    {
      CreationAsTabled(policy, t, user, now);
      hide Acceptable, TotalFits, Proposed, ValidSpec, ProtectionPremiumKobo, Minutes, Wrap;
      var premium := ProtectionPremiumKobo(Wrap(t.amountKobo + t.commissionKobo));
      var buyerTotal := Wrap(Wrap(t.amountKobo + t.commissionKobo) + premium);
      if buyerTotal != t.amountKobo + t.commissionKobo + premium {
        WrappedTotalIsCaught(t.amountKobo + t.commissionKobo, premium);
        return Err(CheckViolation);
      }
      var row := Row(
        t.structure, t.creatorRole, t.mode, t.amountKobo, t.commissionKobo, premium, buyerTotal,
        Minutes(t.inspectionWindow), Minutes(t.deliveryWindow), Draft, 0, false, None, None, None, None, 1, None);
      var roles := ParticipantRoles(t.structure);
      var seats: map<Role, Seat> := map[];
      for i := 0 to |roles|
        invariant seats == map r | r in roles[..i] :: DraftSeat(r, t, user, now)
      {
        var seat := Seat("", None);
        if roles[i] == t.creatorRole {
          seat := Seat(user, Some(now));
        }
        seats := seats[roles[i] := seat];
        assert roles[..i + 1] == roles[..i] + [roles[i]];
      }
      assert roles[..|roles|] == roles;
      rows := rows[id := Slice(row, seats, [], map[], None)];
      res := Ok(id);
    }

    lemma WrappedTotalIsCaught(goods: int, premium: int)
      requires goods >= 0 && premium >= 0 && Wrap(Wrap(goods) + premium) != goods + premium
      ensures goods + premium > Int64.MAX
    {
      WrapAbsorbs(goods, 1, premium);
    }

    /** The scan over a pocket's seats for one the user already holds. */
    method FindSeat(seats: map<Role, Seat>, user: string) returns (holds: bool)
      ensures holds == HoldsSeat(seats, user)
    {
      var rest := seats.Keys;
      while rest != {}
        invariant rest <= seats.Keys
        invariant forall r :: r in seats && r !in rest ==> seats[r].user != user
        decreases rest
      {
        var role :| role in rest;
        if seats[role].user == user {
          return true;
        }
        rest := rest - {role};
      }
      holds := false;
    }

    /** Claim: the user ends up in this seat; a fresh claim leaves every other seat to other accounts. */
    method Claim(id: PocketId, role: Role, user: string) returns (res: Result<bool>)
      requires user != ""
      modifies this`rows
      ensures res.Ok? ==>
                && id in old(rows) && id in rows && role in rows[id].seats && rows[id].seats[role].user == user
                && rows[id] == old(rows)[id].(seats := rows[id].seats)
                && (rows != old(rows) ==> forall r :: r in rows[id].seats && r != role ==>
                      rows[id].seats[r].user != user && r in old(rows)[id].seats
                          && rows[id].seats[r] == old(rows)[id].seats[r])
      ensures id !in old(rows) ==> res == Err(NotFound) && rows == old(rows)
      ensures id in old(rows) ==>
                && Commits(old(rows), id, ClaimSeat(old(rows)[id], role, user), rows)
                && Reports(ClaimSeat(old(rows)[id], role, user), res)
    {
      if id !in rows {
        return Err(NotFound);
      }
      if !rows[id].row.state.Draft? {
        return Err(IllegalState);
      }
      var seats := rows[id].seats;
      if role !in seats {
        return Err(NoSuchSeat);
      }
      if seats[role].user != "" {
        if seats[role].user == user {
          return Ok(true);
        }
        return Err(AlreadyClaimed);
      }
      var holds := FindSeat(seats, user);
      if holds {
        return Err(RoleConflict);
      }
      rows := rows[id := rows[id].(seats := seats[role := seats[role].(user := user)])];
      res := Ok(true);
    }

    /** Accept: the stamp is written before the last acceptance constructs the pocket, and rolled back with
        the transaction when that is refused. Some outcome reports completion. */
    method Accept(id: PocketId, role: Role, now: Time) returns (res: Result<Option<PocketMachine.Outcome>>)
      modifies this`rows
      ensures id !in old(rows) ==> res == Err(NotFound) && rows == old(rows)
      ensures id in old(rows) ==>
                && Commits(old(rows), id, AcceptSeat(policy, old(rows)[id], role, now), rows)
                && Reports(AcceptSeat(policy, old(rows)[id], role, now), res)
                && (res.Ok? ==> (res.value.Some? <==> rows[id].row.state.Created?))
      ensures res.Ok? && res.value.Some? ==>
                && res.value.value.effects == [CreateFundingLink(now + policy.fundingTTL)]
                && BuyerTotalKobo(res.value.value.pocket) == BuyerTotalKobo(Load(policy, old(rows)[id].row))
    {
      if id !in rows {
        return Err(NotFound);
      }
      var row, seats := rows[id].row, rows[id].seats;
      if !row.state.Draft? {
        return Err(IllegalState);
      }
      if role !in seats {
        return Err(NoSuchSeat);
      }
      if seats[role].user == "" {
        return Err(NotClaimed);
      }
      if seats[role].acceptedAt.Some? {
        return Err(AlreadyAccepted);
      }
      if row.structure.Brokered? && role.Buyer? && !RoleAccepted(seats, Vendor) {
        return Err(AwaitingVendor);
      }
      var saved := rows;
      rows := rows[id := rows[id].(seats := seats[role := seats[role].(acceptedAt := Some(now))])];
      if !AllAccepted(rows[id].seats) {
        return Ok(None);
      }
      var launched := New(now, SpecOf(policy, Load(policy, row)));
      if launched.Err? {
        rows := saved;
        return Err(launched.error);
      }
      var _ := UpdatePocketTx(id, launched.value.pocket, row.version);
      InsertEventTx(id, LogRow(Party(role), Draft, launched.value.pocket.state, CreatedRow, now, 0));
      res := Ok(Some(launched.value));
    }

    /** ConvertToBrokered: what the buyer pays is only split, the broker is bound and accepted, and nobody is
        in the vendor's seat or in two seats. */
    method ConvertToBrokered(id: PocketId, user: string, vendorKobo: int64, now: Time) returns (res: Result<bool>)
      requires user != "" && vendorKobo > 0
      modifies this`rows
      ensures res.Ok? ==>
                && id in old(rows) && id in rows
                && var was, r, seats := old(rows)[id].row, rows[id].row, rows[id].seats;
                && r.amountKobo + r.commissionKobo == was.amountKobo && r.amountKobo > 0 && r.commissionKobo > 0
                && (r.buyerTotalKobo, r.premiumKobo) == (was.buyerTotalKobo, was.premiumKobo)
                && Broker in seats && seats[Broker] == Seat(user, Some(now))
                && Vendor in seats && seats[Vendor].user == ""
                && (forall role :: role in seats && role != Broker ==> seats[role].user != user)
      ensures id !in old(rows) ==> res == Err(NotFound) && rows == old(rows)
      ensures id in old(rows) ==>
                && Commits(old(rows), id, Convert(old(rows)[id], user, vendorKobo, now), rows)
                && Reports(Convert(old(rows)[id], user, vendorKobo, now), res)
    {
      if id !in rows {
        return Err(NotFound);
      }
      var row, seats := rows[id].row, rows[id].seats;
      if !row.state.Draft? || !row.structure.P2P? || !row.creatorRole.Buyer? {
        return Err(IllegalState);
      }
      if vendorKobo >= row.amountKobo {
        return Err(InvalidSplit);
      }
      if Vendor !in seats {
        return Err(NoSuchSeat);
      }
      if seats[Vendor].user != "" {
        return Err(AlreadyClaimed);
      }
      var holds := FindSeat(seats, user);
      if holds {
        return Err(RoleConflict);
      }
      var commission := Wrap(row.amountKobo - vendorKobo);
      rows := rows[id := rows[id].(row := row.(
                     structure := Brokered, creatorRole := Broker, amountKobo := vendorKobo,
                     commissionKobo := commission, version := row.version + 1))];
      rows := rows[id := rows[id].(seats := seats[Broker := Seat(user, Some(now))])];
      InsertEventTx(id, LogRow(Party(Broker), Draft, Draft, ConvertedRow, now, 0));
      res := Ok(true);
    }

    // -------------------------------------------------------------- settlement legs

    /** One conditional update on a leg; an unknown key updates nothing. */
    method UpdateLegRow(key: LegKey, u: Update)
      modifies this`rows
      ensures rows == if KeyIn(old(rows), key) then UpdateLeg(old(rows), key, u) else old(rows)
    {
      if KeyIn(rows, key) {
        var s := rows[key.pocket];
        var leg := s.legs[key.slot];
        rows := rows[key.pocket := s.(legs := s.legs[key.slot := leg.(status := Updated(leg.status, u))])];
      }
    }

    method ClaimSettlementLeg(key: LegKey) returns (won: bool)
      modifies this`rows
      ensures won <==> HasStatus(old(rows), key, LegStatus.Pending)
      ensures rows == if won then UpdateLeg(old(rows), key, ClaimLeg) else old(rows)
    {
      won := HasStatus(rows, key, LegStatus.Pending);
      if won {
        UpdateLegRow(key, ClaimLeg);
      }
    }

    /** PendingSettlementLegs, of one pocket or of all, and InflightSettlementLegs. */
    method LegsWithStatus(of: Option<PocketId>, status: Status) returns (legs: seq<SettlementLeg>)
      ensures Lists(legs, rows, KeysWithStatus(rows, of, status))
    {
      hide Lists;
      var keys := KeysWithStatus(rows, of, status);
      legs := [];
      var rest := keys;
      assert Lists(legs, rows, keys - rest) by { ListsNothing(rows); assert keys - rest == {}; }
      while rest != {}
        invariant rest <= keys && Lists(legs, rows, keys - rest)
        decreases rest
      {
        var key :| key in rest;
        ListsOneMore(legs, rows, keys - rest, key);
        assert keys - (rest - {key}) == (keys - rest) + {key};
        legs := legs + [SettlementLeg(key, LegAt(rows, key).amountKobo)];
        rest := rest - {key};
      }
      assert keys - rest == keys;
    }

    // -------------------------------------------------------------- funding references

    method SetFundingLink(id: PocketId, ref: string)
      modifies this`links
      ensures links == if id in rows then old(links)[id := ref] else old(links)
    {
      if id in rows {
        links := links[id := ref];
      }
    }

    /** GetByFundingRef: a pocket whose link was minted under this reference; the column is not unique. */
    method GetByFundingRef(ref: string) returns (id: Option<PocketId>)
      ensures id.Some? ==> LinkedTo(rows, links, ref, id.value)
      ensures id.None? ==> forall other :: !LinkedTo(rows, links, ref, other)
    {
      if ref == "" || forall other :: other in links ==> !LinkedTo(rows, links, ref, other) {
        return None;
      }
      var found :| found in links && LinkedTo(rows, links, ref, found);
      id := Some(found);
    }

    /** PocketsAwaitingFunding: up to a hundred of the pockets worth asking about, none twice, and all of them
        when there are fewer. */
    method PocketsAwaitingFunding(now: Time) returns (ids: seq<PocketId>)
      ensures AwaitingList(ids, rows, links, now)
    {
      ids := [];
      var rest := Awaiting(rows, links, now);
      while rest != {} && |ids| < 100
        invariant rest <= Awaiting(rows, links, now) && |ids| <= 100
        invariant forall i :: 0 <= i < |ids| ==> ids[i] in Awaiting(rows, links, now) && ids[i] !in rest
        invariant forall i, j :: 0 <= i < j < |ids| ==> ids[i] != ids[j]
        invariant forall id :: id in Awaiting(rows, links, now) ==> id in rest || id in ids
        decreases rest
      {
        var id :| id in rest;
        rest := rest - {id};
        ids := ids + [id];
      }
    }

    // -------------------------------------------------------------- the replay table

    /** RecordWebhookEvent: recorded once; true while its processing has not completed. */
    method RecordWebhookEvent(event: EventId) returns (needsProcessing: bool)
      modifies this`webhooks
      ensures webhooks == if event in old(webhooks) then old(webhooks) else old(webhooks)[event := false]
      ensures needsProcessing <==> !(event in old(webhooks) && old(webhooks)[event])
    {
      if event !in webhooks {
        webhooks := webhooks[event := false];
      }
      needsProcessing := !webhooks[event];
    }

    method MarkWebhookProcessed(event: EventId)
      modifies this`webhooks
      ensures webhooks == if event in old(webhooks) then old(webhooks)[event := true] else old(webhooks)
    {
      if event in webhooks && !webhooks[event] {
        webhooks := webhooks[event := true];
      }
    }
  }
}
