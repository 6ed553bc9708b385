/** Optimistic commit without the row lock: transactions read a pocket, compute, and commit later under
    "version = the version read", interleaved in any order. */
module Serial {
  import opened Results
  import opened PocketMachine
  import opened Records

  /** One RunTransition call. */
  datatype Request = Request(actor: Actor, now: Time, ev: Event, paid: int)

  type TxId = nat

  datatype Action =
    | Begin(tx: TxId, request: Request)  // SELECT without FOR UPDATE
    | Commit(tx: TxId)                   // guard, UPDATE ... WHERE version = $, inserts
    | Attest(now: Time)                  // a write that bumps no version

  datatype Pending = Pending(rec: Record, request: Request)

  /** The tables, the open transactions, and the requests that won, in commit order. */
  datatype Shared = Shared(slice: Slice, open: map<TxId, Pending>, winners: seq<Action>)

  function Attempt(s: Slice, t: Pending): Result<Slice> {
    ApplyTransition(s, t.rec, t.request.actor, t.request.now, t.request.ev, t.request.paid)
  }

  function Act(pol: Policy, d: Shared, a: Action): Shared {
    match a
    case Begin(tx, request) => d.(open := d.open[tx := Pending(Read(pol, d.slice), request)])
    case Commit(tx) =>
      if tx !in d.open then d
      else
        var result := Attempt(d.slice, d.open[tx]);
        if result.Err? then d.(open := d.open - {tx})
        else Shared(result.value, d.open - {tx}, d.winners + [Begin(tx, d.open[tx].request)])
    case Attest(now) =>
      var result := AttestTx(d.slice, now);
      if result.Err? then d else Shared(result.value, d.open, d.winners + [a])
  }

  function Interleave(pol: Policy, d: Shared, actions: seq<Action>): Shared {
    if actions == [] then d
    else Act(pol, Interleave(pol, d, actions[..|actions| - 1]), actions[|actions| - 1])
  }

  /** Each winner alone, reading and committing with nothing in between. */
  function SerialStep(pol: Policy, s: Slice, a: Action): Result<Slice> {
    match a
    case Begin(_, r) => ApplyTransition(s, Read(pol, s), r.actor, r.now, r.ev, r.paid)
    case Attest(now) => AttestTx(s, now)
    case Commit(_) => Err(NotFound)
  }

  function SerialRun(pol: Policy, s: Slice, winners: seq<Action>): Result<Slice> {
    if winners == [] then Ok(s)
    else
      match SerialRun(pol, s, winners[..|winners| - 1])
      case Err(e) => Err(e)
      case Ok(before) => SerialStep(pol, before, winners[|winners| - 1])
  }

  /** A snapshot at the current version is the current pocket. */
  ghost predicate SnapshotsAgree(pol: Policy, d: Shared) {
    forall tx :: tx in d.open ==>
      && d.open[tx].rec.version <= d.slice.row.version
      && (d.open[tx].rec.version == d.slice.row.version ==> d.open[tx].rec == Read(pol, d.slice))
  }

  lemma WinnersBumpTheVersion(s: Slice, t: Pending)
    requires Attempt(s, t).Ok?
    ensures s.row.version == t.rec.version
    ensures Attempt(s, t).value.row.version == s.row.version + 1
  {
  }

  lemma ActKeepsSnapshots(pol: Policy, d: Shared, a: Action)
    requires SnapshotsAgree(pol, d)
    ensures SnapshotsAgree(pol, Act(pol, d, a))
  {
    if a.Commit? && a.tx in d.open && Attempt(d.slice, d.open[a.tx]).Ok? {
      WinnersBumpTheVersion(d.slice, d.open[a.tx]);
      hide Attempt;
    }
  }

  lemma ActIsSerial(pol: Policy, d: Shared, a: Action)
    requires SnapshotsAgree(pol, d)
    ensures var e := Act(pol, d, a);
            if e.winners == d.winners then e.slice == d.slice
            else |e.winners| == |d.winners| + 1 && e.winners[..|d.winners|] == d.winners
                 && SerialStep(pol, d.slice, e.winners[|d.winners|]) == Ok(e.slice)
  {
    if a.Commit? && a.tx in d.open && Attempt(d.slice, d.open[a.tx]).Ok? {
      WinnersBumpTheVersion(d.slice, d.open[a.tx]);
      hide ApplyTransition;
    }
  }

  lemma {:induction false} InterleavingKeepsSnapshots(pol: Policy, s: Slice, actions: seq<Action>)
    ensures SnapshotsAgree(pol, Interleave(pol, Shared(s, map[], []), actions))
  {
    if actions != [] {
      InterleavingKeepsSnapshots(pol, s, actions[..|actions| - 1]);
      ActKeepsSnapshots(pol, Interleave(pol, Shared(s, map[], []), actions[..|actions| - 1]), actions[|actions| - 1]);
    }
  }

  /** Serialisability: any interleaving leaves every table as the winners alone leave it, run one after
      the other in commit order, each with the outcome it had; losers change nothing. */
  lemma {:induction false} OptimisticCommitIsSerialisable(pol: Policy, s: Slice, actions: seq<Action>)
    ensures var d := Interleave(pol, Shared(s, map[], []), actions);
            SerialRun(pol, s, d.winners) == Ok(d.slice)
  {
    if actions != [] {
      var front, last := actions[..|actions| - 1], actions[|actions| - 1];
      var before := Interleave(pol, Shared(s, map[], []), front);
      OptimisticCommitIsSerialisable(pol, s, front);
      InterleavingKeepsSnapshots(pol, s, front);
      ActIsSerial(pol, before, last);
      hide Act, SnapshotsAgree;
    }
  }

  /** Transitions among the winners; an attestation bumps no version. */
  function Transitions(winners: seq<Action>): nat {
    if winners == [] then 0
    else Transitions(winners[..|winners| - 1]) + if winners[|winners| - 1].Begin? then 1 else 0
  }

  predicate OvertakenBetween(winners: seq<Action>, from: nat)
  {
    exists k :: from <= k < |winners| && winners[k].Begin?
  }

  /** The version a run has reached counts its winning transitions. */
  lemma {:induction false} VersionCountsWinners(pol: Policy, s: Slice, actions: seq<Action>)
    ensures var d := Interleave(pol, Shared(s, map[], []), actions);
            d.slice.row.version == s.row.version + Transitions(d.winners)
  {
    if actions != [] {
      var before := Interleave(pol, Shared(s, map[], []), actions[..|actions| - 1]);
      VersionCountsWinners(pol, s, actions[..|actions| - 1]);
      var d := Act(pol, before, actions[|actions| - 1]);
      assert d.winners != before.winners ==> d.winners[..|d.winners| - 1] == before.winners;
      hide Transition, Transitions;
      ActCountsItself(pol, before, actions[|actions| - 1]);
    }
  }

  lemma ActCountsItself(pol: Policy, d: Shared, a: Action)
    ensures Act(pol, d, a).slice.row.version - d.slice.row.version
         == Transitions(Act(pol, d, a).winners) - Transitions(d.winners)
    ensures d.winners <= Act(pol, d, a).winners
  {
    var e := Act(pol, d, a);
    if e.winners != d.winners {
      assert e.winners[..|e.winners| - 1] == d.winners;
    }
  }

  lemma {:induction false} WinnersGrow(pol: Policy, d: Shared, actions: seq<Action>)
    ensures d.winners <= Interleave(pol, d, actions).winners
  {
    if actions != [] {
      WinnersGrow(pol, d, actions[..|actions| - 1]);
      hide Act;
      ActCountsItself(pol, Interleave(pol, d, actions[..|actions| - 1]), actions[|actions| - 1]);
    }
  }

  lemma {:induction false} MoreTransitions(a: seq<Action>, b: seq<Action>)
    requires a <= b
    ensures Transitions(a) <= Transitions(b)
    ensures Transitions(a) < Transitions(b) <==> OvertakenBetween(b, |a|)
    decreases |b|
  {
    if |b| > |a| {
      var n := |b| - 1;
      MoreTransitions(a, b[..n]);
      assert OvertakenBetween(b, |a|) <==> OvertakenBetween(b[..n], |a|) || b[n].Begin? by {
        if OvertakenBetween(b, |a|) {
          var k :| |a| <= k < |b| && b[k].Begin?;
          assert k < n ==> b[..n][k].Begin?;
        }
        if OvertakenBetween(b[..n], |a|) {
          var k :| |a| <= k < n && b[..n][k].Begin?;
          assert b[k].Begin?;
        }
      }
    } else {
      assert a == b;
    }
  }

  lemma InterleaveConcat(pol: Policy, d: Shared, a: seq<Action>, b: seq<Action>)
    ensures Interleave(pol, d, a + b) == Interleave(pol, Interleave(pol, d, a), b)
  {
    if b == [] {
      assert a + b == a;
    } else {
      hide Act;
      InterleaveConcat(pol, d, a, b[..|b| - 1]);
      assert (a + b)[..|a + b| - 1] == a + b[..|b| - 1];
    }
  }

  predicate Touches(a: Action, tx: TxId) { (a.Begin? || a.Commit?) && a.tx == tx }

  lemma {:induction false} StaysOpen(pol: Policy, d: Shared, actions: seq<Action>, tx: TxId)
    requires tx in d.open && forall a :: a in actions ==> !Touches(a, tx)
    ensures tx in Interleave(pol, d, actions).open && Interleave(pol, d, actions).open[tx] == d.open[tx]
  {
    if actions != [] {
      hide Attempt, AttestTx;
      StaysOpen(pol, d, actions[..|actions| - 1], tx);
      assert !Touches(actions[|actions| - 1], tx);
    }
  }

  /** In every interleaving, a transaction that reads after the actions before and commits after the actions
      between loses if and only if some other transition won in between, or the guard refuses what it read;
      and a loser leaves every table alone. */
  lemma {:induction false} LosesIffOvertakenOrRefused(
    pol: Policy, s: Slice, before: seq<Action>, between: seq<Action>, tx: TxId, r: Request)
    requires forall a :: a in between ==> !Touches(a, tx)
    ensures var start := Shared(s, map[], []);
            var read := Interleave(pol, start, before);
            var now := Interleave(pol, start, before + ([Begin(tx, r)] + between));
            var after := Act(pol, now, Commit(tx));
            && (after.winners == now.winners
                <==> OvertakenBetween(now.winners, |read.winners|)
                     || Transition(Load(pol, read.slice.row), r.now, r.ev).Err?)
            && (after.winners == now.winners ==> after.slice == now.slice)
  {
    var start := Shared(s, map[], []);
    var read := Interleave(pol, start, before);
    var begun := Act(pol, read, Begin(tx, r));
    InterleaveConcat(pol, start, before, [Begin(tx, r)] + between);
    InterleaveConcat(pol, read, [Begin(tx, r)], between);
    OneAction(pol, read, Begin(tx, r));
    var now := Interleave(pol, begun, between);
    StaysOpen(pol, begun, between, tx);
    WinnersGrow(pol, begun, between);
    VersionCountsWinners(pol, s, before);
    VersionCountsWinners(pol, s, before + ([Begin(tx, r)] + between));
    MoreTransitions(read.winners, now.winners);
    hide Interleave, Transitions, OvertakenBetween;
    CommitLoses(pol, now, tx);
  }

  lemma OneAction(pol: Policy, d: Shared, a: Action)
    ensures Interleave(pol, d, [a]) == Act(pol, d, a)
  {
    assert [a][..0] == [];
  }

  lemma CommitLoses(pol: Policy, d: Shared, tx: TxId)
    requires tx in d.open
    ensures var t, after := d.open[tx], Act(pol, d, Commit(tx));
            && (after.winners == d.winners
                <==> d.slice.row.version != t.rec.version || Transition(t.rec.pocket, t.request.now, t.request.ev).Err?)
            && (after.winners == d.winners ==> after.slice == d.slice)
  {
    hide Transition;
    assert |d.winners + [Begin(tx, d.open[tx].request)]| == |d.winners| + 1;
  }
}
