/** Reading a pocket's audit log: counts, last occurrences, and the fold that rebuilds the pocket. */
module History {
  import opened Results
  import opened PocketMachine
  import opened Records

  datatype Tag = Launch | Conversion | Of(kind: EventKind)

  function TagOf(r: LogRow): Tag {
    match r.kind
    case CreatedRow => Launch
    case ConvertedRow => Conversion
    case EventRow(ev) => Of(ev.kind)
  }

  function CountOf(log: seq<LogRow>, tag: Tag): nat {
    if log == [] then 0
    else CountOf(log[..|log| - 1], tag) + if TagOf(log[|log| - 1]) == tag then 1 else 0
  }

  /** When the last row of this kind was committed. */
  function LastAt(log: seq<LogRow>, tag: Tag): Option<Time> {
    if log == [] then None
    else if TagOf(log[|log| - 1]) == tag then Some(log[|log| - 1].at)
    else LastAt(log[..|log| - 1], tag)
  }

  /** From and to states meet without gaps from DRAFT to the given state, and nothing leaves a terminal one. */
  predicate Chained(log: seq<LogRow>, state: State) {
    && (log == [] ==> state.Draft?)
    && (log != [] ==> log[0].from.Draft? && log[|log| - 1].to == state)
    && (forall i :: 0 < i < |log| ==> log[i].from == log[i - 1].to)
    && (forall i :: 0 <= i < |log| ==> !log[i].from.IsTerminal())
  }

  /** Commit times never ran backwards. */
  predicate Monotone(log: seq<LogRow>) {
    forall i :: 0 < i < |log| ==> log[i - 1].at <= log[i].at
  }

  /** The terms of a row as a pocket that has not started. */
  function Base(pol: Policy, r: Row): Pocket {
    Load(pol, r).(state := Draft, codeAttempts := 0, codeLocked := false,
                  deliveryDeadline := None, settleAfter := None,
                  graceDeadline := None, fundingExpiresAt := None)
  }

  /** What a pocket keeps across a save and a load. */
  function Persisted(pol: Policy, p: Pocket): Pocket {
    p.(disputeClass := NoDispute, gracePeriod := pol.gracePeriod, captureWindow := pol.captureWindow)
  }

  /** One audit row replayed through the machine. */
  function Replay(pol: Policy, p: Pocket, r: LogRow): Option<Pocket> {
    match r.kind
    case ConvertedRow => if p.state.Draft? then Some(p) else None
    case CreatedRow =>
      if !p.state.Draft? then None
      else (match New(r.at, SpecOf(pol, p))
            case Ok(out) => Some(Persisted(pol, out.pocket))
            case Err(_) => None)
    case EventRow(ev) =>
      if p.state.Draft? then if ev.kind.Cancel? then Some(p.(state := Cancelled)) else None
      else (match Transition(p, r.at, ev)
            case Ok(out) => Some(Persisted(pol, out.pocket))
            case Err(_) => None)
  }

  /** Event sourcing: the whole log folded over the terms. */
  function Rebuild(pol: Policy, base: Pocket, log: seq<LogRow>): Option<Pocket> {
    if log == [] then Some(base)
    else
      var before := Rebuild(pol, base, log[..|log| - 1]);
      if before.None? then None else Replay(pol, before.value, log[|log| - 1])
  }

  lemma Appended(log: seq<LogRow>, r: LogRow)
    ensures forall tag :: CountOf(log + [r], tag) == CountOf(log, tag) + if TagOf(r) == tag then 1 else 0
    ensures forall tag :: LastAt(log + [r], tag) == if TagOf(r) == tag then Some(r.at) else LastAt(log, tag)
  {
    assert (log + [r])[..|log + [r]| - 1] == log;
  }

  lemma RebuildAppended(pol: Policy, base: Pocket, log: seq<LogRow>, r: LogRow)
    ensures Rebuild(pol, base, log + [r])
         == var before := Rebuild(pol, base, log);
            if before.None? then None else Replay(pol, before.value, r)
  {
    assert (log + [r])[..|log + [r]| - 1] == log;
  }

  lemma ChainAppended(log: seq<LogRow>, from: State, r: LogRow)
    requires Chained(log, from) && r.from == from && !from.IsTerminal()
    ensures Chained(log + [r], r.to)
  {
  }

  /** A log of conversions alone rebuilds the terms it is folded over, whatever they are. */
  lemma {:induction false} ConversionsRebuildBase(pol: Policy, base: Pocket, log: seq<LogRow>)
    requires base.state.Draft?
    requires forall r :: r in log ==> r.kind.ConvertedRow?
    ensures Rebuild(pol, base, log) == Some(base)
  {
    if log != [] {
      ConversionsRebuildBase(pol, base, log[..|log| - 1]);
    }
  }
}
