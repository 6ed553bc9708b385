/** The two things outside the process that the use cases ask: the clock and the payment provider. */
module Boundary {
  import opened Results
  import opened PocketMachine
  import opened Int64
  import opened System
  import opened Database

  // ---------------------------------------------------------------- funding references

  const FUNDING_REF_PREFIX := "escrowpay-"

  function FundingRef(id: PocketId): string { FUNDING_REF_PREFIX + id }

  predicate IsHex(c: char) { '0' <= c <= '9' || 'a' <= c <= 'f' || 'A' <= c <= 'F' }

  /** looksLikeUUID: 36 characters, dashes at 8, 13, 18 and 23, hexadecimal elsewhere. */
  predicate LooksLikeUuid(s: string) {
    |s| == 36 && forall i :: 0 <= i < |s| ==> if i in {8, 13, 18, 23} then s[i] == '-' else IsHex(s[i])
  }

  function PocketIdFromRef(ref: string): Option<PocketId> {
    var n := |FUNDING_REF_PREFIX|;
    if !(FUNDING_REF_PREFIX <= ref) || !LooksLikeUuid(ref[n..]) then None else Some(ref[n..])
  }

  /** An incoming reference resolves to a pocket exactly when it is that pocket's own reference and the id
      is a UUID; two pockets never share one. */
  lemma ResolvesOwnReferencesOnly(ref: string, id: PocketId)
    ensures PocketIdFromRef(ref) == Some(id) <==> ref == FundingRef(id) && LooksLikeUuid(id)
  {
    var n := |FUNDING_REF_PREFIX|;
    hide LooksLikeUuid;
    assert FundingRef(id)[n..] == id;
    if FUNDING_REF_PREFIX <= ref { assert ref == FUNDING_REF_PREFIX + ref[n..]; }
  }

  /** The printed form of 32 hexadecimal digits: 8, 4, 4, 4 and 12 of them, joined by dashes. */
  function PrintUuid(digits: string): string
    requires |digits| == 32
  {
    digits[..8] + "-" + digits[8..12] + "-" + digits[12..16] + "-" + digits[16..20] + "-" + digits[20..]
  }

  /** Every reference this system submits for a pocket with such an id resolves to that pocket. */
  lemma PrintedIdsResolve(digits: string)
    requires |digits| == 32 && forall i :: 0 <= i < |digits| ==> IsHex(digits[i])
    ensures PocketIdFromRef(FundingRef(PrintUuid(digits))) == Some(PrintUuid(digits))
  {
    var id := PrintUuid(digits);
    assert |id| == 36;
    forall i | 0 <= i < |id| ensures if i in {8, 13, 18, 23} then id[i] == '-' else IsHex(id[i]) {
      if i < 8 { assert id[i] == digits[i]; }
      if 8 < i < 13 { assert id[i] == digits[i - 1]; }
      if 13 < i < 18 { assert id[i] == digits[i - 2]; }
      if 18 < i < 23 { assert id[i] == digits[i - 3]; }
      if 23 < i { assert id[i] == digits[i - 4]; }
    }
    ResolvesOwnReferencesOnly(FundingRef(id), id);
  }

  // ---------------------------------------------------------------- clock and provider

  /** a.now: pinned when a fixed clock is injected, arbitrary otherwise. readings are the instants it gave. */
  class Clock {
    const pinned: Option<Time>
    ghost var readings: seq<Time>

    constructor (pinned: Option<Time>)
      ensures this.pinned == pinned && readings == []
    {
      this.pinned := pinned;
      readings := [];
    }

    method Now() returns (now: Time)
      modifies this
      ensures readings == old(readings) + [now]
      ensures pinned.Some? ==> now == pinned.value
    {
      now := *;
      if pinned.Some? {
        now := pinned.value;
      }
      readings := readings + [now];
    }
  }

  /** On a pinned clock every reading is the pinned instant. */
  predicate Pinned(pin: Option<Time>, readings: seq<Time>) {
    pin.Some? ==> forall i :: 0 <= i < |readings| ==> readings[i] == pin.value
  }

  lemma PinnedOn(pin: Option<Time>, a: seq<Time>, b: seq<Time>, c: seq<Time>)
    requires a <= b <= c && Pinned(pin, Since(a, b)) && Pinned(pin, Since(b, c))
    ensures Pinned(pin, Since(a, c))
  {
    assert Since(a, c) == Since(a, b) + Since(b, c);
  }

  /** One leg handed to the provider, and what the call returned. */
  datatype Submission = Submission(leg: SettlementLeg, answer: Answer)

  datatype FundingAnswer = QueryFailed | NotPaid | PaidOrder(amountKobo: int)

  /** One order the provider was asked about, and what it answered; an unstated amount is 0. */
  datatype Query = Query(ref: string, answer: FundingAnswer)

  /** One checkout order asked for, and the reference the provider gave it. */
  datatype Order = Order(pocket: PocketId, amountKobo: int64, link: Option<string>)

  /** The payment boundary: any answer the error contract allows, and always success when healthy. The records
      keep every request with its answer; taken holds the legs whose transfer the provider has taken on,
      executed or not. Nomba's client keeps the same contract. */
  class Gateway {
    const healthy: bool
    ghost var submitted: seq<Submission>
    ghost var taken: multiset<LegKey>
    ghost var asked: seq<Query>
    ghost var orders: seq<Order>

    constructor (healthy: bool)
      ensures this.healthy == healthy && submitted == [] && taken == multiset{} && asked == [] && orders == []
    {
      this.healthy := healthy;
      submitted, taken, asked, orders := [], multiset{}, [], [];
    }

    /** Payout and Refund. */
    method Transfer(key: LegKey, amountKobo: int64) returns (answer: Answer)
      modifies this`submitted, this`taken
      ensures submitted == old(submitted) + [Submission(SettlementLeg(key, amountKobo), answer)]
      ensures taken == old(taken) || taken == old(taken) + multiset{key}
      ensures answer.Accepted? ==> taken == old(taken) + multiset{key}
      ensures answer.Rejected? || answer.NotSubmitted? ==> taken == old(taken)
      ensures healthy ==> answer.Accepted?
    {
      answer := *;
      if healthy {
        answer := Accepted;
      }
      ghost var silently: bool := *;
      submitted := submitted + [Submission(SettlementLeg(key, amountKobo), answer)];
      if answer.Accepted? || (answer.Ambiguous? && silently) {
        taken := taken + multiset{key};
      }
    }

    /** FundingVerifier, asked about an order reference. */
    method VerifyFunding(ref: string) returns (status: FundingAnswer)
      modifies this`asked
      ensures asked == old(asked) + [Query(ref, status)]
    {
      status := *;
      asked := asked + [Query(ref, status)];
    }

    /** CreateFundingLink: the reference of the checkout order, if one was made. */
    method CreateFundingLink(id: PocketId, amountKobo: int64) returns (link: Option<string>)
      modifies this`orders
      ensures orders == old(orders) + [Order(id, amountKobo, link)]
    {
      link := *;
      orders := orders + [Order(id, amountKobo, link)];
    }
  }

  // ---------------------------------------------------------------- asking whether an order was paid

  /** The references an order may be asked about: the stored one, then the submitted one; empty ones are not. */
  function References(link: string, id: PocketId): seq<string> {
    (if link == "" then [] else [link]) + (if link == FundingRef(id) then [] else [FundingRef(id)])
  }

  /** A consultation: the references in order, until one is answered as paid. */
  predicate Consults(refs: seq<string>, asked: seq<Query>) {
    && |asked| <= |refs|
    && (forall i :: 0 <= i < |asked| ==> asked[i].ref == refs[i])
    && (forall i :: 0 <= i < |asked| - 1 ==> !asked[i].answer.PaidOrder?)
    && (!PaidIn(asked) ==> |asked| == |refs|)
  }

  /** It ended on a paid order. */
  predicate PaidIn(asked: seq<Query>) {
    asked != [] && asked[|asked| - 1].answer.PaidOrder?
  }

  /** A stated amount covers the total; an unstated one does. */
  predicate Covers(paidKobo: int, totalKobo: int) {
    paidKobo <= 0 || paidKobo >= totalKobo
  }

  /** ... with an amount that covers the total. */
  predicate PaidFor(asked: seq<Query>, totalKobo: int) {
    PaidIn(asked) && Covers(asked[|asked| - 1].answer.amountKobo, totalKobo)
  }
}
