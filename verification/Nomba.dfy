/** The Nomba client: how a transfer's exchange with the bank is classified, and the retry after a stale
    token. Transport and JSON are reduced to what one exchange can bring back. */
module Nomba {
  import System
  import opened Results
  import opened Naira

  type Time = int
  const TOKEN_LIFETIME: Time := 1800_000_000_000
  const TOKEN_MARGIN: Time := 300_000_000_000

  /** The fields this client reads from the envelope's data; absent ones are empty. */
  datatype Data = Fields(id: string, status: string, access: string, refresh: string) | Undecodable
  const NO_DATA := Fields("", "", "", "")

  /** What one HTTP exchange brings back. A body that is no envelope reads as code "" without data. */
  datatype Exchange = Unbuilt | DialFailed | Lost | Response(status: int, code: string, data: Data)

  datatype Failure = Plain | NeverSent | Api(status: int, code: string)
  datatype Class = RejectedClass | NotSubmittedClass | Unclassified
  datatype Outcome = Done(data: Data) | Failed(failure: Failure)

  predicate Success(status: int) { 200 <= status < 300 }

  /** apiError.Unwrap. */
  function Unwrap(status: int, code: string): Class {
    if status == 401 || status == 408 || status == 429 then Unclassified
    else if 400 <= status < 500 then RejectedClass
    else if Success(status) && code != "" && code != "00" then RejectedClass
    else Unclassified
  }

  function ClassOf(f: Failure): Class {
    match f
    case Plain => Unclassified
    case NeverSent => NotSubmittedClass
    case Api(status, code) => Unwrap(status, code)
  }

  /** do, once the transport is done. */
  function Read(e: Exchange): Outcome {
    match e
    case Unbuilt => Failed(Plain)
    case DialFailed => Failed(NeverSent)
    case Lost => Failed(Plain)
    case Response(status, code, data) =>
      if !Success(status) || (code != "" && code != "00") then Failed(Api(status, code))
      else if data.Undecodable? then Failed(Plain)
      else Done(data)
  }

  function Upper(s: string): (t: string)
    ensures |t| == |s|
  {
    if s == "" then ""
    else [if 'a' <= s[0] <= 'z' then 'A' + (s[0] as int - 'a' as int) as char else s[0]] + Upper(s[1..])
  }

  /** transfer's reading of the call, as payLeg sees it. */
  function AnswerOf(o: Outcome): System.Answer {
    match o
    case Failed(f) =>
      (match ClassOf(f)
       case RejectedClass => System.Rejected
       case NotSubmittedClass => System.NotSubmitted
       case Unclassified => System.Ambiguous)
    case Done(data) =>
      if data.Undecodable? then System.Ambiguous
      else if Upper(data.status) == "REFUND" then System.Rejected
      else if data.id == "" then System.Ambiguous
      else System.Accepted
  }

  // ---------------------------------------------------------------- the bank's side

  /** What one transfer request led to at the bank: nothing, a transfer taken on and still to be executed
      (status NEW or PENDING_BILLING), or an executed one. */
  datatype Effect = Nothing | TakenOn | Executed

  /** The provider's contract: what its answer leaves possible. The final outcome of a transfer taken on is
      the payout notification's to report. */
  predicate Possible(e: Exchange, effect: Effect) {
    match e
    case Unbuilt => effect.Nothing?
    case DialFailed => effect.Nothing?
    case Lost => true
    case Response(status, code, data) =>
      if 400 <= status < 500 && status != 408 && status != 429 then effect.Nothing?
      else if !Success(status) then true
      else if code != "" && code != "00" then effect.Nothing?
      else if data.Undecodable? then true
      else if Upper(data.status) == "REFUND" then effect.Nothing?
      else if data.id == "" then true
      else if data.status == "SUCCESS" then effect.Executed?
      else !effect.Nothing?
  }

  /** The classification is as sharp as that contract allows: accepted exactly when the bank must have taken
      the transfer on, refused or never sent exactly when it cannot have, but for a 401, which the caller
      retries once, and a request that could not be built, which both stay ambiguous. An accepted transfer
      need not have been executed: exactly status SUCCESS says that it has. */
  lemma ClassificationIsSharp(e: Exchange)
    ensures AnswerOf(Read(e)).Accepted? <==> !Possible(e, Nothing)
    ensures AnswerOf(Read(e)).Rejected? || AnswerOf(Read(e)).NotSubmitted?
       <==> !Possible(e, TakenOn) && !Possible(e, Executed) && !e.Unbuilt? && !(e.Response? && e.status == 401)
    ensures AnswerOf(Read(e)).NotSubmitted? <==> e.DialFailed?
    ensures AnswerOf(Read(e)).Accepted? ==> (!Possible(e, TakenOn) <==> e.data.status == "SUCCESS")
  {
  }

  /** One transfer request under a token, and what came back. */
  datatype Request = Request(token: string, reply: Exchange)

  /** The records keep every transfer request and every token grant with its answer. */
  class Bank {
    ghost var requests: seq<Request>
    ghost var grants: seq<Exchange>
    ghost var takenOn: nat
    ghost var executed: nat

    constructor ()
      ensures requests == [] && grants == [] && takenOn == executed == 0
    {
      requests, grants, takenOn, executed := [], [], 0, 0;
    }

    /** One transfer request, answered in any way the contract allows. */
    method Submit(token: string) returns (e: Exchange, ghost effect: Effect)
      modifies this`requests, this`takenOn, this`executed
      ensures requests == old(requests) + [Request(token, e)]
      ensures takenOn == old(takenOn) + if effect.Nothing? then 0 else 1
      ensures executed == old(executed) + if effect.Executed? then 1 else 0
      ensures Possible(e, effect)
    {
      e := *;
      effect := *;
      if !Possible(e, effect) {
        effect := if Possible(e, Nothing) then Nothing else Executed;
      }
      requests := requests + [Request(token, e)];
      takenOn := takenOn + if effect.Nothing? then 0 else 1;
      executed := executed + if effect.Executed? then 1 else 0;
    }

    /** A token grant moves no money. */
    method Grant() returns (e: Exchange)
      modifies this`grants
      ensures grants == old(grants) + [e]
    {
      e := *;
      grants := grants + [e];
    }
  }

  // ---------------------------------------------------------------- the client

  datatype Account = Account(bankCode: string, number: string, name: string) {
    predicate Complete() { bankCode != "" && number != "" && name != "" }
  }

  /** beneficiary: an explicit "bank:number:name", or the configured default; None precedes submission. */
  function Beneficiary(ref: string, fallback: Account): Account {
    if ref == "" then fallback
    else
      var (bankCode, rest, _) := Cut(ref, ':');
      var (number, name, _) := Cut(rest, ':');
      Account(bankCode, number, name)
  }

  /** Every complete account whose code and number hold no colon is resolved from its own reference. */
  lemma {:induction false} BeneficiaryRoundTrip(to: Account, fallback: Account)
    requires to.Complete() && ':' !in to.bankCode && ':' !in to.number
    ensures Beneficiary(to.bankCode + ":" + (to.number + ":" + to.name), fallback) == to
  {
    CutAtFirst(to.bankCode, to.number + ":" + to.name, ':');
    CutAtFirst(to.number, to.name, ':');
  }

  /** A grant's answer carries a token. */
  predicate Issues(e: Exchange) {
    Read(e).Done? && Read(e).data.Fields? && Read(e).data.access != ""
  }

  /** What an unsuccessful grant reports: its own failure, or a plain one for an answer without a token. */
  function Refused(e: Exchange): Outcome {
    if Read(e).Failed? then Read(e) else Failed(Plain)
  }

  /** The bank calls a request's token stale. */
  predicate Stale(e: Exchange) {
    e.Response? && e.status == 401
  }

  /** The grants of one renewal: up to so many attempts, stopping at the first that issues a token. */
  predicate Renewal(g: seq<Exchange>, attempts: nat) {
    && 1 <= |g| <= attempts
    && (forall i :: 0 <= i < |g| - 1 ==> !Issues(g[i]))
    && (!Issues(g[|g| - 1]) ==> |g| == attempts)
  }

  /** One authenticated call, by its transfer requests and grants: nothing is sent exactly when there is no token
      to be had; two requests exactly when the first met a stale token and a new one was issued; the outcome is
      that of the last request, or of the grant that failed. */
  predicate Called(cached: bool, requests: seq<Request>, grants: seq<Exchange>, o: Outcome) {
    && |requests| <= 2
    && (requests == [] <==> !cached && forall i :: 0 <= i < |grants| ==> !Issues(grants[i]))
    && (requests == [] || Stale(requests[0].reply) ==> grants != [])
    && (|requests| == 2 <==> requests != [] && Stale(requests[0].reply) && Issues(grants[|grants| - 1]))
    && o == if requests == [] || (|requests| == 1 && Stale(requests[0].reply)) then Refused(grants[|grants| - 1])
            else Read(requests[|requests| - 1].reply)
  }

  /** What the reading of one reply says about the money, and when it asks for a retry. */
  lemma ReplyTellsTheTruth(e: Exchange, effect: Effect)
    requires Possible(e, effect)
    ensures var o := Read(e);
            && (AnswerOf(o).Accepted? ==>
                  o.Done? && !effect.Nothing? && (o.data.status == "SUCCESS" ==> effect.Executed?))
            && (AnswerOf(o).Rejected? || AnswerOf(o).NotSubmitted? ==> effect.Nothing?)
            && (Stale(e) ==> effect.Nothing?)
            && (Stale(e) <==> o.Failed? && o.failure.Api? && o.failure.status == 401)
  {
    hide Upper;
  }

  lemma FailureIsNotAccepted(o: Outcome)
    ensures o.Failed? ==> !AnswerOf(o).Accepted?
  {
  }

  /** The ways a call goes: first are the grants before the first request, second those after it. */
  lemma CallShapes(
    cached: bool, first: seq<Exchange>, requests: seq<Request>, second: seq<Exchange>, o: Outcome)
    requires if cached then first == []
             else first != [] && forall i :: 0 <= i < |first| - 1 ==> !Issues(first[i])
    requires |requests| <= 2 && (requests != [] <==> cached || Issues(first[|first| - 1]))
    requires if requests == [] then second == [] && o == Refused(first[|first| - 1])
             else if !Stale(requests[0].reply) then |requests| == 1 && second == [] && o == Read(requests[0].reply)
             else
               && |second| == 1 && (|requests| == 2 <==> Issues(second[0]))
               && o == if |requests| == 2 then Read(requests[1].reply) else Refused(second[0])
    ensures Called(cached, requests, first + second, o) && (second == [] ==> first + second == first)
  {
    hide Issues, Read, Refused, Stale;
    var grants := first + second;
    if requests == [] { assert grants == first; }
    if requests != [] && !cached { assert grants[|first| - 1] == first[|first| - 1]; }
  }

  class Client {
    var access: string
    var refresh: string
    var renewAt: Time

    constructor ()
      ensures access == "" && refresh == ""
    {
      access, refresh, renewAt := "", "", 0;
    }

    predicate Fresh(now: Time)
      reads this
    {
      access != "" && now < renewAt
    }

    /** bearer: the cached token, or a renewal by refresh and then by credentials, good for 25 minutes. */
    method Bearer(bank: Bank, now: Time) returns (o: Outcome, token: string)
      modifies this, bank`grants
      ensures old(bank.grants) <= bank.grants
      ensures var g := Since(old(bank.grants), bank.grants);
              if old(Fresh(now)) then
                && o.Done? && token == access && g == []
                && (access, refresh, renewAt) == old((access, refresh, renewAt))
              else
                && Renewal(g, if old(refresh) == "" then 1 else 2)
                && if Issues(g[|g| - 1]) then
                     && o == Read(g[|g| - 1]) && o.Done? && token == access
                     && (access, refresh, renewAt) == (o.data.access, o.data.refresh, now + 1500_000_000_000)
                   else
                     && o == Refused(g[|g| - 1]) && o.Failed?
                     && (access, refresh, renewAt) == old((access, refresh, renewAt))
    {
      if access != "" && now < renewAt {
        return Done(NO_DATA), access;
      }
      ghost var before := bank.grants;
      if refresh != "" {
        o := TokenGrant(bank);
        assert Since(before, bank.grants) == [bank.grants[|before|]];
        if o.Done? {
          access, refresh, renewAt := o.data.access, o.data.refresh, now + (TOKEN_LIFETIME - TOKEN_MARGIN);
          return o, access;
        }
      }
      o := TokenGrant(bank);
      if o.Failed? {
        return o, "";
      }
      access, refresh, renewAt := o.data.access, o.data.refresh, now + (TOKEN_LIFETIME - TOKEN_MARGIN);
      token := access;
    }

    method TokenGrant(bank: Bank) returns (o: Outcome)
      modifies bank`grants
      ensures |bank.grants| == |old(bank.grants)| + 1 && bank.grants[..|old(bank.grants)|] == old(bank.grants)
      ensures var e := bank.grants[|old(bank.grants)|]; o == if Issues(e) then Read(e) else Refused(e)
    {
      var e := bank.Grant();
      o := Read(e);
      if o.Done? && (o.data.Undecodable? || o.data.access == "") {
        o := Failed(Plain);
      }
    }

    /** invalidate: drops the token if it is still the one that failed. */
    method Invalidate(token: string)
      modifies this
      ensures (access, refresh, renewAt)
           == if old(access) == token then ("", "", 0) else old((access, refresh, renewAt))
    {
      if access == token {
        access, refresh, renewAt := "", "", 0;
      }
    }

    /** call: one request, and one more with a fresh token after a 401. What the outcome says about the
        money is right about all the requests together. */
    method Call(bank: Bank, now: Time, later: Time) returns (o: Outcome)
      modifies this, bank
      ensures old(bank.requests) <= bank.requests && old(bank.grants) <= bank.grants
      ensures var sent := Since(old(bank.requests), bank.requests);
              && Called(old(Fresh(now)), sent, Since(old(bank.grants), bank.grants), o)
              && (sent != [] && old(Fresh(now)) ==> sent[0].token == old(access))
              && (sent != [] && (|sent| == 2 || !Stale(sent[0].reply)) ==> sent[|sent| - 1].token == access)
      ensures old(bank.executed) <= bank.executed <= old(bank.executed) + (bank.takenOn - old(bank.takenOn))
      ensures old(bank.takenOn) <= bank.takenOn <= old(bank.takenOn) + 1
      ensures AnswerOf(o).Accepted? ==> bank.takenOn == old(bank.takenOn) + 1
      ensures AnswerOf(o).Accepted? && o.data.status == "SUCCESS" ==> bank.executed == old(bank.executed) + 1
      ensures AnswerOf(o).Rejected? || AnswerOf(o).NotSubmitted? ==> bank.takenOn == old(bank.takenOn)
    {
      hide Possible, AnswerOf, Read, Called, Issues, Refused, Stale;
      ghost var requests, grants, cached := bank.requests, bank.grants, Fresh(now);
      var token;
      o, token := Bearer(bank, now);
      ghost var first := Since(grants, bank.grants);
      FailureIsNotAccepted(o);
      if o.Failed? {
        CallShapes(cached, first, [], [], o);
        return;
      }
      ghost var effect;
      var e;
      e, effect := bank.Submit(token);
      ghost var request := Request(token, e);
      assert Since(requests, bank.requests) == [request];
      ReplyTellsTheTruth(e, effect);
      o := Read(e);
      if o.Failed? && o.failure.Api? && o.failure.status == 401 {
        Invalidate(token);
        ghost var mid := bank.grants;
        o, token := Bearer(bank, later);
        ghost var second := Since(mid, bank.grants);
        assert Since(grants, bank.grants) == first + second;
        FailureIsNotAccepted(o);
        if o.Failed? {
          CallShapes(cached, first, [request], second, o);
          return;
        }
        e, effect := bank.Submit(token);
        assert Since(requests, bank.requests) == [request, Request(token, e)];
        ReplyTellsTheTruth(e, effect);
        o := Read(e);
        CallShapes(cached, first, [request, Request(token, e)], second, o);
      } else {
        CallShapes(cached, first, [request], [], o);
      }
    }

    /** Payout and Refund: the bank takes on, and so executes, at most one transfer for each call, and the
        answer tells the truth about it. This is all that System assumes of Reply. */
    method Transfer(bank: Bank, to: Account, now: Time, later: Time) returns (answer: System.Answer)
      modifies this, bank
      ensures old(bank.requests) <= bank.requests && old(bank.grants) <= bank.grants
      ensures if to.Complete() then
                exists o :: Called(old(Fresh(now)), Since(old(bank.requests), bank.requests),
                                   Since(old(bank.grants), bank.grants), o) && answer == AnswerOf(o)
              else answer.NotSubmitted? && bank.requests == old(bank.requests) && bank.grants == old(bank.grants)
      ensures old(bank.takenOn) <= bank.takenOn <= old(bank.takenOn) + 1
      ensures old(bank.executed) <= bank.executed <= old(bank.executed) + (bank.takenOn - old(bank.takenOn))
      ensures answer.Accepted? ==> bank.takenOn == old(bank.takenOn) + 1
      ensures answer.Rejected? || answer.NotSubmitted? ==> bank.takenOn == old(bank.takenOn)
    {
      if !to.Complete() {
        return System.NotSubmitted;
      }
      hide Called, AnswerOf;
      var o := Call(bank, now, later);
      answer := AnswerOf(o);
    }
  }
}
