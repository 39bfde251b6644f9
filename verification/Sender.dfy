/** The Resend adapter (email/resend.py): stable requests, and one pass over the unresolved recipients. */
module Sender {
  import opened Basics
  import opened Canonical
  import opened OutboxModel

  /** The idempotency key email/<delivery id>/<recipient index>. */
  datatype Key = EmailKey(deliveryId: Id, index: nat)

  datatype Request = Request(key: Key, body: Body)

  datatype Submission = Submission(requests: seq<Request>, fingerprint: Fingerprint)

  datatype Email = Email(deliveryId: Id, recipients: seq<string>, subject: string, text: string, html: Option<string>)

  /** The JSON document of one request, before encoding. */
  datatype Document = Document(sender: string, to: string, subject: string, text: string, html: Option<string>)

  function DocumentFor(email: Email, sender: string, index: nat): Document
    requires index < |email.recipients|
  {
    Document(sender, email.recipients[index], email.subject, email.text, email.html)
  }

  function Bodies(requests: seq<Request>): (bodies: seq<Body>)
    ensures |bodies| == |requests|
    ensures forall i | 0 <= i < |requests| :: bodies[i] == requests[i].body
  {
    seq(|requests|, i requires 0 <= i < |requests| => requests[i].body)
  }

  /** Requests keyed by position under one delivery, with a fingerprint over all their bodies. */
  predicate WellFormed(s: Submission, deliveryId: Id) {
    && (forall i | 0 <= i < |s.requests| :: s.requests[i].key == EmailKey(deliveryId, i))
    && s.fingerprint.message == Encode(Bodies(s.requests))
  }

  /** encode stands for the sorted, compact, UTF-8 JSON encoding. */
  method Prepare(email: Email, sender: string, fingerprintKey: Bytes, encode: Document -> Body)
    returns (s: Submission)
    ensures WellFormed(s, email.deliveryId)
    ensures |s.requests| == |email.recipients|
    ensures forall i | 0 <= i < |s.requests| ::
              s.requests[i].body
              == encode(Document(sender, email.recipients[i], email.subject, email.text, email.html))
    ensures s.fingerprint.key == fingerprintKey
    ensures Committed(s.fingerprint) == Bodies(s.requests)
  {
    var requests: seq<Request> := [];
    for index := 0 to |email.recipients|
      invariant |requests| == index
      invariant forall i | 0 <= i < index ::
          requests[i] == Request(EmailKey(email.deliveryId, i), encode(DocumentFor(email, sender, i)))
    {
      var wire := encode(DocumentFor(email, sender, index));
      requests := requests + [Request(EmailKey(email.deliveryId, index), wire)];
    }
    FingerprintCommits(fingerprintKey, Bodies(requests));
    s := Submission(requests, FingerprintOf(fingerprintKey, Bodies(requests)));
  }

  /** Two deliveries with one fingerprint send the same bytes under the same keys. */
  lemma SameFingerprintSameRequests(a: Submission, b: Submission, deliveryId: Id)
    requires WellFormed(a, deliveryId) && WellFormed(b, deliveryId)
    ensures a.fingerprint == b.fingerprint ==> a.requests == b.requests
  {
    EncodeInjective(Bodies(a.requests), Bodies(b.requests));
    if a.fingerprint == b.fingerprint {
      forall i | 0 <= i < |a.requests| ensures a.requests[i] == b.requests[i] {
        assert Bodies(a.requests)[i] == Bodies(b.requests)[i];
      }
    }
  }

  // ---- provider responses ----------------------------------------------------------

  /** The two fields read from a response document; anything that is not an object has neither. */
  datatype Answer = Answer(id: Option<string>, name: Option<string>)

  datatype Response =
    | Reply(status: int, chunks: seq<Bytes>, retryAfter: string)
    | Unreachable  // connect error, connect timeout or pool timeout
    | Broken       // any other HTTP error

  const BODY_LIMIT: nat := 16384

  function Joined(chunks: seq<Bytes>): Bytes {
    if chunks == [] then [] else Joined(chunks[..|chunks| - 1]) + chunks[|chunks| - 1]
  }

  lemma {:induction false} JoinedGrows(chunks: seq<Bytes>, n: nat)
    requires n <= |chunks|
    ensures |Joined(chunks[..n])| <= |Joined(chunks)|
    decreases |chunks|
  {
    if n == |chunks| {
      assert chunks[..n] == chunks;
    } else {
      JoinedGrows(chunks[..|chunks| - 1], n);
      assert chunks[..|chunks| - 1][..n] == chunks[..n];
    }
  }

  /** Collects the body chunk by chunk and stops at the first chunk that passes the limit. */
  method ReadBody(chunks: seq<Bytes>) returns (data: Option<Bytes>)
    ensures data == if |Joined(chunks)| > BODY_LIMIT then None else Some(Joined(chunks))
  {
    var buffer: Bytes := [];
    for i := 0 to |chunks|
      invariant buffer == Joined(chunks[..i])
      invariant |buffer| <= BODY_LIMIT
    {
      assert chunks[..i + 1][..i] == chunks[..i];
      buffer := buffer + chunks[i];
      if |buffer| > BODY_LIMIT {
        JoinedGrows(chunks, i + 1);
        return None;
      }
    }
    assert chunks[..|chunks|] == chunks;
    return Some(buffer);
  }

  predicate Decimal(s: string) {
    s != "" && forall i | 0 <= i < |s| :: '0' <= s[i] <= '9'
  }

  function DecimalValue(s: string): nat
    requires forall i | 0 <= i < |s| :: '0' <= s[i] <= '9'
  {
    if s == "" then 0 else DecimalValue(s[..|s| - 1]) * 10 + (s[|s| - 1] - '0') as nat
  }

  function BusyDelay(raw: string): (delay: nat)
    ensures delay <= 3600
  {
    if Decimal(raw) && |raw| < 8 then Min(DecimalValue(raw), 3600) else 60
  }

  datatype Verdict = Receipt(id: string) | Stop(kind: Kind, code: string, retryAfter: nat)

  const CONFLICT_NAME := "invalid_idempotent_request"

  /** The outcome of one response; decode reads the (bounded) body. */
  function Classify(response: Response, decode: Bytes -> Answer): (v: Verdict)
    ensures v.Stop? ==> v.kind in {Retry, Permanent, Unsure, Block}
  {
    match response
    case Unreachable => Stop(Retry, "provider_connection", 0)
    case Broken => Stop(Unsure, "provider_result_unknown", 0)
    case Reply(status, chunks, retryAfter) =>
      if |Joined(chunks)| > BODY_LIMIT then Stop(Unsure, "provider_response_invalid", 0)
      else
        var answer := decode(Joined(chunks));
        if status == 200 || status == 201 then
          if answer.id.Some? then Receipt(answer.id.value) else Stop(Unsure, "provider_response_invalid", 0)
        else if status == 401 || status == 403
                || (answer.name.Some? && answer.name.value in QUOTA_NAMES) then
          Stop(Block, "provider_configuration", 0)
        else if answer.name == Some(CONFLICT_NAME) then
          Stop(Block, "provider_key_conflict", 0)
        else if status == 429 || (status == 409 && answer.name == Some("concurrent_idempotent_requests")) then
          Stop(Retry, "provider_busy", BusyDelay(retryAfter))
        else if status >= 500 || status == 408 then
          Stop(Unsure, "provider_unavailable", 0)
        else
          Stop(Permanent, "provider_request_rejected", 0)
  }

  const QUOTA_NAMES: set<string> := {"daily_quota_exceeded", "monthly_quota_exceeded"}

  /** A reply whose body was read, and that neither succeeded nor was refused for configuration. */
  predicate Unsettled(response: Response, answer: Answer) {
    && response.Reply? && |Joined(response.chunks)| <= 16384
    && response.status !in {200, 201, 401, 403}
    && answer.name !in {Some("daily_quota_exceeded"), Some("monthly_quota_exceeded"),
                        Some("invalid_idempotent_request")}
  }

  predicate Busy(status: int, answer: Answer) {
    status == 429 || (status == 409 && answer.name == Some("concurrent_idempotent_requests"))
  }

  predicate Failing(status: int) {
    status >= 500 || status == 408
  }

  /**
   * Which responses end how.  A receipt needs a success that names it.  Only a request that
   * never reached the provider, or one it declared busy, is retried, the latter after the
   * provider's delay; everything that leaves the fate of a request open is uncertain.
   */
  lemma ClassifyExactly(response: Response, decode: Bytes -> Answer, id: string)
    ensures var v := Classify(response, decode);
            var read := response.Reply? && |Joined(response.chunks)| <= 16384;
            var answer := if read then decode(Joined(response.chunks)) else Answer(None, None);
            && (v == Receipt(id) <==> read && response.status in {200, 201} && answer.id == Some(id))
            && (v.Stop? && v.kind == Retry <==>
                  response.Unreachable? || (Unsettled(response, answer) && Busy(response.status, answer)))
            && (v.Stop? && v.retryAfter != 0 ==> read && v.kind == Retry)
            && (Unsettled(response, answer) && Busy(response.status, answer) ==>
                  v.Stop? && v.retryAfter == BusyDelay(response.retryAfter))
            && (v.Stop? && v.kind == Unsure <==>
                  || response.Broken? || (response.Reply? && !read)
                  || (read && response.status in {200, 201} && answer.id.None?)
                  || (Unsettled(response, answer) && !Busy(response.status, answer) && Failing(response.status)))
            && (v.Stop? && v.kind == Permanent <==>
                  && Unsettled(response, answer) && !Busy(response.status, answer) && !Failing(response.status))
            && (v.Stop? && v.kind == Block <==>
                  && read && response.status !in {200, 201}
                  && (response.status in {401, 403}
                      || answer.name in {Some("daily_quota_exceeded"), Some("monthly_quota_exceeded"),
                                         Some("invalid_idempotent_request")}))
            && (v.Stop? && v.code == "provider_key_conflict" <==>
                  && read && response.status !in {200, 201, 401, 403}
                  && answer.name == Some("invalid_idempotent_request"))
            && (v.Stop? && v.kind == Block ==> v.code in {"provider_key_conflict", "provider_configuration"})
            && (v.Stop? && v.kind == Permanent ==> v.code == "provider_request_rejected")
            && (v.Stop? && v.kind == Retry ==>
                  v.code == if response.Unreachable? then "provider_connection" else "provider_busy")
            && (v.Stop? && v.kind == Unsure ==>
                  v.code == if response.Broken? then "provider_result_unknown"
                            else if !read || response.status in {200, 201} then "provider_response_invalid"
                            else "provider_unavailable")
  {
    hide Joined, BusyDelay;
  }

  function Pow10(n: nat): nat {
    if n == 0 then 1 else 10 * Pow10(n - 1)
  }

  /** The number a string of digits stands for, most significant digit first. */
  function Numeral(s: string): nat
    requires forall i | 0 <= i < |s| :: '0' <= s[i] <= '9'
  {
    if s == "" then 0 else (s[0] - '0') as nat * Pow10(|s| - 1) + Numeral(s[1..])
  }

  lemma {:induction false} NumeralBySnoc(s: string)
    requires s != "" && forall i | 0 <= i < |s| :: '0' <= s[i] <= '9'
    ensures Numeral(s) == 10 * Numeral(s[..|s| - 1]) + (s[|s| - 1] - '0') as nat
  {
    var init := s[..|s| - 1];
    if |s| == 1 {
      assert init == "" && s[1..] == "";
    } else {
      assert s[1..][..|s[1..]| - 1] == init[1..] && s[1..][|s[1..]| - 1] == s[|s| - 1];
      NumeralBySnoc(s[1..]);
      assert Pow10(|s| - 1) == 10 * Pow10(|init| - 1);
      TenTimes((s[0] - '0') as nat, Pow10(|init| - 1));
    }
  }

  lemma TenTimes(digit: nat, power: nat)
    ensures digit * (10 * power) == 10 * (digit * power)
  {
  }

  lemma {:induction false} DecimalIsNumeral(s: string)
    requires forall i | 0 <= i < |s| :: '0' <= s[i] <= '9'
    ensures DecimalValue(s) == Numeral(s)
  {
    if s != "" {
      DecimalIsNumeral(s[..|s| - 1]);
      NumeralBySnoc(s);
    }
  }

  /** A busy provider's delay: the number of seconds it names, an hour at most, or a minute if it names none. */
  lemma BusyDelayExactly(raw: string)
    ensures if 1 <= |raw| <= 7 && forall i | 0 <= i < |raw| :: '0' <= raw[i] <= '9' then
              BusyDelay(raw) == if Numeral(raw) <= 3600 then Numeral(raw) else 3600
            else BusyDelay(raw) == 60
  {
    if Decimal(raw) {
      DecimalIsNumeral(raw);
    }
  }

  function Stopped(verdict: Verdict, receipts: Receipts): Outcome
    requires verdict.Stop?
  {
    Outcome(verdict.kind, verdict.code, verdict.retryAfter, receipts)
  }

  predicate Resolved(completed: Receipts, verdicts: seq<Verdict>, i: nat)
    requires i < |verdicts|
  {
    i in completed || verdicts[i].Receipt?
  }

  /** The first request at or after `from` that stays unresolved and so ends the pass, if any. */
  function FirstStop(completed: Receipts, verdicts: seq<Verdict>, from: nat): nat
    requires from <= |verdicts|
    decreases |verdicts| - from
  {
    if from == |verdicts| || !Resolved(completed, verdicts, from) then from
    else FirstStop(completed, verdicts, from + 1)
  }

  lemma {:induction false} FirstStopIsFirst(completed: Receipts, verdicts: seq<Verdict>, from: nat)
    requires from <= |verdicts|
    ensures var stop := FirstStop(completed, verdicts, from);
            && from <= stop <= |verdicts|
            && (stop < |verdicts| ==> !Resolved(completed, verdicts, stop))
            && forall j | from <= j < stop :: Resolved(completed, verdicts, j)
    decreases |verdicts| - from
  {
    if from < |verdicts| && Resolved(completed, verdicts, from) {
      FirstStopIsFirst(completed, verdicts, from + 1);
    }
  }

  /** What a pass holds once every request before `upTo` is resolved. */
  function Collected(completed: Receipts, verdicts: seq<Verdict>, upTo: nat): Receipts
    requires upTo <= |verdicts|
  {
    if upTo == 0 then completed
    else
      var earlier := Collected(completed, verdicts, upTo - 1);
      if upTo - 1 in completed || verdicts[upTo - 1].Stop? then earlier
      else earlier[upTo - 1 := verdicts[upTo - 1].id]
  }

  lemma {:induction false} CollectedHolds(completed: Receipts, verdicts: seq<Verdict>, upTo: nat)
    requires upTo <= |verdicts|
    ensures var receipts := Collected(completed, verdicts, upTo);
            && (forall j | j in completed :: j in receipts && receipts[j] == completed[j])
            && (forall j | j in receipts && j !in completed :: j < upTo && verdicts[j] == Receipt(receipts[j]))
            && (forall j | 0 <= j < upTo && Resolved(completed, verdicts, j) :: j in receipts)
  {
    if upTo > 0 {
      CollectedHolds(completed, verdicts, upTo - 1);
    }
  }

  /** The requests a pass submits among the first upTo, in order. */
  function Submitted(completed: Receipts, upTo: nat): seq<nat> {
    if upTo == 0 then []
    else Submitted(completed, upTo - 1) + if upTo - 1 in completed then [] else [upTo - 1]
  }

  lemma {:induction false} SubmittedHolds(completed: Receipts, upTo: nat)
    ensures forall i | i in Submitted(completed, upTo) :: i < upTo && i !in completed
    ensures forall i | 0 <= i < upTo && i !in completed :: i in Submitted(completed, upTo)
  {
    if upTo > 0 {
      SubmittedHolds(completed, upTo - 1);
    }
  }

  function Verdicts(responses: seq<Response>, decode: Bytes -> Answer): (verdicts: seq<Verdict>)
    ensures |verdicts| == |responses|
    ensures forall i | 0 <= i < |responses| :: verdicts[i] == Classify(responses[i], decode)
    ensures forall i | 0 <= i < |responses| && verdicts[i].Stop? :: verdicts[i].kind != Accepted
  {
    seq(|responses|, i requires 0 <= i < |responses| => Classify(responses[i], decode))
  }

  /** The outcome of a pass and the requests it submits. */
  function PassResult(completed: Receipts, verdicts: seq<Verdict>): (Outcome, seq<nat>) {
    FirstStopIsFirst(completed, verdicts, 0);
    var stop := FirstStop(completed, verdicts, 0);
    var receipts := Collected(completed, verdicts, stop);
    if stop == |verdicts| then (Outcome(Accepted, "provider_accepted", 0, receipts), Submitted(completed, stop))
    else (Stopped(verdicts[stop], receipts), Submitted(completed, stop + 1))
  }

  /**
   * One pass over the requests.  responses[i] is what the provider would answer to request i;
   * sent lists the indices submitted.
   */
  method Send(submission: Submission, completed: Receipts, responses: seq<Response>, decode: Bytes -> Answer)
    returns (outcome: Outcome, sent: seq<nat>)
    requires |responses| == |submission.requests|
    ensures (outcome, sent) == PassResult(completed, Verdicts(responses, decode))
  {
    hide Classify, Joined;
    var receipts := completed;
    sent := [];
    ghost var verdicts := Verdicts(responses, decode);
    for index := 0 to |submission.requests|
      invariant FirstStop(completed, verdicts, 0) == FirstStop(completed, verdicts, index)
      invariant receipts == Collected(completed, verdicts, index)
      invariant sent == Submitted(completed, index)
    {
      CollectedHolds(completed, verdicts, index);
      if index !in receipts {
        sent := sent + [index];
        var verdict := Classify(responses[index], decode);
        if verdict.Stop? {
          return Stopped(verdict, receipts), sent;
        }
        receipts := receipts[index := verdict.id];
      }
    }
    outcome := Outcome(Accepted, "provider_accepted", 0, receipts);
  }

  /**
   * A pass is accepted exactly when every recipient ends with a receipt; what was already
   * resolved is kept and never submitted again, a new receipt is the provider's answer to
   * that very request, and the pass ends at the first request that stays unresolved, which it
   * does submit, with the answer to that one.
   */
  lemma SendMeaning(completed: Receipts, verdicts: seq<Verdict>)
    requires forall i | 0 <= i < |verdicts| && verdicts[i].Stop? :: verdicts[i].kind != Accepted
    ensures var (outcome, sent) := PassResult(completed, verdicts);
            && (outcome.kind == Accepted <==> forall i | 0 <= i < |verdicts| :: i in outcome.receipts)
            && (forall i | i in completed :: i in outcome.receipts && outcome.receipts[i] == completed[i])
            && (forall i | i in outcome.receipts && i !in completed ::
                  i in sent && i < |verdicts| && verdicts[i] == Receipt(outcome.receipts[i]))
            && (forall i | i in sent :: i < |verdicts| && i !in completed)
            && (forall i, j | i in sent && 0 <= j < i :: j in outcome.receipts)
            && (outcome.kind == Accepted ==>
                  && outcome == Outcome(Accepted, "provider_accepted", 0, outcome.receipts)
                  && forall i | 0 <= i < |verdicts| && i !in completed :: i in sent)
            && (outcome.kind != Accepted ==>
                  exists i :: 0 <= i < |verdicts| && i in sent && EndsPass(completed, verdicts, outcome, i))
  {
    var stop := FirstStop(completed, verdicts, 0);
    FirstStopIsFirst(completed, verdicts, 0);
    CollectedHolds(completed, verdicts, stop);
    SubmittedHolds(completed, if stop == |verdicts| then stop else stop + 1);
    assert stop < |verdicts| ==> EndsPass(completed, verdicts, PassResult(completed, verdicts).0, stop);
  }

  /** Request i is the first unresolved one, and its answer is the outcome. */
  ghost predicate EndsPass(completed: Receipts, verdicts: seq<Verdict>, outcome: Outcome, i: nat)
    requires i < |verdicts|
  {
    && i !in completed && verdicts[i].Stop?
    && outcome.kind == verdicts[i].kind && outcome.code == verdicts[i].code
    && outcome.retryAfter == verdicts[i].retryAfter
    && (forall j | 0 <= j < i && j !in completed :: verdicts[j].Receipt?)
    && (forall j | j in outcome.receipts && j !in completed :: j < i)
  }
}
