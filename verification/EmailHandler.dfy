/** From a claimed challenge event to the prepared e-mail (auth/email_handler.py). */
module EmailHandler {
  import opened Basics
  import opened Canonical
  import opened OutboxModel
  import opened Sender
  import Names
  import C = Challenges

  /** challengeId is the payload's challenge_id when it is a string that parses as a UUID. */
  datatype Event = Event(eventId: Id, eventType: string, aggregateType: string, aggregateId: Id,
                         challengeId: Option<C.Id>)

  const CHALLENGE_EMAIL := "email_challenge_requested"

  predicate KnownPurpose(purpose: string) {
    purpose == C.Purpose.Registration.Label() || purpose == C.Purpose.PasswordReset.Label()
  }

  function Subject(purpose: string): string {
    if purpose == C.Purpose.Registration.Label() then "Ẹkúmidáyọ̀mí verification code"
    else "Ẹkúmidáyọ̀mí password reset code"
  }

  function Words(purpose: string): string {
    if purpose == C.Purpose.Registration.Label() then "registration" else "password reset"
  }

  /** The code mailed for a challenge. */
  function MailedCode(id: C.Id, c: C.Challenge, keys: C.Keys): string
    requires c.keyVersion in keys.secrets
  {
    keys.derive(keys.secrets[c.keyVersion], id, c.purpose)
  }

  function Content(deliveryId: Id, id: C.Id, c: C.Challenge, keys: C.Keys): (email: Email)
    requires c.keyVersion in keys.secrets
    ensures email.deliveryId == deliveryId && email.recipients == [c.email]
  {
    Email(deliveryId, [c.email], Subject(c.purpose),
          "Your " + Words(c.purpose) + " code is " + MailedCode(id, c, keys) + ".\n"
          + ADVICE,
          None)
  }

  // ---- what the recipient reads ----------------------------------------------------

  const ADVICE := "It expires shortly. " + "If you did not request it, " + "ignore this message."
  const ENDING := ".\n" + ADVICE

  function Opening(purpose: string): string {
    "Your " + (if purpose == "registration" then "registration" else "password reset") + " code is "
  }

  /** The letter that tells the owner of the address a code, in the words of its purpose. */
  function Letter(c: C.Challenge, code: string, sender: string): Document {
    if c.purpose == "registration" then
      Document(sender, c.email, "Ẹkúmidáyọ̀mí verification code", Opening(c.purpose) + code + ENDING, None)
    else
      Document(sender, c.email, "Ẹkúmidáyọ̀mí password reset code", Opening(c.purpose) + code + ENDING, None)
  }

  /** The digits in a text, in order. */
  function Digits(text: string): string {
    if text == "" then "" else (if Names.Digit(text[0]) then [text[0]] else "") + Digits(text[1..])
  }

  lemma {:induction false} DigitsOfParts(a: string, b: string)
    ensures Digits(a + b) == Digits(a) + Digits(b)
  {
    hide Names.Digit;
    if a == "" {
      assert a + b == b;
    } else {
      assert (a + b)[0] == a[0] && (a + b)[1..] == a[1..] + b;
      DigitsOfParts(a[1..], b);
    }
  }

  lemma {:induction false} DigitsOfWords(text: string)
    requires forall i | 0 <= i < |text| :: !Names.Digit(text[i])
    ensures Digits(text) == ""
  {
    if text != "" {
      DigitsOfWords(text[1..]);
    }
  }

  lemma {:induction false} DigitsOfCode(code: string)
    requires forall i | 0 <= i < |code| :: Names.Digit(code[i])
    ensures Digits(code) == code
  {
    if code != "" {
      DigitsOfCode(code[1..]);
      assert [code[0]] + code[1..] == code;
    }
  }

  lemma PlainWords(a: string, b: string, c: string)
    requires forall i | 0 <= i < |a| :: !Names.Digit(a[i])
    requires forall i | 0 <= i < |b| :: !Names.Digit(b[i])
    requires forall i | 0 <= i < |c| :: !Names.Digit(c[i])
    ensures forall i | 0 <= i < |a + b + c| :: !Names.Digit((a + b + c)[i])
  {
  }

  lemma WordsHoldNoDigits(purpose: string)
    ensures forall i | 0 <= i < |Opening(purpose)| :: !Names.Digit(Opening(purpose)[i])
    ensures forall i | 0 <= i < |ENDING| :: !Names.Digit(ENDING[i])
  {
    PlainWords("Your ", if purpose == "registration" then "registration" else "password reset", " code is ");
    PlainWords("It expires shortly. ", "If you did not request it, ", "ignore this message.");
    forall i | 0 <= i < |ENDING| ensures !Names.Digit(ENDING[i]) {
      assert i >= 2 ==> ENDING[i] == ADVICE[i - 2];
    }
  }

  /** The only digits in the letter are the code. */
  lemma LetterTellsTheCode(c: C.Challenge, code: string, sender: string)
    requires forall i | 0 <= i < |code| :: Names.Digit(code[i])
    ensures Digits(Letter(c, code, sender).text) == code
    ensures Letter(c, code, sender).to == c.email
  {
    var opening := Opening(c.purpose);
    assert Letter(c, code, sender).text == opening + code + ENDING;
    WordsHoldNoDigits(c.purpose);
    hide *;
    DigitsOfParts(opening + code, ENDING);
    DigitsOfParts(opening, code);
    DigitsOfWords(opening);
    DigitsOfWords(ENDING);
    DigitsOfCode(code);
  }

  /** The submission carries one request, the letter with the challenge's code, under the configured fingerprint key. */
  predicate Mails(s: Submission, deliveryId: Id, id: C.Id, c: C.Challenge, keys: C.Keys, sender: string,
                  fingerprintKey: Bytes, encode: Document -> Body)
    requires c.keyVersion in keys.secrets
  {
    && WellFormed(s, deliveryId) && s.fingerprint.key == fingerprintKey
    && Bodies(s.requests) == [encode(Letter(c, keys.derive(keys.secrets[c.keyVersion], id, c.purpose), sender))]
  }

  lemma ContentIsTheLetter(deliveryId: Id, id: C.Id, c: C.Challenge, keys: C.Keys, sender: string)
    requires c.keyVersion in keys.secrets && KnownPurpose(c.purpose)
    ensures var email := Content(deliveryId, id, c, keys);
            Document(sender, email.recipients[0], email.subject, email.text, email.html)
            == Letter(c, keys.derive(keys.secrets[c.keyVersion], id, c.purpose), sender)
  {
    OpeningInParts(c.purpose);
    Regrouped(Opening(c.purpose), keys.derive(keys.secrets[c.keyVersion], id, c.purpose), ".\n", ADVICE);
    hide Opening, Words;
  }

  lemma OpeningInParts(purpose: string)
    requires KnownPurpose(purpose)
    ensures "Your " + Words(purpose) + " code is " == Opening(purpose)
  {
  }

  lemma Regrouped(a: string, b: string, c: string, d: string)
    ensures a + b + (c + d) == a + b + c + d
  {
  }

  /**
   * Before a bind the handler answers with a well-formed submission or with one of three
   * outcome kinds that carry no receipts.
   */
  method PrepareDelivery(db: C.Db, event: Event, keys: C.Keys, now: Time, sender: string, fingerprintKey: Bytes,
                         encode: Document -> Body)
    returns (r: Result<(Submission, Time), Outcome>)
    ensures r.Ok? <==>
              && event.eventType == "email_challenge_requested" && event.aggregateType == "email_challenge"
              && event.challengeId == Some(event.aggregateId)
              && event.aggregateId in db.challenges
              && var c := db.challenges[event.aggregateId];
              && c.consumedAt.None? && now < c.expiresAt && c.purpose in {"registration", "password_reset"}
              && c.keyVersion in keys.secrets
    ensures r.Ok? ==> WellFormed(r.value.0, event.eventId)
    ensures r.Ok? ==> r.value.1 == db.challenges[event.challengeId.value].expiresAt && now < r.value.1
    ensures r.Ok? ==>
              var id := event.challengeId.value;
              Mails(r.value.0, event.eventId, id, db.challenges[id], keys, sender, fingerprintKey, encode)
    ensures r.Err? ==> r.error.kind in {Permanent, Skip, Block} && r.error.receipts == map[]
    ensures r.Err? && r.error.kind == Block ==>
              && event.challengeId.Some?
              && var id := event.challengeId.value;
              id in db.challenges && db.challenges[id].keyVersion !in keys.secrets
    ensures r.Err? && r.error.kind == Skip ==>
              && event.challengeId.Some?
              && var id := event.challengeId.value;
              id in db.challenges ==> db.challenges[id].consumedAt.Some? || db.challenges[id].expiresAt <= now
  {
    hide Content, MailedCode, WellFormed;
    if event.challengeId.None? {
      return Err(Plain(Permanent, "invalid_challenge_event"));
    }
    var id := event.challengeId.value;
    if event.eventType != CHALLENGE_EMAIL || event.aggregateType != "email_challenge" || event.aggregateId != id {
      return Err(Plain(Permanent, "invalid_challenge_event"));
    }
    if id !in db.challenges || db.challenges[id].consumedAt.Some? || db.challenges[id].expiresAt <= now {
      return Err(Plain(Skip, "challenge_unavailable"));
    }
    var row := db.challenges[id];
    if !KnownPurpose(row.purpose) {
      return Err(Plain(Permanent, "invalid_challenge_purpose"));
    }
    if row.keyVersion !in keys.secrets {
      return Err(Plain(Block, "challenge_key_missing"));
    }
    var outgoing := Content(event.eventId, id, row, keys);
    var submission := Prepare(outgoing, sender, fingerprintKey, encode);
    assert Bodies(submission.requests)
        == [encode(Document(sender, outgoing.recipients[0], outgoing.subject, outgoing.text, outgoing.html))];
    ContentIsTheLetter(event.eventId, id, row, keys, sender);
    return Ok((submission, row.expiresAt));
  }

  /**
   * In any run, the digits in the letter mailed for a challenge are the one code its consumption
   * accepts, as long as the secret it was issued under stays configured: every other code is a
   * miss.  The letter goes to the address the challenge was issued for.
   */
  lemma MailedCodeIsTheOneAccepted(dbs: seq<C.Db>, steps: seq<C.Step>, policy: C.Policy, issued: nat, mailed: nat,
                                   tried: nat, mailKeys: C.Keys, keys: C.Keys, now: Time, s: Submission,
                                   deliveryId: Id, sender: string, fingerprintKey: Bytes, encode: Document -> Body)
    returns (letter: Document)
    requires C.Run(dbs, steps, policy) && issued < |steps| && C.Issues(dbs[issued], policy, steps[issued])
    requires issued < mailed < |dbs| && issued < tried < |dbs|
    requires var s := steps[issued];
             && mailKeys.derive == keys.derive == s.keys.derive
             && s.keys.active in mailKeys.secrets && s.keys.active in keys.secrets
             && mailKeys.secrets[s.keys.active] == keys.secrets[s.keys.active] == s.keys.secrets[s.keys.active]
    requires forall secret, id, purpose :: CodeOfDigits(keys.derive(secret, id, purpose))
    requires var id := steps[issued].op.id;
             && id in dbs[mailed].challenges && dbs[mailed].challenges[id].keyVersion in mailKeys.secrets
             && Mails(s, deliveryId, id, dbs[mailed].challenges[id], mailKeys, sender, fingerprintKey, encode)
    requires C.Usable(dbs[tried], steps[issued].op.id, steps[issued].op.Purpose(), policy, now)
    ensures Bodies(s.requests) == [encode(letter)] && letter.to == steps[issued].op.email
    ensures forall code ::
              C.Judge(dbs[tried], steps[issued].op.id, code, steps[issued].op.Purpose(), keys, policy, now)
              == if code == Digits(letter.text) then C.Verdict.Good else C.Verdict.Wrong
  {
    var step := steps[issued];
    var id := step.op.id;
    assert dbs[issued + 1] == C.Perform(dbs[issued], policy, step);
    assert dbs[issued + 1].challenges[id]
        == C.NewChallenge(id, step.op.email, step.op.Purpose(), step.keys, policy, step.now);
    C.CoreStays(dbs, steps, policy, issued + 1, mailed, id);
    C.CoreStays(dbs, steps, policy, issued + 1, tried, id);
    hide C.Perform, C.TooSoon, C.MayReset, C.DbOk, C.Run, Letter, WellFormed;
    var c := dbs[mailed].challenges[id];
    var code := mailKeys.derive(mailKeys.secrets[c.keyVersion], id, c.purpose);
    letter := Letter(c, code, sender);
    assert CodeOfDigits(code);
    LetterTellsTheCode(c, code, sender);
  }

  predicate CodeOfDigits(code: string) {
    forall i | 0 <= i < |code| :: Names.Digit(code[i])
  }

  /**
   * Two attempts to deliver one challenge, at any two moments of a run, prepare the same
   * requests and the same fingerprint, as long as the secret of the challenge's version, the
   * sender and the fingerprint key stay configured.
   */
  lemma RetriesPrepareTheSameMail(dbs: seq<C.Db>, steps: seq<C.Step>, policy: C.Policy, i: nat, j: nat, id: C.Id,
                                  deliveryId: Id, keys: C.Keys, later: C.Keys, sender: string, fingerprintKey: Bytes,
                                  encode: Document -> Body, first: Submission, second: Submission)
    requires C.Run(dbs, steps, policy) && i <= j < |dbs|
    requires id in dbs[i].challenges && id in dbs[j].challenges
    requires keys.derive == later.derive
    requires var version := dbs[i].challenges[id].keyVersion;
             version in keys.secrets && version in later.secrets && keys.secrets[version] == later.secrets[version]
    requires Mails(first, deliveryId, id, dbs[i].challenges[id], keys, sender, fingerprintKey, encode)
    ensures dbs[j].challenges[id].keyVersion in later.secrets
    ensures Mails(second, deliveryId, id, dbs[j].challenges[id], later, sender, fingerprintKey, encode) ==>
              second == first
  {
    C.CoreStays(dbs, steps, policy, i, j, id);
    var c, d := dbs[i].challenges[id], dbs[j].challenges[id];
    assert C.Core(c).email == c.email && C.Core(c).purpose == c.purpose && C.Core(c).keyVersion == c.keyVersion;
    assert C.Core(d).email == d.email && C.Core(d).purpose == d.purpose && C.Core(d).keyVersion == d.keyVersion;
    assert c.purpose == d.purpose && c.email == d.email && c.keyVersion == d.keyVersion;
    if Mails(second, deliveryId, id, d, later, sender, fingerprintKey, encode) {
      hide C.Run;
      SameBodiesSameSubmission(first, second, deliveryId);
    }
  }

  lemma SameBodiesSameSubmission(a: Submission, b: Submission, deliveryId: Id)
    requires WellFormed(a, deliveryId) && WellFormed(b, deliveryId)
    requires a.fingerprint.key == b.fingerprint.key && Bodies(a.requests) == Bodies(b.requests)
    ensures a == b
  {
    assert |a.requests| == |Bodies(a.requests)| == |b.requests|;
    forall k | 0 <= k < |a.requests| ensures a.requests[k] == b.requests[k] {
      assert Bodies(a.requests)[k] == Bodies(b.requests)[k];
    }
  }
}
