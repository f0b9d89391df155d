/** Phone verification: POST /api/verification/send-code
    (src/app/api/verification/send-code/route.ts) and POST
    /api/verification/verify-code
    (src/app/api/verification/verify-code/route.ts), as sequences of updates
    of the database tables. The generated code, the rate-limit function's
    answer, the clock and the SMS provider's reply are inputs. */
module Verification {
  import opened Common
  import opened CircuitBreakers
  import opened Twilio
  import opened Tables

  datatype Body =
    | ErrorBody(error: string, attemptsRemaining: Option<int>)
    | CodeSent(message: string, devCode: Option<string>)
    | PhoneVerified(userId: string, message: string)

  datatype Reply = Reply(status: int, body: Body)

  /** Wrong guesses allowed per code. */
  const MaxAttempts := 3

  /** Lifetime of a code: ten minutes. */
  const CodeLifetimeSeconds := 600

  /** `phone.slice(0, -4) + '****'`: the last four characters are replaced
      by asterisks (a string shorter than four becomes just the asterisks). */
  function MaskPhone(phone: string): (m: string)
    ensures |m| >= 4 && m[|m| - 4..] == "****"
    ensures |phone| >= 4 ==> |m| == |phone| && m[..|phone| - 4] == phone[..|phone| - 4]
    ensures |phone| < 4 ==> m == "****"
  {
    phone[..if |phone| >= 4 then |phone| - 4 else 0] + "****"
  }

  /** The index of the first row satisfying `p`, if any. */
  function FirstIndex(rows: seq<PhoneVerification>, p: PhoneVerification -> bool): (i: Option<nat>)
    ensures i.Some? ==> i.value < |rows| && p(rows[i.value])
    ensures i.Some? ==> forall j | 0 <= j < i.value :: !p(rows[j])
    ensures i.None? ==> forall j | 0 <= j < |rows| :: !p(rows[j])
  {
    if rows == [] then None
    else if p(rows[0]) then Some(0)
    else match FirstIndex(rows[1..], p)
      case None => None
      case Some(k) => Some(k + 1)
  }

  /** The index of the last (most recently created) row satisfying `p`. */
  function LastIndex(rows: seq<PhoneVerification>, p: PhoneVerification -> bool): (i: Option<nat>)
    ensures i.Some? ==> i.value < |rows| && p(rows[i.value])
    ensures i.Some? ==> forall j | i.value < j < |rows| :: !p(rows[j])
    ensures i.None? ==> forall j | 0 <= j < |rows| :: !p(rows[j])
  {
    if rows == [] then None
    else if p(rows[|rows| - 1]) then Some(|rows| - 1)
    else LastIndex(rows[..|rows| - 1], p)
  }

  /** A pending, unexpired code for `phone`. */
  predicate IsOpenFor(row: PhoneVerification, phone: string, now: int) {
    row.phone == phone && row.status == Pending && row.expiresAt > now
  }

  /** The row a wrong guess is booked on, after the guess: one more
      attempt, and failed once the attempts reach the cap. */
  function WrongGuess(row: PhoneVerification): (r: PhoneVerification)
    ensures r.attempts == row.attempts + 1
    ensures r.status == if row.attempts + 1 >= MaxAttempts then Failed else row.status
    ensures r.(attempts := row.attempts, status := row.status) == row
  {
    var n := row.attempts + 1;
    row.(attempts := n, status := if n >= MaxAttempts then Failed else row.status)
  }

  /** A fresh code survives two wrong guesses and fails on the third, after
      which no lookup finds it open again. */
  lemma {:induction false} ThirdWrongGuessFails(row: PhoneVerification, now: int)
    requires IsOpenFor(row, row.phone, now) && row.attempts == 0
    ensures IsOpenFor(WrongGuess(row), row.phone, now)
    ensures IsOpenFor(WrongGuess(WrongGuess(row)), row.phone, now)
    ensures WrongGuess(WrongGuess(WrongGuess(row))).status == Failed
    ensures !IsOpenFor(WrongGuess(WrongGuess(WrongGuess(row))), row.phone, now)
  {
    var r1 := WrongGuess(row);
    var r2 := WrongGuess(r1);
    assert r1.attempts == 1 && r1.status == Pending;
    assert r2.attempts == 2 && r2.status == Pending;
  }

  /** The reply to a wrong guess, from the attempt count after the guess. */
  function WrongCodeReply(newAttempts: int): (r: Reply)
    ensures r.body.ErrorBody?
    ensures newAttempts >= MaxAttempts ==> r.status == 403 && r.body.attemptsRemaining.None?
    ensures newAttempts < MaxAttempts ==>
      r.status == 400 && r.body.attemptsRemaining == Some(MaxAttempts - newAttempts)
  {
    if newAttempts >= MaxAttempts then Reply(403, ErrorBody("Too many incorrect attempts. Please request a new code.", None))
    else Reply(400, ErrorBody("Invalid verification code", Some(MaxAttempts - newAttempts)))
  }

  /** Attempt counts start at 0 and only grow, so the remaining-attempts
      figure a 400 reply carries is always at least one. */
  lemma AttemptsRemainingPositive(oldAttempts: int)
    requires oldAttempts >= 0
    ensures var r := WrongCodeReply(oldAttempts + 1);
      r.body.attemptsRemaining.Some? ==> 1 <= r.body.attemptsRemaining.value <= 2
  {
  }

  /** `UPDATE phone_verifications SET status = 'failed' WHERE phone_number =
      phone AND code = code`: every row with that phone and code, whatever
      its status. */
  function MarkFailed(rows: seq<PhoneVerification>, phone: string, code: string): (r: seq<PhoneVerification>)
    ensures |r| == |rows|
    ensures forall i | 0 <= i < |rows| ::
      r[i] == if rows[i].phone == phone && rows[i].code == code then rows[i].(status := Failed) else rows[i]
  {
    seq(|rows|, i requires 0 <= i < |rows| =>
      if rows[i].phone == phone && rows[i].code == code then rows[i].(status := Failed) else rows[i])
  }

  // ---------------------------------------------------------------------
  // send-code

  /** What the handler makes of `sendSMS`'s outcome once the pending record
      `stored` has been inserted: the reply, the new phone_verifications
      table and the new audit log. */
  function SettleSms(sms: Result<SmsResult>, stored: seq<PhoneVerification>, audit: seq<AuditEntry>,
                     phone: string, code: string, visitorId: string, nodeEnv: string)
    : (r: (Reply, seq<PhoneVerification>, seq<AuditEntry>))
    ensures sms.Threw? ==>
      r == (Reply(500, ErrorBody("Failed to send verification code", None)), stored, audit)
    ensures sms.Returned? && !sms.value.success ==>
      && r.0 == Reply(500, ErrorBody("Failed to send verification code", None)) && r.2 == audit
      && r.1 == MarkFailed(stored, phone, code) && |r.1| == |stored|
      && forall i | 0 <= i < |stored| && stored[i].phone == phone && stored[i].code == code :: r.1[i].status == Failed
    ensures sms.Returned? && sms.value.success ==>
      && r.0.status == 200 && r.1 == stored
      && r.0.body == CodeSent("Verification code sent", if nodeEnv == "development" then Some(code) else None)
      && r.2 == audit + [AuditEntry("verification_code_sent", "phone_verification", None, Some(visitorId), Some(MaskPhone(phone)))]
    ensures r.0.status == 200 || r.0.status == 500
    ensures r.0.body.CodeSent? && r.0.body.devCode.Some? ==> nodeEnv == "development"
  {
    match sms
    case Threw(_) => (Reply(500, ErrorBody("Failed to send verification code", None)), stored, audit)
    case Returned(res) =>
      if !res.success then
        (Reply(500, ErrorBody("Failed to send verification code", None)), MarkFailed(stored, phone, code), audit)
      else
        (Reply(200, CodeSent("Verification code sent", if nodeEnv == "development" then Some(code) else None)),
         stored,
         audit + [AuditEntry("verification_code_sent", "phone_verification", None, Some(visitorId), Some(MaskPhone(phone)))])
  }

  /** The new pending record: attempts 0, expiring ten minutes from now. */
  function NewCode(phone: string, code: string, visitorId: string, now: int): (row: PhoneVerification)
    ensures row.status == Pending && row.attempts == 0
    ensures row.expiresAt - row.createdAt == CodeLifetimeSeconds && row.createdAt == now
    ensures IsOpenFor(row, phone, now) && !IsOpenFor(row, phone, now + CodeLifetimeSeconds)
  {
    PhoneVerification(phone, code, visitorId, Pending, 0, now, now + CodeLifetimeSeconds)
  }

  datatype SendCodeRequest = SendCodeRequest(phoneNumber: Option<string>, visitorId: Option<string>)

  /** POST /api/verification/send-code: validate, ask the rate limiter
      (`rateLimit` is the value of `check_verification_rate_limit`, `None`
      when no row came back), store a pending record, send the SMS, and mark
      the record failed when the provider reports a failure. When `sendSMS`
      throws (breaker open, timeout, network error) the handler's catch
      answers 500 and the stored record stays pending. `now` is the
      database clock in seconds; `sentAt` and `settled` are the clock in
      milliseconds when `sendSMS` is called and when its attempt settles. */
  method SendCode(db: Database, registry: Registry, twilio: TwilioConfig, req: SendCodeRequest,
                  rateLimit: Option<bool>, code: string, smsReply: Outcome<HttpReply>,
                  nodeEnv: string, now: int, sentAt: int, settled: int)
    returns (reply: Reply)
    requires db.Valid() && registry.Valid()
    modifies db, registry, registry.breakers.Values
    ensures db.Valid() && registry.Valid()
    ensures db.verifiedUsers == old(db.verifiedUsers) && db.sessionVerifications == old(db.sessionVerifications)
    ensures db.visitors == old(db.visitors) && db.sessions == old(db.sessions)
    ensures !Present(req.phoneNumber) || !Present(req.visitorId) ==>
      && reply == Reply(400, ErrorBody("Missing required fields", None))
      && unchanged(db) && registry.breakers == old(registry.breakers)
    ensures Present(req.phoneNumber) && Present(req.visitorId) && rateLimit != Some(true) ==>
      && reply == Reply(429, ErrorBody("Too many verification attempts. Please try again in 10 minutes.", None))
      && unchanged(db) && registry.breakers == old(registry.breakers)
    ensures Present(req.phoneNumber) && Present(req.visitorId) && rateLimit == Some(true) && IsConfigured(twilio) ==>
      "twilio" in registry.breakers
    ensures Present(req.phoneNumber) && Present(req.visitorId) && rateLimit == Some(true) ==>
      var phone := FormatPhoneNumber(req.phoneNumber.value);
      var sms :=
        if !IsConfigured(twilio) then Returned(SmsResult(true, Some("dev-mode-" + IntToString(sentAt)), None))
        else
          var before := if "twilio" in old(registry.breakers) then old(registry.breakers["twilio"].Snap()) else Initial;
          ExecuteSpec(registry.breakers["twilio"].config, before, SmsAttempt(smsReply), sentAt, settled).result;
      (reply, db.phoneVerifications, db.auditLog)
        == SettleSms(sms, old(db.phoneVerifications) + [NewCode(phone, code, req.visitorId.value, now)], old(db.auditLog),
                     phone, code, req.visitorId.value, nodeEnv)
  {
    if !Present(req.phoneNumber) || !Present(req.visitorId) {
      return Reply(400, ErrorBody("Missing required fields", None));
    }
    var phone := FormatPhoneNumber(req.phoneNumber.value);
    if rateLimit != Some(true) {
      return Reply(429, ErrorBody("Too many verification attempts. Please try again in 10 minutes.", None));
    }
    db.phoneVerifications := db.phoneVerifications + [NewCode(phone, code, req.visitorId.value, now)];
    reply := Dispatch(db, registry, twilio, phone, code, req.visitorId.value, smsReply, nodeEnv, sentAt, settled);
  }

  /** The part of send-code after the record is stored: send the SMS and
      settle the reply, the stored records and the audit log. */
  method Dispatch(db: Database, registry: Registry, twilio: TwilioConfig, phone: string, code: string,
                  visitorId: string, smsReply: Outcome<HttpReply>, nodeEnv: string, sentAt: int, settled: int)
    returns (reply: Reply)
    requires db.Valid() && registry.Valid()
    modifies db, registry, registry.breakers.Values
    ensures db.Valid() && registry.Valid()
    ensures db.verifiedUsers == old(db.verifiedUsers) && db.sessionVerifications == old(db.sessionVerifications)
    ensures db.visitors == old(db.visitors) && db.sessions == old(db.sessions)
    ensures IsConfigured(twilio) ==> "twilio" in registry.breakers
    ensures
      var sms :=
        if !IsConfigured(twilio) then Returned(SmsResult(true, Some("dev-mode-" + IntToString(sentAt)), None))
        else
          var before := if "twilio" in old(registry.breakers) then old(registry.breakers["twilio"].Snap()) else Initial;
          ExecuteSpec(registry.breakers["twilio"].config, before, SmsAttempt(smsReply), sentAt, settled).result;
      (reply, db.phoneVerifications, db.auditLog)
        == SettleSms(sms, old(db.phoneVerifications), old(db.auditLog), phone, code, visitorId, nodeEnv)
  {
    var sms := SendSms(registry, twilio, smsReply, sentAt, settled);
    reply := Settle(db, sms, phone, code, visitorId, nodeEnv);
  }

  /** How the handler answers once `sendSMS` has settled. */
  method Settle(db: Database, sms: Result<SmsResult>, phone: string, code: string, visitorId: string, nodeEnv: string)
    returns (reply: Reply)
    requires db.Valid()
    modifies db
    ensures db.Valid()
    ensures db.verifiedUsers == old(db.verifiedUsers) && db.sessionVerifications == old(db.sessionVerifications)
    ensures db.visitors == old(db.visitors) && db.sessions == old(db.sessions)
    ensures (reply, db.phoneVerifications, db.auditLog)
         == SettleSms(sms, old(db.phoneVerifications), old(db.auditLog), phone, code, visitorId, nodeEnv)
  {
    if sms.Threw? {
      return Reply(500, ErrorBody("Failed to send verification code", None));
    }
    if !sms.value.success {
      db.phoneVerifications := MarkFailed(db.phoneVerifications, phone, code);
      return Reply(500, ErrorBody("Failed to send verification code", None));
    }
    db.auditLog := db.auditLog
      + [AuditEntry("verification_code_sent", "phone_verification", None, Some(visitorId), Some(MaskPhone(phone)))];
    reply := Reply(200, CodeSent("Verification code sent", if nodeEnv == "development" then Some(code) else None));
  }

  // ---------------------------------------------------------------------
  // verify-code

  datatype VerifyCodeRequest = VerifyCodeRequest(
    phoneNumber: Option<string>, code: Option<string>, fullName: Option<string>,
    visitorId: Option<string>, sessionId: Option<string>, smsConsent: bool, callConsent: bool)

  predicate HasAllFields(req: VerifyCodeRequest) {
    Present(req.phoneNumber) && Present(req.code) && Present(req.fullName)
    && Present(req.visitorId) && Present(req.sessionId)
  }

  /** The pending, unexpired record matching phone and code, if any. */
  function CodeMatch(rows: seq<PhoneVerification>, phone: string, code: string, now: int): (i: Option<nat>)
    ensures i.Some? ==> i.value < |rows| && IsOpenFor(rows[i.value], phone, now) && rows[i.value].code == code
    ensures i.None? ==> forall j | 0 <= j < |rows| :: !(IsOpenFor(rows[j], phone, now) && rows[j].code == code)
  {
    FirstIndex(rows, (r: PhoneVerification) => IsOpenFor(r, phone, now) && r.code == code)
  }

  /** The most recent pending, unexpired record for the phone, if any. */
  function LatestOpen(rows: seq<PhoneVerification>, phone: string, now: int): (i: Option<nat>)
    ensures i.Some? ==> i.value < |rows| && IsOpenFor(rows[i.value], phone, now)
    ensures i.Some? ==> forall j | i.value < j < |rows| :: !IsOpenFor(rows[j], phone, now)
    ensures i.None? ==> forall j | 0 <= j < |rows| :: !IsOpenFor(rows[j], phone, now)
  {
    LastIndex(rows, (r: PhoneVerification) => IsOpenFor(r, phone, now))
  }

  /** The handler's answer when no open record matches the code: a wrong
      guess is booked on the phone's latest open record if there is one;
      otherwise the code is reported expired or unknown and nothing changes. */
  function RejectCode(rows: seq<PhoneVerification>, phone: string, now: int)
    : (r: (Reply, seq<PhoneVerification>))
    ensures LatestOpen(rows, phone, now).None? ==>
      r == (Reply(400, ErrorBody("Verification code expired or not found", None)), rows)
    ensures LatestOpen(rows, phone, now).Some? ==>
      var j := LatestOpen(rows, phone, now).value;
      && r.1 == rows[j := WrongGuess(rows[j])]
      && r.0 == WrongCodeReply(rows[j].attempts + 1)
    ensures r.0.status == 400 || r.0.status == 403
    ensures r.0.body.ErrorBody? && (r.0.body.attemptsRemaining.Some? ==> r.0.body.attemptsRemaining.value >= 1)
  {
    match LatestOpen(rows, phone, now)
    case None => (Reply(400, ErrorBody("Verification code expired or not found", None)), rows)
    case Some(j) =>
      AttemptsRemainingPositive(rows[j].attempts);
      (WrongCodeReply(rows[j].attempts + 1), rows[j := WrongGuess(rows[j])])
  }

  /** The user row the upsert writes. */
  function UserFor(req: VerifyCodeRequest, phone: string): (u: VerifiedUser)
    requires HasAllFields(req)
    ensures u.phone == phone && u.phoneVerified
    ensures u.fullName == req.fullName.value && u.visitorId == req.visitorId.value
    ensures u.smsConsent == req.smsConsent && u.callConsent == req.callConsent
  {
    VerifiedUser(req.fullName.value, phone, true, req.smsConsent, req.callConsent, req.visitorId.value)
  }

  /** The id the update-or-insert by phone number lands on: the existing user holding
      the phone, or the freshly generated id when there is none. */
  ghost predicate UpsertTarget(users: map<string, VerifiedUser>, phone: string, newUserId: string, uid: string) {
    || (uid in users && users[uid].phone == phone)
    || (uid == newUserId && forall u | u in users :: users[u].phone != phone)
  }

  /** After a successful verification exactly one verified user holds the
      phone number, and it is the row just written. */
  lemma OneUserPerPhone(users: map<string, VerifiedUser>, phone: string, newUserId: string, uid: string, user: VerifiedUser)
    requires UniquePhones(users)
    requires UpsertTarget(users, phone, newUserId, uid) && user.phone == phone
    ensures var after := users[uid := user];
      && uid in after && after[uid] == user
      && (forall u | u in after && after[u].phone == phone :: u == uid)
      && UniquePhones(after)
  {
  }

  /** The rows the verified branch writes besides the code record: the user
      upsert, the session link, the visitor's known name (when the visitor
      exists) and the audit entry carrying the masked phone. */
  ghost predicate VerifiedWrites(
    req: VerifyCodeRequest, phone: string, uid: string,
    users0: map<string, VerifiedUser>, users1: map<string, VerifiedUser>,
    links0: map<(string, string), bool>, links1: map<(string, string), bool>,
    visitors0: map<string, VisitorRow>, visitors1: map<string, VisitorRow>,
    audit0: seq<AuditEntry>, audit1: seq<AuditEntry>)
    requires HasAllFields(req)
  {
    var visitorId := req.visitorId.value;
    && users1 == users0[uid := UserFor(req, phone)]
    && links1 == links0[(req.sessionId.value, uid) := true]
    && visitors1 == (if visitorId in visitors0
                     then visitors0[visitorId := visitors0[visitorId].(knownName := Some(req.fullName.value))]
                     else visitors0)
    && audit1 == audit0 + [AuditEntry("phone_verified", "verified_user", Some(uid), Some(visitorId), Some(MaskPhone(phone)))]
  }

  /** The lookup of the verified user by phone number: the id of the user
      already holding the phone, which is then updated, or the new id the
      insert returns when there is none. */
  method UpsertId(users: map<string, VerifiedUser>, phone: string, newUserId: string) returns (uid: string)
    ensures UpsertTarget(users, phone, newUserId, uid)
  {
    if exists u :: u in users && users[u].phone == phone {
      uid :| uid in users && users[uid].phone == phone;
    } else {
      uid := newUserId;
    }
  }

  /** The verified branch: mark record `i` verified and write the user,
      session link, known name and audit entry. */
  method Complete(db: Database, req: VerifyCodeRequest, phone: string, i: nat, newUserId: string) returns (uid: string)
    requires db.Valid() && HasAllFields(req) && i < |db.phoneVerifications|
    requires newUserId !in db.verifiedUsers
    modifies db
    ensures db.Valid() && db.sessions == old(db.sessions)
    ensures db.phoneVerifications == old(db.phoneVerifications)[i := old(db.phoneVerifications)[i].(status := Verified)]
    ensures UpsertTarget(old(db.verifiedUsers), phone, newUserId, uid)
    ensures VerifiedWrites(req, phone, uid, old(db.verifiedUsers), db.verifiedUsers, old(db.sessionVerifications),
                           db.sessionVerifications, old(db.visitors), db.visitors, old(db.auditLog), db.auditLog)
  {
    uid := UpsertId(db.verifiedUsers, phone, newUserId);
    OneUserPerPhone(db.verifiedUsers, phone, newUserId, uid, UserFor(req, phone));
    var visitorId := req.visitorId.value;
    if visitorId in db.visitors {
      var row := db.visitors[visitorId].(knownName := Some(req.fullName.value));
      SameCookiesKeepUnique(db.visitors, visitorId, row);
      db.visitors := db.visitors[visitorId := row];
    }
    db.phoneVerifications := db.phoneVerifications[i := db.phoneVerifications[i].(status := Verified)];
    db.verifiedUsers := db.verifiedUsers[uid := UserFor(req, phone)];
    db.sessionVerifications := db.sessionVerifications[(req.sessionId.value, uid) := true];
    db.auditLog := db.auditLog + [AuditEntry("phone_verified", "verified_user", Some(uid), Some(visitorId), Some(MaskPhone(phone)))];
  }

  /** POST /api/verification/verify-code. `newUserId` is the id the database
      generates if a verified user has to be inserted. */
  method VerifyCode(db: Database, req: VerifyCodeRequest, now: int, newUserId: string) returns (reply: Reply)
    requires db.Valid()
    requires newUserId !in db.verifiedUsers
    modifies db
    ensures db.Valid() && db.sessions == old(db.sessions)
    ensures !HasAllFields(req) ==> reply == Reply(400, ErrorBody("Missing required fields", None)) && unchanged(db)
    ensures HasAllFields(req) ==>
      var phone := FormatPhoneNumber(req.phoneNumber.value);
      CodeMatch(old(db.phoneVerifications), phone, req.code.value, now).None? ==>
        && (reply, db.phoneVerifications) == RejectCode(old(db.phoneVerifications), phone, now)
        && db.verifiedUsers == old(db.verifiedUsers) && db.sessionVerifications == old(db.sessionVerifications)
        && db.visitors == old(db.visitors) && db.auditLog == old(db.auditLog)
    ensures HasAllFields(req) ==>
      var phone := FormatPhoneNumber(req.phoneNumber.value);
      var rows := old(db.phoneVerifications);
      CodeMatch(rows, phone, req.code.value, now).Some? ==>
        var i := CodeMatch(rows, phone, req.code.value, now).value;
        && db.phoneVerifications == rows[i := rows[i].(status := Verified)]
        && reply.body.PhoneVerified? && reply == Reply(200, PhoneVerified(reply.body.userId, "Phone verified successfully"))
        && UpsertTarget(old(db.verifiedUsers), phone, newUserId, reply.body.userId)
        && VerifiedWrites(req, phone, reply.body.userId, old(db.verifiedUsers), db.verifiedUsers,
                          old(db.sessionVerifications), db.sessionVerifications, old(db.visitors), db.visitors,
                          old(db.auditLog), db.auditLog)
  {
    if !HasAllFields(req) {
      return Reply(400, ErrorBody("Missing required fields", None));
    }
    var phone := FormatPhoneNumber(req.phoneNumber.value);
    var found := CodeMatch(db.phoneVerifications, phone, req.code.value, now);
    if found.None? {
      var rows;
      reply, rows := RejectCode(db.phoneVerifications, phone, now).0, RejectCode(db.phoneVerifications, phone, now).1;
      db.phoneVerifications := rows;
      return;
    }
    var uid := Complete(db, req, phone, found.value, newUserId);
    reply := Reply(200, PhoneVerified(uid, "Phone verified successfully"));
  }
}
