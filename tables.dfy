/** The database rows the API routes read and write, as one object whose
    fields are the tables. Each SQL statement of a route becomes an explicit
    update of these fields. Timestamps are whole seconds. Rows of
    phone_verifications are kept in insertion order, which is also
    `created_at` order. */
module Tables {
  import opened Common

  datatype VerificationStatus = Pending | Verified | Failed

  /** A row of phone_verifications. */
  datatype PhoneVerification = PhoneVerification(
    phone: string, code: string, visitorId: string,
    status: VerificationStatus, attempts: nat, createdAt: int, expiresAt: int)

  /** A row of verified_users, keyed by user_id. */
  datatype VerifiedUser = VerifiedUser(
    fullName: string, phone: string, phoneVerified: bool,
    smsConsent: bool, callConsent: bool, visitorId: string)

  /** A row of visitors, keyed by visitor_id. `totalTimeSeconds` is a
      nullable column: `None` is NULL. */
  datatype VisitorRow = VisitorRow(
    cookieId: string, fingerprint: Option<string>, phase: string,
    truthsRevealed: int, curtainPeeked: bool, curtainEntered: bool,
    totalVisits: int, breathingCircleInteractions: int, maxScrollDepth: int,
    totalTimeSeconds: Option<int>, knownName: Option<string>)

  /** The part of an event's `data` the model reads: the scroll depth. */
  datatype EventData = EventData(depth: Option<int>)

  /** One element of a session's `events` JSON array. */
  datatype SessionEvent = SessionEvent(eventType: string, timestamp: string, data: Option<EventData>)

  /** A row of visitor_sessions, keyed by session_id. */
  datatype SessionRow = SessionRow(
    visitorId: string, entryPage: string, userAgent: string, deviceType: string, referrer: string,
    startedAt: int, endedAt: Option<int>, durationSeconds: Option<int>,
    exitPage: Option<string>, temporalState: Option<string>, events: seq<SessionEvent>)

  /** An audit_log entry, reduced to what the routes put in it. */
  datatype AuditEntry = AuditEntry(
    action: string, entityType: string, entityId: Option<string>, actorId: Option<string>,
    maskedPhone: Option<string>)

  ghost predicate UniquePhones(users: map<string, VerifiedUser>) {
    forall a, b | a in users && b in users && users[a].phone == users[b].phone :: a == b
  }

  ghost predicate UniqueCookies(visitors: map<string, VisitorRow>) {
    forall a, b | a in visitors && b in visitors && visitors[a].cookieId == visitors[b].cookieId :: a == b
  }

  class Database {
    var phoneVerifications: seq<PhoneVerification>
    var verifiedUsers: map<string, VerifiedUser>
    /** session_verifications: (session_id, user_id) -> phone_verified */
    var sessionVerifications: map<(string, string), bool>
    var visitors: map<string, VisitorRow>
    var sessions: map<string, SessionRow>
    var auditLog: seq<AuditEntry>

    /** At most one verified user per phone number, and at most one visitor
        per cookie id: the lookups by phone and by cookie find one row. */
    ghost predicate Valid()
      reads this
    {
      UniquePhones(verifiedUsers) && UniqueCookies(visitors)
    }

    constructor ()
      ensures Valid()
      ensures phoneVerifications == [] && verifiedUsers == map[] && sessionVerifications == map[]
      ensures visitors == map[] && sessions == map[] && auditLog == []
    {
      phoneVerifications := [];
      verifiedUsers := map[];
      sessionVerifications := map[];
      visitors := map[];
      sessions := map[];
      auditLog := [];
    }
  }

  /** Rewriting a visitor row without touching its cookie id keeps cookie ids
      unique. */
  lemma SameCookiesKeepUnique(visitors: map<string, VisitorRow>, id: string, row: VisitorRow)
    requires id in visitors && row.cookieId == visitors[id].cookieId
    requires UniqueCookies(visitors)
    ensures UniqueCookies(visitors[id := row])
  {
  }
}
