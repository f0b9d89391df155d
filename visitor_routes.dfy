/** The visitor API: POST /api/visitor/track (engagement events),
    POST /api/visitor/identify (cookie to visitor record) and
    POST /api/visitor/session (session start and end), as updates of the
    visitors, visitor_sessions and audit_log tables. Generated ids, the
    clock and request headers are inputs. */
module VisitorRoutes {
  import opened Common
  import opened Tables

  /** A visitor as the identify route reports it. */
  datatype Identity = Identity(
    visitorId: string, cookieId: string, phase: string, truthsRevealed: int,
    curtainPeeked: bool, curtainEntered: bool, isReturning: bool, totalVisits: int)

  datatype Body =
    | Success
    | ErrorBody(error: string)
    | Identified(identity: Identity)
    | SessionStarted(sessionId: string, startedAt: int)

  datatype Reply = Reply(status: int, body: Body)

  // ---------------------------------------------------------------------
  // track

  datatype TrackEvent = TrackEvent(eventType: string, data: Option<EventData>, timestamp: Option<string>)

  datatype TrackRequest = TrackRequest(visitorId: Option<string>, sessionId: Option<string>, event: Option<TrackEvent>)

  /** `(event.data?.depth as number) || 0` */
  function ScrollDepth(data: Option<EventData>): (d: int)
    ensures data.Some? && data.value.depth.Some? ==> d == data.value.depth.value
    ensures data.None? || data.value.depth.None? ==> d == 0
  {
    if data.Some? && data.value.depth.Some? then data.value.depth.value else 0
  }

  /** Engagement only grows from `a` to `b`: counters and the deepest scroll
      never go down and the curtain flags are never cleared. */
  predicate Grows(a: VisitorRow, b: VisitorRow) {
    && a.truthsRevealed <= b.truthsRevealed
    && a.breathingCircleInteractions <= b.breathingCircleInteractions
    && a.maxScrollDepth <= b.maxScrollDepth
    && (a.curtainPeeked ==> b.curtainPeeked)
    && (a.curtainEntered ==> b.curtainEntered)
  }

  /** What an event does to the visitor's row. Events the switch does not
      name ('interaction', 'page_view', anything else) leave it as it is. */
  function ApplyEvent(row: VisitorRow, e: TrackEvent): (r: VisitorRow)
    ensures Grows(row, r)
    ensures r.cookieId == row.cookieId && r.fingerprint == row.fingerprint && r.totalVisits == row.totalVisits
    ensures r.totalTimeSeconds == row.totalTimeSeconds && r.knownName == row.knownName
    ensures r.truthsRevealed == row.truthsRevealed + (if e.eventType == "revelation" then 1 else 0)
    ensures r.breathingCircleInteractions
         == row.breathingCircleInteractions + (if e.eventType == "breathing_circle" then 1 else 0)
    ensures r.maxScrollDepth == if e.eventType == "scroll" then Max(row.maxScrollDepth, ScrollDepth(e.data)) else row.maxScrollDepth
    ensures r.curtainPeeked == (row.curtainPeeked || e.eventType == "curtain_peek")
    ensures r.curtainEntered == (row.curtainEntered || e.eventType == "curtain_enter")
    ensures r.phase == if e.eventType == "curtain_enter" then "engaged" else row.phase
  {
    match e.eventType
    case "revelation" => row.(truthsRevealed := row.truthsRevealed + 1)
    case "curtain_peek" => row.(curtainPeeked := true)
    case "curtain_enter" => row.(curtainEntered := true, phase := "engaged")
    case "breathing_circle" => row.(breathingCircleInteractions := row.breathingCircleInteractions + 1)
    case "scroll" => row.(maxScrollDepth := Max(row.maxScrollDepth, ScrollDepth(e.data)))
    case _ => row
  }

  /** The row after a series of tracked events, in order. */
  function ApplyEvents(row: VisitorRow, events: seq<TrackEvent>): (r: VisitorRow)
    ensures r.cookieId == row.cookieId && r.fingerprint == row.fingerprint && r.totalVisits == row.totalVisits
    ensures r.totalTimeSeconds == row.totalTimeSeconds && r.knownName == row.knownName
    decreases |events|
  {
    if events == [] then row else ApplyEvents(ApplyEvent(row, events[0]), events[1..])
  }

  /** Number of events of the given type. */
  function CountOf(events: seq<TrackEvent>, eventType: string): nat {
    if events == [] then 0
    else (if events[0].eventType == eventType then 1 else 0) + CountOf(events[1..], eventType)
  }

  /** No series of events takes engagement back. */
  lemma {:induction false} EventsOnlyGrow(row: VisitorRow, events: seq<TrackEvent>)
    ensures Grows(row, ApplyEvents(row, events))
    ensures ApplyEvents(row, events).cookieId == row.cookieId
    decreases |events|
  {
    if events != [] {
      EventsOnlyGrow(ApplyEvent(row, events[0]), events[1..]);
    }
  }

  /** truths_revealed counts exactly the 'revelation' events, and
      breathing_circle_interactions the 'breathing_circle' ones. */
  lemma {:induction false} EventsAreCounted(row: VisitorRow, events: seq<TrackEvent>)
    ensures ApplyEvents(row, events).truthsRevealed == row.truthsRevealed + CountOf(events, "revelation")
    ensures ApplyEvents(row, events).breathingCircleInteractions
         == row.breathingCircleInteractions + CountOf(events, "breathing_circle")
    decreases |events|
  {
    if events != [] {
      EventsAreCounted(ApplyEvent(row, events[0]), events[1..]);
    }
  }

  /** max_scroll_depth ends at the largest of its start value and every
      reported scroll depth, and is one of them. */
  lemma {:induction false} ScrollDepthIsMaximum(row: VisitorRow, events: seq<TrackEvent>)
    ensures var d := ApplyEvents(row, events).maxScrollDepth;
      && d >= row.maxScrollDepth
      && (forall i | 0 <= i < |events| && events[i].eventType == "scroll" :: d >= ScrollDepth(events[i].data))
      && (d == row.maxScrollDepth
          || exists i | 0 <= i < |events| && events[i].eventType == "scroll" :: d == ScrollDepth(events[i].data))
    decreases |events|
  {
    if events != [] {
      var next := ApplyEvent(row, events[0]);
      ScrollDepthIsMaximum(next, events[1..]);
      var d := ApplyEvents(row, events).maxScrollDepth;
      assert d == ApplyEvents(next, events[1..]).maxScrollDepth;
      forall i | 0 <= i < |events| && events[i].eventType == "scroll"
        ensures d >= ScrollDepth(events[i].data)
      {
        if i > 0 {
          assert events[1..][i - 1] == events[i];
        }
      }
      if d != row.maxScrollDepth {
        if d == next.maxScrollDepth {
          assert events[0].eventType == "scroll" && d == ScrollDepth(events[0].data);
        } else {
          var k :| 0 <= k < |events[1..]| && events[1..][k].eventType == "scroll" && d == ScrollDepth(events[1..][k].data);
          assert events[k + 1] == events[1..][k];
        }
      }
    }
  }

  /** Once the curtain has been entered the visitor stays 'engaged', whatever
      comes after. */
  lemma {:induction false} CurtainEnterIsFinal(row: VisitorRow, events: seq<TrackEvent>, i: nat)
    requires i < |events| && events[i].eventType == "curtain_enter"
    ensures ApplyEvents(row, events).curtainEntered && ApplyEvents(row, events).phase == "engaged"
    decreases |events|
  {
    if i == 0 {
      StaysEngaged(ApplyEvent(row, events[0]), events[1..]);
    } else {
      assert events[1..][i - 1] == events[i];
      CurtainEnterIsFinal(ApplyEvent(row, events[0]), events[1..], i - 1);
    }
  }

  lemma {:induction false} StaysEngaged(row: VisitorRow, events: seq<TrackEvent>)
    requires row.curtainEntered && row.phase == "engaged"
    ensures ApplyEvents(row, events).curtainEntered && ApplyEvents(row, events).phase == "engaged"
    decreases |events|
  {
    if events != [] {
      StaysEngaged(ApplyEvent(row, events[0]), events[1..]);
    }
  }

  /** The entry appended to the session's `events`: the client's timestamp,
      or the server's clock when there is none. */
  function LoggedEvent(e: TrackEvent, nowIso: string): (s: SessionEvent)
    ensures s.eventType == e.eventType && s.data == e.data
    ensures s.timestamp == OrElse(e.timestamp, nowIso)
  {
    SessionEvent(e.eventType, OrElse(e.timestamp, nowIso), e.data)
  }

  predicate IsTrackable(req: TrackRequest) {
    Present(req.visitorId) && req.event.Some? && req.event.value.eventType != ""
  }

  /** POST /api/visitor/track. Unknown visitor or session ids match no row
      and so change nothing. `nowIso` is the server clock as ISO text. */
  method Track(db: Database, req: TrackRequest, nowIso: string) returns (reply: Reply)
    requires db.Valid()
    modifies db
    ensures db.Valid()
    ensures db.phoneVerifications == old(db.phoneVerifications) && db.verifiedUsers == old(db.verifiedUsers)
    ensures db.sessionVerifications == old(db.sessionVerifications)
    ensures !IsTrackable(req) ==> reply == Reply(400, ErrorBody("Missing required fields")) && unchanged(db)
    ensures IsTrackable(req) ==>
      var v, e := req.visitorId.value, req.event.value;
      && reply == Reply(200, Success)
      && db.visitors == (if v in old(db.visitors) then old(db.visitors)[v := ApplyEvent(old(db.visitors)[v], e)] else old(db.visitors))
      && db.sessions == (if Present(req.sessionId) && req.sessionId.value in old(db.sessions)
                         then old(db.sessions)[req.sessionId.value := old(db.sessions)[req.sessionId.value].(
                                events := old(db.sessions)[req.sessionId.value].events + [LoggedEvent(e, nowIso)])]
                         else old(db.sessions))
      && db.auditLog == old(db.auditLog)
           + (if e.eventType == "curtain_enter" then [AuditEntry("curtain_enter", "visitor", Some(v), Some(v), None)] else [])
  {
    if !IsTrackable(req) {
      return Reply(400, ErrorBody("Missing required fields"));
    }
    var v, e := req.visitorId.value, req.event.value;
    if v in db.visitors {
      SameCookiesKeepUnique(db.visitors, v, ApplyEvent(db.visitors[v], e));
      db.visitors := db.visitors[v := ApplyEvent(db.visitors[v], e)];
    }
    if e.eventType == "curtain_enter" {
      db.auditLog := db.auditLog + [AuditEntry("curtain_enter", "visitor", Some(v), Some(v), None)];
    }
    if Present(req.sessionId) && req.sessionId.value in db.sessions {
      var sid := req.sessionId.value;
      db.sessions := db.sessions[sid := db.sessions[sid].(events := db.sessions[sid].events + [LoggedEvent(e, nowIso)])];
    }
    reply := Reply(200, Success);
  }

  // ---------------------------------------------------------------------
  // identify

  datatype IdentifyRequest = IdentifyRequest(cookieId: Option<string>, fingerprint: Option<string>)

  /** Phase of a visitor row the route creates. */
  const InitialPhase := "curious"

  /** The row the insert creates: the cookie and the fingerprint (or null)
      it writes. Every other column takes its database default, assumed
      here: phase 'curious', no truths, no curtain flags, one visit, no
      breathing-circle interactions, scroll depth 0, total time 0 and no
      known name. */
  function NewVisitor(cookieId: string, fingerprint: Option<string>): (row: VisitorRow)
    ensures row.cookieId == cookieId && row.fingerprint == OrNull(fingerprint)
    ensures row.totalVisits == 1 && row.truthsRevealed == 0 && !row.curtainPeeked && !row.curtainEntered
    ensures row.knownName.None?
  {
    VisitorRow(cookieId, OrNull(fingerprint), InitialPhase, 0, false, false, 1, 0, 0, Some(0), None)
  }

  /** The response fields read from a visitor row. */
  function IdentityOf(visitorId: string, row: VisitorRow, isReturning: bool, totalVisits: int): (id: Identity)
    ensures id.visitorId == visitorId && id.cookieId == row.cookieId && id.phase == row.phase
    ensures id.truthsRevealed == row.truthsRevealed
    ensures id.curtainPeeked == row.curtainPeeked && id.curtainEntered == row.curtainEntered
    ensures id.isReturning == isReturning && id.totalVisits == totalVisits
  {
    Identity(visitorId, row.cookieId, row.phase, row.truthsRevealed, row.curtainPeeked, row.curtainEntered,
             isReturning, totalVisits)
  }

  /** POST /api/visitor/identify. `generatedCookieId` is the uuid made when
      the request carries no cookie id, `newVisitorId` the id the database
      gives a new row; `insertFails` says that the insert threw or returned
      no row, which the handler answers with 500. */
  method Identify(db: Database, req: IdentifyRequest, generatedCookieId: string, newVisitorId: string,
                  insertFails: bool)
    returns (reply: Reply)
    requires db.Valid() && newVisitorId !in db.visitors
    modifies db
    ensures db.Valid()
    ensures db.phoneVerifications == old(db.phoneVerifications) && db.verifiedUsers == old(db.verifiedUsers)
    ensures db.sessionVerifications == old(db.sessionVerifications) && db.sessions == old(db.sessions)
    ensures reply.status == 200 || reply.status == 500
    ensures reply.status == 500 <==>
      insertFails && forall u | u in old(db.visitors) :: old(db.visitors)[u].cookieId != OrElse(req.cookieId, generatedCookieId)
    ensures reply.status == 500 ==> reply == Reply(500, ErrorBody("Failed to identify visitor")) && unchanged(db)
    ensures reply.status == 200 ==>
      var cookie := OrElse(req.cookieId, generatedCookieId);
      reply.body.Identified? &&
      var id := reply.body.identity;
      && id.cookieId == cookie
      && id.visitorId in db.visitors && db.visitors[id.visitorId].cookieId == cookie
      && (id.isReturning <==> exists u | u in old(db.visitors) :: old(db.visitors)[u].cookieId == cookie)
      && (id.isReturning ==>
            && id.visitorId in old(db.visitors)
            && var row := old(db.visitors)[id.visitorId];
               && row.cookieId == cookie
               && db.visitors == old(db.visitors)[id.visitorId := row.(totalVisits := row.totalVisits + 1)]
               && id == IdentityOf(id.visitorId, row, true, row.totalVisits + 1)
               && db.auditLog == old(db.auditLog))
      && (!id.isReturning ==>
            && id.visitorId == newVisitorId
            && db.visitors == old(db.visitors)[newVisitorId := NewVisitor(cookie, req.fingerprint)]
            && id == IdentityOf(newVisitorId, NewVisitor(cookie, req.fingerprint), false, 1)
            && db.auditLog == old(db.auditLog) + [AuditEntry("create", "visitor", Some(newVisitorId), None, None)])
  {
    var cookie := if Present(req.cookieId) then req.cookieId.value else generatedCookieId;
    if exists u :: u in db.visitors && db.visitors[u].cookieId == cookie {
      var u :| u in db.visitors && db.visitors[u].cookieId == cookie;
      var row := db.visitors[u];
      SameCookiesKeepUnique(db.visitors, u, row.(totalVisits := row.totalVisits + 1));
      db.visitors := db.visitors[u := row.(totalVisits := row.totalVisits + 1)];
      return Reply(200, Identified(IdentityOf(u, row, true, row.totalVisits + 1)));
    }
    if insertFails {
      return Reply(500, ErrorBody("Failed to identify visitor"));
    }
    var row := NewVisitor(cookie, req.fingerprint);
    db.visitors := db.visitors[newVisitorId := row];
    db.auditLog := db.auditLog + [AuditEntry("create", "visitor", Some(newVisitorId), None, None)];
    reply := Reply(200, Identified(IdentityOf(newVisitorId, row, false, 1)));
  }

  /** The same cookie presented twice is one visitor: the second call finds
      the row the first one created and counts a second visit. */
  method SameCookieTwice(db: Database, cookie: string, id1: string, id2: string) returns (first: Identity, second: Identity)
    requires db.Valid() && db.visitors == map[] && id1 != id2 && cookie != ""
    modifies db
    ensures !first.isReturning && first.totalVisits == 1
    ensures second.isReturning && second.visitorId == first.visitorId && second.totalVisits == 2
  {
    var r1 := Identify(db, IdentifyRequest(Some(cookie), None), "", id1, false);
    first := r1.body.identity;
    var r2 := Identify(db, IdentifyRequest(Some(cookie), None), "", id2, false);
    second := r2.body.identity;
    assert db.visitors.Keys == {id1};
  }

  // ---------------------------------------------------------------------
  // session

  datatype SessionRequest = SessionRequest(
    visitorId: Option<string>, action: string, sessionId: Option<string>,
    entryPage: Option<string>, exitPage: Option<string>, temporalState: Option<string>)

  /** `/mobile/i` first, then `/tablet/i`, else desktop. */
  function DeviceType(userAgent: string): (d: string)
    ensures d == "mobile" <==> Contains(Lower(userAgent), "mobile")
    ensures d == "tablet" <==> !Contains(Lower(userAgent), "mobile") && Contains(Lower(userAgent), "tablet")
    ensures d == "desktop" || d == "mobile" || d == "tablet"
  {
    if Contains(Lower(userAgent), "mobile") then "mobile"
    else if Contains(Lower(userAgent), "tablet") then "tablet"
    else "desktop"
  }

  /** Any user agent naming both, in any letter case, is classified as
      mobile: the mobile test comes first. */
  lemma MobileWinsOverTablet(userAgent: string)
    requires Contains(Lower(userAgent), "mobile") && Contains(Lower(userAgent), "tablet")
    ensures DeviceType(userAgent) == "mobile" && DeviceType(userAgent) != "tablet"
  {
  }

  /** The row a session start inserts; schema defaults (events, temporal
      state) are represented by an empty event list and no temporal state. */
  function NewSession(visitorId: string, entryPage: Option<string>, userAgent: string, referrer: string, now: int)
    : (s: SessionRow)
    ensures s.visitorId == visitorId && s.entryPage == OrElse(entryPage, "/") && s.deviceType == DeviceType(userAgent)
    ensures s.startedAt == now && s.endedAt.None? && s.durationSeconds.None? && s.events == []
  {
    SessionRow(visitorId, OrElse(entryPage, "/"), userAgent, DeviceType(userAgent), referrer, now, None, None, None, None, [])
  }

  /** The session row after the end update: ended now, the duration since
      it started, the exit page (or null) and the temporal state (or '{}'). */
  function EndSession(s: SessionRow, exitPage: Option<string>, temporalState: Option<string>, now: int): (r: SessionRow)
    ensures r.endedAt == Some(now) && r.durationSeconds == Some(now - s.startedAt)
    ensures r.exitPage == OrNull(exitPage) && r.temporalState == Some(OrElse(temporalState, "{}"))
    ensures r.(endedAt := s.endedAt, durationSeconds := s.durationSeconds, exitPage := s.exitPage,
               temporalState := s.temporalState) == s
  {
    s.(endedAt := Some(now), durationSeconds := Some(now - s.startedAt), exitPage := OrNull(exitPage),
       temporalState := Some(OrElse(temporalState, "{}")))
  }

  /** The visitor's total time after the end update, as written: the sum of
      the old total and a scalar subquery. The subquery is NULL when no
      session row has the id, and NULL plus anything is NULL, so the total
      itself becomes NULL (`None`). */
  function EndedTotalAsWritten(total: Option<int>, session: Option<SessionRow>): (r: Option<int>)
    ensures r.Some? <==> total.Some? && session.Some?
    ensures r.Some? ==> r.value == total.value + session.value.durationSeconds.GetOr(0)
  {
    match (total, session)
    case (Some(t), Some(s)) => Some(t + s.durationSeconds.GetOr(0))
    case _ => None
  }

  /** An end beacon carrying an unknown session id wipes the visitor's
      accumulated time. */
  lemma UnknownSessionErasesTotalTime()
    ensures EndedTotalAsWritten(Some(600), None) == None
  {
  }

  /** The total time with the missing row counted as zero seconds, as the
      COALESCE in the subquery evidently intends. */
  function EndedTotal(total: Option<int>, session: Option<SessionRow>): (r: Option<int>)
    ensures r.Some? <==> total.Some?
    ensures r.Some? && session.None? ==> r == total
    ensures r.Some? && session.Some? ==> r.value == total.value + session.value.durationSeconds.GetOr(0)
  {
    match total
    case None => None
    case Some(t) => Some(t + match session
                              case None => 0
                              case Some(s) => s.durationSeconds.GetOr(0))
  }

  /** The written and the corrected totals differ only for an unknown
      session id, where the written one is NULL; the corrected total never
      loses time for a session that ended after it started. */
  lemma EndedTotalKeepsTime(total: Option<int>, session: Option<SessionRow>)
    ensures session.Some? ==> EndedTotalAsWritten(total, session) == EndedTotal(total, session)
    ensures EndedTotalAsWritten(total, session) != EndedTotal(total, session) <==> total.Some? && session.None?
    ensures total.Some? && (session.None? || session.value.durationSeconds.GetOr(0) >= 0) ==>
      EndedTotal(total, session).Some? && EndedTotal(total, session).value >= total.value
  {
  }

  /** Ending a known session at or after its start adds that many seconds to
      a visitor's non-NULL total. */
  lemma EndingAddsDuration(total: int, s: SessionRow, exitPage: Option<string>, temporalState: Option<string>, now: int)
    requires now >= s.startedAt
    ensures EndedTotalAsWritten(Some(total), Some(EndSession(s, exitPage, temporalState, now))) == Some(total + (now - s.startedAt))
    ensures EndedTotal(Some(total), Some(EndSession(s, exitPage, temporalState, now))) == Some(total + (now - s.startedAt))
  {
  }

  /** POST /api/visitor/session. `userAgent` and `referrer` are the request
      headers, `newSessionId` the id the database gives a new row. */
  method Session(db: Database, req: SessionRequest, userAgent: Option<string>, referrer: Option<string>,
                 now: int, newSessionId: string)
    returns (reply: Reply)
    requires db.Valid() && newSessionId !in db.sessions
    modifies db
    ensures db.Valid()
    ensures db.phoneVerifications == old(db.phoneVerifications) && db.verifiedUsers == old(db.verifiedUsers)
    ensures db.sessionVerifications == old(db.sessionVerifications) && db.auditLog == old(db.auditLog)
    ensures !Present(req.visitorId) ==> reply == Reply(400, ErrorBody("Missing visitorId")) && unchanged(db)
    ensures Present(req.visitorId) && req.action == "start" ==>
      && reply == Reply(200, SessionStarted(newSessionId, now))
      && db.sessions == old(db.sessions)[newSessionId := NewSession(req.visitorId.value, req.entryPage,
                                                                    OrElse(userAgent, ""), OrElse(referrer, ""), now)]
      && db.visitors == old(db.visitors)
    ensures Present(req.visitorId) && req.action == "end" && Present(req.sessionId) ==>
      var v, sid := req.visitorId.value, req.sessionId.value;
      && reply == Reply(200, Success)
      && db.sessions == (if sid in old(db.sessions)
                         then old(db.sessions)[sid := EndSession(old(db.sessions)[sid], req.exitPage, req.temporalState, now)]
                         else old(db.sessions))
      && db.visitors == (if v in old(db.visitors)
                         then old(db.visitors)[v := old(db.visitors)[v].(totalTimeSeconds :=
                                EndedTotalAsWritten(old(db.visitors)[v].totalTimeSeconds,
                                           if sid in db.sessions then Some(db.sessions[sid]) else None))]
                         else old(db.visitors))
    ensures Present(req.visitorId) && req.action != "start" && !(req.action == "end" && Present(req.sessionId)) ==>
      reply == Reply(400, ErrorBody("Invalid action or missing sessionId")) && unchanged(db)
  {
    if !Present(req.visitorId) {
      return Reply(400, ErrorBody("Missing visitorId"));
    }
    var v := req.visitorId.value;
    if req.action == "start" {
      var row := NewSession(v, req.entryPage, OrElse(userAgent, ""), OrElse(referrer, ""), now);
      db.sessions := db.sessions[newSessionId := row];
      return Reply(200, SessionStarted(newSessionId, now));
    }
    if req.action == "end" && Present(req.sessionId) {
      var sid := req.sessionId.value;
      if sid in db.sessions {
        db.sessions := db.sessions[sid := EndSession(db.sessions[sid], req.exitPage, req.temporalState, now)];
      }
      if v in db.visitors {
        var ended := if sid in db.sessions then Some(db.sessions[sid]) else None;
        var row := db.visitors[v].(totalTimeSeconds := EndedTotalAsWritten(db.visitors[v].totalTimeSeconds, ended));
        SameCookiesKeepUnique(db.visitors, v, row);
        db.visitors := db.visitors[v := row];
      }
      return Reply(200, Success);
    }
    reply := Reply(400, ErrorBody("Invalid action or missing sessionId"));
  }
}
