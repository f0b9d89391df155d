/** The client-side visitor hook (src/hooks/useVisitor.ts): the cookie that
    carries the visitor's id, the visitor state the page keeps, and what it
    sends to the visitor routes. The browser's cookie string, fresh ids and
    the replies of the routes are parameters. */
module VisitorClient {
  import opened Common

  const CookieName := "riscent_visitor"
  const CookiePrefix := CookieName + "="

  /** One year, the cookie's max-age. */
  const MaxAgeSeconds := 365 * 24 * 60 * 60

  /** An entry of `document.cookie` names the visitor cookie when, trimmed,
      it starts with "riscent_visitor=". */
  predicate IsVisitorEntry(entry: string) {
    StartsWith(Trim(entry), CookiePrefix)
  }

  /** The index of the first entry that `p` accepts (`Array.prototype.find`
      returns that entry). */
  function FindFirst(entries: seq<string>, p: string -> bool): (r: Option<nat>)
    ensures r.Some? ==> r.value < |entries| && p(entries[r.value])
    ensures r.Some? ==> forall j | 0 <= j < r.value :: !p(entries[j])
    ensures r.None? ==> forall j | 0 <= j < |entries| :: !p(entries[j])
    decreases |entries|
  {
    if entries == [] then None
    else if p(entries[0]) then Some(0)
    else
      var rest := FindFirst(entries[1..], p);
      if rest.Some? then Some(rest.value + 1) else None
  }

  function FindVisitorEntry(entries: seq<string>): Option<nat> {
    FindFirst(entries, IsVisitorEntry)
  }

  /** A visitor entry contains '=', so it splits into at least two pieces. */
  lemma VisitorEntryHasEquals(entry: string)
    requires IsVisitorEntry(entry)
    ensures '=' in entry && |Split(entry, '=')| >= 2
  {
    assert Trim(entry)[|CookieName|] == CookiePrefix[|CookieName|] == '=';
    TrimKeepsCharacters(entry, '=');
    SplitAtFirst(entry, '=');
  }

  /** `visitorCookie.split('=')[1].trim()` */
  function EntryValue(entry: string): (v: string)
    requires IsVisitorEntry(entry)
    ensures v != [] ==> !IsJsWhitespace(v[0]) && !IsJsWhitespace(v[|v| - 1])
  {
    VisitorEntryHasEquals(entry);
    Trim(Split(entry, '=')[1])
  }

  /** The cookie lookup: the value of the first visitor entry, if any. */
  function LookupCookie(cookie: string): (r: Option<string>)
    ensures r.Some? <==> FindVisitorEntry(Split(cookie, ';')).Some?
  {
    var entries := Split(cookie, ';');
    match FindVisitorEntry(entries)
    case Some(i) => Some(EntryValue(entries[i]))
    case None => None
  }

  /** The text between the first and the second '=' of a string that has
      one (up to its end when there is no second). */
  function BetweenEquals(s: string): string
    requires '=' in s
  {
    var rest := s[IndexOf(s, '=') + 1..];
    rest[..IndexOf(rest, '=')]
  }

  /** The value read from an entry is the trimmed text between its first
      and second '='. */
  lemma EntryValueIsBetweenEquals(entry: string)
    requires IsVisitorEntry(entry)
    ensures '=' in entry && EntryValue(entry) == Trim(BetweenEquals(entry))
  {
    VisitorEntryHasEquals(entry);
    SplitAtFirst(entry, '=');
    var rest := entry[IndexOf(entry, '=') + 1..];
    SplitAtFirst(rest, '=');
    assert Split(entry, '=')[1] == Split(rest, '=')[0];
  }

  /** What `getCookieId` yields: the id, and the cookie it writes when it
      had to make a new one. */
  datatype CookieId = CookieId(id: string, written: Option<string>)

  /** The cookie written for a new id. */
  function NewCookie(id: string): (c: string)
    ensures StartsWith(c, CookiePrefix + id)
  {
    CookiePrefix + id + "; max-age=" + NatToString(MaxAgeSeconds) + "; path=/; SameSite=Lax"
  }

  /** `getCookieId`: '' outside a browser; otherwise the id found in the
      cookie, or `freshId` written as a new cookie. */
  function GetCookieId(inBrowser: bool, cookie: string, freshId: string): (r: CookieId)
    ensures !inBrowser ==> r == CookieId("", None)
    ensures inBrowser && LookupCookie(cookie).Some? ==> r == CookieId(LookupCookie(cookie).value, None)
    ensures inBrowser && LookupCookie(cookie).None? ==> r == CookieId(freshId, Some(NewCookie(freshId)))
  {
    if !inBrowser then CookieId("", None)
    else
      match LookupCookie(cookie)
      case Some(v) => CookieId(v, None)
      case None => CookieId(freshId, Some(NewCookie(freshId)))
  }

  /** How `document.cookie` lists a cookie after the ones before it:
      "; " then "riscent_visitor=<id>". */
  function ListedAfter(cookie: string, id: string): string {
    cookie + [';'] + ListedEntry(id)
  }

  /** The entry the new cookie becomes in the list, with its leading space. */
  function ListedEntry(id: string): string {
    " " + CookiePrefix + id
  }

  /** Once the new cookie is listed after the entries the browser already
      had, the next lookup finds the same id (ids being free of ';', '=' and
      surrounding whitespace, as uuids are). */
  lemma WrittenIdIsFoundAgain(cookie: string, freshId: string)
    requires LookupCookie(cookie).None?
    requires freshId != "" && ';' !in freshId && '=' !in freshId && Trim(freshId) == freshId
    ensures LookupCookie(ListedAfter(cookie, freshId)) == Some(freshId)
  {
    var entry := ListedEntry(freshId);
    var entries := Split(cookie, ';');
    var listed := Split(ListedAfter(cookie, freshId), ';');
    EntryIsLast(cookie, freshId);
    NewEntryValue(freshId);
    FirstMatchAfterNone(entries, entry, IsVisitorEntry);
    assert FindVisitorEntry(listed) == Some(|entries|);
    assert listed[|entries|] == entry;
  }

  /** The new entry is the last of the cookie list. */
  lemma EntryIsLast(cookie: string, freshId: string)
    requires ';' !in freshId
    ensures Split(ListedAfter(cookie, freshId), ';') == Split(cookie, ';') + [ListedEntry(freshId)]
  {
    var entry := ListedEntry(freshId);
    SplitConcat(cookie, entry, ';');
    assert ';' !in entry by {
      assert entry == " riscent_visitor=" + freshId;
      assert ';' !in " riscent_visitor=";
    }
    SplitAtFirst(entry, ';');
  }

  /** The new entry names the visitor cookie and holds the fresh id. */
  lemma NewEntryValue(freshId: string)
    requires freshId != "" && '=' !in freshId && Trim(freshId) == freshId
    ensures IsVisitorEntry(ListedEntry(freshId)) && EntryValue(ListedEntry(freshId)) == freshId
  {
    NewEntryTrims(freshId);
    var t := CookiePrefix + freshId;
    assert t[..|CookiePrefix|] == CookiePrefix;
    NewEntrySplits(freshId);
  }

  lemma NewEntryTrims(freshId: string)
    requires freshId != "" && Trim(freshId) == freshId
    ensures Trim(ListedEntry(freshId)) == CookiePrefix + freshId
  {
    var t := CookiePrefix + freshId;
    assert ListedEntry(freshId) == [' '] + t;
    assert t[0] == 'r';
    assert t[|t| - 1] == freshId[|freshId| - 1];
    TrimLeadingSpace(t);
  }

  lemma NewEntrySplits(freshId: string)
    requires '=' !in freshId
    ensures Split(ListedEntry(freshId), '=') == [" riscent_visitor", freshId]
  {
    assert ListedEntry(freshId) == " riscent_visitor" + ['='] + freshId;
    assert '=' !in " riscent_visitor";
    SplitOnce(" riscent_visitor", freshId, '=');
  }

  lemma FirstMatchAfterNone(entries: seq<string>, entry: string, p: string -> bool)
    requires FindFirst(entries, p).None? && p(entry)
    ensures FindFirst(entries + [entry], p) == Some(|entries|)
  {
    var all := entries + [entry];
    assert all[|entries|] == entry;
    forall k | 0 <= k < |entries|
      ensures all[k] == entries[k]
    {
    }
  }

  // ---------------------------------------------------------------------
  // Visitor state

  /** The hook's state record. */
  datatype ClientState = ClientState(
    visitorId: Option<string>, cookieId: Option<string>, sessionId: Option<string>,
    phase: string, truthsRevealed: int, curtainPeeked: bool, curtainEntered: bool,
    isReturning: bool, totalVisits: int, timeOnPage: int, isLoading: bool, error: Option<string>)

  const InitialClient := ClientState(None, None, None, "curious", 0, false, false, false, 1, 0, true, None)

  /** The body of a successful /api/visitor/identify reply. */
  datatype Identity = Identity(
    visitorId: Option<string>, cookieId: Option<string>, phase: string, truthsRevealed: int,
    curtainPeeked: bool, curtainEntered: bool, isReturning: bool, totalVisits: int)

  /** How the identify request ended. */
  datatype IdentifyOutcome = IdentifyOk(identity: Identity) | IdentifyNotOk | IdentifyThrew(message: Option<string>)

  /** `identify`: an OK reply is copied into the state; any failure ends the
      loading with an error and leaves the visitor id alone. */
  function Identified(s: ClientState, o: IdentifyOutcome): (t: ClientState)
    ensures o.IdentifyOk? ==>
      var d := o.identity;
      && t.visitorId == d.visitorId && t.cookieId == d.cookieId && t.phase == d.phase
      && t.truthsRevealed == d.truthsRevealed && t.curtainPeeked == d.curtainPeeked
      && t.curtainEntered == d.curtainEntered && t.isReturning == d.isReturning
      && t.totalVisits == d.totalVisits && t.error == s.error
    ensures !o.IdentifyOk? ==> t == s.(isLoading := false, error := t.error) && t.error.Some?
    ensures o.IdentifyNotOk? ==> t.error == Some("Failed to identify visitor")
    ensures !t.isLoading && t.timeOnPage == s.timeOnPage && t.sessionId == s.sessionId
  {
    match o
    case IdentifyOk(d) =>
      s.(visitorId := d.visitorId, cookieId := d.cookieId, phase := d.phase, truthsRevealed := d.truthsRevealed,
         curtainPeeked := d.curtainPeeked, curtainEntered := d.curtainEntered, isReturning := d.isReturning,
         totalVisits := d.totalVisits, isLoading := false)
    case IdentifyNotOk => s.(isLoading := false, error := Some("Failed to identify visitor"))
    case IdentifyThrew(m) => s.(isLoading := false, error := Some(m.GetOr("Unknown error")))
  }

  /** How the session-start request ended. */
  datatype StartOutcome = StartOk(sessionId: Option<string>) | StartNotOk | StartThrew

  function SessionStarted(s: ClientState, o: StartOutcome): (t: ClientState)
    ensures t == if o.StartOk? then s.(sessionId := o.sessionId) else s
  {
    if o.StartOk? then s.(sessionId := o.sessionId) else s
  }

  /** The immediate local update of `trackEvent` (made only once the
      visitor id is known). */
  function Tracked(s: ClientState, eventType: string): (t: ClientState)
    ensures eventType == "revelation" ==> t == s.(truthsRevealed := s.truthsRevealed + 1)
    ensures eventType == "curtain_peek" ==> t == s.(curtainPeeked := true)
    ensures eventType == "curtain_enter" ==> t == s.(curtainEntered := true, phase := "engaged")
    ensures eventType !in {"revelation", "curtain_peek", "curtain_enter"} ==> t == s
  {
    if eventType == "revelation" then s.(truthsRevealed := s.truthsRevealed + 1)
    else if eventType == "curtain_peek" then s.(curtainPeeked := true)
    else if eventType == "curtain_enter" then s.(curtainEntered := true, phase := "engaged")
    else s
  }

  /** The interval timer's tick. */
  function Ticked(s: ClientState): ClientState {
    s.(timeOnPage := s.timeOnPage + 1)
  }

  /** What the page does while it is open: track events and timer ticks. */
  datatype PageEvent = Track(eventType: string) | Tick

  function Step(s: ClientState, e: PageEvent): ClientState {
    match e
    case Track(t) => if Present(s.visitorId) then Tracked(s, t) else s
    case Tick => Ticked(s)
  }

  function Replay(s: ClientState, events: seq<PageEvent>): ClientState
    decreases |events|
  {
    if events == [] then s else Replay(Step(s, events[0]), events[1..])
  }

  function CountTracked(events: seq<PageEvent>, eventType: string): nat
    decreases |events|
  {
    if events == [] then 0
    else (if events[0] == Track(eventType) then 1 else 0) + CountTracked(events[1..], eventType)
  }

  function CountTicks(events: seq<PageEvent>): nat
    decreases |events|
  {
    if events == [] then 0 else (if events[0].Tick? then 1 else 0) + CountTicks(events[1..])
  }

  /** Once identified, every revelation counts once and every tick one
      second; entering the curtain keeps the phase 'engaged'; before the
      visitor is known, tracking changes nothing. */
  lemma {:induction false} ReplayCounts(s: ClientState, events: seq<PageEvent>)
    ensures var t := Replay(s, events);
      && t.visitorId == s.visitorId
      && t.timeOnPage == s.timeOnPage + CountTicks(events)
      && t.truthsRevealed == s.truthsRevealed + (if Present(s.visitorId) then CountTracked(events, "revelation") else 0)
      && ((s.curtainEntered ==> s.phase == "engaged") ==> (t.curtainEntered ==> t.phase == "engaged"))
      && (!Present(s.visitorId) ==> t == s.(timeOnPage := t.timeOnPage))
    decreases |events|
  {
    if events != [] {
      StepCounts(s, events[0]);
      ReplayCounts(Step(s, events[0]), events[1..]);
    }
  }

  /** `ReplayCounts` for one event. */
  lemma StepCounts(s: ClientState, e: PageEvent)
    ensures var t := Step(s, e);
      && t.visitorId == s.visitorId
      && t.timeOnPage == s.timeOnPage + (if e.Tick? then 1 else 0)
      && t.truthsRevealed == s.truthsRevealed + (if Present(s.visitorId) && e == Track("revelation") then 1 else 0)
      && ((s.curtainEntered ==> s.phase == "engaged") ==> (t.curtainEntered ==> t.phase == "engaged"))
      && (!Present(s.visitorId) ==> t == s.(timeOnPage := t.timeOnPage))
  {
  }

  /** The session-end beacon: what it reports. */
  datatype Beacon = Beacon(visitorId: string, sessionId: string, timeOnPage: int, truthsRevealed: int, phase: string)

  /** The beacon sent on leaving the page, only with both ids known. */
  function EndBeacon(s: ClientState): (b: Option<Beacon>)
    ensures b.Some? <==> Present(s.visitorId) && Present(s.sessionId)
    ensures b.Some? ==> b.value == Beacon(s.visitorId.value, s.sessionId.value, s.timeOnPage, s.truthsRevealed, s.phase)
  {
    if Present(s.visitorId) && Present(s.sessionId) then
      Some(Beacon(s.visitorId.value, s.sessionId.value, s.timeOnPage, s.truthsRevealed, s.phase))
    else None
  }

  /** A failed identify leaves the page without a visitor id: nothing is
      tracked, no session starts and no beacon is sent. */
  lemma FailedIdentifySilencesPage(o: IdentifyOutcome, events: seq<PageEvent>)
    requires !o.IdentifyOk?
    ensures var s := Identified(InitialClient, o);
      && s.visitorId == None && !s.isLoading && s.error.Some?
      && Replay(s, events).truthsRevealed == 0 && !Replay(s, events).curtainEntered
      && EndBeacon(Replay(s, events)).None?
  {
    var s := Identified(InitialClient, o);
    ReplayCounts(s, events);
  }

  /** The hook: the state record as fields its callbacks replace. */
  class Visitor {
    var visitorId: Option<string>
    var cookieId: Option<string>
    var sessionId: Option<string>
    var phase: string
    var truthsRevealed: int
    var curtainPeeked: bool
    var curtainEntered: bool
    var isReturning: bool
    var totalVisits: int
    var timeOnPage: int
    var isLoading: bool
    var error: Option<string>

    function State(): ClientState
      reads this
    {
      ClientState(visitorId, cookieId, sessionId, phase, truthsRevealed, curtainPeeked, curtainEntered,
                  isReturning, totalVisits, timeOnPage, isLoading, error)
    }

    constructor ()
      ensures State() == InitialClient
    {
      visitorId := None;
      cookieId := None;
      sessionId := None;
      phase := "curious";
      truthsRevealed := 0;
      curtainPeeked := false;
      curtainEntered := false;
      isReturning := false;
      totalVisits := 1;
      timeOnPage := 0;
      isLoading := true;
      error := None;
    }

    /** `identify(cookieId)`: returns the visitor id, or nothing on failure. */
    method Identify(o: IdentifyOutcome) returns (id: Option<string>)
      modifies this
      ensures State() == Identified(old(State()), o)
      ensures id == if o.IdentifyOk? then o.identity.visitorId else None
    {
      match o {
        case IdentifyOk(d) =>
          visitorId := d.visitorId;
          cookieId := d.cookieId;
          phase := d.phase;
          truthsRevealed := d.truthsRevealed;
          curtainPeeked := d.curtainPeeked;
          curtainEntered := d.curtainEntered;
          isReturning := d.isReturning;
          totalVisits := d.totalVisits;
          isLoading := false;
          id := d.visitorId;
        case IdentifyNotOk =>
          isLoading := false;
          error := Some("Failed to identify visitor");
          id := None;
        case IdentifyThrew(m) =>
          isLoading := false;
          error := Some(m.GetOr("Unknown error"));
          id := None;
      }
    }

    /** `startSession(visitorId)` */
    method StartSession(o: StartOutcome) returns (id: Option<string>)
      modifies this
      ensures State() == SessionStarted(old(State()), o)
      ensures id == if o.StartOk? then o.sessionId else None
    {
      id := None;
      if o.StartOk? {
        sessionId := o.sessionId;
        id := o.sessionId;
      }
    }

    /** The mount effect: read or make the cookie id, identify, and start a
        session when an id came back. */
    method Init(inBrowser: bool, cookie: string, freshId: string, identify: IdentifyOutcome, start: StartOutcome)
      returns (cookieIdSent: string, written: Option<string>, sessionRequested: bool)
      modifies this
      ensures GetCookieId(inBrowser, cookie, freshId) == CookieId(cookieIdSent, written)
      ensures sessionRequested <==> identify.IdentifyOk? && Present(identify.identity.visitorId)
      ensures State() == if sessionRequested then SessionStarted(Identified(old(State()), identify), start)
                         else Identified(old(State()), identify)
    {
      var c := GetCookieId(inBrowser, cookie, freshId);
      cookieIdSent, written := c.id, c.written;
      var id := Identify(identify);
      sessionRequested := Present(id);
      if sessionRequested {
        var _ := StartSession(start);
      }
    }

    /** `trackEvent(type)`: `sent` tells whether the event was posted. */
    method TrackEvent(eventType: string) returns (sent: bool)
      modifies this
      ensures sent <==> Present(old(visitorId))
      ensures State() == Step(old(State()), Track(eventType))
    {
      if !Present(visitorId) {
        return false;
      }
      sent := true;
      if eventType == "revelation" {
        truthsRevealed := truthsRevealed + 1;
      } else if eventType == "curtain_peek" {
        curtainPeeked := true;
      } else if eventType == "curtain_enter" {
        curtainEntered := true;
        phase := "engaged";
      }
    }

    /** One tick of the one-second timer. */
    method Tick()
      modifies this
      ensures State() == Ticked(old(State()))
    {
      timeOnPage := timeOnPage + 1;
    }
  }
}
