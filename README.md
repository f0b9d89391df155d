# riscent core, modelled in Dafny

This project models the logic of the riscent web application. The rest of
the application is presentation and I/O, which the model leaves out. What
it models:

- **The circuit breaker.** Every call to an outside service goes through
  one (`CircuitBreakers`). There is one breaker per service name, and the
  registry hands it out.
- **The health endpoint.** It combines a database probe with the state of
  the 'anthropic' breaker (`Health`).
- **The SMS client** (`Twilio`): sending through the breaker, formatting
  phone numbers and generating codes.
- **The two phone-verification routes** (`Verification`). They work on the
  database tables, which are held as maps and sequences in a `Database`
  object (`Tables`).
- **The three visitor routes** (`VisitorRoutes`): track, identify and
  session.
- **The thoughts and documents routes** (`Content`): slugs, the
  parameterised listing queries, and validation and defaults on create.
- **The client-side hooks and the verification modal:**
  - the visitor hook (`VisitorClient`);
  - the cost gate (`CostGate`);
  - the chat transcript (`SeqChat`);
  - the phone-verification wizard (`CostGateModal`).
- **Seq's identity texts** (`SeqIdentity`): the opening messages, the
  visitor-context section and the system prompt.

Some source code updates state in place: the breaker's fields, the
registry's map, the hooks' state cells and the route handlers' SQL
statements. That code is modelled as classes whose methods change fields.
Each such method is tied to a pure function of the old state
(`ensures State() == F(old(State()), ...)`). The properties are proved as
lemmas about those functions. Code that is pure in the source is modelled
as functions and lemmas.

Some things are parameters of the operations rather than modelled:
- clocks: `now` when a call starts, and `settled` when a guarded call
  settles;
- generated ids and codes;
- the answers of the database-side rate-limit function;
- the replies of HTTP endpoints and of the SMS provider;
- the browser's cookie string.

`getSeqOpeningMessages` exists twice in the source, in
`src/lib/seq/identity.ts:172-219` and `src/lib/seq/identity-client.ts:29-76`.
The two bodies are textually identical, so the model defines it once
(`SeqIdentity.Openings` and `SeqIdentity.OpeningMessages`). That single
definition is what each copy computes.

The health endpoint's status type admits 'unhealthy'
(`src/app/api/health/route.ts:14`), and the handler answers 503 for that
status (`src/app/api/health/route.ts:70`). But the only failure branch, a
failed database probe, sets 'degraded' (`src/app/api/health/route.ts:48`),
and no statement assigns 'unhealthy' to the overall status. So the 503
branch is unreachable and the answer is always 200. `Health.Check` proves
that the status is never 'unhealthy' and the code is always 200.

## Model

| member | source | states |
|---|---|---|
| CircuitBreakers.RaceWithTimeout | src/lib/circuit-breaker.ts:55-72 | The caller gets a value exactly when the operation resolves before the deadline. A rejection is rethrown unchanged; missing the deadline throws a TimeoutError. |
| CircuitBreakers.DefaultConfig | src/lib/circuit-breaker.ts:15-20 | Threshold 5, reset window 30000 ms and name 'default'. The timeout is the environment value when set, else 10000 ms. |
| CircuitBreakers.Merge | src/lib/circuit-breaker.ts:28-30 | Each supplied override wins and each absent one keeps the base value; no overrides leave the base unchanged. |
| CircuitBreakers.ShouldReset | src/lib/circuit-breaker.ts:94-99 | True when no failure is recorded, or when at least `resetTimeout` ms have passed since the last one. |
| CircuitBreakers.Admit | src/lib/circuit-breaker.ts:33-43 | A call is refused exactly when the breaker is open and the reset window has not elapsed. An admitted call never runs in the open state: open becomes half-open, and the failure count and time are kept. A breaker that is not open admits the call unchanged. |
| CircuitBreakers.BookSuccess | src/lib/circuit-breaker.ts:74-80 | The failure count becomes 0 and half-open becomes closed. Any other state and the last failure time are kept. |
| CircuitBreakers.BookFailure | src/lib/circuit-breaker.ts:82-92 | One more failure is counted and stamped with the settle time. The result is open exactly when the breaker was already open or the new count reaches the threshold; otherwise the state is kept. |
| CircuitBreakers.ExecuteSpec | src/lib/circuit-breaker.ts:32-53 | The operation runs exactly when `Admit` lets the call through. A refused call throws CircuitBreakerOpenError and changes nothing. An admitted call returns the race's result. It resets the failure count after a success and adds one failure otherwise. |
| CircuitBreakers.ExecutePreservesInv | src/lib/circuit-breaker.ts:32-92 | Every `execute` keeps the breaker invariant: non-closed states and a non-zero count have a failure time; for threshold >= 1, closed holds iff failures < threshold. |
| CircuitBreakers.FailFastWhileOpen | src/lib/circuit-breaker.ts:33-43 | While open and inside the reset window, `execute` throws CircuitBreakerOpenError. It does not invoke the operation, and state, failures and lastFailure stay unchanged. |
| CircuitBreakers.InvokedUnlessRefused | src/lib/circuit-breaker.ts:32-53 | The operation is not invoked iff the breaker is open with a failure inside the reset window. Otherwise it runs exactly once, and the caller sees the race's outcome. |
| CircuitBreakers.SuccessCloses | src/lib/circuit-breaker.ts:74-80 | An admitted call that succeeds returns its value, resets failures to 0 and leaves the breaker closed. Half-open closes; closed stays closed. |
| CircuitBreakers.FailureCounts | src/lib/circuit-breaker.ts:82-92 | An admitted failure (error or timeout) adds exactly one failure. It records the time the call settled, not the time it was admitted. The breaker is open iff the count reached the threshold, otherwise closed. The same error is thrown. |
| CircuitBreakers.HalfOpenFailureReopens | src/lib/circuit-breaker.ts:34-37 | A failed call in half-open, or the first call after the reset window, is invoked and reopens the breaker at once. |
| CircuitBreakers.OpenMeansThresholdReached | src/lib/circuit-breaker.ts:88-91 | Under the invariant, an open breaker has counted at least the threshold of failures and has a failure time. |
| CircuitBreakers.RunPreservesInv | src/lib/circuit-breaker.ts:32-53 | Any sequence of `execute` calls keeps the invariant. |
| CircuitBreakers.ConsecutiveFailures | src/lib/circuit-breaker.ts:82-92 | From closed, k consecutive failures (up to the threshold) are each counted, and lastFailure is the time the last one settled. The breaker opens exactly when the count reaches the threshold. |
| CircuitBreakers.ThreeFailuresThenFailFast | src/lib/circuit-breaker.ts:34-43 | With threshold 3, three failures open the breaker. A fourth call within the reset window, counted from when the third call settled, fails fast without invoking the operation. |
| CircuitBreakers.TimeoutOpensWindowAtSettle | src/lib/circuit-breaker.ts:45-99 | A call that misses the deadline and opens the breaker records the time its timer fired, at least `now + timeout`. Any call that arrives before `now + timeout + resetTimeout` is refused. |
| CircuitBreakers.RecoveryAfterResetWindow | src/lib/circuit-breaker.ts:94-99 | Once the reset window has elapsed, a success closes the breaker with 0 failures. A failure reopens it with one more failure. |
| CircuitBreakers.CircuitBreaker.constructor | src/lib/circuit-breaker.ts:15-30 | The config is the defaults with each supplied field overriding. The default timeout comes from the environment or is 10000. The breaker starts closed, with 0 failures and no failure time. |
| CircuitBreakers.CircuitBreaker.Execute | src/lib/circuit-breaker.ts:32-53 | The new fields, the result and whether the operation ran are those of the specification step `ExecuteSpec`. Admission is decided at `now` and a failure is booked at `settled`. The invariant is kept. |
| CircuitBreakers.CircuitBreaker.OnSuccess | src/lib/circuit-breaker.ts:74-80 | Failures become 0 and half-open becomes closed; nothing else changes. |
| CircuitBreakers.CircuitBreaker.OnFailure | src/lib/circuit-breaker.ts:82-92 | Failures rise by one and lastFailure becomes the settle time it is given. The state becomes open when the threshold is reached. |
| CircuitBreakers.CircuitBreaker.GetState | src/lib/circuit-breaker.ts:102-108 | Reports the three fields and modifies nothing. |
| CircuitBreakers.Registry.constructor | src/lib/circuit-breaker.ts:127 | The registry starts with no breakers. |
| CircuitBreakers.Registry.Get | src/lib/circuit-breaker.ts:129-134 | Returns the breaker filed under the name: the same instance on every call, unchanged. The caller's overrides are used only when the breaker is created, and `config.name` is always the name. |
| CircuitBreakers.Registry.WithCircuitBreaker | src/lib/circuit-breaker.ts:137-144 | Looks the breaker up or creates it, then executes through it as `ExecuteSpec` says. Every other breaker is untouched. |
| CircuitBreakers.HealthProbeBeforeFirstChat | src/app/api/health/route.ts:53 | If the health probe creates the 'anthropic' breaker first, it gets threshold 5 and the default timeout. The LLM client's overrides (threshold 3, timeout 30000) are ignored. |
| CircuitBreakers.FirstChatBeforeHealthProbe | src/lib/circuit-breaker.ts:129-134 | If the LLM client's call comes first, its threshold 3 and timeout 30000 stick, and a later lookup without overrides sees them. |
| Health.Check | src/app/api/health/route.ts:23-73 | database: healthy with latency, or unhealthy with the error ('Unknown error' for a non-Error). anthropic: healthy iff closed or the lookup failed. Overall: healthy iff the probe succeeded and the breaker is not open, else degraded. Never unhealthy; code always 200. |
| Health.Get | src/app/api/health/route.ts:51-62 | Looks up 'anthropic' without overrides (creating it with the defaults if absent). Reports its state; the code is 200. |
| Health.HalfOpenLeavesOverallHealthy | src/app/api/health/route.ts:56-62 | A half-open breaker degrades the component but leaves the overall status healthy. |
| Health.DatabaseOutage | src/app/api/health/route.ts:43-49 | With the database down the status is degraded and the code is 200; the 503 branch is unreachable. |
| Twilio.SmsAttempt | src/lib/twilio.ts:41-64 | A settled HTTP reply becomes a resolved result, whose success is the reply's OK flag. A network error, a failed body read or a late reply stays a failure of the operation. |
| Twilio.IsConfigured | src/lib/twilio.ts:23-25 | True exactly when account sid, auth token and sender number are all non-empty. |
| Twilio.RejectedSmsCountsAsSuccess | src/lib/twilio.ts:57-61 | A non-OK reply is returned as `{success: false}`. The 'twilio' breaker books it as a success and clears its failure count. |
| Twilio.SendSms | src/lib/twilio.ts:30-69 | Unconfigured: success with a 'dev-mode-' id, and no breaker is created or touched. Configured: the attempt runs through the 'twilio' breaker as `ExecuteSpec` says; a breaker created here gets threshold 3 and timeout 10000. |
| Twilio.GenerateVerificationCode | src/lib/twilio.ts:74-76 | The code has exactly six digits and does not start with '0'. |
| Twilio.FormatPhoneNumber | src/lib/twilio.ts:81-97 | '+' then only digits: the input's digits, or '1' followed by them. The '1' is added iff there are exactly ten digits. |
| Common.Digits | src/lib/twilio.ts:83 | `replace(/\D/g, '')`: only digits remain and the result is no longer than the input. |
| Twilio.ElevenDigitsWithCountryCode | src/lib/twilio.ts:86-88 | Eleven digits starting with '1' become '+' followed by the digits. |
| Twilio.TenDigitsGetCountryCode | src/lib/twilio.ts:91-93 | Ten digits become '+1' followed by the digits. |
| Twilio.OtherCountsKeptAsIs | src/lib/twilio.ts:96 | Any other count becomes '+' followed by the digits; no digits gives "+". |
| Twilio.FormatIdempotent | src/lib/twilio.ts:81-97 | Formatting a formatted number returns it unchanged. |
| Verification.MaskPhone | src/app/api/verification/verify-code/route.ts:174 | All but the last four characters are kept and those four become '****'. A shorter phone becomes just '****'. |
| Verification.WrongGuess | src/app/api/verification/verify-code/route.ts:74-94 | A wrong guess adds exactly one attempt. The record becomes failed once attempts reach 3; nothing else changes. |
| Verification.IsOpenFor | src/app/api/verification/verify-code/route.ts:52-55 | A record is open for a phone when its phone matches, it is pending and its expiry is later than now. |
| Verification.ThirdWrongGuessFails | src/app/api/verification/verify-code/route.ts:82-94 | A fresh code stays open after two wrong guesses. The third fails it, and it is never found open again. |
| Verification.WrongCodeReply | src/app/api/verification/verify-code/route.ts:82-99 | At 3 or more attempts: 403 without a remaining count. Otherwise: 400 with attemptsRemaining = 3 - attempts. |
| Verification.AttemptsRemainingPositive | src/app/api/verification/verify-code/route.ts:96-99 | The remaining-attempts figure of a 400 reply is 1 or 2. |
| Verification.MarkFailed | src/app/api/verification/send-code/route.ts:72-76 | Every record with that phone and code becomes failed, whatever its status; all other records are unchanged. |
| Verification.SettleSms | src/app/api/verification/send-code/route.ts:65-111 | A thrown send gives 500 and keeps the record pending. A failed send gives 500, marks every record with that phone and code failed, and leaves every other record unchanged (`MarkFailed`). A success gives 200, appends an audit entry with the masked phone, and returns devCode only in development. |
| Verification.NewCode | src/app/api/verification/send-code/route.ts:54-62 | The stored record expires 600 seconds after `now`; its status pending and 0 attempts are assumed column defaults. It is open now and no longer open at expiry. |
| Verification.SendCode | src/app/api/verification/send-code/route.ts:22-112 | A missing field gives 400 and a refused rate limit gives 429; in both cases nothing is stored or sent. Otherwise the record is stored before the SMS is sent, and the outcome is as SettleSms says. Other tables are untouched. |
| Verification.Dispatch | src/app/api/verification/send-code/route.ts:65-104 | Sends the SMS through `SendSms` (dev mode when unconfigured, else the 'twilio' breaker), then settles the reply, the records and the audit log as SettleSms says. Only those tables change. |
| Verification.Settle | src/app/api/verification/send-code/route.ts:70-104 | The reply, the stored records and the audit log become exactly SettleSms of the settled send; no other table changes. |
| Verification.RejectCode | src/app/api/verification/verify-code/route.ts:59-105 | Without an open record for the phone: 400 'expired or not found', nothing changed. Otherwise the most recent open record takes the wrong guess, and the reply is WrongCodeReply for its new count. |
| Verification.CodeMatch | src/app/api/verification/verify-code/route.ts:49-57 | A found index is an open record for the phone with that code. No index means no record is open for the phone with that code. |
| Verification.LatestOpen | src/app/api/verification/verify-code/route.ts:61-70 | A found index is an open record for the phone, and no later record is open for it (newest first by creation order). No index means no record is open for the phone. |
| Verification.UpsertId | src/app/api/verification/verify-code/route.ts:116-149 | The chosen id belongs to a verified user already holding the phone, or, when no user holds it, is the id of the newly inserted row. |
| Verification.UserFor | src/app/api/verification/verify-code/route.ts:125-149 | The user row written on success: the formatted phone, marked verified, with the request's name, consents and visitor id. |
| Verification.OneUserPerPhone | src/app/api/verification/verify-code/route.ts:116-149 | After the update or insert by phone number exactly one verified user holds the phone: the row just written. Phone numbers stay unique across users. |
| Verification.Complete | src/app/api/verification/verify-code/route.ts:108-180 | The matching record becomes verified. The upsert lands on the phone's existing user or on the new id. The (session, user) link is set true and the known name is written when the visitor exists. An audit entry with the masked phone is appended. |
| Verification.VerifyCode | src/app/api/verification/verify-code/route.ts:34-194 | A missing field gives 400 with nothing changed. No open matching record: RejectCode's answer, and the other tables are unchanged. A match: 200 with the upserted user's id, and the writes of Complete. |
| VisitorRoutes.ScrollDepth | src/app/api/visitor/track/route.ts:85-91 | The reported depth, or 0 when there is none. |
| VisitorRoutes.ApplyEvent | src/app/api/visitor/track/route.ts:38-93 | 'revelation' and 'breathing_circle' add exactly one to their counter. 'scroll' keeps the max of the old and new depth. 'curtain_peek' sets peeked; 'curtain_enter' sets entered and phase 'engaged'. Any other type leaves the row as it is. The cookie, fingerprint, visit count, total time and known name never change. Engagement never decreases. |
| VisitorRoutes.ApplyEvents | src/app/api/visitor/track/route.ts:38-93 | Applying a series of events in order never changes the cookie, fingerprint, visit count, total time or known name. |
| VisitorRoutes.EventsOnlyGrow | src/app/api/visitor/track/route.ts:38-93 | No series of events decreases a counter or the scroll depth, or clears a curtain flag. |
| VisitorRoutes.EventsAreCounted | src/app/api/visitor/track/route.ts:39-83 | truths_revealed rises by the number of 'revelation' events, and the breathing counter by the number of 'breathing_circle' events. |
| VisitorRoutes.ScrollDepthIsMaximum | src/app/api/visitor/track/route.ts:85-91 | max_scroll_depth ends at the largest of its start value and all reported depths. |
| VisitorRoutes.CurtainEnterIsFinal | src/app/api/visitor/track/route.ts:55-75 | After a 'curtain_enter' the visitor stays entered and 'engaged', whatever comes after. |
| VisitorRoutes.StaysEngaged | src/app/api/visitor/track/route.ts:38-93 | No event takes an engaged visitor with the curtain entered back. |
| VisitorRoutes.LoggedEvent | src/app/api/visitor/track/route.ts:96-106 | The appended session event keeps the type and data. Its timestamp is the client's, or the server's clock when missing. |
| VisitorRoutes.IsTrackable | src/app/api/visitor/track/route.ts:30-35 | A track request is served only with a truthy visitor id and an event whose type is a non-empty string. |
| VisitorRoutes.Track | src/app/api/visitor/track/route.ts:25-116 | A missing visitorId or event type gives 400 with nothing changed. Otherwise ApplyEvent updates the visitor and the session's events grow by exactly one entry. 'curtain_enter' adds one audit entry. Unknown ids change nothing. |
| VisitorRoutes.NewVisitor | src/app/api/visitor/identify/route.ts:80-96 | The new row holds the cookie and fingerprint (or null) the insert writes. It also holds the assumed column defaults: 1 visit, no truths, no curtain flags and no known name. |
| VisitorRoutes.IdentityOf | src/app/api/visitor/identify/route.ts:62-75 | The reply copies the row's cookie, phase, truths and curtain flags, with the given returning flag and visit count. |
| VisitorRoutes.Identify | src/app/api/visitor/identify/route.ts:30-127 | Without a cookieId the generated one is used. A visitor with that cookie gets one more visit and isReturning true. Otherwise exactly one row is inserted and audited, with isReturning false and 1 visit; a failed insert gives 500 with nothing changed. |
| VisitorRoutes.SameCookieTwice | src/app/api/visitor/identify/route.ts:41-76 | The same cookie twice is one visitor. The first call inserts it; the second finds it and counts two visits. |
| VisitorRoutes.DeviceType | src/app/api/visitor/session/route.ts:44-49 | 'mobile' iff the user agent contains "mobile" (ASCII case-insensitive); else 'tablet' iff it contains "tablet"; else 'desktop'. |
| VisitorRoutes.MobileWinsOverTablet | src/app/api/visitor/session/route.ts:44-49 | Every user agent that names both 'mobile' and 'tablet', in any letter case, is classified as mobile and never as tablet. |
| VisitorRoutes.NewSession | src/app/api/visitor/session/route.ts:51-62 | The new session has the visitor, the entry page (default '/'), the device type and the start time, and no end. |
| VisitorRoutes.EndSession | src/app/api/visitor/session/route.ts:71-79 | The ended session gets: end time `now`, duration `now - start`, exit page or null, temporal state or '{}'. Nothing else changes. |
| VisitorRoutes.EndedTotalAsWritten | src/app/api/visitor/session/route.ts:82-90 | As written, the new total is NULL when no session row has the id or the old total is NULL. Otherwise it is the old total plus the duration (0 if null). |
| VisitorRoutes.UnknownSessionErasesTotalTime | src/app/api/visitor/session/route.ts:82-90 | An end request with an unknown session id wipes a total of 600 seconds to NULL. |
| VisitorRoutes.EndedTotal | src/app/api/visitor/session/route.ts:82-90 | The corrected total: the old total plus the session's duration, where a missing row or a null duration counts 0. It is NULL only when the old total is. |
| VisitorRoutes.EndedTotalKeepsTime | src/app/api/visitor/session/route.ts:82-90 | The written and corrected totals differ exactly when the old total is set and no session row has the id. The corrected total never loses time. |
| VisitorRoutes.EndingAddsDuration | src/app/api/visitor/session/route.ts:70-90 | Ending a known session adds exactly its duration to a non-NULL total, in the written and the corrected forms alike. |
| VisitorRoutes.Session | src/app/api/visitor/session/route.ts:27-106 | A missing visitorId gives 400. 'start' inserts NewSession and answers its id and start time. 'end' with a sessionId ends that session. It sets the visitor's total to `EndedTotalAsWritten`: the total plus the duration for a known session, NULL for an unknown one. Anything else gives 400 with nothing changed. |
| Content.SkipRun | src/app/api/thoughts/route.ts:79 | Drops the leading run of characters outside [a-z0-9]; what is left is a suffix of the input. |
| Content.Collapse | src/app/api/thoughts/route.ts:79 | Replacing each run of characters outside [a-z0-9] by one '-' leaves only [a-z0-9-], never two '-' in a row. The result is empty iff the input is. |
| Content.StripEdges | src/app/api/thoughts/route.ts:80 | The edge-hyphen replace drops at most one character at each end. A text with no hyphen at either end is unchanged. After a leading hyphen, the result is a prefix of the rest of the text. |
| Content.Slugify | src/app/api/thoughts/route.ts:77-80 | A slug holds only [a-z0-9-], never two '-' in a row, and never a '-' at either end. |
| Common.Lower | src/app/api/thoughts/route.ts:78 | Same length, with each ASCII capital folded and every other character kept. |
| Content.StripEdgesKeepsSlugShape | src/app/api/thoughts/route.ts:80 | Removing one leading and one trailing '-' from a collapsed text leaves a well-formed slug. |
| Content.SlugifyIdempotent | src/app/api/thoughts/route.ts:77-80 | Slugifying a slug returns it unchanged. |
| Content.SlugKeepsAlphanumerics | src/app/api/documents/route.ts:66-69 | The slug keeps exactly the lower-cased title's letters and digits, in order. |
| Content.NoAlphanumericsEmptySlug | src/app/api/thoughts/route.ts:80 | A title without letters or digits gives the empty slug. |
| Content.ClausePlaceholders | src/app/api/thoughts/route.ts:38 | A clause with no '$' followed by `$n` carries exactly the placeholder n. |
| Content.ThoughtsParams | src/app/api/thoughts/route.ts:36-47 | The parameters are the category, then the tag, each only when given. |
| Content.Numbered | src/app/api/thoughts/route.ts:35-46 | The placeholder numbers 1..k in order. |
| Content.ThoughtsQuery | src/app/api/thoughts/route.ts:23-61 | The query text's placeholders are exactly $1..$k, in order, for the k parameters (category, then tag). The ORDER BY clause comes last. |
| Content.AppendFilters | src/app/api/thoughts/route.ts:34-47 | Appends the category clause and then the tag clause, each only when given. The resulting text carries exactly the placeholders $1..$k for the k parameters collected. |
| Content.DocumentsQuery | src/app/api/documents/route.ts:21-50 | With a type: " AND type = $1" is appended and params = [type]. Without one: no clause and no params. ORDER BY comes last, and the placeholders match the parameters. |
| Content.CreateThought | src/app/api/thoughts/route.ts:64-107 | 400 iff title, content or category is missing. Otherwise 201 with the slug of the title and these defaults: excerpt null, tags [], author 'Riscent', published false. published_at is set iff published. |
| Content.ThoughtDefaults | src/app/api/thoughts/route.ts:86-96 | A thought given only the required fields gets no excerpt, no tags, author 'Riscent', and is unpublished with no publication time. |
| Content.CreateDocument | src/app/api/documents/route.ts:53-86 | 400 iff title, type or content is missing. Otherwise 201 with the slug of the title, description and pdf_url null when absent, and published false when absent. |
| CostGate.CostUpdated | src/hooks/useCostGate.ts:88-99 | Stores exactly the given cost and gate flag. Opens the modal iff the gate is reached for an unverified visitor; never closes it. Nothing else changes. |
| CostGate.MarkedVerified | src/hooks/useCostGate.ts:102-110 | Verified with the given user id and name, modal hidden, nothing else changed. |
| CostGate.ShowModal | src/hooks/useCostGate.ts:113-120 | Close and open change only showGateModal, to false and true. |
| CostGate.ShouldShowGate | src/hooks/useCostGate.ts:123 | True when the cost gate was reached and the visitor is not verified. |
| CostGate.ApplySessionStatus | src/hooks/useCostGate.ts:40-64 | An OK reply sets verified, the user id and name (empty text reads as null) and hasExistingUser, and ends loading; the cost, the gate flag and the modal are kept. A non-OK reply changes nothing; an exception only ends loading. |
| CostGate.ApplyCostStatus | src/hooks/useCostGate.ts:67-85 | An OK reply sets the cost (missing: 0) and the gate flag (missing: false); anything else changes nothing. The modal is never touched. |
| CostGate.VerifiedStaysClosed | src/hooks/useCostGate.ts:88-110 | After markVerified, no sequence of cost updates reopens the modal, and shouldShowGate stays false. |
| CostGate.ClosedStaysClosed | src/hooks/useCostGate.ts:88-99 | A verified visitor with the modal closed keeps it closed through any cost updates. |
| CostGate.UpdatesNeverClose | src/hooks/useCostGate.ts:90-96 | Cost updates never close an open modal. For an unverified visitor, any update reporting the gate reached leaves it open. |
| CostGate.CostGateHook.constructor | src/hooks/useCostGate.ts:27-37 | Initial state: cost 0, gate not reached, not verified, modal hidden, loading. The threshold defaults to 10. |
| CostGate.CostGateHook.UpdateCost | src/hooks/useCostGate.ts:88-99 | The new state is CostUpdated of the old. |
| CostGate.CostGateHook.MarkVerified | src/hooks/useCostGate.ts:102-110 | The new state is MarkedVerified of the old. |
| CostGate.CostGateHook.CloseGateModal | src/hooks/useCostGate.ts:113-115 | Only showGateModal changes, to false. |
| CostGate.CostGateHook.OpenGateModal | src/hooks/useCostGate.ts:118-120 | Only showGateModal changes, to true. |
| CostGate.CostGateHook.CheckSessionStatus | src/hooks/useCostGate.ts:40-64 | Skipped unless both ids are present; otherwise the state becomes ApplySessionStatus of the reply. |
| CostGate.CostGateHook.CheckCostStatus | src/hooks/useCostGate.ts:67-85 | Skipped without a visitor id; otherwise the state becomes ApplyCostStatus of the reply. |
| CostGateModal.SanitizeCode | src/components/seq/CostGateModal.tsx:315 | Only digits, at most six: the first min(6, n) digits of the input, in order. |
| CostGateModal.InitialStep | src/components/seq/CostGateModal.tsx:35 | The wizard opens on 'form' exactly when the user already exists, otherwise on 'info'; never on 'code' or 'success'. |
| CostGateModal.SanitizeIdempotent | src/components/seq/CostGateModal.tsx:315 | Sanitising a sanitised code changes nothing. |
| CostGateModal.SanitizeKeepsShortCodes | src/components/seq/CostGateModal.tsx:315 | A code of at most six digits is kept whole. |
| CostGateModal.SendCode | src/components/seq/CostGateModal.tsx:50-82 | Empty phone or name: only the error is set and no request is made. Otherwise the step becomes 'code' iff the reply is OK, the error is cleared iff OK, and loading ends. |
| CostGateModal.VerifyCode | src/components/seq/CostGateModal.tsx:85-128 | A code not of length 6 only sets the error. Otherwise the step becomes 'success' iff the reply is OK, and loading ends. A failed reply updates attemptsRemaining only when it carries the field. |
| CostGateModal.VerifyCallback | src/components/seq/CostGateModal.tsx:119-122 | onVerified is called iff a six-character code was verified successfully, with the reply's user id and the typed name. |
| CostGateModal.ShowsAttemptsHint | src/components/seq/CostGateModal.tsx:322-330 | The remaining-attempts hint shows only on the code step, inside a non-empty error, and only for a count strictly between 0 and 3. The form step's error box has no hint. |
| CostGateModal.Enabled | src/components/seq/CostGateModal.tsx:160-366 | Each control is available only on the step that renders it. Send needs name, phone and SMS consent and no request in flight; Verify needs six characters and no request in flight; Resend needs no request in flight. |
| CostGateModal.Next | src/components/seq/CostGateModal.tsx:187-362 | Each control's handler: Continue and Back set the step, the inputs set their field, the code input is sanitised, Send and Verify run their handlers, and Resend clears code and error, then sends. |
| CostGateModal.StepMoves | src/components/seq/CostGateModal.tsx:160-362 | Every enabled control makes one of the allowed moves: info-form, form-info, form-code, code-form, code-success. 'code' is entered only by a successful send and 'success' only by a successful verify. No control is enabled on 'success', so nothing leaves it. |
| CostGateModal.FailedRequestKeepsStep | src/components/seq/CostGateModal.tsx:71-116 | A failed send, verify or resend leaves the step as it was and sets an error. |
| CostGateModal.SuccessNeedsVerifiedCode | src/components/seq/CostGateModal.tsx:76-121 | A run of enabled controls from 'info' or 'form' that ends in 'success' contains a successful verify and a successful send or resend. |
| CostGateModal.CodeLeadsToSuccessByVerify | src/components/seq/CostGateModal.tsx:119 | From any other step, including 'code', reaching 'success' takes a successful verify. |
| CostGateModal.AttemptsOnlyFromReplies | src/components/seq/CostGateModal.tsx:112-114 | attemptsRemaining changes only through a verify reply that carries the field. |
| CostGateModal.HintNeedsReportedAttempts | src/components/seq/CostGateModal.tsx:326 | A freshly opened modal shows the remaining-attempts hint only after a verify reply reported the count. |
| CostGateModal.Modal.constructor | src/components/seq/CostGateModal.tsx:35-47 | Starts at 'form' for an existing user, else at 'info'. The name is prefilled, 3 attempts remain, and no hint is shown. |
| CostGateModal.Modal.HandleSendCode | src/components/seq/CostGateModal.tsx:50-82 | The new state is SendCode of the old. A request is made iff phone and name are both non-empty. |
| CostGateModal.Modal.HandleVerifyCode | src/components/seq/CostGateModal.tsx:85-128 | The new state is VerifyCode of the old. A request is made iff the code has six characters; the onVerified call is VerifyCallback's. |
| CostGateModal.Modal.TypeCode | src/components/seq/CostGateModal.tsx:315 | Only the code changes: it becomes the sanitised input. |
| CostGateModal.Modal.Resend | src/components/seq/CostGateModal.tsx:355-359 | Clears the code and the error, then sends again. |
| CostGateModal.Modal.GoTo | src/components/seq/CostGateModal.tsx:187 | The Continue and Back buttons change only the step. |
| SeqChat.CostUpdate | src/hooks/useSeqChat.ts:101-103 | onCostUpdate fires iff a callback is given and an answered reply carries currentCostCents. It gets that cost and the gate flag (missing: false). |
| SeqChat.Accepts | src/hooks/useSeqChat.ts:45-50 | A send goes ahead only for non-blank content and a truthy visitor id. |
| SeqChat.Submit | src/hooks/useSeqChat.ts:52-65 | The visitor's message is appended, thinking starts and the error is cleared; the conversation id and the thinking toggle are kept. |
| SeqChat.Settle | src/hooks/useSeqChat.ts:79-110 | Thinking stops in every case. A reply appends Seq's message, adopts the reply's conversation id and keeps the error. A failure appends nothing, keeps the conversation id and sets an error. |
| SeqChat.Send | src/hooks/useSeqChat.ts:44-110 | An ignored send changes nothing. An accepted one leaves the old messages, then the visitor's message, at the front, and ends with thinking stopped. The error is cleared exactly when Seq answered. |
| SeqChat.OpeningChat | src/hooks/useSeqChat.ts:115-130 | One 'seq' message per opening, in order, with id seq-opening-i, the text and the thinking. |
| SeqChat.IgnoredSendChangesNothing | src/hooks/useSeqChat.ts:45-50 | A blank message, or one sent without a visitor id, changes nothing. |
| SeqChat.AnsweredSendAppendsBoth | src/hooks/useSeqChat.ts:53-98 | An answered send appends exactly the visitor's message and then Seq's answer. It adopts the reply's conversation id, stops thinking and leaves no error. |
| SeqChat.FailedSendKeepsVisitorMessage | src/hooks/useSeqChat.ts:79-111 | A failed send keeps the visitor's message, stops thinking and sets the error; the conversation id is kept. |
| SeqChat.OpeningsAppended | src/hooks/useSeqChat.ts:115-130 | addOpeningMessages appends one 'seq' message per opening after the existing ones, which stay unchanged. |
| SeqChat.ToggleTwice | src/hooks/useSeqChat.ts:133-138 | A toggle negates showThinking; two toggles restore the state. |
| SeqChat.RunOnlyAppends | src/hooks/useSeqChat.ts:44-138 | Over any run of sends, openings and toggles the message list only grows, and the chat is never left thinking. There is exactly one visitor message per accepted send. |
| SeqChat.StepOnlyAppends | src/hooks/useSeqChat.ts:44-138 | The same for a single action. |
| SeqChat.Chat.constructor | src/hooks/useSeqChat.ts:32-38 | No conversation, no messages, not thinking, showThinking at its default, no error. |
| SeqChat.Chat.SendMessage | src/hooks/useSeqChat.ts:44-112 | The new state is Send of the old. The cost callback gets CostUpdate's call, and only for accepted sends. |
| SeqChat.Chat.AddOpeningMessages | src/hooks/useSeqChat.ts:115-130 | The new state is the old with the openings appended. |
| SeqChat.Chat.ToggleThinking | src/hooks/useSeqChat.ts:133-138 | The new state is the old with showThinking negated. |
| SeqChat.Chat.ClearConversation | src/hooks/useSeqChat.ts:141-149 | Back to the initial state, showThinking at its default. |
| SeqIdentity.Openings | src/lib/seq/identity.ts:172-219 | A returning visitor with conversations: "You came back." and the records message. A returning visitor without: the browser message. A new visitor: three messages, the time observed, then the truths one by truthsRevealed > 0, then the fixed question. |
| SeqIdentity.Say | src/lib/seq/identity.ts:178-216 | The text and shown thinking of each opening message. The two seconds-dependent texts are built from the time on page. |
| SeqIdentity.OpeningMessages | src/lib/seq/identity-client.ts:29-76 | The client copy returns, in order, the text and thinking of each chosen opening, as the server copy does. |
| SeqIdentity.FirstMessageStatesTime | src/lib/seq/identity-client.ts:52-55 | A new visitor's first message opens with the seconds spent on the page. |
| SeqIdentity.OpeningIgnoresHistory | src/lib/seq/identity.ts:178-194 | Memories never change the openings. For a new visitor, previous conversations do not either. |
| SeqIdentity.RecognitionNeedsRecords | src/lib/seq/identity.ts:178-187 | "You came back." appears iff the visitor is returning and has stored conversations. |
| SeqIdentity.ConversationLines | src/lib/seq/identity.ts:131-133 | One line per previous conversation, in order. |
| SeqIdentity.MemoryLines | src/lib/seq/identity.ts:140-142 | One line per memory, in order. |
| SeqIdentity.Render | src/lib/seq/identity.ts:123-163 | The text each pushed section line carries, with counts rendered in decimal. |
| SeqIdentity.History | src/lib/seq/identity.ts:126-146 | A new visitor gets the new-presence line alone. A returning visitor's history opens with the visit count and has at least one more line. |
| SeqIdentity.SessionLines | src/lib/seq/identity.ts:149-164 | Always the session header, time, truths and phase, in that order, then one truths remark. A time remark is added exactly when the time is over 60 or under 10 seconds. |
| SeqIdentity.ContextLines | src/lib/seq/identity.ts:119-164 | The section opens with the notice line and has at least seven lines. |
| SeqIdentity.BuildVisitorContextSection | src/lib/seq/identity.ts:119-167 | The joined section starts with the notice that the visitor is not the creator. |
| Common.Join | src/lib/seq/identity.ts:166 | An empty list joins to "", a single part to itself, and any non-empty list starts with its first part. |
| SeqIdentity.ReturningHistory | src/lib/seq/identity.ts:126-143 | A returning visitor gets the visit count, then the conversations header and one line per conversation (or the no-records line), then the memories header and one line per memory when there are memories. |
| SeqIdentity.NewPresenceHasNoHistory | src/lib/seq/identity.ts:144-146 | A new visitor gets only the new-presence line; the section depends on neither list. |
| SeqIdentity.MemoriesOnlyWhenStored | src/lib/seq/identity.ts:138-143 | The memories header appears iff the visitor is returning with memories, and then every memory has its line. |
| SeqIdentity.SessionFactsAlwaysListed | src/lib/seq/identity.ts:149-158 | Time on page, truths revealed and phase are always listed. The chose-truths remark appears iff truthsRevealed > 0; the no-truths remark otherwise. |
| SeqIdentity.HistoryHasNoRemarks | src/lib/seq/identity.ts:126-146 | The history lines never include a session remark. |
| SeqIdentity.TimeRemarks | src/lib/seq/identity.ts:160-164 | The over-a-minute remark appears iff more than 60 s, the moved-quickly remark iff fewer than 10 s. Never both; neither from 10 to 60 s. |
| SeqIdentity.BuildSeqSystemPrompt | src/lib/seq/identity.ts:28-117 | The prompt is the fixed preamble, then the "ABOUT THIS VISITOR" heading directly followed by the visitor section, then the fixed closing. |
| SeqIdentity.PromptDependsOnlyOnSection | src/lib/seq/identity.ts:90-92 | Two visitors with the same section get the same prompt. |
| VisitorClient.FindFirst | src/hooks/useVisitor.ts:51 | The index of the first entry the predicate accepts; none when no entry does. |
| Common.Split | src/hooks/useVisitor.ts:50 | `split` on one character gives at least one piece. |
| Common.TrimStart | src/hooks/useVisitor.ts:51 | A suffix of the input whose first character is not whitespace. |
| Common.TrimEnd | src/hooks/useVisitor.ts:54 | A prefix of the input whose last character is not whitespace. |
| Common.Trim | src/hooks/useSeqChat.ts:45 | No longer than the input, with no whitespace at either end. |
| VisitorClient.IsVisitorEntry | src/hooks/useVisitor.ts:51 | An entry names the visitor cookie when, trimmed, it starts with `riscent_visitor=`. |
| VisitorClient.EntryValue | src/hooks/useVisitor.ts:54 | The value read from a visitor entry has no whitespace at either end. |
| VisitorClient.VisitorEntryHasEquals | src/hooks/useVisitor.ts:51-54 | A visitor entry contains '=', so `split('=')[1]` exists. |
| VisitorClient.LookupCookie | src/hooks/useVisitor.ts:50-55 | An id is found iff some ';'-separated entry, trimmed, starts with "riscent_visitor=". |
| VisitorClient.EntryValueIsBetweenEquals | src/hooks/useVisitor.ts:54 | The value read is the trimmed text between the entry's first and second '='. |
| Common.IndexOf | src/hooks/useVisitor.ts:54 | The first position of the character, or the length when it is absent. Every earlier character differs from it. |
| Common.SplitAtFirst | src/hooks/useVisitor.ts:54 | The first piece of a split is the text before the first separator, and the other pieces are the split of the text after it. |
| VisitorClient.GetCookieId | src/hooks/useVisitor.ts:47-61 | '' outside a browser. Otherwise the id found in the cookie, with nothing written. Otherwise the fresh id, written as a one-year cookie. |
| VisitorClient.NewCookie | src/hooks/useVisitor.ts:59 | The written cookie starts with `riscent_visitor=` and the new id. |
| VisitorClient.WrittenIdIsFoundAgain | src/hooks/useVisitor.ts:57-60 | Once the written cookie is listed after the existing entries, the next lookup finds the same id. |
| VisitorClient.Identified | src/hooks/useVisitor.ts:64-101 | An OK reply copies the visitor id, cookie id, phase, truths revealed, both curtain flags, isReturning and the visit count from the reply, and keeps the error. A failure leaves everything but loading and error alone; a non-OK reply sets 'Failed to identify visitor'. Loading always ends. |
| VisitorClient.SessionStarted | src/hooks/useVisitor.ts:104-125 | Only an OK reply changes the state, and only its session id. |
| VisitorClient.Tracked | src/hooks/useVisitor.ts:136-142 | 'revelation' adds one truth. 'curtain_peek' sets peeked; 'curtain_enter' sets entered and phase 'engaged'. Other types change nothing. |
| VisitorClient.Step | src/hooks/useVisitor.ts:133-185 | A tracked event updates the local state only once the visitor id is truthy; a tick adds one second. |
| VisitorClient.ReplayCounts | src/hooks/useVisitor.ts:128-186 | Over any events: the visitor id is kept, each tick adds one second, and each revelation adds one truth once identified. Entering keeps the phase 'engaged'. Before identification, tracking changes nothing. |
| VisitorClient.EndBeacon | src/hooks/useVisitor.ts:196-215 | A beacon is sent iff both ids are known. It carries the ids, time on page, truths and phase. |
| VisitorClient.FailedIdentifySilencesPage | src/hooks/useVisitor.ts:92-99 | After a failed identify there is no visitor id: no truth is counted, the curtain is never entered and no beacon is sent. |
| VisitorClient.Visitor.constructor | src/hooks/useVisitor.ts:28-41 | Phase 'curious', 1 visit, 0 seconds, no truths, loading, no ids. |
| VisitorClient.Visitor.Identify | src/hooks/useVisitor.ts:64-101 | The new state is Identified of the old. Returns the visitor id on success, nothing on failure. |
| VisitorClient.Visitor.StartSession | src/hooks/useVisitor.ts:104-125 | The new state is SessionStarted of the old. Returns the session id only on an OK reply. |
| VisitorClient.Visitor.Init | src/hooks/useVisitor.ts:166-180 | Sends the cookie id GetCookieId yields. A session is requested iff identify returned a visitor id. |
| VisitorClient.Visitor.TrackEvent | src/hooks/useVisitor.ts:128-163 | Sends iff a visitor id is known; the new state is the Tracked update, or unchanged. |
| VisitorClient.Visitor.Tick | src/hooks/useVisitor.ts:184-186 | timeOnPage rises by exactly one. |

## Left out

- Network and timers. Requests, `setTimeout`, `AbortController` and `Promise.race` are modelled only by their outcome, given as a parameter (`Outcome`, `Fetched`, `Fetch`, `ChatResponse`). Clocks are explicit: `now` when a call starts, `settled` when a guarded call settles. The breaker methods do not require `settled` to fit the outcome; `CircuitBreakers.SettlesAt` states that relation, and the lemmas that need it require it.
- Concurrency. Breakers are shared by concurrent requests without locking, so several callers can each see 'open' and all go half-open. The model runs `execute` calls one after the other and does not claim a single half-open trial.
- Async interleaving. The phases of an async handler (the state update before a request and the one after it) are modelled as one step, so no other handler runs in between.
- Random ids and codes. uuids, database-generated ids and the random draw behind `generateVerificationCode` are parameters. `Twilio.GenerateVerificationCode` takes `Math.floor(Math.random() * 900000)` as a whole number, not as floating-point arithmetic.
- The rate limiter. The database function `check_verification_rate_limit` and SQL time arithmetic (`NOW()`, `expires_at > NOW()`) are replaced by an input answer and integer seconds.
- Schema defaults. The table rows carry only the columns the handlers read or write.
- VisitorRoutes.NewVisitor: the INSERT at src/app/api/visitor/identify/route.ts:80-96 writes only cookie_id and fingerprint_hash. The database schema is not part of this model, so the defaults of the other columns are assumed: phase 'curious', truths_revealed 0, curtain_peeked and curtain_entered false, total_visits 1, breathing_circle_interactions 0, max_scroll_depth 0, total_time_seconds 0, known_name null. The identify reply passes these values back.
- Verification.NewCode: the INSERT at src/app/api/verification/send-code/route.ts:54-62 writes only phone_number, code, visitor_id and expires_at. The database schema is not part of this model, so three column defaults are assumed. They are status 'pending', attempts 0, and created_at set to the insertion time, which the model reads as the position in the record list.
- Database errors. Failures of the database in general (the handlers' catch branches answering 500) are left out. The one exception is the identify insert that returns no row.
- The `OPTIONS` handler of src/app/api/thoughts/route.ts:110-131. It only runs two SELECT DISTINCT queries, with no logic of its own.
- Characters. A `char` is a Unicode scalar value. A character outside the Basic Multilingual Plane is one element in the model but two UTF-16 code units in JavaScript. So `length` and `slice` (in `MaskPhone`, `SanitizeCode`) agree with the source only on text without such characters.
- Sanitiser and device patterns. The code sanitiser and the device patterns are modelled for ASCII text only. `toLowerCase` is ASCII case folding, and `/mobile/i` and `/tablet/i` are substring tests on the folded text.
- The cookie jar. The browser's cookie jar is a string in and a written cookie out. `VisitorClient.WrittenIdIsFoundAgain` assumes the browser lists a new cookie after the existing entries.
- The beacon. `navigator.sendBeacon` and the `beforeunload` listener are left out; `VisitorClient.EndBeacon` gives only what the beacon carries.
- Mount effects. The mount effect of src/hooks/useCostGate.ts:126-131 and its `refreshStatus` are left out. They only call the two status checks that `CheckSessionStatus` and `CheckCostStatus` model.
- CostGate.CostGateHook.constructor: the `threshold` option is stored but, as in the source, never read by any handler.
- Constant data. `SEQ_QUESTIONS` (src/lib/seq/identity.ts:224-245) is not used by the modelled functions.
- Collaborators outside the core. Audit logging (src/lib/audit.ts) is an appended `AuditEntry`. The prompt loader, the LLM client (src/lib/anthropic.ts, which is used only for its breaker overrides) and the database driver are not part of this model.
- Rendering. Only the visible controls and their enabled conditions enter `CostGateModal.Enabled`.
- Verification.CodeMatch: the SELECT at src/app/api/verification/verify-code/route.ts:49-57 has no ORDER BY, and `queryOne` (src/lib/db.ts:64-70) keeps the first row returned. So when several open records match the phone and code, the database may return any of them. The model picks the earliest inserted one.
- Verification.SendCode: the phone shape (E.164 length) is not checked, because the source does not check it either.

## Findings

`VisitorRoutes.Session` applies the total as written, so the model does
what the handler does. `VisitorRoutes.EndedTotal` is the corrected form.
`VisitorRoutes.EndedTotalKeepsTime` proves that the two differ only for
an unknown session id.

| source | as written | input that shows it | evidently intended | confidence | as-written member | corrected member |
|---|---|---|---|---|---|---|
| src/app/api/visitor/session/route.ts:82-90 | The visitor's new total is `total_time_seconds + (SELECT COALESCE(duration_seconds, 0) FROM visitor_sessions WHERE session_id = $id)`. The COALESCE sits inside the subquery, so when no session row has the id the subquery yields NULL and the total becomes NULL. | An 'end' request with a valid visitorId whose total is 600 and a sessionId that matches no session row. | The accumulated time is kept: a missing session adds 0 seconds. | not executed | VisitorRoutes.EndedTotalAsWritten (with VisitorRoutes.UnknownSessionErasesTotalTime) | VisitorRoutes.EndedTotal (with VisitorRoutes.EndedTotalKeepsTime) |
