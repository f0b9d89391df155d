/** The phone-verification wizard (src/components/seq/CostGateModal.tsx):
    its steps, the guards of its two request handlers, and the sanitiser of
    the code input. Rendering is not modelled; a button is an event that
    can only happen while the button is shown and enabled. The replies of
    the two API routes are parameters. */
module CostGateModal {
  import opened Common

  datatype Step = Info | Form | Code | Success

  /** A returning user skips the explanation. */
  function InitialStep(hasExistingUser: bool): (st: Step)
    ensures st == Form <==> hasExistingUser
    ensures st == Info || st == Form
  {
    if hasExistingUser then Form else Info
  }

  const CodeLength := 6
  const InitialAttempts := 3

  /** The parts of a JSON reply the modal reads. */
  datatype ApiReply = ApiReply(ok: bool, error: Option<string>, attemptsRemaining: Option<int>, userId: Option<string>)

  /** A request either produced a parsed reply or threw (network error or a
      body that is not JSON). */
  datatype Fetch = Replied(reply: ApiReply) | Threw

  predicate Succeeded(f: Fetch) {
    f.Replied? && f.reply.ok
  }

  /** The modal's state cells. */
  datatype ModalState = ModalState(
    step: Step, isLoading: bool, error: Option<string>,
    fullName: string, phoneNumber: string, smsConsent: bool, callConsent: bool,
    verificationCode: string, attemptsRemaining: int)

  function InitialModal(hasExistingUser: bool, existingUserName: string): ModalState {
    ModalState(InitialStep(hasExistingUser), false, None, existingUserName, "", false, false, "", InitialAttempts)
  }

  /** The code input keeps the digits of what was typed, at most six. */
  function SanitizeCode(raw: string): (code: string)
    ensures AllDigits(code) && |code| <= CodeLength
    ensures |code| == if |Digits(raw)| < CodeLength then |Digits(raw)| else CodeLength
    ensures code == Digits(raw)[..|code|]
  {
    var d := Digits(raw);
    if |d| <= CodeLength then d else d[..CodeLength]
  }

  /** Sanitising a sanitised code changes nothing. */
  lemma SanitizeIdempotent(raw: string)
    ensures SanitizeCode(SanitizeCode(raw)) == SanitizeCode(raw)
  {
    DigitsOfDigits(SanitizeCode(raw));
  }

  /** A code of digits only is kept whole while it has at most six of them. */
  lemma SanitizeKeepsShortCodes(code: string)
    requires AllDigits(code) && |code| <= CodeLength
    ensures SanitizeCode(code) == code
  {
    DigitsOfDigits(code);
  }

  /** `handleSendCode`: without a phone number or a name it only sets an
      error and sends nothing; otherwise the step moves to 'code' exactly
      when the reply is OK. */
  function SendCode(s: ModalState, f: Fetch): (t: ModalState)
    ensures s.phoneNumber == "" || s.fullName == "" ==>
      t == s.(error := Some("Please fill in all fields"))
    ensures s.phoneNumber != "" && s.fullName != "" ==>
      && t.step == (if Succeeded(f) then Code else s.step)
      && (t.error == None <==> Succeeded(f))
      && !t.isLoading
      && t.(step := s.step, error := s.error, isLoading := s.isLoading) == s
  {
    if s.phoneNumber == "" || s.fullName == "" then s.(error := Some("Please fill in all fields"))
    else
      match f
      case Threw => s.(error := Some("Failed to send verification code"), isLoading := false)
      case Replied(r) =>
        if !r.ok then s.(error := Some(OrElse(r.error, "Failed to send code")), isLoading := false)
        else s.(step := Code, error := None, isLoading := false)
  }

  /** The callback `handleVerifyCode` schedules after a successful verify:
      the reply's user id and the name typed in. */
  datatype Verified = Verified(userId: Option<string>, userName: string)

  /** `handleVerifyCode`: without exactly six characters of code it only sets
      an error; otherwise the step moves to 'success' exactly when the reply
      is OK, and a failed reply updates the remaining attempts only when it
      carries them. */
  function VerifyCode(s: ModalState, f: Fetch): (t: ModalState)
    ensures |s.verificationCode| != CodeLength ==> t == s.(error := Some("Please enter the 6-digit code"))
    ensures |s.verificationCode| == CodeLength ==>
      && t.step == (if Succeeded(f) then Success else s.step)
      && (t.error == None <==> Succeeded(f))
      && !t.isLoading
      && t.attemptsRemaining == (if f.Replied? && !f.reply.ok && f.reply.attemptsRemaining.Some?
                                 then f.reply.attemptsRemaining.value else s.attemptsRemaining)
      && t.(step := s.step, error := s.error, isLoading := s.isLoading, attemptsRemaining := s.attemptsRemaining) == s
  {
    if |s.verificationCode| != CodeLength then s.(error := Some("Please enter the 6-digit code"))
    else
      match f
      case Threw => s.(error := Some("Failed to verify code"), isLoading := false)
      case Replied(r) =>
        if !r.ok then
          s.(attemptsRemaining := r.attemptsRemaining.GetOr(s.attemptsRemaining),
             error := Some(OrElse(r.error, "Invalid code")), isLoading := false)
        else s.(step := Success, error := None, isLoading := false)
  }

  function VerifyCallback(s: ModalState, f: Fetch): (v: Option<Verified>)
    ensures v.Some? <==> |s.verificationCode| == CodeLength && Succeeded(f)
    ensures v.Some? ==> v.value == Verified(f.reply.userId, s.fullName)
  {
    if |s.verificationCode| == CodeLength && Succeeded(f) then Some(Verified(f.reply.userId, s.fullName)) else None
  }

  /** The remaining-attempts hint sits inside the error box of the code
      step and shows only for a count strictly between 0 and 3; the error
      box of the form step has no hint. */
  predicate ShowsAttemptsHint(s: ModalState) {
    s.step == Code && s.error.Some? && s.error.value != "" && 0 < s.attemptsRemaining < InitialAttempts
  }

  /** What the user can do. */
  datatype Event =
    | ContinueClicked
    | BackToInfo
    | NameTyped(name: string)
    | PhoneTyped(phone: string)
    | SmsConsentSet(sms: bool)
    | CallConsentSet(call: bool)
    | SendClicked(send: Fetch)
    | CodeTyped(raw: string)
    | VerifyClicked(verify: Fetch)
    | BackToForm
    | ResendClicked(resend: Fetch)

  /** Which step shows each control, and when a button is enabled. */
  predicate Enabled(s: ModalState, e: Event) {
    match e
    case ContinueClicked => s.step == Info
    case BackToInfo => s.step == Form
    case NameTyped(_) => s.step == Form
    case PhoneTyped(_) => s.step == Form
    case SmsConsentSet(_) => s.step == Form
    case CallConsentSet(_) => s.step == Form
    case SendClicked(_) => s.step == Form && !s.isLoading && s.fullName != "" && s.phoneNumber != "" && s.smsConsent
    case CodeTyped(_) => s.step == Code
    case VerifyClicked(_) => s.step == Code && !s.isLoading && |s.verificationCode| == CodeLength
    case BackToForm => s.step == Code
    case ResendClicked(_) => s.step == Code && !s.isLoading
  }

  /** The state after an event. */
  function Next(s: ModalState, e: Event): ModalState {
    match e
    case ContinueClicked => s.(step := Form)
    case BackToInfo => s.(step := Info)
    case NameTyped(name) => s.(fullName := name)
    case PhoneTyped(phone) => s.(phoneNumber := phone)
    case SmsConsentSet(sms) => s.(smsConsent := sms)
    case CallConsentSet(call) => s.(callConsent := call)
    case SendClicked(f) => SendCode(s, f)
    case CodeTyped(raw) => s.(verificationCode := SanitizeCode(raw))
    case VerifyClicked(f) => VerifyCode(s, f)
    case BackToForm => s.(step := Form)
    case ResendClicked(f) => SendCode(s.(verificationCode := "", error := None), f)
  }

  /** The moves the wizard allows between steps (staying put included). */
  predicate Move(a: Step, b: Step) {
    a == b
    || (a == Info && b == Form) || (a == Form && b == Info)
    || (a == Form && b == Code) || (a == Code && b == Form)
    || (a == Code && b == Success)
  }

  /** Every enabled event makes an allowed move; 'code' is entered only by a
      successful send, 'success' only by a successful verify, and nothing
      leaves 'success'. */
  lemma StepMoves(s: ModalState, e: Event)
    requires Enabled(s, e)
    ensures Move(s.step, Next(s, e).step)
    ensures s.step != Code && Next(s, e).step == Code ==> e.SendClicked? && Succeeded(e.send)
    ensures s.step != Success && Next(s, e).step == Success ==> e.VerifyClicked? && Succeeded(e.verify)
    ensures s.step != Success
  {
  }

  /** A request that fails leaves the step where it was. */
  lemma FailedRequestKeepsStep(s: ModalState, e: Event)
    requires e.SendClicked? || e.VerifyClicked? || e.ResendClicked?
    requires !Succeeded(if e.SendClicked? then e.send else if e.VerifyClicked? then e.verify else e.resend)
    ensures Next(s, e).step == s.step && Next(s, e).error.Some?
  {
  }

  /** The events a user performs, each while it is enabled. */
  predicate EnabledRun(s: ModalState, events: seq<Event>)
    decreases |events|
  {
    events == [] || (Enabled(s, events[0]) && EnabledRun(Next(s, events[0]), events[1..]))
  }

  function Run(s: ModalState, events: seq<Event>): ModalState
    decreases |events|
  {
    if events == [] then s else Run(Next(s, events[0]), events[1..])
  }

  /** Reaching 'success' takes a successful verify, which in turn needs an
      earlier successful send (to get to 'code') unless the run started
      there; the code then holds six digits. */
  lemma {:induction false} SuccessNeedsVerifiedCode(s: ModalState, events: seq<Event>)
    requires EnabledRun(s, events) && s.step != Success && s.step != Code
    requires Run(s, events).step == Success
    ensures exists i | 0 <= i < |events| :: events[i].VerifyClicked? && Succeeded(events[i].verify)
    ensures exists i | 0 <= i < |events| ::
      (events[i].SendClicked? && Succeeded(events[i].send)) || (events[i].ResendClicked? && Succeeded(events[i].resend))
    decreases |events|
  {
    var s1 := Next(s, events[0]);
    StepMoves(s, events[0]);
    if s1.step == Code {
      CodeLeadsToSuccessByVerify(s1, events[1..]);
      var j :| 0 <= j < |events[1..]| && events[1..][j].VerifyClicked? && Succeeded(events[1..][j].verify);
      assert events[j + 1] == events[1..][j];
    } else {
      SuccessNeedsVerifiedCode(s1, events[1..]);
      var j :| 0 <= j < |events[1..]| && events[1..][j].VerifyClicked? && Succeeded(events[1..][j].verify);
      assert events[j + 1] == events[1..][j];
      var k :| 0 <= k < |events[1..]| &&
        ((events[1..][k].SendClicked? && Succeeded(events[1..][k].send)) || (events[1..][k].ResendClicked? && Succeeded(events[1..][k].resend)));
      assert events[k + 1] == events[1..][k];
    }
  }

  /** From 'code', reaching 'success' takes a successful verify. */
  lemma {:induction false} CodeLeadsToSuccessByVerify(s: ModalState, events: seq<Event>)
    requires EnabledRun(s, events) && s.step != Success
    requires Run(s, events).step == Success
    ensures exists i | 0 <= i < |events| :: events[i].VerifyClicked? && Succeeded(events[i].verify)
    decreases |events|
  {
    var s1 := Next(s, events[0]);
    StepMoves(s, events[0]);
    if s1.step == Success {
      assert events[0].VerifyClicked? && Succeeded(events[0].verify);
    } else {
      CodeLeadsToSuccessByVerify(s1, events[1..]);
      var j :| 0 <= j < |events[1..]| && events[1..][j].VerifyClicked? && Succeeded(events[1..][j].verify);
      assert events[j + 1] == events[1..][j];
    }
  }

  /** The count of remaining attempts only ever comes from a failed verify
      reply that carries one. */
  predicate CarriesAttempts(e: Event) {
    e.VerifyClicked? && e.verify.Replied? && e.verify.reply.attemptsRemaining.Some?
  }

  lemma {:induction false} AttemptsOnlyFromReplies(s: ModalState, events: seq<Event>)
    ensures Run(s, events).attemptsRemaining != s.attemptsRemaining ==>
      exists i | 0 <= i < |events| :: CarriesAttempts(events[i])
    decreases |events|
  {
    if events != [] {
      var s1 := Next(s, events[0]);
      AttemptsOnlyFromReplies(s1, events[1..]);
      if Run(s, events).attemptsRemaining != s.attemptsRemaining && !CarriesAttempts(events[0]) {
        assert s1.attemptsRemaining == s.attemptsRemaining;
        var j :| 0 <= j < |events[1..]| && CarriesAttempts(events[1..][j]);
        assert events[j + 1] == events[1..][j];
      }
    }
  }

  /** So a freshly opened modal shows the remaining-attempts hint only after
      a verify reply that reported the count. */
  lemma HintNeedsReportedAttempts(hasExistingUser: bool, existingUserName: string, events: seq<Event>)
    requires ShowsAttemptsHint(Run(InitialModal(hasExistingUser, existingUserName), events))
    ensures exists i | 0 <= i < |events| :: CarriesAttempts(events[i])
  {
    AttemptsOnlyFromReplies(InitialModal(hasExistingUser, existingUserName), events);
  }

  /** The modal's state cells as fields its handlers set. */
  class Modal {
    const visitorId: string
    const sessionId: string
    var step: Step
    var isLoading: bool
    var error: Option<string>
    var fullName: string
    var phoneNumber: string
    var smsConsent: bool
    var callConsent: bool
    var verificationCode: string
    var attemptsRemaining: int

    function State(): ModalState
      reads this
    {
      ModalState(step, isLoading, error, fullName, phoneNumber, smsConsent, callConsent, verificationCode, attemptsRemaining)
    }

    constructor (visitorId: string, sessionId: string, hasExistingUser: bool, existingUserName: string)
      ensures State() == InitialModal(hasExistingUser, existingUserName)
      ensures !ShowsAttemptsHint(State())
    {
      this.visitorId := visitorId;
      this.sessionId := sessionId;
      step := InitialStep(hasExistingUser);
      isLoading := false;
      error := None;
      fullName := existingUserName;
      phoneNumber := "";
      smsConsent := false;
      callConsent := false;
      verificationCode := "";
      attemptsRemaining := InitialAttempts;
    }

    /** `handleSendCode`, with the reply of /api/verification/send-code;
        `requested` tells whether a request was made. */
    method HandleSendCode(f: Fetch) returns (requested: bool)
      modifies this
      ensures State() == SendCode(old(State()), f)
      ensures requested <==> old(phoneNumber) != "" && old(fullName) != ""
    {
      if phoneNumber == "" || fullName == "" {
        error := Some("Please fill in all fields");
        return false;
      }
      requested := true;
      isLoading := true;
      error := None;
      match f {
        case Threw =>
          error := Some("Failed to send verification code");
        case Replied(r) =>
          if !r.ok {
            error := Some(OrElse(r.error, "Failed to send code"));
          } else {
            step := Code;
          }
      }
      isLoading := false;
    }

    /** `handleVerifyCode`, with the reply of
        /api/verification/verify-code; `callback` is the `onVerified` call
        it schedules. */
    method HandleVerifyCode(f: Fetch) returns (requested: bool, callback: Option<Verified>)
      modifies this
      ensures State() == VerifyCode(old(State()), f)
      ensures requested <==> |old(verificationCode)| == CodeLength
      ensures callback == VerifyCallback(old(State()), f)
    {
      if |verificationCode| != CodeLength {
        error := Some("Please enter the 6-digit code");
        return false, None;
      }
      requested := true;
      callback := None;
      isLoading := true;
      error := None;
      match f {
        case Threw =>
          error := Some("Failed to verify code");
        case Replied(r) =>
          if !r.ok {
            if r.attemptsRemaining.Some? {
              attemptsRemaining := r.attemptsRemaining.value;
            }
            error := Some(OrElse(r.error, "Invalid code"));
          } else {
            step := Success;
            callback := Some(Verified(r.userId, fullName));
          }
      }
      isLoading := false;
    }

    /** The code input's change handler. */
    method TypeCode(raw: string)
      modifies this
      ensures State() == old(State()).(verificationCode := SanitizeCode(raw))
    {
      verificationCode := SanitizeCode(raw);
    }

    /** 'Resend code': clear the code and the error, then send again. */
    method Resend(f: Fetch) returns (requested: bool)
      modifies this
      ensures State() == Next(old(State()), ResendClicked(f))
    {
      verificationCode := "";
      error := None;
      requested := HandleSendCode(f);
    }

    /** The 'Continue' and 'Back' buttons. */
    method GoTo(target: Step)
      requires target != Code && target != Success
      modifies this
      ensures State() == old(State()).(step := target)
    {
      step := target;
    }
  }
}
