/** The SMS client (src/lib/twilio.ts): the configuration test, the shape of
    `sendSMS`'s result relative to the 'twilio' breaker, and the phone
    number formatter that aims at the "+digits" form of ITU-T
    Recommendation E.164. */
module Twilio {
  import opened Common
  import opened CircuitBreakers

  /** Credentials read from the environment (missing variables read as ""). */
  datatype TwilioConfig = TwilioConfig(accountSid: string, authToken: string, fromNumber: string)

  /** `isTwilioConfigured` */
  predicate IsConfigured(c: TwilioConfig) {
    c.accountSid != "" && c.authToken != "" && c.fromNumber != ""
  }

  /** The HTTP reply of the Messages endpoint: whether it was OK and, if so,
      the message id it carries. */
  datatype HttpReply = HttpReply(ok: bool, sid: string)

  datatype SmsResult = SmsResult(success: bool, messageId: Option<string>, error: Option<string>)

  /** Overrides `sendSMS` passes for the 'twilio' breaker. */
  const TwilioOverrides := PartialConfig(Some(10000), Some(3), None, None)

  /** The operation `sendSMS` hands to the breaker: a non-OK reply is
      turned into a `{ success: false }` value, not an error; a network
      error or a reply later than the deadline stays what it is. Reading
      the body (`text()` of a non-OK reply, `json()` of an OK one) can
      also throw inside the operation, and the breaker then books a
      failure; the model expresses that only as a `Rejected` reply. */
  function SmsAttempt(reply: Outcome<HttpReply>): (o: Outcome<SmsResult>)
    ensures reply.Resolved? <==> o.Resolved?
    ensures reply.Resolved? ==> o.value.success == reply.value.ok
  {
    match reply
    case Resolved(h) =>
      if h.ok then Resolved(SmsResult(true, Some(h.sid), None))
      else Resolved(SmsResult(false, None, Some("Failed to send SMS")))
    case Rejected(e) => Rejected(e)
    case ExceedsDeadline => ExceedsDeadline
  }

  /** A rejected SMS (non-OK reply) is booked by the 'twilio' breaker as a
      success: it clears the failure count instead of adding to it. */
  lemma RejectedSmsCountsAsSuccess(cfg: Config, s: Snapshot, sid: string, now: int, settled: int)
    requires Admit(cfg, s, now).Some?
    ensures var st := ExecuteSpec(cfg, s, SmsAttempt(Resolved(HttpReply(false, sid))), now, settled);
      && st.result == Returned(SmsResult(false, None, Some("Failed to send SMS")))
      && st.after.failures == 0
  {
  }

  /** `sendSMS(to, body)`. When the credentials are missing it reports a
      success with a 'dev-mode-' message id and does not touch any breaker;
      otherwise the attempt runs through the 'twilio' breaker, whose errors
      (open breaker, timeout, network error) are thrown to the caller.
      `now` is the clock when it is called and `settled` when the attempt
      settles. */
  method SendSms(registry: Registry, config: TwilioConfig, reply: Outcome<HttpReply>, now: int, settled: int)
    returns (r: Result<SmsResult>)
    requires registry.Valid()
    modifies registry, registry.breakers.Values
    ensures registry.Valid()
    ensures !IsConfigured(config) ==>
      && r == Returned(SmsResult(true, Some("dev-mode-" + IntToString(now)), None))
      && registry.breakers == old(registry.breakers)
      && forall n | n in registry.breakers :: registry.breakers[n].Snap() == old(registry.breakers[n].Snap())
    ensures IsConfigured(config) && "twilio" !in old(registry.breakers) ==>
      "twilio" in registry.breakers
      && registry.breakers["twilio"].config == Merge(DefaultConfig(registry.envTimeout), TwilioOverrides.(name := Some("twilio")))
    ensures IsConfigured(config) ==>
      && "twilio" in registry.breakers
      && var before := if "twilio" in old(registry.breakers) then old(registry.breakers["twilio"].Snap()) else Initial;
         var st := ExecuteSpec(registry.breakers["twilio"].config, before, SmsAttempt(reply), now, settled);
         registry.breakers["twilio"].Snap() == st.after && r == st.result
  {
    if !IsConfigured(config) {
      return Returned(SmsResult(true, Some("dev-mode-" + IntToString(now)), None));
    }
    var invoked;
    r, invoked := registry.WithCircuitBreaker("twilio", SmsAttempt(reply), TwilioOverrides, now, settled);
  }

  /** `generateVerificationCode`: `Math.floor(100000 + Math.random() * 900000)`
      as text. `draw` stands for `Math.floor(Math.random() * 900000)`, a whole
      number below 900000. */
  function GenerateVerificationCode(draw: nat): (code: string)
    requires draw < 900000
    ensures |code| == 6 && AllDigits(code) && code[0] != '0'
  {
    NatToStringLength(100000 + draw, 5);
    NatToString(100000 + draw)
  }

  /** `formatPhoneNumber`: '+' followed by the input's digits, with a '1'
      inserted in front of exactly ten digits. No length limit is enforced. */
  function FormatPhoneNumber(phone: string): (r: string)
    ensures |r| >= 1 && r[0] == '+' && AllDigits(r[1..])
    ensures r[1..] == Digits(phone) || r[1..] == "1" + Digits(phone)
    ensures r[1..] == "1" + Digits(phone) <==> |Digits(phone)| == 10
  {
    var digits := Digits(phone);
    if |digits| == 11 && digits[0] == '1' then "+" + digits
    else if |digits| == 10 then "+1" + digits
    else "+" + digits
  }

  /** Eleven digits with a leading '1' are kept as they are. */
  lemma ElevenDigitsWithCountryCode(phone: string)
    requires |Digits(phone)| == 11 && Digits(phone)[0] == '1'
    ensures FormatPhoneNumber(phone) == "+" + Digits(phone)
  {
  }

  /** Ten digits get the '1' country code. */
  lemma TenDigitsGetCountryCode(phone: string)
    requires |Digits(phone)| == 10
    ensures FormatPhoneNumber(phone) == "+1" + Digits(phone)
  {
  }

  /** Any other count is prefixed with '+' only; no digits give "+". */
  lemma OtherCountsKeptAsIs(phone: string)
    requires |Digits(phone)| != 10
    ensures FormatPhoneNumber(phone) == "+" + Digits(phone)
    ensures Digits(phone) == "" ==> FormatPhoneNumber(phone) == "+"
  {
  }

  /** Formatting a formatted number changes nothing. */
  lemma FormatIdempotent(phone: string)
    ensures FormatPhoneNumber(FormatPhoneNumber(phone)) == FormatPhoneNumber(phone)
  {
    var r := FormatPhoneNumber(phone);
    DigitsAppend("+", r[1..]);
    assert r == "+" + r[1..];
    DigitsOfDigits(r[1..]);
    assert Digits(r) == r[1..];
  }
}
