/** SMS delivery of codes through Twilio: normalising a phone number to the
    E.164-like form Twilio expects (Indian numbers by default), the text of
    the code message, and the result reported for each way delivery can end.
    The Twilio call itself is a function from the outgoing message to its
    outcome. */
module Sms {
  import opened Common

  /** `\d` in a JavaScript regular expression without the `u` flag: ASCII digits. */
  predicate IsDigit(ch: char) { '0' <= ch <= '9' }

  /** The characters `/[^\d+]/g` leaves in place. */
  predicate IsDialChar(ch: char) { IsDigit(ch) || ch == '+' }

  predicate AllDialChars(s: string)
  {
    forall i :: 0 <= i < |s| ==> IsDialChar(s[i])
  }

  /** `phone.replace(/[^\d+]/g, '')`: the dial characters of `phone`, in order. */
  function KeepDialChars(s: string): (r: string)
    ensures |r| <= |s|
    ensures AllDialChars(r)
    ensures forall ch :: ch in r <==> ch in s && IsDialChar(ch)
    decreases |s|
  {
    if s == [] then []
    else if IsDialChar(s[0]) then [s[0]] + KeepDialChars(s[1..])
    else KeepDialChars(s[1..])
  }

  /** One character is kept exactly when it is a dial character. */
  lemma KeepDialCharsOne(ch: char)
    ensures KeepDialChars([ch]) == if IsDialChar(ch) then [ch] else []
  {
  }

  /** Stripping works character by character: the kept characters of a
      concatenation are those of each part, in order and with repeats, so
      the result is the input with every other character deleted. */
  lemma {:induction false} KeepDialCharsAppend(a: string, b: string)
    ensures KeepDialChars(a + b) == KeepDialChars(a) + KeepDialChars(b)
    decreases |a|
  {
    if a != [] {
      assert (a + b)[0] == a[0];
      assert (a + b)[1..] == a[1..] + b;
      KeepDialCharsAppend(a[1..], b);
    } else {
      assert a + b == b;
    }
  }

  /** Stripping removes nothing from a string made only of dial characters. */
  lemma {:induction false} KeepDialCharsOnClean(s: string)
    requires AllDialChars(s)
    ensures KeepDialChars(s) == s
    decreases |s|
  {
    if s != [] {
      assert AllDialChars(s[1..]) by {
        forall i | 0 <= i < |s| - 1 ensures IsDialChar(s[1..][i]) {
          assert s[1..][i] == s[i + 1];
        }
      }
      KeepDialCharsOnClean(s[1..]);
      assert [s[0]] + s[1..] == s;
    }
  }

  const IndiaPrefix := "+91"

  /** `formatPhoneNumber`: keep the dial characters; a result that already
      starts with `+` is taken as it is, anything else is an Indian number
      that loses one leading `0` and gains `+91`. */
  function FormatPhoneNumber(phone: string): (r: string)
    ensures AllDialChars(r)
    ensures |r| > 0 && r[0] == '+'
    ensures var cleaned := KeepDialChars(phone);
            (|cleaned| > 0 && cleaned[0] == '+' ==> r == cleaned)
    ensures var cleaned := KeepDialChars(phone);
            !(|cleaned| > 0 && cleaned[0] == '+') ==>
              && |r| >= 3 && r[..3] == IndiaPrefix
              && (if |cleaned| > 0 && cleaned[0] == '0' then ['0'] + r[3..] == cleaned else r[3..] == cleaned)
  {
    var cleaned := KeepDialChars(phone);
    if |cleaned| > 0 && cleaned[0] == '+' then cleaned
    else
      var national := if |cleaned| > 0 && cleaned[0] == '0' then cleaned[1..] else cleaned;
      assert AllDialChars(national) by {
        forall i | 0 <= i < |national| ensures IsDialChar(national[i]) {
          assert national[i] in cleaned;
        }
      }
      IndiaPrefix + national
  }

  /** A formatted number formats to itself: it starts with `+` and holds only
      dial characters, so neither the strip nor the prefix changes it. */
  lemma FormatPhoneNumberIdempotent(phone: string)
    ensures FormatPhoneNumber(FormatPhoneNumber(phone)) == FormatPhoneNumber(phone)
  {
    KeepDialCharsOnClean(FormatPhoneNumber(phone));
  }

  /** `getOTPMessage`'s choice of wording: only the purpose `login` reads
      "login"; every other purpose, the default included, reads "registration". */
  function PurposeText(purpose: string): (r: string)
    ensures r == "login" <==> purpose == "login"
    ensures r != "login" ==> r == "registration"
  {
    if purpose == "login" then "login" else "registration"
  }

  const MessageLead := "\U{1F954} Aloo Mandi: Your OTP for "
  const MessageTail := ". Valid for 5 minutes. Do not share this code with anyone."

  /** `getOTPMessage`: the text sent to the phone. */
  function OtpMessage(otp: string, purpose: string): (r: string)
    ensures |r| == |MessageLead| + |PurposeText(purpose)| + 4 + |otp| + |MessageTail|
    ensures r[..|MessageLead|] == MessageLead && r[|r| - |MessageTail|..] == MessageTail
  {
    MessageLead + PurposeText(purpose) + " is " + otp + MessageTail
  }

  /** The code a message carries, read back from between " is " and the tail. */
  function CodeOfMessage(msg: string, purposeText: string): (otp: string)
    requires |msg| >= |MessageLead| + |purposeText| + 4 + |MessageTail|
  {
    msg[|MessageLead| + |purposeText| + 4 .. |msg| - |MessageTail|]
  }

  /** The message carries the code exactly: reading it back gives the code,
      and the wording says "login" exactly when the purpose was `login`. */
  lemma {:induction false} MessageCarriesCode(otp: string, purpose: string)
    ensures CodeOfMessage(OtpMessage(otp, purpose), PurposeText(purpose)) == otp
    ensures var msg := OtpMessage(otp, purpose);
            msg[|MessageLead|..|MessageLead| + 5] == "login" <==> purpose == "login"
  {
    var msg := OtpMessage(otp, purpose);
    var start := |MessageLead| + |PurposeText(purpose)| + 4;
    assert msg == (MessageLead + PurposeText(purpose) + " is ") + otp + MessageTail;
    assert msg[start..|msg| - |MessageTail|] == otp;
    assert msg[|MessageLead|..|MessageLead| + 5] == PurposeText(purpose)[..5];
    assert "registration"[..5] != "login" by { assert "registration"[0] == 'r'; }
  }

  /** Two messages are the same text only when they carry the same code and
      the same wording. */
  lemma OtpMessageInjective(otp1: string, purpose1: string, otp2: string, purpose2: string)
    requires OtpMessage(otp1, purpose1) == OtpMessage(otp2, purpose2)
    ensures otp1 == otp2 && PurposeText(purpose1) == PurposeText(purpose2)
  {
    MessageCarriesCode(otp1, purpose1);
    MessageCarriesCode(otp2, purpose2);
  }

  /** What is handed to `client.messages.create`. */
  datatype TwilioMessage = TwilioMessage(body: string, from: string, to: string)

  /** How the Twilio call ends: a message id, or a thrown error with its
      `code` (when it has a numeric one) and its `message`. */
  datatype TwilioOutcome = Accepted(sid: string) | Failed(code: Option<int>, errorMessage: string)

  /** The object `sendOTPSMS` resolves to; an absent property is `false` or `None`. */
  datatype SmsResult = SmsResult(success: bool, message: string, fallback: bool,
                                 messageSid: Option<string>, error: Option<string>)

  const InvalidNumberCode := 21211
  const UnverifiedNumberCode := 21608

  /** The `catch` branch of `sendOTPSMS`: two Twilio codes get their own
      wording, every other failure a generic one quoting the error. */
  function TwilioErrorResult(code: Option<int>, errorMessage: string): (r: SmsResult)
    ensures !r.success && !r.fallback && r.messageSid.None? && r.error == Some(errorMessage)
    ensures r.message == "Invalid phone number format" <==> code == Some(InvalidNumberCode)
    ensures r.message == "Phone number not verified for trial account" <==> code == Some(UnverifiedNumberCode)
    ensures code != Some(InvalidNumberCode) && code != Some(UnverifiedNumberCode) ==>
              r.message == "Failed to send SMS: " + errorMessage
  {
    if code == Some(InvalidNumberCode) then
      SmsResult(false, "Invalid phone number format", false, None, Some(errorMessage))
    else if code == Some(UnverifiedNumberCode) then
      SmsResult(false, "Phone number not verified for trial account", false, None, Some(errorMessage))
    else
      var generic := "Failed to send SMS: " + errorMessage;
      assert generic != "Invalid phone number format" by { assert generic[0] == 'F'; }
      assert generic != "Phone number not verified for trial account" by { assert generic[0] == 'F'; }
      SmsResult(false, generic, false, None, Some(errorMessage))
  }

  /** `isTwilioConfigured`: all three settings are non-empty. */
  predicate IsTwilioConfigured(accountSid: string, authToken: string, fromNumber: string)
  {
    accountSid != "" && authToken != "" && fromNumber != ""
  }

  /** `sendOTPSMS`: with no client or no sender number it reports a fallback;
      otherwise it sends the code message to the formatted number and reports
      the message id or the mapped error. Unset settings are empty strings. */
  function SendOtpSms(accountSid: string, authToken: string, fromNumber: string,
                      deliver: TwilioMessage -> TwilioOutcome,
                      phone: string, otp: string, purpose: string): (r: SmsResult)
    ensures r.fallback <==> !IsTwilioConfigured(accountSid, authToken, fromNumber)
    ensures r.fallback ==> !r.success && r.error.None?
    ensures r.success <==>
              && IsTwilioConfigured(accountSid, authToken, fromNumber)
              && deliver(TwilioMessage(OtpMessage(otp, purpose), fromNumber, FormatPhoneNumber(phone))).Accepted?
    ensures r.success ==>
              r.messageSid == Some(deliver(TwilioMessage(OtpMessage(otp, purpose), fromNumber, FormatPhoneNumber(phone))).sid)
    ensures !r.success ==> r.messageSid.None?
    ensures var outcome := deliver(TwilioMessage(OtpMessage(otp, purpose), fromNumber, FormatPhoneNumber(phone)));
            IsTwilioConfigured(accountSid, authToken, fromNumber) && outcome.Failed? ==>
              r == TwilioErrorResult(outcome.code, outcome.errorMessage)
    ensures r.fallback ==>
              r.message == (if accountSid == "" || authToken == "" then "SMS service not configured"
                            else "Twilio phone number not configured")
  {
    if accountSid == "" || authToken == "" then
      SmsResult(false, "SMS service not configured", true, None, None)
    else if fromNumber == "" then
      SmsResult(false, "Twilio phone number not configured", true, None, None)
    else
      match deliver(TwilioMessage(OtpMessage(otp, purpose), fromNumber, FormatPhoneNumber(phone)))
      case Accepted(sid) => SmsResult(true, "OTP sent via SMS", false, Some(sid), None)
      case Failed(code, errorMessage) => TwilioErrorResult(code, errorMessage)
  }
}
