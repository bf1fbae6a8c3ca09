/** The unified OTP service: secure code generation, hashed and expiring
    storage of one code per key, a fixed-window limit on send requests, a
    brute-force lockout on wrong guesses, the verification state machine,
    the send orchestration with fail-open delivery, and the periodic sweep.

    The step functions over `Stores` are the specification; the class
    `OtpService` holds the three maps and updates them in place, each method
    proved equal to its step function. */
module UnifiedOtp {
  import opened Common

  const OtpLength: nat := 6
  const OtpExpiryMs: nat := 5 * 60 * 1000
  const MaxOtpRequests: nat := 5
  const RateLimitWindowMs: nat := 15 * 60 * 1000
  const MaxVerifyAttempts: nat := 5
  const VerifyLockoutMs: nat := 30 * 60 * 1000

  /** One byte of `crypto.randomBytes`. */
  type Byte = b: int | 0 <= b < 256

  const Digits: string := "0123456789"

  datatype OtpRecord = OtpRecord(hash: string, createdAt: Time, expiresAt: Time, used: bool)
  datatype RateWindow = RateWindow(attempts: nat, windowExpiresAt: Time)
  datatype AttemptRecord = AttemptRecord(count: nat, lastAttempt: Time, lockoutUntil: Option<Time>)

  /** The three process-wide maps, as one value. */
  datatype Stores = Stores(
    otps: map<string, OtpRecord>,
    windows: map<string, RateWindow>,
    attempts: map<string, AttemptRecord>)

  datatype RateCheck = Allowed(remaining: int) | Refused(retryAfter: nat)
  datatype LockCheck = Unlocked | Locked(minutes: nat)
  datatype FailureReport = FailureReport(attemptsRemaining: nat, locked: bool)

  datatype VerifyResult =
    | Verified
    | LockedOut(minutes: nat)         // the guard refused before the store was read
    | NotFound(attemptsRemaining: nat)
    | AlreadyUsed
    | Expired(attemptsRemaining: nat)
    | Invalid(attemptsRemaining: nat)
    | TooManyAttempts                 // this wrong guess reached the ceiling

  datatype Delivery = DevModeLogged | Delivered | ConsoleFallback
  datatype SendOutcome = RateLimited(retryAfter: nat) | Sent(delivery: Delivery, echoedOtp: Option<string>)

  function OtpKey(c: Channel, identifier: string): string { Key("otp", c, identifier) }
  function RateKey(c: Channel, identifier: string): string { Key("ratelimit", c, identifier) }
  function AttemptKey(c: Channel, identifier: string): string { Key("attempts", c, identifier) }

  predicate IsDigitString(s: string)
  {
    forall i :: 0 <= i < |s| ==> '0' <= s[i] <= '9'
  }

  /** The code `generateSecureOTP` builds from its random bytes: digit
      `b % 10` for each byte `b`. */
  function OtpFromBytes(randomBytes: seq<Byte>): (otp: string)
    ensures |otp| == |randomBytes| && IsDigitString(otp)
  {
    seq(|randomBytes|, i requires 0 <= i < |randomBytes| => Digits[randomBytes[i] % 10])
  }

  /** `generateSecureOTP(length)`, given the `length` bytes drawn from the
      secure random source. */
  method GenerateSecureOtp(length: nat, randomBytes: seq<Byte>) returns (otp: string)
    requires |randomBytes| == length
    ensures |otp| == length && IsDigitString(otp)
    ensures forall i :: 0 <= i < length ==> otp[i] as int - '0' as int == randomBytes[i] % 10
    ensures otp == OtpFromBytes(randomBytes)
  {
    otp := "";
    for i := 0 to length
      invariant |otp| == i
      invariant forall j :: 0 <= j < i ==> otp[j] == Digits[randomBytes[j] % 10]
    {
      otp := otp + [Digits[randomBytes[i] % 10]];
    }
  }

  // ---------------------------------------------------------------------
  // Invariants every reachable state keeps
  // ---------------------------------------------------------------------

  predicate OtpsValid(otps: map<string, OtpRecord>)
  {
    forall k :: k in otps ==> !otps[k].used
  }

  predicate WindowsValid(windows: map<string, RateWindow>)
  {
    forall k :: k in windows ==> 1 <= windows[k].attempts <= MaxOtpRequests
  }

  predicate AttemptsValid(attempts: map<string, AttemptRecord>)
  {
    forall k :: k in attempts ==>
      && attempts[k].count >= 1
      && (attempts[k].count >= MaxVerifyAttempts <==> attempts[k].lockoutUntil.Some?)
  }

  /** No stored record is ever marked used, no window counts past the
      ceiling, and a counter carries a lockout exactly when it has reached
      the attempt ceiling. */
  predicate StoresValid(s: Stores)
  {
    OtpsValid(s.otps) && WindowsValid(s.windows) && AttemptsValid(s.attempts)
  }

  // ---------------------------------------------------------------------
  // Rate limiting
  // ---------------------------------------------------------------------

  /** `checkRateLimit`: a fixed window of `RateLimitWindowMs` admitting
      `MaxOtpRequests` sends. A window is live while `now <= windowExpiresAt`. */
  function RateLimitStep(windows: map<string, RateWindow>, key: string, now: Time): (out: (RateCheck, map<string, RateWindow>))
    ensures out.1.Keys == windows.Keys + {key}
    ensures forall k :: k in windows && k != key ==> out.1[k] == windows[k]
    ensures out.0.Refused? <==> key in windows && now <= windows[key].windowExpiresAt && windows[key].attempts >= MaxOtpRequests
    ensures out.0.Refused? ==>
              && out.1 == windows
              && out.0.retryAfter == CeilSeconds(windows[key].windowExpiresAt - now)
              && (out.0.retryAfter - 1) * 1000 < windows[key].windowExpiresAt - now <= out.0.retryAfter * 1000
    ensures (key !in windows || windows[key].windowExpiresAt < now) ==>
              out == (Allowed(MaxOtpRequests - 1), windows[key := RateWindow(1, now + RateLimitWindowMs)])
    ensures out.0.Allowed? && key in windows && now <= windows[key].windowExpiresAt ==>
              out.1[key] == windows[key].(attempts := windows[key].attempts + 1)
    ensures out.0.Allowed? ==> out.0.remaining == MaxOtpRequests - out.1[key].attempts
    ensures WindowsValid(windows) ==> WindowsValid(out.1) && (out.0.Allowed? ==> out.0.remaining >= 0)
  {
    if key !in windows || windows[key].windowExpiresAt < now then
      (Allowed(MaxOtpRequests - 1), windows[key := RateWindow(1, now + RateLimitWindowMs)])
    else if windows[key].attempts >= MaxOtpRequests then
      (Refused(CeilSeconds(windows[key].windowExpiresAt - now)), windows)
    else
      var w := windows[key].(attempts := windows[key].attempts + 1);
      (Allowed(MaxOtpRequests - w.attempts), windows[key := w])
  }

  // ---------------------------------------------------------------------
  // Brute-force protection
  // ---------------------------------------------------------------------

  /** `checkVerifyAttempts`: a read-only look at the attempt counter; it
      refuses exactly while a lockout is set and still in the future. */
  function CheckVerifyAttempts(attempts: map<string, AttemptRecord>, key: string, now: Time): (r: LockCheck)
    ensures r.Locked? <==> key in attempts && attempts[key].lockoutUntil.Some? && attempts[key].lockoutUntil.value > now
    ensures r.Locked? ==>
              var seconds := CeilSeconds(attempts[key].lockoutUntil.value - now);
              r.minutes * 60 <= seconds < (r.minutes + 1) * 60
  {
    if key in attempts && attempts[key].lockoutUntil.Some? && attempts[key].lockoutUntil.value > now then
      Locked(CeilSeconds(attempts[key].lockoutUntil.value - now) / 60)
    else
      Unlocked
  }

  /** `recordFailedAttempt`: one more failure on the key's counter. */
  function RecordFailure(attempts: map<string, AttemptRecord>, key: string, now: Time): (out: (FailureReport, map<string, AttemptRecord>))
    ensures out.1.Keys == attempts.Keys + {key}
    ensures forall k :: k in attempts && k != key ==> out.1[k] == attempts[k]
    ensures out.1[key].count == (if key in attempts then attempts[key].count else 0) + 1
    ensures out.1[key].lastAttempt == now
    ensures out.1[key].count >= MaxVerifyAttempts ==> out.1[key].lockoutUntil == Some(now + VerifyLockoutMs)
    ensures out.1[key].count < MaxVerifyAttempts ==>
              out.1[key].lockoutUntil == (if key in attempts then attempts[key].lockoutUntil else None)
    ensures out.0.locked <==> out.1[key].count >= MaxVerifyAttempts
    ensures out.0.attemptsRemaining == if out.1[key].count >= MaxVerifyAttempts then 0 else MaxVerifyAttempts - out.1[key].count
    ensures AttemptsValid(attempts) ==> AttemptsValid(out.1)
  {
    var stored := if key in attempts then attempts[key] else AttemptRecord(0, now, None);
    var count := stored.count + 1;
    var lockout: Option<Time> := if count >= MaxVerifyAttempts then Some(now + VerifyLockoutMs) else stored.lockoutUntil;
    var updated := AttemptRecord(count, now, lockout);
    (FailureReport(if count >= MaxVerifyAttempts then 0 else MaxVerifyAttempts - count, count >= MaxVerifyAttempts),
     attempts[key := updated])
  }

  // ---------------------------------------------------------------------
  // Storage and verification
  // ---------------------------------------------------------------------

  /** `storeOTP`: the key's record is replaced by the digest of the code, a
      five-minute expiry and `used: false`. */
  function StoreStep(otps: map<string, OtpRecord>, hash: string -> string, identifier: string, otp: string, c: Channel, now: Time): (r: map<string, OtpRecord>)
    ensures r.Keys == otps.Keys + {OtpKey(c, identifier)}
    ensures forall k :: k in otps && k != OtpKey(c, identifier) ==> r[k] == otps[k]
    ensures r[OtpKey(c, identifier)].hash == hash(otp) && !r[OtpKey(c, identifier)].used
    ensures r[OtpKey(c, identifier)].expiresAt - now == OtpExpiryMs
    ensures OtpsValid(otps) ==> OtpsValid(r)
  {
    otps[OtpKey(c, identifier) := OtpRecord(hash(otp), now, now + OtpExpiryMs, false)]
  }

  /** `verifyOTP`: the guard first, then the record: missing, used, expired,
      wrong, or right. */
  function VerifyStep(s: Stores, hash: string -> string, identifier: string, provided: string, c: Channel, now: Time): (out: (VerifyResult, Stores))
    ensures out.1.windows == s.windows
    ensures out.1.otps.Keys <= s.otps.Keys
    ensures forall k :: k in s.otps && k != OtpKey(c, identifier) ==> k in out.1.otps && out.1.otps[k] == s.otps[k]
    ensures forall k :: k in s.attempts && k != AttemptKey(c, identifier) ==> k in out.1.attempts && out.1.attempts[k] == s.attempts[k]
    ensures forall k :: k in out.1.attempts && k != AttemptKey(c, identifier) ==> k in s.attempts
    ensures out.0.LockedOut? <==> CheckVerifyAttempts(s.attempts, AttemptKey(c, identifier), now).Locked?
    ensures out.0.LockedOut? ==> out.1 == s
    ensures out.0.LockedOut? ==> out.0.minutes == CheckVerifyAttempts(s.attempts, AttemptKey(c, identifier), now).minutes
    ensures out.0 == Verified <==>
              && CheckVerifyAttempts(s.attempts, AttemptKey(c, identifier), now).Unlocked?
              && OtpKey(c, identifier) in s.otps
              && !s.otps[OtpKey(c, identifier)].used
              && now <= s.otps[OtpKey(c, identifier)].expiresAt
              && s.otps[OtpKey(c, identifier)].hash == hash(Trim(provided))
    ensures out.0 == Verified ==>
              out.1.otps == s.otps - {OtpKey(c, identifier)} && out.1.attempts == s.attempts - {AttemptKey(c, identifier)}
    ensures out.0.Invalid? || out.0 == TooManyAttempts ==> out.1.otps == s.otps
    ensures var ok, ak := OtpKey(c, identifier), AttemptKey(c, identifier);
            var (failure, failed) := RecordFailure(s.attempts, ak, now);
            && (CheckVerifyAttempts(s.attempts, ak, now).Unlocked? && ok !in s.otps ==>
                  out == (NotFound(failure.attemptsRemaining), s.(attempts := failed)))
            && (CheckVerifyAttempts(s.attempts, ak, now).Unlocked? && ok in s.otps && !s.otps[ok].used
                && s.otps[ok].expiresAt < now ==>
                  out == (Expired(failure.attemptsRemaining), Stores(s.otps - {ok}, s.windows, failed)))
            && (CheckVerifyAttempts(s.attempts, ak, now).Unlocked? && ok in s.otps && !s.otps[ok].used
                && now <= s.otps[ok].expiresAt && s.otps[ok].hash != hash(Trim(provided)) ==>
                  && out.1 == s.(attempts := failed)
                  && (out.0 == TooManyAttempts <==> failure.locked)
                  && (!failure.locked ==> out.0 == Invalid(failure.attemptsRemaining)))
    ensures StoresValid(s) ==> StoresValid(out.1) && !out.0.AlreadyUsed?
  {
    var ok, ak := OtpKey(c, identifier), AttemptKey(c, identifier);
    match CheckVerifyAttempts(s.attempts, ak, now)
    case Locked(minutes) => (LockedOut(minutes), s)
    case Unlocked =>
      if ok !in s.otps then
        var (failure, attempts) := RecordFailure(s.attempts, ak, now);
        (NotFound(failure.attemptsRemaining), s.(attempts := attempts))
      else if s.otps[ok].used then
        (AlreadyUsed, s.(otps := s.otps - {ok}))
      else if s.otps[ok].expiresAt < now then
        var (failure, attempts) := RecordFailure(s.attempts, ak, now);
        (Expired(failure.attemptsRemaining), Stores(s.otps - {ok}, s.windows, attempts))
      else if s.otps[ok].hash != hash(Trim(provided)) then
        var (failure, attempts) := RecordFailure(s.attempts, ak, now);
        (if failure.locked then TooManyAttempts else Invalid(failure.attemptsRemaining), s.(attempts := attempts))
      else
        (Verified, Stores(s.otps - {ok}, s.windows, s.attempts - {ak}))
  }

  // ---------------------------------------------------------------------
  // Sending
  // ---------------------------------------------------------------------

  /** `sendPhoneOTP` / `sendEmailOTP`: rate limit, generate, store, then
      deliver. `delivered` is what the channel reported; delivery failure is
      swallowed. */
  function SendStep(s: Stores, hash: string -> string, identifier: string, c: Channel, randomBytes: seq<Byte>,
                    now: Time, devMode: bool, delivered: bool): (out: (SendOutcome, Stores))
    requires |randomBytes| == OtpLength
    ensures out.1.attempts == s.attempts
    ensures out.0.RateLimited? <==> RateLimitStep(s.windows, RateKey(c, identifier), now).0.Refused?
    ensures out.0.RateLimited? ==> out.1 == s
    ensures out.0.RateLimited? ==> out.0.retryAfter == RateLimitStep(s.windows, RateKey(c, identifier), now).0.retryAfter
    ensures out.0.Sent? ==> (out.0.delivery == DevModeLogged <==> devMode)
    ensures out.0.Sent? && !devMode ==> (out.0.delivery == Delivered <==> delivered)
    ensures out.0.Sent? ==>
              && out.1.otps == StoreStep(s.otps, hash, identifier, OtpFromBytes(randomBytes), c, now)
              && out.1.windows == RateLimitStep(s.windows, RateKey(c, identifier), now).1
    ensures out.0.Sent? ==> (out.0.echoedOtp.Some? <==> devMode)
    ensures out.0.Sent? && devMode ==> out.0.echoedOtp.value == OtpFromBytes(randomBytes)
    ensures StoresValid(s) ==> StoresValid(out.1)
  {
    var (check, windows) := RateLimitStep(s.windows, RateKey(c, identifier), now);
    if check.Refused? then
      (RateLimited(check.retryAfter), s)
    else
      var otp := OtpFromBytes(randomBytes);
      var stored := Stores(StoreStep(s.otps, hash, identifier, otp, c, now), windows, s.attempts);
      if devMode then (Sent(DevModeLogged, Some(otp)), stored)
      else if delivered then (Sent(Delivered, None), stored)
      else (Sent(ConsoleFallback, None), stored)
  }

  // ---------------------------------------------------------------------
  // The periodic sweep
  // ---------------------------------------------------------------------

  predicate OtpExpired(r: OtpRecord, now: Time) { r.expiresAt < now }
  predicate WindowExpired(w: RateWindow, now: Time) { w.windowExpiresAt < now }
  predicate LockoutLapsed(a: AttemptRecord, now: Time) { a.lockoutUntil.Some? && a.lockoutUntil.value < now }

  /** The body of the `setInterval` callback. */
  function SweepStep(s: Stores, now: Time): (r: Stores)
    ensures forall k :: k in r.otps <==> k in s.otps && !OtpExpired(s.otps[k], now)
    ensures forall k :: k in r.windows <==> k in s.windows && !WindowExpired(s.windows[k], now)
    ensures forall k :: k in r.attempts <==> k in s.attempts && !LockoutLapsed(s.attempts[k], now)
    ensures forall k :: k in r.otps ==> r.otps[k] == s.otps[k]
    ensures forall k :: k in r.windows ==> r.windows[k] == s.windows[k]
    ensures forall k :: k in r.attempts ==> r.attempts[k] == s.attempts[k]
    ensures StoresValid(s) ==> StoresValid(r)
  {
    Stores(
      map k | k in s.otps && !OtpExpired(s.otps[k], now) :: s.otps[k],
      map k | k in s.windows && !WindowExpired(s.windows[k], now) :: s.windows[k],
      map k | k in s.attempts && !LockoutLapsed(s.attempts[k], now) :: s.attempts[k])
  }

  // ---------------------------------------------------------------------
  // The service object
  // ---------------------------------------------------------------------

  class OtpService {
    /** `hashOTP`: SHA-256 as an uninterpreted function. */
    const hash: string -> string
    var otpStore: map<string, OtpRecord>
    var rateLimitStore: map<string, RateWindow>
    var attemptStore: map<string, AttemptRecord>

    function State(): Stores
      reads this
    {
      Stores(otpStore, rateLimitStore, attemptStore)
    }

    ghost predicate Valid()
      reads this
    {
      StoresValid(State())
    }

    constructor(hash: string -> string)
      ensures Valid() && this.hash == hash
      ensures otpStore == map[] && rateLimitStore == map[] && attemptStore == map[]
    {
      this.hash := hash;
      otpStore, rateLimitStore, attemptStore := map[], map[], map[];
    }

    method CheckRateLimit(identifier: string, c: Channel, now: Time) returns (r: RateCheck)
      modifies this`rateLimitStore
      ensures (r, rateLimitStore) == RateLimitStep(old(rateLimitStore), RateKey(c, identifier), now)
    {
      var key := RateKey(c, identifier);
      if key !in rateLimitStore || rateLimitStore[key].windowExpiresAt < now {
        rateLimitStore := rateLimitStore[key := RateWindow(1, now + RateLimitWindowMs)];
        return Allowed(MaxOtpRequests - 1);
      }
      var stored := rateLimitStore[key];
      if stored.attempts >= MaxOtpRequests {
        return Refused(CeilSeconds(stored.windowExpiresAt - now));
      }
      stored := stored.(attempts := stored.attempts + 1);
      rateLimitStore := rateLimitStore[key := stored];
      r := Allowed(MaxOtpRequests - stored.attempts);
    }

    method RecordFailedAttempt(identifier: string, c: Channel, now: Time) returns (r: FailureReport)
      modifies this`attemptStore
      ensures (r, attemptStore) == RecordFailure(old(attemptStore), AttemptKey(c, identifier), now)
    {
      var key := AttemptKey(c, identifier);
      var stored := if key in attemptStore then attemptStore[key] else AttemptRecord(0, now, None);
      stored := stored.(count := stored.count + 1, lastAttempt := now);
      if stored.count >= MaxVerifyAttempts {
        stored := stored.(lockoutUntil := Some(now + VerifyLockoutMs));
      }
      attemptStore := attemptStore[key := stored];
      r := FailureReport(if stored.count >= MaxVerifyAttempts then 0 else MaxVerifyAttempts - stored.count,
                         stored.count >= MaxVerifyAttempts);
    }

    method ClearFailedAttempts(identifier: string, c: Channel)
      modifies this`attemptStore
      ensures attemptStore == old(attemptStore) - {AttemptKey(c, identifier)}
    {
      attemptStore := attemptStore - {AttemptKey(c, identifier)};
    }

    method StoreOtp(identifier: string, otp: string, c: Channel, now: Time) returns (ok: bool)
      modifies this`otpStore
      ensures ok && otpStore == StoreStep(old(otpStore), hash, identifier, otp, c, now)
    {
      var hashed := hash(otp);
      otpStore := otpStore[OtpKey(c, identifier) := OtpRecord(hashed, now, now + OtpExpiryMs, false)];
      ok := true;
    }

    method VerifyOtp(identifier: string, provided: string, c: Channel, now: Time) returns (r: VerifyResult)
      modifies this`otpStore, this`attemptStore
      ensures old(Valid()) ==> Valid() && !r.AlreadyUsed?
      ensures (r, State()) == VerifyStep(old(State()), hash, identifier, provided, c, now)
    {
      var key := OtpKey(c, identifier);
      var attemptCheck := CheckVerifyAttempts(attemptStore, AttemptKey(c, identifier), now);
      if attemptCheck.Locked? {
        return LockedOut(attemptCheck.minutes);
      }
      if key !in otpStore {
        var failure := RecordFailedAttempt(identifier, c, now);
        return NotFound(failure.attemptsRemaining);
      }
      var stored := otpStore[key];
      if stored.used {
        otpStore := otpStore - {key};
        return AlreadyUsed;
      }
      if stored.expiresAt < now {
        otpStore := otpStore - {key};
        var failure := RecordFailedAttempt(identifier, c, now);
        return Expired(failure.attemptsRemaining);
      }
      var providedHash := hash(Trim(provided));
      if stored.hash != providedHash {
        var failure := RecordFailedAttempt(identifier, c, now);
        if failure.locked {
          return TooManyAttempts;
        }
        return Invalid(failure.attemptsRemaining);
      }
      otpStore := otpStore - {key};
      ClearFailedAttempts(identifier, c);
      r := Verified;
    }

    /** The common body of `sendPhoneOTP` and `sendEmailOTP`. */
    method IssueOtp(identifier: string, c: Channel, randomBytes: seq<Byte>, now: Time, devMode: bool, delivered: bool)
      returns (r: SendOutcome)
      requires Valid() && |randomBytes| == OtpLength
      modifies this`otpStore, this`rateLimitStore
      ensures Valid()
      ensures (r, State()) == SendStep(old(State()), hash, identifier, c, randomBytes, now, devMode, delivered)
    {
      var rateCheck := CheckRateLimit(identifier, c, now);
      if rateCheck.Refused? {
        return RateLimited(rateCheck.retryAfter);
      }
      var otp := GenerateSecureOtp(OtpLength, randomBytes);
      var _ := StoreOtp(identifier, otp, c, now);
      if devMode {
        return Sent(DevModeLogged, Some(otp));
      }
      if delivered {
        return Sent(Delivered, None);
      }
      r := Sent(ConsoleFallback, None);
    }

    /** `sendPhoneOTP`; `delivered` is true when Twilio is configured and
        accepted the SMS. */
    method SendPhoneOtp(phone: string, randomBytes: seq<Byte>, now: Time, devMode: bool, delivered: bool)
      returns (r: SendOutcome)
      requires Valid() && |randomBytes| == OtpLength
      modifies this`otpStore, this`rateLimitStore
      ensures Valid()
      ensures (r, State()) == SendStep(old(State()), hash, phone, Phone, randomBytes, now, devMode, delivered)
    {
      r := IssueOtp(phone, Phone, randomBytes, now, devMode, delivered);
    }

    /** `sendEmailOTP`; `delivered` is true when the mail transport accepted
        the message. */
    method SendEmailOtp(email: string, randomBytes: seq<Byte>, now: Time, devMode: bool, delivered: bool)
      returns (r: SendOutcome)
      requires Valid() && |randomBytes| == OtpLength
      modifies this`otpStore, this`rateLimitStore
      ensures Valid()
      ensures (r, State()) == SendStep(old(State()), hash, email, Email, randomBytes, now, devMode, delivered)
    {
      r := IssueOtp(email, Email, randomBytes, now, devMode, delivered);
    }

    /** One run of the periodic cleanup. */
    method Sweep(now: Time)
      requires Valid()
      modifies this`otpStore, this`rateLimitStore, this`attemptStore
      ensures Valid()
      ensures State() == SweepStep(old(State()), now)
    {
      ghost var target := SweepStep(State(), now);
      var otps := SweepExpired(otpStore, r => OtpExpired(r, now));
      assert otps == target.otps;
      var windows := SweepExpired(rateLimitStore, w => WindowExpired(w, now));
      assert windows == target.windows;
      var attempts := SweepExpired(attemptStore, a => LockoutLapsed(a, now));
      assert attempts == target.attempts;
      otpStore, rateLimitStore, attemptStore := otps, windows, attempts;
    }
  }
}
