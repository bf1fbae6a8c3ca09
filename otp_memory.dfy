/** The older in-memory OTP service: raw codes with a two-minute expiry,
    verification by comparing trimmed strings with no attempt limit, and a
    rate limiter whose window is the OTP expiry. Same shape as `UnifiedOtp`:
    step functions as the specification, a class updating two maps. */
module MemoryOtp {
  import opened Common

  const OtpExpiry: nat := 120000
  const MaxRequests: nat := 5

  datatype StoredCode = StoredCode(otp: string, expiresAt: Time)
  datatype RequestWindow = RequestWindow(attempts: nat, expiresAt: Time)
  datatype Stores = Stores(otps: map<string, StoredCode>, windows: map<string, RequestWindow>)

  datatype VerifyResult = Verified | NotFound | Expired | Invalid
  datatype RateCheck = Allowed | Refused(retryAfter: nat)

  function OtpKey(c: Channel, identifier: string): string { Key("otp", c, identifier) }
  function RateKey(c: Channel, identifier: string): string { Key("ratelimit", c, identifier) }

  /** No live counter has passed the ceiling. */
  predicate WindowsValid(windows: map<string, RequestWindow>)
  {
    forall k :: k in windows ==> 1 <= windows[k].attempts <= MaxRequests
  }

  /** `storeOTP`: the raw code with `expiresAt = now + 120000`, replacing any
      earlier entry for the key. */
  function StoreStep(otps: map<string, StoredCode>, identifier: string, otp: string, c: Channel, now: Time)
    : (r: map<string, StoredCode>)
    ensures r.Keys == otps.Keys + {OtpKey(c, identifier)}
    ensures forall k :: k in otps && k != OtpKey(c, identifier) ==> r[k] == otps[k]
    ensures r[OtpKey(c, identifier)].otp == otp && r[OtpKey(c, identifier)].expiresAt - now == OtpExpiry
  {
    otps[OtpKey(c, identifier) := StoredCode(otp, now + OtpExpiry)]
  }

  /** `verifyOTP`: missing, expired (strictly past `expiresAt`), mismatched
      after trimming both sides, or matched. */
  function VerifyStep(otps: map<string, StoredCode>, identifier: string, provided: string, c: Channel, now: Time)
    : (out: (VerifyResult, map<string, StoredCode>))
    ensures out.0 == NotFound <==> OtpKey(c, identifier) !in otps
    ensures out.0 == Expired <==> OtpKey(c, identifier) in otps && otps[OtpKey(c, identifier)].expiresAt < now
    ensures out.0 == Verified <==>
              && OtpKey(c, identifier) in otps
              && now <= otps[OtpKey(c, identifier)].expiresAt
              && Trim(otps[OtpKey(c, identifier)].otp) == Trim(provided)
    ensures out.0 == NotFound || out.0 == Invalid ==> out.1 == otps
    ensures out.0 == Expired || out.0 == Verified ==> out.1 == otps - {OtpKey(c, identifier)}
  {
    var key := OtpKey(c, identifier);
    if key !in otps then (NotFound, otps)
    else if otps[key].expiresAt < now then (Expired, otps - {key})
    else if Trim(otps[key].otp) != Trim(provided) then (Invalid, otps)
    else (Verified, otps - {key})
  }

  /** `checkOTPRateLimit`: a counter is live while `expiresAt > now`; a live
      counter at five refuses, a live one below five counts one more, and
      anything else starts a new two-minute window. */
  function RateLimitStep(windows: map<string, RequestWindow>, key: string, now: Time)
    : (out: (RateCheck, map<string, RequestWindow>))
    ensures out.1.Keys == windows.Keys + {key}
    ensures forall k :: k in windows && k != key ==> out.1[k] == windows[k]
    ensures out.0.Refused? <==> key in windows && windows[key].expiresAt > now && windows[key].attempts >= MaxRequests
    ensures out.0.Refused? ==> out.1 == windows && out.0.retryAfter >= 1
    ensures out.0.Refused? ==>
              && out.0.retryAfter == CeilSeconds(windows[key].expiresAt - now)
              && (out.0.retryAfter - 1) * 1000 < windows[key].expiresAt - now <= out.0.retryAfter * 1000
    ensures out.0.Allowed? && key in windows && windows[key].expiresAt > now ==>
              out.1[key] == windows[key].(attempts := windows[key].attempts + 1)
    ensures (key !in windows || windows[key].expiresAt <= now) ==>
              out == (Allowed, windows[key := RequestWindow(1, now + OtpExpiry)])
    ensures WindowsValid(windows) ==> WindowsValid(out.1)
  {
    if key in windows && windows[key].expiresAt > now && windows[key].attempts >= MaxRequests then
      (Refused(CeilSeconds(windows[key].expiresAt - now)), windows)
    else if key in windows && windows[key].expiresAt > now then
      (Allowed, windows[key := windows[key].(attempts := windows[key].attempts + 1)])
    else
      (Allowed, windows[key := RequestWindow(1, now + OtpExpiry)])
  }

  predicate CodeExpired(r: StoredCode, now: Time) { r.expiresAt < now }
  predicate WindowExpired(w: RequestWindow, now: Time) { w.expiresAt < now }

  /** The body of the `setInterval` callback. */
  function SweepStep(s: Stores, now: Time): (r: Stores)
    ensures forall k :: k in r.otps <==> k in s.otps && !CodeExpired(s.otps[k], now)
    ensures forall k :: k in r.windows <==> k in s.windows && !WindowExpired(s.windows[k], now)
    ensures forall k :: k in r.otps ==> r.otps[k] == s.otps[k]
    ensures forall k :: k in r.windows ==> r.windows[k] == s.windows[k]
  {
    Stores(
      map k | k in s.otps && !CodeExpired(s.otps[k], now) :: s.otps[k],
      map k | k in s.windows && !WindowExpired(s.windows[k], now) :: s.windows[k])
  }

  class MemoryOtpService {
    var otpStore: map<string, StoredCode>
    var rateLimitStore: map<string, RequestWindow>

    function State(): Stores
      reads this
    {
      Stores(otpStore, rateLimitStore)
    }

    constructor()
      ensures otpStore == map[] && rateLimitStore == map[]
    {
      otpStore, rateLimitStore := map[], map[];
    }

    method StoreOtp(identifier: string, otp: string, c: Channel, now: Time) returns (ok: bool)
      modifies this`otpStore
      ensures ok && otpStore == StoreStep(old(otpStore), identifier, otp, c, now)
      ensures GetStoredOtp(identifier, c) == Some(otp)
      ensures forall id, c2 :: id != identifier || c2 != c ==> GetStoredOtp(id, c2) == old(GetStoredOtp(id, c2))
    {
      otpStore := otpStore[OtpKey(c, identifier) := StoredCode(otp, now + OtpExpiry)];
      ok := true;
      forall id, c2 | id != identifier || c2 != c
        ensures GetStoredOtp(id, c2) == old(GetStoredOtp(id, c2))
      {
        KeyInjective("otp", c, identifier, c2, id);
      }
    }

    method VerifyOtp(identifier: string, provided: string, c: Channel, now: Time) returns (r: VerifyResult)
      modifies this`otpStore
      ensures (r, otpStore) == VerifyStep(old(otpStore), identifier, provided, c, now)
      ensures r == Verified || r == Expired ==> old(GetStoredOtp(identifier, c)).Some? && GetStoredOtp(identifier, c).None?
      ensures r == Verified ==> Trim(old(GetStoredOtp(identifier, c)).value) == Trim(provided)
      ensures r == Invalid ==> GetStoredOtp(identifier, c) == old(GetStoredOtp(identifier, c))
                               && Trim(GetStoredOtp(identifier, c).value) != Trim(provided)
      ensures r == NotFound <==> old(GetStoredOtp(identifier, c)).None?
    {
      var key := OtpKey(c, identifier);
      if key !in otpStore {
        return NotFound;
      }
      var stored := otpStore[key];
      if stored.expiresAt < now {
        otpStore := otpStore - {key};
        return Expired;
      }
      if Trim(stored.otp) != Trim(provided) {
        return Invalid;
      }
      otpStore := otpStore - {key};
      r := Verified;
    }

    method CheckOtpRateLimit(identifier: string, c: Channel, now: Time) returns (r: RateCheck)
      modifies this`rateLimitStore
      ensures (r, rateLimitStore) == RateLimitStep(old(rateLimitStore), RateKey(c, identifier), now)
    {
      var key := RateKey(c, identifier);
      if key in rateLimitStore && rateLimitStore[key].expiresAt > now && rateLimitStore[key].attempts >= MaxRequests {
        return Refused(CeilSeconds(rateLimitStore[key].expiresAt - now));
      }
      if key in rateLimitStore && rateLimitStore[key].expiresAt > now {
        var stored := rateLimitStore[key];
        stored := stored.(attempts := stored.attempts + 1);
        rateLimitStore := rateLimitStore[key := stored];
      } else {
        rateLimitStore := rateLimitStore[key := RequestWindow(1, now + OtpExpiry)];
      }
      r := Allowed;
    }

    /** `getStoredOTP`: the raw code held for the key, if any, expired or not. */
    function GetStoredOtp(identifier: string, c: Channel): (r: Option<string>)
      reads this
      ensures r.Some? <==> OtpKey(c, identifier) in otpStore
      ensures r.Some? ==> r.value == otpStore[OtpKey(c, identifier)].otp
    {
      var key := OtpKey(c, identifier);
      if key in otpStore then Some(otpStore[key].otp) else None
    }

    /** One run of the periodic cleanup. */
    method Sweep(now: Time)
      modifies this
      ensures State() == SweepStep(old(State()), now)
    {
      otpStore := SweepExpired(otpStore, r => CodeExpired(r, now));
      rateLimitStore := SweepExpired(rateLimitStore, w => WindowExpired(w, now));
    }
  }
}
