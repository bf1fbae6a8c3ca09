/** What the in-memory OTP service guarantees across several calls, and
    where its boundaries differ from the unified service. */
module MemoryOtpLemmas {
  import opened Common
  import opened MemoryOtp
  import UnifiedOtp

  /** A stored code verifies, up to and including the instant it expires,
      against any input equal to it after trimming; a second verification
      then finds nothing. */
  lemma {:induction false} StoredCodeVerifiesOnce(otps: map<string, StoredCode>, identifier: string, otp: string,
                                                  c: Channel, now: Time, provided: string, later: Time, again: string)
    requires now <= later <= now + OtpExpiry
    requires Trim(provided) == Trim(otp)
    ensures var (r1, otps1) := VerifyStep(StoreStep(otps, identifier, otp, c, now), identifier, provided, c, later);
            && r1 == Verified
            && VerifyStep(otps1, identifier, again, c, later).0 == NotFound
  {
  }

  /** One millisecond after `expiresAt` the code is refused as expired and
      its entry deleted. */
  lemma ExpiredOneMillisecondLater(otps: map<string, StoredCode>, identifier: string, otp: string,
                                   c: Channel, now: Time, provided: string)
    ensures var stored := StoreStep(otps, identifier, otp, c, now);
            VerifyStep(stored, identifier, provided, c, now + OtpExpiry + 1)
            == (Expired, stored - {OtpKey(c, identifier)})
  {
  }

  /** Guesses in sequence, all at one instant. */
  function Guesses(otps: map<string, StoredCode>, identifier: string, guesses: seq<string>, c: Channel, now: Time)
    : (out: (seq<VerifyResult>, map<string, StoredCode>))
    ensures |out.0| == |guesses|
    decreases |guesses|
  {
    if guesses == [] then ([], otps)
    else
      var (r, otps1) := VerifyStep(otps, identifier, guesses[0], c, now);
      var (rest, otps2) := Guesses(otps1, identifier, guesses[1..], c, now);
      ([r] + rest, otps2)
  }

  /** There is no attempt limit: any number of wrong guesses on a live code
      are each refused as invalid and leave the store exactly as it was, so
      the right code still verifies afterwards. */
  lemma {:induction false} WrongGuessesNeverLock(otps: map<string, StoredCode>, identifier: string, guesses: seq<string>,
                                                 c: Channel, now: Time)
    requires OtpKey(c, identifier) in otps && now <= otps[OtpKey(c, identifier)].expiresAt
    requires forall i :: 0 <= i < |guesses| ==> Trim(guesses[i]) != Trim(otps[OtpKey(c, identifier)].otp)
    ensures var (results, otps') := Guesses(otps, identifier, guesses, c, now);
            && otps' == otps
            && (forall i :: 0 <= i < |guesses| ==> results[i] == Invalid)
    decreases |guesses|
  {
    if guesses != [] {
      WrongGuessesNeverLock(otps, identifier, guesses[1..], c, now);
      var (rest, otps2) := Guesses(otps, identifier, guesses[1..], c, now);
      assert Guesses(otps, identifier, guesses, c, now) == ([Invalid] + rest, otps2);
      forall i | 0 < i < |guesses|
        ensures ([Invalid] + rest)[i] == Invalid
      {
        assert guesses[1..][i - 1] == guesses[i];
      }
    }
  }

  /** The two services disagree on the instant a full window ends: at
      `now == expiry` the unified limiter still refuses while this one opens
      a new window. */
  lemma {:induction false} WindowBoundaryDiffers(key: string, expiry: Time)
    ensures RateLimitStep(map[key := RequestWindow(MaxRequests, expiry)], key, expiry).0 == Allowed
    ensures UnifiedOtp.RateLimitStep(map[key := UnifiedOtp.RateWindow(UnifiedOtp.MaxOtpRequests, expiry)], key, expiry).0.Refused?
  {
  }
}
