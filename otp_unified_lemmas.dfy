/** What the unified OTP engine guarantees across several calls: a code
    verifies once, wrong guesses lock the key, a lapsed lockout re-locks on
    the next wrong guess, a window admits exactly `MaxOtpRequests` sends, and
    one identifier's calls never touch another's entries. */
module UnifiedOtpLemmas {
  import opened Common
  import opened UnifiedOtp

  // ---------------------------------------------------------------------
  // Issue, verify, verify again
  // ---------------------------------------------------------------------

  lemma DigitsAreNotWhitespace(code: string)
    requires IsDigitString(code)
    ensures forall i :: 0 <= i < |code| ==> !IsJsWhitespace(code[i])
  {
  }

  /** A code that was issued (whatever the channel reported) verifies when
      presented before it expires, with any whitespace around it, unless
      the key is locked out. */
  lemma {:induction false} IssuedCodeVerifies(s: Stores, hash: string -> string, identifier: string, c: Channel,
                                              randomBytes: seq<Byte>, now: Time, devMode: bool, delivered: bool, later: Time,
                                              pre: string, post: string)
    requires |randomBytes| == OtpLength
    requires SendStep(s, hash, identifier, c, randomBytes, now, devMode, delivered).0.Sent?
    requires now <= later <= now + OtpExpiryMs
    requires CheckVerifyAttempts(s.attempts, AttemptKey(c, identifier), later).Unlocked?
    requires forall k :: 0 <= k < |pre| ==> IsJsWhitespace(pre[k])
    requires forall k :: 0 <= k < |post| ==> IsJsWhitespace(post[k])
    ensures VerifyStep(SendStep(s, hash, identifier, c, randomBytes, now, devMode, delivered).1,
                       hash, identifier, pre + OtpFromBytes(randomBytes) + post, c, later).0 == Verified
  {
    var code := OtpFromBytes(randomBytes);
    DigitsAreNotWhitespace(code);
    TrimPadded(pre, code, post);
  }

  /** Verification is single-use: once a code verified, the next attempt for
      the same key, with any code at any time, finds no record. */
  lemma {:induction false} VerificationIsSingleUse(s: Stores, hash: string -> string, identifier: string, code: string,
                                                   c: Channel, now: Time, again: string, later: Time)
    requires VerifyStep(s, hash, identifier, code, c, now).0 == Verified
    ensures VerifyStep(VerifyStep(s, hash, identifier, code, c, now).1, hash, identifier, again, c, later).0
            == NotFound(MaxVerifyAttempts - 1)
  {
    var s1 := VerifyStep(s, hash, identifier, code, c, now).1;
    assert AttemptKey(c, identifier) !in s1.attempts;
    assert OtpKey(c, identifier) !in s1.otps;
  }

  /** A wrong guess that does not reach the ceiling keeps the record, so the
      right code still verifies afterwards while the record is live. */
  lemma {:induction false} WrongGuessKeepsCode(s: Stores, hash: string -> string, identifier: string, wrong: string,
                                               right: string, c: Channel, now: Time, later: Time)
    requires StoresValid(s)
    requires VerifyStep(s, hash, identifier, wrong, c, now).0.Invalid?
    requires OtpKey(c, identifier) in s.otps && later <= s.otps[OtpKey(c, identifier)].expiresAt
    requires s.otps[OtpKey(c, identifier)].hash == hash(Trim(right))
    ensures VerifyStep(VerifyStep(s, hash, identifier, wrong, c, now).1, hash, identifier, right, c, later).0 == Verified
  {
    var ak := AttemptKey(c, identifier);
    var s1 := VerifyStep(s, hash, identifier, wrong, c, now).1;
    assert s1.attempts == RecordFailure(s.attempts, ak, now).1;
    assert s1.attempts[ak].count < MaxVerifyAttempts;
    assert s1.attempts[ak].lockoutUntil.None?;
  }

  // ---------------------------------------------------------------------
  // Lockout
  // ---------------------------------------------------------------------

  /** The guess numbered `i` (from 0) of a run of wrong guesses on a fresh counter. */
  function WrongGuessResult(i: nat): VerifyResult
  {
    if i + 1 < MaxVerifyAttempts then Invalid(MaxVerifyAttempts - (i + 1)) else TooManyAttempts
  }

  /** The failure counter of a key stands at `k` (absent when `k` is 0), with
      no lockout set below the ceiling. */
  predicate CounterAt(attempts: map<string, AttemptRecord>, key: string, k: nat)
  {
    if k == 0 then key !in attempts
    else key in attempts && attempts[key].count == k && (k < MaxVerifyAttempts ==> attempts[key].lockoutUntil.None?)
  }

  /** The failure counters after one failure on `key` recorded at each of
      `times`, in order. */
  function FailTimes(attempts: map<string, AttemptRecord>, key: string, times: seq<Time>): map<string, AttemptRecord>
    decreases |times|
  {
    if times == [] then attempts
    else RecordFailure(FailTimes(attempts, key, times[..|times| - 1]), key, times[|times| - 1]).1
  }

  /** Failures on a fresh key, at whatever times, leave its counter at their
      number; the fifth sets the lockout to thirty minutes after its own time. */
  lemma {:induction false} FailuresCount(attempts: map<string, AttemptRecord>, key: string, times: seq<Time>)
    requires key !in attempts && |times| <= MaxVerifyAttempts
    ensures CounterAt(FailTimes(attempts, key, times), key, |times|)
    ensures |times| == MaxVerifyAttempts ==>
              FailTimes(attempts, key, times)[key].lockoutUntil == Some(times[|times| - 1] + VerifyLockoutMs)
    decreases |times|
  {
    if times != [] {
      FailuresCount(attempts, key, times[..|times| - 1]);
    }
  }

  /** One wrong guess below the ceiling: the answer depends only on the
      counter `k`, the record stays, and exactly one failure is recorded. */
  lemma {:induction false} OneWrongGuess(s: Stores, hash: string -> string, identifier: string, wrong: string,
                                         c: Channel, now: Time, k: nat)
    requires CounterAt(s.attempts, AttemptKey(c, identifier), k) && k < MaxVerifyAttempts
    requires OtpKey(c, identifier) in s.otps && now <= s.otps[OtpKey(c, identifier)].expiresAt
    requires !s.otps[OtpKey(c, identifier)].used
    requires s.otps[OtpKey(c, identifier)].hash != hash(Trim(wrong))
    ensures VerifyStep(s, hash, identifier, wrong, c, now)
            == (WrongGuessResult(k), s.(attempts := RecordFailure(s.attempts, AttemptKey(c, identifier), now).1))
  {
    var ak := AttemptKey(c, identifier);
    assert CheckVerifyAttempts(s.attempts, ak, now).Unlocked?;
  }

  /** Wrong guesses on a live record that had no failure counter: after
      wrong guesses at `times` the stores are the old ones with those
      failures recorded, and the next wrong guess, at any `now` before the
      code expires, answers `WrongGuessResult(|times|)` (remaining attempts
      4, 3, 2, 1, then the lockout), keeps the code and records one failure
      more. */
  lemma NthWrongGuess(s: Stores, hash: string -> string, identifier: string, wrong: string,
                      c: Channel, times: seq<Time>, now: Time)
    requires AttemptKey(c, identifier) !in s.attempts
    requires OtpKey(c, identifier) in s.otps && now <= s.otps[OtpKey(c, identifier)].expiresAt
    requires !s.otps[OtpKey(c, identifier)].used
    requires s.otps[OtpKey(c, identifier)].hash != hash(Trim(wrong))
    requires |times| < MaxVerifyAttempts
    ensures var ak := AttemptKey(c, identifier);
            VerifyStep(s.(attempts := FailTimes(s.attempts, ak, times)), hash, identifier, wrong, c, now)
            == (WrongGuessResult(|times|), s.(attempts := FailTimes(s.attempts, ak, times + [now])))
  {
    var ak := AttemptKey(c, identifier);
    FailuresCount(s.attempts, ak, times);
    OneWrongGuess(s.(attempts := FailTimes(s.attempts, ak, times)), hash, identifier, wrong, c, now, |times|);
    assert (times + [now])[..|times|] == times;
  }

  /** Five wrong guesses at `times`: the fifth reports the lockout, and from
      then on every attempt, even with the right code, fails as locked
      exactly until thirty minutes after the fifth guess. */
  lemma FiveWrongGuessesLock(s: Stores, hash: string -> string, identifier: string, wrong: string,
                             c: Channel, times: seq<Time>, any: string, later: Time)
    requires AttemptKey(c, identifier) !in s.attempts
    requires |times| == MaxVerifyAttempts
    requires OtpKey(c, identifier) in s.otps && times[MaxVerifyAttempts - 1] <= s.otps[OtpKey(c, identifier)].expiresAt
    requires !s.otps[OtpKey(c, identifier)].used
    requires s.otps[OtpKey(c, identifier)].hash != hash(Trim(wrong))
    ensures var ak := AttemptKey(c, identifier);
            var fifth := times[MaxVerifyAttempts - 1];
            && VerifyStep(s.(attempts := FailTimes(s.attempts, ak, times[..MaxVerifyAttempts - 1])),
                          hash, identifier, wrong, c, fifth).0 == TooManyAttempts
            && (VerifyStep(s.(attempts := FailTimes(s.attempts, ak, times)), hash, identifier, any, c, later).0.LockedOut?
                <==> later < fifth + VerifyLockoutMs)
  {
    var ak := AttemptKey(c, identifier);
    var fifth := times[MaxVerifyAttempts - 1];
    NthWrongGuess(s, hash, identifier, wrong, c, times[..MaxVerifyAttempts - 1], fifth);
    FailuresCount(s.attempts, ak, times);
  }

  /** The counter is not reset when a lockout lapses: until the sweep
      removes it, a single wrong guess locks the key again. */
  lemma {:induction false} LapsedLockoutRelocksOnNextWrongGuess(s: Stores, hash: string -> string, identifier: string,
                                                               wrong: string, c: Channel, now: Time)
    requires StoresValid(s)
    requires AttemptKey(c, identifier) in s.attempts && s.attempts[AttemptKey(c, identifier)].count >= MaxVerifyAttempts
    requires s.attempts[AttemptKey(c, identifier)].lockoutUntil.value <= now
    requires OtpKey(c, identifier) in s.otps && now <= s.otps[OtpKey(c, identifier)].expiresAt
    requires s.otps[OtpKey(c, identifier)].hash != hash(Trim(wrong))
    ensures var (r, s') := VerifyStep(s, hash, identifier, wrong, c, now);
            && r == TooManyAttempts
            && s'.attempts[AttemptKey(c, identifier)].lockoutUntil == Some(now + VerifyLockoutMs)
  {
    var ak := AttemptKey(c, identifier);
    assert CheckVerifyAttempts(s.attempts, ak, now).Unlocked?;
    assert VerifyStep(s, hash, identifier, wrong, c, now).1.attempts == RecordFailure(s.attempts, ak, now).1;
  }

  /** Once the sweep has run after the lockout lapsed, the counter is gone and
      the key starts again with the full number of attempts. */
  lemma {:induction false} SweepAfterLapseRestoresAttempts(s: Stores, hash: string -> string, identifier: string,
                                                          wrong: string, c: Channel, sweptAt: Time, now: Time)
    requires StoresValid(s)
    requires AttemptKey(c, identifier) in s.attempts && s.attempts[AttemptKey(c, identifier)].lockoutUntil.Some?
    requires s.attempts[AttemptKey(c, identifier)].lockoutUntil.value < sweptAt
    requires var s1 := SweepStep(s, sweptAt);
             OtpKey(c, identifier) in s1.otps && now <= s1.otps[OtpKey(c, identifier)].expiresAt
             && s1.otps[OtpKey(c, identifier)].hash != hash(Trim(wrong))
    ensures VerifyStep(SweepStep(s, sweptAt), hash, identifier, wrong, c, now).0 == Invalid(MaxVerifyAttempts - 1)
  {
    var s1 := SweepStep(s, sweptAt);
    assert AttemptKey(c, identifier) !in s1.attempts;
  }

  // ---------------------------------------------------------------------
  // Rate limiting
  // ---------------------------------------------------------------------

  /** A run of send requests for one key at the given instants. */
  function RepeatRequests(windows: map<string, RateWindow>, key: string, times: seq<Time>)
    : (out: (seq<RateCheck>, map<string, RateWindow>))
    ensures |out.0| == |times|
    decreases |times|
  {
    if times == [] then ([], windows)
    else
      var (r, w1) := RateLimitStep(windows, key, times[0]);
      var (rest, w2) := RepeatRequests(w1, key, times[1..]);
      ([r] + rest, w2)
  }

  function Min(a: int, b: int): int { if a <= b then a else b }

  /** Inside a live window the counter climbs to the ceiling and stays there,
      and a request is admitted exactly while the ceiling is not reached. */
  lemma {:induction false} LiveWindowCounts(windows: map<string, RateWindow>, key: string, times: seq<Time>)
    requires WindowsValid(windows) && key in windows
    requires forall i :: 0 <= i < |times| ==> times[i] <= windows[key].windowExpiresAt
    ensures var (results, w) := RepeatRequests(windows, key, times);
            && key in w && w[key].windowExpiresAt == windows[key].windowExpiresAt
            && w[key].attempts == Min(MaxOtpRequests, windows[key].attempts + |times|)
            && (forall i :: 0 <= i < |times| ==> (results[i].Allowed? <==> windows[key].attempts + i < MaxOtpRequests))
    decreases |times|
  {
    if times != [] {
      var (r, w1) := RateLimitStep(windows, key, times[0]);
      LiveWindowCounts(w1, key, times[1..]);
      var (rest, w2) := RepeatRequests(w1, key, times[1..]);
      assert RepeatRequests(windows, key, times) == ([r] + rest, w2);
      forall i | 0 < i < |times|
        ensures RepeatRequests(windows, key, times).0[i].Allowed? <==> windows[key].attempts + i < MaxOtpRequests
      {
        assert ([r] + rest)[i] == rest[i - 1];
        assert times[1..][i - 1] == times[i];
      }
    }
  }

  /** A fresh window admits exactly `MaxOtpRequests` sends: every request
      made within the window after the first is refused once five were let
      through, and refusal does not extend the window. */
  lemma {:induction false} FreshWindowAdmitsExactlyMax(windows: map<string, RateWindow>, key: string, times: seq<Time>)
    requires WindowsValid(windows)
    requires |times| > 0 && (key !in windows || windows[key].windowExpiresAt < times[0])
    requires forall i :: 0 <= i < |times| ==> times[i] <= times[0] + RateLimitWindowMs
    ensures var (results, w) := RepeatRequests(windows, key, times);
            && (forall i :: 0 <= i < |times| ==> (results[i].Allowed? <==> i < MaxOtpRequests))
            && key in w && w[key] == RateWindow(Min(MaxOtpRequests, |times|), times[0] + RateLimitWindowMs)
  {
    var (r, w1) := RateLimitStep(windows, key, times[0]);
    assert w1[key] == RateWindow(1, times[0] + RateLimitWindowMs);
    LiveWindowCounts(w1, key, times[1..]);
    var (rest, w2) := RepeatRequests(w1, key, times[1..]);
    assert RepeatRequests(windows, key, times) == ([r] + rest, w2);
    forall i | 0 < i < |times|
      ensures RepeatRequests(windows, key, times).0[i].Allowed? <==> i < MaxOtpRequests
    {
      assert ([r] + rest)[i] == rest[i - 1];
    }
  }

  // ---------------------------------------------------------------------
  // Keys never interfere
  // ---------------------------------------------------------------------

  /** Everything the three stores hold about one (channel, identifier). */
  function EntriesOf(s: Stores, c: Channel, identifier: string)
    : (Option<OtpRecord>, Option<RateWindow>, Option<AttemptRecord>)
  {
    var ok, rk, ak := OtpKey(c, identifier), RateKey(c, identifier), AttemptKey(c, identifier);
    (if ok in s.otps then Some(s.otps[ok]) else None,
     if rk in s.windows then Some(s.windows[rk]) else None,
     if ak in s.attempts then Some(s.attempts[ak]) else None)
  }

  /** Verifying for one identifier and channel leaves every other pair's
      entries as they were; in particular the phone and email counters of
      the same string are independent. */
  lemma {:induction false} VerifyLeavesOtherKeys(s: Stores, hash: string -> string, identifier: string, provided: string,
                                                 c: Channel, now: Time, otherId: string, otherC: Channel)
    requires (otherC, otherId) != (c, identifier)
    ensures EntriesOf(VerifyStep(s, hash, identifier, provided, c, now).1, otherC, otherId) == EntriesOf(s, otherC, otherId)
  {
    KeyInjective("otp", c, identifier, otherC, otherId);
    KeyInjective("attempts", c, identifier, otherC, otherId);
  }

  /** Sending to one identifier and channel leaves every other pair's
      entries as they were. */
  lemma {:induction false} SendLeavesOtherKeys(s: Stores, hash: string -> string, identifier: string, c: Channel,
                                               randomBytes: seq<Byte>, now: Time, devMode: bool, delivered: bool,
                                               otherId: string, otherC: Channel)
    requires |randomBytes| == OtpLength
    requires (otherC, otherId) != (c, identifier)
    ensures EntriesOf(SendStep(s, hash, identifier, c, randomBytes, now, devMode, delivered).1, otherC, otherId)
            == EntriesOf(s, otherC, otherId)
  {
    KeyInjective("otp", c, identifier, otherC, otherId);
    KeyInjective("ratelimit", c, identifier, otherC, otherId);
  }

  /** Delivery is fail-open: what the channel reports changes neither the
      stores nor whether the send is reported as done. */
  lemma DeliveryDoesNotDecide(s: Stores, hash: string -> string, identifier: string, c: Channel,
                              randomBytes: seq<Byte>, now: Time, devMode: bool)
    requires |randomBytes| == OtpLength
    ensures var (r1, s1) := SendStep(s, hash, identifier, c, randomBytes, now, devMode, true);
            var (r2, s2) := SendStep(s, hash, identifier, c, randomBytes, now, devMode, false);
            s1 == s2 && r1.Sent? == r2.Sent?
  {
  }
}
