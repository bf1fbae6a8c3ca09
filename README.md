# Aloo Mandi one-time passcodes, bookings and buy requests, in Dafny

This project models five pieces of the Aloo Mandi marketplace backend and proves
what each of them promises.

- **The unified OTP service** (`UnifiedOtp`, `UnifiedOtpLemmas`). It issues six-digit codes
  from random bytes and keeps only their hashes, for five minutes. It limits sends to five
  per fifteen-minute window. Five wrong guesses lock verification for thirty minutes. A
  periodic sweep drops expired entries. The service is the class `OtpService` with three
  maps (`otpStore`, `rateLimitStore`, `attemptStore`). Each method is proved equal to a
  step function over a `Stores` value, and the lemmas about those step functions carry the
  multi-call guarantees.
- **The older in-memory OTP service** (`MemoryOtp`, `MemoryOtpLemmas`). It keeps raw codes
  for two minutes, compares trimmed strings and has no attempt limit. Its send counter
  lives as long as a code.
- **SMS delivery** (`Sms`). This covers phone-number normalisation, the message text, and
  the result reported for each way a Twilio call can end.
- **Cold-storage bookings** (`Bookings`, `BookingLemmas`). Classes `Booking` and
  `ColdStorage` are updated in place by the create, update, respond and cancel handlers.
  Accepting a booking debits the storage's free capacity and cancelling it credits the
  capacity back.
- **Trader buy requests** (`TraderRequests`, `TraderRequestLemmas`). The class
  `TraderRequest` is updated by the respond, response-status, whitelisted-update and cancel
  handlers.

Shared pieces live in `Common`:
- the `<prefix>:<type>:<identifier>` store keys and their injectivity;
- JavaScript `trim`;
- rounding milliseconds up to seconds;
- the loop that sweeps a map.

Time is a parameter in milliseconds. The random bytes are an input. The hash is an
arbitrary `string -> string`, and nothing assumes it is injective. Whether delivery worked
is a boolean input, and the `DEV_MODE` setting is a boolean flag. A request handler's HTTP
error is an `Outcome` constructor. A refused request leaves every record unchanged.

Notes on how the OTP code behaves:

- Codes are compared with a plain string inequality on hex digests, not in constant time.
- The `used` flag is never set. A code is deleted on success, so the "already used" branch
  is unreachable from states the service creates (`UnifiedOtp.VerifyStep` proves this
  under `StoresValid`).
- The "already used" branch deletes the record without counting a failure. The "expired"
  branch deletes it and does count one.
- A lapsed lockout is not cleared when it lapses. The count stays at the ceiling until the
  sweep removes the entry, so a wrong guess in between locks the key again at once.

## Model

| member | source | states |
|---|---|---|
| Common.Key | src/services/otp.unified.service.js:172 | a store key is the prefix, the channel name and the identifier, with the prefix and identifier recoverable from fixed positions |
| Common.KeyInjective | src/services/otp.unified.service.js:171-172 | two keys of one store are equal exactly when channel and identifier are equal, so phone and email entries for the same string never share a slot |
| Common.Trim | src/services/otp.unified.service.js:214 | `trim` returns a string no longer than its input with no whitespace at either end |
| Common.TrimIsInfix | src/services/otp.unified.service.js:214 | the trim is the slice of the input that remains after its leading and trailing whitespace, with only whitespace before and after it |
| Common.TrimPadded | src/services/otp.memory.service.js:65-66 | a string with no whitespace at its ends, padded with whitespace on either side, trims back to itself; whitespace alone trims to the empty string |
| Common.TrimUnchanged | src/services/otp.unified.service.js:214 | a string with no whitespace at its ends is its own trim |
| Common.TrimIdempotent | src/services/otp.memory.service.js:65-66 | trimming twice is trimming once |
| Common.CeilSeconds | src/services/otp.unified.service.js:83 | `Math.ceil(ms / 1000)` is the least whole number of seconds covering `ms` |
| Common.SweepExpired | src/services/otp.unified.service.js:41-61 | the sweep loop keeps exactly the entries the predicate does not select, with their values |
| UnifiedOtp.OtpFromBytes | src/services/otp.unified.service.js:25-33 | the code has one character per random byte and every character is a decimal digit |
| UnifiedOtp.GenerateSecureOtp | src/services/otp.unified.service.js:25-33 | the loop yields `length` digits whose i-th digit is byte i modulo 10 |
| UnifiedOtp.RateLimitStep | src/services/otp.unified.service.js:67-97 | refuses exactly when the window is live (`now <= windowExpiresAt`) with five sends counted, and then changes nothing and reports the time to the window's end rounded up to whole seconds; an absent or lapsed window restarts at one with a fifteen-minute end; a live one counts one more; `remaining` is five minus the count; other keys untouched; counters stay within 1..5 |
| UnifiedOtp.CheckVerifyAttempts | src/services/otp.unified.service.js:103-120 | locked exactly when a lockout is set and lies in the future; the reported minutes are the whole minutes in the remaining time rounded up to seconds (`m * 60 <= seconds < (m + 1) * 60`) |
| UnifiedOtp.RecordFailure | src/services/otp.unified.service.js:122-141 | the count rises by one and `lastAttempt` is now; reaching five sets the lockout to now plus thirty minutes and reports locked; remaining attempts are `max(0, 5 - count)`; other keys untouched |
| UnifiedOtp.StoreStep | src/services/otp.unified.service.js:152-165 | replaces the key's record by the hash of the code, unused, expiring five minutes later; other keys untouched |
| UnifiedOtp.VerifyStep | src/services/otp.unified.service.js:171-239 | locked exactly when the guard locks, and then nothing changes and the guard's minutes are reported; verified exactly when unlocked and a live unused record matches the hash of the trimmed input, and then both the code and the failure count are deleted; no record: one failure recorded and "not found" with the attempts left; an expired record: deleted, one failure recorded, "expired" with the attempts left; a wrong code: the record kept, one failure recorded, "too many attempts" exactly when that failure locks, "invalid" with the attempts left otherwise; only this key's entries change; validity preserved and "already used" unreachable from valid states |
| UnifiedOtp.SendStep | src/services/otp.unified.service.js:245-295 | a refused rate check returns before any code is stored and passes on the check's `retryAfter`; otherwise the code made from the bytes is stored and success is reported whatever delivery did; the result is labelled dev mode exactly in dev mode, and otherwise delivered exactly when delivery worked; the raw code is echoed exactly in dev mode; failure counts are never touched |
| UnifiedOtp.SweepStep | src/services/otp.unified.service.js:41-61 | keeps exactly the codes and windows not yet past their end and the failure entries without a lapsed lockout, each with its value unchanged; validity preserved |
| UnifiedOtp.OtpService.constructor | src/services/otp.unified.service.js:10-12 | all three stores start empty |
| UnifiedOtp.OtpService.CheckRateLimit | src/services/otp.unified.service.js:67-97 | result and new send counters are those of `RateLimitStep` |
| UnifiedOtp.OtpService.RecordFailedAttempt | src/services/otp.unified.service.js:122-141 | result and new failure counts are those of `RecordFailure` |
| UnifiedOtp.OtpService.ClearFailedAttempts | src/services/otp.unified.service.js:143-146 | removes exactly this key's failure entry |
| UnifiedOtp.OtpService.StoreOtp | src/services/otp.unified.service.js:152-165 | the code store becomes that of `StoreStep` |
| UnifiedOtp.OtpService.VerifyOtp | src/services/otp.unified.service.js:171-239 | result and all three stores are those of `VerifyStep`; a valid service stays valid and never answers "already used" |
| UnifiedOtp.OtpService.IssueOtp | src/services/otp.unified.service.js:245-295 | generates the code with `GenerateSecureOtp`; outcome and stores are those of `SendStep` |
| UnifiedOtp.OtpService.SendPhoneOtp | src/services/otp.unified.service.js:245-295 | issues on the phone channel |
| UnifiedOtp.OtpService.SendEmailOtp | src/services/otp.unified.service.js:297-343 | issues on the email channel |
| UnifiedOtp.OtpService.Sweep | src/services/otp.unified.service.js:41-61 | the stores become those of `SweepStep` |
| UnifiedOtpLemmas.DigitsAreNotWhitespace | src/services/otp.unified.service.js:214 | a digit code has no character `trim` removes |
| UnifiedOtpLemmas.IssuedCodeVerifies | src/services/otp.unified.service.js:245-295 | a code that was sent verifies from issue until five minutes later while the key is not locked, whether or not delivery succeeded, and also when presented with whitespace before or after it |
| UnifiedOtpLemmas.VerificationIsSingleUse | src/services/otp.unified.service.js:233-238 | after a successful verification, any later attempt finds no record and is counted as a failure |
| UnifiedOtpLemmas.WrongGuessKeepsCode | src/services/otp.unified.service.js:213-231 | a wrong guess below the ceiling keeps the code, and the right code still verifies afterwards |
| UnifiedOtpLemmas.FailuresCount | src/services/otp.unified.service.js:122-141 | failures recorded at any sequence of n <= 5 times on a fresh key leave its count at n, with no lockout below five and, at the fifth, a lockout thirty minutes after the fifth failure's time |
| UnifiedOtpLemmas.OneWrongGuess | src/services/otp.unified.service.js:171-231 | with k < 5 earlier failures and no lockout, a wrong guess on a live unused code answers "invalid, 4-k left" (the lockout at the fifth), keeps the code, and changes nothing but one more recorded failure |
| UnifiedOtpLemmas.NthWrongGuess | src/services/otp.unified.service.js:213-231 | after wrong guesses at any n < 5 earlier times, the stores are the old ones with those failures recorded; a further wrong guess at any time up to the code's expiry answers 4, 3, 2, 1 attempts left and then the lockout, and leads to the stores with that failure recorded too |
| UnifiedOtpLemmas.FiveWrongGuessesLock | src/services/otp.unified.service.js:103-141 | for wrong guesses at any five times up to the code's expiry, the fifth reports the lockout; afterwards an attempt with any code at any later time is refused as locked out exactly when it comes less than thirty minutes after the fifth guess |
| UnifiedOtpLemmas.LapsedLockoutRelocksOnNextWrongGuess | src/services/otp.unified.service.js:122-141 | once a lockout lapses but before the sweep removes it, a single wrong guess locks the key again |
| UnifiedOtpLemmas.SweepAfterLapseRestoresAttempts | src/services/otp.unified.service.js:41-61 | after the sweep removes a lapsed lockout, a wrong guess reports four attempts left |
| UnifiedOtpLemmas.LiveWindowCounts | src/services/otp.unified.service.js:67-97 | inside a live window, each request is admitted exactly while the count is below five, and the count ends at the minimum of five and the requests made |
| UnifiedOtpLemmas.FreshWindowAdmitsExactlyMax | src/services/otp.unified.service.js:67-97 | starting from no live window, within fifteen minutes exactly the first five requests are admitted and the window keeps its first end |
| UnifiedOtpLemmas.VerifyLeavesOtherKeys | src/services/otp.unified.service.js:171-239 | verifying for one channel and identifier leaves every other pair's entries as they were |
| UnifiedOtpLemmas.SendLeavesOtherKeys | src/services/otp.unified.service.js:245-295 | sending for one pair leaves every other pair's entries as they were |
| UnifiedOtpLemmas.DeliveryDoesNotDecide | src/services/otp.unified.service.js:275-295 | the stores and the success of a send do not depend on whether delivery worked |
| MemoryOtp.StoreStep | src/services/otp.memory.service.js:30-36 | replaces the key's entry by the raw code expiring two minutes later; other keys untouched |
| MemoryOtp.VerifyStep | src/services/otp.memory.service.js:46-80 | missing changes nothing; expired (strictly past its end) deletes; verified exactly when live and equal after trimming both sides, and then deletes; a mismatch changes nothing |
| MemoryOtp.RateLimitStep | src/services/otp.memory.service.js:167-196 | refuses exactly when the counter is live (`expiresAt > now`) at five, changing nothing and reporting the time to its end rounded up to whole seconds; a live counter counts one more; an absent or ended one restarts at one for two minutes; counters stay within 1..5 |
| MemoryOtp.SweepStep | src/services/otp.memory.service.js:15-27 | keeps exactly the codes and counters not past their end, with their values |
| MemoryOtp.MemoryOtpService.constructor | src/services/otp.memory.service.js:2-3 | both stores start empty |
| MemoryOtp.MemoryOtpService.StoreOtp | src/services/otp.memory.service.js:30-36 | reports success; the code store becomes that of `StoreStep`; reading the key back gives the stored code, and every other channel and identifier reads as before |
| MemoryOtp.MemoryOtpService.VerifyOtp | src/services/otp.memory.service.js:46-80 | result and new code store are those of `VerifyStep`; after a verified or expired attempt the stored code can no longer be read back, after an invalid one it reads back unchanged and still differs from the input after trimming; not found exactly when nothing could be read before |
| MemoryOtp.MemoryOtpService.CheckOtpRateLimit | src/services/otp.memory.service.js:167-196 | result and new counters are those of `RateLimitStep` |
| MemoryOtp.MemoryOtpService.GetStoredOtp | src/services/otp.memory.service.js:199-203 | returns the raw code exactly when the key has an entry, expired or not (what it reads after a store or a verification is stated with `StoreOtp` and `VerifyOtp`) |
| MemoryOtp.MemoryOtpService.Sweep | src/services/otp.memory.service.js:15-27 | the stores become those of `SweepStep` |
| MemoryOtpLemmas.StoredCodeVerifiesOnce | src/services/otp.memory.service.js:46-80 | a stored code verifies up to and including its expiry instant against any input with the same trim, and a second attempt finds nothing |
| MemoryOtpLemmas.ExpiredOneMillisecondLater | src/services/otp.memory.service.js:60-63 | one millisecond after expiry the code is refused as expired and deleted |
| MemoryOtpLemmas.WrongGuessesNeverLock | src/services/otp.memory.service.js:65-70 | any number of wrong guesses on a live code are each refused as invalid and leave the store exactly as it was |
| MemoryOtpLemmas.WindowBoundaryDiffers | src/services/otp.memory.service.js:170-171 | at the instant a full window ends, this limiter admits while the unified one still refuses |
| Sms.KeepDialChars | src/services/sms.service.js:32 | the result holds only digits and `+`, and holds each such character of the input |
| Sms.KeepDialCharsOnClean | src/services/sms.service.js:32 | a string of digits and `+` is left as it is |
| Sms.KeepDialCharsOne | src/services/sms.service.js:32 | a single character is kept exactly when it is a digit or `+` |
| Sms.KeepDialCharsAppend | src/services/sms.service.js:32 | cleaning a concatenation is concatenating the cleaned parts, so kept characters stay in their input order |
| Sms.FormatPhoneNumber | src/services/sms.service.js:30-44 | the result starts with `+` and holds only digits and `+`; a cleaned number starting with `+` is returned as it is; any other is `+91` followed by the cleaned number less at most one leading `0` |
| Sms.FormatPhoneNumberIdempotent | src/services/sms.service.js:30-44 | formatting a formatted number returns it unchanged |
| Sms.PurposeText | src/services/sms.service.js:25 | the wording is "login" exactly for the purpose `login`, and "registration" otherwise |
| Sms.OtpMessage | src/services/sms.service.js:24-27 | the message is the fixed lead, the wording, the code and the fixed tail, with their lengths adding up |
| Sms.MessageCarriesCode | src/services/sms.service.js:24-27 | the code can be read back from the message, and the message says "login" exactly when the purpose was `login` |
| Sms.OtpMessageInjective | src/services/sms.service.js:24-27 | equal messages carry equal codes and equal wording |
| Sms.TwilioErrorResult | src/services/sms.service.js:86-110 | every error result is a failure carrying the error text; code 21211 and only it gives "Invalid phone number format", 21608 and only it gives "Phone number not verified for trial account", any other gives the generic text quoting the error |
| Sms.SendOtpSms | src/services/sms.service.js:47-111 | reports a fallback exactly when a credential or the sender number is missing, with the wording for the missing piece; succeeds exactly when configured and Twilio accepts the code message to the formatted number, and then carries the message id; a configured send that Twilio rejects gives exactly the mapped error of `TwilioErrorResult` |
| Bookings.DurationOrDefault | src/routes/booking.routes.js:50 | an absent duration becomes one; any other is kept |
| Bookings.CreateStep | src/routes/booking.routes.js:11-94 | refuses a missing storage id or quantity, an unknown storage, and a quantity above the free capacity, in that order, writing nothing; a created booking is pending, priced at quantity times the storage's current price times duration, owned by the storage's owner, and valid |
| Bookings.UpdateStep | src/routes/booking.routes.js:191-269 | only the booking's farmer, only while pending; succeeds exactly when the caller is the farmer, the booking is pending, a new quantity fits the free capacity and the resulting quantity and duration are at least one; a written booking holds the new quantity, duration and note and the recomputed price at its own price per ton; refused edits change nothing; validity preserved |
| Bookings.RespondStep | src/routes/booking.routes.js:272-376 | only the owner, only while pending, only "accept" or "reject"; succeeds exactly when the owner answers a pending booking with "reject", or with "accept" and the quantity fits; accepting debits exactly the quantity, marks the storage unavailable at zero and keeps free capacity non-negative; rejecting leaves the storage untouched; refusals change nothing |
| Bookings.CancelStep | src/routes/booking.routes.js:379-441 | succeeds exactly when the farmer cancels a pending or accepted booking; the status becomes cancelled; an accepted booking credits its quantity back and marks the storage available; a pending one leaves the storage untouched; refusals change nothing |
| Bookings.Booking.constructor | src/routes/booking.routes.js:45-54 | the new booking holds the given document and storage |
| Bookings.Booking.Update | src/routes/booking.routes.js:191-269 | result and new booking are those of `UpdateStep`; a valid booking stays valid |
| Bookings.Booking.Respond | src/routes/booking.routes.js:272-376 | result, new booking and new storage are those of `RespondStep` |
| Bookings.Booking.Cancel | src/routes/booking.routes.js:379-441 | result, new booking and new storage are those of `CancelStep` |
| Bookings.CreateBooking | src/routes/booking.routes.js:11-94 | returns a fresh booking exactly on success, holding `CreateStep`'s document and linked to the chosen storage |
| BookingLemmas.ApplyPreserves | src/routes/booking.routes.js:191-441 | any one request keeps the booking valid, conserves free space plus the space held by an accepted booking, moves the status only along the allowed transitions, and keeps free space non-negative |
| BookingLemmas.RunConservesSpace | src/routes/booking.routes.js:300-414 | over any run of requests, free space plus the space held by the booking is conserved, the booking stays valid and free space stays non-negative |
| BookingLemmas.TerminalIsFinal | src/routes/booking.routes.js:212-404 | a rejected, cancelled or completed booking and its storage are unchanged by any run of requests |
| BookingLemmas.AcceptThenCancelRestores | src/routes/booking.routes.js:300-414 | accepting and then cancelling restores the storage's free capacity exactly and marks it available |
| BookingLemmas.CreatedBookingCanBeAccepted | src/routes/booking.routes.js:33-54 | a booking just created fits: the owner's accept succeeds and debits exactly its quantity |
| TraderRequests.ParseRequestStatus | src/models/traderRequest.model.js:59-63 | accepts exactly the four request statuses |
| TraderRequests.ParseResponseStatus | src/models/traderRequest.model.js:77-81 | accepts exactly the three response statuses |
| TraderRequests.CreateStep | src/routes/traderRequest.routes.js:71-116 | succeeds exactly for role `trader` with a variety, a quantity and a maximum price given and any type and grade given taken from their enumerations; a created request belongs to the caller and stores the given variety, quantity, price and details, has type and grade defaulting to "Any", is open and active with no responses, expires seven days later, and is listed at once |
| TraderRequests.RespondStep | src/routes/traderRequest.routes.js:119-174 | succeeds exactly for role `farmer` on an open request this farmer has not answered; success appends exactly one pending response carrying the given message and price, with the offered quantity defaulting to the request's, and leaves everything else as it was; one response per farmer preserved |
| TraderRequests.SetResponseStatusStep | src/routes/traderRequest.routes.js:177-218 | only the creating trader, only an existing response and a schema status; sets that response's status alone; "accepted" and only it fulfils the request, open or not |
| TraderRequests.AssignField | src/routes/traderRequest.routes.js:242-246 | a key outside `allowedUpdates` changes nothing; a whitelisted key with a value the schema refuses only marks the draft failed; one with an accepted value is written, reads back as that value and leaves every other key as it was; no key touches the trader, target, expiry or responses; free-form keys come only from the three detail fields; a refused cast is never forgotten |
| TraderRequests.WriteFieldReads | src/routes/traderRequest.routes.js:242-246 | a value the schema accepts, once written under its key, reads back as that value, and every other key reads as before |
| TraderRequests.LastValue | src/routes/traderRequest.routes.js:242-246 | a body gives a value for a key exactly when some entry names that key |
| TraderRequests.AssignAll | src/routes/traderRequest.routes.js:236-246 | the whole copy never touches the trader, target, expiry or responses and adds free-form keys only from the three detail fields |
| TraderRequests.AssignAllCasts | src/routes/traderRequest.routes.js:236-246 | the copy fails a cast exactly when the draft had failed already or some whitelisted entry of the body holds a value the schema refuses |
| TraderRequests.AssignAllWrites | src/routes/traderRequest.routes.js:236-246 | when no cast fails, every whitelisted field reads back as the last value the body gives it, or as before when the body does not name it |
| TraderRequests.UpdateStep | src/routes/traderRequest.routes.js:221-258 | succeeds exactly when the creating trader edits with a body whose whitelisted values all pass the schema, and then saves exactly the copied draft; refused by the schema exactly when the trader's body holds a refused value; a saved edit keeps trader, target, expiry and responses; a refused one changes nothing |
| TraderRequests.CancelStep | src/routes/traderRequest.routes.js:261-287 | succeeds exactly for the creating trader; the request is kept, cancelled and inactive, and so is never listed; refusals change nothing |
| TraderRequests.TraderRequest.FindResponse | src/routes/traderRequest.routes.js:145-147 | the search finds a response exactly when this farmer has one |
| TraderRequests.TraderRequest.Respond | src/routes/traderRequest.routes.js:119-174 | result and new request are those of `RespondStep` |
| TraderRequests.TraderRequest.SetResponseStatus | src/routes/traderRequest.routes.js:177-218 | result and new request are those of `SetResponseStatusStep` |
| TraderRequests.CopyAllowed | src/routes/traderRequest.routes.js:242-246 | the `forEach` loop over the body keys builds exactly the draft `AssignAll` describes |
| TraderRequests.TraderRequest.Update | src/routes/traderRequest.routes.js:221-258 | result and request are those of `UpdateStep`: only the trader may edit, and a failed cast saves nothing |
| TraderRequests.TraderRequest.Cancel | src/routes/traderRequest.routes.js:261-287 | result and new request are those of `CancelStep` |
| TraderRequests.CreateRequest | src/routes/traderRequest.routes.js:71-116 | returns a fresh request exactly on success, holding `CreateStep`'s document |
| TraderRequestLemmas.RunKeepsOnePerFarmer | src/routes/traderRequest.routes.js:144-161 | over any run of calls no farmer gets two responses, the trader and expiry never change, and responses keep their farmers |
| TraderRequestLemmas.SecondResponseRefused | src/routes/traderRequest.routes.js:144-154 | a farmer who has responded is refused on the next try, with nothing changed |
| TraderRequestLemmas.UpdateIgnoresOtherKeys | src/routes/traderRequest.routes.js:236-246 | an update gives the same result as the same body with every non-whitelisted key dropped |
| TraderRequestLemmas.CreatedRequestListedForAWeek | src/routes/traderRequest.routes.js:29-33 | a new request is publicly listed exactly until seven days after creation |
| TraderRequestLemmas.AcceptingDelists | src/routes/traderRequest.routes.js:200-205 | accepting a response fulfils the request, takes it off the public list and refuses further responses |
| TraderRequestLemmas.CancelledRequestCanBeReopened | src/routes/traderRequest.routes.js:236-246 | the trader can set a cancelled request back to open and active through an update, and it is listed again until it expires |

## Left out

- Express routing, `req`/`res` handling, HTTP status codes and response texts are left out. Each handler is an operation that returns an `Outcome`.
- Looking a booking or buy request up by id is left out, along with the 404 for an unknown id. Every operation acts on an existing document. The storage lookup in booking creation is modelled.
- A booking whose cold storage was deleted is left out; the model's booking always has its storage. On such a booking, accept always reads the missing storage and throws. Update reads it only when a new quantity is given (`src/routes/booking.routes.js:222`). Cancel reads it only for an accepted booking (`src/routes/booking.routes.js:407-409`).
- Notifications, `populate`, timestamps, `respondedAt`, and the `startDate`/`endDate` calendar arithmetic of booking accept are left out. They are `Date` library behaviour and writes to other collections.
- Concurrency between requests is left out, including the check-then-write on capacity in booking accept. The model is sequential.
- Numbers are whole numbers. Fractional quantities and prices, `NaN`, and Mongoose's casts between JSON types (a numeric string becoming a number, `"true"` becoming a boolean) are left out. A value of the wrong JSON type counts as refused by the schema.
- `TraderRequests.AssignField`: `description`, `deliveryLocation` and `requiredByDate` are copied without the schema's casts.
- A missing field is a zero number, an empty string or `None`, as each signature says. JavaScript's falsy values other than these are not distinguished.
- Where a user's role comes from is left out. The user schema in `src/models/user.model.js` declares no `role` field, so the caller's role is a parameter. The user model, authentication middleware, bcrypt and JWT are not part of this model.
- The `type` argument of the OTP services is the `Channel` datatype (phone or email). Free-form type strings, which could make keys collide, are left out.
- `generateOTP` in the memory service and in `src/services/otp.service.js` is left out: it draws codes from `Math.random`. The memory service's `sendPhoneOTP`/`sendEmailOTP` are also left out: they only combine that generator with the store and delivery and never call the rate limiter. `src/services/otp.service.js` is not part of this model.
- `crypto.randomBytes` and SHA-256 are an input byte sequence and an arbitrary function. Console logging and the `setInterval` timers are left out: the sweep is an explicit method.
- `getStoredOTPDebug` in the unified service is left out. It is a debug read of the expiry in seconds.
- The Twilio client (its construction and caching), the email service and `verifyTwilioConnection` are left out. Delivery is a function from the outgoing message to its outcome, or a boolean for the OTP services.
- `purpose` only selects the message wording, which `Sms.PurposeText` models. The OTP services' purpose parameter is not modelled.
- The public list's paging, sorting and `total` count are left out. Only its filter (`IsPubliclyListed`) is modelled.
