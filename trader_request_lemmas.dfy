/** What the buy-request handlers guarantee over a request's life: one
    answer per farmer, whitelisted edits, and when a request is listed. */
module TraderRequestLemmas {
  import opened Common
  import opened TraderRequests

  /** A handler call on an existing request. */
  datatype Call =
    | Respond(caller: UserId, role: Option<string>, message: Option<string>, offeredPrice: Option<int>, offeredQuantity: int)
    | SetResponseStatus(caller: UserId, responseId: int, status: string)
    | Update(caller: UserId, body: seq<(string, Value)>)
    | Cancel(caller: UserId)

  function Apply(d: RequestDoc, call: Call): (out: (Outcome, RequestDoc))
  {
    match call
    case Respond(caller, role, message, price, q) => RespondStep(d, caller, role, message, price, q)
    case SetResponseStatus(caller, id, status) => SetResponseStatusStep(d, caller, id, status)
    case Update(caller, body) => UpdateStep(d, caller, body)
    case Cancel(caller) => CancelStep(d, caller)
  }

  function Run(d: RequestDoc, calls: seq<Call>): RequestDoc
    decreases |calls|
  {
    if calls == [] then d else Run(Apply(d, calls[0]).1, calls[1..])
  }

  /** Whatever sequence of calls a request receives, no farmer ends up with
      two responses on it, its trader and expiry never change, and the
      responses already there stay with their farmers. */
  lemma {:induction false} RunKeepsOnePerFarmer(d: RequestDoc, calls: seq<Call>)
    requires OnePerFarmer(d.responses)
    ensures OnePerFarmer(Run(d, calls).responses)
    ensures Run(d, calls).trader == d.trader && Run(d, calls).expiresAt == d.expiresAt
    ensures |Run(d, calls).responses| >= |d.responses|
    ensures forall i :: 0 <= i < |d.responses| ==> Run(d, calls).responses[i].farmer == d.responses[i].farmer
    decreases |calls|
  {
    if calls != [] {
      var d1 := Apply(d, calls[0]).1;
      if calls[0].Respond? {
        assert forall i :: 0 <= i < |d.responses| ==> d1.responses[i] == d.responses[i];
      }
      RunKeepsOnePerFarmer(d1, calls[1..]);
    }
  }

  /** A farmer whose response was taken is refused on a second try. */
  lemma SecondResponseRefused(d: RequestDoc, farmer: UserId, message: Option<string>, price: Option<int>, q: int,
                              message2: Option<string>, price2: Option<int>, q2: int)
    requires RespondStep(d, farmer, Some("farmer"), message, price, q).0 == Done
    ensures var d1 := RespondStep(d, farmer, Some("farmer"), message, price, q).1;
            RespondStep(d1, farmer, Some("farmer"), message2, price2, q2) == (AlreadyResponded, d1)
  {
    var d1 := RespondStep(d, farmer, Some("farmer"), message, price, q).1;
    assert d1.responses[|d.responses|].farmer == farmer;
  }

  /** The body with the keys outside `allowedUpdates` dropped. */
  function OnlyAllowed(body: seq<(string, Value)>): (r: seq<(string, Value)>)
    ensures forall i :: 0 <= i < |r| ==> r[i].0 in AllowedUpdates
    decreases |body|
  {
    if body == [] then []
    else
      var last := body[|body| - 1];
      OnlyAllowed(body[..|body| - 1]) + (if last.0 in AllowedUpdates then [last] else [])
  }

  /** Keys outside the whitelist have no effect: an update reads only the
      whitelisted part of its body. */
  lemma {:induction false} UpdateIgnoresOtherKeys(dr: Draft, body: seq<(string, Value)>)
    ensures AssignAll(dr, body) == AssignAll(dr, OnlyAllowed(body))
    decreases |body|
  {
    if body != [] {
      var init, last := body[..|body| - 1], body[|body| - 1];
      UpdateIgnoresOtherKeys(dr, init);
      if last.0 in AllowedUpdates {
        var filtered := OnlyAllowed(init) + [last];
        assert filtered[..|filtered| - 1] == OnlyAllowed(init);
        assert OnlyAllowed(body) == filtered;
      } else {
        assert OnlyAllowed(body) == OnlyAllowed(init) + [];
        assert OnlyAllowed(init) + [] == OnlyAllowed(init);
      }
    }
  }

  /** A new request is listed from its creation until seven days later. */
  lemma CreatedRequestListedForAWeek(caller: UserId, targetFarmer: Option<UserId>, potatoVariety: string,
                                     potatoType: string, quantity: Option<int>, maxPrice: Option<int>,
                                     qualityGrade: string, details: map<string, Value>, now: Time, later: Time)
    requires CreateStep(caller, Some("trader"), targetFarmer, potatoVariety, potatoType, quantity, maxPrice,
                        qualityGrade, details, now).0 == Done
    ensures var d := CreateStep(caller, Some("trader"), targetFarmer, potatoVariety, potatoType, quantity, maxPrice,
                                qualityGrade, details, now).1.value;
            IsPubliclyListed(d, later) <==> later < now + WeekMs
  {
  }

  /** Accepting one response fulfils the request: it leaves the public list
      and further farmers are refused as it is no longer open. */
  lemma AcceptingDelists(d: RequestDoc, responseId: int, farmer: UserId, now: Time,
                         message: Option<string>, price: Option<int>, q: int)
    requires SetResponseStatusStep(d, d.trader, responseId, "accepted").0 == Done
    ensures var d1 := SetResponseStatusStep(d, d.trader, responseId, "accepted").1;
            && d1.status == Fulfilled
            && !IsPubliclyListed(d1, now)
            && RespondStep(d1, farmer, Some("farmer"), message, price, q).0 == NotOpen
  {
  }

  /** Cancelling is not final: the trader may set `status` and `isActive`
      back through an update, and the request is listed again until it
      expires. */
  lemma CancelledRequestCanBeReopened(d: RequestDoc, now: Time)
    requires d.expiresAt > now
    ensures var cancelled := CancelStep(d, d.trader).1;
            var reopened := UpdateStep(cancelled, d.trader, [("status", Str("open")), ("isActive", Bool(true))]);
            && !IsPubliclyListed(cancelled, now)
            && reopened.0 == Done
            && IsPubliclyListed(reopened.1, now)
  {
    var cancelled := CancelStep(d, d.trader).1;
    var body := [("status", Str("open")), ("isActive", Bool(true))];
    var dr0 := Draft(cancelled, false);
    assert body[..1][..0] == [];
    var dr1 := AssignField(dr0, "status", Str("open"));
    assert AssignAll(dr0, body[..1]) == dr1;
    assert AssignAll(dr0, body) == AssignField(dr1, "isActive", Bool(true));
  }
}
