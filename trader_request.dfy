/** Buy requests: a trader posts what they want to buy, farmers answer with
    offers, the trader accepts or rejects offers, edits the request through
    a whitelist of fields, or withdraws it.

    Each handler is specified by a step function over `RequestDoc`; the
    class `TraderRequest` holds the same fields and its methods update them
    in place as the handlers do before saving. A response is named by its
    position in `responses` (responses are only ever appended). */
module TraderRequests {
  import opened Common

  type UserId = nat

  datatype RequestStatus = Open | Fulfilled | Cancelled | Expired
  datatype ResponseStatus = Pending | Accepted | Rejected

  /** A request-body value: what a JSON field can hold, as far as the
      schema's casts tell the cases apart. */
  datatype Value = Str(s: string) | Num(n: int) | Bool(b: bool) | Other

  datatype Response = Response(farmer: UserId, message: Option<string>, offeredPrice: Option<int>,
                               offeredQuantity: int, status: ResponseStatus)

  /** The stored request. `details` holds the free-form fields the schema
      does not constrain (`description`, `deliveryLocation`, `requiredByDate`). */
  datatype RequestDoc = RequestDoc(
    trader: UserId, targetFarmer: Option<UserId>,
    potatoVariety: string, potatoType: string, quantity: int, maxPricePerQuintal: int, qualityGrade: string,
    details: map<string, Value>,
    status: RequestStatus, isActive: bool, expiresAt: Time,
    responses: seq<Response>)

  datatype Outcome =
    | Done
    | Forbidden          // 403: wrong role, or not the request's trader
    | NotOpen            // 400: answering a request that is not open
    | AlreadyResponded   // 400: this farmer has answered before
    | ResponseNotFound   // 404
    | ValidationFailed   // 500: a value the schema refuses; nothing is saved

  const WeekMs: nat := 7 * 24 * 60 * 60 * 1000

  const PotatoTypes := ["Table", "Seed", "Processing", "Any"]
  const QualityGrades := ["A", "B", "C", "Any"]
  const DetailFields := ["description", "deliveryLocation", "requiredByDate"]

  /** The `allowedUpdates` list of `PATCH /:id`. */
  const AllowedUpdates := ["potatoVariety", "potatoType", "quantity", "maxPricePerQuintal", "description",
                           "qualityGrade", "deliveryLocation", "requiredByDate", "status", "isActive"]

  /** The name a request status is stored under. */
  function RequestStatusName(st: RequestStatus): string
  {
    match st
    case Open => "open"
    case Fulfilled => "fulfilled"
    case Cancelled => "cancelled"
    case Expired => "expired"
  }

  function ParseRequestStatus(s: string): (r: Option<RequestStatus>)
    ensures r.Some? <==> s in ["open", "fulfilled", "cancelled", "expired"]
    ensures r.Some? ==> RequestStatusName(r.value) == s
    ensures r == Some(Open) <==> s == "open"
  {
    if s == "open" then Some(Open)
    else if s == "fulfilled" then Some(Fulfilled)
    else if s == "cancelled" then Some(Cancelled)
    else if s == "expired" then Some(Expired)
    else None
  }

  function ParseResponseStatus(s: string): (r: Option<ResponseStatus>)
    ensures r.Some? <==> s in ["pending", "accepted", "rejected"]
    ensures r == Some(Accepted) <==> s == "accepted"
  {
    if s == "pending" then Some(Pending)
    else if s == "accepted" then Some(Accepted)
    else if s == "rejected" then Some(Rejected)
    else None
  }

  /** The requests `GET /` shows: open, active and not yet expired. */
  predicate IsPubliclyListed(d: RequestDoc, now: Time)
  {
    d.status == Open && d.isActive && d.expiresAt > now
  }

  predicate HasResponded(responses: seq<Response>, farmer: UserId)
  {
    exists i :: 0 <= i < |responses| && responses[i].farmer == farmer
  }

  /** No farmer has two responses on one request. */
  predicate OnePerFarmer(responses: seq<Response>)
  {
    forall i, j :: 0 <= i < j < |responses| ==> responses[i].farmer != responses[j].farmer
  }

  /** The parts of a request no handler after `create` rewrites: who posted
      it, whom it targets, when it lapses, and the farmers who answered, in
      order. */
  predicate SameFrame(d: RequestDoc, e: RequestDoc)
  {
    && d.trader == e.trader && d.targetFarmer == e.targetFarmer && d.expiresAt == e.expiresAt
    && |d.responses| == |e.responses|
    && forall i :: 0 <= i < |d.responses| ==> d.responses[i].farmer == e.responses[i].farmer
  }

  /** `POST /create`. An empty `potatoType` or `qualityGrade` stands for an
      absent one and becomes "Any"; an empty `potatoVariety` or a missing
      number fails the schema's `required`. */
  function CreateStep(caller: UserId, role: Option<string>, targetFarmer: Option<UserId>,
                      potatoVariety: string, potatoType: string, quantity: Option<int>,
                      maxPricePerQuintal: Option<int>, qualityGrade: string,
                      details: map<string, Value>, now: Time)
    : (out: (Outcome, Option<RequestDoc>))
    ensures out.1.Some? <==> out.0 == Done
    ensures out.0 == Forbidden <==> role != Some("trader")
    ensures out.0 == Done <==>
              && role == Some("trader")
              && potatoVariety != "" && quantity.Some? && maxPricePerQuintal.Some?
              && (potatoType == "" || potatoType in PotatoTypes)
              && (qualityGrade == "" || qualityGrade in QualityGrades)
    ensures out.0 == Done ==>
              var d := out.1.value;
              && d.trader == caller && d.targetFarmer == targetFarmer
              && d.potatoVariety == potatoVariety && d.quantity == quantity.value
              && d.maxPricePerQuintal == maxPricePerQuintal.value && d.details == details
              && d.potatoType == (if potatoType == "" then "Any" else potatoType) && d.potatoType in PotatoTypes
              && d.qualityGrade == (if qualityGrade == "" then "Any" else qualityGrade) && d.qualityGrade in QualityGrades
              && d.status == Open && d.isActive && d.expiresAt == now + WeekMs
              && d.responses == []
              && IsPubliclyListed(d, now)
  {
    if role != Some("trader") then (Forbidden, None)
    else
      var pt := if potatoType == "" then "Any" else potatoType;
      var qg := if qualityGrade == "" then "Any" else qualityGrade;
      if potatoVariety == "" || quantity.None? || maxPricePerQuintal.None? || pt !in PotatoTypes || qg !in QualityGrades then
        (ValidationFailed, None)
      else
        (Done, Some(RequestDoc(caller, targetFarmer, potatoVariety, pt, quantity.value, maxPricePerQuintal.value, qg,
                               details, Open, true, now + WeekMs, [])))
  }

  /** `POST /:id/respond`. `offeredQuantity` 0 stands for an absent one and
      takes the request's quantity. */
  function RespondStep(d: RequestDoc, caller: UserId, role: Option<string>,
                       message: Option<string>, offeredPrice: Option<int>, offeredQuantity: int)
    : (out: (Outcome, RequestDoc))
    ensures out.0 != Done ==> out.1 == d
    ensures out.0 == Forbidden <==> role != Some("farmer")
    ensures out.0 == NotOpen <==> role == Some("farmer") && d.status != Open
    ensures out.0 == AlreadyResponded <==> role == Some("farmer") && d.status == Open && HasResponded(d.responses, caller)
    ensures out.0 == Done <==> role == Some("farmer") && d.status == Open && !HasResponded(d.responses, caller)
    ensures out.0 == Done ==>
              && |out.1.responses| == |d.responses| + 1
              && out.1 == d.(responses := d.responses + [out.1.responses[|d.responses|]])
              && var added := out.1.responses[|d.responses|];
                 && added.farmer == caller && added.status == Pending
                 && added.message == message && added.offeredPrice == offeredPrice
                 && added.offeredQuantity == (if offeredQuantity != 0 then offeredQuantity else d.quantity)
    ensures OnePerFarmer(d.responses) ==> OnePerFarmer(out.1.responses)
  {
    if role != Some("farmer") then (Forbidden, d)
    else if d.status != Open then (NotOpen, d)
    else if HasResponded(d.responses, caller) then (AlreadyResponded, d)
    else
      var q := if offeredQuantity != 0 then offeredQuantity else d.quantity;
      (Done, d.(responses := d.responses + [Response(caller, message, offeredPrice, q, Pending)]))
  }

  /** `PATCH /:id/response/:responseId`: the request's trader sets one
      response's status; accepting one also fulfils the request. The request
      need not be open. */
  function SetResponseStatusStep(d: RequestDoc, caller: UserId, responseId: int, status: string)
    : (out: (Outcome, RequestDoc))
    ensures out.0 != Done ==> out.1 == d
    ensures out.0 == Forbidden <==> caller != d.trader
    ensures out.0 == ResponseNotFound <==> caller == d.trader && !(0 <= responseId < |d.responses|)
    ensures out.0 == Done <==>
              caller == d.trader && 0 <= responseId < |d.responses| && ParseResponseStatus(status).Some?
    ensures out.0 == Done ==>
              && |out.1.responses| == |d.responses|
              && out.1.responses[responseId] == d.responses[responseId].(status := ParseResponseStatus(status).value)
              && (forall i :: 0 <= i < |d.responses| && i != responseId ==> out.1.responses[i] == d.responses[i])
              && out.1.status == (if status == "accepted" then Fulfilled else d.status)
              && out.1 == d.(responses := out.1.responses, status := out.1.status)
    ensures SameFrame(d, out.1)
  {
    if caller != d.trader then (Forbidden, d)
    else if !(0 <= responseId < |d.responses|) then (ResponseNotFound, d)
    else match ParseResponseStatus(status)
      case None => (ValidationFailed, d)
      case Some(st) =>
        var responses := d.responses[responseId := d.responses[responseId].(status := st)];
        (Done, d.(responses := responses, status := if st == Accepted then Fulfilled else d.status))
  }

  /** The request while `PATCH /:id` copies body fields into it, and whether
      a copied value already fails the schema. */
  datatype Draft = Draft(doc: RequestDoc, castFailed: bool)

  /** The schema path a body key names: one of the typed fields, or a
      free-form one kept in `details`. */
  datatype Path =
    | PotatoVarietyPath | PotatoTypePath | QuantityPath | MaxPricePath
    | QualityGradePath | StatusPath | IsActivePath | DetailPath

  function PathOf(key: string): (p: Path)
    ensures p == PotatoVarietyPath <==> key == "potatoVariety"
    ensures p == PotatoTypePath <==> key == "potatoType"
    ensures p == QuantityPath <==> key == "quantity"
    ensures p == MaxPricePath <==> key == "maxPricePerQuintal"
    ensures p == QualityGradePath <==> key == "qualityGrade"
    ensures p == StatusPath <==> key == "status"
    ensures p == IsActivePath <==> key == "isActive"
  {
    if key == "potatoVariety" then PotatoVarietyPath
    else if key == "potatoType" then PotatoTypePath
    else if key == "quantity" then QuantityPath
    else if key == "maxPricePerQuintal" then MaxPricePath
    else if key == "qualityGrade" then QualityGradePath
    else if key == "status" then StatusPath
    else if key == "isActive" then IsActivePath
    else DetailPath
  }

  /** Whether the schema accepts `v` for the whitelisted field `key`: the
      required variety must be non-empty, the enumerations must hold one of
      their values, numbers and booleans must have their type. The three
      free-form detail fields take anything. */
  predicate CastOk(key: string, v: Value)
  {
    match PathOf(key)
    case PotatoVarietyPath => v.Str? && v.s != ""
    case PotatoTypePath => v.Str? && v.s in PotatoTypes
    case QuantityPath => v.Num?
    case MaxPricePath => v.Num?
    case QualityGradePath => v.Str? && v.s in QualityGrades
    case StatusPath => v.Str? && ParseRequestStatus(v.s).Some?
    case IsActivePath => v.Bool?
    case DetailPath => true
  }

  /** What reading `request[key]` back gives, as a body value. */
  function ReadField(d: RequestDoc, key: string): Option<Value>
  {
    match PathOf(key)
    case PotatoVarietyPath => Some(Str(d.potatoVariety))
    case PotatoTypePath => Some(Str(d.potatoType))
    case QuantityPath => Some(Num(d.quantity))
    case MaxPricePath => Some(Num(d.maxPricePerQuintal))
    case QualityGradePath => Some(Str(d.qualityGrade))
    case StatusPath => Some(Str(RequestStatusName(d.status)))
    case IsActivePath => Some(Bool(d.isActive))
    case DetailPath => if key in d.details then Some(d.details[key]) else None
  }

  /** `request[key] = value` for a value the schema accepts. */
  function WriteField(d: RequestDoc, key: string, v: Value): (r: RequestDoc)
    requires CastOk(key, v)
    ensures SameFrame(d, r) && r.responses == d.responses
  {
    match PathOf(key)
    case PotatoVarietyPath => d.(potatoVariety := v.s)
    case PotatoTypePath => d.(potatoType := v.s)
    case QuantityPath => d.(quantity := v.n)
    case MaxPricePath => d.(maxPricePerQuintal := v.n)
    case QualityGradePath => d.(qualityGrade := v.s)
    case StatusPath => d.(status := ParseRequestStatus(v.s).value)
    case IsActivePath => d.(isActive := v.b)
    case DetailPath => d.(details := d.details[key := v])
  }

  /** One iteration of the `forEach`: a whitelisted key is copied (and cast
      to the field's type), any other key is skipped. */
  function AssignField(dr: Draft, key: string, v: Value): (r: Draft)
    ensures key !in AllowedUpdates ==> r == dr
    ensures key in AllowedUpdates && !CastOk(key, v) ==> r == dr.(castFailed := true)
    ensures key in AllowedUpdates && CastOk(key, v) ==>
              && r.castFailed == dr.castFailed
              && ReadField(r.doc, key) == Some(v)
              && forall k :: k != key ==> ReadField(r.doc, k) == ReadField(dr.doc, k)
    ensures dr.castFailed ==> r.castFailed
    ensures SameFrame(dr.doc, r.doc) && r.doc.responses == dr.doc.responses
    ensures r.doc.details.Keys <= dr.doc.details.Keys + set k | k in DetailFields
  {
    if key !in AllowedUpdates then dr
    else if !CastOk(key, v) then dr.(castFailed := true)
    else
      WriteFieldReads(dr.doc, key, v);
      dr.(doc := WriteField(dr.doc, key, v))
  }

  /** A value the schema accepts is written: the key reads back as that
      value, and every other key reads as before. */
  lemma WriteFieldReads(d: RequestDoc, key: string, v: Value)
    requires CastOk(key, v)
    ensures ReadField(WriteField(d, key, v), key) == Some(v)
    ensures forall k :: k != key ==> ReadField(WriteField(d, key, v), k) == ReadField(d, k)
  {
  }

  /** The value the last entry for `key` in `body` carries, if any. */
  function LastValue(body: seq<(string, Value)>, key: string): (r: Option<Value>)
    ensures r.Some? <==> exists i :: 0 <= i < |body| && body[i].0 == key
    decreases |body|
  {
    if body == [] then None
    else if body[|body| - 1].0 == key then Some(body[|body| - 1].1)
    else LastValue(body[..|body| - 1], key)
  }

  /** The whole `forEach` over the body's keys, in order (what it writes is
      stated by `AssignAllCasts` and `AssignAllWrites`). `body` stands for
      `Object.keys(req.body)` with each key's value, so in the handler every
      key occurs once: the JSON parser has already kept the last of any
      repeated key. A sequence naming a key twice has no counterpart there. */
  function AssignAll(dr: Draft, body: seq<(string, Value)>): (r: Draft)
    ensures dr.castFailed ==> r.castFailed
    ensures SameFrame(dr.doc, r.doc) && r.doc.responses == dr.doc.responses
    ensures r.doc.details.Keys <= dr.doc.details.Keys + set k | k in DetailFields
    decreases |body|
  {
    if body == [] then dr
    else
      var last := body[|body| - 1];
      AssignField(AssignAll(dr, body[..|body| - 1]), last.0, last.1)
  }

  /** The `forEach` loop itself: each key of the body in turn goes through
      `AssignField`. */
  method CopyAllowed(start: Draft, body: seq<(string, Value)>) returns (draft: Draft)
    ensures draft == AssignAll(start, body)
  {
    draft := start;
    for i := 0 to |body|
      invariant draft == AssignAll(start, body[..i])
    {
      assert body[..i + 1][..i] == body[..i];
      draft := AssignField(draft, body[i].0, body[i].1);
    }
    assert body[..|body|] == body;
  }

  /** A cast fails during the copy exactly when some whitelisted entry of the
      body holds a value the schema refuses. */
  lemma {:induction false} AssignAllCasts(dr: Draft, body: seq<(string, Value)>)
    ensures AssignAll(dr, body).castFailed <==>
              dr.castFailed || exists i :: 0 <= i < |body| && body[i].0 in AllowedUpdates && !CastOk(body[i].0, body[i].1)
    decreases |body|
  {
    if body != [] {
      var init, last := body[..|body| - 1], body[|body| - 1];
      AssignAllCasts(dr, init);
      assert forall i :: 0 <= i < |init| ==> init[i] == body[i];
    }
  }

  /** When no cast fails, every whitelisted field reads back as the last
      value the body gives it, or as before when the body does not name it. */
  lemma {:induction false} AssignAllWrites(dr: Draft, body: seq<(string, Value)>)
    requires !AssignAll(dr, body).castFailed
    ensures forall k :: k in AllowedUpdates ==>
              ReadField(AssignAll(dr, body).doc, k)
              == (if LastValue(body, k).Some? then LastValue(body, k) else ReadField(dr.doc, k))
    decreases |body|
  {
    if body != [] {
      var init, last := body[..|body| - 1], body[|body| - 1];
      var prev := AssignAll(dr, init);
      assert AssignAll(dr, body) == AssignField(prev, last.0, last.1);
      assert !prev.castFailed;
      AssignAllWrites(dr, init);
      if last.0 in AllowedUpdates {
        assert CastOk(last.0, last.1);
      }
    }
  }

  /** `PATCH /:id`: only the trader may edit, and the edit is saved only
      when every copied value passes the schema. */
  function UpdateStep(d: RequestDoc, caller: UserId, body: seq<(string, Value)>): (out: (Outcome, RequestDoc))
    ensures out.0 != Done ==> out.1 == d
    ensures out.0 == Forbidden <==> caller != d.trader
    ensures out.0 == Done <==> caller == d.trader && !AssignAll(Draft(d, false), body).castFailed
    ensures out.0 == Done ==> out.1 == AssignAll(Draft(d, false), body).doc
    ensures out.0 == Done ==> SameFrame(d, out.1) && out.1.responses == d.responses
    ensures out.0 == Done || out.0 == Forbidden || out.0 == ValidationFailed
  {
    if caller != d.trader then (Forbidden, d)
    else
      var dr := AssignAll(Draft(d, false), body);
      if dr.castFailed then (ValidationFailed, d) else (Done, dr.doc)
  }

  /** `DELETE /:id`: the trader withdraws the request; it is kept, cancelled
      and inactive. */
  function CancelStep(d: RequestDoc, caller: UserId): (out: (Outcome, RequestDoc))
    ensures out.0 == Forbidden <==> caller != d.trader
    ensures out.0 == Done <==> caller == d.trader
    ensures out.0 != Done ==> out.1 == d
    ensures out.0 == Done ==> out.1 == d.(status := Cancelled, isActive := false)
    ensures forall now :: !IsPubliclyListed(out.1, now) || out.0 != Done
  {
    if caller != d.trader then (Forbidden, d)
    else (Done, d.(status := Cancelled, isActive := false))
  }

  class TraderRequest {
    const trader: UserId
    const targetFarmer: Option<UserId>
    const expiresAt: Time
    var potatoVariety: string
    var potatoType: string
    var quantity: int
    var maxPricePerQuintal: int
    var qualityGrade: string
    var details: map<string, Value>
    var status: RequestStatus
    var isActive: bool
    var responses: seq<Response>

    function Doc(): RequestDoc
      reads this
    {
      RequestDoc(trader, targetFarmer, potatoVariety, potatoType, quantity, maxPricePerQuintal, qualityGrade,
                 details, status, isActive, expiresAt, responses)
    }

    constructor(d: RequestDoc)
      ensures Doc() == d
    {
      trader, targetFarmer, expiresAt := d.trader, d.targetFarmer, d.expiresAt;
      potatoVariety, potatoType, quantity := d.potatoVariety, d.potatoType, d.quantity;
      maxPricePerQuintal, qualityGrade, details := d.maxPricePerQuintal, d.qualityGrade, d.details;
      status, isActive, responses := d.status, d.isActive, d.responses;
    }

    /** `request.responses.find(r => r.farmer === caller)`, as a search loop. */
    method FindResponse(farmer: UserId) returns (found: bool)
      ensures found <==> HasResponded(responses, farmer)
    {
      found := false;
      var i := 0;
      while i < |responses| && !found
        invariant 0 <= i <= |responses|
        invariant found <==> exists j :: 0 <= j < i && responses[j].farmer == farmer
      {
        found := responses[i].farmer == farmer;
        i := i + 1;
      }
    }

    method Respond(caller: UserId, role: Option<string>, message: Option<string>,
                   offeredPrice: Option<int>, offeredQuantity: int) returns (r: Outcome)
      modifies this`responses
      ensures (r, Doc()) == RespondStep(old(Doc()), caller, role, message, offeredPrice, offeredQuantity)
    {
      if role != Some("farmer") {
        return Forbidden;
      }
      if status != Open {
        return NotOpen;
      }
      var existing := FindResponse(caller);
      if existing {
        return AlreadyResponded;
      }
      var q := if offeredQuantity != 0 then offeredQuantity else quantity;
      responses := responses + [Response(caller, message, offeredPrice, q, Pending)];
      r := Done;
    }

    method SetResponseStatus(caller: UserId, responseId: int, newStatus: string) returns (r: Outcome)
      modifies this`responses, this`status
      ensures (r, Doc()) == SetResponseStatusStep(old(Doc()), caller, responseId, newStatus)
    {
      if caller != trader {
        return Forbidden;
      }
      if !(0 <= responseId < |responses|) {
        return ResponseNotFound;
      }
      var st := ParseResponseStatus(newStatus);
      if st.None? {
        return ValidationFailed;
      }
      responses := responses[responseId := responses[responseId].(status := st.value)];
      if newStatus == "accepted" {
        status := Fulfilled;
      }
      r := Done;
    }

    method Update(caller: UserId, body: seq<(string, Value)>) returns (r: Outcome)
      modifies this
      ensures (r, Doc()) == UpdateStep(old(Doc()), caller, body)
    {
      if caller != trader {
        return Forbidden;
      }
      var draft := CopyAllowed(Draft(Doc(), false), body);
      if draft.castFailed {
        return ValidationFailed;
      }
      var d := draft.doc;
      potatoVariety, potatoType, quantity := d.potatoVariety, d.potatoType, d.quantity;
      maxPricePerQuintal, qualityGrade, details := d.maxPricePerQuintal, d.qualityGrade, d.details;
      status, isActive := d.status, d.isActive;
      assert Doc() == d;
      r := Done;
    }

    method Cancel(caller: UserId) returns (r: Outcome)
      modifies this`status, this`isActive
      ensures (r, Doc()) == CancelStep(old(Doc()), caller)
    {
      if caller != trader {
        return Forbidden;
      }
      status, isActive := Cancelled, false;
      r := Done;
    }
  }

  method CreateRequest(caller: UserId, role: Option<string>, targetFarmer: Option<UserId>,
                       potatoVariety: string, potatoType: string, quantity: Option<int>,
                       maxPricePerQuintal: Option<int>, qualityGrade: string,
                       details: map<string, Value>, now: Time)
    returns (r: Outcome, request: TraderRequest?)
    ensures request != null <==> r == Done
    ensures var out := CreateStep(caller, role, targetFarmer, potatoVariety, potatoType, quantity,
                                  maxPricePerQuintal, qualityGrade, details, now);
            && r == out.0
            && (request != null ==> fresh(request) && request.Doc() == out.1.value)
  {
    if role != Some("trader") {
      return Forbidden, null;
    }
    var pt := if potatoType == "" then "Any" else potatoType;
    var qg := if qualityGrade == "" then "Any" else qualityGrade;
    if potatoVariety == "" || quantity.None? || maxPricePerQuintal.None? || pt !in PotatoTypes || qg !in QualityGrades {
      return ValidationFailed, null;
    }
    request := new TraderRequest(RequestDoc(caller, targetFarmer, potatoVariety, pt, quantity.value,
                                            maxPricePerQuintal.value, qg, details, Open, true, now + WeekMs, []));
    r := Done;
  }
}
