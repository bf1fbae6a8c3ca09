/** Storage bookings: a farmer asks a cold storage for space, its owner
    accepts or rejects, the farmer may edit a pending request or cancel it.
    Accepting debits the storage's free capacity by the booked quantity and
    cancelling an accepted booking credits it back.

    Each handler is specified by a step function over plain documents
    (`BookingDoc`, `StorageDoc`); the classes `Booking` and `ColdStorage`
    hold the same fields and their methods update them in place as the
    handlers do before saving. Quantities, prices and capacities are whole
    numbers. */
module Bookings {
  import opened Common

  type UserId = nat

  datatype Status = Pending | Accepted | Rejected | Cancelled | Completed

  /** Why a handler refused, or `Done`. A refused request changes nothing. */
  datatype Outcome =
    | Done
    | MissingFields      // 400: no cold storage id or no quantity
    | StorageNotFound    // 404
    | NotEnoughSpace     // 400: quantity above `availableCapacity`
    | NotAuthorized      // 403: caller is not the farmer (or owner) of the booking
    | WrongStatus        // 400: the booking is past the state the handler needs
    | InvalidAction      // 400: respond with neither "accept" nor "reject"
    | ValidationFailed   // 500: the document breaks a schema minimum and is not saved

  datatype BookingDoc = BookingDoc(
    farmer: UserId, owner: UserId,
    quantity: int, duration: int, pricePerTon: int, totalPrice: int,
    status: Status, farmerNote: string, ownerResponse: string)

  datatype StorageDoc = StorageDoc(owner: UserId, pricePerTon: int, availableCapacity: int, isAvailable: bool)

  /** The schema minimums (quantity and duration at least 1) and the price
      every handler that writes them recomputes. */
  predicate BookingValid(b: BookingDoc)
  {
    b.quantity >= 1 && b.duration >= 1 && b.totalPrice == b.quantity * b.pricePerTon * b.duration
  }

  /** The status moves the handlers make: out of pending to any decision,
      and from accepted to cancelled. */
  predicate Transition(from: Status, to: Status)
  {
    || (from == Pending && (to == Accepted || to == Rejected || to == Cancelled))
    || (from == Accepted && to == Cancelled)
  }

  predicate IsTerminal(st: Status) { st == Rejected || st == Cancelled || st == Completed }

  /** The space a storage has promised to this booking plus what it still
      offers: accepting moves space from the second to the first, cancelling
      moves it back. */
  function Committed(b: BookingDoc, s: StorageDoc): int
  {
    s.availableCapacity + (if b.status == Accepted then b.quantity else 0)
  }

  /** `duration || 1` for a body field where 0 stands for absent. */
  function DurationOrDefault(duration: int): (d: int)
    ensures duration != 0 ==> d == duration
    ensures duration == 0 ==> d == 1
  {
    if duration == 0 then 1 else duration
  }

  /** `POST /create`. A zero `quantity` stands for a missing or falsy one,
      a zero `duration` for an absent one. */
  function CreateStep(farmer: UserId, storageIdGiven: bool, storage: Option<StorageDoc>,
                      quantity: int, duration: int, farmerNote: string)
    : (out: (Outcome, Option<BookingDoc>))
    ensures out.1.Some? <==> out.0 == Done
    ensures out.0 == MissingFields <==> !storageIdGiven || quantity == 0
    ensures out.0 == StorageNotFound <==> storageIdGiven && quantity != 0 && storage.None?
    ensures out.0 == NotEnoughSpace <==>
              storageIdGiven && quantity != 0 && storage.Some? && quantity > storage.value.availableCapacity
    ensures out.0 == Done <==>
              && storageIdGiven && storage.Some?
              && 1 <= quantity <= storage.value.availableCapacity
              && DurationOrDefault(duration) >= 1
    ensures out.0 == Done ==>
              var b := out.1.value;
              && BookingValid(b)
              && b.status == Pending
              && b.farmer == farmer && b.owner == storage.value.owner
              && b.quantity == quantity && b.duration == DurationOrDefault(duration)
              && b.pricePerTon == storage.value.pricePerTon
              && b.farmerNote == farmerNote && b.ownerResponse == ""
  {
    if !storageIdGiven || quantity == 0 then (MissingFields, None)
    else if storage.None? then (StorageNotFound, None)
    else if quantity > storage.value.availableCapacity then (NotEnoughSpace, None)
    else
      var d := DurationOrDefault(duration);
      var s := storage.value;
      if quantity < 1 || d < 1 then (ValidationFailed, None)
      else (Done, Some(BookingDoc(farmer, s.owner, quantity, d, s.pricePerTon, quantity * s.pricePerTon * d,
                                  Pending, farmerNote, "")))
  }

  /** `PATCH /:id`. Zero `quantity` or `duration` leaves that field as it is;
      `farmerNote` is `None` when the body has none. */
  function UpdateStep(b: BookingDoc, s: StorageDoc, caller: UserId,
                      quantity: int, duration: int, farmerNote: Option<string>)
    : (out: (Outcome, BookingDoc))
    ensures out.0 != Done ==> out.1 == b
    ensures out.0 == NotAuthorized <==> caller != b.farmer
    ensures out.0 == WrongStatus <==> caller == b.farmer && b.status != Pending
    ensures out.0 == NotEnoughSpace <==>
              caller == b.farmer && b.status == Pending && quantity != 0 && quantity > s.availableCapacity
    ensures out.0 == Done <==>
              && caller == b.farmer && b.status == Pending
              && (quantity != 0 ==> quantity <= s.availableCapacity)
              && (if quantity != 0 then quantity else b.quantity) >= 1
              && (if duration != 0 then duration else b.duration) >= 1
    ensures out.0 == Done ==>
              && BookingValid(out.1)
              && out.1.status == Pending
              && out.1.quantity == (if quantity != 0 then quantity else b.quantity)
              && out.1.duration == (if duration != 0 then duration else b.duration)
              && out.1.farmerNote == (if farmerNote.Some? then farmerNote.value else b.farmerNote)
              && (quantity != 0 ==> out.1.quantity <= s.availableCapacity)
              && out.1.(quantity := b.quantity, duration := b.duration, totalPrice := b.totalPrice,
                        farmerNote := b.farmerNote) == b
    ensures BookingValid(b) ==> BookingValid(out.1)
  {
    if caller != b.farmer then (NotAuthorized, b)
    else if b.status != Pending then (WrongStatus, b)
    else if quantity != 0 && quantity > s.availableCapacity then (NotEnoughSpace, b)
    else
      var q := if quantity != 0 then quantity else b.quantity;
      var d := if duration != 0 then duration else b.duration;
      var note := if farmerNote.Some? then farmerNote.value else b.farmerNote;
      if q < 1 || d < 1 then (ValidationFailed, b)
      else (Done, b.(quantity := q, duration := d, farmerNote := note, totalPrice := q * b.pricePerTon * d))
  }

  /** `PATCH /:id/respond`: the owner accepts (taking the space) or rejects
      a pending booking; `ownerResponse` is "" when absent. */
  function RespondStep(b: BookingDoc, s: StorageDoc, caller: UserId, action: string, ownerResponse: string)
    : (out: (Outcome, BookingDoc, StorageDoc))
    ensures out.0 != Done ==> out.1 == b && out.2 == s
    ensures out.0 == NotAuthorized <==> caller != b.owner
    ensures out.0 == WrongStatus <==> caller == b.owner && b.status != Pending
    ensures out.0 == InvalidAction <==>
              caller == b.owner && b.status == Pending && action != "accept" && action != "reject"
    ensures out.0 == NotEnoughSpace <==>
              caller == b.owner && b.status == Pending && action == "accept" && b.quantity > s.availableCapacity
    ensures out.0 == Done <==>
              && caller == b.owner && b.status == Pending
              && (action == "reject" || (action == "accept" && b.quantity <= s.availableCapacity))
    ensures out.0 == Done ==>
              && out.1 == b.(status := out.1.status, ownerResponse := ownerResponse)
              && (action == "accept" ==> out.1.status == Accepted)
              && (action == "reject" ==> out.1.status == Rejected && out.2 == s)
    ensures out.0 == Done && action == "accept" ==>
              && out.2.availableCapacity == s.availableCapacity - b.quantity
              && out.2.isAvailable == (s.isAvailable && out.2.availableCapacity != 0)
              && out.2.(availableCapacity := s.availableCapacity, isAvailable := s.isAvailable) == s
    ensures s.availableCapacity >= 0 ==> out.2.availableCapacity >= 0
  {
    if caller != b.owner then (NotAuthorized, b, s)
    else if b.status != Pending then (WrongStatus, b, s)
    else if action == "accept" then
      if b.quantity > s.availableCapacity then (NotEnoughSpace, b, s)
      else
        var left := s.availableCapacity - b.quantity;
        var s' := s.(availableCapacity := left, isAvailable := if left == 0 then false else s.isAvailable);
        (Done, b.(status := Accepted, ownerResponse := ownerResponse), s')
    else if action == "reject" then
      (Done, b.(status := Rejected, ownerResponse := ownerResponse), s)
    else (InvalidAction, b, s)
  }

  /** `PATCH /:id/cancel`: the farmer withdraws a pending or accepted
      booking; an accepted one gives its space back. */
  function CancelStep(b: BookingDoc, s: StorageDoc, caller: UserId): (out: (Outcome, BookingDoc, StorageDoc))
    ensures out.0 != Done ==> out.1 == b && out.2 == s
    ensures out.0 == NotAuthorized <==> caller != b.farmer
    ensures out.0 == WrongStatus <==> caller == b.farmer && b.status != Pending && b.status != Accepted
    ensures out.0 == Done <==> caller == b.farmer && (b.status == Pending || b.status == Accepted)
    ensures out.0 == Done ==> out.1 == b.(status := Cancelled)
    ensures out.0 == Done && b.status == Accepted ==>
              out.2 == s.(availableCapacity := s.availableCapacity + b.quantity, isAvailable := true)
    ensures out.0 == Done && b.status == Pending ==> out.2 == s
  {
    if caller != b.farmer then (NotAuthorized, b, s)
    else if b.status != Pending && b.status != Accepted then (WrongStatus, b, s)
    else if b.status == Accepted then
      (Done, b.(status := Cancelled), s.(availableCapacity := s.availableCapacity + b.quantity, isAvailable := true))
    else (Done, b.(status := Cancelled), s)
  }

  class ColdStorage {
    const owner: UserId
    const pricePerTon: int
    var availableCapacity: int
    var isAvailable: bool

    function Doc(): StorageDoc
      reads this
    {
      StorageDoc(owner, pricePerTon, availableCapacity, isAvailable)
    }

    constructor(owner: UserId, pricePerTon: int, availableCapacity: int)
      ensures Doc() == StorageDoc(owner, pricePerTon, availableCapacity, true)
    {
      this.owner, this.pricePerTon := owner, pricePerTon;
      this.availableCapacity, this.isAvailable := availableCapacity, true;
    }
  }

  class Booking {
    const farmer: UserId
    const owner: UserId
    const storage: ColdStorage
    const pricePerTon: int
    var quantity: int
    var duration: int
    var totalPrice: int
    var status: Status
    var farmerNote: string
    var ownerResponse: string

    function Doc(): BookingDoc
      reads this
    {
      BookingDoc(farmer, owner, quantity, duration, pricePerTon, totalPrice, status, farmerNote, ownerResponse)
    }

    ghost predicate Valid()
      reads this
    {
      BookingValid(Doc())
    }

    constructor(doc: BookingDoc, storage: ColdStorage)
      ensures Doc() == doc && this.storage == storage
    {
      farmer, owner, pricePerTon := doc.farmer, doc.owner, doc.pricePerTon;
      quantity, duration, totalPrice := doc.quantity, doc.duration, doc.totalPrice;
      status, farmerNote, ownerResponse := doc.status, doc.farmerNote, doc.ownerResponse;
      this.storage := storage;
    }

    method Update(caller: UserId, newQuantity: int, newDuration: int, newNote: Option<string>) returns (r: Outcome)
      modifies this
      ensures (r, Doc()) == UpdateStep(old(Doc()), storage.Doc(), caller, newQuantity, newDuration, newNote)
      ensures old(Valid()) ==> Valid()
    {
      if caller != farmer {
        return NotAuthorized;
      }
      if status != Pending {
        return WrongStatus;
      }
      if newQuantity != 0 && newQuantity > storage.availableCapacity {
        return NotEnoughSpace;
      }
      var q, d, note := quantity, duration, farmerNote;
      if newQuantity != 0 { q := newQuantity; }
      if newDuration != 0 { d := newDuration; }
      if newNote.Some? { note := newNote.value; }
      if q < 1 || d < 1 {
        return ValidationFailed;
      }
      quantity, duration, farmerNote := q, d, note;
      totalPrice := quantity * pricePerTon * duration;
      r := Done;
    }

    method Respond(caller: UserId, action: string, response: string) returns (r: Outcome)
      modifies this, storage
      ensures (r, Doc(), storage.Doc()) == RespondStep(old(Doc()), old(storage.Doc()), caller, action, response)
    {
      if caller != owner {
        return NotAuthorized;
      }
      if status != Pending {
        return WrongStatus;
      }
      if action == "accept" {
        if quantity > storage.availableCapacity {
          return NotEnoughSpace;
        }
        storage.availableCapacity := storage.availableCapacity - quantity;
        if storage.availableCapacity == 0 {
          storage.isAvailable := false;
        }
        status := Accepted;
      } else if action == "reject" {
        status := Rejected;
      } else {
        return InvalidAction;
      }
      ownerResponse := response;
      r := Done;
    }

    method Cancel(caller: UserId) returns (r: Outcome)
      modifies this, storage
      ensures (r, Doc(), storage.Doc()) == CancelStep(old(Doc()), old(storage.Doc()), caller)
    {
      if caller != farmer {
        return NotAuthorized;
      }
      if status != Pending && status != Accepted {
        return WrongStatus;
      }
      if status == Accepted {
        storage.availableCapacity := storage.availableCapacity + quantity;
        storage.isAvailable := true;
      }
      status := Cancelled;
      r := Done;
    }
  }

  /** `POST /create` against the storage the id resolved to (`null` when it
      resolved to none). */
  method CreateBooking(farmer: UserId, storageIdGiven: bool, storage: ColdStorage?,
                       quantity: int, duration: int, farmerNote: string)
    returns (r: Outcome, booking: Booking?)
    ensures booking != null <==> r == Done
    ensures var out := CreateStep(farmer, storageIdGiven, if storage == null then None else Some(storage.Doc()),
                                  quantity, duration, farmerNote);
            && r == out.0
            && (booking != null ==> fresh(booking) && booking.storage == storage && booking.Doc() == out.1.value)
  {
    booking := null;
    if !storageIdGiven || quantity == 0 {
      return MissingFields, null;
    }
    if storage == null {
      return StorageNotFound, null;
    }
    if quantity > storage.availableCapacity {
      return NotEnoughSpace, null;
    }
    var d := DurationOrDefault(duration);
    if quantity < 1 || d < 1 {
      return ValidationFailed, null;
    }
    var doc := BookingDoc(farmer, storage.owner, quantity, d, storage.pricePerTon,
                          quantity * storage.pricePerTon * d, Pending, farmerNote, "");
    booking := new Booking(doc, storage);
    r := Done;
  }
}
