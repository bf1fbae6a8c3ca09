/** What the booking handlers guarantee over a booking's whole life: space
    is neither lost nor invented, the documents stay valid, and a decided
    booking stays decided. */
module BookingLemmas {
  import opened Common
  import opened Bookings

  /** A handler call on one booking, as a client makes it. */
  datatype Request =
    | Update(caller: UserId, quantity: int, duration: int, farmerNote: Option<string>)
    | Respond(caller: UserId, action: string, ownerResponse: string)
    | Cancel(caller: UserId)

  function Apply(b: BookingDoc, s: StorageDoc, req: Request): (out: (Outcome, BookingDoc, StorageDoc))
  {
    match req
    case Update(caller, q, d, note) =>
      var (r, b') := UpdateStep(b, s, caller, q, d, note);
      (r, b', s)
    case Respond(caller, action, response) => RespondStep(b, s, caller, action, response)
    case Cancel(caller) => CancelStep(b, s, caller)
  }

  /** The documents after a run of requests, in order. */
  function Run(b: BookingDoc, s: StorageDoc, reqs: seq<Request>): (out: (BookingDoc, StorageDoc))
    decreases |reqs|
  {
    if reqs == [] then (b, s)
    else
      var (_, b1, s1) := Apply(b, s, reqs[0]);
      Run(b1, s1, reqs[1..])
  }

  /** One request keeps the booking valid, keeps the free space plus the
      space held by an accepted booking the same, never moves the status
      except along `Transition`, and never lets free space go negative. */
  lemma {:induction false} ApplyPreserves(b: BookingDoc, s: StorageDoc, req: Request)
    requires BookingValid(b)
    ensures var (_, b', s') := Apply(b, s, req);
            && BookingValid(b')
            && Committed(b', s') == Committed(b, s)
            && (b'.status == b.status || Transition(b.status, b'.status))
            && (s.availableCapacity >= 0 ==> s'.availableCapacity >= 0)
            && b'.farmer == b.farmer && b'.owner == b.owner && b'.pricePerTon == b.pricePerTon
  {
    match req
    case Update(caller, q, d, note) =>
    case Respond(caller, action, response) =>
    case Cancel(caller) =>
      var (_, b', s') := CancelStep(b, s, caller);
      assert b.status == Accepted && b'.status == Cancelled ==> s'.availableCapacity == s.availableCapacity + b.quantity;
  }

  /** Over any run of requests the space a storage has free or has promised
      to the booking is conserved, the booking stays valid, and free space
      that started non-negative stays so. */
  lemma {:induction false} RunConservesSpace(b: BookingDoc, s: StorageDoc, reqs: seq<Request>)
    requires BookingValid(b)
    ensures Committed(Run(b, s, reqs).0, Run(b, s, reqs).1) == Committed(b, s)
    ensures BookingValid(Run(b, s, reqs).0)
    ensures s.availableCapacity >= 0 ==> Run(b, s, reqs).1.availableCapacity >= 0
    decreases |reqs|
  {
    if reqs != [] {
      ApplyPreserves(b, s, reqs[0]);
      var (_, b1, s1) := Apply(b, s, reqs[0]);
      RunConservesSpace(b1, s1, reqs[1..]);
    }
  }

  /** A rejected, cancelled or completed booking is final: no request changes
      it or its storage. */
  lemma {:induction false} TerminalIsFinal(b: BookingDoc, s: StorageDoc, reqs: seq<Request>)
    requires IsTerminal(b.status)
    ensures Run(b, s, reqs) == (b, s)
    decreases |reqs|
  {
    if reqs != [] {
      var (r, b1, s1) := Apply(b, s, reqs[0]);
      assert r != Done;
      TerminalIsFinal(b1, s1, reqs[1..]);
    }
  }

  /** Accepting and then cancelling gives the storage back exactly the free
      space it had, and marks it available. */
  lemma AcceptThenCancelRestores(b: BookingDoc, s: StorageDoc, response: string)
    requires RespondStep(b, s, b.owner, "accept", response).0 == Done
    ensures var (_, b1, s1) := RespondStep(b, s, b.owner, "accept", response);
            CancelStep(b1, s1, b.farmer) ==
              (Done, b.(status := Cancelled, ownerResponse := response), s.(isAvailable := true))
  {
  }

  /** A booking that was created fits in the storage at that moment, and the
      owner can accept it as long as no other booking has taken the space. */
  lemma CreatedBookingCanBeAccepted(farmer: UserId, storage: StorageDoc, quantity: int, duration: int,
                                    note: string, response: string)
    requires CreateStep(farmer, true, Some(storage), quantity, duration, note).0 == Done
    ensures var b := CreateStep(farmer, true, Some(storage), quantity, duration, note).1.value;
            && RespondStep(b, storage, storage.owner, "accept", response).0 == Done
            && RespondStep(b, storage, storage.owner, "accept", response).2.availableCapacity
               == storage.availableCapacity - quantity
  {
  }
}
