// controller/CourierRestaurantRequestController.java: the role gate in front
// of respondRequest, and the courier's cancellation of its pending requests.
module CourierRequestController {
  import opened Domain
  import opened Persistence
  import opened CourierRequestService

  const OwnerRole: string := "ROLE_RESTAURANT_OWNER"

  /** How the endpoints answer. */
  datatype Reply = Done | Forbidden | BadRequest(cause: RequestError) | NotFound | NoPendingRequest
  {
    function Code(): int
    {
      match this
      case Done => 200
      case Forbidden => 403
      case _ => 400
    }
  }

  /**
   * respondRequest on a snapshot: a caller whose authorities lack the
   * restaurant-owner role is refused, any other caller reaches the service.
   */
  function RespondEndpointSpec(w: World, authorities: set<string>, requestId: RequestId, action: string): (res: (Reply, World))
    ensures res.0 == Forbidden <==> OwnerRole !in authorities
    ensures res.0 == Done <==> OwnerRole in authorities && RespondRequestSpec(w, requestId, action).0.Ok?
    ensures res.0 != Done ==> res.1 == w
  {
    if OwnerRole !in authorities then (Forbidden, w)
    else
      var (r, w') := RespondRequestSpec(w, requestId, action);
      if r.Ok? then (Done, w') else (BadRequest(r.error), w)
  }

  /**
   * Which owner calls makes no difference: the request's restaurant is never
   * compared with the caller, so any two callers holding the role get the
   * same outcome.
   */
  lemma RespondIgnoresCaller(w: World, a1: set<string>, a2: set<string>, requestId: RequestId, action: string)
    requires OwnerRole in a1 && OwnerRole in a2
    ensures RespondEndpointSpec(w, a1, requestId, action) == RespondEndpointSpec(w, a2, requestId, action)
  {
  }

  /** The requests of the pair still waiting for an answer (lines 118-122). */
  function PendingFor(requests: map<RequestId, Request>, courierId: CourierId, restaurantId: RestaurantId): set<RequestId>
  {
    set q | q in requests && requests[q].courier == courierId && requests[q].restaurant == restaurantId && requests[q].status == RequestPending
  }

  /** cancelRequest on a snapshot. */
  function CancelRequestSpec(w: World, courierId: CourierId, restaurantId: RestaurantId): (res: (Reply, World))
    ensures res.0 != Done ==> res.1 == w
  {
    if courierId !in w.couriers || restaurantId !in w.restaurants then (NotFound, w)
    else
      var pending := PendingFor(w.requests, courierId, restaurantId);
      if pending == {} then (NoPendingRequest, w)
      else (Done, w.(requests := w.requests - pending))
  }

  /**
   * Exactly the PENDING requests of the pair are deleted: a request survives
   * the cancellation if and only if it belongs to another pair or has been
   * answered, and it survives unchanged. Nothing else in the database moves.
   */
  lemma CancelRequestExact(w: World, courierId: CourierId, restaurantId: RestaurantId, q: RequestId)
    requires CancelRequestSpec(w, courierId, restaurantId).0 == Done
    ensures var w' := CancelRequestSpec(w, courierId, restaurantId).1;
      && (q in w'.requests <==>
            q in w.requests && (w.requests[q].courier != courierId || w.requests[q].restaurant != restaurantId || w.requests[q].status != RequestPending))
      && (q in w'.requests ==> w'.requests[q] == w.requests[q])
      && w' == w.(requests := w'.requests)
  {
  }

  /** With nothing pending for the pair the answer is "No pending request found" and nothing is deleted; a second cancel is such a call. */
  lemma CancelRequestTwice(w: World, courierId: CourierId, restaurantId: RestaurantId)
    requires CancelRequestSpec(w, courierId, restaurantId).0 == Done
    ensures var w1 := CancelRequestSpec(w, courierId, restaurantId).1;
      CancelRequestSpec(w1, courierId, restaurantId) == (NoPendingRequest, w1)
  {
    var w1 := CancelRequestSpec(w, courierId, restaurantId).1;
    assert PendingFor(w1.requests, courierId, restaurantId) == {};
  }

  /** Deleting requests keeps the database consistent. */
  lemma CancelRequestConsistent(w: World, courierId: CourierId, restaurantId: RestaurantId)
    requires Consistent(w)
    ensures Consistent(CancelRequestSpec(w, courierId, restaurantId).1)
  {
    var w' := CancelRequestSpec(w, courierId, restaurantId).1;
    assert RequestRefs(w'.requests, w'.couriers, w'.restaurants, w'.nextRequestId);
  }

  /** CourierRestaurantRequestController.respondRequest; the caller's authorities are a parameter. */
  method RespondRequestEndpoint(db: Store, authorities: set<string>, requestId: RequestId, action: string) returns (reply: Reply)
    requires db.Valid()
    modifies db`requests, db`couriers
    ensures (reply, db.View()) == RespondEndpointSpec(old(db.View()), authorities, requestId, action)
    ensures db.Valid()
  {
    if OwnerRole !in authorities {
      return Forbidden;
    }
    var r := RespondRequest(db, requestId, action);
    reply := if r.Ok? then Done else BadRequest(r.error);
  }

  /** CourierRestaurantRequestController.cancelRequest: find the pending requests of the pair, then delete them one by one. */
  method CancelRequest(db: Store, courierId: CourierId, restaurantId: RestaurantId) returns (reply: Reply)
    requires db.Valid()
    modifies db`requests
    ensures (reply, db.View()) == CancelRequestSpec(old(db.View()), courierId, restaurantId)
    ensures db.Valid()
  {
    if courierId !in db.couriers || restaurantId !in db.restaurants {
      return NotFound;
    }
    var pending := PendingFor(db.requests, courierId, restaurantId);
    if pending == {} {
      return NoPendingRequest;
    }
    CancelRequestConsistent(db.View(), courierId, restaurantId);
    var left := pending;
    while left != {}
      invariant left <= pending
      invariant db.requests == old(db.requests) - (pending - left)
      decreases |left|
    {
      ghost var some := SomeElement(left);
      var q :| q in left;
      db.requests := db.requests - {q};
      left := left - {q};
    }
    assert pending - left == pending;
    reply := Done;
  }
}
