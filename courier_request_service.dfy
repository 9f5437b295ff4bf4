// service/CourierRestaurantRequestService.java: a courier asks to work for a
// restaurant; the restaurant accepts (which overwrites the courier's single
// affiliation) or rejects.
module CourierRequestService {
  import opened Domain
  import opened Persistence

  /** The RuntimeExceptions the service throws. */
  datatype RequestError = CourierOrRestaurantNotFound | RequestNotFound | InvalidAction

  /** The action strings, compared ignoring case. */
  datatype Action = Accept | Reject | Invalid

  function ParseAction(action: string): (a: Action)
    ensures a == Accept <==> Upper(action) == "ACCEPT"
    ensures a == Reject <==> Upper(action) == "REJECT"
  {
    UpperIdempotent("ACCEPT");
    UpperIdempotent("REJECT");
    if EqualsIgnoreCase("ACCEPT", action) then Accept
    else if EqualsIgnoreCase("REJECT", action) then Reject
    else Invalid
  }

  /** sendRequest on a snapshot: a new PENDING request under the next generated id. */
  function SendRequestSpec(w: World, courierId: CourierId, restaurantId: RestaurantId): (res: (Result<RequestId, RequestError>, World))
    ensures res.0.Err? ==> res.1 == w
  {
    if courierId !in w.couriers || restaurantId !in w.restaurants then (Err(CourierOrRestaurantNotFound), w)
    else
      var id := w.nextRequestId;
      (Ok(id), w.(requests := w.requests[id := Request(id, courierId, restaurantId, RequestPending)],
                  nextRequestId := id + 1))
  }

  /** respondRequest on a snapshot. */
  function RespondRequestSpec(w: World, requestId: RequestId, action: string): (res: (Result<(), RequestError>, World))
    ensures res.0.Err? ==> res.1 == w
  {
    if requestId !in w.requests then (Err(RequestNotFound), w)
    else
      var q := w.requests[requestId];
      match ParseAction(action)
      case Accept =>
        var courier := if q.courier in w.couriers then Some(w.couriers[q.courier]) else None;
        var couriers' := if courier.Some? then w.couriers[q.courier := courier.value.(restaurantOwner := Some(q.restaurant))] else w.couriers;
        (Ok(()), w.(requests := w.requests[requestId := q.(status := RequestAccepted)], couriers := couriers'))
      case Reject => (Ok(()), w.(requests := w.requests[requestId := q.(status := RequestRejected)]))
      case Invalid => (Err(InvalidAction), w)
  }

  /**
   * A request is sent exactly when both parties exist. The new request is
   * PENDING under an id no stored request has, and every stored request
   * stays as it was.
   */
  lemma SendRequestAdds(w: World, courierId: CourierId, restaurantId: RestaurantId)
    requires Consistent(w)
    ensures SendRequestSpec(w, courierId, restaurantId).0.Ok? <==> courierId in w.couriers && restaurantId in w.restaurants
    ensures SendRequestSpec(w, courierId, restaurantId).0.Ok? ==>
      var (r, w') := SendRequestSpec(w, courierId, restaurantId);
      && r.value !in w.requests
      && w'.requests == w.requests[r.value := Request(r.value, courierId, restaurantId, RequestPending)]
      && |w'.requests| == |w.requests| + 1
  {
    var (r, w') := SendRequestSpec(w, courierId, restaurantId);
    if r.Ok? {
      assert RequestRefs(w.requests, w.couriers, w.restaurants, w.nextRequestId);
      assert r.value !in w.requests;
    }
  }

  /** There is no duplicate check: sending the same pair twice stores two distinct PENDING requests. */
  lemma SendRequestTwice(w: World, courierId: CourierId, restaurantId: RestaurantId)
    requires Consistent(w) && courierId in w.couriers && restaurantId in w.restaurants
    ensures var (r1, w1) := SendRequestSpec(w, courierId, restaurantId);
      var (r2, w2) := SendRequestSpec(w1, courierId, restaurantId);
      && r1.Ok? && r2.Ok? && r1.value != r2.value
      && w2.requests[r1.value] == Request(r1.value, courierId, restaurantId, RequestPending)
      && w2.requests[r2.value] == Request(r2.value, courierId, restaurantId, RequestPending)
  {
  }

  /**
   * ACCEPT marks the request ACCEPTED and points the courier at the
   * request's restaurant, whatever it was affiliated with before; no other
   * request changes, so an older ACCEPTED request stays ACCEPTED.
   */
  lemma AcceptOverwritesAffiliation(w: World, requestId: RequestId, action: string)
    requires Consistent(w) && requestId in w.requests && Upper(action) == "ACCEPT"
    ensures var (r, w') := RespondRequestSpec(w, requestId, action);
      var q := w.requests[requestId];
      && r.Ok?
      && w'.requests[requestId] == q.(status := RequestAccepted)
      && w'.couriers[q.courier].restaurantOwner == Some(q.restaurant)
      && w'.couriers[q.courier] == w.couriers[q.courier].(restaurantOwner := Some(q.restaurant))
      && (forall c :: c in w.couriers && c != q.courier ==> c in w'.couriers && w'.couriers[c] == w.couriers[c])
      && (forall p :: p in w.requests && p != requestId ==> w'.requests[p] == w.requests[p])
  {
  }

  /** REJECT marks the request REJECTED and leaves every courier's affiliation alone; an unknown action changes nothing. */
  lemma RejectKeepsAffiliation(w: World, requestId: RequestId, action: string)
    requires requestId in w.requests
    ensures Upper(action) == "REJECT" ==>
      var (r, w') := RespondRequestSpec(w, requestId, action);
      r.Ok? && w'.couriers == w.couriers && w' == w.(requests := w.requests[requestId := w.requests[requestId].(status := RequestRejected)])
    ensures Upper(action) != "ACCEPT" && Upper(action) != "REJECT" ==> RespondRequestSpec(w, requestId, action) == (Err(InvalidAction), w)
  {
  }

  /**
   * No PENDING precondition: rejecting an already accepted request turns it
   * REJECTED while the courier keeps the affiliation the accept gave it.
   */
  lemma RejectAfterAccept(w: World, requestId: RequestId)
    requires Consistent(w) && requestId in w.requests
    ensures var w1 := RespondRequestSpec(w, requestId, "ACCEPT").1;
      var (r2, w2) := RespondRequestSpec(w1, requestId, "REJECT");
      var q := w.requests[requestId];
      && r2.Ok?
      && requestId in w2.requests && w2.requests[requestId].status == RequestRejected
      && q.courier in w2.couriers && w2.couriers[q.courier].restaurantOwner == Some(q.restaurant)
  {
    assert Upper("ACCEPT") == "ACCEPT";
    assert Upper("REJECT") == "REJECT";
    var w1 := RespondRequestSpec(w, requestId, "ACCEPT").1;
    assert requestId in w1.requests && w1.requests[requestId].courier == w.requests[requestId].courier;
  }

  /** Sending a request keeps the database consistent: both parties exist and the counter moves past the new id. */
  lemma SendRequestConsistent(w: World, courierId: CourierId, restaurantId: RestaurantId)
    requires Consistent(w)
    ensures Consistent(SendRequestSpec(w, courierId, restaurantId).1)
  {
    var (r, w') := SendRequestSpec(w, courierId, restaurantId);
    if r.Ok? {
      assert RequestRefs(w'.requests, w'.couriers, w'.restaurants, w'.nextRequestId);
    }
  }

  /** Answering a request keeps the database consistent: the new affiliation names an existing restaurant. */
  lemma RespondRequestConsistent(w: World, requestId: RequestId, action: string)
    requires Consistent(w)
    ensures Consistent(RespondRequestSpec(w, requestId, action).1)
  {
    var (r, w2) := RespondRequestSpec(w, requestId, action);
    if r.Ok? {
      var q := w.requests[requestId];
      var st := if ParseAction(action) == Accept then RequestAccepted else RequestRejected;
      var w1 := w.(requests := w.requests[requestId := q.(status := st)]);
      RequestStatusConsistent(w, requestId, st);
      if ParseAction(action) == Accept && q.courier in w.couriers {
        var c := w.couriers[q.courier].(restaurantOwner := Some(q.restaurant));
        AffiliationConsistent(w1, q.courier, c);
        assert w2 == w1.(couriers := w.couriers[q.courier := c]);
      } else {
        assert w2 == w1;
      }
    }
  }

  /** Changing the status of a stored request keeps the database consistent. */
  lemma RequestStatusConsistent(w: World, requestId: RequestId, st: RequestStatus)
    requires Consistent(w) && requestId in w.requests
    ensures Consistent(w.(requests := w.requests[requestId := w.requests[requestId].(status := st)]))
  {
    var w' := w.(requests := w.requests[requestId := w.requests[requestId].(status := st)]);
    assert RequestRefs(w'.requests, w'.couriers, w'.restaurants, w'.nextRequestId);
  }

  /** Rewriting one courier row, e-mail unchanged and affiliation to an existing restaurant, keeps the database consistent. */
  lemma AffiliationConsistent(w: World, cid: CourierId, c: Courier)
    requires Consistent(w) && cid in w.couriers
    requires c.user.email == w.couriers[cid].user.email && RefOk(c.restaurantOwner, w.restaurants)
    ensures Consistent(w.(couriers := w.couriers[cid := c]))
  {
    var w' := w.(couriers := w.couriers[cid := c]);
    assert w'.couriers.Keys == w.couriers.Keys;
    assert CourierRefs(w'.couriers, w'.restaurants);
    assert CourierEmailsUnique(w'.couriers);
    assert RequestRefs(w'.requests, w'.couriers, w'.restaurants, w'.nextRequestId);
    assert OrderRefs(w'.orders, w'.menu, w'.customers, w'.restaurants, w'.couriers);
  }

  /** CourierRestaurantRequestService.sendRequest; the generated id is the database's identity counter. */
  method SendRequest(db: Store, courierId: CourierId, restaurantId: RestaurantId) returns (r: Result<RequestId, RequestError>)
    requires db.Valid()
    modifies db`requests, db`nextRequestId
    ensures (r, db.View()) == SendRequestSpec(old(db.View()), courierId, restaurantId)
    ensures db.Valid()
  {
    if courierId !in db.couriers || restaurantId !in db.restaurants {
      return Err(CourierOrRestaurantNotFound);
    }
    SendRequestConsistent(db.View(), courierId, restaurantId);
    var id := db.nextRequestId;
    db.requests := db.requests[id := Request(id, courierId, restaurantId, RequestPending)];
    db.nextRequestId := id + 1;
    r := Ok(id);
  }

  /** CourierRestaurantRequestService.respondRequest. */
  method RespondRequest(db: Store, requestId: RequestId, action: string) returns (r: Result<(), RequestError>)
    requires db.Valid()
    modifies db`requests, db`couriers
    ensures (r, db.View()) == RespondRequestSpec(old(db.View()), requestId, action)
    ensures db.Valid()
  {
    if requestId !in db.requests {
      return Err(RequestNotFound);
    }
    var q := db.requests[requestId];
    RespondRequestConsistent(db.View(), requestId, action);
    if EqualsIgnoreCase("ACCEPT", action) {
      if q.courier in db.couriers {
        var courier := db.couriers[q.courier];
        db.couriers := db.couriers[q.courier := courier.(restaurantOwner := Some(q.restaurant))];
      }
      db.requests := db.requests[requestId := q.(status := RequestAccepted)];
    } else if EqualsIgnoreCase("REJECT", action) {
      db.requests := db.requests[requestId := q.(status := RequestRejected)];
    } else {
      return Err(InvalidAction);
    }
    r := Ok(());
  }
}
