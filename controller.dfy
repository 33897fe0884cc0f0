/** The five handlers of the rating controller over an abstract rating
    collection. The requester is the id the authentication layer attached
    to the request; the store's failures are an explicit `StoreFault`
    input. Reads are functions of the collection; the three handlers that
    write are methods of `RatingCollection`, each specified by the outcome
    function of the same operation. */
module RatingController {
  import opened Ratings

  /** What a handler answers and the collection it leaves behind. */
  datatype Outcome = Outcome(resp: Response, store: Store)

  /** `GET /:id`: the id shape is checked before the store is consulted;
      the lookup casts the id to its lower-case key. */
  function GetRatingById(store: Store, id: string, fault: StoreFault): (resp: Response)
    ensures resp.status == BAD_REQUEST <==> !IsObjectId(id)
    ensures !IsObjectId(id) ==> resp.body == Error("Invalid rating ID")
    ensures resp.status == SERVER_ERROR <==> IsObjectId(id) && fault.ReadFault?
    ensures resp.status == SERVER_ERROR ==> resp.body == Error("Database error")
    ensures resp.status == NOT_FOUND <==> IsObjectId(id) && !fault.ReadFault? && Canonical(id) !in store
    ensures resp.status == NOT_FOUND ==> resp.body == Error("Rating not found")
    ensures resp.status == OK <==> IsObjectId(id) && !fault.ReadFault? && Canonical(id) in store
    ensures resp.status == OK ==> resp.body == Document(Doc(Canonical(id), store[Canonical(id)]))
  {
    if !IsObjectId(id) then Response(BAD_REQUEST, Error("Invalid rating ID"))
    else if fault.ReadFault? then Response(SERVER_ERROR, Error("Database error"))
    else
      var key := Canonical(id);
      if key !in store then Response(NOT_FOUND, Error("Rating not found"))
      else Response(OK, Document(Doc(key, store[key])))
  }

  /** The documents `find({ inspection })` selects. */
  function Listing(store: Store, inspection: string): (r: map<string, Rating>)
    ensures forall id :: id in r <==> id in store && store[id].inspection == inspection
    ensures forall id | id in r :: r[id] == store[id]
  {
    map id | id in store && store[id].inspection == inspection :: store[id]
  }

  /** `GET /inspection/:inspection`: every stored rating of that inspection. */
  function GetRatingsByInspection(store: Store, inspection: string, fault: StoreFault): (resp: Response)
    ensures resp.status == OK || resp.status == SERVER_ERROR
    ensures resp.status == SERVER_ERROR <==> fault.ReadFault?
    ensures resp.status == SERVER_ERROR ==> resp.body == Error(fault.message)
    ensures resp.status == OK ==> resp.body.Documents?
    ensures resp.status == OK ==> forall id ::
      id in resp.body.docs <==> id in store && store[id].inspection == inspection
    ensures resp.status == OK ==> forall id | id in resp.body.docs :: resp.body.docs[id] == store[id]
  {
    if fault.ReadFault? then Response(SERVER_ERROR, Error(fault.message))
    else Response(OK, Documents(Listing(store, inspection)))
  }

  /** `POST /`: the author is the requester, never a field of the body.
      `newId` is the id Mongoose assigns to the new document. */
  function CreateOutcome(store: Store, requester: UserId, newId: ObjectId,
                         inspection: string, rating: JsValue, comment: JsValue,
                         fault: StoreFault): (o: Outcome)
    ensures o.resp.status == CREATED || o.resp.status == SERVER_ERROR
    ensures o.resp.status == CREATED <==> !fault.WriteFault? && newId !in store
    ensures o.resp.status == SERVER_ERROR ==> o.store == store
    ensures o.resp.status == SERVER_ERROR ==>
      o.resp.body == Error(if fault.WriteFault? then fault.message else DUPLICATE_KEY)
    ensures o.resp.status == CREATED ==>
      && o.store.Keys == store.Keys + {newId}
      && (forall id | id in store :: o.store[id] == store[id])
      && o.store[newId].user == requester
      && o.store[newId].inspection == inspection
      && o.store[newId].rating == rating
      && o.store[newId].comment == comment
      && o.resp.body == Wrapped("Rating created", Doc(newId, o.store[newId]))
  {
    if fault.WriteFault? then Outcome(Response(SERVER_ERROR, Error(fault.message)), store)
    else if newId in store then Outcome(Response(SERVER_ERROR, Error(DUPLICATE_KEY)), store)
    else
      var doc := Rating(inspection, requester, rating, comment);
      Outcome(Response(CREATED, Wrapped("Rating created", Doc(newId, doc))), store[newId := doc])
  }

  /** `PUT /:id`: only the author may update; a falsy new value keeps the old
      one. The id is not shape-checked; the lookup casts it to its key. */
  function UpdateOutcome(store: Store, requester: UserId, id: string,
                         rating: JsValue, comment: JsValue, fault: StoreFault): (o: Outcome)
    ensures o.resp.status in {OK, FORBIDDEN, NOT_FOUND, SERVER_ERROR}
    ensures o.resp.status != OK ==> o.store == store
    ensures var key := Canonical(id);
      && (o.resp.status == NOT_FOUND <==> !fault.ReadFault? && key !in store)
      && (o.resp.status == FORBIDDEN <==> !fault.ReadFault? && key in store && store[key].user != requester)
      && (o.resp.status == OK <==> fault.NoFault? && key in store && store[key].user == requester)
    ensures o.resp.status == NOT_FOUND ==> o.resp.body == Error("Rating not found")
    ensures o.resp.status == FORBIDDEN ==> o.resp.body == Error("Unauthorized")
    ensures o.resp.status == SERVER_ERROR ==> o.resp.body == Error(fault.message)
    ensures var key := Canonical(id);
      o.resp.status == OK ==>
      && o.store.Keys == store.Keys
      && (forall k | k in store && k != key :: o.store[k] == store[k])
      && o.store[key].inspection == store[key].inspection
      && o.store[key].user == store[key].user
      && o.store[key].rating == (if Truthy(rating) then rating else store[key].rating)
      && o.store[key].comment == (if Truthy(comment) then comment else store[key].comment)
      && o.resp.body == Wrapped("Rating updated", Doc(key, o.store[key]))
  {
    var key := Canonical(id);
    if fault.ReadFault? then Outcome(Response(SERVER_ERROR, Error(fault.message)), store)
    else if key !in store then Outcome(Response(NOT_FOUND, Error("Rating not found")), store)
    else if store[key].user != requester then Outcome(Response(FORBIDDEN, Error("Unauthorized")), store)
    else if fault.WriteFault? then Outcome(Response(SERVER_ERROR, Error(fault.message)), store)
    else
      var stored := store[key];
      var doc := stored.(rating := Or(rating, stored.rating), comment := Or(comment, stored.comment));
      Outcome(Response(OK, Wrapped("Rating updated", Doc(key, doc))), store[key := doc])
  }

  /** `DELETE /:id`: only the author may delete; exactly that document goes.
      The id is not shape-checked; the lookup casts it to its key. */
  function DeleteOutcome(store: Store, requester: UserId, id: string, fault: StoreFault): (o: Outcome)
    ensures o.resp.status in {NO_CONTENT, FORBIDDEN, NOT_FOUND, SERVER_ERROR}
    ensures o.resp.status != NO_CONTENT ==> o.store == store
    ensures var key := Canonical(id);
      && (o.resp.status == NOT_FOUND <==> !fault.ReadFault? && key !in store)
      && (o.resp.status == FORBIDDEN <==> !fault.ReadFault? && key in store && store[key].user != requester)
      && (o.resp.status == NO_CONTENT <==> fault.NoFault? && key in store && store[key].user == requester)
    ensures o.resp.status == NOT_FOUND ==> o.resp.body == Error("Rating not found")
    ensures o.resp.status == FORBIDDEN ==> o.resp.body == Error("Unauthorized")
    ensures o.resp.status == SERVER_ERROR ==> o.resp.body == Error(fault.message)
    ensures o.resp.status == NO_CONTENT ==>
      && o.resp.body == NoContent
      && o.store.Keys == store.Keys - {Canonical(id)}
      && (forall k | k in o.store :: o.store[k] == store[k])
  {
    var key := Canonical(id);
    if fault.ReadFault? then Outcome(Response(SERVER_ERROR, Error(fault.message)), store)
    else if key !in store then Outcome(Response(NOT_FOUND, Error("Rating not found")), store)
    else if store[key].user != requester then Outcome(Response(FORBIDDEN, Error("Unauthorized")), store)
    else if fault.WriteFault? then Outcome(Response(SERVER_ERROR, Error(fault.message)), store)
    else Outcome(Response(NO_CONTENT, NoContent), store - {key})
  }

  /** The rating collection as the controller's writes change it. */
  class RatingCollection {
    var ratings: Store

    ghost predicate Valid()
      reads this
    {
      WellKeyed(ratings)
    }

    constructor ()
      ensures Valid() && ratings == map[]
    {
      ratings := map[];
    }

    method CreateRating(requester: UserId, newId: ObjectId, inspection: string,
                        rating: JsValue, comment: JsValue, fault: StoreFault)
      returns (resp: Response)
      requires Valid()
      modifies this
      ensures Valid()
      ensures Outcome(resp, ratings) ==
              CreateOutcome(old(ratings), requester, newId, inspection, rating, comment, fault)
    {
      var doc := Rating(inspection, requester, rating, comment);
      if fault.WriteFault? {
        return Response(SERVER_ERROR, Error(fault.message));
      }
      if newId in ratings {
        return Response(SERVER_ERROR, Error(DUPLICATE_KEY));
      }
      ratings := ratings[newId := doc];
      resp := Response(CREATED, Wrapped("Rating created", Doc(newId, doc)));
    }

    method UpdateRating(requester: UserId, id: string, rating: JsValue, comment: JsValue,
                        fault: StoreFault)
      returns (resp: Response)
      requires Valid()
      modifies this
      ensures Valid()
      ensures Outcome(resp, ratings) ==
              UpdateOutcome(old(ratings), requester, id, rating, comment, fault)
    {
      if fault.ReadFault? {
        return Response(SERVER_ERROR, Error(fault.message));
      }
      var key := Canonical(id);
      if key !in ratings {
        return Response(NOT_FOUND, Error("Rating not found"));
      }
      var existing := ratings[key];
      if existing.user != requester {
        return Response(FORBIDDEN, Error("Unauthorized"));
      }
      existing := existing.(rating := Or(rating, existing.rating));
      existing := existing.(comment := Or(comment, existing.comment));
      if fault.WriteFault? {
        return Response(SERVER_ERROR, Error(fault.message));
      }
      ratings := ratings[key := existing];
      resp := Response(OK, Wrapped("Rating updated", Doc(key, existing)));
    }

    method DeleteRating(requester: UserId, id: string, fault: StoreFault)
      returns (resp: Response)
      requires Valid()
      modifies this
      ensures Valid()
      ensures Outcome(resp, ratings) == DeleteOutcome(old(ratings), requester, id, fault)
    {
      if fault.ReadFault? {
        return Response(SERVER_ERROR, Error(fault.message));
      }
      var key := Canonical(id);
      if key !in ratings {
        return Response(NOT_FOUND, Error("Rating not found"));
      }
      if ratings[key].user != requester {
        return Response(FORBIDDEN, Error("Unauthorized"));
      }
      if fault.WriteFault? {
        return Response(SERVER_ERROR, Error(fault.message));
      }
      ratings := ratings - {key};
      resp := Response(NO_CONTENT, NoContent);
    }
  }
}
