/** Properties of the rating controller that relate several handlers or a
    whole sequence of requests: reads after writes, the effect of writes on
    the per-inspection listing, and the ownership guarantees over any run
    of requests. */
module RatingProperties {
  import opened Ratings
  import opened RatingController

  /** A request to one of the five rating routes, with the requester the
      authentication layer attached to it. */
  datatype Request =
    | CreateRequest(requester: UserId, newId: ObjectId, inspection: string, rating: JsValue, comment: JsValue)
    | ListRequest(requester: UserId, inspection: string)
    | GetRequest(requester: UserId, id: string)
    | UpdateRequest(requester: UserId, id: string, rating: JsValue, comment: JsValue)
    | DeleteRequest(requester: UserId, id: string)

  /** A request together with the way the store behaves while serving it. */
  datatype Call = Call(request: Request, fault: StoreFault)

  /** The router: each request goes to its handler. */
  function Handle(store: Store, call: Call): (o: Outcome)
    ensures call.request.ListRequest? || call.request.GetRequest? ==> o.store == store
    ensures o.store != store ==> o.resp.status in {CREATED, OK, NO_CONTENT}
    ensures o.resp.status == BAD_REQUEST ==> call.request.GetRequest?
    ensures WellKeyed(store) ==> WellKeyed(o.store)
  {
    match call.request
    case CreateRequest(requester, newId, inspection, rating, comment) =>
      CreateOutcome(store, requester, newId, inspection, rating, comment, call.fault)
    case ListRequest(_, inspection) =>
      Outcome(GetRatingsByInspection(store, inspection, call.fault), store)
    case GetRequest(_, id) =>
      Outcome(GetRatingById(store, id, call.fault), store)
    case UpdateRequest(requester, id, rating, comment) =>
      UpdateOutcome(store, requester, id, rating, comment, call.fault)
    case DeleteRequest(requester, id) =>
      DeleteOutcome(store, requester, id, call.fault)
  }

  /** The collection after serving `calls` one after another, each atomically. */
  function Run(store: Store, calls: seq<Call>): (r: Store)
    ensures WellKeyed(store) ==> WellKeyed(r)
    decreases |calls|
  {
    if calls == [] then store else Run(Handle(store, calls[0]).store, calls[1..])
  }

  /** The authors of the stored ratings. */
  function Authors(store: Store): set<UserId> {
    set id | id in store :: store[id].user
  }

  /** The requesters of a sequence of calls. */
  function Requesters(calls: seq<Call>): set<UserId> {
    set i | 0 <= i < |calls| :: calls[i].request.requester
  }

  // ---------------------------------------------------------------------
  // Reads

  /** A malformed id is answered without the store: neither its contents
      nor its failures make a difference. */
  lemma MalformedIdSkipsStore(s1: Store, s2: Store, id: string, f1: StoreFault, f2: StoreFault)
    requires !IsObjectId(id)
    ensures GetRatingById(s1, id, f1) == GetRatingById(s2, id, f2)
    ensures GetRatingById(s1, id, f1).status == BAD_REQUEST
  {
  }

  /** Update does not check the id shape: on a collection whose keys are
      all generated ids, a malformed id is simply not found. */
  lemma UpdateMalformedIdNotFound(store: Store, requester: UserId, id: string,
                                  rating: JsValue, comment: JsValue, fault: StoreFault)
    requires WellKeyed(store) && !IsObjectId(id) && !fault.ReadFault?
    ensures UpdateOutcome(store, requester, id, rating, comment, fault) ==
            Outcome(Response(NOT_FOUND, Error("Rating not found")), store)
  {
  }

  /** Delete does not check the id shape either. */
  lemma DeleteMalformedIdNotFound(store: Store, requester: UserId, id: string, fault: StoreFault)
    requires WellKeyed(store) && !IsObjectId(id) && !fault.ReadFault?
    ensures DeleteOutcome(store, requester, id, fault) ==
            Outcome(Response(NOT_FOUND, Error("Rating not found")), store)
  {
  }

  /** Ids are matched regardless of letter case: two ids that cast to the
      same key get the same answer, from every handler that looks them up. */
  lemma LookupsIgnoreCase(store: Store, requester: UserId, id1: string, id2: string,
                          rating: JsValue, comment: JsValue, fault: StoreFault)
    requires Canonical(id1) == Canonical(id2)
    ensures GetRatingById(store, id1, fault) == GetRatingById(store, id2, fault)
    ensures UpdateOutcome(store, requester, id1, rating, comment, fault) ==
            UpdateOutcome(store, requester, id2, rating, comment, fault)
    ensures DeleteOutcome(store, requester, id1, fault) == DeleteOutcome(store, requester, id2, fault)
  {
  }

  /** For example, an id written in upper case finds the rating the store
      keeps under the lower-case spelling. */
  lemma UpperCaseIdFindsStoredRating(r: Rating)
    ensures GetRatingById(map["0123456789abcdef01234567" := r], "0123456789ABCDEF01234567", NoFault)
            == Response(OK, Document(Doc("0123456789abcdef01234567", r)))
  {
    var upper, lower := "0123456789ABCDEF01234567", "0123456789abcdef01234567";
    forall i | 0 <= i < 24 ensures Canonical(upper)[i] == lower[i] {
    }
    assert Canonical(upper) == lower;
  }

  // ---------------------------------------------------------------------
  // Reads after writes

  /** A created rating can be read back by its id, authored by the requester. */
  lemma CreateThenGetById(store: Store, requester: UserId, newId: ObjectId, inspection: string,
                          rating: JsValue, comment: JsValue, fault: StoreFault)
    requires CreateOutcome(store, requester, newId, inspection, rating, comment, fault).resp.status == CREATED
    ensures GetRatingById(CreateOutcome(store, requester, newId, inspection, rating, comment, fault).store,
                          newId, NoFault)
            == Response(OK, Document(Doc(newId, Rating(inspection, requester, rating, comment))))
  {
  }

  /** After a successful update, reading the rating gives what the update answered. */
  lemma UpdateThenGetById(store: Store, requester: UserId, id: string,
                          rating: JsValue, comment: JsValue, fault: StoreFault)
    requires UpdateOutcome(store, requester, id, rating, comment, fault).resp.status == OK
    ensures var o := UpdateOutcome(store, requester, id, rating, comment, fault);
            IsObjectId(id) ==> GetRatingById(o.store, id, NoFault) == Response(OK, Document(o.resp.body.data))
  {
  }

  /** After a successful delete the rating is gone for every reader. */
  lemma DeleteThenGetById(store: Store, requester: UserId, id: string, fault: StoreFault)
    requires DeleteOutcome(store, requester, id, fault).resp.status == NO_CONTENT
    ensures var s := DeleteOutcome(store, requester, id, fault).store;
            && (IsObjectId(id) ==> GetRatingById(s, id, NoFault).status == NOT_FOUND)
            && DeleteOutcome(s, requester, id, NoFault).resp.status == NOT_FOUND
  {
  }

  /** Repeating an accepted update changes nothing more. */
  lemma UpdateIdempotent(store: Store, requester: UserId, id: string,
                         rating: JsValue, comment: JsValue)
    requires UpdateOutcome(store, requester, id, rating, comment, NoFault).resp.status == OK
    ensures var s := UpdateOutcome(store, requester, id, rating, comment, NoFault).store;
            UpdateOutcome(s, requester, id, rating, comment, NoFault) ==
            UpdateOutcome(store, requester, id, rating, comment, NoFault).(store := s)
  {
  }

  /** The falsy-merge quirk: an explicit zero rating and empty comment are
      accepted with 200 and change nothing. */
  lemma FalsyUpdateChangesNothing(store: Store, requester: UserId, id: string)
    requires UpdateOutcome(store, requester, id, Num(0.0), Str(""), NoFault).resp.status == OK
    ensures UpdateOutcome(store, requester, id, Num(0.0), Str(""), NoFault).store == store
  {
  }

  // ---------------------------------------------------------------------
  // Writes and the per-inspection listing

  /** A created rating joins the listing of its own inspection. */
  lemma CreateExtendsListing(store: Store, requester: UserId, newId: ObjectId, inspection: string,
                             rating: JsValue, comment: JsValue, fault: StoreFault)
    requires CreateOutcome(store, requester, newId, inspection, rating, comment, fault).resp.status == CREATED
    ensures var s := CreateOutcome(store, requester, newId, inspection, rating, comment, fault).store;
            && Listing(s, inspection) == Listing(store, inspection)[newId := s[newId]]
            && |Listing(s, inspection)| == |Listing(store, inspection)| + 1
  {
  }

  /** A created rating leaves the listings of other inspections as they were. */
  lemma CreateKeepsOtherListings(store: Store, requester: UserId, newId: ObjectId, inspection: string,
                                 rating: JsValue, comment: JsValue, fault: StoreFault, other: string)
    requires other != inspection
    ensures Listing(CreateOutcome(store, requester, newId, inspection, rating, comment, fault).store, other)
            == Listing(store, other)
  {
  }

  /** An accepted update moves no rating between listings. */
  lemma UpdateKeepsListings(store: Store, requester: UserId, id: string,
                            rating: JsValue, comment: JsValue, fault: StoreFault, inspection: string)
    requires UpdateOutcome(store, requester, id, rating, comment, fault).resp.status == OK
    ensures var s := UpdateOutcome(store, requester, id, rating, comment, fault).store;
            && Listing(s, inspection).Keys == Listing(store, inspection).Keys
            && |Listing(s, inspection)| == |Listing(store, inspection)|
  {
  }

  /** An accepted delete takes the rating out of every listing and nothing else. */
  lemma DeleteShrinksListing(store: Store, requester: UserId, id: string, fault: StoreFault, inspection: string)
    requires DeleteOutcome(store, requester, id, fault).resp.status == NO_CONTENT
    ensures var s, key := DeleteOutcome(store, requester, id, fault).store, Canonical(id);
            && Listing(s, inspection) == Listing(store, inspection) - {key}
            && |Listing(s, inspection)| ==
               if store[key].inspection == inspection then |Listing(store, inspection)| - 1
               else |Listing(store, inspection)|
  {
  }

  // ---------------------------------------------------------------------
  // Ownership over runs of requests

  /** A single request by anyone but a rating's author leaves that rating as it was. */
  lemma ForeignCallKeepsRating(store: Store, call: Call, id: string)
    requires id in store && call.request.requester != store[id].user
    ensures id in Handle(store, call).store && Handle(store, call).store[id] == store[id]
  {
  }

  /** However many requests others send, a rating stays exactly as its
      author left it: other users can neither change, delete nor replace it. */
  lemma {:induction false} ForeignCallsKeepRating(store: Store, calls: seq<Call>, id: string)
    requires id in store
    requires forall i | 0 <= i < |calls| :: calls[i].request.requester != store[id].user
    ensures id in Run(store, calls) && Run(store, calls)[id] == store[id]
    decreases |calls|
  {
    if calls != [] {
      ForeignCallKeepsRating(store, calls[0], id);
      var next := Handle(store, calls[0]).store;
      ForeignCallsKeepRating(next, calls[1..], id);
    }
  }

  /** A single request can only add its own requester as an author. */
  lemma HandleAuthors(store: Store, call: Call)
    ensures Authors(Handle(store, call).store) <= Authors(store) + {call.request.requester}
  {
  }

  /** Every author in the collection after a run was an author before it
      or sent one of its requests: nobody can file a rating in another
      user's name. */
  lemma {:induction false} RunAuthors(store: Store, calls: seq<Call>)
    ensures Authors(Run(store, calls)) <= Authors(store) + Requesters(calls)
    decreases |calls|
  {
    if calls != [] {
      var next := Handle(store, calls[0]).store;
      HandleAuthors(store, calls[0]);
      RunAuthors(next, calls[1..]);
      assert Requesters(calls[1..]) <= Requesters(calls) by {
        forall u | u in Requesters(calls[1..]) ensures u in Requesters(calls) {
          var i :| 0 <= i < |calls[1..]| && calls[1..][i].request.requester == u;
          assert calls[i + 1].request.requester == u;
        }
      }
    }
  }
}
