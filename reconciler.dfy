/**
 * The `create-route` command run against the provider's route API: one GET
 * of the route list, then at most one PUT or POST.
 */
module Reconciler {
  import opened Wrappers
  import opened Routes

  /** The statuses for which `raise_for_status` raises. */
  predicate IsHttpError(status: int) {
    400 <= status < 600
  }

  /** An HTTP response: its status and its decoded JSON body, if it has one. */
  datatype Response<T> = Response(status: int, json: Option<T>)

  datatype Error = HttpError(status: int) | InvalidJson

  /**
   * `resp.raise_for_status()` followed by `resp.json()`: an error status
   * raises before the body is read; otherwise the decoded body, if any.
   */
  function Body<T>(resp: Response<T>): (r: Result<T, Error>)
    ensures r.Ok? <==> !IsHttpError(resp.status) && resp.json.Some?
    ensures r.Ok? ==> resp.json == Some(r.value)
    ensures IsHttpError(resp.status) ==> r == Err(HttpError(resp.status))
    ensures !IsHttpError(resp.status) && resp.json.None? ==> r == Err(InvalidJson)
  {
    if IsHttpError(resp.status) then Err(HttpError(resp.status))
    else match resp.json
      case Some(v) => Ok(v)
      case None => Err(InvalidJson)
  }

  /**
   * The provider's route store. It answers reads with `readStatus` and writes
   * with `writeStatus`, assigns ids from `nextId`, and counts the writes it
   * receives.
   */
  class Provider {
    var routes: seq<Route>
    var nextId: nat
    var readStatus: int
    var writeStatus: int
    var writes: nat

    ghost predicate Valid()
      reads this
    {
      UniqueIds(routes) && forall i :: 0 <= i < |routes| ==> routes[i].id < nextId
    }

    constructor (readStatus: int, writeStatus: int)
      ensures Valid() && routes == [] && writes == 0
      ensures this.readStatus == readStatus && this.writeStatus == writeStatus
    {
      routes := [];
      nextId := 0;
      this.readStatus := readStatus;
      this.writeStatus := writeStatus;
      writes := 0;
    }

    /** `GET /routes`: the route list, unless reads are refused. */
    method GetRoutes() returns (resp: Response<seq<Route>>)
      ensures resp.status == readStatus
      ensures resp.json == if IsHttpError(readStatus) then None else Some(routes)
    {
      if IsHttpError(readStatus) {
        resp := Response(readStatus, None);
      } else {
        resp := Response(readStatus, Some(routes));
      }
    }

    /** `PUT /routes/{id}`: applies the form to the route with that id; 404 when there is none. */
    method Put(id: nat, form: seq<Field>) returns (resp: Response<Route>)
      requires Valid()
      modifies this
      ensures Valid()
      ensures writes == old(writes) + 1
      ensures nextId == old(nextId) && readStatus == old(readStatus) && writeStatus == old(writeStatus)
      ensures IsHttpError(writeStatus) ==> resp == Response(writeStatus, None) && routes == old(routes)
      ensures !IsHttpError(writeStatus) ==>
        match IndexOfId(old(routes), id)
        case None => resp == Response(404, None) && routes == old(routes)
        case Some(i) => routes == old(routes)[i := ApplyUpdate(old(routes)[i], form)]
                        && resp == Response(writeStatus, Some(routes[i]))
    {
      writes := writes + 1;
      if IsHttpError(writeStatus) {
        resp := Response(writeStatus, None);
        return;
      }
      var found := IndexOfId(routes, id);
      match found
      case None =>
        resp := Response(404, None);
      case Some(i) =>
        var updated := ApplyUpdate(routes[i], form);
        routes := routes[i := updated];
        resp := Response(writeStatus, Some(updated));
    }

    /** `POST /routes`: creates a route from the form under a new id; 400 when the form is malformed. */
    method Post(form: seq<Field>) returns (resp: Response<Route>)
      requires Valid()
      modifies this
      ensures Valid()
      ensures writes == old(writes) + 1
      ensures readStatus == old(readStatus) && writeStatus == old(writeStatus)
      ensures IsHttpError(writeStatus) ==>
        resp == Response(writeStatus, None) && routes == old(routes) && nextId == old(nextId)
      ensures !IsHttpError(writeStatus) ==>
        match CreatedRoute(old(nextId), form)
        case None => resp == Response(400, None) && routes == old(routes) && nextId == old(nextId)
        case Some(r) => routes == old(routes) + [r] && nextId == old(nextId) + 1
                        && resp == Response(writeStatus, Some(r))
    {
      writes := writes + 1;
      if IsHttpError(writeStatus) {
        resp := Response(writeStatus, None);
        return;
      }
      var created := CreatedRoute(nextId, form);
      match created
      case None =>
        resp := Response(400, None);
      case Some(r) =>
        routes := routes + [r];
        nextId := nextId + 1;
        resp := Response(writeStatus, Some(r));
    }
  }

  /** What `create-route` reports: the route it found, the route it updated, or the route it created. */
  datatype Outcome = Found(route: Route) | Updated(route: Route) | Created(route: Route)

  /**
   * Create (or update) the route the arguments describe. A failed GET stops
   * with no write; a full match is reported with no write; otherwise exactly
   * one PUT (to the first identity match, carrying description and priority
   * only) or one POST (with the whole form) is sent.
   */
  method CreateRoute(p: Provider, a: RouteArgs) returns (r: Result<Outcome, Error>)
    requires p.Valid()
    modifies p
    ensures p.Valid()
    ensures p.readStatus == old(p.readStatus) && p.writeStatus == old(p.writeStatus)
    ensures IsHttpError(p.readStatus) ==>
      r == Err(HttpError(p.readStatus)) && p.routes == old(p.routes) && p.writes == old(p.writes)
    ensures p.nextId == old(p.nextId) + (if r.Ok? && r.value.Created? then 1 else 0)
    ensures !IsHttpError(p.readStatus) ==>
      var d, rs := DesiredOf(a), old(p.routes);
      match Decide(d, rs)
      case Keep(i) =>
        r == Ok(Found(rs[i])) && p.routes == rs && p.writes == old(p.writes)
      case Update(i) =>
        p.writes == old(p.writes) + 1
        && (IsHttpError(p.writeStatus) ==> r == Err(HttpError(p.writeStatus)) && p.routes == rs)
        && (!IsHttpError(p.writeStatus) ==>
              p.routes == Reconciled(d, rs, old(p.nextId)) && r == Ok(Updated(Retitled(rs[i], d))))
      case Create =>
        p.writes == old(p.writes) + 1
        && (IsHttpError(p.writeStatus) ==> r == Err(HttpError(p.writeStatus)) && p.routes == rs)
        && (!IsHttpError(p.writeStatus) ==>
              p.routes == Reconciled(d, rs, old(p.nextId)) && r == Ok(Created(NewRoute(old(p.nextId), d))))
  {
    var data := BuildRequestData(a);
    DataDictOfRequest(a);
    var d := DataDict(data).value;
    var listing := p.GetRoutes();
    var existing: seq<Route> :- Body(listing);

    var full := FirstMatch(existing, d, PassKeys, 0);
    if full.Some? {
      return Ok(Found(existing[full.value]));
    }

    var updatable := FirstMatch(existing, d, UpdateKeys, 0);
    if updatable.Some? {
      var i := updatable.value;
      PutOfRequest(existing[i], a);
      assert IndexOfId(existing, existing[i].id) == Some(i);
      var resp := p.Put(existing[i].id, Only(data, PutKeys));
      var updated: Route :- Body(resp);
      return Ok(Updated(updated));
    }

    PostOfRequest(p.nextId, a);
    var resp := p.Post(data);
    var created: Route :- Body(resp);
    return Ok(Created(created));
  }

  /**
   * Running `create-route` twice: once the first run has succeeded, the
   * second finds the route and writes nothing.
   */
  method CreateRouteTwice(p: Provider, a: RouteArgs) returns (first: Result<Outcome, Error>, second: Result<Outcome, Error>)
    requires p.Valid()
    modifies p
    ensures p.Valid()
    ensures first.Ok? ==> second.Ok? && second.value.Found? && FullMatch(DesiredOf(a), second.value.route)
    ensures first.Ok? ==> p.writes == old(p.writes) + (if first.value.Found? then 0 else 1)
  {
    first := CreateRoute(p, a);
    if first.Err? {
      second := CreateRoute(p, a);
      return;
    }
    ghost var d, rs, id := DesiredOf(a), old(p.routes), old(p.nextId);
    assert p.routes == Reconciled(d, rs, id);
    ReconcileIdempotent(d, rs, id);
    ghost var between := p.writes;
    second := CreateRoute(p, a);
    assert p.writes == between;
  }
}
