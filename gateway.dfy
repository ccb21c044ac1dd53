/** The route table of the gateway service (back/src/gateway.ts): an ordered list of
    routes that add/save/remove mutate in place; after every mutation the router is
    cleared, every route is registered again in table order, and the whole table is
    written to the route file. Requests reaching a registered route get their
    lambda arguments by a fold over the route's parameter rules. */
module Gateway {
  import opened Wrappers
  import opened Collections

  /** One parameter rule `[source, field]`: read `req[source][field]`. */
  datatype ParamRule = ParamRule(source: string, field: string)

  /** The `params` object of a route: output key -> rule. */
  type Params = map<string, ParamRule>

  /** A route as the client sends it; `uuid` is optional. */
  datatype RouteInput = RouteInput(uuid: Option<string>, methodName: string, path: string, params: Params, lambda: string)

  /** A route of the table. `method` is whatever string the client sent: it is not validated. */
  datatype Route = Route(uuid: string, methodName: string, path: string, params: Params, lambda: string)

  /** The router methods that `applyRoutes` calls. */
  datatype Verb = Get | Post | Put | Patch | Delete | Head

  /** One entry of the router's stack: `router.<verb>(path, handler for route)`. */
  datatype Registration = Registration(verb: Verb, path: string, route: Route)

  datatype GatewayError =
    | RouteNotFound(message: string)   // thrown synchronously by `remove`
    | WriteFailed(reason: string)      // the promise of `saveJson` rejected with fs's own error

  /** The exact, lower-case `case` label of each verb in the `switch` of `applyRoutes`. */
  function VerbName(v: Verb): (s: string)
    ensures |s| > 0 && forall i | 0 <= i < |s| :: 'a' <= s[i] <= 'z'
  {
    match v
    case Get => "get"
    case Post => "post"
    case Put => "put"
    case Patch => "patch"
    case Delete => "delete"
    case Head => "head"
  }

  /** The `switch (route.method)` of `applyRoutes`: a verb for the six exact labels,
      nothing for any other string (`"GET"` included). */
  function VerbOf(name: string): (r: Option<Verb>)
    ensures r.Some? ==> VerbName(r.value) == name
    ensures r.None? ==> forall v: Verb :: VerbName(v) != name
  {
    if name == "get" then Some(Get)
    else if name == "post" then Some(Post)
    else if name == "put" then Some(Put)
    else if name == "patch" then Some(Patch)
    else if name == "delete" then Some(Delete)
    else if name == "head" then Some(Head)
    else None
  }

  predicate Registrable(r: Route)
  {
    VerbOf(r.methodName).Some?
  }

  /** What one turn of the `forEach` in `applyRoutes` adds to the router. */
  function RegistrationsFor(r: Route): seq<Registration>
  {
    match VerbOf(r.methodName)
    case Some(v) => [Registration(v, r.path, r)]
    case None => []
  }

  /** The router's stack after `clearRouter(); applyRoutes()` on table `rs`,
      accumulated in the order the loop visits the routes. */
  function Dispatch(rs: seq<Route>): seq<Registration>
  {
    if |rs| == 0 then []
    else Dispatch(rs[..|rs| - 1]) + RegistrationsFor(rs[|rs| - 1])
  }

  /** The router holds one registration per route whose method is one of the six
      labels, in table order, each under that route's path and the verb its method names;
      routes with any other method are skipped. */
  lemma {:induction false} DispatchMatchesTable(rs: seq<Route>)
    ensures |Dispatch(rs)| == |Filter(rs, Registrable)|
    ensures forall k | 0 <= k < |Dispatch(rs)| :: RegisteredAs(Dispatch(rs)[k], Filter(rs, Registrable)[k])
  {
    if |rs| > 0 {
      var init, last := rs[..|rs| - 1], rs[|rs| - 1];
      DispatchMatchesTable(init);
      assert rs == init + [last];
      FilterAppend(init, [last], Registrable);
      FilterOne(last);
      RegistrationsForOne(last);
      var d, f := Dispatch(init), Filter(init, Registrable);
      var d2, f2 := RegistrationsFor(last), Filter([last], Registrable);
      assert Dispatch(rs) == d + d2;
      assert Filter(rs, Registrable) == f + f2;
      AppendRegistered(d, f, d2, f2);
    }
  }

  /** Registration `reg` is route `r` under its path and the verb its method names. */
  ghost predicate RegisteredAs(reg: Registration, r: Route)
  {
    reg.route == r && reg.path == r.path && VerbName(reg.verb) == r.methodName
  }

  /** Matching registrations and routes, appended pairwise, still match. */
  lemma AppendRegistered(d: seq<Registration>, f: seq<Route>, d2: seq<Registration>, f2: seq<Route>)
    requires |d| == |f| && |d2| == |f2|
    requires forall k | 0 <= k < |d| :: RegisteredAs(d[k], f[k])
    requires forall k | 0 <= k < |d2| :: RegisteredAs(d2[k], f2[k])
    ensures forall k | 0 <= k < |d + d2| :: RegisteredAs((d + d2)[k], (f + f2)[k])
  {
    forall k | 0 <= k < |d + d2| ensures RegisteredAs((d + d2)[k], (f + f2)[k]) {
      if k >= |d| {
        assert (d + d2)[k] == d2[k - |d|] && (f + f2)[k] == f2[k - |d|];
      }
    }
  }

  /** One route passes the filter exactly when it is registrable. */
  lemma FilterOne(r: Route)
    ensures Filter([r], Registrable) == if Registrable(r) then [r] else []
  {
    assert [r][1..] == [];
  }

  /** One route yields one registration under its path and verb when registrable, none otherwise. */
  lemma RegistrationsForOne(r: Route)
    ensures |RegistrationsFor(r)| == if Registrable(r) then 1 else 0
    ensures Registrable(r) ==> RegisteredAs(RegistrationsFor(r)[0], r)
  {
  }

  /** The uuid of `add`'s new route: `assign({uuid: uuid()}, route)` lets the
      client's own `uuid` overwrite the generated one. */
  function AssignedUuid(input: RouteInput, freshId: string): (u: string)
    ensures input.uuid.Some? ==> u == input.uuid.value
    ensures input.uuid.None? ==> u == freshId
  {
    match input.uuid
    case Some(u) => u
    case None => freshId
  }

  /** `filter(route => route.uuid === uuid)[0]` located by index: the first route carrying `uuid`. */
  function IndexOfUuid(rs: seq<Route>, uuid: string): (r: Option<nat>)
    ensures r.None? <==> forall j | 0 <= j < |rs| :: rs[j].uuid != uuid
    ensures r.Some? ==> r.value < |rs| && rs[r.value].uuid == uuid
    ensures r.Some? ==> forall j | 0 <= j < r.value :: rs[j].uuid != uuid
  {
    FirstIndex(rs, (route: Route) => route.uuid == uuid)
  }

  /** The four assignments of `save`: every field but the uuid comes from `input`. */
  function Overwritten(saved: Route, input: RouteInput): (r: Route)
    ensures r.uuid == saved.uuid
    ensures r == Route(saved.uuid, input.methodName, input.path, input.params, input.lambda)
  {
    saved.(methodName := input.methodName, path := input.path, params := input.params, lambda := input.lambda)
  }

  /** The error `remove` throws for an unknown uuid. */
  function NotFoundMessage(uuid: string): string
  {
    "Route with uuid " + uuid + " not found"
  }

  /** The table after `save(uuid, input)`: `None` when no route carries `uuid`
      (then the source changes nothing), otherwise the table with the first such
      route overwritten in place. */
  function SavedTable(rs: seq<Route>, uuid: string, input: RouteInput): (r: Option<seq<Route>>)
    ensures r.None? <==> forall j | 0 <= j < |rs| :: rs[j].uuid != uuid
    ensures r.Some? ==> |r.value| == |rs|
    ensures r.Some? ==> exists i | 0 <= i < |rs| :: SavedAt(rs, r.value, i, uuid, input)
  {
    match IndexOfUuid(rs, uuid)
    case None => None
    case Some(i) =>
      var t := rs[i := Overwritten(rs[i], input)];
      assert SavedAt(rs, t, i, uuid, input);
      Some(t)
  }

  /** `t` is `rs` with its first route carrying `uuid`, at index `i`, given the fields of
      `input` but keeping its uuid and position; every other route is unchanged. */
  ghost predicate SavedAt(rs: seq<Route>, t: seq<Route>, i: int, uuid: string, input: RouteInput)
  {
    && 0 <= i < |rs| == |t|
    && rs[i].uuid == uuid
    && (forall j | 0 <= j < i :: rs[j].uuid != uuid)
    && t[i] == Route(rs[i].uuid, input.methodName, input.path, input.params, input.lambda)
    && (forall j | 0 <= j < |rs| && j != i :: t[j] == rs[j])
  }

  /** The table after `remove(uuid)`: an error carrying the thrown message when no
      route carries `uuid`, otherwise the table without its first such route, the
      others keeping their relative order. */
  function RemovedTable(rs: seq<Route>, uuid: string): (r: Result<seq<Route>, GatewayError>)
    ensures r.Err? <==> forall j | 0 <= j < |rs| :: rs[j].uuid != uuid
    ensures r.Err? ==> r.error == RouteNotFound(NotFoundMessage(uuid))
    ensures r.Ok? ==> |r.value| == |rs| - 1
    ensures r.Ok? ==> exists i | 0 <= i < |rs| :: RemovedAt(rs, r.value, i, uuid)
  {
    match IndexOfUuid(rs, uuid)
    case None => Err(RouteNotFound(NotFoundMessage(uuid)))
    case Some(i) =>
      var t := rs[..i] + rs[i + 1..];
      assert RemovedAt(rs, t, i, uuid);
      Ok(t)
  }

  /** `t` is `rs` with the element at `i`, the first route carrying `uuid`, spliced out. */
  ghost predicate RemovedAt(rs: seq<Route>, t: seq<Route>, i: int, uuid: string)
  {
    && 0 <= i < |rs|
    && rs[i].uuid == uuid
    && (forall j | 0 <= j < i :: rs[j].uuid != uuid)
    && t == rs[..i] + rs[i + 1..]
  }

  /** `save` keeps every route's uuid and position, so the uuids of the table are the
      same afterwards. */
  lemma {:induction false} SaveKeepsUuids(rs: seq<Route>, uuid: string, input: RouteInput)
    requires SavedTable(rs, uuid, input).Some?
    ensures var t := SavedTable(rs, uuid, input).value;
            forall j | 0 <= j < |rs| :: t[j].uuid == rs[j].uuid
  {
    var i := IndexOfUuid(rs, uuid).value;
    var t := SavedTable(rs, uuid, input).value;
    assert t == rs[i := Overwritten(rs[i], input)];
  }

  /** Saving the same route twice under one uuid leaves the table as saving it once. */
  lemma {:induction false} SaveIdempotent(rs: seq<Route>, uuid: string, input: RouteInput)
    requires SavedTable(rs, uuid, input).Some?
    ensures SavedTable(SavedTable(rs, uuid, input).value, uuid, input) == SavedTable(rs, uuid, input)
  {
    var i := IndexOfUuid(rs, uuid).value;
    var t := rs[i := Overwritten(rs[i], input)];
    assert SavedTable(rs, uuid, input).value == t;
    SaveKeepsUuids(rs, uuid, input);
    assert IndexOfUuid(t, uuid) == Some(i);
    assert t[i := Overwritten(t[i], input)] == t;
  }

  /** Removing the uuid of a route just appended under a uuid the table did not use
      gives back the table as it was before `add`. */
  lemma {:induction false} RemoveUndoesAdd(rs: seq<Route>, route: Route)
    requires forall j | 0 <= j < |rs| :: rs[j].uuid != route.uuid
    ensures RemovedTable(rs + [route], route.uuid) == Ok(rs)
  {
    var t := rs + [route];
    assert forall j | 0 <= j < |rs| :: t[j].uuid != route.uuid;
    assert t[|rs|].uuid == route.uuid;
    assert IndexOfUuid(t, route.uuid) == Some(|rs|);
    assert t[..|rs|] + t[|rs| + 1..] == rs;
  }

  /** A request as the handler sees it: each source (`params`, `query`, `body`,
      `headers`, ...) that is defined on it, with its fields. */
  type Request<V> = map<string, map<string, V>>

  /** The fold of `extractParamsFromRequest` over the keys `keys`: each key `k` gets
      `req[source][field]` of its rule, `None` standing for `undefined` when the field is
      missing; a rule whose source is not defined on the request throws (a TypeError),
      and the first such key in fold order is the one reported. */
  function ExtractFold<V>(req: Request<V>, params: Params, keys: seq<string>): (r: Result<map<string, Option<V>>, string>)
    requires forall k | k in keys :: k in params
    ensures r.Ok? <==> forall k | k in keys :: params[k].source in req
    ensures r.Ok? ==> r.value.Keys == set k | k in keys
    ensures r.Ok? ==> forall k | k in keys ::
              r.value[k] == Lookup(req[params[k].source], params[k].field)
    ensures r.Err? ==> exists k | k in keys :: params[k].source !in req && r.error == params[k].source
  {
    if |keys| == 0 then Ok(map[])
    else
      var init, key := keys[..|keys| - 1], keys[|keys| - 1];
      assert forall k | k in keys :: k in init || k == key;
      match ExtractFold(req, params, init)
      case Err(e) => Err(e)
      case Ok(acc) =>
        var rule := params[key];
        if rule.source !in req then Err(rule.source)
        else Ok(acc[key := Lookup(req[rule.source], rule.field)])
  }

  /** A field read on a defined source: `undefined` for a missing field. */
  function Lookup<V>(fields: map<string, V>, field: string): (r: Option<V>)
    ensures r.Some? <==> field in fields
    ensures r.Some? ==> r.value == fields[field]
  {
    if field in fields then Some(fields[field]) else None
  }

  /** `extractParamsFromRequest(req, params)`, folding over `Object.keys(params)` in the
      order `keys` (each key of `params` exactly once, as Object.keys yields them). The
      result has exactly the keys of `params`, key `k` mapped to `req[source][field]` of
      `params[k]`; it is an error exactly when some rule names a source the request lacks. */
  function ExtractParams<V>(req: Request<V>, params: Params, keys: seq<string>): (r: Result<map<string, Option<V>>, string>)
    requires forall k :: k in keys <==> k in params
    ensures r.Ok? <==> forall k | k in params :: params[k].source in req
    ensures r.Ok? ==> r.value.Keys == params.Keys
    ensures r.Ok? ==> forall k | k in params ::
              r.value[k] == Lookup(req[params[k].source], params[k].field)
  {
    ExtractFold(req, params, keys)
  }

  /** What the response handler sends: `res.json(value)` with the default status, or
      status 500 with the failure. */
  datatype Reply<V> = Json(body: V) | ServerError(status: int, cause: HandlerFailure)

  datatype HandlerFailure =
    | ExtractionFailed(source: string)   // the TypeError of the fold, reported by the framework's error handler
    | LambdaFailed(error: string)        // the rejection of `lambdaService.run`

  /** The handler `createRequestHandler(route)` builds, on one request: extract the
      arguments, run the route's lambda (an injected `run`) on them, answer with its result,
      or with status 500. */
  function HandleRequest<V>(route: Route, req: Request<V>, keys: seq<string>,
                            run: (string, map<string, Option<V>>) -> Result<V, string>): (reply: Reply<V>)
    requires forall k :: k in keys <==> k in route.params
    ensures reply.ServerError? ==> reply.status == 500
    ensures reply.Json? <==> (forall k | k in route.params :: route.params[k].source in req)
                             && run(route.lambda, ExtractParams(req, route.params, keys).value).Ok?
    ensures reply.Json? ==> reply.body == run(route.lambda, ExtractParams(req, route.params, keys).value).value
    ensures ExtractParams(req, route.params, keys).Err? ==>
              reply == ServerError(500, ExtractionFailed(ExtractParams(req, route.params, keys).error))
    ensures ExtractParams(req, route.params, keys).Ok? && run(route.lambda, ExtractParams(req, route.params, keys).value).Err? ==>
              reply == ServerError(500, LambdaFailed(run(route.lambda, ExtractParams(req, route.params, keys).value).error))
  {
    match ExtractParams(req, route.params, keys)
    case Err(source) => ServerError(500, ExtractionFailed(source))
    case Ok(args) =>
      match run(route.lambda, args)
      case Ok(value) => Json(value)
      case Err(e) => ServerError(500, LambdaFailed(e))
  }

  /** The fate of `fs.writeFile` on the route file. It opens the file with flag 'w', which
      empties it, before writing: the write succeeds; or it fails at the open, the file being
      as it was; or it fails after the open, the file being left empty or cut short. */
  datatype WriteOutcome = Written | OpenFailed(reason: string) | FailedAfterOpen(reason: string)

  /** The route file's content after writing `table` over one holding `before`. An emptied
      or cut-short file holds no readable table: no proper prefix of the JSON text of an
      array is valid JSON, so `loadJson` would fall back to the empty table. */
  function PersistedAfter(before: Option<seq<Route>>, table: seq<Route>, write: WriteOutcome): Option<seq<Route>>
  {
    match write
    case Written => Some(table)
    case OpenFailed(_) => before
    case FailedAfterOpen(_) => None
  }

  /** How the promise of `saveJson` settles: resolved, or rejected with fs's error. */
  function WriteResult(write: WriteOutcome): Result<(), GatewayError>
  {
    if write.Written? then Ok(()) else Err(WriteFailed(write.reason))
  }

  /** The table `loadJson` starts from: the stored one, or `[]` when the route file holds
      no readable table. */
  function LoadedTable(stored: Option<seq<Route>>): seq<Route>
  {
    if stored.Some? then stored.value else []
  }

  /** What the next start loads after a write of `table`: the table on success, what it
      loaded before when the open failed, and the empty table when the write failed after
      the open had emptied the file. */
  lemma RestartAfterWrite(before: Option<seq<Route>>, table: seq<Route>, write: WriteOutcome)
    ensures write.Written? ==> LoadedTable(PersistedAfter(before, table, write)) == table
    ensures write.OpenFailed? ==> LoadedTable(PersistedAfter(before, table, write)) == LoadedTable(before)
    ensures write.FailedAfterOpen? ==> LoadedTable(PersistedAfter(before, table, write)) == []
  {
  }

  /** The gateway service: the route table, the router's stack of registrations and
      the route file's content (`None`: no readable table in it). */
  class GatewayService {
    var routes: seq<Route>
    var router: seq<Registration>
    var persisted: Option<seq<Route>>

    /** The router reflects the table: it is rebuilt after every successful mutation. */
    ghost predicate Valid()
      reads this
    {
      router == Dispatch(routes)
    }

    /** The constructor's `loadJson`: the stored table when the route file could be read
        (then registered), an empty table otherwise. */
    constructor (stored: Option<seq<Route>>)
      ensures Valid()
      ensures routes == LoadedTable(stored)
      ensures persisted == stored
    {
      routes := [];
      router := [];
      persisted := stored;
      new;
      if stored.Some? {
        routes := stored.value;
        ApplyRoutes();
      }
    }

    /** `list()`: the table itself (the source hands out the live array). */
    function List(): (rs: seq<Route>)
      reads this
      ensures |rs| == |routes| && forall i | 0 <= i < |rs| :: rs[i] == routes[i]
    {
      routes
    }

    /** `clearRouter()`: empties the router's stack. */
    method ClearRouter()
      modifies this`router
      ensures router == []
    {
      router := [];
    }

    /** `applyRoutes()`: registers every route of the table, in order, on the router. */
    method ApplyRoutes()
      modifies this`router
      ensures router == old(router) + Dispatch(routes)
    {
      var i := 0;
      while i < |routes|
        invariant 0 <= i <= |routes|
        invariant router == old(router) + Dispatch(routes[..i])
      {
        var route := routes[i];
        match VerbOf(route.methodName) {
          case Some(v) => router := router + [Registration(v, route.path, route)];
          case None =>
        }
        assert routes[..i + 1][..i] == routes[..i];
        assert Dispatch(routes[..i + 1]) == Dispatch(routes[..i]) + RegistrationsFor(routes[i]);
        i := i + 1;
      }
      assert routes[..i] == routes;
    }

    /** `saveJson()`: writes the whole table; `write` is the fate of the file write. */
    method SaveJson(write: WriteOutcome) returns (r: Result<(), GatewayError>)
      modifies this`persisted
      ensures write.Written? ==> persisted == Some(routes) && r == Ok(())
      ensures write.OpenFailed? ==> persisted == old(persisted) && r == Err(WriteFailed(write.reason))
      ensures write.FailedAfterOpen? ==> persisted.None? && r == Err(WriteFailed(write.reason))
    {
      match write {
        case Written =>
          persisted := Some(routes);
          r := Ok(());
        case OpenFailed(reason) =>
          r := Err(WriteFailed(reason));
        case FailedAfterOpen(reason) =>
          persisted := None;
          r := Err(WriteFailed(reason));
      }
    }

    /** `add(route)`: appends the route under its own uuid or a fresh one from the uuid
        generator (`freshId`), rebuilds the router and writes the table. The table and the
        router change even when the write then fails. */
    method Add(input: RouteInput, freshId: string, write: WriteOutcome) returns (r: Result<Route, GatewayError>)
      requires Valid()
      modifies this
      ensures Valid()
      ensures |routes| == |old(routes)| + 1 && routes[..|old(routes)|] == old(routes)
      ensures routes[|routes| - 1] ==
              Route(AssignedUuid(input, freshId), input.methodName, input.path, input.params, input.lambda)
      ensures persisted == PersistedAfter(old(persisted), routes, write)
      ensures r == match WriteResult(write) case Ok(_) => Ok(routes[|routes| - 1]) case Err(e) => Err(e)
    {
      var gateway := Route(AssignedUuid(input, freshId), input.methodName, input.path, input.params, input.lambda);
      routes := routes + [gateway];
      ClearRouter();
      ApplyRoutes();
      var written := SaveJson(write);
      r := match written case Ok(_) => Ok(gateway) case Err(e) => Err(e);
    }

    /** `save(uuid, route)`: overwrites method, path, params and lambda of the first route
        carrying `uuid`, keeping its uuid and position, then rebuilds and writes; with an
        unknown uuid it resolves without touching anything. */
    method Save(uuid: string, input: RouteInput, write: WriteOutcome) returns (r: Result<(), GatewayError>)
      requires Valid()
      modifies this
      ensures Valid()
      ensures SavedTable(old(routes), uuid, input).None? ==>
                routes == old(routes) && router == old(router) && persisted == old(persisted) && r == Ok(())
      ensures SavedTable(old(routes), uuid, input).Some? ==>
                && routes == SavedTable(old(routes), uuid, input).value
                && persisted == PersistedAfter(old(persisted), routes, write)
                && r == WriteResult(write)
    {
      var saved := SavedTable(routes, uuid, input);
      if saved.None? {
        r := Ok(());
        return;
      }
      routes := saved.value;
      ClearRouter();
      ApplyRoutes();
      r := SaveJson(write);
    }

    /** `remove(uuid)`: splices out the first route carrying `uuid`, then rebuilds and
        writes; with an unknown uuid it throws before touching anything. */
    method Remove(uuid: string, write: WriteOutcome) returns (r: Result<(), GatewayError>)
      requires Valid()
      modifies this
      ensures Valid()
      ensures RemovedTable(old(routes), uuid).Err? ==>
                && routes == old(routes) && router == old(router) && persisted == old(persisted)
                && r == Err(RemovedTable(old(routes), uuid).error)
      ensures RemovedTable(old(routes), uuid).Ok? ==>
                && routes == RemovedTable(old(routes), uuid).value
                && persisted == PersistedAfter(old(persisted), routes, write)
                && r == WriteResult(write)
    {
      var removed := RemovedTable(routes, uuid);
      if removed.Err? {
        r := Err(removed.error);
        return;
      }
      routes := removed.value;
      ClearRouter();
      ApplyRoutes();
      r := SaveJson(write);
    }
  }
}
