/** `RouterService.ts`: a wrapper around a Hono router. The Hono router is abstracted to the
    list of routes registered on it (method, path, handler, middleware chain) and the routers
    mounted on it; handlers and middleware are opaque names. */
module Router {
  import opened Wrappers
  import opened Text
  import opened Js

  datatype Middleware = Middleware(name: string) | RouterLogger

  datatype Route = Route(verb: string, path: string, handler: string, chain: seq<Middleware>)

  /** What `controller[action]` holds: a function (the handler) or anything else. */
  datatype Member = Function(handler: string) | Other

  type Controller = map<string, Member>

  /** The `only` and `except` options of `apiResource`; an absent list is `None`. */
  datatype ResourceOptions = ResourceOptions(only: Option<seq<string>>, except: Option<seq<string>>)

  /** One `(method, suffix, action)` row of a controller route table. */
  datatype Action = Action(verb: string, suffix: string, name: string)

  /** A route the `group` callback asks for: `router[verb](path, handler, middlewares)`. */
  datatype RouteRequest = RouteRequest(verb: string, path: string, handler: string, middlewares: seq<Middleware>)

  // ---- addRoute ----

  /** The middleware a route runs: the global ones, then the route's own, then the request
      logger unless the environment is production. */
  function Chain(global: seq<Middleware>, own: seq<Middleware>, production: bool): (r: seq<Middleware>)
    ensures |r| >= |global| + |own|
    ensures r[..|global|] == global
    ensures r[|global|..|global| + |own|] == own
    ensures production ==> |r| == |global| + |own|
    ensures !production ==> |r| == |global| + |own| + 1 && r[|r| - 1] == RouterLogger
  {
    var r := global + own + (if production then [] else [RouterLogger]);
    assert r[..|global|] == global;
    assert r[|global|..|global| + |own|] == own;
    r
  }

  // ---- apiResource / addControllerRoutes ----

  /** The table `apiResource` passes on: index, store, show, update and destroy. */
  const ResourceTable: seq<Action> := [
    Action("get", "", "index"),
    Action("post", "", "store"),
    Action("get", "/:id", "show"),
    Action("put", "/:id", "update"),
    Action("delete", "/:id", "destroy")
  ]

  /** An action is routed when the controller has it as a function, `only` (when given) lists
      it, and `except` (when given) does not. */
  predicate Allowed(controller: Controller, options: ResourceOptions, action: string) {
    action in controller && controller[action].Function?
    && (options.only.None? || action in options.only.value)
    && (options.except.None? || action !in options.except.value)
  }

  function RouteOf(path: string, controller: Controller, a: Action, chain: seq<Middleware>): Route
    requires a.name in controller && controller[a.name].Function?
  {
    Route(a.verb, path + a.suffix, controller[a.name].handler, chain)
  }

  /** The routes `addControllerRoutes` registers, in table order. */
  function ControllerRoutes(path: string, controller: Controller, table: seq<Action>, options: ResourceOptions, chain: seq<Middleware>): seq<Route>
  {
    if table == [] then []
    else
      var a := table[|table| - 1];
      ControllerRoutes(path, controller, table[..|table| - 1], options, chain)
        + (if Allowed(controller, options, a.name) then [RouteOf(path, controller, a, chain)] else [])
  }

  lemma ControllerNext(path: string, controller: Controller, table: seq<Action>, i: nat, options: ResourceOptions, chain: seq<Middleware>)
    requires i < |table|
    ensures ControllerRoutes(path, controller, table[..i + 1], options, chain) == ControllerRoutes(path, controller, table[..i], options, chain)
      + (if Allowed(controller, options, table[i].name) then [RouteOf(path, controller, table[i], chain)] else [])
  {
    assert table[..i + 1][..i] == table[..i];
  }

  /** The registered routes are exactly those of the allowed actions: each allowed action's
      route is registered, and every registered route belongs to an allowed action. */
  lemma {:induction false} ControllerRoutesExactly(path: string, controller: Controller, table: seq<Action>, options: ResourceOptions, chain: seq<Middleware>)
    ensures forall j :: 0 <= j < |table| && Allowed(controller, options, table[j].name) ==>
      RouteOf(path, controller, table[j], chain) in ControllerRoutes(path, controller, table, options, chain)
    ensures forall rt :: rt in ControllerRoutes(path, controller, table, options, chain) ==>
      exists j :: 0 <= j < |table| && Allowed(controller, options, table[j].name) && rt == RouteOf(path, controller, table[j], chain)
  {
    if table != [] {
      var init := table[..|table| - 1];
      ControllerRoutesExactly(path, controller, init, options, chain);
      forall j | 0 <= j < |init| ensures init[j] == table[j] { }
    }
  }

  /** Every route of `apiResource` is at the resource path followed by the action's suffix. */
  lemma {:induction false} ControllerPaths(path: string, controller: Controller, table: seq<Action>, options: ResourceOptions, chain: seq<Middleware>)
    ensures forall rt :: rt in ControllerRoutes(path, controller, table, options, chain) ==>
      StartsWith(rt.path, path) && rt.chain == chain
  {
    ControllerRoutesExactly(path, controller, table, options, chain);
    forall rt | rt in ControllerRoutes(path, controller, table, options, chain)
      ensures StartsWith(rt.path, path) && rt.chain == chain
    {
      var j :| 0 <= j < |table| && Allowed(controller, options, table[j].name) && rt == RouteOf(path, controller, table[j], chain);
      assert rt.path[..|path|] == path;
    }
  }

  /** With every action a function and no options, `apiResource` registers the five routes. */
  lemma FullResource(path: string, h: seq<string>, chain: seq<Middleware>)
    requires |h| == 5
    ensures var controller := map["index" := Function(h[0]), "store" := Function(h[1]), "show" := Function(h[2]),
                                  "update" := Function(h[3]), "destroy" := Function(h[4])];
      ControllerRoutes(path, controller, ResourceTable, ResourceOptions(None, None), chain) ==
      [Route("get", path, h[0], chain), Route("post", path, h[1], chain), Route("get", path + "/:id", h[2], chain),
       Route("put", path + "/:id", h[3], chain), Route("delete", path + "/:id", h[4], chain)]
  {
    var controller := map["index" := Function(h[0]), "store" := Function(h[1]), "show" := Function(h[2]),
                          "update" := Function(h[3]), "destroy" := Function(h[4])];
    var o := ResourceOptions(None, None);
    var t := ResourceTable;
    assert path + "" == path;
    assert t[..1][..0] == [];
    assert ControllerRoutes(path, controller, t[..1], o, chain) == [Route("get", path, h[0], chain)];
    assert t[..2][..1] == t[..1];
    assert ControllerRoutes(path, controller, t[..2], o, chain) == [Route("get", path, h[0], chain), Route("post", path, h[1], chain)];
    assert t[..3][..2] == t[..2];
    var r3 := [Route("get", path, h[0], chain), Route("post", path, h[1], chain), Route("get", path + "/:id", h[2], chain)];
    assert ControllerRoutes(path, controller, t[..3], o, chain) == r3;
    assert t[..4][..3] == t[..3];
    var r4 := r3 + [Route("put", path + "/:id", h[3], chain)];
    assert ControllerRoutes(path, controller, t[..4], o, chain) == r4;
    assert t[..5][..4] == t[..4];
    assert t[..5] == t;
    assert ControllerRoutes(path, controller, t, o, chain) == r4 + [Route("delete", path + "/:id", h[4], chain)];
  }

  // ---- handleResponse ----

  /** What a handler returns: a `Response` object, or any other value. */
  datatype Reply = ResponseObject(id: nat) | Plain(value: Value)

  datatype Response =
    | Given(id: nat)
    | Status(code: nat, body: Option<string>)
    | TextBody(text: string)
    | JsonBody(json: Value)

  /** `handleResponse(c, response)`: a `Response` is passed through; `null` and `undefined` give
      204 with no body; a string gives a text body; an object or array a JSON body; any other
      value a 500. */
  function HandleResponse(reply: Reply): (r: Response)
    ensures reply.ResponseObject? ==> r == Given(reply.id)
    ensures r.Given? ==> reply.ResponseObject?
    ensures reply.Plain? && (reply.value.Null? || reply.value.Undefined?) <==> r == Status(204, None)
    ensures reply.Plain? && reply.value.Str? <==> r.TextBody?
    ensures r.TextBody? ==> r.text == reply.value.s
    ensures reply.Plain? && IsObject(reply.value) <==> r.JsonBody?
    ensures r.JsonBody? ==> r.json == reply.value
    ensures reply.Plain? && (reply.value.Num? || reply.value.Bool?) <==> r == Status(500, Some("Internal Server Error"))
  {
    match reply
    case ResponseObject(id) => Given(id)
    case Plain(v) =>
      if v.Null? || v.Undefined? then Status(204, None)
      else if v.Str? then TextBody(v.s)
      else if IsObject(v) then JsonBody(v)
      else Status(500, Some("Internal Server Error"))
  }

  // ---- url ----

  predicate IsLetter(c: char) { ('a' <= c <= 'z') || ('A' <= c <= 'Z') }

  /** The length of the run of letters at the start of `s`. */
  function LetterRun(s: string): (n: nat)
    ensures n <= |s|
    ensures forall i :: 0 <= i < n ==> IsLetter(s[i])
    ensures n < |s| ==> !IsLetter(s[n])
  {
    if s == [] || !IsLetter(s[0]) then 0 else 1 + LetterRun(s[1..])
  }

  /** `path.replace(/:([a-zA-Z]+)/g, (_, key) => params[key])`: each `:name` is replaced by the
      text of that parameter (`undefined` when missing). */
  function Substitute(path: string, params: Props): string
    decreases |path|
  {
    if path == [] then ""
    else if path[0] == ':' && |path| > 1 && IsLetter(path[1]) then
      var n := LetterRun(path[1..]);
      ToText(Lookup(params, path[1..1 + n]).GetOr(Undefined)) + Substitute(path[1 + n..], params)
    else [path[0]] + Substitute(path[1..], params)
  }

  /** A path without parameters is left as it is. */
  lemma {:induction false} SubstituteNoParams(path: string, params: Props)
    requires ':' !in path
    ensures Substitute(path, params) == path
    decreases |path|
  {
    if path != [] {
      assert path[0] != ':';
      assert ':' !in path[1..] by {
        forall i | 0 <= i < |path| - 1 ensures path[1..][i] != ':' { assert path[1..][i] == path[i + 1]; }
      }
      SubstituteNoParams(path[1..], params);
    }
  }

  /** `url(name, params)`: undefined for a name with no (or an empty) registered path. */
  function Url(routeNames: map<string, string>, name: string, params: Props): (r: Option<string>)
    ensures name !in routeNames || routeNames[name] == "" ==> r.None?
    ensures name in routeNames && routeNames[name] != "" && ':' !in routeNames[name] ==> r == Some(routeNames[name])
  {
    if name !in routeNames || routeNames[name] == "" then None
    else
      var path := routeNames[name];
      assert ':' !in path ==> Substitute(path, params) == path by {
        if ':' !in path { SubstituteNoParams(path, params); }
      }
      Some(Substitute(path, params))
  }

  // ---- group ----

  /** The route a group router registers for one request of the callback. */
  function GroupRoute(middleware: Option<seq<Middleware>>, q: RouteRequest, production: bool): Route {
    Route(q.verb, q.path, q.handler, Chain(middleware.GetOr([]), q.middlewares, production))
  }

  /** The routes a group router holds after `group` as written: the group's middleware come
      first in each chain, and the prefix, applied before the callback added any route, is
      applied to none. */
  function GroupRoutes(middleware: Option<seq<Middleware>>, requests: seq<RouteRequest>, production: bool): (r: seq<Route>)
    ensures |r| == |requests|
  {
    if requests == [] then []
    else GroupRoutes(middleware, requests[..|requests| - 1], production) + [GroupRoute(middleware, requests[|requests| - 1], production)]
  }

  /** Each route of the group is the request's own route, behind the group's middleware. */
  lemma {:induction false} GroupRoutesShape(middleware: Option<seq<Middleware>>, requests: seq<RouteRequest>, production: bool)
    ensures var r := GroupRoutes(middleware, requests, production);
      forall k :: 0 <= k < |r| ==> r[k] == GroupRoute(middleware, requests[k], production)
  {
    if requests != [] {
      var front := requests[..|requests| - 1];
      GroupRoutesShape(middleware, front, production);
      var r0 := GroupRoutes(middleware, front, production);
      var r := GroupRoutes(middleware, requests, production);
      assert r == r0 + [GroupRoute(middleware, requests[|requests| - 1], production)];
      forall k | 0 <= k < |r| ensures r[k] == GroupRoute(middleware, requests[k], production) {
        if k < |r0| {
          assert r[k] == r0[k] && front[k] == requests[k];
        }
      }
    }
  }

  lemma GroupNext(middleware: Option<seq<Middleware>>, requests: seq<RouteRequest>, i: nat, production: bool)
    requires i < |requests|
    ensures GroupRoutes(middleware, requests[..i + 1], production) == GroupRoutes(middleware, requests[..i], production)
      + [GroupRoute(middleware, requests[i], production)]
  {
    assert requests[..i + 1][..i] == requests[..i];
  }

  /** A group's prefix never reaches its routes: `group({prefix: "/api"}, ...)` with a callback
      adding `GET /users` mounts `/users`. */
  lemma GroupDropsPrefix(h: string)
    ensures GroupRoutes(None, [RouteRequest("get", "/users", h, [])], true)[0].path == "/users"
  {
  }

  /** The routes of a group as evidently meant: the prefix (when non-empty) is put in front of
      every path the callback registers. */
  function IntendedGroupRoutes(prefix: Option<string>, middleware: Option<seq<Middleware>>, requests: seq<RouteRequest>, production: bool): (r: seq<Route>)
    ensures |r| == |requests|
    ensures forall k :: 0 <= k < |r| ==> r[k].path == prefix.GetOr("") + requests[k].path && r[k].verb == requests[k].verb
    ensures forall k :: 0 <= k < |r| ==> r[k].chain == Chain(middleware.GetOr([]), requests[k].middlewares, production)
  {
    var routes := GroupRoutes(middleware, requests, production);
    GroupRoutesShape(middleware, requests, production);
    Prefixed(prefix.GetOr(""), routes)
  }

  lemma IntendedGroupPrefix(h: string)
    ensures IntendedGroupRoutes(Some("/api"), None, [RouteRequest("get", "/users", h, [])], true)[0].path == "/api/users"
  {
  }

  /** `prefix(p)` over a list of routes: `p` in front of every path. */
  function Prefixed(p: string, routes: seq<Route>): (r: seq<Route>)
    ensures |r| == |routes|
    ensures forall k :: 0 <= k < |r| ==> r[k] == routes[k].(path := p + routes[k].path)
  {
    if routes == [] then [] else [routes[0].(path := p + routes[0].path)] + Prefixed(p, routes[1..])
  }

  /** The router service. `production` is `Bun.env.APP_ENV === "production"`, read as fixed. */
  class RouterService {
    const production: bool
    var routes: seq<Route>
    var mounted: seq<(string, seq<Route>)>
    var routeNames: map<string, string>
    var globalMiddleware: seq<Middleware>

    /** Nothing ever fills `routeNames`. */
    ghost predicate Valid()
      reads this
    {
      routeNames == map[]
    }

    constructor(production: bool)
      ensures this.production == production
      ensures routes == [] && mounted == [] && routeNames == map[] && globalMiddleware == []
      ensures Valid()
    {
      this.production := production;
      routes := [];
      mounted := [];
      routeNames := map[];
      globalMiddleware := [];
    }

    /** `use(middlewares)` / `middleware(...middlewares)`: appended in order. */
    method Use(ms: seq<Middleware>)
      modifies this
      ensures globalMiddleware == old(globalMiddleware) + ms
      ensures routes == old(routes) && mounted == old(mounted) && routeNames == old(routeNames)
    {
      for i := 0 to |ms|
        invariant globalMiddleware == old(globalMiddleware) + ms[..i]
        invariant routes == old(routes) && mounted == old(mounted) && routeNames == old(routeNames)
      {
        assert ms[..i + 1] == ms[..i] + [ms[i]];
        globalMiddleware := globalMiddleware + [ms[i]];
      }
      assert ms[..|ms|] == ms;
    }

    /** `addRoute(method, path, handler, middlewares)`, and the `get`, `post`, `put`, `patch`,
        `delete` and `options` shortcuts, which call it with their method name. */
    method AddRoute(m: string, path: string, handler: string, ms: seq<Middleware>)
      modifies this
      ensures routes == old(routes) + [Route(m, path, handler, Chain(globalMiddleware, ms, production))]
      ensures globalMiddleware == old(globalMiddleware) && mounted == old(mounted) && routeNames == old(routeNames)
    {
      routes := routes + [Route(m, path, handler, Chain(globalMiddleware, ms, production))];
    }

    /** `apiResource(path, controller, options, middlewares)`. */
    method ApiResource(path: string, controller: Controller, options: ResourceOptions, ms: seq<Middleware>)
      modifies this
      ensures routes == old(routes) + ControllerRoutes(path, controller, ResourceTable, options, Chain(globalMiddleware, ms, production))
      ensures globalMiddleware == old(globalMiddleware) && mounted == old(mounted) && routeNames == old(routeNames)
    {
      AddControllerRoutes(path, controller, ResourceTable, options, ms);
    }

    /** `addControllerRoutes`: the loop over the table, one `addRoute` per allowed action. */
    method AddControllerRoutes(path: string, controller: Controller, table: seq<Action>, options: ResourceOptions, ms: seq<Middleware>)
      modifies this
      ensures routes == old(routes) + ControllerRoutes(path, controller, table, options, Chain(globalMiddleware, ms, production))
      ensures globalMiddleware == old(globalMiddleware) && mounted == old(mounted) && routeNames == old(routeNames)
    {
      for i := 0 to |table|
        invariant globalMiddleware == old(globalMiddleware) && mounted == old(mounted) && routeNames == old(routeNames)
        invariant routes == old(routes) + ControllerRoutes(path, controller, table[..i], options, Chain(globalMiddleware, ms, production))
      {
        var a := table[i];
        ControllerNext(path, controller, table, i, options, Chain(globalMiddleware, ms, production));
        if Allowed(controller, options, a.name) {
          AddRoute(a.verb, path + a.suffix, controller[a.name].handler, ms);
        }
      }
      assert table[..|table|] == table;
    }

    /** `prefix(p)`: every route registered so far gets `p` in front of its path. */
    method Prefix(p: string)
      modifies this
      ensures routes == Prefixed(p, old(routes))
      ensures globalMiddleware == old(globalMiddleware) && mounted == old(mounted) && routeNames == old(routeNames)
    {
      var i := 0;
      while i < |routes|
        invariant 0 <= i <= |routes| && |routes| == |old(routes)|
        invariant forall k :: 0 <= k < i ==> routes[k] == old(routes)[k].(path := p + old(routes)[k].path)
        invariant forall k :: i <= k < |routes| ==> routes[k] == old(routes)[k]
        invariant globalMiddleware == old(globalMiddleware) && mounted == old(mounted) && routeNames == old(routeNames)
      {
        routes := routes[i := routes[i].(path := p + routes[i].path)];
        i := i + 1;
      }
    }

    /** `url(name, params)`: always undefined, since no route name is ever recorded. */
    method GetUrl(name: string, params: Props) returns (r: Option<string>)
      requires Valid()
      ensures r.None?
    {
      r := Url(routeNames, name, params);
    }

    /** `group(options, callback)`, with the callback given as the routes it registers: a new
        router takes the group's middleware, then its prefix, then the callback's routes, and
        is mounted at `*`. */
    method Group(prefix: Option<string>, middleware: Option<seq<Middleware>>, requests: seq<RouteRequest>)
      modifies this
      ensures mounted == old(mounted) + [("*", GroupRoutes(middleware, requests, production))]
      ensures routes == old(routes) && globalMiddleware == old(globalMiddleware) && routeNames == old(routeNames)
    {
      var groupRouter := new RouterService(production);
      if middleware.Some? {
        groupRouter.Use(middleware.value);
      }
      if prefix.Some? && prefix.value != "" {
        groupRouter.Prefix(prefix.value);
      }
      assert groupRouter.routes == [] && groupRouter.globalMiddleware == middleware.GetOr([]);
      for i := 0 to |requests|
        invariant fresh(groupRouter)
        invariant routes == old(routes) && mounted == old(mounted) && globalMiddleware == old(globalMiddleware) && routeNames == old(routeNames)
        invariant groupRouter.production == production
        invariant groupRouter.globalMiddleware == middleware.GetOr([])
        invariant groupRouter.routes == GroupRoutes(middleware, requests[..i], production)
      {
        var q := requests[i];
        GroupNext(middleware, requests, i, production);
        groupRouter.AddRoute(q.verb, q.path, q.handler, q.middlewares);
      }
      assert requests[..|requests|] == requests;
      mounted := mounted + [("*", groupRouter.routes)];
    }
  }
}
