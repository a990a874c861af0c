/** The project router: six (method, path pattern) entries mounted at
    `/api/projects`, each behind the `protect` gate, tried in declaration
    order. Paths are given as their '/'-separated segments. The gate itself
    is not modelled: its verdict arrives as the resolved user, if any. */
module ProjectRoutes {
  import opened Wrappers
  import opened JsValues
  import opened Documents
  import C = ProjectController

  datatype Method = GET | HEAD | POST | PUT | DELETE | PATCH

  /** A literal path segment, or a `:id` parameter. */
  datatype Segment = Lit(text: string) | Param

  datatype Handler = GetProjects | GetProjectById | CreateProject | AddTaskToProject | UpdateProject | DeleteProject

  /** Route-level middleware; `Protect` is the bearer-token gate. */
  datatype Middleware = Protect

  datatype Route = Route(verb: Method, pattern: seq<Segment>, chain: seq<Middleware>, handler: Handler)

  /** Where the router is mounted. */
  const Mount: seq<string> := ["api", "projects"]

  const Table: seq<Route> := [
    Route(GET, [], [Protect], GetProjects),
    Route(GET, [Param], [Protect], GetProjectById),
    Route(POST, [], [Protect], CreateProject),
    Route(POST, [Param, Lit("tasks")], [Protect], AddTaskToProject),
    Route(PUT, [Param], [Protect], UpdateProject),
    Route(DELETE, [Param], [Protect], DeleteProject)
  ]

  function Lower(c: char): char {
    if 'A' <= c <= 'Z' then (c as int + 32) as char else c
  }

  /** Path matching is case-insensitive (ASCII letters). */
  predicate SameText(a: string, b: string) {
    |a| == |b| && forall i :: 0 <= i < |a| ==> Lower(a[i]) == Lower(b[i])
  }

  /** A HEAD request is served by the GET route for the same path. */
  predicate Serves(routeMethod: Method, m: Method) {
    routeMethod == m || (routeMethod == GET && m == HEAD)
  }

  predicate Fits(p: Segment, seg: string) {
    match p
    case Lit(t) => SameText(t, seg)
    case Param => seg != ""
  }

  /** The path below the mount point, if the path lies under it. */
  function Below(path: seq<string>): Option<seq<string>> {
    if |path| >= 2 && SameText(path[0], Mount[0]) && SameText(path[1], Mount[1]) then Some(path[2..]) else None
  }

  /** Any spelling of the mount point followed by `rest` gives back `rest`,
      and every path under the mount is such a spelling followed by what `Below` returns. */
  lemma BelowMount(p: seq<string>, rest: seq<string>, path: seq<string>)
    ensures |p| == 2 && SameText(p[0], "api") && SameText(p[1], "projects") ==> Below(p + rest) == Some(rest)
    ensures Below(path).Some? ==>
              && |path| >= 2 && SameText(path[0], "api") && SameText(path[1], "projects")
              && path == path[..2] + Below(path).value
  {
  }

  /** Matches a pattern against a path; the result lists the values of its parameters. */
  function Bind(pattern: seq<Segment>, path: seq<string>): (r: Option<seq<string>>)
    ensures r.Some? <==> |path| == |pattern| && forall i :: 0 <= i < |path| ==> Fits(pattern[i], path[i])
    ensures r.Some? && |pattern| > 0 && pattern[0] == Param ==> |r.value| > 0 && r.value[0] == path[0]
  {
    if pattern == [] then (if path == [] then Some([]) else None)
    else if path == [] || !Fits(pattern[0], path[0]) then None
    else match Bind(pattern[1..], path[1..])
      case None => None
      case Some(rest) => if pattern[0] == Param then Some([path[0]] + rest) else Some(rest)
  }

  predicate Matches(route: Route, m: Method, rest: seq<string>) {
    Serves(route.verb, m) && Bind(route.pattern, rest).Some?
  }

  datatype Matched = Matched(route: Route, params: seq<string>)

  /** Express's rule: the first route, in declaration order, that matches. */
  function FirstMatch(routes: seq<Route>, m: Method, rest: seq<string>): (r: Option<Matched>)
    ensures r.Some? ==> exists k :: && 0 <= k < |routes| && routes[k] == r.value.route && Matches(routes[k], m, rest)
                                    && forall j :: 0 <= j < k ==> !Matches(routes[j], m, rest)
    ensures r.Some? ==> Bind(r.value.route.pattern, rest) == Some(r.value.params)
    ensures r.None? <==> forall k :: 0 <= k < |routes| ==> !Matches(routes[k], m, rest)
  {
    if routes == [] then None
    else if Matches(routes[0], m, rest) then Some(Matched(routes[0], Bind(routes[0].pattern, rest).value))
    else FirstMatch(routes[1..], m, rest)
  }

  /** No two entries of the table accept the same request, so declaration order never matters. */
  lemma AtMostOneRoute(m: Method, rest: seq<string>, i: nat, j: nat)
    requires i < |Table| && j < |Table|
    requires Matches(Table[i], m, rest) && Matches(Table[j], m, rest)
    ensures i == j
  {
  }

  function Dispatch(m: Method, path: seq<string>): Option<Matched> {
    match Below(path)
    case None => None
    case Some(rest) => FirstMatch(Table, m, rest)
  }

  /** The router sends a matching request to that table entry and no other. */
  lemma DispatchFinds(m: Method, path: seq<string>, k: nat)
    requires k < |Table| && Below(path).Some? && Matches(Table[k], m, Below(path).value)
    ensures Dispatch(m, path) == Some(Matched(Table[k], Bind(Table[k].pattern, Below(path).value).value))
  {
    var rest := Below(path).value;
    var r := FirstMatch(Table, m, rest);
    var k' :| 0 <= k' < |Table| && Table[k'] == r.value.route && Matches(Table[k'], m, rest);
    AtMostOneRoute(m, rest, k, k');
  }

  /** `/api/projects` */
  predicate AtRoot(path: seq<string>) {
    |path| == 2 && SameText(path[0], "api") && SameText(path[1], "projects")
  }

  /** `/api/projects/<id>` */
  predicate AtItem(path: seq<string>) {
    |path| == 3 && SameText(path[0], "api") && SameText(path[1], "projects") && path[2] != ""
  }

  /** `/api/projects/<id>/tasks` */
  predicate AtTasks(path: seq<string>) {
    |path| == 4 && SameText(path[0], "api") && SameText(path[1], "projects") && path[2] != ""
    && SameText(path[3], "tasks")
  }

  /** A one-segment pattern against a one-segment path. */
  lemma BindOne(p: Segment, seg: string)
    requires Fits(p, seg)
    ensures Bind([p], [seg]) == Some(if p == Param then [seg] else [])
  {
    assert [p][1..] == [] && [seg][1..] == [] && Bind([], []) == Some([]);
    assert [seg] + [] == [seg];
  }

  /** Which entry each request shape reaches, and with which `:id`. */
  lemma DispatchTable(m: Method, path: seq<string>)
    ensures AtRoot(path) && (m == GET || m == HEAD) ==> Dispatch(m, path) == Some(Matched(Table[0], []))
    ensures AtItem(path) && (m == GET || m == HEAD) ==> Dispatch(m, path) == Some(Matched(Table[1], [path[2]]))
    ensures AtRoot(path) && m == POST ==> Dispatch(m, path) == Some(Matched(Table[2], []))
    ensures AtTasks(path) && m == POST ==> Dispatch(m, path) == Some(Matched(Table[3], [path[2]]))
    ensures AtItem(path) && m == PUT ==> Dispatch(m, path) == Some(Matched(Table[4], [path[2]]))
    ensures AtItem(path) && m == DELETE ==> Dispatch(m, path) == Some(Matched(Table[5], [path[2]]))
  {
    if AtRoot(path) {
      assert Below(path) == Some([]);
      if m == GET || m == HEAD {
        DispatchFinds(m, path, 0);
      } else if m == POST {
        DispatchFinds(m, path, 2);
      }
    } else if AtItem(path) {
      assert path[2..] == [path[2]];
      BindOne(Param, path[2]);
      if m == GET || m == HEAD {
        DispatchFinds(m, path, 1);
      } else if m == PUT {
        DispatchFinds(m, path, 4);
      } else if m == DELETE {
        DispatchFinds(m, path, 5);
      }
    } else if AtTasks(path) && m == POST {
      var rest := path[2..];
      assert rest[1..] == [path[3]];
      BindOne(Lit("tasks"), path[3]);
      assert Table[3].pattern[1..] == [Lit("tasks")];
      assert [path[2]] + [] == [path[2]];
      DispatchFinds(m, path, 3);
    }
  }

  datatype Request = Request(verb: Method, path: seq<string>, body: C.Payload)

  /** The environment a handler runs in: the store's fault, the id the store
      would give a new document, and the date conversion. */
  datatype Env = Env(fault: C.Fault, newId: ProjectId, parseDate: Value -> Value)

  /** No route (Express's own 404), stopped by the gate, answered by a
      handler for a resolved user, or a handler reached with no user at all
      (it would then read `req.user.id` of nothing; that path is not modelled). */
  datatype Outcome = NoRoute | Denied | Handled(handler: Handler, step: C.Step) | Unguarded(handler: Handler)

  /** Every entry of the table runs `protect` before its handler. */
  lemma EveryRouteGated()
    ensures forall k :: 0 <= k < |Table| ==> Table[k].chain == [Protect]
  {
  }

  /** Runs an entry's middleware chain: `protect` lets a request on only when it resolved to a user. */
  predicate Passes(chain: seq<Middleware>, user: Option<UserId>) {
    forall k :: 0 <= k < |chain| ==> (chain[k] == Protect ==> user.Some?)
  }

  /** Whatever entry a request reaches, its chain stops a request without a user. */
  lemma DispatchGated(m: Method, path: seq<string>)
    ensures Dispatch(m, path).Some? ==> !Passes(Dispatch(m, path).value.route.chain, None)
  {
    if Dispatch(m, path).Some? {
      var rest := Below(path).value;
      var route := Dispatch(m, path).value.route;
      var k :| 0 <= k < |Table| && Table[k] == route && Matches(Table[k], m, rest);
      EveryRouteGated();
      assert route.chain[0] == Protect;
    }
  }

  /** Runs the controller function an entry names. Every one of them keeps
      the store well formed and confines its effect to the caller's projects. */
  function Invoke(h: Handler, s: seq<Doc>, caller: UserId, id: ProjectId, body: C.Payload, env: Env): (r: C.Step)
    requires UniqueIds(s)
    ensures UniqueIds(r.store)
    ensures C.Untouched(s, r.store, caller)
    ensures C.ShowsOnlyOwn(r.response.body, caller)
  {
    match h
    case GetProjects => C.GetProjects(s, caller, env.fault)
    case GetProjectById => C.GetProjectById(s, caller, id, env.fault)
    case CreateProject => C.CreateProject(s, caller, body, env.newId, env.parseDate, env.fault)
    case AddTaskToProject => C.AddTaskToProject(s, caller, id, body, env.fault)
    case UpdateProject => C.UpdateProject(s, caller, id, body, env.fault)
    case DeleteProject => C.DeleteProject(s, caller, id, env.fault)
  }

  /** One request through the mounted router: the matched entry's chain,
      then its handler. `user` is what `protect` resolves the bearer token to. */
  function Serve(s: seq<Doc>, user: Option<UserId>, req: Request, env: Env): (o: Outcome)
    requires UniqueIds(s)
    ensures !o.Unguarded?
    ensures o.Handled? ==> user.Some?
    ensures o.Handled? ==> && C.Untouched(s, o.step.store, user.value)
                           && C.ShowsOnlyOwn(o.step.response.body, user.value)
                           && UniqueIds(o.step.store)
    ensures Dispatch(req.verb, req.path).None? <==> o == NoRoute
    ensures Dispatch(req.verb, req.path).Some? && user.None? ==> o == Denied
  {
    match Dispatch(req.verb, req.path)
    case None => NoRoute
    case Some(Matched(route, params)) =>
      DispatchGated(req.verb, req.path);
      if !Passes(route.chain, user) then Denied
      else match user
        case None => Unguarded(route.handler)
        case Some(caller) =>
          var id := if |params| > 0 then params[0] else "";
          Handled(route.handler, Invoke(route.handler, s, caller, id, req.body, env))
  }

  /** A request from a resolved user runs the handler of the entry it reaches. */
  lemma ServeMatched(s: seq<Doc>, caller: UserId, req: Request, env: Env, route: Route, params: seq<string>)
    requires UniqueIds(s) && Dispatch(req.verb, req.path) == Some(Matched(route, params))
    ensures Serve(s, Some(caller), req, env)
            == Handled(route.handler, Invoke(route.handler, s, caller, if |params| > 0 then params[0] else "", req.body, env))
  {
  }

  /** GET and POST on `/api/projects` reach getProjects and createProject. */
  lemma ServeCollection(s: seq<Doc>, caller: UserId, req: Request, env: Env)
    requires UniqueIds(s) && AtRoot(req.path)
    ensures req.verb == GET || req.verb == HEAD ==>
              Serve(s, Some(caller), req, env) == Handled(GetProjects, C.GetProjects(s, caller, env.fault))
    ensures req.verb == POST ==>
              Serve(s, Some(caller), req, env)
              == Handled(CreateProject, C.CreateProject(s, caller, req.body, env.newId, env.parseDate, env.fault))
  {
    DispatchTable(req.verb, req.path);
    if req.verb == GET || req.verb == HEAD {
      ServeMatched(s, caller, req, env, Table[0], []);
    } else if req.verb == POST {
      ServeMatched(s, caller, req, env, Table[2], []);
    }
  }

  /** GET on `/api/projects/:id` reaches getProjectById on that id. */
  lemma ServeShow(s: seq<Doc>, caller: UserId, req: Request, env: Env)
    requires UniqueIds(s) && AtItem(req.path) && (req.verb == GET || req.verb == HEAD)
    ensures Serve(s, Some(caller), req, env) == Handled(GetProjectById, C.GetProjectById(s, caller, req.path[2], env.fault))
  {
    DispatchTable(req.verb, req.path);
    ServeMatched(s, caller, req, env, Table[1], [req.path[2]]);
  }

  /** PUT on `/api/projects/:id` reaches updateProject on that id. */
  lemma ServeUpdate(s: seq<Doc>, caller: UserId, req: Request, env: Env)
    requires UniqueIds(s) && AtItem(req.path) && req.verb == PUT
    ensures Serve(s, Some(caller), req, env)
            == Handled(UpdateProject, C.UpdateProject(s, caller, req.path[2], req.body, env.fault))
  {
    DispatchTable(req.verb, req.path);
    ServeMatched(s, caller, req, env, Table[4], [req.path[2]]);
  }

  /** DELETE on `/api/projects/:id` reaches deleteProject on that id. */
  lemma ServeDelete(s: seq<Doc>, caller: UserId, req: Request, env: Env)
    requires UniqueIds(s) && AtItem(req.path) && req.verb == DELETE
    ensures Serve(s, Some(caller), req, env) == Handled(DeleteProject, C.DeleteProject(s, caller, req.path[2], env.fault))
  {
    DispatchTable(req.verb, req.path);
    ServeMatched(s, caller, req, env, Table[5], [req.path[2]]);
  }

  /** POST on `/api/projects/:id/tasks` reaches addTaskToProject. */
  lemma ServeTasks(s: seq<Doc>, caller: UserId, req: Request, env: Env)
    requires UniqueIds(s) && AtTasks(req.path) && req.verb == POST
    ensures Serve(s, Some(caller), req, env)
            == Handled(AddTaskToProject, C.AddTaskToProject(s, caller, req.path[2], req.body, env.fault))
  {
    DispatchTable(req.verb, req.path);
    ServeMatched(s, caller, req, env, Table[3], [req.path[2]]);
  }
}
