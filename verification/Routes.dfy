/** The route table of one named server, and the dispatch of a request path to the
    agent registered under its longest matching prefix. */
module Routes {
  import opened Wrappers

  /** Keys are compared by id and route; a route's configuration rides along with
      its runtime. */
  datatype RouteKey = RouteKey(id: string, route: string)

  type Runtime = nat
  type Table = map<RouteKey, Runtime>

  datatype Registration = Registered(table: Table) | IdTaken | RouteTaken
  datatype Removal = Unregistered(table: Table) | UnknownId

  predicate IdIn(t: Table, id: string) { exists k :: k in t && k.id == id }

  predicate RouteIn(t: Table, route: string) { exists k :: k in t && k.route == route }

  /** No agent and no public route is registered twice. */
  ghost predicate Distinct(t: Table) {
    forall a, b :: a in t && b in t && a != b ==> a.id != b.id && a.route != b.route
  }

  function Register(t: Table, key: RouteKey, runtime: Runtime): Registration {
    if IdIn(t, key.id) then IdTaken
    else if RouteIn(t, key.route) then RouteTaken
    else Registered(t[key := runtime])
  }

  ghost function Unregister(t: Table, id: string): Removal {
    if IdIn(t, id) then
      var k :| k in t && k.id == id;
      Unregistered(t - {k})
    else UnknownId
  }

  predicate RouteMatches(route: string, path: string) {
    path == route || (route <= path && |path| > |route| && path[|route|] == '/')
  }

  /** `path` is `route` with `rest` behind it, cut at the end or at a slash. */
  predicate Behind(route: string, path: string, rest: string) {
    route + rest == path && (rest == "" || rest[0] == '/')
  }

  /** What a route matches: itself and everything below it. */
  lemma MatchingIsPrefix(route: string, path: string)
    ensures RouteMatches(route, path) <==> exists rest :: Behind(route, path, rest)
    ensures forall rest :: RouteMatches(route, route + rest) <==> rest == "" || rest[0] == '/'
  {
    if RouteMatches(route, path) {
      assert route + path[|route|..] == path;
      assert Behind(route, path, path[|route|..]);
    }
    forall rest ensures RouteMatches(route, route + rest) <==> rest == "" || rest[0] == '/' {
      assert route <= route + rest;
    }
  }

  /** `k` is a longest registered route in front of `path`. */
  ghost predicate Longest(t: Table, path: string, k: RouteKey) {
    && k in t && (exists rest :: Behind(k.route, path, rest))
    && forall other, rest :: other in t && Behind(other.route, path, rest) ==> |other.route| <= |k.route|
  }

  /** Which registered route serves a path does not depend on the order in which
      the table is walked. */
  lemma LongestIsUnique(t: Table, path: string, a: RouteKey, b: RouteKey)
    requires Distinct(t) && Longest(t, path, a) && Longest(t, path, b)
    ensures a == b
  {
    var restA :| Behind(a.route, path, restA);
    var restB :| Behind(b.route, path, restB);
    assert a.route == path[..|a.route|] && b.route == path[..|b.route|];
  }

  datatype Edit = Add(key: RouteKey, runtime: Runtime) | Drop(id: string)

  ghost function Edited(t: Table, e: Edit): Table {
    match e
    case Add(key, runtime) => (var r := Register(t, key, runtime); if r.Registered? then r.table else t)
    case Drop(id) => (var r := Unregister(t, id); if r.Unregistered? then r.table else t)
  }

  ghost function AfterEdits(edits: seq<Edit>): Table {
    if edits == [] then map[] else Edited(AfterEdits(edits[..|edits| - 1]), edits[|edits| - 1])
  }

  lemma EditKeepsDistinct(t: Table, e: Edit)
    requires Distinct(t)
    ensures Distinct(Edited(t, e))
  {
  }

  lemma {:induction false} EditsKeepDistinct(edits: seq<Edit>)
    ensures Distinct(AfterEdits(edits))
  {
    if edits != [] {
      EditsKeepDistinct(edits[..|edits| - 1]);
      EditKeepsDistinct(AfterEdits(edits[..|edits| - 1]), edits[|edits| - 1]);
    }
  }

  /** After any history of registrations and removals, unregistering an id takes
      back exactly what registering it added. */
  lemma UnregisterUndoesRegister(edits: seq<Edit>, key: RouteKey, runtime: Runtime)
    requires Register(AfterEdits(edits), key, runtime).Registered?
    ensures Unregister(Register(AfterEdits(edits), key, runtime).table, key.id) == Unregistered(AfterEdits(edits))
  {
    var t := AfterEdits(edits);
    EditsKeepDistinct(edits);
    assert t[key := runtime] - {key} == t;
    EditKeepsDistinct(t, Add(key, runtime));
  }

  datatype Rewritten = Rewritten(path: string, query: Option<string>) | NoMatch

  /** The request as the agent behind `route` sees it. */
  function RewriteRoutePrefix(path: string, query: Option<string>, route: string): Rewritten {
    if !(route <= path) then NoMatch
    else
      var suffix := path[|route|..];
      if suffix != "" && suffix[0] != '/' then NoMatch
      else Rewritten(if suffix == "" then "/" else suffix, query)
  }

  /** What the agent of `route` sees of `path`: what is behind the route, or the root
      if nothing is. */
  predicate Seen(path: string, route: string, seen: string) {
    Behind(route, path, if route == path && seen == "/" then "" else seen)
  }

  datatype Dispatched = NotFound | RewriteFailed | Forwarded(key: RouteKey, runtime: Runtime, request: Rewritten)

  class RouteTable {
    var routes: Table

    constructor ()
      ensures routes == map[]
    {
      routes := map[];
    }

    method Add(key: RouteKey, runtime: Runtime) returns (r: Registration)
      modifies this
      ensures r == Register(old(routes), key, runtime)
      ensures routes == Edited(old(routes), Edit.Add(key, runtime))
      ensures r.IdTaken? <==> exists k :: k in old(routes) && k.id == key.id
      ensures r.Registered? <==> forall k :: k in old(routes) ==> k.id != key.id && k.route != key.route
      ensures routes == if r.Registered? then old(routes)[key := runtime] else old(routes)
    {
      r := Register(routes, key, runtime);
      if r.Registered? { routes := routes[key := runtime]; }
    }

    method Remove(id: string) returns (ok: bool)
      requires Distinct(routes)
      modifies this
      ensures ok <==> IdIn(old(routes), id)
      ensures routes == Edited(old(routes), Drop(id))
      ensures forall k :: k in routes <==> k in old(routes) && k.id != id
      ensures forall k :: k in routes ==> routes[k] == old(routes)[k]
    {
      ok := false;
      var pending := routes.Keys;
      while pending != {}
        invariant pending <= routes.Keys && routes == old(routes)
        invariant forall k :: k in routes.Keys - pending ==> k.id != id
        decreases |pending|
      {
        var k :| k in pending;
        pending := pending - {k};
        if k.id == id {
          routes := routes - {k};
          return true;
        }
      }
    }

    /** One request on a running server. The walk over the table takes any order,
        and of equally long matches it keeps the last it meets; `buildable` says
        which paths and queries make a URI. */
    method Dispatch(path: string, query: Option<string>, buildable: (string, Option<string>) -> bool) returns (d: Dispatched)
      requires Distinct(routes)
      ensures d.NotFound? <==> forall k, rest :: k in routes ==> !Behind(k.route, path, rest)
      ensures d.RewriteFailed? ==>
                exists k, rest :: Longest(routes, path, k) && Seen(path, k.route, rest) && !buildable(rest, query)
      ensures d.Forwarded? ==> d.request.Rewritten? && buildable(d.request.path, query)
      ensures d.Forwarded? ==>
                && Longest(routes, path, d.key) && d.runtime == routes[d.key]
                && (forall k :: Longest(routes, path, k) ==> k == d.key)
                && d.request.query == query && Seen(path, d.key.route, d.request.path)
    {
      var best: Option<RouteKey> := None;
      var pending := routes.Keys;
      while pending != {}
        invariant pending <= routes.Keys
        invariant best.None? ==> forall k :: k in routes.Keys - pending ==> !RouteMatches(k.route, path)
        invariant best.Some? ==>
                    && best.value in routes && RouteMatches(best.value.route, path)
                    && forall k :: k in routes.Keys - pending && RouteMatches(k.route, path) ==>
                         |k.route| <= |best.value.route|
        decreases |pending|
      {
        var k :| k in pending;
        pending := pending - {k};
        if RouteMatches(k.route, path) && (best.None? || |k.route| >= |best.value.route|) {
          best := Some(k);
        }
      }
      forall k | k in routes ensures RouteMatches(k.route, path) <==> exists rest :: Behind(k.route, path, rest) {
        MatchingIsPrefix(k.route, path);
      }
      if best.None? { return NotFound; }
      var key := best.value;
      forall k | Longest(routes, path, k) ensures k == key { LongestIsUnique(routes, path, k, key); }
      assert key.route + path[|key.route|..] == path;
      var request := RewriteRoutePrefix(path, query, key.route);
      assert request.Rewritten? && Seen(path, key.route, request.path);
      if request.NoMatch? || !buildable(request.path, request.query) { return RewriteFailed; }
      return Forwarded(key, routes[key], request);
    }
  }
}
