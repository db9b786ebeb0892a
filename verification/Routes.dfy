/** The HTTP route table: the bundle the server builds
    (members/nullnet-server/src/nullnet_grpc_impl.rs:197-254), the table the proxy
    makes of it and how it resolves a request (members/nullnet-proxy/src/routes.rs:69-129). */
module Routes {
  import opened Basics

  datatype Target =
    | Service(name: string)
    | Redirect(to: string, status: nat, preservePath: bool, preserveQuery: bool)

  datatype Route = Route(host: string, prefix: string, target: Option<Target>, strip: bool)

  datatype Match =
    | Backend(service: string, forward: string)
    | Redirected(to: string, status: nat, preservePath: bool, preserveQuery: bool, suffix: string)

  datatype Resolution = Fallback | Matched(m: Match) | NotFound

  const DEFAULT_STATUS: nat := 301
  const U16_MAX: nat := 65535

  // ------------------------------------------------------------------ one route

  predicate Covers(prefix: string, path: string) {
    |prefix| <= |path| && path[..|prefix|] == prefix
  }

  /** The route matches the path and leads somewhere. */
  predicate Hits(r: Route, path: string) {
    Covers(r.prefix, path) && r.target.Some?
  }

  function Normalized(suffix: string): (r: string)
    ensures r != "" && r[0] == '/'
    ensures |suffix| > 0 && suffix[0] == '/' ==> r == suffix
  {
    if suffix == "" then "/" else if suffix[0] == '/' then suffix else "/" + suffix
  }

  function Dispatch(r: Route, path: string): Match
    requires Hits(r, path)
  {
    var suffix := path[|r.prefix|..];
    match r.target.value
    case Service(name) => Backend(name, if r.strip then Normalized(suffix) else path)
    case Redirect(to, status, preservePath, preserveQuery) =>
      Redirected(to, if status <= U16_MAX then status else DEFAULT_STATUS, preservePath, preserveQuery, suffix)
  }

  // -------------------------------------------------------------------- the table

  function OfHost(bundle: seq<Route>, host: string): seq<Route> {
    if bundle == [] then []
    else
      var last := bundle[|bundle| - 1];
      OfHost(bundle[..|bundle| - 1], host) + (if last.host == host then [last] else [])
  }

  /** After every route whose prefix is at least as long. */
  function Inserted(sorted: seq<Route>, r: Route): seq<Route> {
    if sorted == [] then [r]
    else if |sorted[0].prefix| >= |r.prefix| then [sorted[0]] + Inserted(sorted[1..], r)
    else [r] + sorted
  }

  function Sorted(routes: seq<Route>): seq<Route> {
    if routes == [] then [] else Inserted(Sorted(routes[..|routes| - 1]), routes[|routes| - 1])
  }

  type Table = map<string, seq<Route>>

  function HostsOf(bundle: seq<Route>): set<string> {
    set r | r in bundle :: r.host
  }

  function TableOf(bundle: seq<Route>): Table {
    map h | h in HostsOf(bundle) :: Sorted(OfHost(bundle, h))
  }

  lemma {:induction false} InsertedAt(sorted: seq<Route>, r: Route, k: nat)
    requires k <= |sorted|
    requires forall i :: 0 <= i < k ==> |sorted[i].prefix| >= |r.prefix|
    requires k < |sorted| ==> |sorted[k].prefix| < |r.prefix|
    ensures Inserted(sorted, r) == sorted[..k] + [r] + sorted[k..]
  {
    if k > 0 {
      InsertedAt(sorted[1..], r, k - 1);
      assert sorted[..k] == [sorted[0]] + sorted[1..][..k - 1];
      assert sorted[1..][k - 1..] == sorted[k..];
    }
  }

  method InsertRoute(sorted: seq<Route>, r: Route) returns (out: seq<Route>)
    ensures out == Inserted(sorted, r)
  {
    var k := 0;
    while k < |sorted| && |sorted[k].prefix| >= |r.prefix|
      invariant 0 <= k <= |sorted|
      invariant forall i :: 0 <= i < k ==> |sorted[i].prefix| >= |r.prefix|
    {
      k := k + 1;
    }
    InsertedAt(sorted, r, k);
    out := sorted[..k] + [r] + sorted[k..];
  }

  method SortByPrefix(routes: seq<Route>) returns (sorted: seq<Route>)
    ensures sorted == Sorted(routes)
  {
    sorted := [];
    for i := 0 to |routes|
      invariant sorted == Sorted(routes[..i])
    {
      assert routes[..i + 1][..i] == routes[..i];
      sorted := InsertRoute(sorted, routes[i]);
    }
    assert routes[..|routes|] == routes;
  }

  /** `group` lists, under each host of `bundle`, its routes in order. */
  ghost predicate Groups(group: Table, bundle: seq<Route>) {
    && (forall h :: h in group <==> h in HostsOf(bundle))
    && (forall h :: h in group ==> group[h] == OfHost(bundle, h))
  }

  function Added(group: Table, r: Route): Table {
    group[r.host := (if r.host in group then group[r.host] else []) + [r]]
  }

  lemma GroupOne(group: Table, bundle: seq<Route>, r: Route)
    requires Groups(group, bundle)
    ensures Groups(Added(group, r), bundle + [r])
  {
    HostsAppend(bundle, r);
    forall h | h in Added(group, r)
      ensures Added(group, r)[h] == OfHost(bundle + [r], h)
    {
      OfHostAppend(bundle, r, h);
      if h == r.host && h !in group {
        NoneOfHost(bundle, h);
      }
    }
  }

  lemma HostsAppend(bundle: seq<Route>, r: Route)
    ensures HostsOf(bundle + [r]) == HostsOf(bundle) + {r.host}
    ensures r.host !in HostsOf(bundle) ==> forall q :: q in bundle ==> q.host != r.host
  {
  }

  lemma OfHostAppend(bundle: seq<Route>, r: Route, h: string)
    ensures OfHost(bundle + [r], h) == OfHost(bundle, h) + (if r.host == h then [r] else [])
  {
  }

  lemma {:induction false} NoneOfHost(bundle: seq<Route>, host: string)
    requires forall r :: r in bundle ==> r.host != host
    ensures OfHost(bundle, host) == []
  {
    if bundle != [] {
      NoneOfHost(bundle[..|bundle| - 1], host);
    }
  }

  /** Group the routes by host, then put each host's longest prefixes first. */
  method FromBundle(bundle: seq<Route>) returns (table: Table)
    ensures table == TableOf(bundle)
  {
    var group: Table := map[];
    for i := 0 to |bundle|
      invariant Groups(group, bundle[..i])
    {
      assert bundle[..i + 1] == bundle[..i] + [bundle[i]];
      GroupOne(group, bundle[..i], bundle[i]);
      group := Added(group, bundle[i]);
    }
    assert bundle[..|bundle|] == bundle;
    table := map[];
    var hosts := group.Keys;
    while hosts != {}
      invariant hosts <= group.Keys
      invariant table == map h | h in group && h !in hosts :: Sorted(group[h])
      decreases |hosts|
    {
      var h :| h in hosts;
      var sorted := SortByPrefix(group[h]);
      table, hosts := table[h := sorted], hosts - {h};
    }
  }

  function FirstHit(routes: seq<Route>, path: string): (r: Option<Route>)
    ensures r.Some? ==> Hits(r.value, path)
  {
    if routes == [] then None else if Hits(routes[0], path) then Some(routes[0]) else FirstHit(routes[1..], path)
  }

  function Resolved(table: Table, host: string, path: string): Resolution {
    if host !in table then Fallback
    else
      var hit := FirstHit(table[host], path);
      if hit.None? then NotFound else Matched(Dispatch(hit.value, path))
  }

  method Resolve(table: Table, host: string, path: string) returns (r: Resolution)
    ensures r == Resolved(table, host, path)
  {
    if host !in table {
      return Fallback;
    }
    var routes := table[host];
    for i := 0 to |routes|
      invariant FirstHit(routes, path) == FirstHit(routes[i..], path)
    {
      assert routes[i..][1..] == routes[i + 1..];
      if Covers(routes[i].prefix, path) && routes[i].target.Some? {
        return Matched(Dispatch(routes[i], path));
      }
    }
    r := NotFound;
  }

  // -------------------------------------------------------------------- the bundle

  datatype Rule = Rule(host: string, path: string, target: Target, strip: bool)
  datatype ServiceInfo = ServiceInfo(name: string, http: bool, reachable: bool)

  function Explicit(rule: Rule): Route {
    Route(rule.host, rule.path, Some(rule.target), rule.target.Service? && rule.strip)
  }

  function Implicit(name: string): Route {
    Route(name, "/", Some(Service(name)), false)
  }

  predicate NamedByRule(rules: seq<Rule>, name: string) {
    exists rule :: rule in rules && rule.host == name
  }

  predicate NeedsImplicit(rules: seq<Rule>, s: ServiceInfo) {
    s.http && s.reachable && !NamedByRule(rules, s.name)
  }

  function ImplicitRoutes(rules: seq<Rule>, services: seq<ServiceInfo>): seq<Route> {
    if services == [] then []
    else
      var last := services[|services| - 1];
      ImplicitRoutes(rules, services[..|services| - 1])
      + (if NeedsImplicit(rules, last) then [Implicit(last.name)] else [])
  }

  function ExplicitRoutes(rules: seq<Rule>): seq<Route> {
    seq(|rules|, i requires 0 <= i < |rules| => Explicit(rules[i]))
  }

  function Bundle(rules: seq<Rule>, services: seq<ServiceInfo>): seq<Route> {
    ExplicitRoutes(rules) + ImplicitRoutes(rules, services)
  }

  method BuildBundle(rules: seq<Rule>, services: seq<ServiceInfo>) returns (bundle: seq<Route>)
    ensures bundle == Bundle(rules, services)
  {
    var hosts := set rule | rule in rules :: rule.host;
    bundle := ExplicitRoutes(rules);
    for i := 0 to |services|
      invariant bundle == ExplicitRoutes(rules) + ImplicitRoutes(rules, services[..i])
    {
      assert services[..i + 1][..i] == services[..i];
      if services[i].http && services[i].reachable && services[i].name !in hosts {
        bundle := bundle + [Implicit(services[i].name)];
      }
    }
    assert services[..|services|] == services;
  }
}
