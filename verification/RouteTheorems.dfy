/** What a request is answered with, said of the bundle alone. */
module RouteTheorems {
  import opened Basics
  import opened Routes

  // ---------------------------------------------------- any stable sort will do

  ghost predicate Descending(routes: seq<Route>) {
    forall i, j :: 0 <= i < j < |routes| ==> |routes[i].prefix| >= |routes[j].prefix|
  }

  function OfLength(routes: seq<Route>, n: nat): seq<Route> {
    if routes == [] then []
    else if |routes[0].prefix| == n then [routes[0]] + OfLength(routes[1..], n)
    else OfLength(routes[1..], n)
  }

  lemma OfLengthCons(r: Route, rest: seq<Route>, n: nat)
    ensures OfLength([r] + rest, n) == if |r.prefix| == n then [r] + OfLength(rest, n) else OfLength(rest, n)
  {
  }

  lemma {:induction false} InsertedOfLength(sorted: seq<Route>, r: Route, n: nat)
    requires Descending(sorted)
    ensures OfLength(Inserted(sorted, r), n) == if |r.prefix| == n then OfLength(sorted, n) + [r] else OfLength(sorted, n)
  {
    if sorted == [] {
      OfLengthCons(r, [], n);
    } else if |sorted[0].prefix| >= |r.prefix| {
      InsertedOfLength(sorted[1..], r, n);
      OfLengthCons(sorted[0], Inserted(sorted[1..], r), n);
      OfLengthCons(sorted[0], sorted[1..], n);
      assert sorted == [sorted[0]] + sorted[1..];
    } else {
      OfLengthCons(r, sorted, n);
      if |r.prefix| == n {
        ShorterOnly(sorted, n);
      }
    }
  }

  lemma {:induction false} ShorterOnly(routes: seq<Route>, n: nat)
    requires forall i :: 0 <= i < |routes| ==> |routes[i].prefix| < n
    ensures OfLength(routes, n) == []
  {
    if routes != [] {
      ShorterOnly(routes[1..], n);
    }
  }

  lemma {:induction false} InsertedIsDescending(sorted: seq<Route>, r: Route)
    requires Descending(sorted)
    ensures Descending(Inserted(sorted, r))
    ensures forall q :: q in Inserted(sorted, r) <==> q in sorted || q == r
  {
    if sorted != [] && |sorted[0].prefix| >= |r.prefix| {
      InsertedIsDescending(sorted[1..], r);
      var rest := Inserted(sorted[1..], r);
      assert forall q :: q in rest ==> |q.prefix| <= |sorted[0].prefix|;
    }
  }

  lemma {:induction false} OfLengthAppend(routes: seq<Route>, r: Route, n: nat)
    ensures OfLength(routes + [r], n) == if |r.prefix| == n then OfLength(routes, n) + [r] else OfLength(routes, n)
  {
    if routes == [] {
      OfLengthCons(r, [], n);
      assert routes + [r] == [r] + [];
    } else {
      OfLengthAppend(routes[1..], r, n);
      OfLengthCons(routes[0], routes[1..] + [r], n);
      assert routes + [r] == [routes[0]] + (routes[1..] + [r]);
    }
  }

  /** The table's sort is stable: longest prefix first, equal lengths in order. */
  lemma {:induction false} SortedIsStable(routes: seq<Route>, n: nat)
    ensures Descending(Sorted(routes)) && OfLength(Sorted(routes), n) == OfLength(routes, n)
  {
    if routes != [] {
      var before, r := routes[..|routes| - 1], routes[|routes| - 1];
      SortedIsStable(before, n);
      InsertedIsDescending(Sorted(before), r);
      InsertedOfLength(Sorted(before), r, n);
      assert routes == before + [r];
      OfLengthAppend(before, r, n);
    }
  }

  lemma OfLengthHead(routes: seq<Route>)
    requires routes != []
    ensures
      var n := |routes[0].prefix|;
      OfLength(routes, n) != [] && OfLength(routes, n)[0] == routes[0]
  {
  }

  lemma {:induction false} OfLengthMember(routes: seq<Route>, n: nat)
    requires OfLength(routes, n) != []
    ensures exists i :: 0 <= i < |routes| && |routes[i].prefix| == n
  {
    if |routes[0].prefix| != n {
      OfLengthMember(routes[1..], n);
      var i :| 0 <= i < |routes[1..]| && |routes[1..][i].prefix| == n;
      assert routes[i + 1] == routes[1..][i];
    }
  }

  lemma SameHead(a: seq<Route>, b: seq<Route>)
    requires Descending(a) && Descending(b) && a != [] && b != []
    requires forall n: nat :: OfLength(a, n) == OfLength(b, n)
    ensures a[0] == b[0]
  {
    OfLengthHead(a);
    OfLengthHead(b);
    OfLengthMember(b, |a[0].prefix|);
    OfLengthMember(a, |b[0].prefix|);
  }

  /** A stable sort has only one result, so it does not matter which one is used. */
  lemma {:induction false} StableSortIsUnique(a: seq<Route>, b: seq<Route>)
    requires Descending(a) && Descending(b)
    requires forall n: nat :: OfLength(a, n) == OfLength(b, n)
    ensures a == b
  {
    if a == [] || b == [] {
      if a != [] {
        OfLengthHead(a);
      }
      if b != [] {
        OfLengthHead(b);
      }
    } else {
      SameHead(a, b);
      forall n: nat
        ensures OfLength(a[1..], n) == OfLength(b[1..], n)
      {
        assert OfLength(a, n) == OfLength(b, n);
        if |a[0].prefix| == n {
          assert OfLength(a[1..], n) == OfLength(a, n)[1..];
          assert OfLength(b[1..], n) == OfLength(b, n)[1..];
        }
      }
      StableSortIsUnique(a[1..], b[1..]);
    }
  }

  // ------------------------------------------------------------ the longest prefix

  /** The best of the host's routes so far: a later one only if strictly longer. */
  ghost function Best(bundle: seq<Route>, host: string, path: string): (b: Option<Route>)
    ensures b.Some? ==> Hits(b.value, path)
  {
    if bundle == [] then None
    else
      var b, r := Best(bundle[..|bundle| - 1], host, path), bundle[|bundle| - 1];
      if r.host == host && Hits(r, path) && (b.None? || |b.value.prefix| < |r.prefix|) then Some(r) else b
  }

  lemma {:induction false} FirstHitIsLongest(sorted: seq<Route>, path: string)
    requires Descending(sorted)
    ensures
      var f := FirstHit(sorted, path);
      forall r :: r in sorted && Hits(r, path) ==> f.Some? && |r.prefix| <= |f.value.prefix|
  {
    if sorted != [] && !Hits(sorted[0], path) {
      FirstHitIsLongest(sorted[1..], path);
    }
  }

  lemma {:induction false} FirstHitInserted(sorted: seq<Route>, r: Route, path: string)
    requires Descending(sorted)
    ensures
      var f := FirstHit(sorted, path);
      FirstHit(Inserted(sorted, r), path)
      == if Hits(r, path) && (f.None? || |f.value.prefix| < |r.prefix|) then Some(r) else f
  {
    FirstHitIsLongest(sorted, path);
    if sorted != [] {
      if |sorted[0].prefix| >= |r.prefix| {
        FirstHitInserted(sorted[1..], r, path);
        assert Inserted(sorted, r)[1..] == Inserted(sorted[1..], r);
      } else {
        assert Inserted(sorted, r)[1..] == sorted;
        FirstHitMember(sorted, path);
      }
    }
  }

  lemma {:induction false} FirstHitMember(routes: seq<Route>, path: string)
    ensures FirstHit(routes, path).Some? ==> FirstHit(routes, path).value in routes
  {
    if routes != [] && !Hits(routes[0], path) {
      FirstHitMember(routes[1..], path);
    }
  }

  lemma {:induction false} FirstHitIsBest(bundle: seq<Route>, host: string, path: string)
    ensures FirstHit(Sorted(OfHost(bundle, host)), path) == Best(bundle, host, path)
  {
    if bundle != [] {
      var before, r := bundle[..|bundle| - 1], bundle[|bundle| - 1];
      FirstHitIsBest(before, host, path);
      var routes := OfHost(before, host);
      if r.host == host {
        assert (routes + [r])[..|routes|] == routes;
        SortedIsStable(routes, 0);
        FirstHitInserted(Sorted(routes), r, path);
      } else {
        assert OfHost(bundle, host) == routes;
      }
    }
  }

  /** The rule itself: of the host's routes that cover the path and lead somewhere,
      the longest prefix wins, and of those the earliest in the bundle. */
  ghost predicate Wins(bundle: seq<Route>, host: string, path: string, i: nat) {
    && Applies(bundle, host, path, i)
    && forall j: nat :: Applies(bundle, host, path, j) ==>
         |bundle[j].prefix| < |bundle[i].prefix| || (|bundle[j].prefix| == |bundle[i].prefix| && i <= j)
  }

  ghost predicate Applies(bundle: seq<Route>, host: string, path: string, i: nat) {
    i < |bundle| && bundle[i].host == host && Hits(bundle[i], path)
  }

  lemma {:induction false} BestWins(bundle: seq<Route>, host: string, path: string)
    ensures
      var b := Best(bundle, host, path);
      if b.None? then forall i: nat :: !Applies(bundle, host, path, i)
      else exists i: nat :: Wins(bundle, host, path, i) && bundle[i] == b.value
  {
    if bundle != [] {
      var n := |bundle| - 1;
      var before := bundle[..n];
      BestWins(before, host, path);
      assert forall i: nat :: i < n ==> (Applies(bundle, host, path, i) <==> Applies(before, host, path, i));
      var b := Best(before, host, path);
      if b.Some? {
        var i: nat :| Wins(before, host, path, i) && before[i] == b.value;
        BestStep(bundle, host, path, i);
      } else if Applies(bundle, host, path, n) {
        assert Wins(bundle, host, path, n);
      }
    }
  }

  lemma BestStep(bundle: seq<Route>, host: string, path: string, i: nat)
    requires bundle != [] && Wins(bundle[..|bundle| - 1], host, path, i)
    ensures
      var n := |bundle| - 1;
      if Applies(bundle, host, path, n) && |bundle[i].prefix| < |bundle[n].prefix|
      then Wins(bundle, host, path, n) else Wins(bundle, host, path, i)
  {
  }

  /** Building the table from any bundle and resolving any request gives exactly what
      the rule says: the winner's dispatch, nothing if no route of the host applies,
      and the fallback if the host has none. */
  lemma ResolvesByRule(bundle: seq<Route>, host: string, path: string)
    ensures
      var r := Resolved(TableOf(bundle), host, path);
      && (r == Fallback <==> forall q :: q in bundle ==> q.host != host)
      && (r == NotFound <==> host in HostsOf(bundle) && forall i: nat :: !Applies(bundle, host, path, i))
      && (forall i: nat :: Wins(bundle, host, path, i) ==> r == Matched(Dispatch(bundle[i], path)))
  {
    FirstHitIsBest(bundle, host, path);
    BestWins(bundle, host, path);
    assert host in HostsOf(bundle) <==> exists q :: q in bundle && q.host == host;
    forall i: nat | Applies(bundle, host, path, i)
      ensures host in HostsOf(bundle)
    {
      assert bundle[i] in bundle;
    }
  }

  /** What a backend is sent is the path itself, or an absolute path ending in what
      the prefix left over. */
  lemma ForwardsAbsolutePaths(r: Route, path: string)
    requires Hits(r, path) && r.target.value.Service?
    ensures
      var m := Dispatch(r, path);
      var rest := path[|r.prefix|..];
      && m.Backend?
      && (!r.strip ==> m.forward == path)
      && (r.strip ==> m.forward != "" && m.forward[0] == '/' && (m.forward == rest || m.forward == "/" + rest))
  {
  }

  /** A redirect rule is answered with its own target, status and flags, and the path
      its prefix left over. */
  lemma RedirectsAsConfigured(rule: Rule, path: string)
    requires rule.target.Redirect? && rule.target.status <= U16_MAX && Covers(rule.path, path)
    ensures
      Dispatch(Explicit(rule), path)
      == Redirected(rule.target.to, rule.target.status, rule.target.preservePath, rule.target.preserveQuery,
                    path[|rule.path|..])
    ensures rule.path + path[|rule.path|..] == path
  {
  }

  // --------------------------------------------------------------- implicit routes

  lemma {:induction false} ImplicitFor(rules: seq<Rule>, services: seq<ServiceInfo>, s: ServiceInfo)
    requires s in services && NeedsImplicit(rules, s)
    ensures Implicit(s.name) in ImplicitRoutes(rules, services)
  {
    var n := |services| - 1;
    if services[n] != s {
      assert s in services[..n];
      ImplicitFor(rules, services[..n], s);
    }
  }

  lemma {:induction false} ImplicitOnly(rules: seq<Rule>, services: seq<ServiceInfo>, r: Route)
    requires r in ImplicitRoutes(rules, services)
    ensures r == Implicit(r.host)
  {
    var n := |services| - 1;
    if r in ImplicitRoutes(rules, services[..n]) {
      ImplicitOnly(rules, services[..n], r);
    }
  }

  lemma ExplicitIsNamed(rules: seq<Rule>, r: Route)
    ensures r in ExplicitRoutes(rules) ==> NamedByRule(rules, r.host)
  {
  }

  lemma OnlyImplicitHere(rules: seq<Rule>, services: seq<ServiceInfo>, name: string, r: Route)
    requires !NamedByRule(rules, name) && r in Bundle(rules, services) && r.host == name
    ensures r == Implicit(name)
  {
    ExplicitIsNamed(rules, r);
    ImplicitOnly(rules, services, r);
  }

  /** Every http service the proxy can reach and no rule names as a host serves all
      of its own paths, unchanged. */
  lemma UnclaimedServicesServeThemselves(rules: seq<Rule>, services: seq<ServiceInfo>, s: ServiceInfo, path: string)
    requires s in services && NeedsImplicit(rules, s) && path != "" && path[0] == '/'
    ensures Resolved(TableOf(Bundle(rules, services)), s.name, path) == Matched(Backend(s.name, path))
  {
    var bundle := Bundle(rules, services);
    ImplicitFor(rules, services, s);
    assert Implicit(s.name) in bundle;
    var k :| 0 <= k < |bundle| && bundle[k] == Implicit(s.name);
    assert Applies(bundle, s.name, path, k);
    ResolvesByRule(bundle, s.name, path);
    BestWins(bundle, s.name, path);
    var i: nat :| Wins(bundle, s.name, path, i);
    OnlyImplicitHere(rules, services, s.name, bundle[i]);
  }
}
