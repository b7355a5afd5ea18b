/** What a rendered configuration does with a request: the compilation keeps the meaning of the routes, and the
    most specific route that matches is asked first. */
module CaddyServe {
  import opened Text
  import opened Routing
  import opened CaddyMatch
  import opened CaddyRoute
  import opened CaddyOrder
  import opened CaddyRender

  predicate AllSound(setup: Setup, rs: seq<Route>) {
    forall r <- rs :: RouteError(r, setup.policy, setup.ranges).None?
  }

  /** The first decision, asking the routes in order. */
  function FirstDecision(net: Ranges, setup: Setup, rs: seq<Route>, req: Request): Option<Action>
    requires AllSound(setup, rs)
  {
    if rs == [] then None
    else
      Or(FirstDecision(net, setup, rs[..|rs| - 1], req),
         Decide(net, rs[|rs| - 1], setup.policy, setup.auth, setup.ranges, req))
  }

  /** The redirect to the first enabled HTTPS route whose host and path match. */
  function FirstRedirect(lib: Library, setup: Setup, rs: seq<Route>, req: Request): Option<Action> {
    if rs == [] then None
    else
      var r := rs[|rs| - 1];
      Or(FirstRedirect(lib, setup, rs[..|rs| - 1], req),
         if r.enabled && Redirected(setup, r) && Here(r, req.host, req.path)
         then Some(RedirectEntry(lib, setup, r).action) else None)
  }

  predicate AllStarless(setup: Setup, rs: seq<Route>) {
    forall r <- rs :: Starless(r, setup.policy)
  }

  lemma {:induction false} EntriesMeaning(net: Ranges, setup: Setup, rs: seq<Route>, req: Request)
    requires AllSound(setup, rs) && AllStarless(setup, rs)
    ensures FirstMatch(net, EntriesOf(setup, rs), req) == FirstDecision(net, setup, rs, req)
  {
    hide RouteError, Starless, FirstMatch, Decide, RouteEntries;
    if rs == [] {
      NoEntries(net, req);
    } else {
      var n := |rs| - 1;
      EntriesMeaning(net, setup, rs[..n], req);
      FirstMatchOfBoth(net, EntriesOf(setup, rs[..n]), RouteEntries(rs[n], setup.policy, setup.auth, setup.ranges),
                       req);
      RouteMeaning(net, rs[n], setup.policy, setup.auth, setup.ranges, req);
    }
  }

  lemma RedirectMeaning(net: Ranges, lib: Library, setup: Setup, r: Route, req: Request)
    requires '*' !in r.pathPrefix
    ensures Matches(net, RedirectEntry(lib, setup, r).matcher, req) <==> Here(r, req.host, req.path)
  {
    hide HostMatches;
    MatchersAcceptPrefix(r.pathPrefix, req.path);
  }

  lemma {:induction false} RedirectsMeaning(net: Ranges, lib: Library, setup: Setup, rs: seq<Route>, req: Request)
    requires AllStarless(setup, rs)
    ensures FirstMatch(net, Redirects(lib, setup, rs), req) == FirstRedirect(lib, setup, rs, req)
  {
    hide FirstMatch, RedirectEntry, Redirected, Here, Matches;
    if rs == [] {
      NoEntries(net, req);
    } else {
      var n := |rs| - 1;
      var r := rs[n];
      assert Starless(r, setup.policy);
      RedirectsMeaning(net, lib, setup, rs[..n], req);
      if r.enabled && Redirected(setup, r) {
        var entry := RedirectEntry(lib, setup, r);
        FirstMatchOfBoth(net, Redirects(lib, setup, rs[..n]), [entry], req);
        OneEntryMeaning(net, entry.matcher, entry.action, req);
        RedirectMeaning(net, lib, setup, r, req);
      }
    }
  }

  /** The compiled configuration means what its routes say: on every server the first route that decides, in sorted
      order, answers, and on the default HTTP server an unanswered request is redirected to its HTTPS route. */
  lemma ServeMeaning(
    net: Ranges, lib: Library, setup: Setup, input: seq<Route>, servers: Servers, address: string, req: Request)
    requires Rendered(lib, setup, input, servers) && address in servers
    requires AllStarless(setup, AllRoutes(setup, input))
    ensures var rs := StableSort(AllRoutes(setup, input));
            && AllSound(setup, On(lib, setup, rs, address))
            && FirstMatch(net, servers[address].entries, req) ==
               Or(FirstDecision(net, setup, On(lib, setup, rs, address), req),
                  if address == setup.http then FirstRedirect(lib, setup, rs, req) else None)
  {
    hide FirstMatch, FirstDecision, FirstRedirect, StableSort, EntriesOf, Skips, Redirects, Places, Listens, Compatible,
      AllRender, On, Starless, RouteError;
    var rs := StableSort(AllRoutes(setup, input));
    var on := On(lib, setup, rs, address);
    OnRenders(lib, setup, rs, address);
    OnMembers(lib, setup, rs, address);
    SortedMembers(AllRoutes(setup, input));
    EntriesMeaning(net, setup, on, req);
    RedirectsMeaning(net, lib, setup, rs, req);
    FirstMatchOfBoth(net, EntriesOf(setup, on), if address == setup.http then Redirects(lib, setup, rs) else [], req);
    NoEntries(net, req);
  }

  lemma SortedMembers(rs: seq<Route>)
    ensures forall r :: r in StableSort(rs) <==> r in rs
  {
    hide StableSort;
    StableSortSorts(rs);
    forall r ensures r in StableSort(rs) <==> r in rs {
      assert r in StableSort(rs) <==> r in multiset(StableSort(rs));
      assert r in rs <==> r in multiset(rs);
    }
  }

  // ---------- Which route is asked first ----------

  lemma {:induction false} OnIsSorted(lib: Library, setup: Setup, rs: seq<Route>, address: string)
    requires Sorted(rs)
    ensures Sorted(On(lib, setup, rs, address))
  {
    hide Less, AddressOf;
    if rs != [] {
      var n := |rs| - 1;
      OnIsSorted(lib, setup, rs[..n], address);
      OnMembers(lib, setup, rs[..n], address);
      var on := On(lib, setup, rs[..n], address);
      forall k | 0 <= k < |on| ensures !Less(rs[n], on[k]) {
        assert on[k] in on;
        var i :| 0 <= i < n && rs[..n][i] == on[k];
        assert !Less(rs[n], rs[i]);
      }
    }
  }

  /** The request arrived on the listener that each of the routes names. */
  predicate ArrivedAt(rs: seq<Route>, req: Request) {
    forall r <- rs ::
      (r.listenerPort > 0 ==> req.port == r.listenerPort)
      && (r.listenerProtocol != "" ==> req.protocol == r.listenerProtocol)
  }

  lemma AddressedIsHere(r: Route, req: Request)
    requires ArrivedAt([r], req)
    ensures Addressed(r, req) <==> Here(r, req.host, req.path)
  {
    hide HostMatches, Under;
    assert r in [r];
  }

  predicate Strayed(setup: Setup, rs: seq<Route>, n: nat, req: Request)
    requires n <= |rs|
  {
    exists k :: 0 <= k < n && Strays(rs[k], setup.policy, req)
  }

  lemma {:induction false} EarlierRoutes(net: Ranges, setup: Setup, rs: seq<Route>, req: Request, i: nat)
    requires AllSound(setup, rs) && i < |rs| && forall k :: 0 <= k < i ==> !Addressed(rs[k], req)
    ensures var d := Decide(net, rs[i], setup.policy, setup.auth, setup.ranges, req);
            && (Strayed(setup, rs, i, req) ==> FirstDecision(net, setup, rs, req) == Some(Reject(403)))
            && (!Strayed(setup, rs, i, req) && d.Some? ==> FirstDecision(net, setup, rs, req) == d)
  {
    hide RouteError, Addressed, Strayed, Verdict;
    UnaddressedPrefix(net, setup, rs, req, i);
    DecisionOfPrefix(net, setup, rs, req, i);
    DecisionOfPrefix(net, setup, rs, req, i + 1);
    assert rs[..i + 1][..i] == rs[..i];
  }

  lemma {:induction false} UnaddressedPrefix(net: Ranges, setup: Setup, rs: seq<Route>, req: Request, n: nat)
    requires AllSound(setup, rs) && n <= |rs| && forall k :: 0 <= k < n ==> !Addressed(rs[k], req)
    ensures FirstDecision(net, setup, rs[..n], req) == if Strayed(setup, rs, n, req) then Some(Reject(403)) else None
  {
    hide RouteError, Addressed, Strays, Verdict;
    if n > 0 {
      UnaddressedPrefix(net, setup, rs, req, n - 1);
      assert rs[..n][..n - 1] == rs[..n - 1];
    }
  }

  lemma {:induction false} DecisionOfPrefix(net: Ranges, setup: Setup, rs: seq<Route>, req: Request, n: nat)
    requires AllSound(setup, rs) && n <= |rs|
    ensures FirstDecision(net, setup, rs[..n], req).Some? ==>
              FirstDecision(net, setup, rs, req) == FirstDecision(net, setup, rs[..n], req)
    decreases |rs|
  {
    hide RouteError, Decide;
    if n == |rs| {
      assert rs[..n] == rs;
    } else {
      var m := |rs| - 1;
      DecisionOfPrefix(net, setup, rs[..m], req, n);
      assert rs[..m][..n] == rs[..n];
    }
  }

  /** Of the routes on a server whose host and path match, the first in order is the most specific one, and when it
      decides its decision is the answer, unless denied paths of an earlier route stray into the request. It does not
      decide only when it is internal and the source lies outside its ranges. */
  lemma MostSpecificDecides(
    net: Ranges, lib: Library, setup: Setup, input: seq<Route>, servers: Servers, address: string, req: Request,
    i: nat)
    requires Rendered(lib, setup, input, servers) && address in servers && AllStarless(setup, AllRoutes(setup, input))
    requires var on := On(lib, setup, StableSort(AllRoutes(setup, input)), address);
             ArrivedAt(on, req) && i < |on| && Here(on[i], req.host, req.path)
             && forall k :: 0 <= k < i ==> !Here(on[k], req.host, req.path)
    ensures var on := On(lib, setup, StableSort(AllRoutes(setup, input)), address);
            && RouteError(on[i], setup.policy, setup.ranges).None?
            && var d := Decide(net, on[i], setup.policy, setup.auth, setup.ranges, req);
            && (forall j :: 0 <= j < |on| && Here(on[j], req.host, req.path) ==>
                              && (Wildcard(on[i]) ==> Wildcard(on[j]) && Lower(on[i].host) == Lower(on[j].host))
                              && (SortsByPrefix(on[i]) && Rooted(NormalizePrefix(on[j].pathPrefix)) ==>
                                    AtLeastAsSpecific(on[i], on[j])))
            && (Strayed(setup, on, i, req) ==> FirstMatch(net, servers[address].entries, req) == Some(Reject(403)))
            && (!Strayed(setup, on, i, req) && d.Some? ==> FirstMatch(net, servers[address].entries, req) == d)
            && (d.None? <==> Verdict(net, on[i], setup.policy, req).None? && on[i].exposure == "internal"
                             && !AnyRange(net, setup.ranges, req.source))
  {
    hide FirstMatch, FirstDecision, FirstRedirect, StableSort, EntriesOf, Rendered, On, Here, Addressed, Less,
      AtLeastAsSpecific, Verdict, AnyRange, SortsByPrefix, RouteError, Strayed, Wildcard, Lower, NormalizePrefix,
      Rooted;
    var all := AllRoutes(setup, input);
    var rs := StableSort(all);
    var on := On(lib, setup, rs, address);
    ServeMeaning(net, lib, setup, input, servers, address, req);
    StableSortSorts(all);
    SortedMembers(all);
    OnMembers(lib, setup, rs, address);
    OnIsSorted(lib, setup, rs, address);
    forall k | 0 <= k < |on| ensures Addressed(on[k], req) <==> Here(on[k], req.host, req.path) {
      assert on[k] in on;
      AddressedIsHere(on[k], req);
    }
    EarlierRoutes(net, setup, on, req, i);
    forall j | 0 <= j < |on| && Here(on[j], req.host, req.path)
      ensures Wildcard(on[i]) ==> Wildcard(on[j]) && Lower(on[i].host) == Lower(on[j].host)
      ensures SortsByPrefix(on[i]) && Rooted(NormalizePrefix(on[j].pathPrefix)) ==> AtLeastAsSpecific(on[i], on[j])
    {
      FirstIsMostSpecific(on, req.host, req.path, i, j);
    }
  }
}
