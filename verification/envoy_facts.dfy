/** What the generated Envoy configuration says: the listener's port comes
    first, the debug route with its header matcher comes immediately before
    the catch-all route, and each cluster carries the shared connection
    settings and its own endpoint. */
module EnvoyFacts {
  import opened Decimal
  import opened Strings
  import opened Envoy

  /** The rendered text of one route and of one cluster. */
  function RouteText(route: Route): string {
    Concat(RoutePieces(route))
  }

  function ClusterText(cluster: Cluster): string {
    Concat(ClusterPieces(cluster))
  }

  /** The two lines of a header matcher: the header's name and value, each
      verbatim between double quotes. */
  function HeaderLines(name: string, value: string): string {
    "                    - name: \"" + name + "\"\n"
    + "                      exact_match: \"" + value + "\"\n"
  }

  /** The generated content, with the error half dropped. */
  function Content(config: CreateEnvoyConfig): string {
    GenerateEnvoyConfigurationContent(config).0
  }

  /** The configuration opens with the listener, bound to all addresses on
      the configured listen port. */
  lemma ListenerComesFirst(config: CreateEnvoyConfig)
    ensures StartsWith(Content(config), ListenerLines + FormatInt(config.listenPort) + "\n")
  {
    var b := BootstrapFor(config);
    var listener := ListenerPieces(b.listenPort);
    var rest := BootstrapPieces(b)[3..];
    assert BootstrapPieces(b) == [] + listener + rest;
    ConcatOccurs([], listener, rest);
    Concat3(ListenerLines, FormatInt(b.listenPort), "\n");
  }

  /** The catch-all route matches every path and sends it to the
      production cluster. */
  lemma CatchAllRouteText()
    ensures RouteText(Route(AnyPath, "service_production"))
            == "              - match:\n" + "                  prefix: \"/\"\n"
               + "                route:\n" + "                  cluster: service_production\n"
  {
    CatchAllRouteBlock();
    Concat4("              - match:\n", "                  prefix: \"/\"\n",
            "                route:\n", "                  cluster: service_production\n");
  }

  /** The debug route matches on the header, its name and value placed
      verbatim between double quotes. */
  lemma HeaderMatchedVerbatim(name: string, value: string, cluster: string) returns (k: nat)
    ensures OccursAt(RouteText(Route(HeaderExactMatch(name, value), cluster)),
                     HeaderLines(name, value), k)
  {
    var header := HeaderMatcherPieces(name, value);
    var before := ["              - match:\n", "                  prefix: \"/\"\n", "                  headers:\n"];
    var after := ["                route:\n", "                  cluster: " + cluster + "\n"];
    assert RoutePieces(Route(HeaderExactMatch(name, value), cluster)) == before + header + after;
    ConcatOccurs(before, header, after);
    k := |Concat(before)|;
    HeaderMatcherText(name, value);
  }

  lemma HeaderMatcherText(name: string, value: string)
    ensures Concat(HeaderMatcherPieces(name, value))
            == HeaderLines(name, value)
  {
    Concat6("                    - name: \"", name, "\"\n", "                      exact_match: \"", value, "\"\n");
  }

  /** The route list is the debug route, which matches the debug header,
      immediately followed by the catch-all route to production: a request
      carrying the header is routed to `service_debug`, any other to
      `service_production`. */
  lemma DebugRouteBeforeCatchAll(config: CreateEnvoyConfig) returns (i: nat, j: nat)
    ensures OccursAt(Content(config),
                     RouteText(Route(HeaderExactMatch(config.debugHeaderName, config.debugHeaderValue), "service_debug"))
                     + RouteText(Route(AnyPath, "service_production")), i)
    ensures OccursAt(Content(config),
                     HeaderLines(config.debugHeaderName, config.debugHeaderValue), j)
    ensures i <= j
    ensures j + |HeaderLines(config.debugHeaderName, config.debugHeaderValue)|
            <= i + |RouteText(Route(HeaderExactMatch(config.debugHeaderName, config.debugHeaderValue), "service_debug"))|
  {
    i := RoutesInContent(config);
    j := HeaderWithinRoute(Content(config), config.debugHeaderName, config.debugHeaderValue, "service_debug",
                           RouteText(Route(AnyPath, "service_production")), i);
  }

  lemma RoutesInContent(config: CreateEnvoyConfig) returns (i: nat)
    ensures OccursAt(Content(config),
                     RouteText(Route(HeaderExactMatch(config.debugHeaderName, config.debugHeaderValue), "service_debug"))
                     + RouteText(Route(AnyPath, "service_production")), i)
  {
    var b := BootstrapFor(config);
    assert Content(config) == Layout(b);
    assert b.routes == [b.routes[0], b.routes[1]];
    TwoRoutesText(b.routes[0], b.routes[1]);
    i := RoutesOccur(b);
  }

  /** Where a header-matching route occurs, its header matcher occurs
      inside it. */
  lemma HeaderWithinRoute(s: string, name: string, value: string, cluster: string, rest: string, i: nat)
    returns (j: nat)
    requires OccursAt(s, RouteText(Route(HeaderExactMatch(name, value), cluster)) + rest, i)
    ensures OccursAt(s, HeaderLines(name, value), j)
    ensures i <= j
    ensures j + |HeaderLines(name, value)|
            <= i + |RouteText(Route(HeaderExactMatch(name, value), cluster))|
  {
    var k := HeaderMatchedVerbatim(name, value, cluster);
    OccursWithin(s, RouteText(Route(HeaderExactMatch(name, value), cluster)), rest, i,
                 HeaderLines(name, value), k);
    j := i + k;
  }

  /** The routes of any layout appear in it as one run. */
  lemma RoutesOccur(b: Bootstrap) returns (i: nat)
    ensures OccursAt(Layout(b), Concat(RoutesPieces(b.routes)), i)
  {
    var before := ListenerPieces(b.listenPort) + FilterChainsPieces;
    var after := ClustersKeyPieces + ClustersPieces(b.clusters) + BlankLinePieces + AdminPieces(b.adminPort);
    assert BootstrapPieces(b) == before + RoutesPieces(b.routes) + after;
    ConcatOccurs(before, RoutesPieces(b.routes), after);
    i := |Concat(before)|;
  }

  /** The clusters of any layout appear in it as one run. */
  lemma ClustersOccur(b: Bootstrap) returns (i: nat)
    ensures OccursAt(Layout(b), Concat(ClustersPieces(b.clusters)), i)
  {
    var before := ListenerPieces(b.listenPort) + FilterChainsPieces + RoutesPieces(b.routes)
                  + ClustersKeyPieces;
    var after := BlankLinePieces + AdminPieces(b.adminPort);
    assert BootstrapPieces(b) == before + ClustersPieces(b.clusters) + after;
    ConcatOccurs(before, ClustersPieces(b.clusters), after);
    i := |Concat(before)|;
  }

  /** Two routes render one after the other. */
  lemma TwoRoutesText(first: Route, second: Route)
    ensures Concat(RoutesPieces([first, second])) == RouteText(first) + RouteText(second)
  {
    var routes := [first, second];
    assert routes[1..] == [second];
    assert routes[1..][1..] == [];
    assert RoutesPieces(routes[1..]) == RoutePieces(second) + RoutesPieces([]);
    assert RoutesPieces(routes) == RoutePieces(first) + RoutePieces(second);
    ConcatAppend(RoutePieces(first), RoutePieces(second));
  }

  /** Two clusters render one after the other, a blank line between them. */
  lemma TwoClustersText(first: Cluster, second: Cluster)
    ensures Concat(ClustersPieces([first, second])) == ClusterText(first) + "\n" + ClusterText(second)
  {
    var clusters := [first, second];
    assert clusters[1..] == [second];
    ConcatAppend(ClusterPieces(first) + ["\n"], ClusterPieces(second));
    ConcatAppend(ClusterPieces(first), ["\n"]);
    assert Concat(["\n"]) == "\n" + Concat([]);
  }

  /** A cluster opens with its name and the settings every cluster shares
      (0.25 s connect timeout, strict DNS over IPv4, round-robin balancing)
      and closes with its single endpoint's address and port. */
  lemma ClusterCarriesEndpoint(cluster: Cluster)
    ensures StartsWith(ClusterText(cluster), "  - name: " + cluster.name + "\n" + ClusterSettingsLines)
    ensures EndsWith(ClusterText(cluster),
                     EndpointLines + cluster.address + "\n" + "                port_value: " + FormatInt(cluster.port) + "\n")
  {
    var p := ClusterPieces(cluster);
    var head := p[..2];
    var middle := p[2..3];
    var tail := p[3..];
    assert p == head + middle + tail;
    assert head == ["  - name: " + cluster.name + "\n", ClusterSettingsLines];
    Concat2("  - name: " + cluster.name + "\n", ClusterSettingsLines);
    assert tail == [EndpointLines, cluster.address, "\n", "                port_value: ", FormatInt(cluster.port), "\n"];
    Concat6(EndpointLines, cluster.address, "\n", "                port_value: ", FormatInt(cluster.port), "\n");
    ConcatAppend(head + middle, tail);
    ConcatAppend(head, middle);
    FramedBy(Concat(head), Concat(middle), Concat(tail));
  }

  /** The clusters section is the debug cluster, a blank line, then the
      production cluster, each pointing at the configured server. */
  lemma ClustersInOrder(config: CreateEnvoyConfig) returns (i: nat)
    ensures OccursAt(Content(config),
                     ClusterText(Cluster("service_debug", config.debugServerAddress, config.debugServerPort))
                     + "\n"
                     + ClusterText(Cluster("service_production", config.productionServerAddress,
                                           config.productionServerPort)), i)
  {
    var b := BootstrapFor(config);
    assert b.clusters == [b.clusters[0], b.clusters[1]];
    TwoClustersText(b.clusters[0], b.clusters[1]);
    i := ClustersOccur(b);
  }

  /** The admin interface listens on port 9901 whatever the configuration. */
  lemma AdminPortFixed(config: CreateEnvoyConfig)
    ensures EndsWith(Content(config), AdminLines + "9901")
  {
    LayoutBoundaries(BootstrapFor(config));
  }
}
