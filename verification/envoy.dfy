/** The Envoy bootstrap configuration the operator generates for a
    debug/production traffic split: `GenerateEnvoyConfigurationContent`
    renders a fixed template with seven configuration fields and the admin
    port, then trims white space at both ends.

    The template is modelled as the list of its literal pieces (template
    lines, or the parts of a line around an action) with the rendered
    fields in place of the actions. A separately written layout built from
    the listener, its routes, the clusters and the admin interface is the
    reference the rendering is proved equal to. */
module Envoy {
  import opened Wrappers
  import opened GoInts
  import opened Decimal
  import opened Strings

  /** Port of Envoy's admin listener, the same for every configuration. */
  const EnvoyAdminPort: Int64 := 9901

  /** `CreateEnvoyConfig`; the ports are Go `int` fields, so any 64-bit value. */
  datatype CreateEnvoyConfig = CreateEnvoyConfig(
    listenPort: Int64,
    debugHeaderName: string,
    debugHeaderValue: string,
    debugServerAddress: string,
    debugServerPort: Int64,
    productionServerAddress: string,
    productionServerPort: Int64)

  /** An error returned by the template engine's `Execute`. */
  datatype TemplateError = TemplateError(message: string)

  // ----- runs of template lines without actions -----

  /** The listener's socket, up to the value of its port. */
  const ListenerLines :=
    "static_resources:\n"
    + "  listeners:\n"
    + "  - name: listener_0\n"
    + "    address:\n"
    + "      socket_address:\n"
    + "        address: 0.0.0.0\n"
    + "        port_value: "

  /** The HTTP connection manager filter with stdout access log, router
      filter and virtual host, up to its list of routes. */
  const HttpConnectionManagerLines :=
    "    filter_chains:\n"
    + "    - filters:\n"
    + "      - name: envoy.filters.network.http_connection_manager\n"
    + "        typed_config:\n"
    + "          \"@type\": type.googleapis.com/envoy.extensions.filters.network.http_connection_manager.v3.HttpConnectionManager\n"
    + "          stat_prefix: ingress_http\n"
    + "          access_log:\n"
    + "          - name: envoy.access_loggers.stdout\n"
    + "            typed_config:\n"
    + "              \"@type\": type.googleapis.com/envoy.extensions.access_loggers.stream.v3.StdoutAccessLog\n"
    + "          http_filters:\n"
    + "          - name: envoy.filters.http.router\n"
    + "            typed_config:\n"
    + "              \"@type\": type.googleapis.com/envoy.extensions.filters.http.router.v3.Router\n"
    + "          route_config:\n"
    + "            name: local_route\n"
    + "            virtual_hosts:\n"
    + "            - name: backend\n"
    + "              domains: [\"*\"]\n"
    + "              routes:\n"

  /** The settings both clusters share: connect timeout, strict DNS over
      IPv4, round-robin balancing. */
  const ClusterSettingsLines :=
    "    connect_timeout: 0.25s\n"
    + "    type: strict_dns\n"
    + "    dns_lookup_family: v4_only\n"
    + "    lb_policy: round_robin\n"
    + "    load_assignment:\n"

  /** A cluster's single endpoint, up to its address. */
  const EndpointLines :=
    "      endpoints:\n"
    + "      - lb_endpoints:\n"
    + "        - endpoint:\n"
    + "            address:\n"
    + "              socket_address:\n"
    + "                address: "

  /** The admin interface, with its access log sent to /dev/null, up to the
      value of its port. */
  const AdminLines :=
    "admin:\n"
    + "    access_log_path: /dev/null\n"
    + "    address:\n"
    + "        socket_address:\n"
    + "            address: 0.0.0.0\n"
    + "            port_value: "

  // ----- configTemplate, block by block -----

  /** The pieces of each block of the template in order, each action
      replaced by its field's text: strings verbatim (text/template does no
      escaping), integers in decimal. */
  function TemplateListener(config: CreateEnvoyConfig): seq<string> {
    [ "\n",
      ListenerLines, FormatInt(config.listenPort), "\n" ]
  }

  /** The blank line after the listener, then the filter chain up to the
      routes; the layout uses the same fixed runs. */
  const FilterChainsPieces: seq<string> :=
    [ "\n",
      HttpConnectionManagerLines ]

  function TemplateDebugRoute(config: CreateEnvoyConfig): seq<string> {
    [ "              - match:\n",
      "                  prefix: \"/\"\n",
      "                  headers:\n",
      "                    - name: \"", config.debugHeaderName, "\"\n",
      "                      exact_match: \"", config.debugHeaderValue, "\"\n",
      "                route:\n",
      "                  cluster: service_debug\n" ]
  }

  const TemplateCatchAllRoute: seq<string> :=
    [ "              - match:\n",
      "                  prefix: \"/\"\n",
      "                route:\n",
      "                  cluster: service_production\n" ]

  /** The blank line after the routes and the `clusters:` key. */
  const ClustersKeyPieces: seq<string> :=
    [ "\n",
      "  clusters:\n" ]

  function TemplateDebugCluster(config: CreateEnvoyConfig): seq<string> {
    [ "  - name: service_debug\n",
      ClusterSettingsLines,
      "      cluster_name: service_debug\n",
      EndpointLines, config.debugServerAddress, "\n",
      "                port_value: ", FormatInt(config.debugServerPort), "\n" ]
  }

  /** A blank line between sections. */
  const BlankLinePieces: seq<string> := [ "\n" ]

  function TemplateProductionCluster(config: CreateEnvoyConfig): seq<string> {
    [ "  - name: service_production\n",
      ClusterSettingsLines,
      "      cluster_name: service_production\n",
      EndpointLines, config.productionServerAddress, "\n",
      "                port_value: ", FormatInt(config.productionServerPort), "\n" ]
  }

  function TemplateAdmin(adminPort: int): seq<string> {
    [ "\n",
      AdminLines, FormatInt(adminPort), "\n" ]
  }

  /** The whole template: it starts and ends with a newline, and each action
      is replaced by the text of its own field. */
  function TemplatePieces(config: CreateEnvoyConfig, adminPort: int): (r: seq<string>)
    ensures |r| == 46 && r[0] == "\n" && r[45] == "\n"
    ensures r[2] == FormatInt(config.listenPort)
    ensures r[10] == config.debugHeaderName && r[13] == config.debugHeaderValue
    ensures r[27] == config.debugServerAddress && r[30] == FormatInt(config.debugServerPort)
    ensures r[37] == config.productionServerAddress && r[40] == FormatInt(config.productionServerPort)
    ensures r[44] == FormatInt(adminPort)
  {
    NineBlocks(TemplateListener(config), FilterChainsPieces, TemplateDebugRoute(config), TemplateCatchAllRoute,
               ClustersKeyPieces, TemplateDebugCluster(config), BlankLinePieces,
               TemplateProductionCluster(config), TemplateAdmin(adminPort));
    TemplateListener(config)
    + FilterChainsPieces
    + TemplateDebugRoute(config)
    + TemplateCatchAllRoute
    + ClustersKeyPieces
    + TemplateDebugCluster(config)
    + BlankLinePieces
    + TemplateProductionCluster(config)
    + TemplateAdmin(adminPort)
  }

  /** What `Execute` writes into the buffer: the pieces in order, between the
      newline after the raw string's opening quote and the one before its
      closing quote. */
  function RenderTemplate(config: CreateEnvoyConfig, adminPort: int): (r: string)
    ensures |r| >= 2 && r[0] == '\n' && r[|r| - 1] == '\n'
    ensures r == "\n" + Concat(TemplatePieces(config, adminPort)[1..45]) + "\n"
  {
    FirstAndLast(TemplatePieces(config, adminPort));
    Concat(TemplatePieces(config, adminPort))
  }

  /** Where the pieces of the nine template blocks land once joined: the
      boundary newlines and the eight actions. */
  lemma NineBlocks(listener: seq<string>, filterChains: seq<string>, debugRoute: seq<string>,
                   catchAll: seq<string>, clustersKey: seq<string>, debugCluster: seq<string>,
                   blank: seq<string>, productionCluster: seq<string>, admin: seq<string>)
    requires |listener| == 4 && |filterChains| == 2 && |debugRoute| == 11 && |catchAll| == 4
    requires |clustersKey| == 2 && |debugCluster| == 9 && |blank| == 1 && |productionCluster| == 9
    requires |admin| == 4
    ensures var r := listener + filterChains + debugRoute + catchAll + clustersKey + debugCluster + blank
                     + productionCluster + admin;
            && |r| == 46 && r[0] == listener[0] && r[45] == admin[3]
            && r[2] == listener[2] && r[10] == debugRoute[4] && r[13] == debugRoute[7]
            && r[27] == debugCluster[4] && r[30] == debugCluster[7]
            && r[37] == productionCluster[4] && r[40] == productionCluster[7] && r[44] == admin[2]
  {
  }

  /** `Execute` on the parsed template with `Config` and `AdminPort` bound:
      every field is a string or an integer and the buffer never fails, so
      execution succeeds for every configuration, empty strings included. */
  function ExecuteTemplate(config: CreateEnvoyConfig): (r: Result<string, TemplateError>)
    ensures r.Success?
  {
    Success(RenderTemplate(config, EnvoyAdminPort))
  }

  /** The tail of `GenerateEnvoyConfigurationContent`: an execution error
      yields the empty string with that error, success the trimmed text
      with no error. */
  function ReturnRendered<E>(executed: Result<string, E>): (r: (string, Outcome<E>))
    ensures executed.Failure? ==> r == ("", Fail(executed.error))
    ensures executed.Success? ==> r.1 == Pass && r.0 == TrimSpace(executed.value)
    ensures |r.0| > 0 ==> !IsSpace(r.0[0]) && !IsSpace(r.0[|r.0| - 1])
  {
    match executed
    case Failure(e) => ("", Fail(e))
    case Success(text) => (TrimSpace(text), Pass)
  }

  /** `GenerateEnvoyConfigurationContent`. */
  function GenerateEnvoyConfigurationContent(config: CreateEnvoyConfig): (r: (string, Outcome<TemplateError>))
    ensures r.1 == Pass
    ensures r.0 == Layout(BootstrapFor(config))
    ensures StartsWith(r.0, "static_resources:")
    ensures EndsWith(r.0, "port_value: 9901")
    ensures !IsSpace(r.0[0]) && !IsSpace(r.0[|r.0| - 1])
  {
    var r := ReturnRendered(ExecuteTemplate(config));
    TrimmedRenderingIsLayout(config);
    LayoutBoundaries(BootstrapFor(config));
    r
  }

  // ----- the reference layout -----

  /** What a route matches on: any path carrying a request header with an
      exact value, or any path at all. */
  datatype RouteMatch = HeaderExactMatch(name: string, value: string) | AnyPath

  datatype Route = Route(routeMatch: RouteMatch, cluster: string)

  /** A statically resolved upstream cluster with a single endpoint. */
  datatype Cluster = Cluster(name: string, address: string, port: Int64)

  datatype Bootstrap = Bootstrap(listenPort: Int64, routes: seq<Route>, clusters: seq<Cluster>, adminPort: Int64)

  /** The configuration the template describes: debug traffic, identified by
      the header, goes to `service_debug`; the catch-all route after it sends
      everything else to `service_production`. */
  function BootstrapFor(config: CreateEnvoyConfig): Bootstrap {
    Bootstrap(
      config.listenPort,
      [Route(HeaderExactMatch(config.debugHeaderName, config.debugHeaderValue), "service_debug"),
       Route(AnyPath, "service_production")],
      [Cluster("service_debug", config.debugServerAddress, config.debugServerPort),
       Cluster("service_production", config.productionServerAddress, config.productionServerPort)],
      EnvoyAdminPort)
  }

  function ListenerPieces(port: Int64): seq<string> {
    [ListenerLines, FormatInt(port), "\n"]
  }

  /** The header matcher: name and value inserted verbatim between quotes. */
  function HeaderMatcherPieces(name: string, value: string): seq<string> {
    [ "                    - name: \"", name, "\"\n",
      "                      exact_match: \"", value, "\"\n" ]
  }

  function MatchPieces(m: RouteMatch): seq<string> {
    ["              - match:\n", "                  prefix: \"/\"\n"]
    + match m
      case AnyPath => []
      case HeaderExactMatch(name, value) => ["                  headers:\n"] + HeaderMatcherPieces(name, value)
  }

  function RoutePieces(route: Route): seq<string> {
    MatchPieces(route.routeMatch)
    + ["                route:\n", "                  cluster: " + route.cluster + "\n"]
  }

  function RoutesPieces(routes: seq<Route>): seq<string> {
    if |routes| == 0 then [] else RoutePieces(routes[0]) + RoutesPieces(routes[1..])
  }

  function ClusterPieces(cluster: Cluster): seq<string> {
    [ "  - name: " + cluster.name + "\n",
      ClusterSettingsLines,
      "      cluster_name: " + cluster.name + "\n",
      EndpointLines, cluster.address, "\n",
      "                port_value: ", FormatInt(cluster.port), "\n" ]
  }

  /** Clusters, separated by blank lines. */
  function ClustersPieces(clusters: seq<Cluster>): seq<string> {
    if |clusters| == 0 then []
    else if |clusters| == 1 then ClusterPieces(clusters[0])
    else ClusterPieces(clusters[0]) + ["\n"] + ClustersPieces(clusters[1..])
  }

  function AdminPieces(port: Int64): seq<string> {
    [AdminLines, FormatInt(port)]
  }

  function BootstrapPieces(b: Bootstrap): seq<string> {
    ListenerPieces(b.listenPort)
    + FilterChainsPieces
    + RoutesPieces(b.routes)
    + ClustersKeyPieces
    + ClustersPieces(b.clusters)
    + BlankLinePieces
    + AdminPieces(b.adminPort)
  }

  function Layout(b: Bootstrap): string {
    Concat(BootstrapPieces(b))
  }

  // ----- the rendering is the layout -----

  lemma AdminPortText()
    ensures FormatInt(EnvoyAdminPort) == "9901"
  {
    assert FormatNat(9) == "9";
    assert FormatNat(99) == "9" + "9";
    assert FormatNat(990) == "9" + "9" + "0";
    assert FormatNat(9901) == "9" + "9" + "0" + "1";
  }

  /** Regrouping blocks of pieces, with the blocks kept opaque. */
  lemma BlocksRegroup(listener: seq<string>, filterChains: seq<string>, debugRoute: seq<string>,
                      catchAll: seq<string>, clustersKey: seq<string>, debugCluster: seq<string>,
                      blank: seq<string>, productionCluster: seq<string>, admin: seq<string>,
                      listenerLayout: seq<string>, routesLayout: seq<string>, clustersLayout: seq<string>,
                      adminLayout: seq<string>, nl: string)
    requires listener == [nl] + listenerLayout
    requires routesLayout == debugRoute + catchAll
    requires clustersLayout == debugCluster + blank + productionCluster
    requires admin == blank + adminLayout + [nl]
    ensures listener + filterChains + debugRoute + catchAll + clustersKey + debugCluster + blank
            + productionCluster + admin
            == [nl] + (listenerLayout + filterChains + routesLayout + clustersKey + clustersLayout + blank + adminLayout)
               + [nl]
  {
  }

  /** The template's pieces are the layout's pieces between the newline the
      template starts with and the newline it ends with. */
  lemma TemplatePiecesArePaddedLayout(config: CreateEnvoyConfig)
    ensures TemplatePieces(config, EnvoyAdminPort) == ["\n"] + BootstrapPieces(BootstrapFor(config)) + ["\n"]
  {
    var b := BootstrapFor(config);
    DebugRouteBlock(config);
    CatchAllRouteBlock();
    var tail := b.routes[1..];
    assert tail == [Route(AnyPath, "service_production")];
    assert tail[1..] == [];
    assert RoutesPieces(tail) == TemplateCatchAllRoute + RoutesPieces([]);
    assert RoutesPieces(b.routes) == TemplateDebugRoute(config) + TemplateCatchAllRoute;
    DebugClusterBlock(config);
    ProductionClusterBlock(config);
    assert b.clusters[1..] == [b.clusters[1]];
    assert ClustersPieces(b.clusters)
           == TemplateDebugCluster(config) + BlankLinePieces + TemplateProductionCluster(config);
    BlocksRegroup(TemplateListener(config), FilterChainsPieces, TemplateDebugRoute(config),
                  TemplateCatchAllRoute, ClustersKeyPieces, TemplateDebugCluster(config),
                  BlankLinePieces, TemplateProductionCluster(config), TemplateAdmin(EnvoyAdminPort),
                  ListenerPieces(b.listenPort), RoutesPieces(b.routes), ClustersPieces(b.clusters),
                  AdminPieces(b.adminPort), "\n");
  }

  lemma DebugRouteBlock(config: CreateEnvoyConfig)
    ensures RoutePieces(BootstrapFor(config).routes[0]) == TemplateDebugRoute(config)
  {
    assert "                  cluster: " + "service_debug" + "\n" == "                  cluster: service_debug\n";
  }

  lemma CatchAllRouteBlock()
    ensures RoutePieces(Route(AnyPath, "service_production")) == TemplateCatchAllRoute
  {
    assert "                  cluster: " + "service_production" + "\n" == "                  cluster: service_production\n";
  }

  lemma DebugClusterBlock(config: CreateEnvoyConfig)
    ensures ClusterPieces(BootstrapFor(config).clusters[0]) == TemplateDebugCluster(config)
  {
    assert "  - name: " + "service_debug" + "\n" == "  - name: service_debug\n";
    assert "      cluster_name: " + "service_debug" + "\n" == "      cluster_name: service_debug\n";
  }

  lemma ProductionClusterBlock(config: CreateEnvoyConfig)
    ensures ClusterPieces(BootstrapFor(config).clusters[1]) == TemplateProductionCluster(config)
  {
    assert "  - name: " + "service_production" + "\n" == "  - name: service_production\n";
    assert "      cluster_name: " + "service_production" + "\n" == "      cluster_name: service_production\n";
  }

  /** The layout starts with "static_resources:" and ends with the admin
      port's line. */
  lemma LayoutBoundaries(b: Bootstrap)
    requires b.adminPort == EnvoyAdminPort
    ensures StartsWith(Layout(b), "static_resources:")
    ensures EndsWith(Layout(b), AdminLines + "9901")
    ensures EndsWith(Layout(b), "port_value: 9901")
  {
    var x := LayoutFrame(b);
    FramedBy(ListenerLines, x, AdminLines + "9901");
    ListenerLinesStart();
    StartsWithCompose(Layout(b), ListenerLines, "static_resources:");
    AdminLinesEnd();
    EndsWithCompose(Layout(b), AdminLines + "9901", "port_value: 9901");
  }

  /** The layout begins with the listener's lines and ends with the admin
      interface's. */
  lemma LayoutFrame(b: Bootstrap) returns (x: string)
    requires b.adminPort == EnvoyAdminPort
    ensures Layout(b) == ListenerLines + x + (AdminLines + "9901")
  {
    var middle := FilterChainsPieces + RoutesPieces(b.routes) + ClustersKeyPieces
                  + ClustersPieces(b.clusters) + BlankLinePieces;
    var listener := ListenerPieces(b.listenPort);
    var admin := AdminPieces(b.adminPort);
    assert BootstrapPieces(b) == listener + middle + admin;
    var rest := ListenerText(b.listenPort);
    AdminText();
    x := rest + Concat(middle);
    ConcatFrame(listener, middle, admin, ListenerLines, rest, AdminLines + "9901");
  }

  lemma ListenerText(port: Int64) returns (rest: string)
    ensures Concat(ListenerPieces(port)) == ListenerLines + rest
  {
    rest := Concat(ListenerPieces(port)[1..]);
  }

  lemma AdminText()
    ensures Concat(AdminPieces(EnvoyAdminPort)) == AdminLines + "9901"
  {
    AdminPortText();
    Concat2(AdminLines, "9901");
  }

  lemma ListenerLinesStart()
    ensures StartsWith(ListenerLines, "static_resources:")
  {
  }

  lemma AdminLinesEnd()
    ensures EndsWith(AdminLines + "9901", "port_value: 9901")
  {
    assert EndsWith(AdminLines, "port_value: ");
    EndsWithExtend(AdminLines, "port_value: ", "9901");
    assert "port_value: " + "9901" == "port_value: 9901";
  }

  /** Trimming removes exactly the template's boundary newlines: the
      generated text is the layout of the configuration. */
  lemma TrimmedRenderingIsLayout(config: CreateEnvoyConfig)
    ensures TrimSpace(RenderTemplate(config, EnvoyAdminPort)) == Layout(BootstrapFor(config))
  {
    var b := BootstrapFor(config);
    TemplatePiecesArePaddedLayout(config);
    NewlinePadded(BootstrapPieces(b));
    LayoutBoundaries(b);
    TrimNewlinePadded(Layout(b));
  }

  lemma NewlinePadded(pieces: seq<string>)
    ensures Concat(["\n"] + pieces + ["\n"]) == "\n" + Concat(pieces) + "\n"
  {
    ConcatAppend(["\n"] + pieces, ["\n"]);
    ConcatAppend(["\n"], pieces);
    assert Concat(["\n"]) == "\n" + Concat([]);
  }

  lemma TrimNewlinePadded(y: string)
    requires StartsWith(y, "static_resources:") && EndsWith(y, "port_value: 9901")
    ensures TrimSpace("\n" + y + "\n") == y
  {
    assert y[0] == 's';
    assert y[|y| - 1] == '1';
    assert AllSpace("\n");
    TrimSpaceOfPadded("\n", y, "\n");
  }
}
