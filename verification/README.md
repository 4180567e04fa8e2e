# Dynamo operator: deployment readiness, component finalization, Envoy bootstrap

This project models three pieces of the Dynamo Kubernetes operator and proves
properties about them:

- **Deployment readiness** (`Readiness`). This is the rule the
  DynamoNimDeployment reconciler uses to decide whether the Kubernetes
  Deployment it manages has finished rolling out.
  - A missing Deployment is not ready, and neither is a paused one.
  - The desired replica count is `spec.replicas`, or 1 when it is unset. A
    Deployment that asks for zero replicas is ready.
  - Otherwise it is ready exactly when the observed generation equals the
    generation, at least the desired number of replicas are updated and
    available, and the `Available` condition is `True`.
  - `IsDeploymentReady` is written as a method that scans the conditions in
    a loop. It is proved equal to the reference predicate
    `DeploymentReady`, and every row of the controller's test table is a
    lemma.
- **Component finalization** (`Finalizer`). Before a DynamoNimDeployment
  goes away, the reconciler deletes every etcd key under
  `/<dynamoNamespace>/components/<serviceName>`.
  - It makes one `DeleteKeys` call with that prefix and hands the store's
    error back unchanged.
  - The store is a function argument `(state, prefix) -> (state, outcome)`.
  - The test's two mocks appear as functions.
  - An in-memory store that deletes by prefix shows what finalization does
    to the keys.
  - A parser for the prefix is its inverse for namespaces without '/'.
  - The prefix ends with the service name, not a '/'. Deleting by it
    therefore also removes the keys of any service whose name extends this
    one (see "## Findings").
- **Envoy bootstrap generation** (`Envoy`, `EnvoyFacts`).
  `GenerateEnvoyConfigurationContent` renders a fixed text/template with the
  seven `CreateEnvoyConfig` fields and admin port 9901, then trims white
  space at both ends.
  - The template is a list of pieces: template lines, with the rendered
    fields in place of the actions.
  - The partner of the rendering is a separately written `Bootstrap` layout,
    built from a listener, an ordered route list, a cluster list and the
    admin interface.
  - The lemmas prove that the trimmed rendering is that layout. From this
    follow the listener port, the debug route sitting immediately before
    the catch-all route, the header matched verbatim, both clusters with
    their endpoints, and the fixed admin port.

Helper modules:

- `Wrappers` holds `Option`, `Result` and `Outcome`.
- `GoInts` holds the `int32` and `int64` ranges of the Go fields.
- `Decimal` holds Go's `%d` formatting of integers, with a parser that
  reads the printed text back. The parser is only a left inverse: it also
  accepts texts such as "007" and "-0" that are never printed.
- `Strings` holds Go's `strings.TrimFunc`, and `strings.TrimSpace` as
  `TrimFunc` with the `unicode.IsSpace` set. It also holds concatenation
  of piece lists.

Dafny functions are deterministic. So "generating twice from the same
configuration gives the same text" holds by construction and has no lemma.

The zero-replica rule comes from the test row "ready (no desired replicas)"
(dynamonimdeployment_controller_test.go:102-115). That row has generation 1,
observed generation 0 and an empty status, and it expects ready. So
`DeploymentReady` does not look at generations when the desired count is
zero.

## Model

| member | source | states |
|---|---|---|
| Readiness.IsDeploymentReady | deploy/dynamo/operator/internal/controller/dynamonimdeployment_controller_test.go:142-148 | The readiness check returns true exactly when the reference definition holds: the Deployment is present and not paused, and it either asks for zero replicas or has observed its generation, has updated and available replicas at least the desired count (default 1), and reports Available=True. |
| Readiness.NilDeploymentNotReady | deploy/dynamo/operator/internal/controller/dynamonimdeployment_controller_test.go:42-48 | A nil Deployment is not ready. |
| Readiness.DefaultReplicasAvailableFalseNotReady | deploy/dynamo/operator/internal/controller/dynamonimdeployment_controller_test.go:49-65 | With replicas unset (so one desired), nothing updated or available and Available=False, the Deployment is not ready. |
| Readiness.PausedDeploymentNotReady | deploy/dynamo/operator/internal/controller/dynamonimdeployment_controller_test.go:66-76 | A paused Deployment with an empty status is not ready. |
| Readiness.RolledOutDeploymentReady | deploy/dynamo/operator/internal/controller/dynamonimdeployment_controller_test.go:77-101 | Generation 1 observed, one replica desired, updated and available, and Available=True: ready. |
| Readiness.ZeroReplicasReady | deploy/dynamo/operator/internal/controller/dynamonimdeployment_controller_test.go:102-115 | Zero desired replicas with an empty status and an unobserved generation: ready. |
| Readiness.AvailableFalseNotReady | deploy/dynamo/operator/internal/controller/dynamonimdeployment_controller_test.go:116-140 | The fully rolled-out status of the "ready" row, with Available=False instead, is not ready. |
| Readiness.PausedNeverReady | deploy/dynamo/operator/internal/controller/dynamonimdeployment_controller_test.go:66-76 | No status makes a paused Deployment ready. |
| Readiness.ScaleToZeroAlwaysReady | deploy/dynamo/operator/internal/controller/dynamonimdeployment_controller_test.go:102-115 | Every unpaused Deployment that asks for zero replicas is ready, whatever its generations and status. |
| Readiness.EachRequirementNecessary | deploy/dynamo/operator/internal/controller/dynamonimdeployment_controller_test.go:77-140 | With a non-zero desired count, any one of these makes the Deployment not ready: a generation different from the observed one, too few updated replicas, too few available replicas, or conditions without Available=True. |
| Readiness.ReadyIsMonotone | deploy/dynamo/operator/internal/controller/dynamonimdeployment_controller_test.go:77-101 | A ready Deployment stays ready when more replicas are updated or available and extra conditions are inserted anywhere in its list. |
| Readiness.ConditionOrderIrrelevant | deploy/dynamo/operator/internal/controller/dynamonimdeployment_controller_test.go:91-96 | Reordering the reported conditions (the same multiset) does not change readiness. |
| Finalizer.ComponentsKeyPrefix | deploy/dynamo/operator/internal/controller/dynamonimdeployment_controller_test.go:178 | The prefix is "/", then the namespace, then "/components/", then the service name, each at its own offset, and its length is the sum of the parts' lengths. |
| Finalizer.FinalizeResource | deploy/dynamo/operator/internal/controller/dynamonimdeployment_controller_test.go:151-157 | Finalization calls the store once, at the resource's components prefix. The store's new state comes back, finalization succeeds exactly when the store call does, and a failure carries the store's own error. |
| Finalizer.ParseComponentsKeyPrefixRoundTrip | deploy/dynamo/operator/internal/controller/dynamonimdeployment_controller_test.go:178 | For a namespace without '/', parsing the derived prefix gives back the namespace and the service name. |
| Finalizer.ParseComponentsKeyPrefixSound | deploy/dynamo/operator/internal/controller/dynamonimdeployment_controller_test.go:178 | Every prefix the parser accepts is the derived prefix of what it returns, and the namespace it returns has no '/'. |
| Finalizer.ComponentsKeyPrefixInjective | deploy/dynamo/operator/internal/controller/dynamonimdeployment_controller_test.go:187-193 | Two resources with slash-free namespaces share a prefix only if they have the same namespace and service name. |
| Finalizer.FinalizeServiceOneUsesItsPrefix | deploy/dynamo/operator/internal/controller/dynamonimdeployment_controller_test.go:173-197 | Whatever the store, finalizing service1 in namespace "default" is exactly the store's answer for "/default/components/service1". |
| Finalizer.AcceptServiceOnePrefix | deploy/dynamo/operator/internal/controller/dynamonimdeployment_controller_test.go:177-182 | The first mock succeeds exactly for service1's prefix in namespace "default". Any other prefix fails with "invalid prefix: " followed by that prefix. |
| Finalizer.RejectEveryPrefix | deploy/dynamo/operator/internal/controller/dynamonimdeployment_controller_test.go:202-204 | The second mock fails for every prefix, and its error ends with the prefix it was given. |
| Finalizer.FinalizeSucceedsWhenDeleteSucceeds | deploy/dynamo/operator/internal/controller/dynamonimdeployment_controller_test.go:173-197 | Against the mock that accepts only "/default/components/service1", finalizing service1 in "default" returns no error. |
| Finalizer.FinalizeFailsWhenDeleteFails | deploy/dynamo/operator/internal/controller/dynamonimdeployment_controller_test.go:198-219 | Against the mock that rejects every prefix, finalizing returns that mock's error "invalid prefix: /default/components/service1". |
| Finalizer.MemoryDeleteKeys | deploy/dynamo/operator/internal/controller/dynamonimdeployment_controller_test.go:151-157 | The in-memory store succeeds, and it keeps exactly the keys that do not start with the prefix, with their values unchanged. |
| Finalizer.FinalizeWithMemoryStore | deploy/dynamo/operator/internal/controller/dynamonimdeployment_controller_test.go:221-229 | Against a delete-by-prefix store, finalization succeeds, and exactly the keys that do not start with the resource's prefix remain, with their values unchanged. No key is added, and a retry succeeds without changing the store. |
| Finalizer.FinalizeDeletesExtendedServiceName | deploy/dynamo/operator/internal/controller/dynamonimdeployment_controller_test.go:178 | For every namespace, service name and extension of that name, finalizing the service against a delete-by-prefix store removes every key that starts with the extended service's prefix. |
| Finalizer.FinalizeServiceOneDeletesServiceTen | deploy/dynamo/operator/internal/controller/dynamonimdeployment_controller_test.go:178 | Finalizing service1 in "default" removes the key "/default/components/service10/endpoint:1", whatever else the store holds. |
| Finalizer.SeparatedKeyPrefix | deploy/dynamo/operator/internal/controller/dynamonimdeployment_controller_test.go:178 | The corrected prefix ends with '/'. When namespace and service name contain no '/', every key under it is owned by exactly that namespace and service name. |
| Finalizer.FinalizeResourceSeparated | deploy/dynamo/operator/internal/controller/dynamonimdeployment_controller_test.go:151-157 | The corrected finalization makes one store call at the separated prefix. It returns the store's new state, and it succeeds or fails with the store's own error exactly as the store call does. |
| Finalizer.SeparatedPrefixOwner | deploy/dynamo/operator/internal/controller/dynamonimdeployment_controller_test.go:178 | When namespace and service name contain no '/', every key under a resource's separated prefix is owned by exactly that namespace and service name. |
| Finalizer.FinalizeSeparatedKeepsOtherResources | deploy/dynamo/operator/internal/controller/dynamonimdeployment_controller_test.go:178 | With the separated prefix and names free of '/', finalizing one resource keeps every key of every other resource, with its value unchanged. |
| Envoy.TemplatePieces | deploy/dynamo/operator/internal/envoy/envoy.go:42-120 | The template has 46 pieces and opens and closes with a newline. The eight actions hold their own fields: the listen port, the header name and value, each server's address and port, and the admin port, with ports in decimal. |
| Envoy.RenderTemplate | deploy/dynamo/operator/internal/envoy/envoy.go:124-128 | The text written into the buffer is the template's inner pieces joined, between the newline that opens the raw string and the one that closes it. |
| Envoy.ExecuteTemplate | deploy/dynamo/operator/internal/envoy/envoy.go:123-128 | Executing the template with the configuration and admin port succeeds for every configuration. |
| Envoy.ReturnRendered | deploy/dynamo/operator/internal/envoy/envoy.go:129-132 | An execution error gives the empty string with that same error. Success gives the trimmed buffer with no error, and the text neither starts nor ends with white space. |
| Envoy.GenerateEnvoyConfigurationContent | deploy/dynamo/operator/internal/envoy/envoy.go:122-133 | The result has no error and is the text of the configuration's bootstrap layout. It starts with "static_resources:", ends with "port_value: 9901", and has no white space at either end. |
| Envoy.TemplatePiecesArePaddedLayout | deploy/dynamo/operator/internal/envoy/envoy.go:42-120 | The rendered template is the layout's pieces between a leading and a trailing newline. |
| Envoy.DebugRouteBlock | deploy/dynamo/operator/internal/envoy/envoy.go:71-77 | The template's debug route block is the layout of a route matching the debug header exactly, sent to service_debug. |
| Envoy.CatchAllRouteBlock | deploy/dynamo/operator/internal/envoy/envoy.go:78-81 | The template's second route block is the layout of a match-everything route to service_production. |
| Envoy.DebugClusterBlock | deploy/dynamo/operator/internal/envoy/envoy.go:84-97 | The template's first cluster block is the layout of cluster service_debug with the debug server's address and port. |
| Envoy.ProductionClusterBlock | deploy/dynamo/operator/internal/envoy/envoy.go:99-112 | The template's second cluster block is the layout of cluster service_production with the production server's address and port. |
| Envoy.AdminPortText | deploy/dynamo/operator/internal/envoy/envoy.go:28-30 | The admin port renders as "9901". |
| Envoy.LayoutBoundaries | deploy/dynamo/operator/internal/envoy/envoy.go:43-49 | A layout with admin port 9901 starts with "static_resources:" and ends with the admin block followed by "9901". |
| Envoy.LayoutFrame | deploy/dynamo/operator/internal/envoy/envoy.go:43-119 | A layout with admin port 9901 opens with the listener lines and closes with the admin lines followed by "9901". |
| Envoy.TrimmedRenderingIsLayout | deploy/dynamo/operator/internal/envoy/envoy.go:132 | Trimming the rendered template removes exactly its boundary newlines and leaves the layout. |
| EnvoyFacts.ListenerComesFirst | deploy/dynamo/operator/internal/envoy/envoy.go:43-49 | The generated configuration starts with the listener on 0.0.0.0, at the configured listen port in decimal. |
| EnvoyFacts.CatchAllRouteText | deploy/dynamo/operator/internal/envoy/envoy.go:78-81 | The catch-all route matches prefix "/" with no header and routes to service_production. |
| EnvoyFacts.HeaderMatchedVerbatim | deploy/dynamo/operator/internal/envoy/envoy.go:74-75 | A header-matching route contains the header name and value, each verbatim between double quotes. |
| EnvoyFacts.HeaderMatcherText | deploy/dynamo/operator/internal/envoy/envoy.go:74-75 | The header matcher's pieces render as the name line followed by the exact_match line, each value between double quotes. |
| EnvoyFacts.DebugRouteBeforeCatchAll | deploy/dynamo/operator/internal/envoy/envoy.go:70-81 | The generated text holds the debug route immediately followed by the catch-all route. The debug header's name and value occur verbatim inside the debug route. |
| EnvoyFacts.RoutesInContent | deploy/dynamo/operator/internal/envoy/envoy.go:70-81 | The generated text contains the debug route followed directly by the catch-all route. |
| EnvoyFacts.HeaderWithinRoute | deploy/dynamo/operator/internal/envoy/envoy.go:71-77 | Wherever a header-matching route occurs, its header matcher occurs inside that route's span. |
| EnvoyFacts.RoutesOccur | deploy/dynamo/operator/internal/envoy/envoy.go:65-81 | The routes of any layout appear in its text as one contiguous run. |
| EnvoyFacts.ClustersOccur | deploy/dynamo/operator/internal/envoy/envoy.go:83-112 | The clusters of any layout appear in its text as one contiguous run. |
| EnvoyFacts.TwoRoutesText | deploy/dynamo/operator/internal/envoy/envoy.go:71-81 | Two routes render one directly after the other. |
| EnvoyFacts.TwoClustersText | deploy/dynamo/operator/internal/envoy/envoy.go:84-112 | Two clusters render one after the other, with a blank line between them. |
| EnvoyFacts.ClusterCarriesEndpoint | deploy/dynamo/operator/internal/envoy/envoy.go:84-97 | A cluster starts with its name and the shared settings: 0.25s connect timeout, strict_dns, v4_only and round_robin. It ends with its endpoint's address and decimal port. |
| EnvoyFacts.ClustersInOrder | deploy/dynamo/operator/internal/envoy/envoy.go:83-112 | The generated text holds cluster service_debug at the debug server, a blank line, then cluster service_production at the production server. |
| EnvoyFacts.AdminPortFixed | deploy/dynamo/operator/internal/envoy/envoy.go:114-119 | Whatever the configuration, the generated text ends with the admin block on port 9901. |
| Decimal.FormatNat | deploy/dynamo/operator/internal/envoy/envoy.go:49 | A natural number renders as a non-empty string of decimal digits with no leading zero. |
| Decimal.FormatInt | deploy/dynamo/operator/internal/envoy/envoy.go:97 | An integer renders in decimal, with a minus sign exactly when it is negative and no leading zero: only 0 itself starts with '0', and no negative number's digits do. |
| Decimal.ParseFormatNat | deploy/dynamo/operator/internal/envoy/envoy.go:49 | Parsing the decimal text of a natural number gives that number back. |
| Decimal.ParseFormatInt | deploy/dynamo/operator/internal/envoy/envoy.go:97 | Parsing the decimal text of any integer, negative ones included, gives that integer back. |
| Decimal.FormatIntInjective | deploy/dynamo/operator/internal/envoy/envoy.go:112 | Different ports render differently. |
| Strings.LeadingEnd | deploy/dynamo/operator/internal/envoy/envoy.go:132 | From a start index, the scan stops at the first character that is not trimmed, or at the end; every character it passed is trimmed. |
| Strings.TrailingStart | deploy/dynamo/operator/internal/envoy/envoy.go:132 | From an end index, the backward scan stops just after the last character that is not trimmed, or at its lower bound; every character it passed is trimmed. |
| Strings.TrimFunc | deploy/dynamo/operator/internal/envoy/envoy.go:132 | The result is the slice of the input that starts where the leading run ends. Every character cut before or after it satisfies the predicate, and the result neither starts nor ends with such a character. |
| Strings.TrimSpace | deploy/dynamo/operator/internal/envoy/envoy.go:132 | The result is a slice of the input, the characters cut at both ends are all white space, and the result neither starts nor ends with white space. |
| Strings.TrimFuncOfPadded | deploy/dynamo/operator/internal/envoy/envoy.go:132 | Trimming padding made of trimmed characters from a text whose own ends are not trimmed returns exactly that text. |
| Strings.TrimFuncIdempotent | deploy/dynamo/operator/internal/envoy/envoy.go:132 | Trimming a trimmed text changes nothing. |
| Strings.TrimSpaceOfPadded | deploy/dynamo/operator/internal/envoy/envoy.go:132 | Trimming white-space padding from a text whose own ends are not white space returns that text. |
| Strings.TrimSpaceIdempotent | deploy/dynamo/operator/internal/envoy/envoy.go:132 | Trimming twice is trimming once. |

## Left out

- `IsDeploymentReady`'s Go body lives in the controller, which is not part of this model. Its behaviour is the one pinned by the test table. The method and the `DeploymentReady` predicate are written from that table.
- Readiness.DeploymentReady: the model requires the observed generation to equal the generation. The table never shows an observed generation greater than the generation, so treating that case as not ready is a modelling choice.
- Readiness: only three condition types (`Available`, `Progressing`, `ReplicaFailure`) are modelled. Reasons, messages and timestamps are left out because readiness never reads them.
- Finalizer: the `context.Context` argument, the Kubernetes client and the etcd client are left out. The store is a function parameter.
- Finalizer.FinalizeResource: empty service names and namespaces are not pinned by the source. The model forms the prefix the same way for them and still calls the store. An empty service name gives "/<namespace>/components/", under which every component key of the namespace lies. An empty namespace gives "//components/<service>".
- Finalizer.DynamoNimDeployment: the namespace is a plain string. The default used when `DynamoNamespace` is nil is not shown by the test, so it is not modelled.
- Finalizer.ComponentsKeyPrefixInjective: stated only for namespaces without '/'. Otherwise ("a/components/b", "c") and ("a", "b/components/c") give the same prefix.
- Envoy: the text/template parser and `template.Must` are left out. The template is taken as already parsed into its pieces.
- Envoy.ExecuteTemplate: the execution error path cannot be reached with string and integer fields and an in-memory buffer. `ReturnRendered` states what the function does when it is reached.
- Envoy: whether the output is valid YAML, and how Envoy interprets it, are left out. Header names or values containing a quote or a newline are inserted verbatim, exactly as text/template does.
- Envoy: Go `int` ports are modelled as 64-bit values. Nothing checks that they are valid TCP ports, and neither does the source.

## Findings

| source | as written | input that shows it | evidently intended | confidence | as-written member | corrected member |
|---|---|---|---|---|---|---|
| deploy/dynamo/operator/internal/controller/dynamonimdeployment_controller_test.go:178 | The components prefix ends with the service name and has no closing '/'. A store that deletes by prefix therefore also deletes the keys of every service whose name extends this one. | Namespace "default", service "service1", and a stored key "/default/components/service10/endpoint:1": finalizing service1 deletes service10's key. | Finalizing a resource deletes only its own components' keys. | not executed; low, because the layout of the keys under the prefix is not part of this model | Finalizer.FinalizeServiceOneDeletesServiceTen | Finalizer.FinalizeSeparatedKeepsOtherResources |

`Finalizer.FinalizeResource` keeps the prefix as written, because the test's
first mock accepts exactly "/default/components/service1".
`Finalizer.FinalizeResourceSeparated` is the corrected variant, which
deletes under the prefix followed by '/'. `FinalizeSeparatedKeepsOtherResources`
proves that this variant keeps every key of every other resource whose
names contain no '/'.
