/** Finalization of a DynamoNimDeployment: before the resource may go away,
    every etcd key its components registered under
    "/<namespace>/components/<service>" is deleted. The key store is a
    capability passed in as a function, so any test double (or the in-memory
    reference store below) can stand behind it. */
module Finalizer {
  import opened Wrappers

  /** The identity fields of a DynamoNimDeployment the finalizer reads. */
  datatype DynamoNimDeployment = DynamoNimDeployment(dynamoNamespace: string, serviceName: string)

  const ComponentsSegment := "/components/"

  /** The etcd key prefix under which a service's components live. */
  function ComponentsKeyPrefix(namespace: string, serviceName: string): (prefix: string)
    ensures |prefix| == |namespace| + |serviceName| + 13
    ensures prefix[0] == '/'
    ensures prefix[1..|namespace| + 1] == namespace
    ensures prefix[|namespace| + 1..|namespace| + 13] == ComponentsSegment
    ensures prefix[|namespace| + 13..] == serviceName
  {
    "/" + namespace + ComponentsSegment + serviceName
  }

  /** The store's `DeleteKeys(ctx, prefix) error` operation over a store
      state `S`: the new state and the error, `Pass` standing for nil. */
  type DeleteKeys<!S, +E> = (S, string) -> (S, Outcome<E>)

  /** `FinalizeResource`: one call to `DeleteKeys` with the resource's
      components prefix; the store's state and error come back unchanged. */
  function FinalizeResource<S, E>(deleteKeys: DeleteKeys<S, E>, store: S, resource: DynamoNimDeployment)
    : (r: (S, Outcome<E>))
    ensures var prefix := ComponentsKeyPrefix(resource.dynamoNamespace, resource.serviceName);
            && r.0 == deleteKeys(store, prefix).0
            && (r.1.Pass? <==> deleteKeys(store, prefix).1.Pass?)
            && (r.1.Fail? ==> r.1.error == deleteKeys(store, prefix).1.error)
  {
    deleteKeys(store, ComponentsKeyPrefix(resource.dynamoNamespace, resource.serviceName))
  }

  // ----- the inverse of the prefix derivation -----

  /** Index of the first '/' in `s`, or |s| when there is none. */
  function FirstSlash(s: string): (k: nat)
    ensures k <= |s|
    ensures forall i :: 0 <= i < k ==> s[i] != '/'
    ensures k < |s| ==> s[k] == '/'
  {
    if |s| == 0 || s[0] == '/' then 0 else 1 + FirstSlash(s[1..])
  }

  /** Splits a components prefix back into namespace and service name;
      `None` when `p` does not have the shape "/<ns>/components/<svc>"
      with a slash-free namespace. */
  function ParseComponentsKeyPrefix(p: string): (r: Option<(string, string)>)
  {
    if |p| == 0 || p[0] != '/' then None
    else
      var rest := p[1..];
      var k := FirstSlash(rest);
      if k + 12 <= |rest| && rest[k..k + 12] == ComponentsSegment
      then Some((rest[..k], rest[k + 12..]))
      else None
  }

  /** For a namespace without '/', the prefix determines the namespace and
      the service name. */
  lemma ParseComponentsKeyPrefixRoundTrip(namespace: string, serviceName: string)
    requires forall i :: 0 <= i < |namespace| ==> namespace[i] != '/'
    ensures ParseComponentsKeyPrefix(ComponentsKeyPrefix(namespace, serviceName)) == Some((namespace, serviceName))
  {
    var p := ComponentsKeyPrefix(namespace, serviceName);
    var rest := p[1..];
    assert rest == namespace + ComponentsSegment + serviceName;
    FirstSlashOf(namespace, ComponentsSegment + serviceName);
    assert rest[|namespace|..|namespace| + 12] == ComponentsSegment;
    assert rest[..|namespace|] == namespace;
    assert rest[|namespace| + 12..] == serviceName;
  }

  /** Whatever the parser accepts is a prefix the finalizer would derive. */
  lemma ParseComponentsKeyPrefixSound(p: string, namespace: string, serviceName: string)
    requires ParseComponentsKeyPrefix(p) == Some((namespace, serviceName))
    ensures ComponentsKeyPrefix(namespace, serviceName) == p
    ensures forall i :: 0 <= i < |namespace| ==> namespace[i] != '/'
  {
    var rest := p[1..];
    var k := FirstSlash(rest);
    assert rest == rest[..k] + rest[k..k + 12] + rest[k + 12..];
    assert p == [p[0]] + rest;
  }

  lemma {:induction false} FirstSlashOf(a: string, b: string)
    requires forall i :: 0 <= i < |a| ==> a[i] != '/'
    requires |b| > 0 && b[0] == '/'
    ensures FirstSlash(a + b) == |a|
    decreases |a|
  {
    if |a| > 0 {
      assert (a + b)[1..] == a[1..] + b;
      FirstSlashOf(a[1..], b);
    } else {
      assert a + b == b;
    }
  }

  /** Two resources whose namespaces contain no '/' share a key prefix only
      when they have the same namespace and service name. */
  lemma ComponentsKeyPrefixInjective(a: DynamoNimDeployment, b: DynamoNimDeployment)
    requires forall i :: 0 <= i < |a.dynamoNamespace| ==> a.dynamoNamespace[i] != '/'
    requires forall i :: 0 <= i < |b.dynamoNamespace| ==> b.dynamoNamespace[i] != '/'
    requires ComponentsKeyPrefix(a.dynamoNamespace, a.serviceName) == ComponentsKeyPrefix(b.dynamoNamespace, b.serviceName)
    ensures a == b
  {
    ParseComponentsKeyPrefixRoundTrip(a.dynamoNamespace, a.serviceName);
    ParseComponentsKeyPrefixRoundTrip(b.dynamoNamespace, b.serviceName);
  }

  // ----- the test doubles of TestDynamoNimDeploymentReconciler_FinalizeResource -----

  /** The first mock: succeeds only for "/default/components/service1" and
      otherwise reports the prefix it was given. */
  function AcceptServiceOnePrefix(store: (), prefix: string): (r: ((), Outcome<string>))
    ensures r.1.Pass? <==> prefix == ComponentsKeyPrefix("default", "service1")
    ensures r.1.Fail? ==> r.1.error == "invalid prefix: " + prefix
  {
    ServiceOnePrefix();
    if prefix == "/default/components/service1" then ((), Pass) else ((), Fail("invalid prefix: " + prefix))
  }

  lemma ServiceOnePrefix()
    ensures ComponentsKeyPrefix("default", "service1") == "/default/components/service1"
  {
    assert "/" + "default" == "/default";
    assert "/default" + ComponentsSegment == "/default/components/";
  }

  /** The second mock: every deletion fails, naming the prefix it was given. */
  function RejectEveryPrefix(store: (), prefix: string): (r: ((), Outcome<string>))
    ensures r.1.Fail?
    ensures |r.1.error| == |prefix| + 16 && r.1.error[16..] == prefix
  {
    ((), Fail("invalid prefix: " + prefix))
  }

  /** Whatever the store does, finalizing service1 in namespace "default"
      consults it at exactly "/default/components/service1". */
  lemma FinalizeServiceOneUsesItsPrefix<S, E>(deleteKeys: DeleteKeys<S, E>, store: S)
    ensures FinalizeResource(deleteKeys, store, DynamoNimDeployment("default", "service1"))
            == deleteKeys(store, "/default/components/service1")
  {
    assert ComponentsKeyPrefix("default", "service1") == "/default/components/service1";
  }

  lemma FinalizeSucceedsWhenDeleteSucceeds()
    ensures FinalizeResource(AcceptServiceOnePrefix, (), DynamoNimDeployment("default", "service1")).1 == Pass
  {
    FinalizeServiceOneUsesItsPrefix(AcceptServiceOnePrefix, ());
  }

  lemma FinalizeFailsWhenDeleteFails()
    ensures FinalizeResource(RejectEveryPrefix, (), DynamoNimDeployment("default", "service1")).1
            == Fail("invalid prefix: " + "/default/components/service1")
  {
    FinalizeServiceOneUsesItsPrefix(RejectEveryPrefix, ());
  }

  // ----- an in-memory key store with delete-by-prefix semantics -----

  predicate HasPrefix(key: string, prefix: string) {
    |prefix| <= |key| && key[..|prefix|] == prefix
  }

  /** Deletes every key that begins with `prefix`; deleting nothing succeeds. */
  function MemoryDeleteKeys<V, E>(store: map<string, V>, prefix: string): (r: (map<string, V>, Outcome<E>))
    ensures r.1 == Pass
    ensures forall key :: key in r.0 <==> key in store && !HasPrefix(key, prefix)
    ensures forall key :: key in r.0 ==> r.0[key] == store[key]
  {
    (map key | key in store && !HasPrefix(key, prefix) :: store[key], Pass)
  }

  /** Against a store that deletes by prefix, finalization succeeds, leaves
      no key of the resource's components, keeps every other key, and a
      retry is a successful no-op. */
  lemma FinalizeWithMemoryStore<V, E>(store: map<string, V>, resource: DynamoNimDeployment)
    ensures var prefix := ComponentsKeyPrefix(resource.dynamoNamespace, resource.serviceName);
            var (after, outcome) := FinalizeResource(MemoryDeleteKeys<V, E>, store, resource);
            && outcome == Pass
            && (forall key :: key in after <==> key in store && !HasPrefix(key, prefix))
            && (forall key :: key in store && !HasPrefix(key, prefix) ==> key in after && after[key] == store[key])
            && FinalizeResource(MemoryDeleteKeys<V, E>, after, resource) == (after, Pass)
  {
    var prefix := ComponentsKeyPrefix(resource.dynamoNamespace, resource.serviceName);
    var after := MemoryDeleteKeys<V, E>(store, prefix).0;
    var again := MemoryDeleteKeys<V, E>(after, prefix).0;
    assert again.Keys == after.Keys;
    assert again == after;
  }

  // ----- what the prefix also covers -----

  /** The prefix ends with the service name itself, not a separator, so a
      service whose name extends this one lies under it: finalizing
      "service1" against a delete-by-prefix store also removes the keys of
      "service10". */
  lemma FinalizeDeletesExtendedServiceName<V, E>(store: map<string, V>, namespace: string, serviceName: string,
                                                 suffix: string, rest: string)
    ensures var key := ComponentsKeyPrefix(namespace, serviceName + suffix) + rest;
            key !in FinalizeResource(MemoryDeleteKeys<V, E>, store, DynamoNimDeployment(namespace, serviceName)).0
  {
    var key := ComponentsKeyPrefix(namespace, serviceName + suffix) + rest;
    var prefix := ComponentsKeyPrefix(namespace, serviceName);
    assert key[..|prefix|] == prefix;
  }

  lemma FinalizeServiceOneDeletesServiceTen<V, E>(store: map<string, V>)
    ensures "/default/components/service10/endpoint:1"
            !in FinalizeResource(MemoryDeleteKeys<V, E>, store, DynamoNimDeployment("default", "service1")).0
  {
    ServiceOnePrefix();
    assert "service1" + "0" == "service10";
    assert ComponentsKeyPrefix("default", "service10") == "/default/components/service1" + "0";
    assert "/default/components/service10/endpoint:1"
           == ComponentsKeyPrefix("default", "service1" + "0") + "/endpoint:1";
    FinalizeDeletesExtendedServiceName<V, E>(store, "default", "service1", "0", "/endpoint:1");
  }

  // ----- the prefix closed by a separator -----

  predicate SlashFree(s: string) {
    forall i :: 0 <= i < |s| ==> s[i] != '/'
  }

  /** The components prefix followed by '/': the keys strictly inside the
      service's own directory. When the names contain no '/', every key
      under it belongs to exactly this namespace and service name. */
  function SeparatedKeyPrefix(namespace: string, serviceName: string): (prefix: string)
    ensures |prefix| > 0 && prefix[|prefix| - 1] == '/'
    ensures SlashFree(namespace) && SlashFree(serviceName)
            ==> forall key :: HasPrefix(key, prefix) ==> ComponentOwner(key) == Some((namespace, serviceName))
  {
    var prefix := ComponentsKeyPrefix(namespace, serviceName) + "/";
    assert SlashFree(namespace) && SlashFree(serviceName)
           ==> forall key :: HasPrefix(key, prefix) ==> ComponentOwner(key) == Some((namespace, serviceName)) by {
      if SlashFree(namespace) && SlashFree(serviceName) {
        forall key | HasPrefix(key, prefix)
          ensures ComponentOwner(key) == Some((namespace, serviceName))
        {
          assert key == prefix + key[|prefix|..];
          OwnerOfComponentKey(namespace, serviceName, key[|prefix|..]);
        }
      }
    }
    prefix
  }

  /** Finalization that deletes under the separated prefix. */
  function FinalizeResourceSeparated<S, E>(deleteKeys: DeleteKeys<S, E>, store: S, resource: DynamoNimDeployment)
    : (r: (S, Outcome<E>))
    ensures var prefix := SeparatedKeyPrefix(resource.dynamoNamespace, resource.serviceName);
            && r.0 == deleteKeys(store, prefix).0
            && (r.1.Pass? <==> deleteKeys(store, prefix).1.Pass?)
            && (r.1.Fail? ==> r.1.error == deleteKeys(store, prefix).1.error)
  {
    deleteKeys(store, SeparatedKeyPrefix(resource.dynamoNamespace, resource.serviceName))
  }

  /** The namespace and service name a component key belongs to: the first
      two '/'-free segments of "/<ns>/components/<svc>/...". */
  function ComponentOwner(key: string): (r: Option<(string, string)>)
    ensures r.Some? ==> SlashFree(r.value.0) && SlashFree(r.value.1)
  {
    if |key| == 0 || key[0] != '/' then None
    else
      var rest := key[1..];
      var k := FirstSlash(rest);
      if k + 12 <= |rest| && rest[k..k + 12] == ComponentsSegment then
        var tail := rest[k + 12..];
        var m := FirstSlash(tail);
        if m < |tail| then Some((rest[..k], tail[..m])) else None
      else None
  }

  /** A key under a resource's separated prefix belongs to that resource,
      when its namespace and service name contain no '/'. */
  lemma SeparatedPrefixOwner(namespace: string, serviceName: string, key: string)
    requires SlashFree(namespace) && SlashFree(serviceName)
    requires HasPrefix(key, SeparatedKeyPrefix(namespace, serviceName))
    ensures ComponentOwner(key) == Some((namespace, serviceName))
  {
  }

  lemma OwnerOfComponentKey(namespace: string, serviceName: string, after: string)
    requires SlashFree(namespace) && SlashFree(serviceName)
    ensures ComponentOwner(ComponentsKeyPrefix(namespace, serviceName) + "/" + after) == Some((namespace, serviceName))
  {
    var inner := "/" + after;
    var tail := serviceName + inner;
    KeyRegroup(namespace, serviceName, after);
    OwnerOfParts(namespace, tail);
    FirstSlashOf(serviceName, inner);
    assert tail[..|serviceName|] == serviceName;
  }

  lemma KeyRegroup(namespace: string, serviceName: string, after: string)
    ensures ComponentsKeyPrefix(namespace, serviceName) + "/" + after
            == "/" + (namespace + (ComponentsSegment + (serviceName + ("/" + after))))
  {
  }

  /** The owner of "/<ns>/components/<tail>" is the namespace and the part
      of the tail before its first '/'. */
  lemma OwnerOfParts(namespace: string, tail: string)
    requires SlashFree(namespace)
    ensures ComponentOwner("/" + (namespace + (ComponentsSegment + tail)))
            == (if FirstSlash(tail) < |tail| then Some((namespace, tail[..FirstSlash(tail)])) else None)
  {
    var segments := ComponentsSegment + tail;
    var rest := namespace + segments;
    var key := "/" + rest;
    assert key[0] == '/';
    assert key[1..] == rest;
    FirstSlashOf(namespace, segments);
    var k := |namespace|;
    SliceOfAppend(namespace, ComponentsSegment, tail);
    assert rest[k..k + 12] == ComponentsSegment;
    assert rest[..k] == namespace;
    assert rest[k + 12..] == tail;
  }

  /** The middle and the end of a three-part string, cut at the parts'
      lengths. */
  lemma SliceOfAppend(a: string, b: string, c: string)
    ensures (a + (b + c))[|a|..|a| + |b|] == b
    ensures (a + (b + c))[|a| + |b|..] == c
    ensures (a + (b + c))[..|a|] == a
  {
  }

  /** With the separated prefix, finalizing one resource keeps every key of
      any other resource, the names of both being free of '/'. */
  lemma {:induction false} FinalizeSeparatedKeepsOtherResources<V, E>(store: map<string, V>, a: DynamoNimDeployment,
                                                                      b: DynamoNimDeployment, key: string)
    requires SlashFree(a.dynamoNamespace) && SlashFree(a.serviceName)
    requires SlashFree(b.dynamoNamespace) && SlashFree(b.serviceName)
    requires a != b
    requires key in store && HasPrefix(key, SeparatedKeyPrefix(b.dynamoNamespace, b.serviceName))
    ensures var after := FinalizeResourceSeparated(MemoryDeleteKeys<V, E>, store, a).0;
            key in after && after[key] == store[key]
  {
    SeparatedPrefixOwner(b.dynamoNamespace, b.serviceName, key);
    if HasPrefix(key, SeparatedKeyPrefix(a.dynamoNamespace, a.serviceName)) {
      SeparatedPrefixOwner(a.dynamoNamespace, a.serviceName, key);
      assert false;
    }
  }
}
