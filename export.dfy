/**
 * Export composition: the flat per-type collections collected by the
 * fetcher become one nested document. Each loop of the composer is a
 * method proved against the functions of `ExportSpec`.
 */
module Export {
  import opened Resources
  import opened Catalog
  import opened ExportSpec
  import Strings
  import Fetcher

  /** The synchronous GET of one collection path, yielding its decoded items. */
  type Fetch = string -> Data

  /** The exported document: one entry per top-level key of the file. */
  datatype Document = Document(
    services: seq<Service>,
    upstreams: seq<Upstream>,
    consumers: seq<Consumer>,
    bundles: map<string, Data>)

  /** `list` holds the values of `m` and has one element per key. */
  ghost predicate Lists<T(!new)>(list: seq<T>, m: map<string, T>)
  {
    |list| == |m| && forall x :: x in list <==> x in m.Values
  }

  ghost predicate NoDuplicates<T>(list: seq<T>)
  {
    forall i, j :: 0 <= i < j < |list| ==> list[i] != list[j]
  }

  ghost predicate SortedByName(list: seq<Service>)
  {
    forall i, j :: 0 <= i < j < |list| ==> !Strings.Less(list[j].name, list[i].name)
  }

  /** Total number of routes nested under the listed services. */
  function NestedCount(list: seq<Service>): nat
  {
    if |list| == 0 then 0 else NestedCount(list[..|list| - 1]) + |list[|list| - 1].routes|
  }

  /** Path of an upstream's nested target collection. */
  function UpstreamTargetsPath(upstreamId: string): string
  {
    Strings.Join([UpstreamsPath, upstreamId, TargetsPath], "/")
  }

  /** An upstream with the targets fetched for it appended, in the order they came. */
  function WithTargets(u: Upstream, fetch: Fetch): Upstream
  {
    u.(targets := u.targets + DecodeAll(fetch(UpstreamTargetsPath(u.id)), AsTarget))
  }

  /** Walk a map in unspecified order, collecting its values. */
  method ListValues<T(==,!new)>(m: map<string, T>) returns (list: seq<T>)
    requires forall k, k' :: k in m && k' in m && m[k] == m[k'] ==> k == k'
    ensures Lists(list, m) && NoDuplicates(list)
  {
    var keys := m.Keys;
    ghost var taken: seq<string> := [];
    list := [];
    while keys != {}
      invariant keys <= m.Keys
      invariant |list| == |taken| && |list| + |keys| == |m.Keys|
      invariant forall i :: 0 <= i < |taken| ==> taken[i] in m && taken[i] !in keys && list[i] == m[taken[i]]
      invariant forall k :: k in m && k !in keys ==> k in taken
      invariant forall i, j :: 0 <= i < j < |taken| ==> taken[i] != taken[j]
      decreases |keys|
    {
      var k :| k in keys;
      list := list + [m[k]];
      taken := taken + [k];
      keys := keys - {k};
    }
    forall x | x in m.Values
      ensures x in list
    {
      var k :| k in m && m[k] == x;
      var i :| 0 <= i < |taken| && taken[i] == k;
    }
  }

  /** Insert `x` after every element whose name is not greater than its own. */
  method InsertByName(r: seq<Service>, x: Service) returns (r': seq<Service>)
    requires SortedByName(r)
    ensures SortedByName(r') && multiset(r') == multiset(r) + multiset{x}
  {
    var j := 0;
    while j < |r| && !Strings.Less(x.name, r[j].name)
      invariant 0 <= j <= |r|
      invariant forall k :: 0 <= k < j ==> !Strings.Less(x.name, r[k].name)
    {
      j := j + 1;
    }
    r' := r[..j] + [x] + r[j..];
    forall p, q | 0 <= p < q < |r'|
      ensures !Strings.Less(r'[q].name, r'[p].name)
    {
      if p == j {
        if q - 1 == j {
          Strings.LessAsymmetric(x.name, r[j].name);
        } else if Strings.Less(r[q - 1].name, x.name) {
          Strings.LessTransitive(r[q - 1].name, x.name, r[j].name);
        }
      }
    }
    assert r == r[..j] + r[j..];
  }

  /** `sort.Slice` by name: the services in non-decreasing name order. */
  method SortByName(a: seq<Service>) returns (r: seq<Service>)
    ensures SortedByName(r) && multiset(r) == multiset(a)
  {
    r := [];
    for i := 0 to |a|
      invariant SortedByName(r) && multiset(r) == multiset(a[..i])
    {
      r := InsertByName(r, a[i]);
      assert a[..i + 1] == a[..i] + [a[i]];
    }
    assert a[..|a|] == a;
  }

  lemma {:induction false} NestedCountConcat(u: seq<Service>, v: seq<Service>)
    ensures NestedCount(u + v) == NestedCount(u) + NestedCount(v)
    decreases |v|
  {
    if |v| == 0 {
      assert u + v == u;
    } else {
      assert (u + v)[..|u + v| - 1] == u + v[..|v| - 1];
      NestedCountConcat(u, v[..|v| - 1]);
    }
  }

  /** Reordering the services does not change how many routes they hold. */
  lemma {:induction false} NestedCountPermutation(a: seq<Service>, b: seq<Service>)
    requires multiset(a) == multiset(b)
    ensures NestedCount(a) == NestedCount(b)
    decreases |a|
  {
    if |a| == 0 {
      assert |b| == |multiset(b)| == 0;
    } else {
      var x := a[|a| - 1];
      assert x in multiset(b);
      var j :| 0 <= j < |b| && b[j] == x;
      var rest := b[..j] + b[j + 1..];
      assert b == b[..j] + [x] + b[j + 1..];
      assert a == a[..|a| - 1] + [x];
      assert multiset(rest) == multiset(b) - multiset{x};
      NestedCountPermutation(a[..|a| - 1], rest);
      NestedCountConcat(b[..j] + [x], b[j + 1..]);
      NestedCountConcat(b[..j], [x]);
      NestedCountConcat(b[..j], b[j + 1..]);
      assert NestedCount([x]) == |x.routes| by {
        assert [x][..0] == [];
      }
    }
  }

  /** Routes of `rs` nested under the listed services, counted service by service. */
  function RefCount(list: seq<Service>, rs: seq<Route>): nat
  {
    if |list| == 0 then 0 else RefCount(list[..|list| - 1], rs) + |RoutesOf(rs, list[|list| - 1].id)|
  }

  /** How many listed services the route refers to. */
  function Referenced(list: seq<Service>, r: Route): nat
  {
    if |list| == 0 then 0 else Referenced(list[..|list| - 1], r) + if RefersTo(r, list[|list| - 1].id) then 1 else 0
  }

  lemma {:induction false} RefCountStep(list: seq<Service>, rs: seq<Route>, r: Route)
    ensures RefCount(list, rs + [r]) == RefCount(list, rs) + Referenced(list, r)
    decreases |list|
  {
    assert (rs + [r])[..|rs|] == rs;
    if |list| > 0 {
      RefCountStep(list[..|list| - 1], rs, r);
    }
  }

  lemma {:induction false} ReferencedOnce(list: seq<Service>, r: Route)
    requires forall i, j :: 0 <= i < j < |list| ==> list[i].id != list[j].id
    requires r.service.Some? && exists i :: 0 <= i < |list| && list[i].id == r.service.value.id
    ensures Referenced(list, r) == 1
    decreases |list|
  {
    var prefix := list[..|list| - 1];
    if RefersTo(r, list[|list| - 1].id) {
      ReferencedNone(prefix, r);
    } else {
      var i :| 0 <= i < |list| && list[i].id == r.service.value.id;
      assert prefix[i].id == r.service.value.id;
      ReferencedOnce(prefix, r);
    }
  }

  lemma {:induction false} ReferencedNone(list: seq<Service>, r: Route)
    requires forall i :: 0 <= i < |list| ==> !RefersTo(r, list[i].id)
    ensures Referenced(list, r) == 0
    decreases |list|
  {
    if |list| > 0 {
      ReferencedNone(list[..|list| - 1], r);
    }
  }

  /** With distinct service ids covering every route's reference, each route is counted once. */
  lemma {:induction false} RefCountAll(list: seq<Service>, rs: seq<Route>)
    requires forall i, j :: 0 <= i < j < |list| ==> list[i].id != list[j].id
    requires forall k :: 0 <= k < |rs| ==>
               rs[k].service.Some? && exists i :: 0 <= i < |list| && list[i].id == rs[k].service.value.id
    ensures RefCount(list, rs) == |rs|
    decreases |rs|
  {
    if |rs| == 0 {
      RefCountEmpty(list);
    } else {
      var prefix := rs[..|rs| - 1];
      RefCountAll(list, prefix);
      assert rs == prefix + [rs[|rs| - 1]];
      RefCountStep(list, prefix, rs[|rs| - 1]);
      ReferencedOnce(list, rs[|rs| - 1]);
    }
  }

  lemma {:induction false} RefCountEmpty(list: seq<Service>)
    ensures RefCount(list, []) == 0
    decreases |list|
  {
    if |list| > 0 {
      RefCountEmpty(list[..|list| - 1]);
    }
  }

  lemma {:induction false} NestedCountIsRefCount(list: seq<Service>, rs: seq<Route>)
    requires forall i :: 0 <= i < |list| ==> list[i].routes == RoutesOf(rs, list[i].id)
    ensures NestedCount(list) == RefCount(list, rs)
    decreases |list|
  {
    if |list| > 0 {
      NestedCountIsRefCount(list[..|list| - 1], rs);
    }
  }

  /**
   * Listing the nested service map loses no route: when the fetched services
   * carry no routes, the listed services hold exactly as many routes as
   * were fetched.
   */
  lemma ListedRoutesCount(config: map<string, Data>, list: seq<Service>)
    requires RoutesResolve(IndexBy(Services(config), ServiceKey), Routes(config))
    requires Lists(list, NestedServices(config)) && NoDuplicates(list)
    requires forall s :: s in Services(config) ==> s.routes == []
    ensures NestedCount(list) == |Routes(config)|
  {
    var m := NestedServices(config);
    var rs := Routes(config);
    forall i | 0 <= i < |list|
      ensures list[i].id in m && m[list[i].id] == list[i]
      ensures list[i].routes == RoutesOf(rs, list[i].id)
    {
      assert list[i] in m.Values;
      var k :| k in m && m[k] == list[i];
      NestedServicesShape(config, k);
    }
    forall k | 0 <= k < |rs|
      ensures rs[k].service.Some? && exists i :: 0 <= i < |list| && list[i].id == rs[k].service.value.id
    {
      var id := rs[k].service.value.id;
      NestedServicesShape(config, id);
      assert m[id] in m.Values;
      var i :| 0 <= i < |list| && list[i] == m[id];
    }
    NestedCountIsRefCount(list, rs);
    RefCountAll(list, rs);
  }

  /** The service index: each fetched service under its identifier, the last one winning. */
  method IndexServices(config: map<string, Data>) returns (serviceMap: map<string, Service>)
    ensures serviceMap == IndexBy(Services(config), ServiceKey)
  {
    var serviceItems := Lookup(config, ServicesPath);
    serviceMap := map[];
    for i := 0 to |serviceItems|
      invariant serviceMap == IndexBy(Services(config)[..i], ServiceKey)
    {
      var service := AsService(serviceItems[i]);
      assert Services(config)[..i + 1][..i] == Services(config)[..i];
      serviceMap := serviceMap[service.id := service];
    }
    assert Services(config)[..|serviceItems|] == Services(config);
  }

  /** The route loop: each route, back-reference cleared, appended to its service. */
  method AttachRouteItems(config: map<string, Data>, base: map<string, Service>) returns (serviceMap: map<string, Service>)
    requires RoutesResolve(base, Routes(config))
    ensures serviceMap == AttachRoutes(base, Routes(config))
  {
    var routeItems := Lookup(config, RoutesPath);
    serviceMap := base;
    for i := 0 to |routeItems|
      invariant RoutesResolve(base, Routes(config)[..i])
      invariant serviceMap == AttachRoutes(base, Routes(config)[..i])
    {
      var route := AsRoute(routeItems[i]);
      var routePrepared := route.(service := None);
      assert Routes(config)[..i + 1][..i] == Routes(config)[..i];
      var id := route.service.value.id;
      serviceMap := serviceMap[id := serviceMap[id].(routes := serviceMap[id].routes + [routePrepared])];
    }
    assert Routes(config)[..|routeItems|] == Routes(config);
  }

  /**
   * Services with their routes nested under them, sorted by name
   * (export.go, the service index, the route loop, the flattening loop and
   * the sort).
   */
  method NestServices(config: map<string, Data>) returns (services: seq<Service>)
    requires RoutesResolve(IndexBy(Services(config), ServiceKey), Routes(config))
    ensures SortedByName(services) && Lists(services, NestedServices(config))
    ensures (forall s :: s in Services(config) ==> s.routes == []) ==> NestedCount(services) == |Routes(config)|
  {
    var base := IndexServices(config);
    var serviceMap := AttachRouteItems(config, base);
    assert serviceMap == NestedServices(config);
    forall k, k' | k in serviceMap && k' in serviceMap && serviceMap[k] == serviceMap[k']
      ensures k == k'
    {
      NestedServicesShape(config, k);
      NestedServicesShape(config, k');
    }
    var unsorted := ListValues(serviceMap);
    services := SortByName(unsorted);
    SortedListsSame(unsorted, services, serviceMap);
    if forall s :: s in Services(config) ==> s.routes == [] {
      ListedRoutesCount(config, unsorted);
      NestedCountPermutation(unsorted, services);
    }
  }

  /** A permutation of a listing of `m` is a listing of `m`. */
  lemma SortedListsSame<T(!new)>(unsorted: seq<T>, sorted: seq<T>, m: map<string, T>)
    requires Lists(unsorted, m) && multiset(sorted) == multiset(unsorted)
    ensures Lists(sorted, m)
  {
    assert forall x :: x in sorted <==> x in multiset(unsorted);
    assert |sorted| == |multiset(sorted)| == |unsorted|;
  }

  /**
   * Upstreams in fetched order, each with the targets fetched from its own
   * nested collection appended.
   */
  method CollectUpstreams(config: map<string, Data>, fetch: Fetch) returns (upstreams: seq<Upstream>)
    ensures |upstreams| == |Upstreams(config)|
    ensures forall i :: 0 <= i < |upstreams| ==> upstreams[i] == WithTargets(Upstreams(config)[i], fetch)
  {
    var items := Lookup(config, UpstreamsPath);
    upstreams := [];
    for i := 0 to |items|
      invariant |upstreams| == i
      invariant forall k :: 0 <= k < i ==> upstreams[k] == WithTargets(Upstreams(config)[k], fetch)
    {
      var upstream := AsUpstream(items[i]);
      var targets := fetch(UpstreamTargetsPath(upstream.id));
      for j := 0 to |targets|
        invariant upstream == AsUpstream(items[i]).(targets := AsUpstream(items[i]).targets + DecodeAll(targets[..j], AsTarget))
      {
        assert DecodeAll(targets[..j + 1], AsTarget) == DecodeAll(targets[..j], AsTarget) + [AsTarget(targets[j])];
        upstream := upstream.(targets := upstream.targets + [AsTarget(targets[j])]);
      }
      assert targets[..|targets|] == targets;
      upstreams := upstreams + [upstream];
    }
  }

  /** The consumer loop: index the fetched consumers by identifier. */
  method IndexConsumers(config: map<string, Data>) returns (consumerMap: map<string, Consumer>)
    ensures consumerMap == IndexBy(Consumers(config), ConsumerKey)
  {
    var consumerItems := Lookup(config, ConsumersPath);
    consumerMap := map[];
    for i := 0 to |consumerItems|
      invariant consumerMap == IndexBy(Consumers(config)[..i], ConsumerKey)
    {
      var consumer := AsConsumer(consumerItems[i]);
      assert Consumers(config)[..i + 1][..i] == Consumers(config)[..i];
      consumerMap := consumerMap[consumer.id := consumer];
    }
    assert Consumers(config)[..|consumerItems|] == Consumers(config);
  }

  /** The key-auth loop: each key-auth's key set on the consumer it names. */
  method MergeKeyAuths(config: map<string, Data>, base: map<string, Consumer>) returns (consumerMap: map<string, Consumer>)
    requires KeyAuthsResolve(base, KeyAuths(config))
    ensures consumerMap == ApplyKeys(base, KeyAuths(config))
  {
    var keyAuthItems := Lookup(config, KeyAuthsPath);
    consumerMap := base;
    for i := 0 to |keyAuthItems|
      invariant KeyAuthsResolve(base, KeyAuths(config)[..i])
      invariant consumerMap == ApplyKeys(base, KeyAuths(config)[..i])
    {
      var keyAuth := AsKeyAuth(keyAuthItems[i]);
      assert KeyAuths(config)[..i + 1][..i] == KeyAuths(config)[..i];
      consumerMap := consumerMap[keyAuth.consumerId := consumerMap[keyAuth.consumerId].(key := keyAuth.key)];
    }
    assert KeyAuths(config)[..|keyAuthItems|] == KeyAuths(config);
  }

  /** Consumers with their key-auth keys merged in, in unspecified order. */
  method MergeConsumers(config: map<string, Data>) returns (consumers: seq<Consumer>)
    requires KeyAuthsResolve(IndexBy(Consumers(config), ConsumerKey), KeyAuths(config))
    ensures Lists(consumers, MergedConsumers(config)) && NoDuplicates(consumers)
  {
    var consumerMap := IndexConsumers(config);
    consumerMap := MergeKeyAuths(config, consumerMap);
    forall k, k' | k in consumerMap && k' in consumerMap && consumerMap[k] == consumerMap[k']
      ensures k == k'
    {
      MergedConsumersKeyed(config, k);
      MergedConsumersKeyed(config, k');
    }
    consumers := ListValues(consumerMap);
  }

  /** Every other bundle's items, copied through under the bundle's own path. */
  method CopyBundles(config: map<string, Data>) returns (bundles: map<string, Data>)
    ensures bundles.Keys == set p | p in ExportResourceBundles
    ensures forall p :: p in bundles ==> bundles[p] == Lookup(config, p)
  {
    bundles := map[];
    for i := 0 to |ExportResourceBundles|
      invariant bundles.Keys == set p | p in ExportResourceBundles[..i]
      invariant forall p :: p in bundles ==> bundles[p] == Lookup(config, p)
    {
      var path := ExportResourceBundles[i];
      var items := Lookup(config, path);
      var collection: Data := [];
      for j := 0 to |items|
        invariant collection == items[..j]
      {
        collection := collection + [items[j]];
      }
      assert items[..|items|] == items;
      assert ExportResourceBundles[..i + 1] == ExportResourceBundles[..i] + [path];
      bundles := bundles[path := collection];
    }
    assert ExportResourceBundles[..|ExportResourceBundles|] == ExportResourceBundles;
  }

  /** What the composer promises about the document it builds from `config`. */
  ghost predicate ComposedFrom(doc: Document, config: map<string, Data>, fetch: Fetch)
    requires RoutesResolve(IndexBy(Services(config), ServiceKey), Routes(config))
    requires KeyAuthsResolve(IndexBy(Consumers(config), ConsumerKey), KeyAuths(config))
  {
    && SortedByName(doc.services)
    && Lists(doc.services, NestedServices(config))
    && ((forall s :: s in Services(config) ==> s.routes == []) ==> NestedCount(doc.services) == |Routes(config)|)
    && |doc.upstreams| == |Upstreams(config)|
    && (forall i :: 0 <= i < |doc.upstreams| ==> doc.upstreams[i] == WithTargets(Upstreams(config)[i], fetch))
    && Lists(doc.consumers, MergedConsumers(config))
    && NoDuplicates(doc.consumers)
    && doc.bundles.Keys == (set p | p in ExportResourceBundles)
    && (forall p :: p in doc.bundles ==> doc.bundles[p] == Lookup(config, p))
  }

  /**
   * `composeConfig`: nest routes under services and sort them by name,
   * attach fetched targets to upstreams, merge key-auth keys onto consumers
   * and copy the other bundles through.
   */
  method ComposeConfig(config: map<string, Data>, fetch: Fetch) returns (doc: Document)
    requires RoutesResolve(IndexBy(Services(config), ServiceKey), Routes(config))
    requires KeyAuthsResolve(IndexBy(Consumers(config), ConsumerKey), KeyAuths(config))
    ensures ComposedFrom(doc, config, fetch)
  {
    var services := NestServices(config);
    var upstreams := CollectUpstreams(config, fetch);
    var consumers := MergeConsumers(config);
    var bundles := CopyBundles(config);
    doc := Document(services, upstreams, consumers, bundles);
  }

  /**
   * `getPreparedConfig`: wait for one answer per exported collection, then
   * compose the document from what was collected.
   */
  method GetPreparedConfig(answers: seq<Fetcher.Answer>, fetch: Fetch) returns (doc: Document)
    requires |Apis| <= |answers|
    requires RoutesResolve(IndexBy(Services(Fetcher.Gathered(answers[..|Apis|])), ServiceKey),
                           Routes(Fetcher.Gathered(answers[..|Apis|])))
    requires KeyAuthsResolve(IndexBy(Consumers(Fetcher.Gathered(answers[..|Apis|])), ConsumerKey),
                             KeyAuths(Fetcher.Gathered(answers[..|Apis|])))
    ensures ComposedFrom(doc, Fetcher.Gathered(answers[..|Apis|]), fetch)
  {
    var config := Fetcher.CollectAnswers(answers, |Apis|);
    doc := ComposeConfig(config, fetch);
  }
}
