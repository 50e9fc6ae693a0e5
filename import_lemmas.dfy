/**
 * What the import procedures promise, proved about `ImportSpec`: the order
 * and shape of the requests each family sends, where a fatal error stops
 * them, which identifiers are recorded, and that every plugin request
 * comes after the whole first phase.
 */
module ImportLemmas {
  import opened Resources
  import opened Catalog
  import opened Gateway
  import opened ImportSpec
  import Paths
  import Strings

  /**
   * A run of single POSTs to one collection sends the elements in input
   * order, one request each; every request but the last was created; the
   * run finishes exactly when every element was created; a run that did not
   * finish ends with the request that failed.
   */
  lemma {:induction false} PostEachRequests<T>(server: Server, path: string, body: T -> Item, key: T -> Option<string>,
                                               xs: seq<T>, store: Store)
    ensures var o := Sequence(xs, PostEach(server, path, body, key), store);
            && |o.requests| <= |xs|
            && (forall k :: 0 <= k < |o.requests| ==> o.requests[k] == Post(path, body(xs[k])))
            && (forall k :: 0 <= k < |o.requests| - 1 ==> Created(server(o.requests[k])))
            && (o.ok <==> |o.requests| == |xs| && forall k :: 0 <= k < |xs| ==> Created(server(o.requests[k])))
            && (!o.ok ==> |o.requests| > 0 && !Created(server(o.requests[|o.requests| - 1])))
    decreases |xs|
  {
    if |xs| > 0 {
      var n := |xs|;
      PostEachRequests(server, path, body, key, xs[..n - 1], store);
      var prev := Sequence(xs[..n - 1], PostEach(server, path, body, key), store);
      var o := Sequence(xs, PostEach(server, path, body, key), store);
      if prev.ok {
        assert o.requests == prev.requests + [Post(path, body(xs[n - 1]))];
        assert o.ok == Created(server(Post(path, body(xs[n - 1]))));
      } else {
        assert o == prev;
      }
    }
  }

  /**
   * A run of single POSTs leaves alone every key none of its elements
   * records, and once it finishes every element's key is recorded.
   */
  lemma {:induction false} PostEachStore<T>(server: Server, path: string, body: T -> Item, key: T -> Option<string>,
                                            xs: seq<T>, store: Store, k: string)
    ensures var o := Sequence(xs, PostEach(server, path, body, key), store);
            && ((forall j :: 0 <= j < |xs| ==> key(xs[j]) != Some(k)) ==> (k in o.store <==> k in store) && Get(o.store, k) == Get(store, k))
            && (o.ok && (exists j :: 0 <= j < |xs| && key(xs[j]) == Some(k)) ==> k in o.store)
    decreases |xs|
  {
    if |xs| > 0 {
      var n := |xs|;
      PostEachStore(server, path, body, key, xs[..n - 1], store, k);
      var prev := Sequence(xs[..n - 1], PostEach(server, path, body, key), store);
      var o := Sequence(xs, PostEach(server, path, body, key), store);
      if prev.ok {
        var last := PostOne(server, path, body(xs[n - 1]), key(xs[n - 1]), prev.store);
        assert o.store == last.store;
        if o.ok && exists j :: 0 <= j < |xs| && key(xs[j]) == Some(k) {
          var j :| 0 <= j < |xs| && key(xs[j]) == Some(k);
          if j < n - 1 {
            assert xs[..n - 1][j] == xs[j];
          }
        }
        if forall j :: 0 <= j < |xs| ==> key(xs[j]) != Some(k) {
          var ys := xs[..n - 1];
          assert forall j :: 0 <= j < |ys| ==> key(ys[j]) != Some(k) by {
            forall j | 0 <= j < |ys| ensures key(ys[j]) != Some(k) { assert ys[j] == xs[j]; }
          }
        }
      } else {
        assert !o.ok && o == prev;
        if forall j :: 0 <= j < |xs| ==> key(xs[j]) != Some(k) {
          var ys := xs[..n - 1];
          assert forall j :: 0 <= j < |ys| ==> key(ys[j]) != Some(k) by {
            forall j | 0 <= j < |ys| ensures key(ys[j]) != Some(k) { assert ys[j] == xs[j]; }
          }
        }
      }
    }
  }

  /**
   * The value a run of single POSTs records: once the run finishes, the key
   * of an element that no later element reuses maps to the identifier the
   * gateway returned for that element's own POST.
   */
  lemma {:induction false} PostEachValue<T>(server: Server, path: string, body: T -> Item, key: T -> Option<string>,
                                            xs: seq<T>, store: Store, j: nat)
    requires j < |xs| && key(xs[j]).Some?
    requires forall i :: j < i < |xs| ==> key(xs[i]) != key(xs[j])
    ensures var o := Sequence(xs, PostEach(server, path, body, key), store);
            o.ok ==> Created(server(Post(path, body(xs[j])))) &&
                     Get(o.store, key(xs[j]).value) == server(Post(path, body(xs[j]))).id
    decreases |xs|
  {
    var n := |xs|;
    var ys := xs[..n - 1];
    var prev := Sequence(ys, PostEach(server, path, body, key), store);
    var o := Sequence(xs, PostEach(server, path, body, key), store);
    if o.ok {
      assert prev.ok;
      var last := PostOne(server, path, body(xs[n - 1]), key(xs[n - 1]), prev.store);
      assert o.store == last.store;
      if j < n - 1 {
        assert ys[j] == xs[j];
        assert forall i :: j < i < |ys| ==> key(ys[i]) != key(ys[j]) by {
          forall i | j < i < |ys| ensures key(ys[i]) != key(ys[j]) { assert ys[i] == xs[i]; }
        }
        PostEachValue(server, path, body, key, ys, store, j);
        assert key(xs[n - 1]) != key(xs[j]);
      }
    }
  }

  /**
   * `createServiceWithRoutes`: the service goes first, to the services
   * collection, without identifier and routes. If it is refused nothing is
   * recorded and nothing more is sent. Otherwise its routes follow in
   * order, each without identifier, to the routes collection under the
   * service's name.
   */
  lemma ServiceRequests(server: Server, service: Service, store: Store)
    ensures var o := CreateService(server, service, store);
            var first := Post(ServicesPath, ServiceItem(service.(id := "", routes := [])));
            && 1 <= |o.requests| <= 1 + |service.routes|
            && o.requests[0] == first
            && (!Created(server(first)) ==> o == Outcome([first], store, false))
            && (forall k :: 1 <= k < |o.requests| ==>
                  o.requests[k] == Post(RoutesCollection(service.name), RouteItem(service.routes[k - 1].(id := ""))))
            && (o.ok <==> |o.requests| == 1 + |service.routes| && forall k :: 0 <= k < |o.requests| ==> Created(server(o.requests[k])))
  {
    var first := Post(ServicesPath, ServiceItem(service.(id := "", routes := [])));
    var created := PostOne(server, ServicesPath, ServiceItem(service.(id := "", routes := [])), Some(service.id), store);
    if Created(server(first)) {
      var path := RoutesCollection(service.name);
      var rs := service.routes;
      var routes := Sequence(rs, PostEach(server, path, RouteBody, RouteKey), created.store);
      PostEachRequests(server, path, RouteBody, RouteKey, rs, created.store);
      var o := CreateService(server, service, store);
      assert o.requests == [first] + routes.requests && o.store == routes.store && o.ok == routes.ok;
      assert forall k :: 1 <= k < |o.requests| ==> o.requests[k] == routes.requests[k - 1];
      if o.ok {
        forall k | 0 <= k < |o.requests|
          ensures Created(server(o.requests[k]))
        {
          if k > 0 {
            assert o.requests[k] == routes.requests[k - 1];
          }
        }
      } else if |o.requests| == 1 + |rs| {
        assert !Created(server(o.requests[|o.requests| - 1]));
      }
    }
  }

  /**
   * What `createServiceWithRoutes` records: once the service is created its
   * remote identifier is recorded (unless a route reuses its local one), and
   * when every route is created, every route identifier is recorded too.
   */
  lemma ServiceRecords(server: Server, service: Service, store: Store)
    ensures var o := CreateService(server, service, store);
            var first := Post(ServicesPath, ServiceItem(service.(id := "", routes := [])));
            && (Created(server(first)) && (forall r :: r in service.routes ==> r.id != service.id) ==>
                  Get(o.store, service.id) == server(first).id)
            && (o.ok ==> forall r :: r in service.routes ==> r.id in o.store)
            && (o.ok ==> forall j ::
                  (0 <= j < |service.routes| &&
                   forall i :: j < i < |service.routes| ==> service.routes[i].id != service.routes[j].id) ==>
                  var reply := server(Post(RoutesCollection(service.name), RouteItem(service.routes[j].(id := ""))));
                  Created(reply) && Get(o.store, service.routes[j].id) == reply.id)
  {
    var first := Post(ServicesPath, ServiceItem(service.(id := "", routes := [])));
    var created := PostOne(server, ServicesPath, ServiceItem(service.(id := "", routes := [])), Some(service.id), store);
    if Created(server(first)) {
      var path := RoutesCollection(service.name);
      var rs := service.routes;
      var routes := Sequence(rs, PostEach(server, path, RouteBody, RouteKey), created.store);
      var o := CreateService(server, service, store);
      assert o.store == routes.store && o.ok == routes.ok;
      if forall r :: r in rs ==> r.id != service.id {
        assert forall j :: 0 <= j < |rs| ==> RouteKey(rs[j]) != Some(service.id);
        PostEachStore(server, path, RouteBody, RouteKey, rs, created.store, service.id);
      }
      if o.ok {
        forall r | r in rs
          ensures r.id in o.store
        {
          var j :| 0 <= j < |rs| && rs[j] == r;
          assert RouteKey(rs[j]) == Some(r.id);
          PostEachStore(server, path, RouteBody, RouteKey, rs, created.store, r.id);
        }
        forall j | 0 <= j < |rs| && (forall i :: j < i < |rs| ==> rs[i].id != rs[j].id)
          ensures Created(server(Post(path, RouteItem(rs[j].(id := ""))))) &&
                  Get(o.store, rs[j].id) == server(Post(path, RouteItem(rs[j].(id := "")))).id
        {
          PostEachValue(server, path, RouteBody, RouteKey, rs, created.store, j);
        }
      }
    }
  }

  /**
   * `createUpstreamsWithTargets`: the upstream goes first, without
   * identifier and targets; if it is created its targets follow in order
   * to the targets collection under its name. Nothing is recorded.
   */
  lemma UpstreamRequests(server: Server, upstream: Upstream, store: Store)
    ensures var o := CreateUpstream(server, upstream, store);
            var first := Post(UpstreamsPath, UpstreamItem(upstream.(id := "", targets := [])));
            && 1 <= |o.requests| <= 1 + |upstream.targets|
            && o.requests[0] == first
            && o.store == store
            && (!Created(server(first)) ==> o == Outcome([first], store, false))
            && (forall k :: 1 <= k < |o.requests| ==>
                  o.requests[k] == Post(TargetsCollection(upstream.name), TargetItem(upstream.targets[k - 1])))
            && (o.ok <==> |o.requests| == 1 + |upstream.targets| && forall k :: 0 <= k < |o.requests| ==> Created(server(o.requests[k])))
  {
    var first := Post(UpstreamsPath, UpstreamItem(upstream.(id := "", targets := [])));
    if Created(server(first)) {
      var path := TargetsCollection(upstream.name);
      var ts := upstream.targets;
      var targets := Sequence(ts, PostEach(server, path, TargetBody, TargetKey), store);
      PostEachRequests(server, path, TargetBody, TargetKey, ts, store);
      var o := CreateUpstream(server, upstream, store);
      assert o.requests == [first] + targets.requests && o.store == targets.store && o.ok == targets.ok;
      assert forall k :: 1 <= k < |o.requests| ==> o.requests[k] == targets.requests[k - 1];
      if o.ok {
        forall k | 0 <= k < |o.requests|
          ensures Created(server(o.requests[k]))
        {
          if k > 0 {
            assert o.requests[k] == targets.requests[k - 1];
          }
        }
      } else if |o.requests| == 1 + |ts| {
        assert !Created(server(o.requests[|o.requests| - 1]));
      }
      forall k: string
        ensures (k in targets.store <==> k in store) && Get(targets.store, k) == Get(store, k)
      {
        PostEachStore(server, path, TargetBody, TargetKey, ts, store, k);
      }
      assert targets.store.Keys == store.Keys;
      forall k | k in store
        ensures targets.store[k] == store[k]
      {
        assert Get(targets.store, k) == Get(store, k);
      }
    }
  }

  /**
   * `createConsumersWithKeyAuths`: the consumer goes first, without
   * identifier and key. If it is refused nothing is recorded and nothing
   * more is sent. Otherwise its identifier is recorded and, only if it had
   * a key, that key is sent to the new consumer's key-auth collection.
   */
  lemma ConsumerRequests(server: Server, consumer: Consumer, store: Store)
    ensures var o := CreateConsumer(server, consumer, store);
            var first := Post(ConsumersPath, ConsumerItem(consumer.(id := "", key := "")));
            var reply := server(first);
            && (!Created(reply) ==> o == Outcome([first], store, false))
            && (Created(reply) ==> o.store == store[consumer.id := reply.id])
            && (Created(reply) && consumer.key == "" ==> o.requests == [first] && o.ok)
            && (Created(reply) && consumer.key != "" ==>
                  var keyAuth := Post(Paths.ConsumerKeyAuthURL(reply.id), KeyAuthItem(KeyAuth(consumer.key, "")));
                  o.requests == [first, keyAuth] && o.ok == Created(server(keyAuth)))
  {
    var reply := server(Post(ConsumersPath, ConsumerItem(consumer.(id := "", key := ""))));
    if Created(reply) {
      Strings.JoinThree(ConsumersPath, reply.id, KeyAuthPath, "/");
    }
  }

  /** A family's run is made of creation POSTs only, and only the plugins' are plugin POSTs. */
  lemma {:induction false} FamilyRequests(server: Server, family: Family, items: Data, store: Store)
    ensures forall r :: r in CreateAll(server, family, items, store).requests ==>
              r.Post? && (IsPluginPost(r) <==> family == PluginFamily)
    decreases |items|
  {
    if |items| > 0 {
      var n := |items|;
      FamilyRequests(server, family, items[..n - 1], store);
      var prev := CreateAll(server, family, items[..n - 1], store);
      if prev.ok {
        var last := CreateItem(server, family, items[n - 1], prev.store);
        match family {
          case ServiceFamily =>
            var service := AsService(items[n - 1]);
            ServiceRequests(server, service, prev.store);
            assert last == CreateService(server, service, prev.store);
            forall r | r in last.requests
              ensures r.Post? && !IsPluginPost(r)
            {
              var k :| 0 <= k < |last.requests| && last.requests[k] == r;
              if k > 0 {
                assert r == Post(RoutesCollection(service.name), RouteItem(service.routes[k - 1].(id := "")));
              }
            }
          case UpstreamFamily =>
            var upstream := AsUpstream(items[n - 1]);
            UpstreamRequests(server, upstream, prev.store);
            assert last == CreateUpstream(server, upstream, prev.store);
            forall r | r in last.requests
              ensures r.Post? && !IsPluginPost(r)
            {
              var k :| 0 <= k < |last.requests| && last.requests[k] == r;
              if k > 0 {
                assert r == Post(TargetsCollection(upstream.name), TargetItem(upstream.targets[k - 1]));
              }
            }
          case ConsumerFamily =>
            ConsumerRequests(server, AsConsumer(items[n - 1]), prev.store);
          case CertificateFamily =>
          case PluginFamily =>
        }
        assert CreateAll(server, family, items, store).requests == prev.requests + last.requests;
      }
    }
  }

  /**
   * The barrier between the phases: the run starts with every request of
   * the first phase, none of which is a plugin POST; every request after
   * them is a plugin POST; and if the first phase failed no plugin is sent.
   */
  lemma PluginsAfterPhase1(server: Server, config: map<string, Data>)
    ensures var phase1 := Phase1(server, Lookup(config, ServicesPath), Lookup(config, UpstreamsPath),
                                 Lookup(config, CertificatesPath), Lookup(config, ConsumersPath));
            var o := ImportRun(server, config);
            && phase1.requests <= o.requests
            && (forall r :: r in phase1.requests ==> !IsPluginPost(r))
            && (forall r :: r in o.requests[|phase1.requests|..] ==> IsPluginPost(r))
            && (!phase1.ok ==> o.requests == phase1.requests)
  {
    var services, upstreams := Lookup(config, ServicesPath), Lookup(config, UpstreamsPath);
    var certificates, consumers := Lookup(config, CertificatesPath), Lookup(config, ConsumersPath);
    var plugins := Lookup(config, PluginsPath);
    var s := CreateAll(server, ServiceFamily, services, map[]);
    var u := CreateAll(server, UpstreamFamily, upstreams, s.store);
    var c := CreateAll(server, CertificateFamily, certificates, u.store);
    var n := CreateAll(server, ConsumerFamily, consumers, c.store);
    FamilyRequests(server, ServiceFamily, services, map[]);
    FamilyRequests(server, UpstreamFamily, upstreams, s.store);
    FamilyRequests(server, CertificateFamily, certificates, u.store);
    FamilyRequests(server, ConsumerFamily, consumers, c.store);
    var cn := CertificatesOnward(server, certificates, consumers, u.store);
    assert cn == Chain(c, n);
    var ucn := UpstreamsOnward(server, upstreams, certificates, consumers, s.store);
    assert ucn == Chain(u, cn);
    var phase1 := Phase1(server, services, upstreams, certificates, consumers);
    assert phase1 == Chain(s, ucn);
    var p := CreateAll(server, PluginFamily, plugins, phase1.store);
    FamilyRequests(server, PluginFamily, plugins, phase1.store);
    var o := ImportRun(server, config);
    assert o == Chain(phase1, p);
    if phase1.ok {
      assert o.requests == phase1.requests + p.requests;
      assert o.requests[|phase1.requests|..] == p.requests;
    } else {
      assert o.requests[|phase1.requests|..] == [];
    }
  }

  /**
   * The plugin-for-service scenario: a service with local identifier
   * `local-id` and a plugin attached to it; the gateway creates everything
   * and answers `service1` for services. The plugin is sent last, with its
   * service identifier rewritten to `service1`.
   */
  lemma PluginFollowsItsService()
    ensures
      var server: Server := (r: Request) => if r.Post? && r.path == ServicesPath then Response(201, "service1") else Response(201, "");
      var service := ZeroService.(id := "local-id", name := "test-service");
      var plugin := ZeroPlugin.(name := "test-plugin", serviceId := "local-id");
      var config := map[ServicesPath := [ServiceItem(service)], PluginsPath := [PluginItem(plugin)]];
      var o := ImportRun(server, config);
      && o.ok
      && o.requests == [Post(ServicesPath, ServiceItem(service.(id := "", routes := []))),
                        Post(PluginsPath, PluginItem(plugin.(serviceId := "service1")))]
  {
    var server: Server := (r: Request) => if r.Post? && r.path == ServicesPath then Response(201, "service1") else Response(201, "");
    var service := ZeroService.(id := "local-id", name := "test-service");
    var plugin := ZeroPlugin.(name := "test-plugin", serviceId := "local-id");
    var config := map[ServicesPath := [ServiceItem(service)], PluginsPath := [PluginItem(plugin)]];
    var services := [ServiceItem(service)];
    assert Lookup(config, ServicesPath) == services;
    assert Lookup(config, UpstreamsPath) == [];
    assert Lookup(config, CertificatesPath) == [];
    assert Lookup(config, ConsumersPath) == [];
    assert Lookup(config, PluginsPath) == [PluginItem(plugin)];
    var first := Post(ServicesPath, ServiceItem(service.(id := "", routes := [])));
    assert server(first) == Response(201, "service1");
    var created := PostOne(server, ServicesPath, ServiceItem(service.(id := "", routes := [])), Some(service.id), map[]);
    assert created == Outcome([first], map["local-id" := "service1"], true);
    assert CreateService(server, service, map[]) == created;
    assert services[..0] == [];
    var s := CreateAll(server, ServiceFamily, services, map[]);
    assert s == Chain(CreateAll(server, ServiceFamily, services[..0], map[]), CreateItem(server, ServiceFamily, services[0], map[]));
    assert s == created;
    var phase1 := Phase1(server, services, [], [], []);
    assert phase1 == s;
    var plugins := [PluginItem(plugin)];
    assert plugins[..0] == [];
    var rewritten := Post(PluginsPath, PluginItem(plugin.(serviceId := "service1")));
    assert Rewrite(plugin, phase1.store) == plugin.(serviceId := "service1");
    assert server(rewritten) == Response(201, "");
    var p := CreateAll(server, PluginFamily, plugins, phase1.store);
    assert p == Chain(CreateAll(server, PluginFamily, plugins[..0], phase1.store), CreateItem(server, PluginFamily, plugins[0], phase1.store));
    assert p == Outcome([rewritten], phase1.store, true);
  }
}
