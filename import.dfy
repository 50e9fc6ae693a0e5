/**
 * Import: the creation procedures of each resource family and the phase
 * ordering of `createEntries`, run against a connection that logs every
 * request. Each procedure is proved to send exactly what `ImportSpec`
 * says and to leave the identifier map as `ImportSpec` says.
 */
module Import {
  import opened Resources
  import opened Catalog
  import opened Gateway
  import opened ImportSpec

  /** `ConcurrentStringMap`: local identifiers mapped to remote ones. */
  class IdMap {
    var store: Store

    constructor ()
      ensures store == map[]
    {
      store := map[];
    }

    /** `Add`: `key` now maps to `value`; every other key is as it was. */
    method Add(key: string, value: string)
      modifies this
      ensures store == old(store)[key := value]
      ensures forall k :: k != key ==> (k in store <==> k in old(store))
      ensures forall k :: k != key && k in store ==> store[k] == old(store)[k]
    {
      store := store[key := value];
    }
  }

  /** Taking one more element of a run that has not failed adds that element's step. */
  lemma SequenceNext<T>(xs: seq<T>, i: nat, step: (T, Store) -> Outcome, store: Store)
    requires i < |xs|
    requires Sequence(xs[..i], step, store).ok
    ensures var prev := Sequence(xs[..i], step, store);
            var last := step(xs[i], prev.store);
            Sequence(xs[..i + 1], step, store) == Outcome(prev.requests + last.requests, last.store, last.ok)
  {
    assert xs[..i + 1][..i] == xs[..i];
  }

  /** One more element of a run of single POSTs that has not failed: one more request. */
  lemma PostEachExtend<T>(server: Server, path: string, body: T -> Item, key: T -> Option<string>,
                          xs: seq<T>, i: nat, store: Store)
    requires i < |xs|
    requires Sequence(xs[..i], PostEach(server, path, body, key), store).ok
    ensures var prev := Sequence(xs[..i], PostEach(server, path, body, key), store);
            var next := Sequence(xs[..i + 1], PostEach(server, path, body, key), store);
            var reply := server(Post(path, body(xs[i])));
            && next.requests == prev.requests + [Post(path, body(xs[i]))]
            && next.ok == Created(reply)
            && next.store == if Created(reply) && key(xs[i]).Some? then prev.store[key(xs[i]).value := reply.id] else prev.store
  {
    SequenceNext(xs, i, PostEach(server, path, body, key), store);
  }

  /** The one POST of a certificate or a plugin (`addResource`). */
  method AddResource(conn: Connection, path: string, body: Item, ghost store: Store) returns (ok: bool)
    modifies conn
    ensures conn.sent == old(conn.sent) + PostOne(conn.server, path, body, None, store).requests
    ensures ok == PostOne(conn.server, path, body, None, store).ok
  {
    var reply := conn.Send(Post(path, body));
    ok := Created(reply);
  }

  /** The route loop of `createServiceWithRoutes`: each route without its identifier, recorded on success. */
  method PostRoutes(conn: Connection, routes: seq<Route>, routesURL: string, idMap: IdMap) returns (ok: bool)
    modifies conn, idMap
    ensures var o := Sequence(routes, PostEach(conn.server, routesURL, RouteBody, RouteKey), old(idMap.store));
            conn.sent == old(conn.sent) + o.requests && idMap.store == o.store && ok == o.ok
  {
    ghost var step := PostEach(conn.server, routesURL, RouteBody, RouteKey);
    ghost var sent0, store0 := conn.sent, idMap.store;
    ghost var run := Sequence(routes[..0], step, store0);
    for i := 0 to |routes|
      invariant run == Sequence(routes[..i], step, store0)
      invariant conn.sent == sent0 + run.requests && idMap.store == run.store && run.ok
    {
      var route := routes[i];
      var id := route.id;
      route := route.(id := "");
      PostEachExtend(conn.server, routesURL, RouteBody, RouteKey, routes, i, store0);
      run := Sequence(routes[..i + 1], step, store0);
      var reply := conn.Send(Post(routesURL, RouteItem(route)));
      if !Created(reply) {
        SequenceStops(routes, i + 1, step, store0);
        return false;
      }
      idMap.Add(id, reply.id);
    }
    assert routes[..|routes|] == routes;
    ok := true;
  }

  /**
   * `createServiceWithRoutes`: POST the service without identifier and
   * routes, record its identifier, then POST its routes one by one, each
   * without identifier, recording each; the first failure ends it.
   */
  method CreateServiceWithRoutes(conn: Connection, service: Service, idMap: IdMap) returns (ok: bool)
    modifies conn, idMap
    ensures conn.sent == old(conn.sent) + CreateService(conn.server, service, old(idMap.store)).requests
    ensures idMap.store == CreateService(conn.server, service, old(idMap.store)).store
    ensures ok == CreateService(conn.server, service, old(idMap.store)).ok
  {
    var routes := service.routes;
    var bare := service.(routes := []);
    var id := service.id;
    bare := bare.(id := "");

    var reply := conn.Send(Post(ServicesPath, ServiceItem(bare)));
    if !Created(reply) {
      return false;
    }
    idMap.Add(id, reply.id);

    var routesURL := RoutesCollection(service.name);
    ok := PostRoutes(conn, routes, routesURL, idMap);
  }

  /** The target loop of `createUpstreamsWithTargets`: each target in order. */
  method PostTargets(conn: Connection, targets: seq<Target>, targetsURL: string, ghost store: Store) returns (ok: bool)
    modifies conn
    ensures var o := Sequence(targets, PostEach(conn.server, targetsURL, TargetBody, TargetKey), store);
            conn.sent == old(conn.sent) + o.requests && o.store == store && ok == o.ok
  {
    ghost var step := PostEach(conn.server, targetsURL, TargetBody, TargetKey);
    ghost var sent0 := conn.sent;
    ghost var run := Sequence(targets[..0], step, store);
    for i := 0 to |targets|
      invariant run == Sequence(targets[..i], step, store)
      invariant conn.sent == sent0 + run.requests && run.store == store && run.ok
    {
      PostEachExtend(conn.server, targetsURL, TargetBody, TargetKey, targets, i, store);
      run := Sequence(targets[..i + 1], step, store);
      var reply := conn.Send(Post(targetsURL, TargetItem(targets[i])));
      if !Created(reply) {
        SequenceStops(targets, i + 1, step, store);
        return false;
      }
    }
    assert targets[..|targets|] == targets;
    ok := true;
  }

  /**
   * `createUpstreamsWithTargets`: POST the upstream without identifier and
   * targets, then its targets one by one; no identifier is recorded.
   */
  method CreateUpstreamWithTargets(conn: Connection, upstream: Upstream, ghost store: Store) returns (ok: bool)
    modifies conn
    ensures conn.sent == old(conn.sent) + CreateUpstream(conn.server, upstream, store).requests
    ensures ok == CreateUpstream(conn.server, upstream, store).ok
    ensures CreateUpstream(conn.server, upstream, store).store == store
  {
    var targets := upstream.targets;
    var bare := upstream.(targets := []);
    bare := bare.(id := "");

    var reply := conn.Send(Post(UpstreamsPath, UpstreamItem(bare)));
    if !Created(reply) {
      return false;
    }

    var targetsURL := TargetsCollection(upstream.name);
    ok := PostTargets(conn, targets, targetsURL, store);
  }

  /**
   * `createConsumersWithKeyAuths`: POST the consumer without identifier and
   * key, record its identifier, then, if it had a key, POST that key to the
   * new consumer's key-auth collection.
   */
  method CreateConsumerWithKeyAuth(conn: Connection, consumer: Consumer, idMap: IdMap) returns (ok: bool)
    modifies conn, idMap
    ensures conn.sent == old(conn.sent) + CreateConsumer(conn.server, consumer, old(idMap.store)).requests
    ensures idMap.store == CreateConsumer(conn.server, consumer, old(idMap.store)).store
    ensures ok == CreateConsumer(conn.server, consumer, old(idMap.store)).ok
  {
    var id := consumer.id;
    var bare := consumer.(id := "");
    var key := bare.key;
    bare := bare.(key := "");

    var reply := conn.Send(Post(ConsumersPath, ConsumerItem(bare)));
    if !Created(reply) {
      return false;
    }
    idMap.Add(id, reply.id);

    if key != "" {
      var keyAuthReply := conn.Send(Post(KeyAuthCollection(reply.id), KeyAuthItem(KeyAuth(key, ""))));
      if !Created(keyAuthReply) {
        return false;
      }
    }
    ok := true;
  }

  /** The services loop of `createEntries`: each service with its routes, in order. */
  method CreateServices(conn: Connection, items: Data, idMap: IdMap) returns (ok: bool)
    modifies conn, idMap
    ensures var o := CreateAll(conn.server, ServiceFamily, items, old(idMap.store));
            conn.sent == old(conn.sent) + o.requests && idMap.store == o.store && ok == o.ok
  {
    ghost var sent0, store0 := conn.sent, idMap.store;
    ghost var run := CreateAll(conn.server, ServiceFamily, items[..0], store0);
    for i := 0 to |items|
      invariant run == CreateAll(conn.server, ServiceFamily, items[..i], store0)
      invariant conn.sent == sent0 + run.requests && idMap.store == run.store && run.ok
    {
      var service := AsService(items[i]);
      CreateAllNext(conn.server, ServiceFamily, items, i, store0);
      ghost var prev, last := run, CreateService(conn.server, service, idMap.store);
      run := CreateAll(conn.server, ServiceFamily, items[..i + 1], store0);
      assert run == Outcome(prev.requests + last.requests, last.store, last.ok);
      ghost var before := conn.sent;
      ok := CreateServiceWithRoutes(conn, service, idMap);
      assert conn.sent == before + last.requests;
      assert conn.sent == sent0 + run.requests;
      if !ok {
        CreateAllStops(conn.server, ServiceFamily, items, i + 1, store0);
        return;
      }
    }
    assert items[..|items|] == items;
    ok := true;
  }

  /** The upstreams loop of `createEntries`: each upstream with its targets, in order. */
  method CreateUpstreams(conn: Connection, items: Data, ghost store: Store) returns (ok: bool)
    modifies conn
    ensures var o := CreateAll(conn.server, UpstreamFamily, items, store);
            conn.sent == old(conn.sent) + o.requests && o.store == store && ok == o.ok
  {
    ghost var sent0 := conn.sent;
    ghost var run := CreateAll(conn.server, UpstreamFamily, items[..0], store);
    for i := 0 to |items|
      invariant run == CreateAll(conn.server, UpstreamFamily, items[..i], store)
      invariant conn.sent == sent0 + run.requests && run.store == store && run.ok
    {
      var upstream := AsUpstream(items[i]);
      CreateAllNext(conn.server, UpstreamFamily, items, i, store);
      ghost var prev, last := run, CreateUpstream(conn.server, upstream, store);
      run := CreateAll(conn.server, UpstreamFamily, items[..i + 1], store);
      assert run == Outcome(prev.requests + last.requests, last.store, last.ok);
      ghost var before := conn.sent;
      ok := CreateUpstreamWithTargets(conn, upstream, store);
      assert conn.sent == before + last.requests;
      assert conn.sent == sent0 + run.requests;
      if !ok {
        CreateAllStops(conn.server, UpstreamFamily, items, i + 1, store);
        return;
      }
    }
    assert items[..|items|] == items;
    ok := true;
  }

  /** The certificates loop of `createEntries`: one POST each, in order. */
  method CreateCertificates(conn: Connection, items: Data, ghost store: Store) returns (ok: bool)
    modifies conn
    ensures var o := CreateAll(conn.server, CertificateFamily, items, store);
            conn.sent == old(conn.sent) + o.requests && o.store == store && ok == o.ok
  {
    ghost var sent0 := conn.sent;
    ghost var run := CreateAll(conn.server, CertificateFamily, items[..0], store);
    for i := 0 to |items|
      invariant run == CreateAll(conn.server, CertificateFamily, items[..i], store)
      invariant conn.sent == sent0 + run.requests && run.store == store && run.ok
    {
      var certificate := AsCertificate(items[i]);
      CreateAllNext(conn.server, CertificateFamily, items, i, store);
      run := CreateAll(conn.server, CertificateFamily, items[..i + 1], store);
      ok := AddResource(conn, CertificatesPath, CertificateItem(certificate), store);
      if !ok {
        CreateAllStops(conn.server, CertificateFamily, items, i + 1, store);
        return;
      }
    }
    assert items[..|items|] == items;
    ok := true;
  }

  /** The consumers loop of `createEntries`: each consumer with its key, in order. */
  method CreateConsumers(conn: Connection, items: Data, idMap: IdMap) returns (ok: bool)
    modifies conn, idMap
    ensures var o := CreateAll(conn.server, ConsumerFamily, items, old(idMap.store));
            conn.sent == old(conn.sent) + o.requests && idMap.store == o.store && ok == o.ok
  {
    ghost var sent0, store0 := conn.sent, idMap.store;
    ghost var run := CreateAll(conn.server, ConsumerFamily, items[..0], store0);
    for i := 0 to |items|
      invariant run == CreateAll(conn.server, ConsumerFamily, items[..i], store0)
      invariant conn.sent == sent0 + run.requests && idMap.store == run.store && run.ok
    {
      var consumer := AsConsumer(items[i]);
      CreateAllNext(conn.server, ConsumerFamily, items, i, store0);
      ghost var prev, last := run, CreateConsumer(conn.server, consumer, idMap.store);
      run := CreateAll(conn.server, ConsumerFamily, items[..i + 1], store0);
      assert run == Outcome(prev.requests + last.requests, last.store, last.ok);
      ghost var before := conn.sent;
      ok := CreateConsumerWithKeyAuth(conn, consumer, idMap);
      assert conn.sent == before + last.requests;
      assert conn.sent == sent0 + run.requests;
      if !ok {
        CreateAllStops(conn.server, ConsumerFamily, items, i + 1, store0);
        return;
      }
    }
    assert items[..|items|] == items;
    ok := true;
  }

  /**
   * The rewrite in the plugins loop of `createEntries`: each non-empty
   * foreign key is replaced by its entry in the identifier map.
   */
  method RewriteForeignKeys(plugin: Plugin, idMap: IdMap) returns (r: Plugin)
    ensures r == Rewrite(plugin, idMap.store)
  {
    r := plugin;
    if r.serviceId != "" {
      r := r.(serviceId := Get(idMap.store, r.serviceId));
    }
    if r.routeId != "" {
      r := r.(routeId := Get(idMap.store, r.routeId));
    }
    if r.consumerId != "" {
      r := r.(consumerId := Get(idMap.store, r.consumerId));
    }
  }

  /**
   * The plugins loop of `createEntries`: each non-empty foreign key is
   * replaced by its entry in the identifier map (empty when missing), then
   * the plugin is created.
   */
  method CreatePlugins(conn: Connection, items: Data, idMap: IdMap) returns (ok: bool)
    modifies conn
    ensures var o := CreateAll(conn.server, PluginFamily, items, idMap.store);
            conn.sent == old(conn.sent) + o.requests && o.store == idMap.store && ok == o.ok
  {
    ghost var sent0 := conn.sent;
    ghost var run := CreateAll(conn.server, PluginFamily, items[..0], idMap.store);
    for i := 0 to |items|
      invariant run == CreateAll(conn.server, PluginFamily, items[..i], idMap.store)
      invariant conn.sent == sent0 + run.requests && run.store == idMap.store && run.ok
    {
      var plugin := RewriteForeignKeys(AsPlugin(items[i]), idMap);
      CreateAllNext(conn.server, PluginFamily, items, i, idMap.store);
      ghost var prev, last := run, CreatePlugin(conn.server, AsPlugin(items[i]), idMap.store);
      run := CreateAll(conn.server, PluginFamily, items[..i + 1], idMap.store);
      assert run == Outcome(prev.requests + last.requests, last.store, last.ok);
      ok := AddResource(conn, PluginsPath, PluginItem(plugin), idMap.store);
      if !ok {
        CreateAllStops(conn.server, PluginFamily, items, i + 1, idMap.store);
        return;
      }
    }
    assert items[..|items|] == items;
    ok := true;
  }

  /** The certificates loop of `createEntries`, then the consumers loop. */
  method CreateCertificatesOnward(conn: Connection, certificates: Data, consumers: Data, idMap: IdMap) returns (ok: bool)
    modifies conn, idMap
    ensures var o := CertificatesOnward(conn.server, certificates, consumers, old(idMap.store));
            conn.sent == old(conn.sent) + o.requests && idMap.store == o.store && ok == o.ok
  {
    ghost var sent0 := conn.sent;
    ghost var first := CreateAll(conn.server, CertificateFamily, certificates, idMap.store);
    ok := CreateCertificates(conn, certificates, idMap.store);
    if !ok {
      return;
    }
    ghost var next := CreateAll(conn.server, ConsumerFamily, consumers, idMap.store);
    ok := CreateConsumers(conn, consumers, idMap);
    assert conn.sent == sent0 + first.requests + next.requests;
  }

  /** The upstreams loop of `createEntries`, then the rest of the first phase. */
  method CreateUpstreamsOnward(conn: Connection, upstreams: Data, certificates: Data, consumers: Data, idMap: IdMap)
    returns (ok: bool)
    modifies conn, idMap
    ensures var o := UpstreamsOnward(conn.server, upstreams, certificates, consumers, old(idMap.store));
            conn.sent == old(conn.sent) + o.requests && idMap.store == o.store && ok == o.ok
  {
    ghost var sent0 := conn.sent;
    ghost var first := CreateAll(conn.server, UpstreamFamily, upstreams, idMap.store);
    ok := CreateUpstreams(conn, upstreams, idMap.store);
    if !ok {
      return;
    }
    ghost var next := CertificatesOnward(conn.server, certificates, consumers, idMap.store);
    ok := CreateCertificatesOnward(conn, certificates, consumers, idMap);
    assert conn.sent == sent0 + first.requests + next.requests;
  }

  /**
   * The first phase of `createEntries`: every service, upstream, certificate
   * and consumer, family after family; a fatal error ends the run.
   */
  method CreatePhase1(conn: Connection, services: Data, upstreams: Data, certificates: Data, consumers: Data,
                      idMap: IdMap) returns (ok: bool)
    modifies conn, idMap
    requires idMap.store == map[]
    ensures var o := Phase1(conn.server, services, upstreams, certificates, consumers);
            conn.sent == old(conn.sent) + o.requests && idMap.store == o.store && ok == o.ok
  {
    ghost var sent0 := conn.sent;
    ghost var first := CreateAll(conn.server, ServiceFamily, services, map[]);
    ok := CreateServices(conn, services, idMap);
    if !ok {
      return;
    }
    ghost var next := UpstreamsOnward(conn.server, upstreams, certificates, consumers, idMap.store);
    ok := CreateUpstreamsOnward(conn, upstreams, certificates, consumers, idMap);
    assert conn.sent == sent0 + first.requests + next.requests;
  }

  /**
   * The two phases of `createEntries`: the first phase; once all of it is
   * done (the semaphore barrier), every plugin with its foreign keys
   * rewritten through the identifier map. A fatal error ends the run.
   */
  method CreatePhases(conn: Connection, services: Data, upstreams: Data, certificates: Data, consumers: Data,
                      plugins: Data, idMap: IdMap) returns (ok: bool)
    modifies conn, idMap
    requires idMap.store == map[]
    ensures var o := Phases(conn.server, services, upstreams, certificates, consumers, plugins);
            conn.sent == old(conn.sent) + o.requests && ok == o.ok
    ensures idMap.store == Phase1(conn.server, services, upstreams, certificates, consumers).store
  {
    ok := CreatePhase1(conn, services, upstreams, certificates, consumers, idMap);
    if !ok {
      return;
    }

    // Phase 2 starts only once every phase-1 request has been answered.
    ok := CreatePlugins(conn, plugins, idMap);
  }

  /** `createEntries`: each family is read from its key of the configuration document. */
  method CreateEntries(conn: Connection, config: map<string, Data>) returns (ok: bool)
    modifies conn
    ensures conn.sent == old(conn.sent) + ImportRun(conn.server, config).requests
    ensures ok == ImportRun(conn.server, config).ok
  {
    var idMap := new IdMap();
    ok := CreatePhases(conn, Lookup(config, ServicesPath), Lookup(config, UpstreamsPath),
                       Lookup(config, CertificatesPath), Lookup(config, ConsumersPath), Lookup(config, PluginsPath), idMap);
  }
}
