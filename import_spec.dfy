/**
 * What import sends, stated as functions of the configuration document and
 * of the server's answers. A fatal error ends the whole run, so every part
 * is described by the requests it sent, the local-to-remote identifiers it
 * recorded and whether it finished.
 */
module ImportSpec {
  import opened Resources
  import opened Catalog
  import opened Gateway
  import ExportSpec
  import Strings

  /** Local identifier to the identifier the gateway assigned. */
  type Store = map<string, string>

  /** Reading a Go map: a missing key yields the empty string. */
  function Get(store: Store, key: string): string
  {
    if key in store then store[key] else ""
  }

  /** What one part of the import sent, what it recorded and whether it finished. */
  datatype Outcome = Outcome(requests: seq<Request>, store: Store, ok: bool)

  /** `next`, computed from the identifiers `first` recorded, runs only if `first` finished. */
  function Chain(first: Outcome, next: Outcome): Outcome
  {
    if !first.ok then first else Outcome(first.requests + next.requests, next.store, next.ok)
  }

  /** Run `step` on each element in order, stopping at the first fatal error. */
  function Sequence<T>(xs: seq<T>, step: (T, Store) -> Outcome, store: Store): Outcome
    decreases |xs|
  {
    if |xs| == 0 then Outcome([], store, true)
    else
      var prev := Sequence(xs[..|xs| - 1], step, store);
      Chain(prev, step(xs[|xs| - 1], prev.store))
  }

  /**
   * `requestNewResource` followed by `idMap.Add`: POST one body; a reply
   * other than `201 Created` is fatal; on success the local identifier, if
   * there is one to keep, is mapped to the remote one.
   */
  function PostOne(server: Server, path: string, body: Item, key: Option<string>, store: Store): Outcome
  {
    var request := Post(path, body);
    var reply := server(request);
    if !Created(reply) then Outcome([request], store, false)
    else if key.Some? then Outcome([request], store[key.value := reply.id], true)
    else Outcome([request], store, true)
  }

  /** One POST per element to the same collection. */
  function PostEach<T>(server: Server, path: string, body: T -> Item, key: T -> Option<string>): (T, Store) -> Outcome
  {
    (x, st) => PostOne(server, path, body(x), key(x), st)
  }

  // Collection paths nested under one parent.

  function RoutesCollection(serviceName: string): string
  {
    Strings.Join([ServicesPath, serviceName, RoutesPath], "/")
  }

  function TargetsCollection(upstreamName: string): string
  {
    Strings.Join([UpstreamsPath, upstreamName, TargetsPath], "/")
  }

  function KeyAuthCollection(consumerId: string): string
  {
    Strings.Join([ConsumersPath, consumerId, KeyAuthPath], "/")
  }

  // Routes and targets: what is sent for each, and what is remembered.

  function RouteBody(r: Route): Item
  {
    RouteItem(r.(id := ""))
  }

  function RouteKey(r: Route): Option<string>
  {
    Some(r.id)
  }

  function TargetBody(t: Target): Item
  {
    TargetItem(t)
  }

  function TargetKey(t: Target): Option<string>
  {
    None
  }

  // The resource families of phase 1.

  /** `createServiceWithRoutes`: the bare service, then its routes one by one. */
  function CreateService(server: Server, service: Service, store: Store): Outcome
  {
    var created := PostOne(server, ServicesPath, ServiceItem(service.(id := "", routes := [])), Some(service.id), store);
    Chain(created, Sequence(service.routes, PostEach(server, RoutesCollection(service.name), RouteBody, RouteKey), created.store))
  }

  /** `createUpstreamsWithTargets`: the bare upstream, then its targets one by one. */
  function CreateUpstream(server: Server, upstream: Upstream, store: Store): Outcome
  {
    var created := PostOne(server, UpstreamsPath, UpstreamItem(upstream.(id := "", targets := [])), None, store);
    Chain(created, Sequence(upstream.targets, PostEach(server, TargetsCollection(upstream.name), TargetBody, TargetKey), created.store))
  }

  /** `createConsumersWithKeyAuths`: the bare consumer, then its key if it had one. */
  function CreateConsumer(server: Server, consumer: Consumer, store: Store): Outcome
  {
    var request := Post(ConsumersPath, ConsumerItem(consumer.(id := "", key := "")));
    var created := PostOne(server, ConsumersPath, ConsumerItem(consumer.(id := "", key := "")), Some(consumer.id), store);
    if !created.ok || consumer.key == "" then created
    else Chain(created, PostOne(server, KeyAuthCollection(server(request).id), KeyAuthItem(KeyAuth(consumer.key, "")), None, created.store))
  }

  /** A certificate is created by one POST; no identifier of it is kept here. */
  function CreateCertificate(server: Server, certificate: Certificate, store: Store): Outcome
  {
    PostOne(server, CertificatesPath, CertificateItem(certificate), None, store)
  }

  /**
   * Replace each non-empty foreign key by the identifier it was created
   * under; a key that was never recorded becomes empty. Nothing else changes.
   */
  function Rewrite(plugin: Plugin, store: Store): (r: Plugin)
    ensures r.id == plugin.id && r.name == plugin.name && r.config == plugin.config && r.enabled == plugin.enabled
    ensures plugin.serviceId == "" ==> r.serviceId == ""
    ensures plugin.serviceId != "" && plugin.serviceId in store ==> r.serviceId == store[plugin.serviceId]
    ensures plugin.serviceId !in store ==> r.serviceId == ""
    ensures plugin.routeId == "" ==> r.routeId == ""
    ensures plugin.routeId != "" && plugin.routeId in store ==> r.routeId == store[plugin.routeId]
    ensures plugin.routeId !in store ==> r.routeId == ""
    ensures plugin.consumerId == "" ==> r.consumerId == ""
    ensures plugin.consumerId != "" && plugin.consumerId in store ==> r.consumerId == store[plugin.consumerId]
    ensures plugin.consumerId !in store ==> r.consumerId == ""
  {
    plugin.(serviceId := if plugin.serviceId != "" then Get(store, plugin.serviceId) else "",
            routeId := if plugin.routeId != "" then Get(store, plugin.routeId) else "",
            consumerId := if plugin.consumerId != "" then Get(store, plugin.consumerId) else "")
  }

  /** A plugin is created by one POST, with its foreign keys rewritten. */
  function CreatePlugin(server: Server, plugin: Plugin, store: Store): Outcome
  {
    PostOne(server, PluginsPath, PluginItem(Rewrite(plugin, store)), None, store)
  }

  /** The resource families `createEntries` creates, one loop each. */
  datatype Family = ServiceFamily | UpstreamFamily | CertificateFamily | ConsumerFamily | PluginFamily

  /** Decode one item of the family's key and create it. */
  function CreateItem(server: Server, family: Family, item: Item, store: Store): Outcome
  {
    match family
    case ServiceFamily => CreateService(server, AsService(item), store)
    case UpstreamFamily => CreateUpstream(server, AsUpstream(item), store)
    case CertificateFamily => CreateCertificate(server, AsCertificate(item), store)
    case ConsumerFamily => CreateConsumer(server, AsConsumer(item), store)
    case PluginFamily => CreatePlugin(server, AsPlugin(item), store)
  }

  /** Create every item of one family in order, stopping at the first fatal error. */
  function CreateAll(server: Server, family: Family, items: Data, store: Store): Outcome
    decreases |items|
  {
    if |items| == 0 then Outcome([], store, true)
    else
      var prev := CreateAll(server, family, items[..|items| - 1], store);
      Chain(prev, CreateItem(server, family, items[|items| - 1], prev.store))
  }

  /** The last two families of phase 1: certificates, then consumers. */
  function CertificatesOnward(server: Server, certificates: Data, consumers: Data, store: Store): Outcome
  {
    var first := CreateAll(server, CertificateFamily, certificates, store);
    Chain(first, CreateAll(server, ConsumerFamily, consumers, first.store))
  }

  /** Phase 1 from the upstreams on: upstreams, then certificates and consumers. */
  function UpstreamsOnward(server: Server, upstreams: Data, certificates: Data, consumers: Data, store: Store): Outcome
  {
    var first := CreateAll(server, UpstreamFamily, upstreams, store);
    Chain(first, CertificatesOnward(server, certificates, consumers, first.store))
  }

  /** Phase 1: services, upstreams, certificates and consumers, in that order, from an empty identifier map. */
  function Phase1(server: Server, services: Data, upstreams: Data, certificates: Data, consumers: Data): Outcome
  {
    var first := CreateAll(server, ServiceFamily, services, map[]);
    Chain(first, UpstreamsOnward(server, upstreams, certificates, consumers, first.store))
  }

  /** Phase 1, the barrier, then the plugins. */
  function Phases(server: Server, services: Data, upstreams: Data, certificates: Data, consumers: Data,
                  plugins: Data): Outcome
  {
    var phase1 := Phase1(server, services, upstreams, certificates, consumers);
    Chain(phase1, CreateAll(server, PluginFamily, plugins, phase1.store))
  }

  /** `createEntries`: every family read from its key of the configuration document. */
  function ImportRun(server: Server, config: map<string, Data>): Outcome
  {
    Phases(server, Lookup(config, ServicesPath), Lookup(config, UpstreamsPath), Lookup(config, CertificatesPath),
           Lookup(config, ConsumersPath), Lookup(config, PluginsPath))
  }

  /** After the first fatal error nothing more is sent or recorded. */
  lemma {:induction false} SequenceStops<T>(xs: seq<T>, j: nat, step: (T, Store) -> Outcome, store: Store)
    requires j <= |xs| && !Sequence(xs[..j], step, store).ok
    ensures Sequence(xs, step, store) == Sequence(xs[..j], step, store)
    decreases |xs|
  {
    if j < |xs| {
      assert xs[..|xs| - 1][..j] == xs[..j];
      SequenceStops(xs[..|xs| - 1], j, step, store);
    } else {
      assert xs[..j] == xs;
    }
  }

  /** After the first fatal error no further item of the family is created. */
  lemma {:induction false} CreateAllStops(server: Server, family: Family, items: Data, j: nat, store: Store)
    requires j <= |items| && !CreateAll(server, family, items[..j], store).ok
    ensures CreateAll(server, family, items, store) == CreateAll(server, family, items[..j], store)
    decreases |items|
  {
    if j < |items| {
      assert items[..|items| - 1][..j] == items[..j];
      CreateAllStops(server, family, items[..|items| - 1], j, store);
    } else {
      assert items[..j] == items;
    }
  }

  /** One more item of a family that has not failed adds that item's requests. */
  lemma CreateAllNext(server: Server, family: Family, items: Data, i: nat, store: Store)
    requires i < |items|
    requires CreateAll(server, family, items[..i], store).ok
    ensures var prev := CreateAll(server, family, items[..i], store);
            var last := CreateItem(server, family, items[i], prev.store);
            CreateAll(server, family, items[..i + 1], store) == Outcome(prev.requests + last.requests, last.store, last.ok)
  {
    assert items[..i + 1][..i] == items[..i];
  }
}
