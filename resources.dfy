/**
 * The records the engine moves between the gateway and the configuration
 * file, and the tagged variant that stands for one undecoded JSON item.
 */
module Resources {

  datatype Option<T> = None | Some(value: T)

  /** A projection that exposes only the identifier of any resource. */
  datatype ResourceInstance = ResourceInstance(id: string)

  /**
   * A route as the admin API returns it. `service` is the back-reference to
   * the owning service; it is `None` once the route is nested.
   */
  datatype Route = Route(
    id: string,
    paths: seq<string>,
    service: Option<ResourceInstance>,
    stripPath: bool,
    preserveHost: bool,
    regexPriority: int,
    hosts: seq<string>,
    protocols: seq<string>,
    methods: seq<string>)

  /** A route without its identifier and back-reference. */
  datatype RoutePrepared = RoutePrepared(
    paths: seq<string>,
    stripPath: bool,
    preserveHost: bool,
    regexPriority: int,
    hosts: seq<string>,
    protocols: seq<string>,
    methods: seq<string>)

  /** A service with the routes nested under it in the configuration file. */
  datatype Service = Service(
    id: string,
    name: string,
    host: string,
    path: string,
    port: int,
    protocol: string,
    connectTimeout: int,
    readTimeout: int,
    writeTimeout: int,
    routes: seq<Route>)

  /** A service without its identifier, which differs on every gateway. */
  datatype ServicePrepared = ServicePrepared(
    name: string,
    host: string,
    path: string,
    port: int,
    protocol: string,
    connectTimeout: int,
    readTimeout: int,
    writeTimeout: int,
    routes: seq<RoutePrepared>)

  /** `key` is filled in from the consumer's key-auth credential, if any. */
  datatype Consumer = Consumer(id: string, customId: string, username: string, key: string)

  datatype KeyAuth = KeyAuth(key: string, consumerId: string)

  /** Non-empty foreign keys name services, routes and consumers by identifier. */
  datatype Plugin = Plugin(
    id: string,
    name: string,
    config: map<string, string>,
    enabled: bool,
    serviceId: string,
    routeId: string,
    consumerId: string)

  /** Targets have no identifier of their own. */
  datatype Target = Target(target: string, weight: int)

  datatype Upstream = Upstream(
    id: string,
    name: string,
    slots: int,
    hashOn: string,
    healthchecks: map<string, string>,
    targets: seq<Target>)

  datatype Certificate = Certificate(id: string, cert: string, key: string, snis: seq<string>)

  /** One decoded JSON item of some collection, tagged with its shape. */
  datatype Item =
    | ServiceItem(service: Service)
    | RouteItem(route: Route)
    | UpstreamItem(upstream: Upstream)
    | TargetItem(target: Target)
    | ConsumerItem(consumer: Consumer)
    | KeyAuthItem(keyAuth: KeyAuth)
    | PluginItem(plugin: Plugin)
    | CertificateItem(certificate: Certificate)

  /** The `data` array of one collection response, or one key of the file. */
  type Data = seq<Item>

  /** Reading a missing key of a Go map yields a nil, empty, slice. */
  function Lookup(config: map<string, Data>, path: string): (items: Data)
    ensures path !in config ==> items == []
    ensures path in config ==> items == config[path]
  {
    if path in config then config[path] else []
  }

  // Decoding an item into a record of another shape leaves the record at
  // its zero value; these projections say so once for every record.

  const ZeroService := Service("", "", "", "", 0, "", 0, 0, 0, [])
  const ZeroRoute := Route("", [], None, false, false, 0, [], [], [])
  const ZeroUpstream := Upstream("", "", 0, "", map[], [])
  const ZeroTarget := Target("", 0)
  const ZeroConsumer := Consumer("", "", "", "")
  const ZeroKeyAuth := KeyAuth("", "")
  const ZeroPlugin := Plugin("", "", map[], false, "", "", "")
  const ZeroCertificate := Certificate("", "", "", [])

  function AsService(item: Item): Service
  {
    if item.ServiceItem? then item.service else ZeroService
  }

  function AsRoute(item: Item): Route
  {
    if item.RouteItem? then item.route else ZeroRoute
  }

  function AsUpstream(item: Item): Upstream
  {
    if item.UpstreamItem? then item.upstream else ZeroUpstream
  }

  function AsTarget(item: Item): Target
  {
    if item.TargetItem? then item.target else ZeroTarget
  }

  function AsConsumer(item: Item): Consumer
  {
    if item.ConsumerItem? then item.consumer else ZeroConsumer
  }

  function AsKeyAuth(item: Item): KeyAuth
  {
    if item.KeyAuthItem? then item.keyAuth else ZeroKeyAuth
  }

  function AsPlugin(item: Item): Plugin
  {
    if item.PluginItem? then item.plugin else ZeroPlugin
  }

  function AsCertificate(item: Item): Certificate
  {
    if item.CertificateItem? then item.certificate else ZeroCertificate
  }

  /** Decoding any item into a `ResourceInstance` keeps only its `id`. */
  function AsInstance(item: Item): ResourceInstance
  {
    match item
    case ServiceItem(s) => ResourceInstance(s.id)
    case RouteItem(r) => ResourceInstance(r.id)
    case UpstreamItem(u) => ResourceInstance(u.id)
    case TargetItem(_) => ResourceInstance("")
    case ConsumerItem(c) => ResourceInstance(c.id)
    case KeyAuthItem(_) => ResourceInstance("")
    case PluginItem(p) => ResourceInstance(p.id)
    case CertificateItem(c) => ResourceInstance(c.id)
  }

  /** Every item of a collection decoded with the same projection. */
  function DecodeAll<T>(items: Data, decode: Item -> T): (r: seq<T>)
    ensures |r| == |items|
    ensures forall i :: 0 <= i < |items| ==> r[i] == decode(items[i])
  {
    seq(|items|, i requires 0 <= i < |items| => decode(items[i]))
  }
}
