# gongfig, the synchronisation engine, in Dafny

gongfig moves the configuration of a Kong API gateway between a running
gateway and a JSON file. This project models the engine behind its three
commands:

- **export** (`composeConfig` and the fan-in loop of `getPreparedConfig`)
  fetches the flat collections of the admin API and composes one document.
  Routes are nested under the service they name and services are sorted by
  name. Upstreams get the targets fetched for them. Consumers get their
  key-auth key merged in. Certificates and plugins are copied through.
- **import** (`createEntries` and the creation procedures) posts the
  document back in phases:
  - Phase 1 creates services with their routes, upstreams with their
    targets, certificates, and consumers with their key.
  - Phase 2 runs after a barrier and creates plugins. Each plugin's foreign
    keys are rewritten through the map from local to remote identifiers
    (`ConcurrentStringMap`).
- **flush** (`flushResources` and the collection loop of `flushAll`)
  deletes every fetched instance, one resource type after another.

The remote admin API is an oracle `Server = Request -> Reply`. A `Reply` is
a transport error or a status with the identifier found in the body. A
`Gateway.Connection` logs every request it is given, in order. Each
imperative procedure is a method on that connection, and on `IdMap` where
the source mutates the identifier map. Its `ensures` ties the log, the new
map and the result to a specification function (`ImportSpec`, `FlushSpec`,
`ExportSpec`). The lemmas prove the promised properties about those
functions.

The logging hooks `logFatal`/`logFatalf` end the process. Every model
therefore stops the whole run at the first fatal reply: a non-`201` answer
to a POST, a transport error, or a DELETE status other than `204` that is
not a `404` on a plugin.

The files are:

- `strings.dfy`: `strings.Join`, `strings.IndexByte` and the byte-wise
  `<` on names.
- `catalog.dfy`: collection paths and resource-type lists.
- `resources.dfy`: the records and the decoding of a fetched item.
- `gateway.dfy`: requests, replies and the logging connection.
- `fetcher.dfy`: the countdown fan-in loop.
- `paths.dfy`: the path helpers the tests use.
- `export_spec.dfy` and `export.dfy`: export.
- `import_spec.dfy`, `import_lemmas.dfy` and `import.dfy`: import.
- `flush_spec.dfy` and `flush.dfy`: flush.

Two points where the model narrows the program:

- Certificate and plugin identifiers are handled inside `addResource`,
  which is not modelled. No mapping is claimed for them.
- The program runs the phase-1 families concurrently. The model runs them
  one after another in launch order.

## Model

| member | source | states |
|---|---|---|
| Strings.IndexByte | pkg/actions/utils_test.go:36 | -1 exactly when the byte is absent; otherwise the index of its first occurrence |
| Strings.Join | pkg/actions/flush.go:65-66 | `strings.Join`: the parts with the separator between neighbours and nowhere else |
| Strings.Less | pkg/actions/export.go:72-74 | Go's `<` on strings: the first differing character decides, and a proper prefix comes first |
| Strings.JoinThree | pkg/actions/utils_test.go:20-30 | joining three parts gives `a + sep + b + sep + c` |
| Strings.LessIrreflexive | pkg/actions/export.go:72-74 | the name order used by the sort is irreflexive |
| Strings.LessAsymmetric | pkg/actions/export.go:72-74 | the name order is asymmetric |
| Strings.LessTransitive | pkg/actions/export.go:72-74 | the name order is transitive |
| Strings.LessTotal | pkg/actions/export.go:72-74 | two different names are always ordered one way or the other |
| Paths.ResourcePath | pkg/actions/utils_test.go:32-43 | needs a non-empty path; the result has no `?`, is a prefix of `path[1:]`, is all of it when it has no `?`, and otherwise stops just before the first `?` |
| Paths.ResourcePathOfRequest | pkg/actions/utils_test.go:32-43 | `/resource` and `/resource?query` both read back as `resource` |
| Paths.FetchPathReadBack | pkg/actions/utils_test.go:32-43 | the path of a collection fetch, `/<resource>?size=500`, reads back as that collection |
| Paths.RoutesURL | pkg/actions/utils_test.go:20-24 | equals `services/<TestEmailService.name>/routes` |
| Paths.ConsumerKeyAuthURL | pkg/actions/utils_test.go:26-30 | equals `consumers/<id>/key-auth` |
| Paths.ConsumerKeyAuthURLInjective | pkg/actions/utils_test.go:26-30 | two consumers' key-auth paths coincide only for the same consumer |
| Resources.Lookup | pkg/actions/import.go:37 | a missing key of the configuration map reads as an empty collection |
| Fetcher.Gathered | pkg/actions/export.go:182-186 | the collected map has exactly the names received as keys |
| Fetcher.GatheredLastWins | pkg/actions/export.go:184 | each name holds the data of its last answer |
| Fetcher.GatheredOnePerType | pkg/actions/export.go:175-194 | one answer per distinct type gives a map of exactly those types, each with its own data |
| Fetcher.CollectAnswers | pkg/actions/export.go:175-194 | the countdown loop receives exactly `count` answers and builds the map of that prefix |
| ExportSpec.IndexBy | pkg/actions/export.go:29-33 | the service map's keys are the fetched identifiers; each entry is a fetched service carrying that identifier |
| ExportSpec.IndexByLast | pkg/actions/export.go:29-33 | a later duplicate identifier overwrites an earlier one |
| ExportSpec.AttachRoutes | pkg/actions/export.go:36-48 | nesting routes adds and removes no service |
| ExportSpec.AttachRoutesAt | pkg/actions/export.go:36-48 | service `k` gets exactly the routes naming `k` appended, in input order |
| ExportSpec.RoutesOfConcat | pkg/actions/export.go:47 | nesting is append-only, so routes keep their input order |
| ExportSpec.RoutesOfMembers | pkg/actions/export.go:43-47 | every nested route has its back-reference cleared; every route naming the service is nested; nothing else is |
| ExportSpec.NestedServicesAt | pkg/actions/export.go:29-48 | one service per distinct identifier: the last fetched one, with its routes appended |
| ExportSpec.RouteNestedUnderItsService | pkg/actions/export.go:36-48 | every input route ends up, nested, under the service whose identifier it names |
| ExportSpec.NestedServicesShape | pkg/actions/export.go:29-48 | each service is stored under its own identifier and holds exactly its routes |
| ExportSpec.ApplyKeys | pkg/actions/export.go:118-123 | merging keys adds and removes no consumer |
| ExportSpec.ApplyKeysAt | pkg/actions/export.go:118-123 | a consumer's key becomes that of the key-auths naming it, and nothing else changes |
| ExportSpec.KeyForLast | pkg/actions/export.go:118-123 | the last matching key-auth wins |
| ExportSpec.KeyForNone | pkg/actions/export.go:111-123 | a consumer without a key-auth keeps its key |
| ExportSpec.MergedConsumersAt | pkg/actions/export.go:111-140 | each output consumer is the last fetched one with its identifier, key merged, all other fields unchanged |
| ExportSpec.MergedConsumersKeyed | pkg/actions/export.go:111-140 | each merged consumer is stored under its own identifier |
| Export.ListValues | pkg/actions/export.go:54-69 | walking a map yields each value exactly once, in some order |
| Export.InsertByName | pkg/actions/export.go:72-74 | inserting into a name-sorted list keeps it sorted and adds exactly that element |
| Export.SortByName | pkg/actions/export.go:72-74 | the services come out sorted by name, non-decreasing, as a permutation of the input |
| Export.NestedCountPermutation | pkg/actions/export.go:72-74 | sorting does not change how many routes the services hold |
| Export.RefCountAll | pkg/actions/export.go:36-48 | with distinct service identifiers covering every route, each route is counted once |
| Export.NestedCountIsRefCount | pkg/actions/export.go:36-48 | the nested route count is the number of routes referring to the listed services |
| Export.ListedRoutesCount | pkg/actions/export.go:29-69 | the listed services hold exactly as many routes as were fetched |
| Export.SortedListsSame | pkg/actions/export.go:54-76 | a permutation of a listing of the service map is still a listing of it |
| Export.IndexServices | pkg/actions/export.go:29-33 | the service loop builds the index of the fetched services by identifier |
| Export.AttachRouteItems | pkg/actions/export.go:36-48 | the route loop appends each route, back-reference cleared, to the service it names |
| Export.NestServices | pkg/actions/export.go:29-76 | the services are sorted by name, list every nested service once, and hold every fetched route |
| Export.CollectUpstreams | pkg/actions/export.go:81-104 | upstreams keep their fetched order, each with the targets fetched from its own collection appended |
| Export.IndexConsumers | pkg/actions/export.go:107-115 | the consumer loop builds the index of the fetched consumers by identifier |
| Export.MergeKeyAuths | pkg/actions/export.go:117-123 | the key-auth loop sets each key on the consumer it names, in order |
| Export.MergeConsumers | pkg/actions/export.go:107-140 | every merged consumer is listed exactly once |
| Export.CopyBundles | pkg/actions/export.go:142-154 | every other bundle is copied under its own path with its items unchanged |
| Export.ComposeConfig | pkg/actions/export.go:23-157 | the document is composed as all of the above |
| Export.GetPreparedConfig | pkg/actions/export.go:159-197 | exactly one answer per exported collection is collected, then the document is composed from them |
| ImportSpec.Rewrite | pkg/actions/import.go:106-116 | a non-empty foreign key becomes its remote identifier, or empty when none was recorded; an empty key stays empty; nothing else changes |
| ImportSpec.PostOne | pkg/actions/import.go:182-189 | one POST; any reply but `201` is fatal; on success the local identifier, when there is one, maps to the identifier in the reply |
| ImportSpec.CreateService | pkg/actions/import.go:166-211 | the bare service POST with its mapping recorded, then, only if it succeeded, its routes one by one under `services/<name>/routes` |
| ImportSpec.CreateUpstream | pkg/actions/import.go:213-244 | the bare upstream POST, then, only if it succeeded, its targets one by one under `upstreams/<name>/targets` |
| ImportSpec.CreateConsumer | pkg/actions/import.go:129-164 | the bare consumer POST with its mapping recorded, then, if it has a key, the key-auth POST under the remote identifier |
| ImportSpec.CreatePlugin | pkg/actions/import.go:103-120 | one POST of the plugin with its foreign keys rewritten through the map |
| ImportSpec.CreateAll | pkg/actions/import.go:37-45 | a family's items in launch order, each decoded and created, stopping at the first fatal error |
| ImportSpec.Phase1 | pkg/actions/import.go:33-85 | services, upstreams, certificates, consumers, family after family, from an empty map; a fatal error ends it |
| ImportSpec.ImportRun | pkg/actions/import.go:27-127 | phase 1 on the document's collections (missing ones empty), then, only if it finished, the plugins rewritten through what phase 1 recorded |
| ImportSpec.SequenceStops | pkg/actions/import.go:196-209 | after the first refused route or target nothing more of that parent is sent |
| ImportSpec.CreateAllStops | pkg/actions/import.go:184-187 | after the first fatal error no further item of the family is created |
| ImportLemmas.PostEachRequests | pkg/actions/import.go:195-209 | routes or targets are sent in input order, one POST each; the run finishes exactly when all are created; a failed run ends on the refused POST |
| ImportLemmas.PostEachStore | pkg/actions/import.go:196-209 | a run of POSTs changes no key it does not record; once it finishes, every element's key is recorded |
| ImportLemmas.PostEachValue | pkg/actions/import.go:196-208 | once a run finishes, the key of an element no later element reuses maps to the identifier returned for that element's own POST |
| ImportLemmas.ServiceRequests | pkg/actions/import.go:166-211 | the bare service goes first; if it is refused nothing is recorded or sent; otherwise its routes follow in order under `services/<name>/routes` without their identifiers; the service is done exactly when every POST is created |
| ImportLemmas.ServiceRecords | pkg/actions/import.go:182-209 | once the service is created its mapping is the identifier in the reply (unless a route reuses its local identifier); once every route is created, each route's local identifier maps to the identifier returned for its own POST (the last route with that identifier wins) |
| ImportLemmas.UpstreamRequests | pkg/actions/import.go:213-244 | the bare upstream goes first; if it is created its targets follow in order under `upstreams/<name>/targets`; nothing is recorded |
| ImportLemmas.ConsumerRequests | pkg/actions/import.go:129-164 | the consumer goes without its identifier and key. If refused, nothing more. Otherwise its mapping is recorded, and only a non-empty key is then posted to `consumers/<remote id>/key-auth` |
| ImportLemmas.FamilyRequests | pkg/actions/import.go:35-121 | every request of a family is a POST, and only the plugin family's are plugin POSTs |
| ImportLemmas.PluginsAfterPhase1 | pkg/actions/import.go:87-121 | every plugin POST comes after every phase-1 request; if phase 1 fails no plugin is sent |
| ImportLemmas.PluginFollowsItsService | pkg/actions/import_test.go:184-218 | a plugin of service `local-id` is created with service identifier `service1`, after that service |
| Import.IdMap.Add | pkg/actions/import.go:20-25 | the key maps to the value; every other key is unchanged |
| Import.AddResource | pkg/actions/import.go:69-71 | one POST of a certificate or plugin; its outcome is the POST's |
| Import.PostRoutes | pkg/actions/import.go:195-209 | the route loop sends and records exactly what the specification says |
| Import.CreateServiceWithRoutes | pkg/actions/import.go:166-211 | sends, records and reports exactly `CreateService` |
| Import.PostTargets | pkg/actions/import.go:231-242 | the target loop sends exactly what the specification says |
| Import.CreateUpstreamWithTargets | pkg/actions/import.go:213-244 | sends and reports exactly `CreateUpstream`, recording nothing |
| Import.CreateConsumerWithKeyAuth | pkg/actions/import.go:129-164 | sends, records and reports exactly `CreateConsumer` |
| Import.CreateServices | pkg/actions/import.go:35-45 | each service with its routes, in order, stopping at the first fatal error |
| Import.CreateUpstreams | pkg/actions/import.go:47-58 | each upstream with its targets, in order |
| Import.CreateCertificates | pkg/actions/import.go:61-72 | each certificate, in order |
| Import.CreateConsumers | pkg/actions/import.go:74-85 | each consumer with its key, in order |
| Import.RewriteForeignKeys | pkg/actions/import.go:106-116 | the plugin's foreign keys come out rewritten exactly as `Rewrite` says |
| Import.CreatePlugins | pkg/actions/import.go:97-121 | each plugin with its foreign keys rewritten through the map, in order |
| Import.CreateCertificatesOnward | pkg/actions/import.go:61-85 | certificates, then consumers |
| Import.CreateUpstreamsOnward | pkg/actions/import.go:47-85 | upstreams, then the rest of phase 1 |
| Import.CreatePhase1 | pkg/actions/import.go:33-85 | phase 1 from an empty identifier map |
| Import.CreatePhases | pkg/actions/import.go:27-127 | phase 1, the barrier, then the plugins with the identifiers phase 1 recorded; the map ends as phase 1 left it, since the model's Import.AddResource records nothing (see its line under Left out) |
| Import.CreateEntries | pkg/actions/import.go:27-127 | sends exactly the requests of `ImportRun` for the configuration document and reports its outcome |
| FlushSpec.InstancePath | pkg/actions/flush.go:65-66 | an instance is deleted at `<resourceType>/<id>` |
| FlushSpec.Accepted | pkg/actions/flush.go:73-89 | a DELETE is accepted on `204`, and on `404` for plugins only; a transport error or any other status is fatal |
| FlushSpec.Deletes | pkg/actions/flush.go:54-67 | one DELETE per fetched item, in launch order, at its instance path |
| FlushSpec.DeleteType | pkg/actions/flush.go:54-96 | one type's DELETEs in launch order, stopping after the first reply that is not accepted |
| FlushSpec.Plan | pkg/actions/flush.go:50-96 | every DELETE of the given types, type after type |
| FlushSpec.FlushRun | pkg/actions/flush.go:50-97 | each type in turn, the next one only once the previous one finished |
| FlushSpec.DeleteTypeRequests | pkg/actions/flush.go:54-90 | a type's deletions are a prefix of its DELETEs; the type is done exactly when every reply is accepted; otherwise it ends on the refused one |
| FlushSpec.NotFoundOnlyForPlugins | pkg/actions/flush.go:77-89 | with only 204 and 404 replies, a type is done exactly when it is plugins or no reply was 404 |
| FlushSpec.TransportErrorIsFatal | pkg/actions/flush.go:71-75 | a transport error on an instance ends the type right after that DELETE |
| FlushSpec.PlanAppend | pkg/actions/flush.go:50 | the plan of two type lists is the plan of the first followed by that of the second |
| FlushSpec.PlanBlocks | pkg/actions/flush.go:50-97 | every DELETE of one type precedes every DELETE of a later type |
| FlushSpec.PlanLength | pkg/actions/flush.go:54-90 | each type contributes exactly one DELETE per fetched instance |
| FlushSpec.FlushRunFollowsPlan | pkg/actions/flush.go:50-97 | a flush sends a prefix of the plan, all of it when it finishes, and finishes exactly when every type does |
| FlushSpec.FlushDeletesRouteThenServiceThenCertificate | pkg/actions/flush_test.go:10-59 | fetched route `2`, service `1` and certificate `3` are deleted in that order at `routes/2`, `services/1`, `certificates/3` |
| Flush.DeleteTypeStops | pkg/actions/flush.go:73-88 | in the launch-order execution, after the first fatal reply no further instance of the type is deleted |
| Flush.FlushRunStops | pkg/actions/flush.go:50-97 | after the first fatal reply no further type is flushed |
| Flush.DeleteInstances | pkg/actions/flush.go:54-96 | the per-type loop with its 204 / plugin-404 / fatal branches sends exactly `DeleteType` |
| Flush.FlushResources | pkg/actions/flush.go:47-98 | every type of the flush order in turn; sends exactly `FlushRun` |
| Flush.CollectedOnePerFlushType | pkg/actions/flush.go:17-44 | when one answer arrives per flush type, the collected map holds exactly those types, each with its own fetched data |
| Flush.FlushAll | pkg/actions/flush.go:15-45 | exactly one answer per flush type is collected before any deletion, then the collected map is flushed |

## Left out

- Goroutines, the channel semaphores and the mutex. Three orders are program guarantees, and the model keeps them: the barrier between flush types, the barrier before plugins, and the order of routes or targets within one parent. Within one flush type or import family the program sends requests from up to ten concurrent goroutines, and requests already launched may still go out after a fatal reply. Flush.DeleteInstances, FlushSpec.Deletes, Flush.DeleteTypeStops and ImportSpec.CreateAllStops fix one execution instead: launch order, each request answered before the next one is sent.
- HTTP, JSON, `mapstructure` and `deepcopy`. The admin API is the oracle `Server`. Decoding an item is a projection of a tagged variant, with the zero value for a foreign item.
- `requestNewResource` and `getResourceListToChan` are not part of this model. Success of a POST is a `201` reply; the fetched collections arrive as `Fetcher.Answer`s.
- Import.AddResource: does not record the certificate's or plugin's identifier mapping, because `addResource` is not part of this model.
- `getFullPath`: POST and DELETE paths are relative strings joined with `/`; the base URL is dropped.
- File I/O in `Export` and `Import`, the stdin confirmation in `Flush`, and the CLI in `gongfig.go`.
- `runExit` in the test helpers, which spawns a process.
- The reuse of one decode target across items: in export's target loop (one `target` variable) and in Export.CopyBundles (one `resourceBundle.Struct` per bundle), fields absent from a later item carry over from an earlier one. The model decodes every item on its own, so Export.CopyBundles claims the items come out unchanged.
- Export.ListValues: does not fix an order for services before the sort, or for consumers. Go map iteration order is unspecified, so only "each value exactly once" is claimed.
- The catalog constants: `const.go` defines `Apis` as services and routes only, under the older names `ServicesKey` and `RoutesKey`, and does not define `FlushApis` or the other collection paths. The model's `Apis` lists the seven collections `composeConfig` reads (services, routes, upstreams, consumers, key-auths, certificates, plugins), so Export.GetPreparedConfig waits for seven answers where that `Apis` would give two. The collection paths are the admin API's collection names, and `FlushApis` is the order routes, services, certificates, plugins, upstreams, consumers.
- Integer widths: ports, timeouts and statuses are unbounded integers, since nothing in the core does arithmetic on them.
- The admin API's own state: `Server` answers each request on its own, regardless of history. Two identical POST bodies therefore get the same identifier, and name conflicts (`409`) and distinct identifiers for identical bodies are not modelled.
