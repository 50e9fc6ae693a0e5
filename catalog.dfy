/**
 * Resource catalog: the admin API collection paths and the ordered lists of
 * resource types that export, import and flush walk over.
 */
module Catalog {

  const ServicesPath := "services"
  const RoutesPath := "routes"
  const UpstreamsPath := "upstreams"
  const TargetsPath := "targets"
  const CertificatesPath := "certificates"
  const ConsumersPath := "consumers"
  /** The flat key-auth collection fetched on export. */
  const KeyAuthsPath := "key-auths"
  /** The key-auth collection nested under one consumer, used on import. */
  const KeyAuthPath := "key-auth"
  const PluginsPath := "plugins"

  /**
   * Collections fetched concurrently on export, one request each: every
   * collection that composing the exported document reads.
   */
  const Apis: seq<string> :=
    [ServicesPath, RoutesPath, UpstreamsPath, ConsumersPath, KeyAuthsPath, CertificatesPath, PluginsPath]

  /** Collections export copies through without reshaping. */
  const ExportResourceBundles: seq<string> := [CertificatesPath, PluginsPath]

  /**
   * Deletion order for flush: children before parents. Key-auths are absent
   * because deleting a consumer deletes its credentials.
   */
  const FlushApis: seq<string> :=
    [RoutesPath, ServicesPath, CertificatesPath, PluginsPath, UpstreamsPath, ConsumersPath]

  /** No resource type is listed twice. */
  predicate Distinct(names: seq<string>)
  {
    forall i, j :: 0 <= i < j < |names| ==> names[i] != names[j]
  }

  lemma CatalogListsDistinct()
    ensures Distinct(Apis) && Distinct(FlushApis) && Distinct(ExportResourceBundles)
  {
  }
}
