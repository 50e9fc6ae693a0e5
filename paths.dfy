/**
 * The path helpers the tests use to recognise the requests the engine
 * sends: the resource part of a request path, and the nested collection
 * paths of one service's routes and one consumer's key-auth credentials.
 */
module Paths {
  import opened Resources
  import opened Catalog
  import Strings
  import Fetcher

  /** The service fixture whose routes collection the tests expect. */
  const TestEmailService: ServicePrepared :=
    ServicePrepared("email-service", "email.tld", "/api/v1", 0, "", 0, 0, 0,
                    [RoutePrepared(["/rest/emails"], false, false, 0, [], [], [])])

  /**
   * `getResourcePath`: drop the leading `/` and anything from the first `?`
   * on, so `/resource?size=10` becomes `resource`. An empty path has no
   * first character to drop.
   */
  function ResourcePath(path: string): (r: string)
    requires |path| > 0
    ensures '?' !in r
    ensures r <= path[1..]
    ensures '?' !in path[1..] ==> r == path[1..]
    ensures '?' in path[1..] ==> |r| < |path| - 1 && path[1..][|r|] == '?'
  {
    var resourcePath := path[1..];
    var questionMarkIndex := Strings.IndexByte(resourcePath, '?');
    if questionMarkIndex > -1 then resourcePath[..questionMarkIndex] else resourcePath
  }

  /** `getRoutesURL`: the routes collection of the email service fixture. */
  function RoutesURL(): (r: string)
    ensures r == ServicesPath + "/" + TestEmailService.name + "/" + RoutesPath
  {
    Strings.JoinThree(ServicesPath, TestEmailService.name, RoutesPath, "/");
    Strings.Join([ServicesPath, TestEmailService.name, RoutesPath], "/")
  }

  /** `getConsumerKeyAuthURL`: the key-auth collection of one consumer. */
  function ConsumerKeyAuthURL(consumerId: string): (r: string)
    ensures r == ConsumersPath + "/" + consumerId + "/" + KeyAuthPath
  {
    Strings.JoinThree(ConsumersPath, consumerId, KeyAuthPath, "/");
    Strings.Join([ConsumersPath, consumerId, KeyAuthPath], "/")
  }

  /**
   * A path the test server receives is read back as the collection it was
   * sent to: the query is cut off and the leading slash dropped.
   */
  lemma ResourcePathOfRequest(resource: string, query: string)
    requires '?' !in resource
    ensures ResourcePath("/" + resource) == resource
    ensures ResourcePath("/" + resource + "?" + query) == resource
  {
    assert ("/" + resource)[1..] == resource;
    var withQuery := "/" + resource + "?" + query;
    assert withQuery[1..] == resource + "?" + query;
    assert withQuery[1..][|resource|] == '?';
  }

  /** The path of a collection fetch reads back as the collection it asks for. */
  lemma FetchPathReadBack(resource: string)
    requires '?' !in resource
    ensures ResourcePath(Fetcher.FetchPath(resource)) == resource
  {
    ResourcePathOfRequest(resource, "size=" + Fetcher.PageSize);
    assert Fetcher.FetchPath(resource) == "/" + resource + "?" + ("size=" + Fetcher.PageSize);
  }

  /** A consumer's key-auth path is told apart from another consumer's. */
  lemma ConsumerKeyAuthURLInjective(a: string, b: string)
    requires ConsumerKeyAuthURL(a) == ConsumerKeyAuthURL(b)
    ensures a == b
  {
    var u, v := ConsumerKeyAuthURL(a), ConsumerKeyAuthURL(b);
    var n := |ConsumersPath + "/"|;
    assert |a| == |b|;
    assert a == u[n..n + |a|] == v[n..n + |b|] == b;
  }
}
