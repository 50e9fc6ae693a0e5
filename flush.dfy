/**
 * Flush: collect one answer per resource type, then delete every fetched
 * instance, type after type in the flush order, through a connection that
 * logs every request. Each procedure is proved to send exactly what
 * `FlushSpec` says.
 */
module Flush {
  import opened Resources
  import opened Catalog
  import opened Gateway
  import opened FlushSpec
  import Fetcher
  import Strings

  /**
   * The inner loop of `flushResources` for one resource type: DELETE each
   * fetched instance at `<type>/<id>`. A transport error is fatal; a status
   * other than 204 is fatal unless it is a 404 on a plugin, which went away
   * with its service or route. The drain after the loop is the barrier:
   * this returns only once every deletion of the type is answered.
   */
  method DeleteInstances(conn: Connection, resourceType: string, items: Data) returns (ok: bool)
    modifies conn
    ensures var o := DeleteType(conn.server, resourceType, items);
            conn.sent == old(conn.sent) + o.requests && ok == o.ok
  {
    ghost var sent0 := conn.sent;
    for i := 0 to |items|
      invariant sent0 <= conn.sent
      invariant DeleteType(conn.server, resourceType, items[..i]) == Flushed(conn.sent[|sent0|..], true)
    {
      var instance := AsInstance(items[i]);
      var instancePath := Strings.Join([resourceType, instance.id], "/");
      assert items[..i + 1][..i] == items[..i];
      assert instancePath == InstancePath(resourceType, items[..i + 1][i]);
      var reply := conn.Send(Delete(instancePath));
      assert conn.sent[|sent0|..] == DeleteType(conn.server, resourceType, items[..i]).requests + [Delete(instancePath)];
      if reply.TransportError? {
        DeleteTypeStops(conn.server, resourceType, items, i + 1);
        return false;
      }
      if reply.status != 204 {
        if reply.status == 404 && resourceType == PluginsPath {
          // The plugin was already deleted together with its service or route.
        } else {
          DeleteTypeStops(conn.server, resourceType, items, i + 1);
          return false;
        }
      }
    }
    assert items[..|items|] == items;
    ok := true;
  }

  /** After the first fatal reply no further instance of the type is deleted. */
  lemma {:induction false} DeleteTypeStops(server: Server, resourceType: string, items: Data, j: nat)
    requires j <= |items| && !DeleteType(server, resourceType, items[..j]).ok
    ensures DeleteType(server, resourceType, items) == DeleteType(server, resourceType, items[..j])
    decreases |items|
  {
    if j < |items| {
      assert items[..|items| - 1][..j] == items[..j];
      DeleteTypeStops(server, resourceType, items[..|items| - 1], j);
    } else {
      assert items[..j] == items;
    }
  }

  /** After the first fatal reply no further resource type is flushed. */
  lemma {:induction false} FlushRunStops(server: Server, types: seq<string>, config: map<string, Data>, j: nat)
    requires j <= |types| && !FlushRun(server, types[..j], config).ok
    ensures FlushRun(server, types, config) == FlushRun(server, types[..j], config)
    decreases |types|
  {
    if j < |types| {
      assert types[..|types| - 1][..j] == types[..j];
      FlushRunStops(server, types[..|types| - 1], config, j);
    } else {
      assert types[..j] == types;
    }
  }

  /**
   * `flushResources`: every resource type of the flush order in turn, the
   * next type only once the previous one is done; a fatal reply ends it.
   */
  method FlushResources(conn: Connection, config: map<string, Data>) returns (ok: bool)
    modifies conn
    ensures var o := FlushRun(conn.server, FlushApis, config);
            conn.sent == old(conn.sent) + o.requests && ok == o.ok
  {
    ghost var sent0 := conn.sent;
    ghost var run := Flushed([], true);
    for i := 0 to |FlushApis|
      invariant run == FlushRun(conn.server, FlushApis[..i], config)
      invariant conn.sent == sent0 + run.requests && run.ok
    {
      var resourceType := FlushApis[i];
      assert FlushApis[..i + 1][..i] == FlushApis[..i];
      ghost var deleted := DeleteType(conn.server, resourceType, Lookup(config, resourceType));
      run := FlushRun(conn.server, FlushApis[..i + 1], config);
      ok := DeleteInstances(conn, resourceType, Lookup(config, resourceType));
      assert conn.sent == sent0 + run.requests;
      if !ok {
        FlushRunStops(conn.server, FlushApis, config, i + 1);
        return;
      }
    }
    assert FlushApis[..|FlushApis|] == FlushApis;
    ok := true;
  }

  /**
   * When the first answers are one per resource type of the flush order,
   * the collected map holds exactly those types, each with the data its own
   * fetch returned.
   */
  lemma CollectedOnePerFlushType(answers: seq<Fetcher.Answer>)
    requires |FlushApis| <= |answers|
    requires forall i :: 0 <= i < |FlushApis| ==> answers[i].resourceName in FlushApis
    requires forall i, j :: 0 <= i < j < |FlushApis| ==> answers[i].resourceName != answers[j].resourceName
    ensures Fetcher.Gathered(answers[..|FlushApis|]).Keys == set t | t in FlushApis
    ensures forall i :: 0 <= i < |FlushApis| ==>
              Lookup(Fetcher.Gathered(answers[..|FlushApis|]), answers[i].resourceName) == answers[i].config
  {
    CatalogListsDistinct();
    var got := answers[..|FlushApis|];
    assert forall i :: 0 <= i < |got| ==> got[i] == answers[i];
    Fetcher.GatheredOnePerType(got, FlushApis);
  }

  /**
   * `flushAll`: one fetch per type of the flush order is in flight; exactly
   * that many answers are collected, each stored under its type, before
   * any deletion begins.
   */
  method FlushAll(conn: Connection, answers: seq<Fetcher.Answer>) returns (ok: bool)
    requires |FlushApis| <= |answers|
    modifies conn
    ensures var o := FlushRun(conn.server, FlushApis, Fetcher.Gathered(answers[..|FlushApis|]));
            conn.sent == old(conn.sent) + o.requests && ok == o.ok
  {
    var config := Fetcher.CollectAnswers(answers, |FlushApis|);
    ok := FlushResources(conn, config);
  }
}
