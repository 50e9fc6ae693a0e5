/**
 * What flush sends, stated as functions of the collected configuration and
 * of the server's answers: one DELETE per fetched instance, type after type
 * in the flush order, until the first fatal reply.
 */
module FlushSpec {
  import opened Resources
  import opened Catalog
  import opened Gateway
  import Strings

  /** The requests a flush sent and whether it finished. */
  datatype Flushed = Flushed(requests: seq<Request>, ok: bool)

  /** `<resourceType>/<instance id>`: where one fetched instance is deleted. */
  function InstancePath(resourceType: string, item: Item): (path: string)
    ensures path == resourceType + "/" + AsInstance(item).id
  {
    Strings.JoinTwo(resourceType, AsInstance(item).id, "/");
    Strings.Join([resourceType, AsInstance(item).id], "/")
  }

  /**
   * A deletion is accepted on `204 No Content`, and on `404 Not Found` for
   * plugins only, which disappear with the service or route they belong to.
   * A transport error or any other status is fatal.
   */
  predicate Accepted(resourceType: string, reply: Reply)
  {
    reply.Response? && (reply.status == 204 || (reply.status == 404 && resourceType == PluginsPath))
  }

  /** Every DELETE one resource type calls for, in the order of the fetched items. */
  function Deletes(resourceType: string, items: Data): (requests: seq<Request>)
    ensures |requests| == |items|
    ensures forall k :: 0 <= k < |items| ==> requests[k] == Delete(resourceType + "/" + AsInstance(items[k]).id)
  {
    seq(|items|, k requires 0 <= k < |items| => Delete(InstancePath(resourceType, items[k])))
  }

  /** Every DELETE of the given types, type after type. */
  function Plan(types: seq<string>, config: map<string, Data>): seq<Request>
    decreases |types|
  {
    if |types| == 0 then []
    else Plan(types[..|types| - 1], config) + Deletes(types[|types| - 1], Lookup(config, types[|types| - 1]))
  }

  /** Delete the instances of one type in order, stopping at the first fatal reply. */
  function DeleteType(server: Server, resourceType: string, items: Data): Flushed
    decreases |items|
  {
    if |items| == 0 then Flushed([], true)
    else
      var prev := DeleteType(server, resourceType, items[..|items| - 1]);
      var request := Delete(InstancePath(resourceType, items[|items| - 1]));
      if !prev.ok then prev else Flushed(prev.requests + [request], Accepted(resourceType, server(request)))
  }

  /** `flushResources`: each type in turn, the next one only once the previous one is done. */
  function FlushRun(server: Server, types: seq<string>, config: map<string, Data>): Flushed
    decreases |types|
  {
    if |types| == 0 then Flushed([], true)
    else
      var prev := FlushRun(server, types[..|types| - 1], config);
      var t := types[|types| - 1];
      var deleted := DeleteType(server, t, Lookup(config, t));
      if !prev.ok then prev else Flushed(prev.requests + deleted.requests, deleted.ok)
  }

  /**
   * One type's deletions: the fetched items in order, one DELETE each, to
   * `<type>/<id>`; every reply but the last was accepted; the type is done
   * exactly when every item was deleted and accepted; otherwise the last
   * DELETE sent is the one refused.
   */
  lemma {:induction false} DeleteTypeRequests(server: Server, resourceType: string, items: Data)
    ensures var o := DeleteType(server, resourceType, items);
            && o.requests <= Deletes(resourceType, items)
            && (forall k :: 0 <= k < |o.requests| - 1 ==> Accepted(resourceType, server(o.requests[k])))
            && (o.ok <==> o.requests == Deletes(resourceType, items) &&
                          forall k :: 0 <= k < |items| ==> Accepted(resourceType, server(o.requests[k])))
            && (!o.ok ==> |o.requests| > 0 && !Accepted(resourceType, server(o.requests[|o.requests| - 1])))
    decreases |items|
  {
    if |items| > 0 {
      var n := |items|;
      DeleteTypeRequests(server, resourceType, items[..n - 1]);
      var all := Deletes(resourceType, items);
      var before := Deletes(resourceType, items[..n - 1]);
      assert before == all[..n - 1];
      var prev := DeleteType(server, resourceType, items[..n - 1]);
      var o := DeleteType(server, resourceType, items);
      if prev.ok {
        assert o.requests == before + [all[n - 1]] == all;
      } else {
        assert o == prev;
      }
    }
  }

  /**
   * The 404 rule: when every instance answers 204 or 404, the type is done
   * exactly when it is the plugins type or no instance answered 404.
   */
  lemma NotFoundOnlyForPlugins(server: Server, resourceType: string, items: Data)
    requires forall k :: 0 <= k < |items| ==>
               server(Deletes(resourceType, items)[k]) in {Response(204, ""), Response(404, "")}
    ensures DeleteType(server, resourceType, items).ok <==>
              resourceType == PluginsPath || forall k :: 0 <= k < |items| ==> server(Deletes(resourceType, items)[k]).status == 204
  {
    DeleteTypeRequests(server, resourceType, items);
    var o := DeleteType(server, resourceType, items);
    var all := Deletes(resourceType, items);
    if !o.ok {
      var last := |o.requests| - 1;
      assert o.requests[last] == all[last];
    } else {
      assert o.requests == all;
    }
  }

  /** A transport error on the `i`th instance ends the type right there. */
  lemma TransportErrorIsFatal(server: Server, resourceType: string, items: Data, i: nat)
    requires i < |items|
    requires forall k :: 0 <= k < i ==> Accepted(resourceType, server(Deletes(resourceType, items)[k]))
    requires server(Deletes(resourceType, items)[i]).TransportError?
    ensures DeleteType(server, resourceType, items) == Flushed(Deletes(resourceType, items)[..i + 1], false)
  {
    DeleteTypeRequests(server, resourceType, items);
    var o := DeleteType(server, resourceType, items);
    var all := Deletes(resourceType, items);
    assert forall k :: 0 <= k < |o.requests| ==> o.requests[k] == all[k];
    assert i < |o.requests| - 1 ==> Accepted(resourceType, server(all[i]));
    assert !o.ok ==> !Accepted(resourceType, server(all[|o.requests| - 1]));
    assert |o.requests| == i + 1;
    assert o.requests == all[..i + 1];
  }

  /** The plan of two lists of types is the plan of the first followed by the plan of the second. */
  lemma {:induction false} PlanAppend(front: seq<string>, back: seq<string>, config: map<string, Data>)
    ensures Plan(front + back, config) == Plan(front, config) + Plan(back, config)
    decreases |back|
  {
    if |back| > 0 {
      var n := |back|;
      var whole := front + back;
      var block := Deletes(back[n - 1], Lookup(config, back[n - 1]));
      assert whole[..|whole| - 1] == front + back[..n - 1];
      assert whole[|whole| - 1] == back[n - 1];
      assert Plan(whole, config) == Plan(front + back[..n - 1], config) + block;
      PlanAppend(front, back[..n - 1], config);
      assert Plan(back, config) == Plan(back[..n - 1], config) + block;
    } else {
      assert front + back == front;
    }
  }

  /** The plan is the types' blocks in order: every DELETE of one type precedes every DELETE of a later one. */
  lemma PlanBlocks(types: seq<string>, config: map<string, Data>, i: nat)
    requires i < |types|
    ensures Plan(types, config) ==
              Plan(types[..i], config) + Deletes(types[i], Lookup(config, types[i])) + Plan(types[i + 1..], config)
  {
    assert types == types[..i] + [types[i]] + types[i + 1..];
    PlanAppend(types[..i] + [types[i]], types[i + 1..], config);
    PlanAppend(types[..i], [types[i]], config);
    assert [types[i]][..0] == [];
  }

  /** Each type contributes one DELETE per fetched instance of it. */
  lemma {:induction false} PlanLength(types: seq<string>, config: map<string, Data>)
    ensures |Plan(types, config)| == SumOfCounts(types, config)
    decreases |types|
  {
    if |types| > 0 {
      PlanLength(types[..|types| - 1], config);
    }
  }

  /** The number of fetched instances of the given types. */
  function SumOfCounts(types: seq<string>, config: map<string, Data>): nat
    decreases |types|
  {
    if |types| == 0 then 0
    else SumOfCounts(types[..|types| - 1], config) + |Lookup(config, types[|types| - 1])|
  }

  /**
   * A flush sends a prefix of the plan; it finishes exactly when it sent the
   * whole plan and every reply was accepted for its type; otherwise it
   * stopped on the DELETE it sent last.
   */
  lemma {:induction false} FlushRunFollowsPlan(server: Server, types: seq<string>, config: map<string, Data>)
    ensures var o := FlushRun(server, types, config);
            && o.requests <= Plan(types, config)
            && (o.ok ==> o.requests == Plan(types, config))
            && (o.ok <==> forall t :: t in types ==> DeleteType(server, t, Lookup(config, t)).ok)
    decreases |types|
  {
    if |types| > 0 {
      var n := |types|;
      var t := types[n - 1];
      FlushRunFollowsPlan(server, types[..n - 1], config);
      DeleteTypeRequests(server, t, Lookup(config, t));
      var prev := FlushRun(server, types[..n - 1], config);
      var o := FlushRun(server, types, config);
      if prev.ok {
        assert o.requests == prev.requests + DeleteType(server, t, Lookup(config, t)).requests;
      } else {
        var u :| u in types[..n - 1] && !DeleteType(server, u, Lookup(config, u)).ok;
        assert u in types;
      }
      assert forall u :: u in types ==> u in types[..n - 1] || u == t;
    }
  }

  /** The plan when only one route, one service and one certificate were fetched. */
  lemma PlanOfOneEach(config: map<string, Data>)
    requires Lookup(config, RoutesPath) == [RouteItem(ZeroRoute.(id := "2"))]
    requires Lookup(config, ServicesPath) == [ServiceItem(ZeroService.(id := "1"))]
    requires Lookup(config, CertificatesPath) == [CertificateItem(ZeroCertificate.(id := "3"))]
    requires Lookup(config, PluginsPath) == [] && Lookup(config, UpstreamsPath) == [] && Lookup(config, ConsumersPath) == []
    ensures Plan(FlushApis, config) == [Delete("routes/2"), Delete("services/1"), Delete("certificates/3")]
  {
    var f := FlushApis;
    assert RoutesPath + "/" + "2" == "routes/2";
    assert ServicesPath + "/" + "1" == "services/1";
    assert CertificatesPath + "/" + "3" == "certificates/3";
    assert f[..1][..0] == [] && f[..2][..1] == f[..1] && f[..3][..2] == f[..2];
    assert f[..4][..3] == f[..3] && f[..5][..4] == f[..4] && f[..6] == f && f[..6][..5] == f[..5];
    assert Plan(f[..1], config) == [Delete("routes/2")];
    assert Plan(f[..2], config) == [Delete("routes/2"), Delete("services/1")];
    assert Plan(f[..3], config) == Plan(f[..4], config) == Plan(f[..5], config) == Plan(f, config);
  }

  /**
   * The flush scenario: one service `1`, one route `2` and one certificate
   * `3` are fetched and every deletion is answered with 204. The route goes
   * first, then the service, then the certificate, and the flush finishes.
   */
  lemma FlushDeletesRouteThenServiceThenCertificate()
    ensures
      var server: Server := (r: Request) => Response(204, "");
      var config := map[ServicesPath := [ServiceItem(ZeroService.(id := "1"))],
                        RoutesPath := [RouteItem(ZeroRoute.(id := "2"))],
                        CertificatesPath := [CertificateItem(ZeroCertificate.(id := "3"))]];
      FlushRun(server, FlushApis, config) == Flushed([Delete("routes/2"), Delete("services/1"), Delete("certificates/3")], true)
  {
    var server: Server := (r: Request) => Response(204, "");
    var config := map[ServicesPath := [ServiceItem(ZeroService.(id := "1"))],
                      RoutesPath := [RouteItem(ZeroRoute.(id := "2"))],
                      CertificatesPath := [CertificateItem(ZeroCertificate.(id := "3"))]];
    forall t | t in FlushApis
      ensures DeleteType(server, t, Lookup(config, t)).ok
    {
      DeleteTypeRequests(server, t, Lookup(config, t));
    }
    FlushRunFollowsPlan(server, FlushApis, config);
    PlanOfOneEach(config);
  }
}
