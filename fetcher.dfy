/**
 * The fan-in half of the concurrent fetcher: one request per resource type
 * is in flight and the collector receives their answers in whatever order
 * they arrive, counting down until every type has answered.
 */
module Fetcher {
  import opened Resources
  import Catalog

  /** Page size asked for on every collection request. */
  const PageSize := "500"

  /** Request path of one collection fetch: `/<resource>?size=500`. */
  function FetchPath(resource: string): string
  {
    "/" + resource + "?size=" + PageSize
  }

  /** What one fetch goroutine sends on the channel. */
  datatype Answer = Answer(resourceName: string, config: Data)

  /** The collected map after receiving `answers` in order: the last write wins. */
  function Gathered(answers: seq<Answer>): (config: map<string, Data>)
    ensures config.Keys == set i | 0 <= i < |answers| :: answers[i].resourceName
  {
    if |answers| == 0 then map[]
    else
      var last := answers[|answers| - 1];
      var prev := Gathered(answers[..|answers| - 1]);
      assert forall i :: 0 <= i < |answers| - 1 ==> answers[..|answers| - 1][i] == answers[i];
      prev[last.resourceName := last.config]
  }

  /** Each name is stored with the data of its last answer. */
  lemma {:induction false} GatheredLastWins(answers: seq<Answer>, i: nat)
    requires i < |answers|
    requires forall j :: i < j < |answers| ==> answers[j].resourceName != answers[i].resourceName
    ensures Gathered(answers)[answers[i].resourceName] == answers[i].config
    decreases |answers|
  {
    if i < |answers| - 1 {
      var prefix := answers[..|answers| - 1];
      GatheredLastWins(prefix, i);
    }
  }

  /**
   * When every resource type answers once, the collected map holds exactly
   * those types, each with its own data.
   */
  lemma GatheredOnePerType(answers: seq<Answer>, names: seq<string>)
    requires Catalog.Distinct(names) && |answers| == |names|
    requires forall i :: 0 <= i < |answers| ==> answers[i].resourceName in names
    requires forall i, j :: 0 <= i < j < |answers| ==> answers[i].resourceName != answers[j].resourceName
    ensures Gathered(answers).Keys == set n | n in names
    ensures forall i :: 0 <= i < |answers| ==> Gathered(answers)[answers[i].resourceName] == answers[i].config
  {
    var got := set i | 0 <= i < |answers| :: answers[i].resourceName;
    var want := set n | n in names;
    assert got <= want;
    NamesCardinality(names);
    AnswerNamesCardinality(answers);
    SubsetOfSameSize(got, want);
    forall i | 0 <= i < |answers|
      ensures Gathered(answers)[answers[i].resourceName] == answers[i].config
    {
      GatheredLastWins(answers, i);
    }
  }

  lemma {:induction false} NamesCardinality(names: seq<string>)
    requires Catalog.Distinct(names)
    ensures |set n | n in names| == |names|
  {
    if |names| > 0 {
      var rest := names[..|names| - 1];
      NamesCardinality(rest);
      assert (set n | n in names) == (set n | n in rest) + {names[|names| - 1]};
    }
  }

  lemma {:induction false} AnswerNamesCardinality(answers: seq<Answer>)
    requires forall i, j :: 0 <= i < j < |answers| ==> answers[i].resourceName != answers[j].resourceName
    ensures |set i | 0 <= i < |answers| :: answers[i].resourceName| == |answers|
  {
    if |answers| > 0 {
      var rest := answers[..|answers| - 1];
      AnswerNamesCardinality(rest);
      assert (set i | 0 <= i < |answers| :: answers[i].resourceName)
          == (set i | 0 <= i < |rest| :: rest[i].resourceName) + {answers[|answers| - 1].resourceName};
    }
  }

  lemma SubsetOfSameSize<T>(a: set<T>, b: set<T>)
    requires a <= b && |a| == |b|
    ensures a == b
  {
    if a != b {
      assert exists x :: x in b && x !in a;
      var x :| x in b && x !in a;
      assert a <= b - {x};
      assert |b - {x}| == |b| - 1;
      SubsetCardinality(a, b - {x});
    }
  }

  lemma {:induction false} SubsetCardinality<T>(a: set<T>, b: set<T>)
    requires a <= b
    ensures |a| <= |b|
    decreases |a|
  {
    if a != {} {
      var x :| x in a;
      SubsetCardinality(a - {x}, b - {x});
    }
  }

  /**
   * The collector loop: receive exactly `count` answers, storing each under
   * its resource name, then stop. The goroutines deliver `answers` in this
   * order; a count of zero would block forever on the channel.
   */
  method CollectAnswers(answers: seq<Answer>, count: nat) returns (config: map<string, Data>)
    requires 0 < count <= |answers|
    ensures config == Gathered(answers[..count])
  {
    var resourcesNum := count;
    var received := 0;
    config := map[];
    while resourcesNum > 0
      invariant received + resourcesNum == count
      invariant config == Gathered(answers[..received])
    {
      var resource := answers[received];
      assert answers[..received + 1][..received] == answers[..received];
      config := config[resource.resourceName := resource.config];
      resourcesNum := resourcesNum - 1;
      received := received + 1;
    }
  }
}
