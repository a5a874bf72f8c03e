/** Enrichment of listed pods with their metrics: every pod whose name and
    namespace equal those of a pod-metrics record gets the record's first
    container's CPU and memory usage as two annotations. Metrics are applied
    in list order, so the last matching record wins. */
module Enrichment {
  import opened Wrappers

  const CpuAnnotation := "metrics/cpu"
  const MemoryAnnotation := "metrics/memory"

  /** The part of a pod the enrichment reads and writes. `annotations == None`
      is a nil Go map, which cannot be written to. */
  datatype Pod = Pod(
    name: string,
    namespace: string,
    labels: map<string, string>,
    annotations: Option<map<string, string>>)

  /** One container's usage, with each quantity already rendered as a string. */
  datatype ContainerMetrics = ContainerMetrics(name: string, cpu: string, memory: string)

  datatype PodMetrics = PodMetrics(name: string, namespace: string, containers: seq<ContainerMetrics>)

  predicate Matches(p: Pod, m: PodMetrics)
  {
    p.name == m.name && p.namespace == m.namespace
  }

  /** Writing `m`'s usage into `p` neither hits a nil map nor indexes an empty container list. */
  predicate CanAnnotate(p: Pod, m: PodMetrics)
  {
    p.annotations.Some? && |m.containers| > 0
  }

  /** Every metric that matches `p` can be written into it. */
  predicate CanEnrichPod(p: Pod, ms: seq<PodMetrics>)
  {
    forall j :: 0 <= j < |ms| && Matches(p, ms[j]) ==> CanAnnotate(p, ms[j])
  }

  /** The inputs on which the enrichment loop runs without a panic. */
  predicate CanEnrich(pods: seq<Pod>, ms: seq<PodMetrics>)
  {
    forall i :: 0 <= i < |pods| ==> CanEnrichPod(pods[i], ms)
  }

  /** The two annotation writes for one matching metric. */
  function Annotate(p: Pod, m: PodMetrics): Pod
    requires CanAnnotate(p, m)
  {
    p.(annotations := Some(p.annotations.value[CpuAnnotation := m.containers[0].cpu][MemoryAnnotation := m.containers[0].memory]))
  }

  /** One step of the inner loop. */
  function Apply(p: Pod, m: PodMetrics): Pod
    requires Matches(p, m) ==> CanAnnotate(p, m)
  {
    if Matches(p, m) then Annotate(p, m) else p
  }

  /** The inner loop over all metrics, applied to one pod in list order. */
  function EnrichPod(p: Pod, ms: seq<PodMetrics>): (r: Pod)
    requires CanEnrichPod(p, ms)
    ensures r.name == p.name && r.namespace == p.namespace && r.labels == p.labels
    ensures p.annotations.Some? ==> r.annotations.Some?
    ensures p.annotations.None? ==> r == p
    decreases |ms|
  {
    if ms == [] then p
    else
      var prefix := ms[..|ms| - 1];
      assert CanEnrichPod(p, prefix) by {
        forall j | 0 <= j < |prefix| && Matches(p, prefix[j]) ensures CanAnnotate(p, prefix[j]) {
          assert prefix[j] == ms[j];
        }
      }
      Apply(EnrichPod(p, prefix), ms[|ms| - 1])
  }

  /** Both loops: every pod enriched, in place, in its original position. */
  function Enrich(pods: seq<Pod>, ms: seq<PodMetrics>): (r: seq<Pod>)
    requires CanEnrich(pods, ms)
    ensures |r| == |pods|
    ensures forall i :: 0 <= i < |pods| ==> r[i].name == pods[i].name && r[i].namespace == pods[i].namespace
  {
    seq(|pods|, i requires 0 <= i < |pods| => EnrichPod(pods[i], ms))
  }

  /** An independent reference: the index of the last metric matching `p`, if any. */
  function LastMatch(p: Pod, ms: seq<PodMetrics>): (r: Option<nat>)
    ensures r.Some? ==> r.value < |ms| && Matches(p, ms[r.value])
    ensures r.Some? ==> forall j :: r.value < j < |ms| ==> !Matches(p, ms[j])
    ensures r.None? ==> forall j :: 0 <= j < |ms| ==> !Matches(p, ms[j])
    decreases |ms|
  {
    if ms == [] then None
    else if Matches(p, ms[|ms| - 1]) then Some(|ms| - 1)
    else LastMatch(p, ms[..|ms| - 1])
  }

  /** A later match overwrites both annotations an earlier one wrote. */
  lemma AnnotateTwice(p: Pod, m1: PodMetrics, m2: PodMetrics)
    requires CanAnnotate(p, m1) && |m2.containers| > 0
    ensures Annotate(Annotate(p, m1), m2) == Annotate(p, m2)
  {
    var a := p.annotations.value;
    var c1, c2 := m1.containers[0], m2.containers[0];
    assert a[CpuAnnotation := c1.cpu][MemoryAnnotation := c1.memory][CpuAnnotation := c2.cpu][MemoryAnnotation := c2.memory]
        == a[CpuAnnotation := c2.cpu][MemoryAnnotation := c2.memory];
  }

  /** The last match in metric order wins: a pod no metric matches is returned
      unchanged, and a matched pod differs from the input only in its two
      metrics annotations, which hold the usage of the last matching record. */
  lemma {:induction false} EnrichPodLastMatch(p: Pod, ms: seq<PodMetrics>)
    requires CanEnrichPod(p, ms)
    ensures LastMatch(p, ms).None? ==> EnrichPod(p, ms) == p
    ensures LastMatch(p, ms).Some? ==>
      var m := ms[LastMatch(p, ms).value];
      EnrichPod(p, ms) == p.(annotations := Some(p.annotations.value[CpuAnnotation := m.containers[0].cpu][MemoryAnnotation := m.containers[0].memory]))
    decreases |ms|
  {
    if ms != [] {
      var prefix := ms[..|ms| - 1];
      var last := ms[|ms| - 1];
      assert CanEnrichPod(p, prefix) by {
        forall j | 0 <= j < |prefix| && Matches(p, prefix[j]) ensures CanAnnotate(p, prefix[j]) {
          assert prefix[j] == ms[j];
        }
      }
      EnrichPodLastMatch(p, prefix);
      if Matches(p, last) {
        if LastMatch(p, prefix).Some? {
          var j := LastMatch(p, prefix).value;
          assert prefix[j] == ms[j];
          AnnotateTwice(p, ms[j], last);
        }
      } else {
        var lm := LastMatch(p, prefix);
        if lm.Some? {
          assert prefix[lm.value] == ms[lm.value];
        }
      }
    }
  }

  /** The whole enrichment: pod count and order kept, unmatched pods untouched,
      matched pods carrying the last matching record's usage. */
  lemma EnrichLastMatch(pods: seq<Pod>, ms: seq<PodMetrics>)
    requires CanEnrich(pods, ms)
    ensures |Enrich(pods, ms)| == |pods|
    ensures forall i :: 0 <= i < |pods| && LastMatch(pods[i], ms).None? ==> Enrich(pods, ms)[i] == pods[i]
    ensures forall i :: 0 <= i < |pods| && LastMatch(pods[i], ms).Some? ==>
      var m := ms[LastMatch(pods[i], ms).value];
      Enrich(pods, ms)[i] == pods[i].(annotations := Some(pods[i].annotations.value[CpuAnnotation := m.containers[0].cpu][MemoryAnnotation := m.containers[0].memory]))
  {
    forall i | 0 <= i < |pods|
      ensures LastMatch(pods[i], ms).None? ==> Enrich(pods, ms)[i] == pods[i]
      ensures LastMatch(pods[i], ms).Some? ==>
        var m := ms[LastMatch(pods[i], ms).value];
        Enrich(pods, ms)[i] == pods[i].(annotations := Some(pods[i].annotations.value[CpuAnnotation := m.containers[0].cpu][MemoryAnnotation := m.containers[0].memory]))
    {
      EnrichPodLastMatch(pods[i], ms);
    }
  }

  /** With no metrics at all (or none matching), enrichment is the identity. */
  lemma EnrichNoMatch(pods: seq<Pod>, ms: seq<PodMetrics>)
    requires forall i, j :: 0 <= i < |pods| && 0 <= j < |ms| ==> !Matches(pods[i], ms[j])
    ensures CanEnrich(pods, ms) && Enrich(pods, ms) == pods
  {
    forall i | 0 <= i < |pods| ensures Enrich(pods, ms)[i] == pods[i] {
      EnrichPodLastMatch(pods[i], ms);
    }
  }

  /** The nested loop of the source: for each pod index, for each metric in
      order, write the two annotations into the array slot when the pod's
      name and namespace match. */
  method EnrichInPlace(items: array<Pod>, ms: seq<PodMetrics>)
    requires CanEnrich(items[..], ms)
    modifies items
    ensures items[..] == Enrich(old(items[..]), ms)
  {
    var i := 0;
    while i < items.Length
      invariant 0 <= i <= items.Length
      invariant forall k :: 0 <= k < i ==> items[k] == EnrichPod(old(items[k]), ms)
      invariant forall k :: i <= k < items.Length ==> items[k] == old(items[k])
    {
      var pod := items[i];
      assert CanEnrichPod(pod, ms) by {
        assert pod == old(items[..])[i];
      }
      var j := 0;
      while j < |ms|
        invariant 0 <= j <= |ms|
        invariant CanEnrichPod(pod, ms[..j])
        invariant items[i] == EnrichPod(pod, ms[..j])
        invariant forall k :: 0 <= k < i ==> items[k] == EnrichPod(old(items[k]), ms)
        invariant forall k :: i < k < items.Length ==> items[k] == old(items[k])
      {
        var metric := ms[j];
        var upTo := ms[..j + 1];
        assert upTo[..j] == ms[..j];
        assert upTo[j] == metric;
        assert CanEnrichPod(pod, upTo) by {
          forall t | 0 <= t < |upTo| && Matches(pod, upTo[t]) ensures CanAnnotate(pod, upTo[t]) {
            assert upTo[t] == ms[t];
          }
        }
        if pod.name == metric.name && pod.namespace == metric.namespace {
          var usage := metric.containers[0];
          items[i] := items[i].(annotations := Some(items[i].annotations.value[CpuAnnotation := usage.cpu]));
          items[i] := items[i].(annotations := Some(items[i].annotations.value[MemoryAnnotation := usage.memory]));
        }
        j := j + 1;
      }
      assert ms[..|ms|] == ms;
      i := i + 1;
    }
    assert items[..] == Enrich(old(items[..]), ms);
  }
}
