/** The restart test of the reconciler and the defaulting the API server applies to a new pod. */
module Restart {
  import opened Types

  /** Absent requests count as the limits. */
  function Effective(r: Resources): Resources
  {
    if r.requests.None? then Resources(r.limits, r.limits) else r
  }

  /** The resources written last under each container name. */
  function ByContainer(cs: seq<Container>): (m: map<string, Resources>)
  {
    if cs == [] then map[] else
      var last := cs[|cs| - 1];
      ByContainer(cs[..|cs| - 1])[last.name := last.resources]
  }

  function EffectiveByContainer(cs: seq<Container>): map<string, Resources>
  {
    var m := ByContainer(cs);
    map n | n in m :: Effective(m[n])
  }

  predicate NeedToRestart(desired: Pod, observed: Pod)
  {
    EffectiveByContainer(desired.containers) != EffectiveByContainer(observed.containers)
  }

  // ---- What the test compares ----

  /** No later container of the pod has the same name. */
  ghost predicate LastOfName(cs: seq<Container>, i: int)
  {
    0 <= i < |cs| && forall k :: i < k < |cs| ==> cs[k].name != cs[i].name
  }

  /** What the container asks for, where a missing field of requests stands for the limits. */
  function Asked(r: Resources): Option<map<string, string>>
  {
    if r.requests.None? then r.limits else r.requests
  }

  function ContainerNames(cs: seq<Container>): set<string> { set c | c in cs :: c.name }

  /** The same container names, and under each name, for the last container that has it, the same
      limits and the same requests. */
  ghost predicate SameNeeds(ds: seq<Container>, os: seq<Container>)
  {
    && ContainerNames(ds) == ContainerNames(os)
    && forall i, j :: LastOfName(ds, i) && LastOfName(os, j) && ds[i].name == os[j].name ==>
         ds[i].resources.limits == os[j].resources.limits && Asked(ds[i].resources) == Asked(os[j].resources)
  }

  lemma {:induction false} LastWins(cs: seq<Container>)
    ensures ByContainer(cs).Keys == ContainerNames(cs)
    ensures forall i :: LastOfName(cs, i) ==> ByContainer(cs)[cs[i].name] == cs[i].resources
  {
    if cs != [] {
      var front, last := cs[..|cs| - 1], cs[|cs| - 1];
      LastWins(front);
      assert cs == front + [last];
      assert ContainerNames(cs) == ContainerNames(front) + {last.name};
      forall i | LastOfName(cs, i) ensures ByContainer(cs)[cs[i].name] == cs[i].resources {
        if i < |front| {
          assert LastOfName(front, i) by { assert forall k :: i < k < |front| ==> cs[k] == front[k]; }
        }
      }
    }
  }

  lemma {:induction false} SomeLast(cs: seq<Container>, n: string) returns (i: int)
    requires n in ContainerNames(cs)
    ensures LastOfName(cs, i) && cs[i].name == n
  {
    var last := |cs| - 1;
    assert cs == cs[..last] + [cs[last]];
    if cs[last].name == n {
      i := last;
    } else {
      i := SomeLast(cs[..last], n);
      assert forall k :: i < k < last ==> cs[k] == cs[..last][k];
    }
  }

  lemma SameEffective(a: Resources, b: Resources)
    ensures Effective(a) == Effective(b) <==> a.limits == b.limits && Asked(a) == Asked(b)
  {
  }

  /** The meaning of the restart test: no restart exactly when both pods have the same needs. */
  lemma RestartTestMeaning(desired: Pod, observed: Pod)
    ensures !NeedToRestart(desired, observed) <==> SameNeeds(desired.containers, observed.containers)
  {
    hide Effective, Asked, ByContainer;
    var ds, os := desired.containers, observed.containers;
    LastWins(ds);
    LastWins(os);
    var d, o := EffectiveByContainer(ds), EffectiveByContainer(os);
    assert d.Keys == ContainerNames(ds) && o.Keys == ContainerNames(os);
    if SameNeeds(ds, os) {
      forall n | n in d ensures d[n] == o[n] {
        var i := SomeLast(ds, n);
        var j := SomeLast(os, n);
        SameEffective(ds[i].resources, os[j].resources);
      }
      assert d == o;
    }
    if d == o {
      forall i, j | LastOfName(ds, i) && LastOfName(os, j) && ds[i].name == os[j].name
        ensures ds[i].resources.limits == os[j].resources.limits && Asked(ds[i].resources) == Asked(os[j].resources)
      {
        assert ds[i] in ds && ds[i].name in d;
        SameEffective(ds[i].resources, os[j].resources);
      }
    }
  }

  method FillResources(containers: seq<Container>) returns (resources: map<string, Resources>)
    ensures resources == EffectiveByContainer(containers)
  {
    resources := map[];
    for i := 0 to |containers|
      invariant resources == EffectiveByContainer(containers[..i])
    {
      var container := containers[i];
      if container.resources.requests.None? {
        container := container.(resources := container.resources.(requests := container.resources.limits));
      }
      assert containers[..i + 1][..i] == containers[..i];
      resources := resources[container.name := container.resources];
    }
    assert containers[..|containers|] == containers;
  }

  method NeedToRestartPod(desiredPod: Pod, observedPod: Pod) returns (restart: bool)
    ensures restart == NeedToRestart(desiredPod, observedPod)
    ensures restart <==> !SameNeeds(desiredPod.containers, observedPod.containers)
  {
    RestartTestMeaning(desiredPod, observedPod);
    var desiredPodResources := FillResources(desiredPod.containers);
    var observedPodResources := FillResources(observedPod.containers);
    restart := desiredPodResources != observedPodResources;
  }

  // ---- What the API server stores when a pod is created ----

  /** Every limit without a request of its own also becomes a request. */
  function AdmitResources(r: Resources): Resources
  {
    if r.limits.None? then r
    else r.(requests := Some(r.limits.value + (if r.requests.Some? then r.requests.value else map[])))
  }

  function Admit(cs: seq<Container>): (admitted: seq<Container>)
    ensures |admitted| == |cs|
    ensures forall i :: 0 <= i < |cs| ==> admitted[i] == cs[i].(resources := AdmitResources(cs[i].resources))
  {
    seq(|cs|, i requires 0 <= i < |cs| => cs[i].(resources := AdmitResources(cs[i].resources)))
  }

  /** Requests are absent, or name every limited resource. */
  predicate Covered(r: Resources)
  {
    r.limits.None? || r.requests.None? || r.limits.value.Keys <= r.requests.value.Keys
  }

  lemma {:induction false} AdmitByContainer(cs: seq<Container>)
    ensures ByContainer(Admit(cs)).Keys == ByContainer(cs).Keys
    ensures forall n :: n in ByContainer(cs) ==> ByContainer(Admit(cs))[n] == AdmitResources(ByContainer(cs)[n])
  {
    if cs != [] {
      var front := cs[..|cs| - 1];
      AdmitByContainer(front);
      assert Admit(cs)[..|cs| - 1] == Admit(front);
    }
  }

  lemma AdmitKeepsEffective(r: Resources)
    ensures Effective(AdmitResources(r)) == Effective(r) <==> Covered(r)
  {
    if r.limits.Some? && r.requests.Some? {
      var filled := r.limits.value + r.requests.value;
      assert filled.Keys == r.limits.value.Keys + r.requests.value.Keys;
      if Covered(r) {
        assert filled == r.requests.value;
      } else {
        var k :| k in r.limits.value && k !in r.requests.value;
        assert k in filled;
      }
    } else if r.limits.Some? {
      assert r.limits.value + map[] == r.limits.value;
    }
  }

  /** A pod stored from its own template passes the restart test against that template exactly
      when each container's requests are absent or cover its limits. */
  lemma FreshPodNeedsNoRestart(desired: Pod, stored: Pod)
    requires stored.containers == Admit(desired.containers)
    ensures !NeedToRestart(desired, stored)
        <==> (forall n :: n in ByContainer(desired.containers) ==> Covered(ByContainer(desired.containers)[n]))
  {
    var raw := ByContainer(desired.containers);
    var kept := ByContainer(stored.containers);
    AdmitByContainer(desired.containers);
    forall n | n in raw
      ensures Effective(kept[n]) == Effective(raw[n]) <==> Covered(raw[n])
    {
      AdmitKeepsEffective(raw[n]);
    }
    var before, after := EffectiveByContainer(desired.containers), EffectiveByContainer(stored.containers);
    assert before.Keys == raw.Keys == after.Keys;
    if forall n :: n in raw ==> Covered(raw[n]) {
      assert before == after;
    } else {
      var n :| n in raw && !Covered(raw[n]);
      assert before[n] != after[n];
    }
  }

  /** Images play no part: two templates that agree on container names and resources are
      interchangeable for the test. */
  lemma {:induction false} ImagesIgnored(cs: seq<Container>, ds: seq<Container>)
    requires |cs| == |ds|
    requires forall i :: 0 <= i < |cs| ==> cs[i].name == ds[i].name && cs[i].resources == ds[i].resources
    ensures ByContainer(cs) == ByContainer(ds)
  {
    if cs != [] {
      ImagesIgnored(cs[..|cs| - 1], ds[..|ds| - 1]);
    }
  }

  /** How a live pod can stand to its template: the test would keep it, or it was stored
      from exactly this template. */
  ghost predicate Fits(desired: Pod, pod: Pod)
  {
    && pod.labels == desired.labels
    && pod.configVolume == desired.configVolume
    && (!NeedToRestart(desired, pod) || pod.containers == Admit(desired.containers))
  }

  /** Every container's requests are absent or name every limited resource. */
  ghost predicate AllCovered(desired: Pod)
  {
    var resources := ByContainer(desired.containers);
    forall n :: n in resources ==> Covered(resources[n])
  }

  /** With requests that are absent or cover the limits, fitting is passing the restart test. */
  lemma FitsWhenCovered(desired: Pod, pod: Pod)
    requires AllCovered(desired)
    ensures Fits(desired, pod)
        <==> !NeedToRestart(desired, pod) && pod.labels == desired.labels && pod.configVolume == desired.configVolume
  {
    if pod.containers == Admit(desired.containers) {
      FreshPodNeedsNoRestart(desired, pod);
    }
  }

  /** "Needs no restart" is an equivalence, and a template may be exchanged for what the server
      stored of it on either side of the test, provided its requests are absent or cover its limits. */
  lemma RestartTestUpToAdmission(p: Pod, stored: Pod, q: Pod, r: Pod)
    requires AllCovered(p) && stored.containers == Admit(p.containers)
    ensures NeedToRestart(stored, q) == NeedToRestart(p, q) && NeedToRestart(q, stored) == NeedToRestart(q, p)
    ensures !NeedToRestart(p, p) && NeedToRestart(p, q) == NeedToRestart(q, p)
    ensures !NeedToRestart(p, q) && !NeedToRestart(q, r) ==> !NeedToRestart(p, r)
  {
    FreshPodNeedsNoRestart(p, stored);
  }
}
