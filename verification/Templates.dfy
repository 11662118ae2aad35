/** How an edit of a spec moves the desired state: exactly the fields it is about, and nothing else. */
module Templates {
  import opened Types
  import opened Converter

  // ---- Edits ----

  /** The pod with another image in the containers of this name. */
  function WithImage(p: Pod, name: string, image: string): Pod
  {
    p.(containers := seq(|p.containers|, k requires 0 <= k < |p.containers| =>
      if p.containers[k].name == name then p.containers[k].(image := image) else p.containers[k]))
  }

  /** The pod with other resources in its executor and its io sidecar. */
  function WithResources(p: Pod, resources: Resources): Pod
  {
    p.(containers := seq(|p.containers|, k requires 0 <= k < |p.containers| =>
      if p.containers[k].name in {"executor-pod", "io-sidecar"} then p.containers[k].(resources := resources) else p.containers[k]))
  }

  /** The spec with entity `i` replaced. */
  function WithEntity(spec: Spec, i: nat, e: StatefulEntity): Spec
    requires i < |spec.entities|
  {
    spec.(entities := spec.entities[i := e])
  }

  lemma {:induction false} SameCounts(a: seq<StatefulEntity>, b: seq<StatefulEntity>)
    requires |a| == |b| && forall k :: 0 <= k < |a| ==> |a[k].pods| == |b[k].pods|
    ensures PodCount(a) == PodCount(b)
    decreases |a|
  {
    if a != [] { SameCounts(a[..|a| - 1], b[..|b| - 1]); }
  }

  lemma ListSpelled(spec: Spec)
    ensures |DesiredPods(spec)| == PodCount(spec.entities)
    ensures forall i, j :: At(spec, i, j) ==>
              Position(spec, i, j) < |DesiredPods(spec)|
              && DesiredPods(spec)[Position(spec, i, j)] == DesiredPod(spec.entities[i], spec.entities[i].pods[j])
  {
    hide DesiredPod;
    PodPositions(spec, |spec.entities|);
    assert spec.entities[..|spec.entities|] == spec.entities;
  }

  /** Replacing an entity by one with as many pods moves no entry of the list, and changes only
      entries of that entity. */
  lemma EntityEdit(spec: Spec, i: nat, e: StatefulEntity)
    requires i < |spec.entities| && |e.pods| == |spec.entities[i].pods|
    ensures var edited := WithEntity(spec, i, e);
            && |DesiredPods(edited)| == |DesiredPods(spec)|
            && forall k, l :: At(spec, k, l) ==>
                 && At(edited, k, l) && Position(edited, k, l) == Position(spec, k, l) < |DesiredPods(spec)|
                 && DesiredPods(spec)[Position(spec, k, l)] == DesiredPod(spec.entities[k], spec.entities[k].pods[l])
                 && DesiredPods(edited)[Position(spec, k, l)]
                      == if k == i then DesiredPod(e, e.pods[l]) else DesiredPods(spec)[Position(spec, k, l)]
  {
    hide DesiredPod, PodsOfAll;
    var edited := WithEntity(spec, i, e);
    SameCounts(spec.entities, edited.entities);
    ListSpelled(spec);
    ListSpelled(edited);
    hide DesiredPods, PodCount;
    forall k, l | At(spec, k, l) ensures At(edited, k, l) && Position(edited, k, l) == Position(spec, k, l) {
      SameCounts(spec.entities[..k], edited.entities[..k]);
    }
  }

  /** Editing the image of one entity changes, in exactly that entity's pods, exactly the image of
      the container it is for. */
  lemma ImageEdits(spec: Spec, i: nat, image: string)
    requires i < |spec.entities|
    ensures ChangesOnly(spec, WithEntity(spec, i, spec.entities[i].(executorImage := image)), i, "executor-pod", image)
    ensures ChangesOnly(spec, WithEntity(spec, i, spec.entities[i].(ioImage := image)), i, "io-sidecar", image)
    ensures ChangesOnly(spec, WithEntity(spec, i, spec.entities[i].(stateImage := image)), i, "state-sidecar", image)
  {
    var e := spec.entities[i];
    ContainerNamesDiffer();
    ImageEdit(spec, i, e.(executorImage := image), "executor-pod", image);
    ImageEdit(spec, i, e.(ioImage := image), "io-sidecar", image);
    ImageEdit(spec, i, e.(stateImage := image), "state-sidecar", image);
  }

  /** The desired lists differ exactly in the image of the containers called `name` of the pods of
      entity `i`. */
  ghost predicate ChangesOnly(spec: Spec, edited: Spec, i: nat, name: string, image: string)
  {
    && |DesiredPods(edited)| == |DesiredPods(spec)|
    && forall k, l :: At(spec, k, l) ==>
         Position(spec, k, l) < |DesiredPods(spec)|
         && DesiredPods(edited)[Position(spec, k, l)]
              == if k == i then WithImage(DesiredPods(spec)[Position(spec, k, l)], name, image)
                 else DesiredPods(spec)[Position(spec, k, l)]
  }

  lemma ImageEdit(spec: Spec, i: nat, e: StatefulEntity, name: string, image: string)
    requires i < |spec.entities| && e.pods == spec.entities[i].pods
    requires forall pc :: DesiredPod(e, pc) == WithImage(DesiredPod(spec.entities[i], pc), name, image)
    ensures ChangesOnly(spec, WithEntity(spec, i, e), i, name, image)
  {
    hide DesiredPod, DesiredPods, WithImage, PodCount;
    EntityEdit(spec, i, e);
  }

  /** Editing the resources of one configured pod changes exactly that pod's executor and io
      sidecar, and there exactly the resources. */
  lemma ResourceEdit(spec: Spec, i: nat, j: nat, resources: Resources)
    requires At(spec, i, j)
    ensures var e := spec.entities[i];
            var edited := WithEntity(spec, i, e.(pods := e.pods[j := e.pods[j].(resources := resources)]));
            && |DesiredPods(edited)| == |DesiredPods(spec)|
            && forall k, l :: At(spec, k, l) ==>
                 Position(spec, k, l) < |DesiredPods(spec)|
                 && DesiredPods(edited)[Position(spec, k, l)]
                      == if k == i && l == j then WithResources(DesiredPods(spec)[Position(spec, k, l)], resources)
                         else DesiredPods(spec)[Position(spec, k, l)]
  {
    var e := spec.entities[i];
    ContainerNamesDiffer();
    assert DesiredPod(e, e.pods[j].(resources := resources)) == WithResources(DesiredPod(e, e.pods[j]), resources);
    assert forall pc :: DesiredPod(e.(pods := e.pods[j := e.pods[j].(resources := resources)]), pc) == DesiredPod(e, pc);
    hide DesiredPod, DesiredPods, WithResources, PodCount;
    EntityEdit(spec, i, e.(pods := e.pods[j := e.pods[j].(resources := resources)]));
  }
}
