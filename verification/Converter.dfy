/** From a spec to the ConfigMaps and pods it asks for. */
module Converter {
  import opened Types
  import opened Text

  const TYPE_KEY := "type"
  const TYPE_VALUE := "statefulEntity"
  const ENTITY_KEY := "statefulEntityName"

  const CONFIG_MAP_LABELS: Labels := map["app" := "invoker"][TYPE_KEY := TYPE_VALUE]

  function PodLabels(entity: string): Labels
  {
    CONFIG_MAP_LABELS[ENTITY_KEY := entity]
  }

  function ConfigMapName(entity: string): string { entity + "-configmap" }

  function PartitionKey(pod: string): string { pod + ".partitions" }

  function MainText(broker: string, input: string, output: string): string
  {
    "\n" + (("kafka.broker=" + broker) + "\n" + (("input.topic=" + input) + "\n" + (("output.topic=" + output) + "\n")))
  }

  function EntityData(e: StatefulEntity, pods: seq<PodConfig>): map<string, string>
  {
    if pods == [] then map["main" := MainText(e.ioAddress, e.inputTopic, e.outputTopic)]
    else
      var last := pods[|pods| - 1];
      EntityData(e, pods[..|pods| - 1])[PartitionKey(last.name) := Join(last.partitions, ',')]
  }

  function DesiredConfigMap(e: StatefulEntity): ConfigMap
  {
    ConfigMap(ConfigMapName(e.name), CONFIG_MAP_LABELS, EntityData(e, e.pods))
  }

  function DesiredConfigMaps(spec: Spec): (list: seq<ConfigMap>)
    ensures |list| == |spec.entities|
    ensures forall i :: 0 <= i < |list| ==> list[i] == DesiredConfigMap(spec.entities[i])
  {
    seq(|spec.entities|, i requires 0 <= i < |spec.entities| => DesiredConfigMap(spec.entities[i]))
  }

  function DesiredPod(e: StatefulEntity, p: PodConfig): Pod
  {
    Pod(p.name, PodLabels(e.name),
        [Container("executor-pod", e.executorImage, p.resources),
         Container("io-sidecar", e.ioImage, p.resources),
         Container("state-sidecar", e.stateImage, Resources(None, None))],
        ConfigMapName(e.name), Pending, false)
  }

  function PodsOf(e: StatefulEntity, pods: seq<PodConfig>): (list: seq<Pod>)
    ensures |list| == |pods|
    ensures forall i :: 0 <= i < |list| ==> list[i] == DesiredPod(e, pods[i])
  {
    seq(|pods|, i requires 0 <= i < |pods| => DesiredPod(e, pods[i]))
  }

  function PodsOfAll(entities: seq<StatefulEntity>): seq<Pod>
  {
    if entities == [] then [] else
      var last := entities[|entities| - 1];
      PodsOfAll(entities[..|entities| - 1]) + PodsOf(last, last.pods)
  }

  function DesiredPods(spec: Spec): seq<Pod> { PodsOfAll(spec.entities) }

  // ---- The same lists, built by the source's loops ----

  method GetDesiredConfigMaps(spec: Spec) returns (cmList: seq<ConfigMap>)
    ensures cmList == DesiredConfigMaps(spec)
  {
    var labels := map["app" := "invoker"];
    labels := labels[TYPE_KEY := TYPE_VALUE];
    cmList := [];
    for i := 0 to |spec.entities|
      invariant |cmList| == i
      invariant forall k :: 0 <= k < i ==> cmList[k] == DesiredConfigMap(spec.entities[k])
    {
      var e := spec.entities[i];
      var data := map["main" := MainText(e.ioAddress, e.inputTopic, e.outputTopic)];
      for j := 0 to |e.pods|
        invariant data == EntityData(e, e.pods[..j])
      {
        assert e.pods[..j + 1][..j] == e.pods[..j];
        data := data[PartitionKey(e.pods[j].name) := Join(e.pods[j].partitions, ',')];
      }
      assert e.pods[..|e.pods|] == e.pods;
      cmList := cmList + [ConfigMap(ConfigMapName(e.name), labels, data)];
    }
  }

  method GetDesiredStatefulEntities(spec: Spec) returns (podList: seq<Pod>)
    ensures podList == DesiredPods(spec)
    ensures |podList| == PodCount(spec.entities)
    ensures forall i, j :: At(spec, i, j) ==>
              Position(spec, i, j) < |podList|
              && Configured(podList[Position(spec, i, j)], spec.entities[i], spec.entities[i].pods[j])
  {
    hide Configured;
    podList := [];
    for i := 0 to |spec.entities|
      invariant podList == PodsOfAll(spec.entities[..i])
    {
      var e := spec.entities[i];
      assert spec.entities[..i + 1][..i] == spec.entities[..i];
      var labels := map["app" := "invoker"];
      labels := labels[TYPE_KEY := TYPE_VALUE];
      labels := labels[ENTITY_KEY := e.name];
      for j := 0 to |e.pods|
        invariant podList == PodsOfAll(spec.entities[..i]) + PodsOf(e, e.pods[..j])
      {
        var podConfig := e.pods[j];
        var pod := Pod(podConfig.name, labels,
                       [Container("executor-pod", e.executorImage, podConfig.resources),
                        Container("io-sidecar", e.ioImage, podConfig.resources),
                        Container("state-sidecar", e.stateImage, Resources(None, None))],
                       ConfigMapName(e.name), Pending, false);
        assert PodsOf(e, e.pods[..j + 1]) == PodsOf(e, e.pods[..j]) + [pod];
        podList := podList + [pod];
      }
      assert e.pods[..|e.pods|] == e.pods;
    }
    assert spec.entities[..|spec.entities|] == spec.entities;
    DesiredPodsMeaning(spec);
  }

  // ---- Closure of the desired state ----

  /** The pod configuration `j` of entity `i` exists. */
  predicate At(spec: Spec, i: int, j: int)
  {
    0 <= i < |spec.entities| && 0 <= j < |spec.entities[i].pods|
  }

  function PodAt(spec: Spec, i: int, j: int): Pod
    requires At(spec, i, j)
  {
    DesiredPod(spec.entities[i], spec.entities[i].pods[j])
  }

  /** Entity names are distinct, and pod names are distinct across all entities. */
  ghost predicate WellFormed(spec: Spec)
  {
    && (forall i, j :: 0 <= i < j < |spec.entities| ==> spec.entities[i].name != spec.entities[j].name)
    && (forall i, j, k, l :: At(spec, i, j) && At(spec, k, l) && PodAt(spec, i, j).name == PodAt(spec, k, l).name
          ==> i == k && j == l)
  }

  function PodCount(entities: seq<StatefulEntity>): nat
  {
    if entities == [] then 0 else PodCount(entities[..|entities| - 1]) + |entities[|entities| - 1].pods|
  }

  /** Where the list puts each configured pod: the index of pod `j` of entity `i` in the list is
      the number of pods before it, and every list entry is one of these. */
  lemma {:induction false} PodPositions(spec: Spec, n: nat)
    requires n <= |spec.entities|
    ensures |PodsOfAll(spec.entities[..n])| == PodCount(spec.entities[..n])
    ensures forall i, j :: At(spec, i, j) && i < n ==>
              PodCount(spec.entities[..i]) + j < |PodsOfAll(spec.entities[..n])|
              && PodsOfAll(spec.entities[..n])[PodCount(spec.entities[..i]) + j] == PodAt(spec, i, j)
    ensures forall p :: p in PodsOfAll(spec.entities[..n]) ==> exists i, j :: At(spec, i, j) && i < n && p == PodAt(spec, i, j)
  {
    if n > 0 {
      PodPositions(spec, n - 1);
      var e := spec.entities[n - 1];
      assert spec.entities[..n][..n - 1] == spec.entities[..n - 1];
      var before, own := PodsOfAll(spec.entities[..n - 1]), PodsOf(e, e.pods);
      assert PodsOfAll(spec.entities[..n]) == before + own;
      forall p | p in before + own
        ensures exists i, j :: At(spec, i, j) && i < n && p == PodAt(spec, i, j)
      {
        if p in own {
          var j :| 0 <= j < |own| && own[j] == p;
          assert At(spec, n - 1, j) && p == PodAt(spec, n - 1, j);
        }
      }
    }
  }

  lemma PodListed(spec: Spec, p: Pod)
    ensures p in DesiredPods(spec) <==> exists i, j :: At(spec, i, j) && p == PodAt(spec, i, j)
  {
    PodPositions(spec, |spec.entities|);
    assert spec.entities[..|spec.entities|] == spec.entities;
    if i, j :| At(spec, i, j) && p == PodAt(spec, i, j) {
      assert DesiredPods(spec)[PodCount(spec.entities[..i]) + j] == p;
    }
  }

  lemma PartitionKeysDiffer(a: string, b: string)
    ensures PartitionKey(a) != "main"
    ensures PartitionKey(a) == PartitionKey(b) <==> a == b
  {
    assert |PartitionKey(a)| > |"main"|;
    if PartitionKey(a) == PartitionKey(b) {
      SuffixInjective(a, b, ".partitions");
    }
  }

  lemma {:induction false} EntityDataMain(e: StatefulEntity, pods: seq<PodConfig>)
    ensures "main" in EntityData(e, pods)
    ensures EntityData(e, pods)["main"] == MainText(e.ioAddress, e.inputTopic, e.outputTopic)
  {
    if pods != [] {
      EntityDataMain(e, pods[..|pods| - 1]);
      PartitionKeysDiffer(pods[|pods| - 1].name, "");
    }
  }

  lemma {:induction false} EntityDataPartitions(e: StatefulEntity, pods: seq<PodConfig>, j: int)
    requires 0 <= j < |pods|
    requires forall k :: j < k < |pods| ==> pods[k].name != pods[j].name
    ensures PartitionKey(pods[j].name) in EntityData(e, pods)
    ensures EntityData(e, pods)[PartitionKey(pods[j].name)] == Join(pods[j].partitions, ',')
  {
    var last := |pods| - 1;
    if j < last {
      EntityDataPartitions(e, pods[..last], j);
      PartitionKeysDiffer(pods[j].name, pods[last].name);
    }
  }

  ghost predicate DistinctNames<T(!new)>(list: seq<T>, name: T -> string)
  {
    forall i, j :: 0 <= i < j < |list| ==> name(list[i]) != name(list[j])
  }

  /** The desired names of a well-formed spec are distinct and no configured pod is lost. */
  lemma DesiredNamesDistinct(spec: Spec)
    requires WellFormed(spec)
    ensures DistinctNames(DesiredConfigMaps(spec), (cm: ConfigMap) => cm.name)
    ensures DistinctNames(DesiredPods(spec), (p: Pod) => p.name)
    ensures |DesiredPods(spec)| == PodCount(spec.entities)
  {
    ConfigMapNamesDistinct(spec);
    PodNamesDistinct(spec);
    PodPositions(spec, |spec.entities|);
    assert spec.entities[..|spec.entities|] == spec.entities;
  }

  /** Every configured pod is desired and mounts a desired ConfigMap.  That ConfigMap holds
      exactly the pod's own partitions under the pod's key, and no pod's key displaces the
      broker settings under `main`. */
  lemma DesiredPodIsServed(spec: Spec, i: int, j: int)
    requires WellFormed(spec) && At(spec, i, j)
    ensures PodAt(spec, i, j) in DesiredPods(spec)
    ensures exists cm :: cm in DesiredConfigMaps(spec) && cm.name == PodAt(spec, i, j).configVolume
    ensures forall cm :: cm in DesiredConfigMaps(spec) && cm.name == PodAt(spec, i, j).configVolume ==>
              && PartitionKey(PodAt(spec, i, j).name) in cm.data
              && cm.data[PartitionKey(PodAt(spec, i, j).name)] == Join(spec.entities[i].pods[j].partitions, ',')
              && "main" in cm.data
              && cm.data["main"] == MainText(spec.entities[i].ioAddress, spec.entities[i].inputTopic, spec.entities[i].outputTopic)
  {
    PodListed(spec, PodAt(spec, i, j));
    var e := spec.entities[i];
    assert DesiredConfigMaps(spec)[i] == DesiredConfigMap(e);
    forall cm | cm in DesiredConfigMaps(spec) && cm.name == ConfigMapName(e.name)
      ensures cm == DesiredConfigMap(e)
    {
      var k :| 0 <= k < |spec.entities| && DesiredConfigMaps(spec)[k] == cm;
      SuffixInjective(spec.entities[k].name, e.name, "-configmap");
    }
    forall k | j < k < |e.pods| ensures e.pods[k].name != e.pods[j].name
    {
      assert At(spec, i, k) && PodAt(spec, i, k).name == e.pods[k].name;
    }
    EntityDataMain(e, e.pods);
    EntityDataPartitions(e, e.pods, j);
  }

  lemma ConfigMapNamesDistinct(spec: Spec)
    requires WellFormed(spec)
    ensures DistinctNames(DesiredConfigMaps(spec), (cm: ConfigMap) => cm.name)
  {
    forall i, j | 0 <= i < j < |spec.entities|
      ensures DesiredConfigMaps(spec)[i].name != DesiredConfigMaps(spec)[j].name
    {
      if ConfigMapName(spec.entities[i].name) == ConfigMapName(spec.entities[j].name) {
        SuffixInjective(spec.entities[i].name, spec.entities[j].name, "-configmap");
      }
    }
  }

  /** The position in the pod list determines the entity and the index within it. */
  lemma {:induction false} PositionSplit(spec: Spec, n: nat, k: nat) returns (i: int, j: int)
    requires n <= |spec.entities| && k < PodCount(spec.entities[..n])
    ensures At(spec, i, j) && i < n && k == PodCount(spec.entities[..i]) + j
  {
    assert n > 0;
    assert spec.entities[..n][..n - 1] == spec.entities[..n - 1];
    if k < PodCount(spec.entities[..n - 1]) {
      i, j := PositionSplit(spec, n - 1, k);
    } else {
      i, j := n - 1, k - PodCount(spec.entities[..n - 1]);
    }
  }

  lemma PodNamesDistinct(spec: Spec)
    requires WellFormed(spec)
    ensures DistinctNames(DesiredPods(spec), (p: Pod) => p.name)
  {
    var all := DesiredPods(spec);
    PodPositions(spec, |spec.entities|);
    assert spec.entities[..|spec.entities|] == spec.entities;
    hide DesiredPods, PodAt, WellFormed;
    forall a, b | 0 <= a < b < |all|
      ensures all[a].name != all[b].name
    {
      var i, j := PositionSplit(spec, |spec.entities|, a);
      var k, l := PositionSplit(spec, |spec.entities|, b);
      PodAtPosition(spec, i, j);
      PodAtPosition(spec, k, l);
      OtherPodOtherName(spec, i, j, k, l);
    }
  }

  lemma PodAtPosition(spec: Spec, i: int, j: int)
    requires At(spec, i, j)
    ensures PodCount(spec.entities[..i]) + j < |DesiredPods(spec)|
    ensures DesiredPods(spec)[PodCount(spec.entities[..i]) + j] == PodAt(spec, i, j)
  {
    PodPositions(spec, |spec.entities|);
    assert spec.entities[..|spec.entities|] == spec.entities;
  }

  lemma OtherPodOtherName(spec: Spec, i: int, j: int, k: int, l: int)
    requires WellFormed(spec) && At(spec, i, j) && At(spec, k, l)
    requires PodCount(spec.entities[..i]) + j != PodCount(spec.entities[..k]) + l
    ensures PodAt(spec, i, j).name != PodAt(spec, k, l).name
  {
    hide PodAt;
  }

  // ---- What the lists ask for, field by field ----

  /** Each container of the pod that has this name has this image and these resources, and there
      is one. */
  ghost predicate HasContainer(p: Pod, name: string, image: string, resources: Resources)
  {
    && (exists c :: c in p.containers && c.name == name)
    && (forall c :: c in p.containers && c.name == name ==> c.image == image && c.resources == resources)
  }

  /** The pod is the one that entity `e` configures by `pc`. */
  ghost predicate Configured(p: Pod, e: StatefulEntity, pc: PodConfig)
  {
    && p.name == pc.name
    && p.labels == map["app" := "invoker", "type" := "statefulEntity", "statefulEntityName" := e.name]
    && p.configVolume == e.name + "-configmap"
    && HasContainer(p, "executor-pod", e.executorImage, pc.resources)
    && HasContainer(p, "io-sidecar", e.ioImage, pc.resources)
    && HasContainer(p, "state-sidecar", e.stateImage, Resources(None, None))
    && (forall c :: c in p.containers ==> c.name in {"executor-pod", "io-sidecar", "state-sidecar"})
    && |p.containers| == 3
  }

  lemma ContainerNamesDiffer()
    ensures "executor-pod" != "io-sidecar" && "io-sidecar" != "state-sidecar" && "executor-pod" != "state-sidecar"
  {
    assert "executor-pod"[0] == 'e' && "io-sidecar"[0] == 'i' && "state-sidecar"[0] == 's';
  }

  lemma DesiredPodConfigured(e: StatefulEntity, pc: PodConfig)
    ensures Configured(DesiredPod(e, pc), e, pc)
  {
    ContainerNamesDiffer();
    var p := DesiredPod(e, pc);
    assert p.containers[0].name == "executor-pod" && p.containers[1].name == "io-sidecar" && p.containers[2].name == "state-sidecar";
    forall c | c in p.containers ensures c == p.containers[0] || c == p.containers[1] || c == p.containers[2] {}
  }

  /** Where the list holds pod `j` of entity `i`: after all the pods of the entities before. */
  function Position(spec: Spec, i: nat, j: nat): nat
    requires i <= |spec.entities|
  {
    PodCount(spec.entities[..i]) + j
  }

  /** The list of desired pods, entry by entry: it has one entry for each configured pod, in the
      order of the spec, and each is what its entity and its configuration say. */
  lemma DesiredPodsMeaning(spec: Spec)
    ensures |DesiredPods(spec)| == PodCount(spec.entities)
    ensures forall i, j :: At(spec, i, j) ==>
              Position(spec, i, j) < |DesiredPods(spec)|
              && Configured(DesiredPods(spec)[Position(spec, i, j)], spec.entities[i], spec.entities[i].pods[j])
    ensures forall p :: p in DesiredPods(spec) ==> ConfiguredSomewhere(p, spec)
  {
    hide Configured, DesiredPod, DesiredPods;
    PodPositions(spec, |spec.entities|);
    assert spec.entities[..|spec.entities|] == spec.entities;
    assert DesiredPods(spec) == PodsOfAll(spec.entities) by { ListOfAll(spec); }
    forall i, j | At(spec, i, j)
      ensures Position(spec, i, j) < |DesiredPods(spec)|
      ensures Configured(DesiredPods(spec)[Position(spec, i, j)], spec.entities[i], spec.entities[i].pods[j])
    {
      DesiredPodConfigured(spec.entities[i], spec.entities[i].pods[j]);
    }
    forall p | p in DesiredPods(spec) ensures ConfiguredSomewhere(p, spec) {
      var k :| 0 <= k < |DesiredPods(spec)| && DesiredPods(spec)[k] == p;
      var i, j := PositionSplit(spec, |spec.entities|, k);
      assert k == Position(spec, i, j);
    }
  }

  /** Some entity of the spec configures this pod. */
  ghost predicate ConfiguredSomewhere(p: Pod, spec: Spec)
  {
    exists i, j :: At(spec, i, j) && Configured(p, spec.entities[i], spec.entities[i].pods[j])
  }

  lemma ListOfAll(spec: Spec)
    ensures DesiredPods(spec) == PodsOfAll(spec.entities)
  {
  }

  function PartitionKeys(pods: seq<PodConfig>): set<string> { set pc | pc in pods :: pc.name + ".partitions" }

  lemma {:induction false} EntityDataKeys(e: StatefulEntity, pods: seq<PodConfig>)
    ensures EntityData(e, pods).Keys == {"main"} + PartitionKeys(pods)
  {
    if pods != [] {
      var front, last := pods[..|pods| - 1], pods[|pods| - 1];
      EntityDataKeys(e, front);
      assert pods == front + [last];
      assert PartitionKeys(pods) == PartitionKeys(front) + {last.name + ".partitions"};
    }
  }

  /** The list of desired ConfigMaps, entry by entry. */
  lemma DesiredConfigMapsMeaning(spec: Spec)
    requires WellFormed(spec)
    ensures |DesiredConfigMaps(spec)| == |spec.entities|
    ensures forall i :: 0 <= i < |spec.entities| ==>
              var cm, e := DesiredConfigMaps(spec)[i], spec.entities[i];
              && cm.name == e.name + "-configmap"
              && cm.labels == map["app" := "invoker", "type" := "statefulEntity"]
              && cm.data.Keys == {"main"} + PartitionKeys(e.pods)
              && cm.data["main"] == "\nkafka.broker=" + e.ioAddress + "\ninput.topic=" + e.inputTopic
                                    + "\noutput.topic=" + e.outputTopic + "\n"
              && forall j :: 0 <= j < |e.pods| ==> cm.data[e.pods[j].name + ".partitions"] == Join(e.pods[j].partitions, ',')
  {
    forall i | 0 <= i < |spec.entities|
      ensures var cm, e := DesiredConfigMaps(spec)[i], spec.entities[i];
              && cm.name == e.name + "-configmap"
              && cm.labels == map["app" := "invoker", "type" := "statefulEntity"]
              && cm.data.Keys == {"main"} + PartitionKeys(e.pods)
              && cm.data["main"] == "\nkafka.broker=" + e.ioAddress + "\ninput.topic=" + e.inputTopic
                                    + "\noutput.topic=" + e.outputTopic + "\n"
              && forall j :: 0 <= j < |e.pods| ==> cm.data[e.pods[j].name + ".partitions"] == Join(e.pods[j].partitions, ',')
    {
      EntityDataMeaning(spec, i);
    }
  }

  lemma EntityDataMeaning(spec: Spec, i: nat)
    requires WellFormed(spec) && i < |spec.entities|
    ensures var e := spec.entities[i];
            var data := EntityData(e, e.pods);
            && data.Keys == {"main"} + PartitionKeys(e.pods)
            && data["main"] == "\nkafka.broker=" + e.ioAddress + "\ninput.topic=" + e.inputTopic
                               + "\noutput.topic=" + e.outputTopic + "\n"
            && forall j :: 0 <= j < |e.pods| ==> data[e.pods[j].name + ".partitions"] == Join(e.pods[j].partitions, ',')
  {
    var e := spec.entities[i];
    EntityDataKeys(e, e.pods);
    EntityDataMain(e, e.pods);
    MainTextSpelled(e.ioAddress, e.inputTopic, e.outputTopic);
    hide EntityData, MainText, WellFormed;
    forall j | 0 <= j < |e.pods| ensures EntityData(e, e.pods)[e.pods[j].name + ".partitions"] == Join(e.pods[j].partitions, ',') {
      LaterPodsDiffer(spec, i, j);
      EntityDataPartitions(e, e.pods, j);
      assert e.pods[j].name + ".partitions" == PartitionKey(e.pods[j].name);
    }
  }

  lemma LaterPodsDiffer(spec: Spec, i: nat, j: nat)
    requires WellFormed(spec) && At(spec, i, j)
    ensures forall k :: j < k < |spec.entities[i].pods| ==> spec.entities[i].pods[k].name != spec.entities[i].pods[j].name
  {
    var e := spec.entities[i];
    forall k | j < k < |e.pods| ensures e.pods[k].name != e.pods[j].name
    {
      assert At(spec, i, k) && PodAt(spec, i, k).name == e.pods[k].name && PodAt(spec, i, j).name == e.pods[j].name;
    }
  }

  lemma MainTextSpelled(broker: string, input: string, output: string)
    ensures MainText(broker, input, output)
         == "\nkafka.broker=" + broker + "\ninput.topic=" + input + "\noutput.topic=" + output + "\n"
  {
    var spelled := "\nkafka.broker=" + broker + "\ninput.topic=" + input + "\noutput.topic=" + output + "\n";
    var text := MainText(broker, input, output);
    assert "\nkafka.broker=" == "\n" + "kafka.broker=" && "\ninput.topic=" == "\n" + "input.topic=" && "\noutput.topic=" == "\n" + "output.topic=";
    assert text == spelled;
  }

  // ---- The configuration text can be read back ----

  function Strip(line: string, prefix: string): Option<string>
  {
    if prefix <= line then Some(line[|prefix|..]) else None
  }

  /** A line-by-line reader of the `main` entry. */
  function ParseMain(text: string): Option<(string, string, string)>
  {
    var lines := Split(text, '\n');
    if |lines| != 5 || lines[0] != "" || lines[4] != "" then None
    else match (Strip(lines[1], "kafka.broker="), Strip(lines[2], "input.topic="), Strip(lines[3], "output.topic="))
      case (Some(broker), Some(input), Some(output)) => Some((broker, input, output))
      case _ => None
  }

  lemma StripGives(line: string, prefix: string, rest: string)
    ensures Strip(line, prefix) == Some(rest) <==> line == prefix + rest
  {
    if prefix <= line {
      assert line == prefix + line[|prefix|..];
    }
  }

  lemma MainTextIsJoin(broker: string, input: string, output: string)
    ensures MainText(broker, input, output)
         == Join(["", "kafka.broker=" + broker, "input.topic=" + input, "output.topic=" + output, ""], '\n')
  {
    var b, i, o := "kafka.broker=" + broker, "input.topic=" + input, "output.topic=" + output;
    JoinCons(o, [""], '\n');
    JoinCons(i, [o, ""], '\n');
    JoinCons(b, [i, o, ""], '\n');
    JoinCons("", [b, i, o, ""], '\n');
    assert o + "\n" + "" == o + "\n";
    assert "" + "\n" == "\n";
  }

  /** The broker and the topics are recovered from the `main` entry exactly when none of them
      contains a line break. */
  lemma MainTextReadBack(broker: string, input: string, output: string)
    ensures ParseMain(MainText(broker, input, output)) == Some((broker, input, output))
        <==> '\n' !in broker && '\n' !in input && '\n' !in output
  {
    var parts := ["", "kafka.broker=" + broker, "input.topic=" + input, "output.topic=" + output, ""];
    MainTextIsJoin(broker, input, output);
    SplitUndoesJoin(parts, '\n');
    var lines := Split(MainText(broker, input, output), '\n');
    assert (forall i :: 0 <= i < |parts| ==> '\n' !in parts[i])
       <==> '\n' !in parts[1] && '\n' !in parts[2] && '\n' !in parts[3];
    assert '\n' in parts[1] <==> '\n' in broker;
    assert '\n' in parts[2] <==> '\n' in input;
    assert '\n' in parts[3] <==> '\n' in output;
    if |lines| == 5 {
      StripGives(lines[1], "kafka.broker=", broker);
      StripGives(lines[2], "input.topic=", input);
      StripGives(lines[3], "output.topic=", output);
    }
  }

  /** The partitions written for a pod split back into the splits of its entries, and into the
      entries themselves exactly when none of them contains a comma. */
  lemma PartitionsReadBack(partitions: seq<string>)
    requires partitions != []
    ensures Split(Join(partitions, ','), ',') == SplitAll(partitions, ',')
    ensures Split(Join(partitions, ','), ',') == partitions <==> forall i :: 0 <= i < |partitions| ==> ',' !in partitions[i]
  {
    SplitOfJoin(partitions, ',');
    SplitUndoesJoin(partitions, ',');
  }
}
