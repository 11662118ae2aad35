/** What a successful round of actions leaves behind, whatever the environment did meanwhile
    and in whatever order Go walked its maps. */
module Actions {
  import opened Types
  import opened Restart
  import opened Api
  import opened Observer
  import opened Updater
  import opened Reconciler
  import opened Protocol

  function ConfigMapTableOf(list: seq<ConfigMap>): ConfigMapTable
  {
    if list == [] then map[] else map[list[0].name := list[0]] + ConfigMapTableOf(list[1..])
  }

  function PodTableOf(list: seq<Pod>): PodTable
  {
    if list == [] then map[] else map[list[0].name := list[0]] + PodTableOf(list[1..])
  }

  lemma {:induction false} ConfigMapTableKeys(list: seq<ConfigMap>)
    ensures ConfigMapTableOf(list).Keys == ConfigMapNames(list)
  {
    if list != [] {
      ConfigMapTableKeys(list[1..]);
      assert list == [list[0]] + list[1..];
      assert ConfigMapNames(list) == {list[0].name} + ConfigMapNames(list[1..]);
    }
  }

  lemma {:induction false} PodTableKeys(list: seq<Pod>)
    ensures PodTableOf(list).Keys == PodNames(list)
  {
    if list != [] {
      PodTableKeys(list[1..]);
      assert list == [list[0]] + list[1..];
      assert PodNames(list) == {list[0].name} + PodNames(list[1..]);
    }
  }

  ghost predicate ConfigMapsDistinct(list: seq<ConfigMap>)
  {
    forall i, j :: 0 <= i < j < |list| ==> list[i].name != list[j].name
  }

  ghost predicate PodsDistinct(list: seq<Pod>)
  {
    forall i, j :: 0 <= i < j < |list| ==> list[i].name != list[j].name
  }

  lemma {:induction false} ConfigMapTableHolds(list: seq<ConfigMap>, cm: ConfigMap)
    requires ConfigMapsDistinct(list) && cm in list
    ensures cm.name in ConfigMapTableOf(list) && ConfigMapTableOf(list)[cm.name] == cm
  {
    ConfigMapTableKeys(list[1..]);
    if cm == list[0] {
      assert cm.name !in ConfigMapNames(list[1..]);
    } else {
      ConfigMapTableHolds(list[1..], cm);
    }
  }

  lemma {:induction false} PodTableHolds(list: seq<Pod>, p: Pod)
    requires PodsDistinct(list) && p in list
    ensures p.name in PodTableOf(list) && PodTableOf(list)[p.name] == p
  {
    PodTableKeys(list[1..]);
    if p == list[0] {
      assert p.name !in PodNames(list[1..]);
    } else {
      PodTableHolds(list[1..], p);
    }
  }

  lemma {:induction false} TablesComeFromLists(cms: seq<ConfigMap>, pods: seq<Pod>)
    ensures forall n :: n in ConfigMapTableOf(cms) ==> ConfigMapTableOf(cms)[n] in cms
    ensures forall n :: n in PodTableOf(pods) ==> PodTableOf(pods)[n] in pods
    decreases |cms| + |pods|
  {
    if cms != [] { TablesComeFromLists(cms[1..], []); }
    if pods != [] { TablesComeFromLists([], pods[1..]); }
  }

  // ---- ConfigMaps: an exact result ----

  lemma PutConfigMap(w: World, op: Op, cm: ConfigMap)
    requires op == CreateConfigMap(cm) || op == UpdateConfigMap(cm)
    requires ReplyTo(w, op).Done?
    ensures Call(w, op).store.configMaps == w.store.configMaps[cm.name := cm]
  {
    var before := CallShape(w, op);
  }

  lemma OverlayOne(cms: ConfigMapTable, cm: ConfigMap, rest: ConfigMapTable, kept: set<string>)
    ensures cms[cm.name := cm] + rest == cms + (map[cm.name := cm] + rest)
    ensures cm.name !in kept ==> cms[cm.name := cm] + (rest - kept) == cms + ((map[cm.name := cm] + rest) - kept)
    ensures cm.name in kept ==> rest - kept == (map[cm.name := cm] + rest) - kept
  {
    OverlayPut(cms, cm, rest);
    OverlayPut(cms, cm, rest - kept);
    if cm.name !in kept {
      assert (map[cm.name := cm] + rest) - kept == map[cm.name := cm] + (rest - kept);
    }
  }

  lemma OverlayPut(cms: ConfigMapTable, cm: ConfigMap, rest: ConfigMapTable)
    ensures cms[cm.name := cm] + rest == cms + (map[cm.name := cm] + rest)
  {
  }

  lemma {:induction false} EnsuredConfigMaps(w: World, s: Snapshot, list: seq<ConfigMap>)
    requires EnsureConfigMaps(w, s, list).ok
    ensures EnsureConfigMaps(w, s, list).world.store.configMaps
         == w.store.configMaps + (if Gate(s) then ConfigMapTableOf(list) else ConfigMapTableOf(list) - s.configMaps.Keys)
    decreases |list|
  {
    if list != [] {
      var cm := list[0];
      var step := ReconcileConfigMap(w, s, Some(cm), ObservedConfigMap(s, cm.name));
      if cm.name !in s.configMaps {
        PutConfigMap(w, CreateConfigMap(cm), cm);
      } else if Gate(s) {
        PutConfigMap(w, UpdateConfigMap(cm), cm);
      }
      EnsuredConfigMaps(step.world, s, list[1..]);
      OverlayOne(w.store.configMaps, cm, ConfigMapTableOf(list[1..]), s.configMaps.Keys);
    }
  }

  lemma {:induction false} DroppedConfigMaps(w: World, s: Snapshot, wanted: set<string>, order: seq<string>)
    requires DropConfigMaps(w, s, wanted, order).ok
    ensures DropConfigMaps(w, s, wanted, order).world.store.configMaps
         == w.store.configMaps - (set n | n in order && n in s.configMaps && n !in wanted)
    decreases |order|
  {
    if order != [] {
      var n := order[0];
      var step := if n in wanted then Progress(w, true) else ReconcileConfigMap(w, s, None, ObservedConfigMap(s, n));
      if n !in wanted && n in s.configMaps {
        var before := CallShape(w, DeleteConfigMap(n));
        assert step.world.store.configMaps == w.store.configMaps - {n};
      }
      hide Call, ReplyTo, Landed, Happen, Apply, PodsAge, CrDrifts;
      DroppedConfigMaps(step.world, s, wanted, order[1..]);
      DropSplits(w.store.configMaps, s, wanted, order);
    }
  }

  lemma DropSplits(cms: ConfigMapTable, s: Snapshot, wanted: set<string>, order: seq<string>)
    requires order != []
    ensures var rest := set n | n in order[1..] && n in s.configMaps && n !in wanted;
            cms - (set n | n in order && n in s.configMaps && n !in wanted)
              == if order[0] in s.configMaps && order[0] !in wanted then cms - {order[0]} - rest else cms - rest
  {
    var n, rest := order[0], set n | n in order[1..] && n in s.configMaps && n !in wanted;
    var all := set n | n in order && n in s.configMaps && n !in wanted;
    assert order == [n] + order[1..];
    if n in s.configMaps && n !in wanted {
      assert all == {n} + rest;
    } else {
      assert all == rest;
    }
  }

  /** The closed form of the ConfigMap half of a round. */
  function SettledConfigMaps(cms: ConfigMapTable, s: Snapshot, list: seq<ConfigMap>): ConfigMapTable
  {
    var desired := ConfigMapTableOf(list);
    (cms + (if Gate(s) then desired else desired - s.configMaps.Keys)) - (s.configMaps.Keys - desired.Keys)
  }

  /** A round that gets through its ConfigMaps ends with exactly the closed form, in every
      iteration order, whatever the environment did and whichever later calls fail. */
  lemma ConfigMapsSettle(cx: Context, w: World, s: Snapshot, c: Choices)
    requires Enumerates(c.configMaps, s.configMaps.Keys)
    requires ApplyConfigMaps(w, s, Desired(s.cr.spec).configMaps, c.configMaps).ok
    ensures ApplyChildren(w, s, Desired(s.cr.spec), c).world.store.configMaps
         == SettledConfigMaps(w.store.configMaps, s, Desired(s.cr.spec).configMaps)
  {
    var list := Desired(s.cr.spec).configMaps;
    var ensured := EnsureConfigMaps(w, s, list);
    var dropped := DropConfigMaps(ensured.world, s, ConfigMapNames(list), c.configMaps);
    hide ApplyPods;
    ConfigMapTableKeys(list);
    EnsuredConfigMaps(w, s, list);
    DroppedConfigMaps(ensured.world, s, ConfigMapNames(list), c.configMaps);
    assert (set n | n in c.configMaps && n in s.configMaps && n !in ConfigMapNames(list))
        == s.configMaps.Keys - ConfigMapTableOf(list).Keys;
    var ops := PodCalls(cx, dropped.world, s, c);
    CallsDrift(dropped.world, ops);
  }

  // ---- Pods: what can be said while the environment moves ----

  /** Desired pods stay in the entity in which a pod of their name was observed. */
  ghost predicate AtHome(s: Snapshot, list: seq<Pod>)
  {
    forall p :: p in list && p.name in s.pods ==>
      s.pods[p.name].labels == p.labels && s.pods[p.name].configVolume == p.configVolume
  }

  /** Every stored pod is one that was observed, or was stored from the desired template since. */
  ghost predicate Accounted(s: Snapshot, desired: PodTable, pods: PodTable)
  {
    forall n :: n in pods ==>
      if n in s.pods then Ages(s.pods[n], pods[n])
      else n in desired && Ages(Stored(desired[n]), pods[n])
  }

  ghost predicate Doomed(names: set<string>, pods: PodTable)
  {
    forall n :: n in names && n in pods ==> pods[n].terminating
  }

  lemma AgingKeeps(s: Snapshot, desired: PodTable, doomed: set<string>, pods: PodTable, later: PodTable)
    requires Accounted(s, desired, pods) && Doomed(doomed, pods) && PodsAge(pods, later)
    ensures Accounted(s, desired, later) && Doomed(doomed, later)
  {
    forall n | n in later ensures Ages(pods[n], later[n]) {}
  }

  lemma CreateKeeps(w: World, s: Snapshot, desired: PodTable, doomed: set<string>, p: Pod)
    requires Accounted(s, desired, w.store.pods) && Doomed(doomed, w.store.pods) && doomed <= s.pods.Keys
    requires p.name !in s.pods && p.name in desired && desired[p.name] == p
    ensures Accounted(s, desired, Call(w, CreatePod(p)).store.pods) && Doomed(doomed, Call(w, CreatePod(p)).store.pods)
  {
    var before := CallShape(w, CreatePod(p));
    AgingKeeps(s, desired, doomed, w.store.pods, before.pods);
  }

  lemma DeleteKeeps(w: World, s: Snapshot, desired: PodTable, doomed: set<string>, n: string)
    requires Accounted(s, desired, w.store.pods) && Doomed(doomed, w.store.pods)
    ensures var after := Call(w, DeletePod(n)).store.pods;
            && Accounted(s, desired, after) && Doomed(doomed, after)
            && (Deleted(ReplyTo(w, DeletePod(n))) ==> Doomed(doomed + {n}, after))
  {
    var before := CallShape(w, DeletePod(n));
    AgingKeeps(s, desired, doomed, w.store.pods, before.pods);
    AgingKeeps(s, desired, doomed, before.pods, Terminate(before.pods, n));
  }

  /** The observed pods that the restart test condemns. */
  function Condemned(s: Snapshot, list: seq<Pod>): set<string>
  {
    set p | p in list && Gate(s) && p.name in s.pods && NeedToRestart(p, s.pods[p.name]) :: p.name
  }

  lemma EnsuredOnePod(w: World, s: Snapshot, p: Pod, desired: PodTable, doomed: set<string>)
    requires Accounted(s, desired, w.store.pods) && Doomed(doomed, w.store.pods) && doomed <= s.pods.Keys
    requires p.name in s.pods ==> s.pods[p.name].labels == p.labels
    requires p.name in desired && desired[p.name] == p
    ensures var step := ReconcilePod(w, s, Some(p), Lookup(s.pods, EntityOf(p), p.name));
            && Accounted(s, desired, step.world.store.pods)
            && Doomed(doomed, step.world.store.pods)
            && (step.ok && Gate(s) && p.name in s.pods && NeedToRestart(p, s.pods[p.name]) ==>
                  Doomed(doomed + {p.name}, step.world.store.pods))
  {
    hide Call, ReplyTo, NeedToRestart, Accounted, Doomed;
    var found := Lookup(s.pods, EntityOf(p), p.name);
    assert found.Some? <==> p.name in s.pods;
    if found.None? {
      CreateKeeps(w, s, desired, doomed, p);
    } else if Gate(s) && NeedToRestart(p, found.value) {
      DeleteKeeps(w, s, desired, doomed, p.name);
    }
  }

  lemma {:induction false} EnsuredPods(w: World, s: Snapshot, list: seq<Pod>, desired: PodTable, doomed: set<string>)
    requires Accounted(s, desired, w.store.pods) && Doomed(doomed, w.store.pods) && doomed <= s.pods.Keys
    requires AtHome(s, list) && forall p :: p in list ==> p.name in desired && desired[p.name] == p
    ensures var r := EnsurePods(w, s, list);
            && Accounted(s, desired, r.world.store.pods)
            && Doomed(doomed, r.world.store.pods)
            && (r.ok ==> Doomed(doomed + Condemned(s, list), r.world.store.pods))
    decreases |list|
  {
    hide Accounted, Doomed, Condemned, ReconcilePod, NeedToRestart, Lookup, EntityOf;
    if list == [] {
      NothingCondemnedYet(s, doomed);
    } else {
      var p := list[0];
      var step := ReconcilePod(w, s, Some(p), Lookup(s.pods, EntityOf(p), p.name));
      EnsuredOnePod(w, s, p, desired, doomed);
      if step.ok {
        CondemnedSplits(s, list);
        var doomed' := doomed + Condemned(s, list[..1]);
        assert doomed' == doomed || doomed' == doomed + {p.name};
        EnsuredPods(step.world, s, list[1..], desired, doomed');
        assert doomed + Condemned(s, list) == doomed' + Condemned(s, list[1..]);
        DoomedWithin(doomed, doomed', EnsurePods(step.world, s, list[1..]).world.store.pods);
      }
    }
  }

  lemma NothingCondemnedYet(s: Snapshot, doomed: set<string>)
    ensures doomed + Condemned(s, []) == doomed
  {
    assert Condemned(s, []) == {};
  }

  lemma DoomedWithin(few: set<string>, many: set<string>, pods: PodTable)
    requires Doomed(many, pods) && few <= many
    ensures Doomed(few, pods)
  {
  }

  lemma CondemnedSplits(s: Snapshot, list: seq<Pod>)
    requires list != []
    ensures Condemned(s, list) == Condemned(s, list[..1]) + Condemned(s, list[1..])
    ensures Condemned(s, list[..1]) == if Gate(s) && list[0].name in s.pods && NeedToRestart(list[0], s.pods[list[0].name])
                                       then {list[0].name} else {}
  {
    assert list == list[..1] + list[1..];
  }

  lemma {:induction false} DroppedPods(w: World, s: Snapshot, wanted: set<string>, order: seq<string>, desired: PodTable, doomed: set<string>)
    requires Accounted(s, desired, w.store.pods) && Doomed(doomed, w.store.pods) && doomed <= s.pods.Keys
    ensures var r := DropPods(w, s, wanted, order);
            && Accounted(s, desired, r.world.store.pods)
            && Doomed(doomed, r.world.store.pods)
            && (r.ok ==> Doomed(doomed + (set n | n in order && n in s.pods && n !in wanted), r.world.store.pods))
    decreases |order|
  {
    if order != [] {
      var n := order[0];
      var skip := n in wanted || n !in s.pods;
      var step := if skip then Progress(w, true) else ReconcilePod(w, s, None, Some(s.pods[n]));
      var doomed' := doomed;
      if !skip {
        DeleteKeeps(w, s, desired, doomed, n);
        if step.ok { doomed' := doomed + {n}; }
      }
      if step.ok {
        var rest := set m | m in order[1..] && m in s.pods && m !in wanted;
        assert doomed + (set m | m in order && m in s.pods && m !in wanted) == doomed' + rest;
        DroppedPods(step.world, s, wanted, order[1..], desired, doomed');
      }
    }
  }

  /** After a round that gets through its pods, every live pod is desired, and with the gate open
      it fits its template. */
  lemma PodsSettle(w: World, s: Snapshot, list: seq<Pod>, order: seq<string>)
    requires PodsDistinct(list) && AtHome(s, list)
    requires forall n :: n in order <==> n in s.pods
    requires PodsAge(s.pods, w.store.pods)
    requires ApplyPods(w, s, list, order).ok
    ensures forall n :: n in ApplyPods(w, s, list, order).world.store.pods ==>
              var p := ApplyPods(w, s, list, order).world.store.pods[n];
              !p.terminating ==> n in PodTableOf(list)
                                 && (n !in s.pods || Gate(s) ==> Fits(PodTableOf(list)[n], p))
                                 && (n in s.pods ==> Ages(s.pods[n], p))
  {
    var desired := PodTableOf(list);
    forall p | p in list ensures p.name in desired && desired[p.name] == p { PodTableHolds(list, p); }
    TablesComeFromLists([], list);
    PodTableKeys(list);
    var ensured := EnsurePods(w, s, list);
    EnsuredPods(w, s, list, desired, {});
    DroppedPods(ensured.world, s, PodNames(list), order, desired, Condemned(s, list));
    var pods := ApplyPods(w, s, list, order).world.store.pods;
    forall n | n in pods && !pods[n].terminating
      ensures n in desired
      ensures n in s.pods ==> Ages(s.pods[n], pods[n])
      ensures n !in s.pods || Gate(s) ==> Fits(desired[n], pods[n])
    {
      if n in s.pods {
        assert n in order;
        assert n !in Condemned(s, list);
      }
    }
  }
}
