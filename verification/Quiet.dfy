/** Passes that nothing disturbs: no failures and no moves of the environment between calls.
    Such a pass is a pure function of the store, the same for every iteration order. */
module Quiet {
  import opened Types
  import opened Restart
  import opened Api
  import opened Observer
  import opened Updater
  import opened Reconciler
  import opened Controller
  import opened Actions
  import opened Suspects
  import Converter

  lemma QuietCall(w: World, op: Op)
    requires w.script == []
    ensures Call(w, op).script == []
    ensures Call(w, op).store == Apply(w.store, op).0 && ReplyTo(w, op) == Apply(w.store, op).1
    ensures Landed(w, op) == Apply(w.store, op).1.Done?
  {
    assert Happen(w.store, []) == w.store;
  }

  // ---- Observation ----

  function SnapshotOf(cx: Context, st: Store): Snapshot
    requires st.cr.Some?
  {
    Snapshot(Named(cx, st.cr.value), st.secret, SelectConfigMaps(st.configMaps, CHILD_SELECTOR),
             SelectPods(st.pods, CHILD_SELECTOR), SelectRevisions(st.revisions, RevisionSelector(cx)))
  }

  lemma QuietLists(w: World, selector: Labels)
    requires w.script == []
    ensures ReplyTo(w, ListConfigMaps(selector)) == TheConfigMaps(SelectConfigMaps(w.store.configMaps, selector))
    ensures ReplyTo(w, ListPods(selector)) == ThePods(SelectPods(w.store.pods, selector))
    ensures ReplyTo(w, ListRevisions(selector)) == TheRevisions(SelectRevisions(w.store.revisions, selector))
    ensures Call(w, ListConfigMaps(selector)).store == w.store && Call(w, ListConfigMaps(selector)).script == []
    ensures Call(w, ListPods(selector)).store == w.store && Call(w, ListPods(selector)).script == []
    ensures Call(w, ListRevisions(selector)).store == w.store && Call(w, ListRevisions(selector)).script == []
  {
    QuietCall(w, ListConfigMaps(selector));
    QuietCall(w, ListPods(selector));
    QuietCall(w, ListRevisions(selector));
  }

  lemma QuietPodList(cx: Context, w: World, s0: Snapshot)
    requires w.script == []
    ensures ObservePods(cx, w, s0).0.store == w.store && ObservePods(cx, w, s0).0.script == []
    ensures ObservePods(cx, w, s0).1
         == Seen(s0.(pods := SelectPods(w.store.pods, CHILD_SELECTOR),
                     revisions := SelectRevisions(w.store.revisions, RevisionSelector(cx))))
  {
    hide Call, ReplyTo, Landed, SelectConfigMaps, SelectPods, SelectRevisions, RevisionSelector;
    var w1 := Call(w, ListPods(CHILD_SELECTOR));
    var s1 := s0.(pods := SelectPods(w.store.pods, CHILD_SELECTOR));
    QuietLists(w, CHILD_SELECTOR);
    assert ObservePods(cx, w, s0) == ObserveRevisions(cx, w1, s1);
    QuietLists(w1, RevisionSelector(cx));
  }

  lemma QuietChildren(cx: Context, w: World, s0: Snapshot)
    requires w.script == []
    ensures ObserveConfigMaps(cx, w, s0).0.store == w.store && ObserveConfigMaps(cx, w, s0).0.script == []
    ensures ObserveConfigMaps(cx, w, s0).1
         == Seen(s0.(configMaps := SelectConfigMaps(w.store.configMaps, CHILD_SELECTOR),
                     pods := SelectPods(w.store.pods, CHILD_SELECTOR),
                     revisions := SelectRevisions(w.store.revisions, RevisionSelector(cx))))
  {
    hide Call, ReplyTo, Landed, SelectConfigMaps, SelectPods, SelectRevisions, RevisionSelector, ObservePods;
    QuietLists(w, CHILD_SELECTOR);
    QuietPodList(cx, Call(w, ListConfigMaps(CHILD_SELECTOR)), s0.(configMaps := SelectConfigMaps(w.store.configMaps, CHILD_SELECTOR)));
  }

  lemma QuietObserve(cx: Context, w: World)
    requires w.script == [] && w.store.cr.Some?
    ensures ObserveAll(cx, w).0.store == w.store && ObserveAll(cx, w).0.script == []
    ensures ObserveAll(cx, w).1 == Seen(SnapshotOf(cx, w.store))
  {
    hide Call, ReplyTo, ObserveConfigMaps, Landed;
    var w1 := Call(w, GetCr);
    QuietCall(w, GetCr);
    QuietCall(w1, GetSecret);
    QuietChildren(cx, Call(w1, GetSecret), Snapshot(Named(cx, w.store.cr.value), w.store.secret, map[], map[], map[]));
  }

  /** What a snapshot holds, spelled out: the ConfigMaps and the pods with the type label, the
      revisions with the listing label set to the resource's name, and the resource with the name
      of its spec's revision filled in. */
  lemma SnapshotMeaning(cx: Context, st: Store)
    requires st.cr.Some?
    ensures var s := SnapshotOf(cx, st);
            && s.secret == st.secret
            && (forall n :: n in s.configMaps <==>
                  n in st.configMaps && "type" in st.configMaps[n].labels && st.configMaps[n].labels["type"] == "statefulEntity")
            && (forall n :: n in s.configMaps ==> s.configMaps[n] == st.configMaps[n])
            && (forall n :: n in s.pods <==>
                  n in st.pods && "type" in st.pods[n].labels && st.pods[n].labels["type"] == "statefulEntity")
            && (forall n :: n in s.pods ==> s.pods[n] == st.pods[n])
            && (forall n :: n in s.revisions <==>
                  n in st.revisions && "invoker.io/invokerDeployment" in st.revisions[n].labels
                  && st.revisions[n].labels["invoker.io/invokerDeployment"] == cx.name)
            && (forall n :: n in s.revisions ==> s.revisions[n] == st.revisions[n])
            && s.cr == st.cr.value.(status := st.cr.value.status.(nextRevision :=
                 cx.name + "-rev-" + cx.digest(cx.marshal(st.cr.value.spec))))
  {
    OneLabel("type", "statefulEntity");
    OneLabel("invoker.io/invokerDeployment", cx.name);
    assert CHILD_SELECTOR == map["type" := "statefulEntity"];
    assert RevisionSelector(cx) == map["invoker.io/invokerDeployment" := cx.name];
    hide Selects, CHILD_SELECTOR, RevisionSelector;
  }

  lemma OneLabel(key: string, value: string)
    ensures forall labels :: Selects(map[key := value], labels) <==> key in labels && labels[key] == value
  {
    forall labels: Labels ensures Selects(map[key := value], labels) <==> key in labels && labels[key] == value {
      assert key in map[key := value];
    }
  }

  // ---- ConfigMaps ----

  lemma {:induction false} QuietEnsureConfigMaps(w: World, s: Snapshot, list: seq<ConfigMap>)
    requires w.script == [] && ConfigMapsDistinct(list)
    requires forall cm :: cm in list ==> (cm.name in s.configMaps <==> cm.name in w.store.configMaps)
    ensures var r := EnsureConfigMaps(w, s, list);
            r.ok && r.world.script == [] && r.world.store == w.store.(configMaps := r.world.store.configMaps)
    decreases |list|
  {
    hide Call, ReplyTo, Landed;
    if list != [] {
      var cm := list[0];
      var step := ReconcileConfigMap(w, s, Some(cm), ObservedConfigMap(s, cm.name));
      QuietCall(w, CreateConfigMap(cm));
      QuietCall(w, UpdateConfigMap(cm));
      assert step.ok && step.world.script == [] && step.world.store == w.store.(configMaps := step.world.store.configMaps);
      forall d | d in list[1..] ensures d.name in step.world.store.configMaps <==> d.name in w.store.configMaps {
        var k :| 0 <= k < |list[1..]| && list[1..][k] == d;
        assert list[k + 1].name != cm.name;
      }
      QuietEnsureConfigMaps(step.world, s, list[1..]);
    }
  }

  lemma {:induction false} QuietDropConfigMaps(w: World, s: Snapshot, wanted: set<string>, order: seq<string>)
    requires w.script == []
    ensures var r := DropConfigMaps(w, s, wanted, order);
            r.ok && r.world.script == [] && r.world.store == w.store.(configMaps := r.world.store.configMaps)
    decreases |order|
  {
    hide Call, ReplyTo, Landed;
    if order != [] {
      var n := order[0];
      QuietCall(w, DeleteConfigMap(n));
      var step := if n in wanted then Progress(w, true) else ReconcileConfigMap(w, s, None, ObservedConfigMap(s, n));
      QuietDropConfigMaps(step.world, s, wanted, order[1..]);
    }
  }

  // ---- Pods ----

  function TerminateAll(pods: PodTable, names: set<string>): PodTable
  {
    map n | n in pods :: if n in names then pods[n].(terminating := true) else pods[n]
  }

  /** Fresh pods for the desired names that were not observed. */
  function Created(s: Snapshot, list: seq<Pod>): PodTable
  {
    FreshPods(s, PodTableOf(list))
  }

  /** The pods after the first half of a round: condemned ones terminating, missing ones stored. */
  function Ensured(pods: PodTable, s: Snapshot, list: seq<Pod>): PodTable
  {
    TerminateAll(pods, Condemned(s, list)) + Created(s, list)
  }

  lemma TerminateOne(pods: PodTable, n: string, names: set<string>)
    ensures TerminateAll(Terminate(pods, n), names) == TerminateAll(pods, names + {n})
  {
  }

  lemma CreatedSplits(s: Snapshot, list: seq<Pod>)
    requires list != [] && PodsDistinct(list)
    ensures list[0].name in s.pods ==> Created(s, list) == Created(s, list[1..])
    ensures list[0].name !in s.pods ==>
              Created(s, list) == Created(s, list[1..])[list[0].name := Stored(list[0])] && list[0].name !in Created(s, list[1..])
  {
    PodTableKeys(list[1..]);
    assert list[0].name !in PodNames(list[1..]);
    CreatedFrom(s, list[0], PodTableOf(list), PodTableOf(list[1..]));
  }

  function FreshPods(s: Snapshot, t: PodTable): PodTable { map n | n in t && n !in s.pods :: Stored(t[n]) }

  lemma CreatedFrom(s: Snapshot, head: Pod, all: PodTable, rest: PodTable)
    requires head.name !in rest && all == map[head.name := head] + rest
    ensures head.name in s.pods ==> FreshPods(s, all) == FreshPods(s, rest)
    ensures head.name !in s.pods ==> FreshPods(s, all) == FreshPods(s, rest)[head.name := Stored(head)]
  {
    hide Stored;
    var left, right := FreshPods(s, all), if head.name in s.pods then FreshPods(s, rest) else FreshPods(s, rest)[head.name := Stored(head)];
    forall n ensures n in left <==> n in right {
      assert n in all <==> n == head.name || n in rest;
    }
    forall n | n in left ensures left[n] == right[n] {
      assert n != head.name ==> all[n] == rest[n];
    }
  }

  lemma CreateThenRest(pods: PodTable, p: Pod, condemned: set<string>, created: PodTable)
    requires p.name !in condemned && p.name !in created
    ensures TerminateAll(pods[p.name := Stored(p)], condemned) + created == TerminateAll(pods, condemned) + created[p.name := Stored(p)]
  {
    PutThenMerge(TerminateAll(pods, condemned), created, Stored(p));
    TerminateAfterPut(pods, Stored(p), condemned);
    hide Stored, TerminateAll;
  }

  lemma TerminateAfterPut(pods: PodTable, p: Pod, condemned: set<string>)
    requires p.name !in condemned
    ensures TerminateAll(pods[p.name := p], condemned) == TerminateAll(pods, condemned)[p.name := p]
  {
    var left, right := TerminateAll(pods[p.name := p], condemned), TerminateAll(pods, condemned)[p.name := p];
    forall n ensures n in left <==> n in right {}
    forall n | n in left ensures left[n] == right[n] {
      if n != p.name { assert pods[p.name := p][n] == pods[n]; }
    }
  }

  lemma PutThenMerge(pods: PodTable, more: PodTable, p: Pod)
    requires p.name !in more
    ensures pods[p.name := p] + more == pods + more[p.name := p]
  {
  }

  lemma {:induction false} QuietEnsurePods(w: World, s: Snapshot, list: seq<Pod>)
    requires w.script == [] && PodsDistinct(list) && AtHome(s, list)
    requires forall p :: p in list ==> (p.name in s.pods <==> p.name in w.store.pods)
    ensures var r := EnsurePods(w, s, list);
            && r.ok && r.world.script == []
            && r.world.store == w.store.(pods := Ensured(w.store.pods, s, list))
    decreases |list|
  {
    hide Call, ReplyTo, NeedToRestart, Created, Condemned, Landed, AtHome, Ensured;
    if list == [] {
      NothingToEnsure(w, s);
    } else {
      var p := list[0];
      var step := ReconcilePod(w, s, Some(p), Lookup(s.pods, EntityOf(p), p.name));
      HomeLookup(s, list);
      QuietCall(w, CreatePod(p));
      QuietCall(w, DeletePod(p.name));
      CondemnedSplits(s, list);
      CreatedSplits(s, list);
      RestNames(list, step.world.store.pods, w.store.pods, p.name);
      RestAtHome(s, list);
      QuietEnsurePods(step.world, s, list[1..]);
      EnsureStepAlgebra(w.store.pods, step.world.store.pods, s, list);
    }
  }

  lemma NothingToEnsure(w: World, s: Snapshot)
    ensures Ensured(w.store.pods, s, []) == w.store.pods
  {
    assert Condemned(s, []) == {} && Created(s, []) == map[];
  }

  lemma HomeLookup(s: Snapshot, list: seq<Pod>)
    requires list != [] && AtHome(s, list)
    ensures Lookup(s.pods, EntityOf(list[0]), list[0].name)
         == if list[0].name in s.pods then Some(s.pods[list[0].name]) else None
  {
  }

  lemma RestAtHome(s: Snapshot, list: seq<Pod>)
    requires list != [] && AtHome(s, list)
    ensures AtHome(s, list[1..])
  {
  }

  lemma RestNames(list: seq<Pod>, now: PodTable, before: PodTable, n: string)
    requires list != [] && PodsDistinct(list) && n == list[0].name
    requires forall m :: m != n ==> (m in now <==> m in before)
    ensures PodsDistinct(list[1..])
    ensures forall p :: p in list[1..] ==> p in list && (p.name in now <==> p.name in before)
  {
    forall p | p in list[1..] ensures p.name != n {
      var k :| 0 <= k < |list[1..]| && list[1..][k] == p;
      assert list[k + 1].name != list[0].name;
    }
  }

  /** One pod done, the rest to go: the two closed forms agree. */
  lemma EnsureStepAlgebra(before: PodTable, after: PodTable, s: Snapshot, list: seq<Pod>)
    requires list != [] && PodsDistinct(list)
    requires var p := list[0];
             after == if p.name !in s.pods then before[p.name := Stored(p)]
                      else if Gate(s) && NeedToRestart(p, s.pods[p.name]) then Terminate(before, p.name) else before
    ensures Ensured(after, s, list[1..]) == Ensured(before, s, list)
  {
    hide NeedToRestart, Created, Condemned;
    var p := list[0];
    CondemnedSplits(s, list);
    CreatedSplits(s, list);
    if p.name !in s.pods {
      CondemnedObserved(s, list[1..]);
      CreateThenRest(before, p, Condemned(s, list[1..]), Created(s, list[1..]));
      assert Condemned(s, list) == Condemned(s, list[1..]);
    } else if Gate(s) && NeedToRestart(p, s.pods[p.name]) {
      TerminateOne(before, p.name, Condemned(s, list[1..]));
      assert Condemned(s, list) == Condemned(s, list[1..]) + {p.name};
    } else {
      assert Condemned(s, list) == Condemned(s, list[1..]);
    }
  }

  lemma CondemnedObserved(s: Snapshot, list: seq<Pod>)
    ensures Condemned(s, list) <= s.pods.Keys
  {
  }

  lemma {:induction false} QuietDropPods(w: World, s: Snapshot, wanted: set<string>, order: seq<string>)
    requires w.script == []
    ensures var r := DropPods(w, s, wanted, order);
            && r.ok && r.world.script == []
            && r.world.store == w.store.(pods := TerminateAll(w.store.pods, set n | n in order && n in s.pods && n !in wanted))
    decreases |order|
  {
    hide Call, ReplyTo, Landed;
    if order == [] {
      assert TerminateAll(w.store.pods, set n | n in order && n in s.pods && n !in wanted) == w.store.pods;
    } else {
      var n := order[0];
      QuietCall(w, DeletePod(n));
      var skip := n in wanted || n !in s.pods;
      var step := if skip then Progress(w, true) else ReconcilePod(w, s, None, Some(s.pods[n]));
      var rest := set m | m in order[1..] && m in s.pods && m !in wanted;
      QuietDropPods(step.world, s, wanted, order[1..]);
      var all := set m | m in order && m in s.pods && m !in wanted;
      if skip {
        assert all == rest;
      } else {
        TerminateOne(w.store.pods, n, rest);
        assert all == rest + {n};
      }
    }
  }

  // ---- A whole round ----

  /** The closed form of the pod half of a round: undesired and condemned pods start terminating,
      absent desired pods are stored from their templates, everything else stays. */
  function SettledPods(pods: PodTable, s: Snapshot, list: seq<Pod>): PodTable
  {
    TerminateAll(Ensured(pods, s, list), s.pods.Keys - PodNames(list))
  }

  /** The store after an undisturbed round.  Nothing in it depends on an iteration order. */
  function SettledStore(st: Store, s: Snapshot, d: DesiredState): Store
    requires st.cr.Some?
  {
    st.(configMaps := SettledConfigMaps(st.configMaps, s, d.configMaps),
        pods := SettledPods(st.pods, s, d.pods),
        cr := Some(Touched(st.cr.value).(status := s.cr.status.(currentRevision := s.cr.status.nextRevision))))
  }

  /** The snapshot is up to date and sees every child. */
  ghost predicate UpToDate(s: Snapshot, st: Store)
  {
    && st.cr.Some? && s.cr.resourceVersion == st.cr.value.resourceVersion
    && s.configMaps == st.configMaps && s.pods == st.pods
  }

  lemma QuietConfigMaps(cx: Context, w: World, s: Snapshot, c: Choices)
    requires w.script == [] && UpToDate(s, w.store) && Enumerates(c.configMaps, s.configMaps.Keys)
    requires Converter.WellFormed(s.cr.spec)
    ensures var r := ApplyConfigMaps(w, s, Desired(s.cr.spec).configMaps, c.configMaps);
            && r.ok && r.world.script == []
            && r.world.store == w.store.(configMaps := SettledConfigMaps(w.store.configMaps, s, Desired(s.cr.spec).configMaps))
  {
    hide EnsureConfigMaps, DropConfigMaps, Converter.WellFormed;
    var list := Desired(s.cr.spec).configMaps;
    DesiredListsDistinct(s.cr.spec);
    QuietEnsureConfigMaps(w, s, list);
    var ensured := EnsureConfigMaps(w, s, list);
    QuietDropConfigMaps(ensured.world, s, ConfigMapNames(list), c.configMaps);
    EnsuredConfigMaps(w, s, list);
    DroppedConfigMaps(ensured.world, s, ConfigMapNames(list), c.configMaps);
    ConfigMapTableKeys(list);
    assert (set n | n in c.configMaps && n in s.configMaps && n !in ConfigMapNames(list))
        == s.configMaps.Keys - ConfigMapTableOf(list).Keys;
  }

  lemma QuietPods(w: World, s: Snapshot, list: seq<Pod>, order: seq<string>)
    requires w.script == [] && s.pods == w.store.pods && PodsDistinct(list) && AtHome(s, list)
    requires forall n :: n in order <==> n in s.pods
    ensures var r := ApplyPods(w, s, list, order);
            r.ok && r.world.script == [] && r.world.store == w.store.(pods := SettledPods(w.store.pods, s, list))
  {
    hide EnsurePods, DropPods, Ensured, AtHome, PodNames;
    QuietEnsurePods(w, s, list);
    var ensured := EnsurePods(w, s, list);
    QuietDropPods(ensured.world, s, PodNames(list), order);
    assert (set n | n in order && n in s.pods && n !in PodNames(list)) == s.pods.Keys - PodNames(list);
  }

  /** An undisturbed round succeeds and ends in the closed form, for every order in which Go may
      walk the observed maps; behind a closed gate it neither updates nor restarts anything. */
  lemma RoundRefinesPureStep(cx: Context, w: World, s: Snapshot, c: Choices)
    requires w.script == [] && UpToDate(s, w.store) && Possible(c, s)
    requires Converter.WellFormed(s.cr.spec) && AtHome(s, Converter.DesiredPods(s.cr.spec))
    ensures var r := Reconcile(w, s, Desired(s.cr.spec), c);
            && r.reached && r.ok && r.landed
            && r.world.store == SettledStore(w.store, s, Desired(s.cr.spec))
            && r.world.script == []
    ensures !Gate(s) ==>
              && (forall n :: n in w.store.configMaps && n in ConfigMapTableOf(Desired(s.cr.spec).configMaps) ==>
                    n in SettledStore(w.store, s, Desired(s.cr.spec)).configMaps
                    && SettledStore(w.store, s, Desired(s.cr.spec)).configMaps[n] == w.store.configMaps[n])
              && (forall n :: n in w.store.pods && n in PodNames(Desired(s.cr.spec).pods) ==>
                    n in SettledStore(w.store, s, Desired(s.cr.spec)).pods
                    && SettledStore(w.store, s, Desired(s.cr.spec)).pods[n] == w.store.pods[n])
  {
    hide ApplyConfigMaps, ApplyPods, SettledConfigMaps, SettledPods, Call, Landed, ReplyTo, Converter.WellFormed;
    var d := Desired(s.cr.spec);
    DesiredListsDistinct(s.cr.spec);
    QuietConfigMaps(cx, w, s, c);
    var w1 := ApplyConfigMaps(w, s, d.configMaps, c.configMaps).world;
    QuietPods(w1, s, d.pods, c.pods);
    QuietCall(ApplyPods(w1, s, d.pods, c.pods).world, AdvanceOp(s));
    if !Gate(s) {
      ClosedGateKeeps(w.store, s, d);
    }
  }

  lemma ClosedGateKeeps(st: Store, s: Snapshot, d: DesiredState)
    requires UpToDate(s, st) && !Gate(s)
    ensures forall n :: n in st.configMaps && n in ConfigMapTableOf(d.configMaps) ==>
              n in SettledConfigMaps(st.configMaps, s, d.configMaps) && SettledConfigMaps(st.configMaps, s, d.configMaps)[n] == st.configMaps[n]
    ensures forall n :: n in st.pods && n in PodNames(d.pods) ==>
              n in SettledPods(st.pods, s, d.pods) && SettledPods(st.pods, s, d.pods)[n] == st.pods[n]
  {
    assert Condemned(s, d.pods) == {};
  }
}
