/** Acting on the difference between desired and observed children, and pruning revisions. */
module Reconciler {
  import opened Types
  import opened Restart
  import opened Api
  import opened Observer
  import opened Updater
  import Converter

  /** The revision gate: nothing that exists is updated or restarted while it is closed. */
  predicate Gate(s: Snapshot)
  {
    s.cr.status.currentRevision != s.cr.status.nextRevision
  }

  datatype DesiredState = DesiredState(configMaps: seq<ConfigMap>, pods: seq<Pod>)

  function Desired(spec: Spec): DesiredState
  {
    DesiredState(Converter.DesiredConfigMaps(spec), Converter.DesiredPods(spec))
  }

  /** Deletes ignore a missing object. */
  predicate Deleted(reply: Reply) { reply.Done? || reply.NotFound? }

  // ---- ConfigMaps ----

  function ReconcileConfigMap(w: World, s: Snapshot, desired: Option<ConfigMap>, observed: Option<ConfigMap>): Progress
  {
    match (desired, observed)
    case (Some(cm), None) => Progress(Call(w, CreateConfigMap(cm)), ReplyTo(w, CreateConfigMap(cm)).Done?)
    case (Some(cm), Some(_)) =>
      if Gate(s) then Progress(Call(w, UpdateConfigMap(cm)), ReplyTo(w, UpdateConfigMap(cm)).Done?)
      else Progress(w, true)
    case (None, Some(cm)) => Progress(Call(w, DeleteConfigMap(cm.name)), Deleted(ReplyTo(w, DeleteConfigMap(cm.name))))
    case (None, None) => Progress(w, true)
  }

  function ObservedConfigMap(s: Snapshot, name: string): Option<ConfigMap>
  {
    if name in s.configMaps then Some(s.configMaps[name]) else None
  }

  function EnsureConfigMaps(w: World, s: Snapshot, list: seq<ConfigMap>): Progress
    decreases |list|
  {
    if list == [] then Progress(w, true)
    else
      var step := ReconcileConfigMap(w, s, Some(list[0]), ObservedConfigMap(s, list[0].name));
      if step.ok then EnsureConfigMaps(step.world, s, list[1..]) else step
  }

  function DropConfigMaps(w: World, s: Snapshot, wanted: set<string>, order: seq<string>): Progress
    decreases |order|
  {
    if order == [] then Progress(w, true)
    else
      var step := if order[0] in wanted then Progress(w, true)
                  else ReconcileConfigMap(w, s, None, ObservedConfigMap(s, order[0]));
      if step.ok then DropConfigMaps(step.world, s, wanted, order[1..]) else step
  }

  // ---- Pods ----

  function ReconcilePod(w: World, s: Snapshot, desired: Option<Pod>, observed: Option<Pod>): Progress
  {
    match (desired, observed)
    case (Some(pod), None) => Progress(Call(w, CreatePod(pod)), ReplyTo(w, CreatePod(pod)).Done?)
    case (Some(pod), Some(current)) =>
      if Gate(s) && NeedToRestart(pod, current)
      then Progress(Call(w, DeletePod(pod.name)), Deleted(ReplyTo(w, DeletePod(pod.name))))
      else Progress(w, true)
    case (None, Some(pod)) => Progress(Call(w, DeletePod(pod.name)), Deleted(ReplyTo(w, DeletePod(pod.name))))
    case (None, None) => Progress(w, true)
  }

  function EnsurePods(w: World, s: Snapshot, list: seq<Pod>): Progress
    decreases |list|
  {
    if list == [] then Progress(w, true)
    else
      var step := ReconcilePod(w, s, Some(list[0]), Lookup(s.pods, EntityOf(list[0]), list[0].name));
      if step.ok then EnsurePods(step.world, s, list[1..]) else step
  }

  function DropPods(w: World, s: Snapshot, wanted: set<string>, order: seq<string>): Progress
    decreases |order|
  {
    if order == [] then Progress(w, true)
    else
      var step := if order[0] in wanted || order[0] !in s.pods then Progress(w, true)
                  else ReconcilePod(w, s, None, Some(s.pods[order[0]]));
      if step.ok then DropPods(step.world, s, wanted, order[1..]) else step
  }

  // ---- One round of actions ----

  function ConfigMapNames(list: seq<ConfigMap>): set<string> { set cm | cm in list :: cm.name }

  function PodNames(list: seq<Pod>): set<string> { set p | p in list :: p.name }

  lemma PodNamesGrow(list: seq<Pod>, i: nat)
    requires i < |list|
    ensures PodNames(list[..i + 1]) == PodNames(list[..i]) + {list[i].name}
  {
    assert list[..i + 1] == list[..i] + [list[i]];
  }

  /** The orders in which Go happened to walk the observed maps, and the order its sort left the
      listed revisions in. */
  datatype Choices = Choices(configMaps: seq<string>, pods: seq<string>, revisions: seq<Revision>)

  function ApplyConfigMaps(w: World, s: Snapshot, list: seq<ConfigMap>, order: seq<string>): Progress
  {
    var ensured := EnsureConfigMaps(w, s, list);
    if ensured.ok then DropConfigMaps(ensured.world, s, ConfigMapNames(list), order) else ensured
  }

  function ApplyPods(w: World, s: Snapshot, list: seq<Pod>, order: seq<string>): Progress
  {
    var ensured := EnsurePods(w, s, list);
    if ensured.ok then DropPods(ensured.world, s, PodNames(list), order) else ensured
  }

  function ApplyChildren(w: World, s: Snapshot, d: DesiredState, c: Choices): Progress
  {
    var configMaps := ApplyConfigMaps(w, s, d.configMaps, c.configMaps);
    if configMaps.ok then ApplyPods(configMaps.world, s, d.pods, c.pods) else configMaps
  }

  /** The status write that makes the observed spec's revision current. */
  function AdvanceOp(s: Snapshot): Op
  {
    UpdateStatus(s.cr.(status := s.cr.status.(currentRevision := s.cr.status.nextRevision)))
  }

  /** `reached` says that every child step succeeded, so that the status write was attempted. */
  datatype Round = Round(world: World, reached: bool, ok: bool, landed: bool)

  function Reconcile(w: World, s: Snapshot, d: DesiredState, c: Choices): Round
  {
    var children := ApplyChildren(w, s, d, c);
    if !children.ok then Round(children.world, false, false, false)
    else
      var advance := AdvanceOp(s);
      Round(Call(children.world, advance), true, ReplyTo(children.world, advance).Done?, Landed(children.world, advance))
  }

  // ---- Pruning ----

  function Prune(w: World, oldest: seq<Revision>): Progress
    decreases |oldest|
  {
    if oldest == [] then Progress(w, true)
    else
      var op := DeleteRevision(oldest[0].name);
      if ReplyTo(w, op).Done? then Prune(Call(w, op), oldest[1..]) else Progress(Call(w, op), false)
  }

  /** One step of the deletions. */
  lemma PruneStep(w: World, oldest: seq<Revision>)
    ensures oldest == [] ==> Prune(w, oldest) == Progress(w, true)
    ensures oldest != [] ==>
              var op := DeleteRevision(oldest[0].name);
              Prune(w, oldest) == if ReplyTo(w, op).Done? then Prune(Call(w, op), oldest[1..]) else Progress(Call(w, op), false)
  {
    hide Call, ReplyTo;
  }

  function Excess(count: nat, limit: nat): nat
  {
    if count <= limit then 0 else count - limit
  }

  function CleanupOldRevisions(w: World, limit: nat, sorted: seq<Revision>): Progress
  {
    Prune(w, sorted[..Excess(|sorted|, limit)])
  }

  ghost predicate Ascending(revisions: seq<Revision>)
  {
    forall i, j :: 0 <= i < j < |revisions| ==> revisions[i].number <= revisions[j].number
  }

  lemma {:induction false} DistinctOnce<T>(a: seq<T>, x: T)
    requires forall i, j :: 0 <= i < j < |a| ==> a[i] != a[j]
    ensures multiset(a)[x] <= 1
  {
    if a != [] {
      assert a == a[..|a| - 1] + [a[|a| - 1]];
      DistinctOnce(a[..|a| - 1], x);
    }
  }

  lemma PermutationEnumerates<T(!new)>(a: seq<T>, b: seq<T>, s: set<T>)
    requires Enumerates(a, s) && multiset(a) == multiset(b)
    ensures Enumerates(b, s)
  {
    forall x ensures x in b <==> x in s {
      assert x in multiset(a) <==> x in multiset(b);
    }
    forall i, j | 0 <= i < j < |b| ensures b[i] != b[j] {
      if b[i] == b[j] {
        DistinctOnce(a, b[i]);
        TwiceCounted(b, i, j);
      }
    }
  }

  lemma TwiceCounted<T>(b: seq<T>, i: nat, j: nat)
    requires i < j < |b| && b[i] == b[j]
    ensures multiset(b)[b[i]] >= 2
  {
    assert b == b[..j] + [b[j]] + b[j + 1..];
    assert b[i] in b[..j];
  }

  // ---- The reconciler's own code ----

  /** An in-place sort by revision number, standing for sort.Slice: callers learn only that the
      slice is a sorted permutation, so revisions with equal numbers may come in any order. */
  method SortByNumber(a: array<Revision>)
    modifies a
    ensures Ascending(a[..]) && multiset(a[..]) == multiset(old(a[..]))
  {
    for i := 0 to a.Length
      invariant multiset(a[..]) == multiset(old(a[..]))
      invariant SettledUpTo(a[..], i)
    {
      var least := IndexOfLeast(a, i);
      Swap(a, i, least);
    }
  }

  /** The first `n` entries are in their final places. */
  ghost predicate SettledUpTo(s: seq<Revision>, n: nat)
  {
    forall p, q :: 0 <= p < q < |s| && p < n ==> s[p].number <= s[q].number
  }

  method IndexOfLeast(a: array<Revision>, from: nat) returns (least: nat)
    requires from < a.Length
    ensures from <= least < a.Length
    ensures forall q :: from <= q < a.Length ==> a[..][least].number <= a[..][q].number
  {
    least := from;
    for j := from to a.Length
      invariant from <= least < a.Length
      invariant forall q :: from <= q < j ==> a[least].number <= a[q].number
    {
      if a[j].number < a[least].number { least := j; }
    }
  }

  method Swap(a: array<Revision>, i: nat, j: nat)
    requires i <= j < a.Length
    modifies a
    ensures a[..] == old(a[..])[i := old(a[j])][j := old(a[i])]
    ensures multiset(a[..]) == multiset(old(a[..]))
  {
    a[i], a[j] := a[j], a[i];
  }

  class ResourceReconciler {
    const k8sClient: ApiServer
    const observed: ObservedState
    const desired: DesiredState

    constructor (k8sClient: ApiServer, observed: ObservedState, desired: DesiredState)
      ensures this.k8sClient == k8sClient && this.observed == observed && this.desired == desired
    {
      this.k8sClient, this.observed, this.desired := k8sClient, observed, desired;
    }

    method ReconcileOneConfigMap(desiredConfigMap: Option<ConfigMap>, observedConfigMap: Option<ConfigMap>, ghost s: Snapshot)
      returns (ok: bool)
      requires observed.Shows(s)
      modifies k8sClient
      ensures Progress(k8sClient.Now(), ok)
           == ReconcileConfigMap(old(k8sClient.Now()), s, desiredConfigMap, observedConfigMap)
    {
      hide Call, ReplyTo, Landed;
      if desiredConfigMap.Some? && observedConfigMap.None? {
        var reply := k8sClient.Do(CreateConfigMap(desiredConfigMap.value));
        return reply.Done?;
      }
      if desiredConfigMap.Some? && observedConfigMap.Some? {
        if observed.cr.status.currentRevision != observed.cr.status.nextRevision {
          var reply := k8sClient.Do(UpdateConfigMap(desiredConfigMap.value));
          return reply.Done?;
        }
        return true;
      }
      if observedConfigMap.Some? {
        var reply := k8sClient.Do(DeleteConfigMap(observedConfigMap.value.name));
        return Deleted(reply);
      }
      return true;
    }

    method ReconcileOnePod(desiredPod: Option<Pod>, observedPod: Option<Pod>, ghost s: Snapshot) returns (ok: bool)
      requires observed.Shows(s)
      modifies k8sClient
      ensures Progress(k8sClient.Now(), ok) == ReconcilePod(old(k8sClient.Now()), s, desiredPod, observedPod)
    {
      hide Call, ReplyTo, Landed, NeedToRestart;
      if desiredPod.Some? && observedPod.None? {
        var reply := k8sClient.Do(CreatePod(desiredPod.value));
        return reply.Done?;
      }
      if desiredPod.Some? && observedPod.Some? {
        var restart := NeedToRestartPod(desiredPod.value, observedPod.value);
        if observed.cr.status.currentRevision != observed.cr.status.nextRevision && restart {
          var reply := k8sClient.Do(DeletePod(desiredPod.value.name));
          return Deleted(reply);
        }
        return true;
      }
      if observedPod.Some? {
        var reply := k8sClient.Do(DeletePod(observedPod.value.name));
        return Deleted(reply);
      }
      return true;
    }

    method EnsureAllConfigMaps(ghost s: Snapshot) returns (ok: bool, configMapDesired: set<string>)
      requires observed.Shows(s)
      modifies k8sClient
      ensures Progress(k8sClient.Now(), ok) == EnsureConfigMaps(old(k8sClient.Now()), s, desired.configMaps)
      ensures ok ==> configMapDesired == ConfigMapNames(desired.configMaps)
    {
      hide Call, ReplyTo, Landed;
      ghost var w := k8sClient.Now();
      configMapDesired := {};
      for i := 0 to |desired.configMaps|
        invariant observed.Shows(s)
        invariant configMapDesired == ConfigMapNames(desired.configMaps[..i])
        invariant EnsureConfigMaps(w, s, desired.configMaps)
               == EnsureConfigMaps(k8sClient.Now(), s, desired.configMaps[i..])
      {
        var desiredConfigMap := desired.configMaps[i];
        var current := if desiredConfigMap.name in observed.configMaps then Some(observed.configMaps[desiredConfigMap.name]) else None;
        assert desired.configMaps[..i + 1] == desired.configMaps[..i] + [desiredConfigMap];
        configMapDesired := configMapDesired + {desiredConfigMap.name};
        ok := ReconcileOneConfigMap(Some(desiredConfigMap), current, s);
        if !ok { return; }
      }
      assert desired.configMaps[..|desired.configMaps|] == desired.configMaps;
      ok := true;
    }

    method DropUndesiredConfigMaps(configMapDesired: set<string>, ghost s: Snapshot) returns (ok: bool, ghost order: seq<string>)
      requires observed.Shows(s)
      modifies k8sClient
      ensures Enumerates(order, s.configMaps.Keys)
      ensures Progress(k8sClient.Now(), ok) == DropConfigMaps(old(k8sClient.Now()), s, configMapDesired, order)
    {
      hide Call, ReplyTo, Landed;
      ghost var w := k8sClient.Now();
      var names := RangeOver(observed.configMaps.Keys);
      order := names;
      for i := 0 to |names|
        invariant observed.Shows(s)
        invariant DropConfigMaps(w, s, configMapDesired, names)
               == DropConfigMaps(k8sClient.Now(), s, configMapDesired, names[i..])
      {
        assert names[i] in observed.configMaps.Keys;
        if names[i] !in configMapDesired {
          ok := ReconcileOneConfigMap(None, Some(observed.configMaps[names[i]]), s);
          if !ok { return; }
        }
      }
      ok := true;
    }

    method ReconcileConfigMaps(ghost s: Snapshot) returns (ok: bool, ghost order: seq<string>)
      requires observed.Shows(s)
      modifies k8sClient
      ensures Enumerates(order, s.configMaps.Keys)
      ensures Progress(k8sClient.Now(), ok) == ApplyConfigMaps(old(k8sClient.Now()), s, desired.configMaps, order)
    {
      hide EnsureConfigMaps, DropConfigMaps;
      order := Arrange(s.configMaps.Keys);
      var configMapDesired;
      ok, configMapDesired := EnsureAllConfigMaps(s);
      if ok {
        ok, order := DropUndesiredConfigMaps(configMapDesired, s);
      }
    }

    /** Seen pod by pod, the nested walk visits each listed pod once, in the order returned, and
        deletes what is not desired. */
    method DropUndesired(podDesired: set<string>, ghost s: Snapshot) returns (ok: bool, ghost order: seq<string>)
      requires observed.Shows(s)
      modifies k8sClient
      ensures Enumerates(order, s.pods.Keys)
      ensures Progress(k8sClient.Now(), ok) == DropPods(old(k8sClient.Now()), s, podDesired, order)
    {
      hide DropPods, EntityOf, Call, Lookup, InEntity, Enumerates;
      DropPodsStep(k8sClient.Now(), s, podDesired, []);
      ghost var w := k8sClient.Now();
      ghost var visited: seq<string> := [];
      var entities := RangeOver(observed.statefulEntities.Keys);
      NothingVisited(s.pods);
      for i := 0 to |entities|
        invariant observed.Shows(s)
        invariant DropPods(w, s, podDesired, visited) == Progress(k8sClient.Now(), true)
        invariant Enumerates(visited, InEntities(s.pods, entities[..i]).Keys)
      {
        EntityListed(entities, s.pods, i);
        ghost var inner;
        InnerPods(s.pods, entities[i]);
        ok, inner := DropEntity(observed.statefulEntities[entities[i]], podDesired, s);
        DropPodsAppend(w, s, podDesired, visited, inner);
        VisitedGrows(s.pods, entities, i, visited, inner);
        visited := visited + inner;
        if !ok {
          order := Complete(visited, InEntities(s.pods, entities[..i + 1]).Keys, s.pods.Keys);
          DropPodsAppend(w, s, podDesired, visited, order[|visited|..]);
          return;
        }
      }
      assert entities[..|entities|] == entities;
      EveryPodVisited(s.pods, entities);
      order := visited;
      ok := true;
    }

    method DropEntity(pods: PodTable, podDesired: set<string>, ghost s: Snapshot) returns (ok: bool, ghost order: seq<string>)
      requires observed.Shows(s)
      requires forall n :: n in pods ==> n in s.pods && s.pods[n] == pods[n]
      modifies k8sClient
      ensures Enumerates(order, pods.Keys)
      ensures Progress(k8sClient.Now(), ok) == DropPods(old(k8sClient.Now()), s, podDesired, order)
    {
      hide DropPods, ReconcilePod;
      ghost var w := k8sClient.Now();
      var names := RangeOver(pods.Keys);
      order := names;
      for i := 0 to |names|
        invariant observed.Shows(s)
        invariant DropPods(w, s, podDesired, names) == DropPods(k8sClient.Now(), s, podDesired, names[i..])
      {
        assert names[i] in pods.Keys;
        DropPodsStep(k8sClient.Now(), s, podDesired, names[i..]);
        if names[i] !in podDesired {
          ok := ReconcileOnePod(None, Some(pods[names[i]]), s);
          if !ok { return; }
        }
      }
      DropPodsStep(k8sClient.Now(), s, podDesired, names[|names|..]);
      ok := true;
    }

    method EnsureAllPods(ghost s: Snapshot) returns (ok: bool, podDesired: set<string>)
      requires observed.Shows(s)
      modifies k8sClient
      ensures Progress(k8sClient.Now(), ok) == EnsurePods(old(k8sClient.Now()), s, desired.pods)
      ensures ok ==> podDesired == PodNames(desired.pods)
    {
      hide Call, ReplyTo, Landed;
      ghost var w := k8sClient.Now();
      podDesired := {};
      for i := 0 to |desired.pods|
        invariant observed.Shows(s)
        invariant podDesired == PodNames(desired.pods[..i])
        invariant EnsurePods(w, s, desired.pods) == EnsurePods(k8sClient.Now(), s, desired.pods[i..])
      {
        var desiredPod := desired.pods[i];
        var observedPod := FindInIndex(observed.statefulEntities, EntityOf(desiredPod), desiredPod.name);
        FindAgrees(s.pods, EntityOf(desiredPod), desiredPod.name);
        PodNamesGrow(desired.pods, i);
        podDesired := podDesired + {desiredPod.name};
        ok := ReconcileOnePod(Some(desiredPod), observedPod, s);
        if !ok { return; }
      }
      assert desired.pods[..|desired.pods|] == desired.pods;
      ok := true;
    }

    method ReconcilePods(ghost s: Snapshot) returns (ok: bool, ghost order: seq<string>)
      requires observed.Shows(s)
      modifies k8sClient
      ensures Enumerates(order, s.pods.Keys)
      ensures Progress(k8sClient.Now(), ok) == ApplyPods(old(k8sClient.Now()), s, desired.pods, order)
    {
      hide EnsurePods, DropPods;
      order := Arrange(s.pods.Keys);
      var podDesired;
      ok, podDesired := EnsureAllPods(s);
      if ok {
        ok, order := DropUndesired(podDesired, s);
      }
    }

    /** The whole round.  The advanced revision is written through a deep copy, so the shared
        observed resource still carries the revision that was current before. */
    method ReconcileAll(ghost s: Snapshot) returns (ok: bool, ghost c: Choices)
      requires observed.Shows(s)
      modifies k8sClient
      ensures Enumerates(c.configMaps, s.configMaps.Keys)
      ensures Enumerates(c.pods, s.pods.Keys)
      ensures var round := Reconcile(old(k8sClient.Now()), s, desired, c);
              k8sClient.Now() == round.world && ok == round.ok
    {
      hide ApplyConfigMaps, ApplyPods, Call, Landed;
      ghost var w := k8sClient.Now();
      c := Choices([], Arrange(s.pods.Keys), []);
      ghost var order;
      ok, order := ReconcileConfigMaps(s);
      c := c.(configMaps := order);
      if !ok { return; }
      ok, order := ReconcilePods(s);
      c := c.(pods := order);
      assert Progress(k8sClient.Now(), ok) == ApplyChildren(w, s, desired, c);
      if !ok { return; }
      var cluster := new InvokerDeployment(observed.cr.Value());
      cluster.status := cluster.status.(currentRevision := observed.cr.status.nextRevision);
      assert UpdateStatus(cluster.Value()) == AdvanceOp(s);
      var reply := k8sClient.Do(UpdateStatus(cluster.Value()));
      ok := reply.Done?;
    }

    /** Sorts the listed revisions in place and deletes the oldest ones beyond the limit. */
    method Cleanup(historyLimit: nat) returns (ok: bool)
      modifies k8sClient, observed.revisions
      ensures multiset(observed.revisions[..]) == multiset(old(observed.revisions[..]))
      ensures observed.revisions.Length <= historyLimit || Ascending(observed.revisions[..])
      ensures Progress(k8sClient.Now(), ok)
           == CleanupOldRevisions(old(k8sClient.Now()), historyLimit, observed.revisions[..])
    {
      hide Prune, Call, ReplyTo, Landed;
      var revisions := observed.revisions;
      PruneStep(k8sClient.Now(), []);
      if revisions.Length <= historyLimit { return true; }
      SortByNumber(revisions);
      var excess := revisions.Length - historyLimit;
      ghost var w := k8sClient.Now();
      ghost var oldest := revisions[..excess];
      for i := 0 to excess
        invariant revisions[..excess] == oldest
        invariant multiset(revisions[..]) == multiset(old(revisions[..])) && Ascending(revisions[..])
        invariant Prune(w, oldest) == Prune(k8sClient.Now(), oldest[i..])
      {
        assert oldest[i..][0] == revisions[i] && oldest[i..][1..] == oldest[i + 1..];
        PruneStep(k8sClient.Now(), oldest[i..]);
        var reply := k8sClient.Do(DeleteRevision(revisions[i].name));
        if !reply.Done? {
          assert revisions[..][..excess] == oldest;
          return false;
        }
      }
      PruneStep(k8sClient.Now(), oldest[excess..]);
      assert revisions[..][..excess] == oldest;
      ok := true;
    }
  }

  // ---- The order in which the nested walk visits the pods ----

  lemma NothingVisited(t: PodTable)
    ensures Enumerates([], InEntities(t, []).Keys)
  {
  }

  lemma EntityListed(entities: seq<string>, t: PodTable, i: nat)
    requires Enumerates(entities, IndexOf(t).Keys) && i < |entities|
    ensures entities[i] in IndexOf(t)
  {
    assert entities[i] in IndexOf(t).Keys;
  }

  lemma VisitedGrows(t: PodTable, entities: seq<string>, i: nat, visited: seq<string>, inner: seq<string>)
    requires Enumerates(entities, IndexOf(t).Keys) && i < |entities| && entities[i] in IndexOf(t)
    requires Enumerates(visited, InEntities(t, entities[..i]).Keys)
    requires Enumerates(inner, IndexOf(t)[entities[i]].Keys)
    ensures Enumerates(visited + inner, InEntities(t, entities[..i + 1]).Keys)
  {
    hide Enumerates, IndexOf, EntityOf;
    var before, own := InEntities(t, entities[..i]).Keys, IndexOf(t)[entities[i]].Keys;
    InnerPods(t, entities[i]);
    assert entities[i] !in entities[..i] by { NotVisitedYet(entities, IndexOf(t).Keys, i); }
    assert entities[..i + 1] == entities[..i] + [entities[i]];
    assert InEntities(t, entities[..i + 1]).Keys == before + own && before !! own;
    EnumeratesBoth(visited, before, inner, own);
  }

  lemma NotVisitedYet(order: seq<string>, s: set<string>, i: nat)
    requires Enumerates(order, s) && i < |order|
    ensures order[i] !in order[..i]
  {
  }

  lemma EveryPodVisited(t: PodTable, entities: seq<string>)
    requires Enumerates(entities, IndexOf(t).Keys)
    ensures InEntities(t, entities) == t
  {
    InAllEntities(t, entities);
  }

  /** An order of part of a set, continued to the whole set. */
  ghost function Complete(visited: seq<string>, part: set<string>, whole: set<string>): (order: seq<string>)
    requires Enumerates(visited, part) && part <= whole
    ensures Enumerates(order, whole) && visited <= order
  {
    EnumeratesBoth(visited, part, Arrange(whole - part), whole - part);
    assert part + (whole - part) == whole;
    visited + Arrange(whole - part)
  }

  /** One step of the walk. */
  lemma DropPodsStep(w: World, s: Snapshot, wanted: set<string>, order: seq<string>)
    ensures order == [] ==> DropPods(w, s, wanted, order) == Progress(w, true)
    ensures order != [] && (order[0] in wanted || order[0] !in s.pods) ==>
              DropPods(w, s, wanted, order) == DropPods(w, s, wanted, order[1..])
    ensures order != [] && order[0] !in wanted && order[0] in s.pods ==>
              var step := ReconcilePod(w, s, None, Some(s.pods[order[0]]));
              DropPods(w, s, wanted, order) == if step.ok then DropPods(step.world, s, wanted, order[1..]) else step
  {
  }

  lemma FindAgrees(t: PodTable, e: string, n: string)
    ensures FindInIndex(IndexOf(t), e, n) == Lookup(t, e, n)
  {
    IndexAgreesWithSearch(Arrange(t.Values), t, e, n);
  }

  lemma {:induction false} DropPodsAppend(w: World, s: Snapshot, wanted: set<string>, a: seq<string>, b: seq<string>)
    ensures var first := DropPods(w, s, wanted, a);
            DropPods(w, s, wanted, a + b) == if first.ok then DropPods(first.world, s, wanted, b) else first
    decreases |a|
  {
    if a == [] {
      assert a + b == b;
    } else {
      assert (a + b)[1..] == a[1..] + b;
      var step := if a[0] in wanted || a[0] !in s.pods then Progress(w, true)
                  else ReconcilePod(w, s, None, Some(s.pods[a[0]]));
      if step.ok { DropPodsAppend(step.world, s, wanted, a[1..], b); }
    }
  }
}
