/** The snapshot a pass works from, and the two-level index of the observed pods. */
module Observer {
  import opened Types
  import opened Api
  import Converter

  const CHILD_SELECTOR: Labels := map[Converter.TYPE_KEY := Converter.TYPE_VALUE]

  // Revisions are listed under one label key and written under another.
  const LISTED_REVISION_KEY := "invoker.io/invokerDeployment"
  const WRITTEN_REVISION_KEY := "invoker.io/invokerdeployment"

  function RevisionSelector(cx: Context): Labels { map[LISTED_REVISION_KEY := cx.name] }

  /** What one pass has seen.  The resource carries the revision name recomputed from its spec. */
  datatype Snapshot = Snapshot(cr: Cr, secret: bool, configMaps: ConfigMapTable, pods: PodTable,
                               revisions: RevisionTable)

  datatype Observation = Fault | Absent | Seen(snapshot: Snapshot)

  function ObserveAll(cx: Context, w: World): (World, Observation)
  {
    var op := GetCr;
    match ReplyTo(w, op)
    case NotFound => (Call(w, op), Absent)
    case TheCr(cr) => ObserveSecret(cx, Call(w, op), Named(cx, cr))
    case _ => (Call(w, op), Fault)
  }

  function Named(cx: Context, cr: Cr): Cr
  {
    cr.(status := cr.status.(nextRevision := RevisionName(cx, cr.spec)))
  }

  function ObserveSecret(cx: Context, w: World, cr: Cr): (World, Observation)
  {
    var reply := ReplyTo(w, GetSecret);
    if reply.TheSecret? || reply.NotFound?
    then ObserveConfigMaps(cx, Call(w, GetSecret), Snapshot(cr, reply.TheSecret?, map[], map[], map[]))
    else (Call(w, GetSecret), Fault)
  }

  function ObserveConfigMaps(cx: Context, w: World, s: Snapshot): (World, Observation)
  {
    var op := ListConfigMaps(CHILD_SELECTOR);
    match ReplyTo(w, op)
    case TheConfigMaps(t) => ObservePods(cx, Call(w, op), s.(configMaps := t))
    case _ => (Call(w, op), Fault)
  }

  function ObservePods(cx: Context, w: World, s: Snapshot): (World, Observation)
  {
    var op := ListPods(CHILD_SELECTOR);
    match ReplyTo(w, op)
    case ThePods(t) => ObserveRevisions(cx, Call(w, op), s.(pods := t))
    case _ => (Call(w, op), Fault)
  }

  function ObserveRevisions(cx: Context, w: World, s: Snapshot): (World, Observation)
  {
    var op := ListRevisions(RevisionSelector(cx));
    match ReplyTo(w, op)
    case TheRevisions(t) => (Call(w, op), Seen(s.(revisions := t)))
    case _ => (Call(w, op), Fault)
  }

  // ---- The index of pods by entity and name ----

  type PodIndex = map<string, PodTable>

  function EntityOf(p: Pod): string
  {
    if Converter.ENTITY_KEY in p.labels then p.labels[Converter.ENTITY_KEY] else ""
  }

  function Entities(t: PodTable): set<string> { set n | n in t :: EntityOf(t[n]) }

  function InEntity(t: PodTable, e: string): PodTable { map n | n in t && EntityOf(t[n]) == e :: t[n] }

  function IndexOf(t: PodTable): (index: PodIndex)
    ensures index.Keys == Entities(t)
  {
    map e | e in Entities(t) :: InEntity(t, e)
  }

  /** The observer only makes an inner map to put a pod into it. */
  lemma InnerMaps(t: PodTable, e: string)
    ensures e in IndexOf(t) ==> IndexOf(t)[e] == InEntity(t, e)
    ensures e in IndexOf(t) <==> InEntity(t, e) != map[]
  {
    if n :| n in t && EntityOf(t[n]) == e {
      assert n in InEntity(t, e);
    }
  }

  /** What the index holds for one entity. */
  lemma InnerPods(t: PodTable, e: string)
    requires e in IndexOf(t)
    ensures forall n :: n in IndexOf(t)[e] <==> n in t && EntityOf(t[n]) == e
    ensures forall n :: n in IndexOf(t)[e] ==> IndexOf(t)[e][n] == t[n]
  {
  }

  /** The index by label: under an entity are the pods whose entity label names it, and pods
      without the label are under the empty name. */
  lemma IndexByLabel(t: PodTable, e: string)
    requires e in IndexOf(t)
    ensures forall n :: n in IndexOf(t)[e] <==>
              n in t && e == if "statefulEntityName" in t[n].labels then t[n].labels["statefulEntityName"] else ""
    ensures forall n :: n in IndexOf(t)[e] ==> IndexOf(t)[e][n] == t[n]
  {
    InnerPods(t, e);
  }

  function FindInIndex(index: PodIndex, e: string, n: string): Option<Pod>
  {
    if e in index && n in index[e] then Some(index[e][n]) else None
  }

  /** The listed pod with this name, provided it belongs to this entity. */
  function Lookup(t: PodTable, e: string, n: string): Option<Pod>
  {
    if n in t && EntityOf(t[n]) == e then Some(t[n]) else None
  }

  function LinearSearch(items: seq<Pod>, e: string, n: string): Option<Pod>
  {
    if items == [] then None
    else if EntityOf(items[0]) == e && items[0].name == n then Some(items[0])
    else LinearSearch(items[1..], e, n)
  }

  lemma {:induction false} LinearSearchFinds(items: seq<Pod>, e: string, n: string)
    ensures LinearSearch(items, e, n).Some? ==>
              var p := LinearSearch(items, e, n).value; p in items && EntityOf(p) == e && p.name == n
    ensures LinearSearch(items, e, n).None? ==> forall p :: p in items ==> !(EntityOf(p) == e && p.name == n)
  {
    if items != [] {
      LinearSearchFinds(items[1..], e, n);
    }
  }

  /** Looking a pod up by entity and then by name finds what a search of the list finds. */
  lemma IndexAgreesWithSearch(items: seq<Pod>, t: PodTable, e: string, n: string)
    requires Enumerates(items, t.Values)
    ensures FindInIndex(IndexOf(t), e, n) == LinearSearch(items, e, n) == Lookup(t, e, n)
  {
    LinearSearchFinds(items, e, n);
    if n in t && EntityOf(t[n]) == e {
      assert t[n] in t.Values;
      assert e in Entities(t);
    }
  }

  function TotalSize(index: PodIndex, order: seq<string>): nat
    requires forall e :: e in order ==> e in index
  {
    if order == [] then 0 else |index[order[0]]| + TotalSize(index, order[1..])
  }

  function InEntities(t: PodTable, es: seq<string>): PodTable { map n | n in t && EntityOf(t[n]) in es :: t[n] }

  lemma InEntitiesSplit(t: PodTable, es: seq<string>)
    requires es != [] && es[0] !in es[1..]
    ensures |InEntities(t, es)| == |InEntity(t, es[0])| + |InEntities(t, es[1..])|
  {
    var all, own, rest := InEntities(t, es), InEntity(t, es[0]), InEntities(t, es[1..]);
    assert all.Keys == own.Keys + rest.Keys && own.Keys !! rest.Keys;
    assert |all| == |all.Keys| && |own| == |own.Keys| && |rest| == |rest.Keys|;
  }

  lemma {:induction false} SizesAdd(t: PodTable, order: seq<string>)
    requires forall i, j :: 0 <= i < j < |order| ==> order[i] != order[j]
    requires forall e :: e in order ==> e in IndexOf(t)
    ensures TotalSize(IndexOf(t), order) == |InEntities(t, order)|
  {
    if order == [] {
      assert InEntities(t, order) == map[];
    } else {
      SizesAdd(t, order[1..]);
      InEntitiesSplit(t, order);
      InnerMaps(t, order[0]);
    }
  }

  lemma {:induction false} ValuesCount(t: PodTable)
    ensures |t.Values| == |t|
    decreases |t|
  {
    if t.Keys != {} {
      var n :| n in t.Keys;
      var rest: PodTable := t - {n};
      assert rest.Keys == t.Keys - {n};
      ValuesCount(rest);
      assert t.Values == rest.Values + {t[n]} by {
        forall p | p in t.Values ensures p in rest.Values + {t[n]} {
          if p.name != n { assert p == rest[p.name]; }
        }
      }
      assert t[n] !in rest.Values;
    } else {
      assert t == map[];
    }
  }

  lemma {:induction false} EnumerationSize<T(!new)>(order: seq<T>, s: set<T>)
    requires Enumerates(order, s)
    ensures |order| == |s|
  {
    if order == [] {
      assert s == {};
    } else {
      var last := order[|order| - 1];
      assert order == order[..|order| - 1] + [last];
      EnumerationSize(order[..|order| - 1], s - {last});
    }
  }

  /** However the entities are ordered, the inner maps together hold every listed pod once. */
  lemma IndexHoldsEveryPodOnce(items: seq<Pod>, t: PodTable, order: seq<string>)
    requires Enumerates(items, t.Values) && Enumerates(order, IndexOf(t).Keys)
    ensures TotalSize(IndexOf(t), order) == |items|
  {
    EnumerationSize(items, t.Values);
    ValuesCount(t);
    InAllEntities(t, order);
    hide IndexOf, InEntities, TotalSize;
    SizesAdd(t, order);
  }

  lemma InAllEntities(t: PodTable, order: seq<string>)
    requires forall e :: e in Entities(t) ==> e in order
    ensures InEntities(t, order) == t
  {
    hide EntityOf;
    assert forall n :: n in t ==> EntityOf(t[n]) in Entities(t);
  }

  lemma EntitiesGrow(t: PodTable, p: Pod)
    requires p.name !in t
    ensures Entities(t[p.name := p]) == Entities(t) + {EntityOf(p)}
  {
    var grown: PodTable := t[p.name := p];
    assert grown[p.name] == p;
    forall x | x in Entities(t) ensures x in Entities(grown) {
      var n :| n in t && EntityOf(t[n]) == x;
      assert grown[n] == t[n];
    }
    forall x | x in Entities(grown) ensures x in Entities(t) + {EntityOf(p)} {
      var n :| n in grown && EntityOf(grown[n]) == x;
      assert n == p.name || t[n] == grown[n];
    }
  }

  lemma InEntityGrows(t: PodTable, p: Pod, e: string)
    requires p.name !in t
    ensures InEntity(t[p.name := p], e) == if e == EntityOf(p) then InEntity(t, e)[p.name := p] else InEntity(t, e)
  {
    var grown: PodTable := t[p.name := p];
    var left, right := InEntity(grown, e), if e == EntityOf(p) then InEntity(t, e)[p.name := p] else InEntity(t, e);
    forall n ensures n in left <==> n in right {
      assert n in grown <==> n == p.name || n in t;
      if n != p.name && n in t { assert grown[n] == t[n]; }
    }
    forall n | n in left ensures left[n] == right[n] {
      if n != p.name { assert grown[n] == t[n]; }
    }
  }

  /** An index with one more pod in the inner map of its entity is the index of the grown table. */
  lemma IndexGrows(t: PodTable, grown: PodTable, p: Pod, index: PodIndex)
    requires p.name !in t && grown == t[p.name := p]
    requires index.Keys == Entities(t) + {EntityOf(p)}
    requires forall e :: e in index ==> index[e] == if e == EntityOf(p) then InEntity(grown, e) else InEntity(t, e)
    ensures index == IndexOf(grown)
  {
    EntitiesGrow(t, p);
    forall e | e in index ensures index[e] == IndexOf(grown)[e] {
      InEntityGrows(t, p, e);
    }
  }

  /** The entity's map, made empty on first use. */
  function InnerMap(index: PodIndex, e: string): PodTable { if e in index then index[e] else map[] }

  lemma InnerMapOfIndex(t: PodTable, e: string)
    ensures InnerMap(IndexOf(t), e) == InEntity(t, e)
  {
    InnerMaps(t, e);
  }

  /** Entering a pod into the inner map of its entity gives the index of the table with that pod. */
  lemma IndexStep(t: PodTable, grown: PodTable, p: Pod, inner: PodTable)
    requires inner == InEntity(t, EntityOf(p))
    requires p.name !in t && grown == t[p.name := p]
    ensures IndexOf(t)[EntityOf(p) := inner[p.name := p]] == IndexOf(grown)
  {
    InEntityGrows(t, p, EntityOf(p));
    IndexGrows(t, grown, p, IndexOf(t)[EntityOf(p) := inner[p.name := p]]);
  }

  /** The part of the table whose pods have been entered so far. */
  function Entered(t: PodTable, done: seq<Pod>): PodTable { map n | n in t && t[n] in done :: t[n] }

  lemma EnteredGrows(t: PodTable, items: seq<Pod>, i: nat)
    requires Enumerates(items, t.Values) && i < |items|
    ensures items[i].name !in Entered(t, items[..i])
    ensures Entered(t, items[..i + 1]) == Entered(t, items[..i])[items[i].name := items[i]]
  {
    assert items[i] in t.Values;
    assert t[items[i].name] == items[i];
    assert items[..i + 1] == items[..i] + [items[i]];
  }

  lemma EnteredAll(t: PodTable, items: seq<Pod>)
    requires Enumerates(items, t.Values)
    ensures Entered(t, items) == t
  {
    assert forall n :: n in t ==> t[n] in t.Values;
  }

  function EnteredConfigMaps(t: ConfigMapTable, done: seq<ConfigMap>): ConfigMapTable
  {
    map n | n in t && t[n] in done :: t[n]
  }

  lemma ConfigMapEntered(t: ConfigMapTable, items: seq<ConfigMap>, i: nat)
    requires Enumerates(items, t.Values) && i < |items|
    ensures EnteredConfigMaps(t, items[..i + 1]) == EnteredConfigMaps(t, items[..i])[items[i].name := items[i]]
  {
    assert items[i] in t.Values;
    assert t[items[i].name] == items[i];
    assert items[..i + 1] == items[..i] + [items[i]];
  }

  // ---- The observer's own code ----

  /** The resource as the operator holds it in memory: one object, shared by every component
      that was handed the observed state. */
  class InvokerDeployment {
    var finalizers: set<string>
    var deleting: bool
    var resourceVersion: nat
    var spec: Spec
    var status: Status

    function Value(): Cr
      reads this
    {
      Cr(finalizers, deleting, resourceVersion, spec, status)
    }

    constructor (cr: Cr)
      ensures Value() == cr
    {
      finalizers, deleting, resourceVersion := cr.finalizers, cr.deleting, cr.resourceVersion;
      spec, status := cr.spec, cr.status;
    }
  }

  class ObservedState {
    var cr: InvokerDeployment?
    var secret: bool
    var configMaps: ConfigMapTable
    var statefulEntities: PodIndex
    var revisions: array<Revision>

    constructor ()
      ensures cr == null && fresh(revisions) && revisions.Length == 0
    {
      cr, secret, configMaps, statefulEntities := null, false, map[], map[];
      revisions := new Revision[0];
    }

    ghost predicate Shows(s: Snapshot)
      reads this, cr, revisions
    {
      && cr != null && cr.Value() == s.cr
      && secret == s.secret
      && configMaps == s.configMaps
      && statefulEntities == IndexOf(s.pods)
      && Enumerates(revisions[..], s.revisions.Values)
    }
  }

  class StateObserver {
    const cx: Context
    const k8sClient: ApiServer

    constructor (cx: Context, k8sClient: ApiServer)
      ensures this.cx == cx && this.k8sClient == k8sClient
    {
      this.cx, this.k8sClient := cx, k8sClient;
    }

    method ListConfigMaps(selector: Labels) returns (reply: Reply, items: seq<ConfigMap>)
      modifies k8sClient
      ensures k8sClient.Now() == Call(old(k8sClient.Now()), Op.ListConfigMaps(selector))
      ensures reply == ReplyTo(old(k8sClient.Now()), Op.ListConfigMaps(selector))
      ensures reply.TheConfigMaps? ==> Enumerates(items, reply.configMaps.Values)
    {
      items := [];
      reply := k8sClient.Do(Op.ListConfigMaps(selector));
      if reply.TheConfigMaps? { items := RangeOver(reply.configMaps.Values); }
    }

    method ListPods(selector: Labels) returns (reply: Reply, items: seq<Pod>)
      modifies k8sClient
      ensures k8sClient.Now() == Call(old(k8sClient.Now()), Op.ListPods(selector))
      ensures reply == ReplyTo(old(k8sClient.Now()), Op.ListPods(selector))
      ensures reply.ThePods? ==> Enumerates(items, reply.pods.Values)
    {
      items := [];
      reply := k8sClient.Do(Op.ListPods(selector));
      if reply.ThePods? { items := RangeOver(reply.pods.Values); }
    }

    method ListRevisions(selector: Labels) returns (reply: Reply, items: seq<Revision>)
      modifies k8sClient
      ensures k8sClient.Now() == Call(old(k8sClient.Now()), Op.ListRevisions(selector))
      ensures reply == ReplyTo(old(k8sClient.Now()), Op.ListRevisions(selector))
      ensures reply.TheRevisions? ==> Enumerates(items, reply.revisions.Values)
    {
      items := [];
      reply := k8sClient.Do(Op.ListRevisions(selector));
      if reply.TheRevisions? { items := RangeOver(reply.revisions.Values); }
    }

    /** Puts one pod under its entity, making the entity's map when it is the first. */
    method EnterPod(index: PodIndex, observedPod: Pod, ghost t: PodTable, ghost grown: PodTable) returns (grownIndex: PodIndex)
      requires index == IndexOf(t)
      requires observedPod.name !in t && grown == t[observedPod.name := observedPod]
      ensures grownIndex == IndexOf(grown)
    {
      var entity := EntityOf(observedPod);
      InnerMapOfIndex(t, entity);
      var inner := InnerMap(index, entity);
      IndexStep(t, grown, observedPod, inner);
      grownIndex := index[entity := inner[observedPod.name := observedPod]];
    }

    method IndexPods(items: seq<Pod>, ghost t: PodTable) returns (index: PodIndex)
      requires Enumerates(items, t.Values)
      ensures index == IndexOf(t)
    {
      index := map[];
      for i := 0 to |items|
        invariant index == IndexOf(Entered(t, items[..i]))
      {
        EnteredGrows(t, items, i);
        index := EnterPod(index, items[i], Entered(t, items[..i]), Entered(t, items[..i + 1]));
      }
      EnteredAll(t, items);
      assert items[..|items|] == items;
    }

    method KeyConfigMaps(items: seq<ConfigMap>, ghost t: ConfigMapTable) returns (byName: ConfigMapTable)
      requires Enumerates(items, t.Values)
      ensures byName == t
    {
      byName := map[];
      for i := 0 to |items|
        invariant byName == EnteredConfigMaps(t, items[..i])
      {
        ConfigMapEntered(t, items, i);
        byName := byName[items[i].name := items[i]];
      }
      assert items[..|items|] == items;
      assert forall n :: n in t ==> t[n] in t.Values;
    }

    method SliceOf(items: seq<Revision>) returns (slice: array<Revision>)
      ensures fresh(slice) && slice[..] == items
    {
      slice := new Revision[|items|](i requires 0 <= i < |items| => items[i]);
    }

    /** The pods and the revisions: the last part of an observation. */
    method ObserveEntities(observed: ObservedState, ghost s: Snapshot) returns (err: bool, ghost seen: Snapshot)
      modifies k8sClient, observed`statefulEntities, observed`revisions
      ensures k8sClient.Now() == ObservePods(cx, old(k8sClient.Now()), s).0
      ensures ObservePods(cx, old(k8sClient.Now()), s).1 == if err then Fault else Seen(seen)
      ensures !err ==> observed.statefulEntities == IndexOf(seen.pods)
      ensures !err ==> fresh(observed.revisions) && Enumerates(observed.revisions[..], seen.revisions.Values)
      ensures seen == s.(pods := seen.pods, revisions := seen.revisions)
    {
      hide Call, ReplyTo, Landed;
      ghost var w := k8sClient.Now();
      seen := s;
      var podReply, pods := ListPods(CHILD_SELECTOR);
      if !podReply.ThePods? { return true, seen; }
      seen := seen.(pods := podReply.pods);
      assert ObservePods(cx, w, s) == ObserveRevisions(cx, k8sClient.Now(), seen);
      observed.statefulEntities := IndexPods(pods, podReply.pods);

      var revisionReply, revisions := ListRevisions(RevisionSelector(cx));
      if !revisionReply.TheRevisions? { return true, seen; }
      seen := seen.(revisions := revisionReply.revisions);
      observed.revisions := SliceOf(revisions);
      err := false;
    }

    /** The secret and the children. */
    method ObserveNamespace(observed: ObservedState, ghost cr: Cr) returns (err: bool, ghost seen: Snapshot)
      modifies k8sClient, observed`secret, observed`configMaps, observed`statefulEntities, observed`revisions
      ensures k8sClient.Now() == ObserveSecret(cx, old(k8sClient.Now()), cr).0
      ensures ObserveSecret(cx, old(k8sClient.Now()), cr).1 == if err then Fault else Seen(seen)
      ensures !err ==> observed.secret == seen.secret && observed.configMaps == seen.configMaps
      ensures !err ==> observed.statefulEntities == IndexOf(seen.pods)
      ensures !err ==> fresh(observed.revisions) && Enumerates(observed.revisions[..], seen.revisions.Values)
      ensures seen.cr == cr
    {
      hide Call, ReplyTo, Landed, Enumerates, IndexOf, RevisionSelector;
      ghost var w := k8sClient.Now();
      seen := Snapshot(cr, false, map[], map[], map[]);
      var secretReply := k8sClient.Do(GetSecret);
      if !secretReply.TheSecret? && !secretReply.NotFound? { return true, seen; }
      observed.secret := secretReply.TheSecret?;
      seen := seen.(secret := secretReply.TheSecret?);
      assert ObserveSecret(cx, w, cr) == ObserveConfigMaps(cx, k8sClient.Now(), seen);

      var configMapReply, configMaps := ListConfigMaps(CHILD_SELECTOR);
      if !configMapReply.TheConfigMaps? { return true, seen; }
      seen := seen.(configMaps := configMapReply.configMaps);
      assert ObserveSecret(cx, w, cr) == ObservePods(cx, k8sClient.Now(), seen);
      observed.configMaps := KeyConfigMaps(configMaps, configMapReply.configMaps);

      err, seen := ObserveEntities(observed, seen);
    }

    /** Fills `observed`; on success it shows exactly the snapshot of the specification. */
    method Observe(observed: ObservedState) returns (err: bool, ghost o: Observation)
      requires observed.cr == null
      modifies k8sClient, observed
      ensures (k8sClient.Now(), o) == ObserveAll(cx, old(k8sClient.Now()))
      ensures err == o.Fault?
      ensures o.Absent? ==> observed.cr == null
      ensures o.Seen? ==> observed.Shows(o.snapshot) && fresh(observed.cr) && fresh(observed.revisions)
    {
      hide Call, ReplyTo, Landed, ObserveSecret;
      var reply := k8sClient.Do(GetCr);
      if reply.NotFound? { return false, Absent; }
      if !reply.TheCr? { return true, Fault; }
      var cr := new InvokerDeployment(reply.cr);
      observed.cr := cr;
      ghost var seen;
      err, seen := ObserveNamespace(observed, Named(cx, reply.cr));
      if err { return true, Fault; }
      cr.status := cr.status.(nextRevision := RevisionName(cx, cr.spec));
      assert cr.Value() == seen.cr;
      o := Seen(seen);
    }
  }
}
