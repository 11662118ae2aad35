/** Which specs the stored children can come from, over every run with failures and edits. */
module Suspects {
  import opened Types
  import opened Restart
  import opened Api
  import opened Observer
  import opened Reconciler
  import opened Controller
  import opened Protocol
  import opened Actions
  import opened Runs
  import Converter

  /** The spec last applied in full, and every spec attempted since. */
  function SuspectSpecs(t: Trail): set<Spec>
  {
    t.attempted + if t.applied.Some? then {t.applied.value} else {}
  }

  ghost predicate ConfigMapFrom(specs: set<Spec>, cm: ConfigMap)
  {
    exists s :: s in specs && cm in Converter.DesiredConfigMaps(s)
  }

  ghost predicate Matches(spec: Spec, p: Pod)
  {
    exists d :: d in Converter.DesiredPods(spec) && d.name == p.name && Fits(d, p)
  }

  ghost predicate PodFrom(specs: set<Spec>, p: Pod)
  {
    exists s :: s in specs && Matches(s, p)
  }

  /** The pod has the labels and the volume its name has in some spec of the run. */
  ghost predicate Housed(spec: Spec, p: Pod)
  {
    exists d :: d in Converter.DesiredPods(spec) && d.name == p.name && d.labels == p.labels && d.configVolume == p.configVolume
  }

  ghost predicate Known(specs: set<Spec>, p: Pod)
  {
    exists s :: s in specs && Housed(s, p)
  }

  ghost predicate ChildrenFrom(run: set<Spec>, suspects: set<Spec>, st: Store)
  {
    && (forall n :: n in st.configMaps ==> ConfigMapFrom(suspects, st.configMaps[n]))
    && (forall n :: n in st.pods ==> Known(run, st.pods[n]))
    && (forall n :: n in st.pods && !st.pods[n].terminating ==> PodFrom(suspects, st.pods[n]))
  }

  /** The stored current revision is that of the spec last applied in full. */
  ghost predicate CurrentIs(cx: Context, applied: Option<Spec>, current: string)
  {
    current == if applied.None? then "" else RevisionName(cx, applied.value)
  }

  /** The run invariant. */
  ghost predicate Sound(cx: Context, specs: set<Spec>, pt: Point)
  {
    && SuspectSpecs(pt.trail) <= specs
    && CrWithin(specs, pt.store.cr)
    && (pt.store.cr.Some? ==> CurrentIs(cx, pt.trail.applied, pt.store.cr.value.status.currentRevision))
    && ChildrenFrom(specs, SuspectSpecs(pt.trail), pt.store)
  }

  // ---- Aging and widening ----

  lemma AgedPodFrom(run: set<Spec>, specs: set<Spec>, a: Pod, b: Pod)
    requires Ages(a, b)
    ensures Known(run, a) ==> Known(run, b)
    ensures PodFrom(specs, a) ==> PodFrom(specs, b)
  {
    if s :| s in run && Housed(s, a) { assert Housed(s, b); }
    if s :| s in specs && Matches(s, a) {
      var d :| d in Converter.DesiredPods(s) && d.name == a.name && Fits(d, a);
      assert Fits(d, b);
      assert Matches(s, b);
    }
  }

  lemma DriftKeepsChildren(run: set<Spec>, suspects: set<Spec>, st: Store, later: Store)
    requires ChildrenFrom(run, suspects, st)
    requires later.configMaps == st.configMaps && PodsAge(st.pods, later.pods)
    ensures ChildrenFrom(run, suspects, later)
  {
    hide Known, PodFrom, ConfigMapFrom;
    forall n | n in later.pods
      ensures Known(run, later.pods[n]) && (!later.pods[n].terminating ==> PodFrom(suspects, later.pods[n]))
    {
      AgedPodFrom(run, suspects, st.pods[n], later.pods[n]);
    }
  }

  lemma WiderChildren(run: set<Spec>, suspects: set<Spec>, wider: set<Spec>, st: Store)
    requires ChildrenFrom(run, suspects, st) && suspects <= wider
    ensures ChildrenFrom(run, wider, st)
  {
    hide Matches, Housed;
    assert forall p :: PodFrom(suspects, p) ==> PodFrom(wider, p);
    assert forall cm :: ConfigMapFrom(suspects, cm) ==> ConfigMapFrom(wider, cm);
  }

  // ---- The calls of a pass write only what its spec desires ----

  lemma StoredPodMatches(spec: Spec, p: Pod)
    requires p in Converter.DesiredPods(spec)
    ensures Matches(spec, Stored(p)) && Housed(spec, Stored(p))
  {
    assert Fits(p, Stored(p));
  }

  /** Whatever a pass writes besides new ConfigMaps and pods only removes or ages children. */
  lemma OtherCallsOnlyRemove(st: Store, op: Op)
    requires !op.CreatePod? && !op.CreateConfigMap? && !op.UpdateConfigMap?
    ensures var later := Apply(st, op).0;
            && later.configMaps.Keys <= st.configMaps.Keys
            && (forall n :: n in later.configMaps ==> later.configMaps[n] == st.configMaps[n])
            && PodsAge(st.pods, later.pods)
  {
    hide Admit, Stored, ApplyToCr, ApplyToRevisions, Answer;
    if !WritesPods(op) {
      ApplyReach(st, op);
    } else {
      assert Apply(st, op).0.configMaps == st.configMaps;
    }
  }

  lemma LegitCallKeepsChildren(cx: Context, run: set<Spec>, suspects: set<Spec>, w: World, s: Snapshot, c: Choices, op: Op)
    requires ChildrenFrom(run, suspects, w.store) && s.cr.spec in suspects && s.cr.spec in run
    requires Legit(cx, s, c, op)
    ensures ChildrenFrom(run, suspects, Call(w, op).store)
  {
    var before := CallShape(w, op);
    hide Call, Landed, ChildrenFrom, Happen, Restarts, PodsAge;
    DriftKeepsChildren(run, suspects, w.store, before);
    if Landed(w, op) {
      if op.CreatePod? {
        PodPut(run, suspects, before, Apply(before, op).0, s.cr.spec, op.pod);
      } else if op.CreateConfigMap? || op.UpdateConfigMap? {
        ConfigMapPut(run, suspects, before, Apply(before, op).0, s.cr.spec, op.configMap);
      } else {
        hide Apply, Legit;
        OtherCallsOnlyRemove(before, op);
        FewerChildren(run, suspects, before, Apply(before, op).0);
      }
    }
  }

  lemma FewerChildren(run: set<Spec>, suspects: set<Spec>, st: Store, later: Store)
    requires ChildrenFrom(run, suspects, st)
    requires later.configMaps.Keys <= st.configMaps.Keys && forall n :: n in later.configMaps ==> later.configMaps[n] == st.configMaps[n]
    requires PodsAge(st.pods, later.pods)
    ensures ChildrenFrom(run, suspects, later)
  {
    hide Known, PodFrom, ConfigMapFrom;
    DriftKeepsChildren(run, suspects, st, later.(configMaps := st.configMaps));
  }

  lemma PodPut(run: set<Spec>, suspects: set<Spec>, st: Store, later: Store, spec: Spec, p: Pod)
    requires ChildrenFrom(run, suspects, st) && spec in suspects && spec in run && p in Converter.DesiredPods(spec)
    requires later == st.(pods := st.pods[p.name := Stored(p)])
    ensures ChildrenFrom(run, suspects, later)
  {
    hide PodFrom, Known, Stored, Converter.DesiredPods, ConfigMapFrom;
    StoredPodFrom(run, suspects, spec, p);
    PodTablePut(run, suspects, st.pods, Stored(p));
  }

  lemma StoredPodFrom(run: set<Spec>, suspects: set<Spec>, spec: Spec, p: Pod)
    requires spec in suspects && spec in run && p in Converter.DesiredPods(spec)
    ensures PodFrom(suspects, Stored(p)) && Known(run, Stored(p)) && Stored(p).name == p.name
  {
    StoredPodMatches(spec, p);
    hide Matches, Housed;
  }

  lemma PodTablePut(run: set<Spec>, suspects: set<Spec>, pods: PodTable, p: Pod)
    requires forall n :: n in pods ==> Known(run, pods[n])
    requires forall n :: n in pods && !pods[n].terminating ==> PodFrom(suspects, pods[n])
    requires PodFrom(suspects, p) && Known(run, p)
    ensures var later := pods[p.name := p];
            && (forall n :: n in later ==> Known(run, later[n]))
            && (forall n :: n in later && !later[n].terminating ==> PodFrom(suspects, later[n]))
  {
    hide PodFrom, Known;
  }

  lemma ConfigMapPut(run: set<Spec>, suspects: set<Spec>, st: Store, later: Store, spec: Spec, cm: ConfigMap)
    requires ChildrenFrom(run, suspects, st) && spec in suspects && cm in Converter.DesiredConfigMaps(spec)
    requires later == st.(configMaps := st.configMaps[cm.name := cm])
    ensures ChildrenFrom(run, suspects, later)
  {
    hide Known, PodFrom;
    assert ConfigMapFrom(suspects, cm);
  }

  lemma {:induction false} LegitCallsKeepChildren(cx: Context, run: set<Spec>, suspects: set<Spec>, w: World, s: Snapshot, c: Choices, ops: seq<Op>)
    requires ChildrenFrom(run, suspects, w.store) && s.cr.spec in suspects && s.cr.spec in run
    requires forall op :: op in ops ==> Legit(cx, s, c, op)
    ensures ChildrenFrom(run, suspects, Calls(w, ops).store)
    decreases |ops|
  {
    hide Call, ChildrenFrom, Legit;
    if ops != [] {
      LegitCallKeepsChildren(cx, run, suspects, w, s, c, ops[0]);
      LegitCallsKeepChildren(cx, run, suspects, Call(w, ops[0]), s, c, ops[1..]);
    }
  }

  // ---- A landed advance behind an open gate leaves one suspect ----

  lemma EverythingSelected(run: set<Spec>, suspects: set<Spec>, st: Store)
    requires ChildrenFrom(run, suspects, st)
    ensures SelectConfigMaps(st.configMaps, CHILD_SELECTOR) == st.configMaps
    ensures SelectPods(st.pods, CHILD_SELECTOR) == st.pods
  {
    hide Selects, Known, ConfigMapFrom, PodFrom, SelectConfigMaps, SelectPods, CHILD_SELECTOR;
    forall n | n in st.configMaps ensures Selects(CHILD_SELECTOR, st.configMaps[n].labels) {
      ConfigMapSelected(suspects, st.configMaps[n]);
    }
    forall n | n in st.pods ensures Selects(CHILD_SELECTOR, st.pods[n].labels) {
      PodSelected(run, st.pods[n]);
    }
    SelectAllConfigMaps(st.configMaps, CHILD_SELECTOR);
    SelectAllPods(st.pods, CHILD_SELECTOR);
  }

  lemma SelectAllConfigMaps(t: ConfigMapTable, selector: Labels)
    requires forall n :: n in t ==> Selects(selector, t[n].labels)
    ensures SelectConfigMaps(t, selector) == t
  {
    hide Selects;
  }

  lemma SelectAllPods(t: PodTable, selector: Labels)
    requires forall n :: n in t ==> Selects(selector, t[n].labels)
    ensures SelectPods(t, selector) == t
  {
    hide Selects;
  }

  lemma ConfigMapSelected(specs: set<Spec>, cm: ConfigMap)
    requires ConfigMapFrom(specs, cm)
    ensures Selects(CHILD_SELECTOR, cm.labels)
  {
    var s :| s in specs && cm in Converter.DesiredConfigMaps(s);
  }

  lemma PodSelected(specs: set<Spec>, p: Pod)
    requires Known(specs, p)
    ensures Selects(CHILD_SELECTOR, p.labels)
  {
    var s :| s in specs && Housed(s, p);
    var d :| d in Converter.DesiredPods(s) && d.labels == p.labels;
    Converter.PodListed(s, d);
    var i, j :| Converter.At(s, i, j) && d == Converter.PodAt(s, i, j);
    assert p.labels == Converter.PodLabels(s.entities[i].name);
  }

  /** Same name and same entity: same labels and same volume. */
  lemma SameEntitySameHome(s: Spec, t: Spec, p: Pod, q: Pod)
    requires p in Converter.DesiredPods(s) && q in Converter.DesiredPods(t) && EntityOf(p) == EntityOf(q)
    ensures p.labels == q.labels && p.configVolume == q.configVolume
  {
    Converter.PodListed(s, p);
    Converter.PodListed(t, q);
    var i, j :| Converter.At(s, i, j) && p == Converter.PodAt(s, i, j);
    var k, l :| Converter.At(t, k, l) && q == Converter.PodAt(t, k, l);
    assert EntityOf(p) == s.entities[i].name && EntityOf(q) == t.entities[k].name;
  }

  lemma KnownAtHome(specs: set<Spec>, p: Pod, spec: Spec, d: Pod)
    requires SameHomes(specs) && spec in specs && d in Converter.DesiredPods(spec)
    requires Known(specs, p) && p.name == d.name
    ensures p.labels == d.labels && p.configVolume == d.configVolume
  {
    var s :| s in specs && Housed(s, p);
    var e :| e in Converter.DesiredPods(s) && e.name == p.name && e.labels == p.labels && e.configVolume == p.configVolume;
    SameEntitySameHome(s, spec, e, d);
  }

  lemma DesiredListsDistinct(spec: Spec)
    requires Converter.WellFormed(spec)
    ensures ConfigMapsDistinct(Converter.DesiredConfigMaps(spec)) && PodsDistinct(Converter.DesiredPods(spec))
  {
    Converter.DesiredNamesDistinct(spec);
    var cms, pods := Converter.DesiredConfigMaps(spec), Converter.DesiredPods(spec);
    forall i, j | 0 <= i < j < |cms| ensures cms[i].name != cms[j].name {
      assert ((cm: ConfigMap) => cm.name)(cms[i]) != ((cm: ConfigMap) => cm.name)(cms[j]);
    }
    forall i, j | 0 <= i < j < |pods| ensures pods[i].name != pods[j].name {
      assert ((p: Pod) => p.name)(pods[i]) != ((p: Pod) => p.name)(pods[j]);
    }
  }

  /** What a pass that acts on a sound store knows about its snapshot. */
  lemma SnapshotOfSound(cx: Context, run: set<Spec>, suspects: set<Spec>, st: Store, s: Snapshot, end: Store, read: Cr, listed: PodTable)
    requires SameHomes(run) && ChildrenFrom(run, suspects, st)
    requires SawBetween(cx, st, s, end, read, listed) && s.cr.spec in run
    ensures s.configMaps == st.configMaps == end.configMaps
    ensures PodsAge(st.pods, s.pods) && PodsAge(s.pods, end.pods)
    ensures AtHome(s, Converter.DesiredPods(s.cr.spec))
    ensures ChildrenFrom(run, suspects, st.(pods := s.pods))
  {
    hide ChildrenFrom, Known, Selects, CrDrifts;
    var mid := st.(pods := listed);
    DriftKeepsChildren(run, suspects, st, mid);
    EverythingSelected(run, suspects, st);
    EverythingSelected(run, suspects, mid);
    assert s.pods == listed;
    forall p | p in Converter.DesiredPods(s.cr.spec) && p.name in s.pods
      ensures s.pods[p.name].labels == p.labels && s.pods[p.name].configVolume == p.configVolume
    {
      PodsKnown(run, suspects, mid, p.name);
      KnownAtHome(run, s.pods[p.name], s.cr.spec, p);
    }
  }

  lemma PodsKnown(run: set<Spec>, suspects: set<Spec>, st: Store, n: string)
    requires ChildrenFrom(run, suspects, st) && n in st.pods
    ensures Known(run, st.pods[n])
  {
  }

  /** The state in which a landed advance of snapshot `s` leaves the children: the ConfigMaps are
      exactly the desired ones, and every live pod is desired and fits. */
  ghost predicate FullyApplied(spec: Spec, st: Store)
  {
    && st.configMaps == ConfigMapTableOf(Converter.DesiredConfigMaps(spec))
    && forall n :: n in st.pods && !st.pods[n].terminating ==>
         n in PodTableOf(Converter.DesiredPods(spec)) && Fits(PodTableOf(Converter.DesiredPods(spec))[n], st.pods[n])
  }

  lemma FullyAppliedHasOneSuspect(run: set<Spec>, spec: Spec, st: Store)
    requires FullyApplied(spec, st)
    requires forall n :: n in st.pods ==> Known(run, st.pods[n])
    ensures ChildrenFrom(run, {spec}, st)
  {
    TablesComeFromLists(Converter.DesiredConfigMaps(spec), Converter.DesiredPods(spec));
    hide Known, Fits, PodFrom, ConfigMapFrom;
    forall n | n in st.configMaps ensures ConfigMapFrom({spec}, st.configMaps[n]) {
      ConfigMapFromOne(spec, st.configMaps[n]);
    }
    forall n | n in st.pods && !st.pods[n].terminating ensures PodFrom({spec}, st.pods[n]) {
      PodFromOne(spec, PodTableOf(Converter.DesiredPods(spec))[n], st.pods[n]);
    }
  }

  lemma ConfigMapFromOne(spec: Spec, cm: ConfigMap)
    requires cm in Converter.DesiredConfigMaps(spec)
    ensures ConfigMapFrom({spec}, cm)
  {
    assert spec in {spec};
  }

  lemma PodFromOne(spec: Spec, d: Pod, p: Pod)
    requires d in Converter.DesiredPods(spec) && d.name == p.name && Fits(d, p)
    ensures PodFrom({spec}, p)
  {
    assert Matches(spec, p);
    assert spec in {spec};
  }

  lemma AgedFullyApplied(spec: Spec, st: Store, later: Store)
    requires FullyApplied(spec, st) && later.configMaps == st.configMaps && PodsAge(st.pods, later.pods)
    ensures FullyApplied(spec, later)
  {
    forall n | n in later.pods && !later.pods[n].terminating
      ensures n in PodTableOf(Converter.DesiredPods(spec)) && Fits(PodTableOf(Converter.DesiredPods(spec))[n], later.pods[n])
    {
      assert Ages(st.pods[n], later.pods[n]);
    }
  }

  /** When every ConfigMap and pod step of an open-gate round succeeded, the children are those
      of the spec acted on, whatever the environment did meanwhile. */
  lemma OpenRoundApplies(cx: Context, w: World, s: Snapshot, c: Choices)
    requires Converter.WellFormed(s.cr.spec) && Possible(c, s) && Gate(s)
    requires s.configMaps == w.store.configMaps && PodsAge(s.pods, w.store.pods)
    requires AtHome(s, Converter.DesiredPods(s.cr.spec))
    requires ApplyChildren(w, s, Desired(s.cr.spec), c).ok
    ensures FullyApplied(s.cr.spec, ApplyChildren(w, s, Desired(s.cr.spec), c).world.store)
  {
    hide ApplyConfigMaps, ApplyPods, Calls, Fits, Legit;
    var d := Desired(s.cr.spec);
    var configMaps := ApplyConfigMaps(w, s, d.configMaps, c.configMaps);
    DesiredListsDistinct(s.cr.spec);
    ConfigMapsSettle(cx, w, s, c);
    var ops := ConfigMapCalls(cx, w, s, c);
    CallsDrift(w, ops);
    PodsAgeOn(s.pods, w.store.pods, configMaps.world.store.pods);
    PodsSettle(configMaps.world, s, d.pods, c.pods);
    SettledIsDesired(s, d.configMaps);
  }

  lemma SettledIsDesired(s: Snapshot, list: seq<ConfigMap>)
    requires Gate(s)
    ensures SettledConfigMaps(s.configMaps, s, list) == ConfigMapTableOf(list)
  {
    var desired := ConfigMapTableOf(list);
    assert (s.configMaps + desired) - (s.configMaps.Keys - desired.Keys) == desired;
  }
}
