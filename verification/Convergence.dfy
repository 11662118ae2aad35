/** With the spec left alone, the children converge to it: when, how, and for good. */
module Convergence {
  import opened Types
  import opened Restart
  import opened Api
  import opened Observer
  import opened Updater
  import opened Reconciler
  import opened Controller
  import opened Protocol
  import opened Actions
  import opened Runs
  import opened Suspects
  import opened Invariants
  import opened Quiet
  import opened StatusMachine
  import Converter

  // ---- Calm environments ----

  /** The environment leaves the resource alone. */
  predicate Calm(e: Event) { !e.EditSpec? && !e.MarkDeleted? }

  /** It also evicts nothing: pods only change phase or finish terminating. */
  predicate Gentle(e: Event) { e.SetPhase? || e.FinishTermination? }

  ghost predicate CalmScript(script: seq<Turn>)
  {
    forall i, k :: 0 <= i < |script| && 0 <= k < |script[i].before| ==> Calm(script[i].before[k])
  }

  ghost predicate GentleScript(script: seq<Turn>)
  {
    forall i, k :: 0 <= i < |script| && 0 <= k < |script[i].before| ==> Gentle(script[i].before[k])
  }

  /** Same resource, apart from its status and version. */
  predicate SameOrder(a: Option<Cr>, b: Option<Cr>)
  {
    a.Some? && b.Some? && a.value.spec == b.value.spec && a.value.finalizers == b.value.finalizers
    && a.value.deleting == b.value.deleting
  }

  lemma {:induction false} CalmEvents(st: Store, events: seq<Event>)
    requires st.cr.Some? && forall k :: 0 <= k < |events| ==> Calm(events[k])
    ensures SameOrder(st.cr, Happen(st, events).cr)
    decreases |events|
  {
    if events != [] {
      assert Calm(events[0]);
      CalmEvents(Occur(st, events[0]), events[1..]);
    }
  }

  lemma CalmCall(w: World, op: Op)
    requires w.store.cr.Some? && CalmScript(w.script) && !op.UpdateCr?
    ensures SameOrder(w.store.cr, Call(w, op).store.cr) && CalmScript(Call(w, op).script)
  {
    if w.script != [] {
      assert forall k :: 0 <= k < |w.script[0].before| ==> Calm(w.script[0].before[k]);
      assert forall i :: 0 <= i < |w.script[1..]| ==> w.script[1..][i] == w.script[i + 1];
    }
    CalmEvents(w.store, NextTurn(w).before);
    var before := CallShape(w, op);
  }

  lemma {:induction false} CalmCalls(w: World, ops: seq<Op>)
    requires w.store.cr.Some? && CalmScript(w.script) && forall op :: op in ops ==> !op.UpdateCr?
    ensures SameOrder(w.store.cr, Calls(w, ops).store.cr) && CalmScript(Calls(w, ops).script)
    decreases |ops|
  {
    hide Call, CalmScript;
    if ops != [] {
      assert ops[0] in ops;
      CalmCall(w, ops[0]);
      CalmCalls(Call(w, ops[0]), ops[1..]);
    }
  }

  /** Through a pass in a calm environment an active resource keeps its spec and stays active. */
  lemma CalmPass(cx: Context, st: Store, script: seq<Turn>, c: Choices)
    requires st.cr.Some? && Active(st.cr.value) && CalmScript(script)
    ensures var r := PassFrom(cx, st, script, c);
            && SameOrder(st.cr, r.world.store.cr)
            && (r.report.Acted? ==> r.report.s.cr.spec == st.cr.value.spec)
  {
    hide ObserveAll, Proceed, Calls, CalmScript, ReplyTo, Selects, PodsAge;
    var start := World(st, script, []);
    var (w, o) := ObserveAll(cx, start);
    var read, listed, ops := ObserveFacts(cx, start);
    CalmCalls(start, ops);
    if o.Seen? {
      CalmRead(start);
      assert SameOrder(st.cr, Some(o.snapshot.cr));
      var more := ActiveCalls(cx, w, o.snapshot, c);
      CalmCalls(w, more);
      ProceedReports(cx, w, o.snapshot, c);
    }
  }

  lemma CalmRead(w: World)
    requires w.store.cr.Some? && CalmScript(w.script)
    ensures ReplyTo(w, GetCr).TheCr? ==> SameOrder(w.store.cr, Some(ReplyTo(w, GetCr).cr))
  {
    CalmCall(w, GetCr);
    var before := ReadCall(w, GetCr);
  }

  lemma ProceedReports(cx: Context, w: World, s: Snapshot, c: Choices)
    ensures Proceed(cx, w, s, c).report.Acted? ==> Proceed(cx, w, s, c).report.s == s
  {
    hide Act, Call, Derive, StatusChanged;
    ActReports(cx, w, s, c);
  }

  // ---- Settled: the spec applied in full, some pods perhaps still to come back ----

  ghost predicate Settled(cx: Context, specs: set<Spec>, spec: Spec, st: Store)
  {
    && Sound(cx, specs, Point(st, Trail(Some(spec), {})))
    && st.cr.Some? && Active(st.cr.value) && st.cr.value.spec == spec
    && FullyApplied(spec, st)
  }

  /** Converged: exactly the desired ConfigMaps, and exactly the desired pods, all live and fitting. */
  ghost predicate Converged(spec: Spec, st: Store)
  {
    && FullyApplied(spec, st)
    && st.pods.Keys == PodNames(Converter.DesiredPods(spec))
    && forall n :: n in st.pods ==> !st.pods[n].terminating
  }

  lemma OneSuspectApplied(run: set<Spec>, spec: Spec, st: Store)
    requires ChildrenFrom(run, {spec}, st) && Converter.WellFormed(spec)
    requires st.configMaps == ConfigMapTableOf(Converter.DesiredConfigMaps(spec))
    ensures FullyApplied(spec, st)
  {
    hide Converter.WellFormed, Fits, Known, ConfigMapFrom, PodFrom;
    DesiredListsDistinct(spec);
    forall n | n in st.pods && !st.pods[n].terminating
      ensures n in PodTableOf(Converter.DesiredPods(spec)) && Fits(PodTableOf(Converter.DesiredPods(spec))[n], st.pods[n])
    {
      PodOfOneSuspect(spec, st.pods[n]);
    }
  }

  lemma PodOfOneSuspect(spec: Spec, p: Pod)
    requires PodsDistinct(Converter.DesiredPods(spec)) && PodFrom({spec}, p)
    ensures p.name in PodTableOf(Converter.DesiredPods(spec)) && Fits(PodTableOf(Converter.DesiredPods(spec))[p.name], p)
  {
    hide Fits;
    var d :| d in Converter.DesiredPods(spec) && d.name == p.name && Fits(d, p);
    PodTableHolds(Converter.DesiredPods(spec), d);
  }

  /** In a settled store the gate is closed and a pass finds no ConfigMap to write. */
  lemma SettledCalls(cx: Context, specs: set<Spec>, spec: Spec, st: Store, script: seq<Turn>, c: Choices) returns (w: World, ops: seq<Op>)
    requires Admissible(cx, specs) && Settled(cx, specs, spec, st) && CalmScript(script)
    requires StepAllowed(cx, specs, Point(st, Trail(Some(spec), {})), Passes(script, c))
    requires PassFrom(cx, st, script, c).report.Acted?
    ensures var s := PassFrom(cx, st, script, c).report.s;
            && PassFrom(cx, st, script, c).world == Calls(w, ops) && !Gate(s) && s.cr.spec == spec
            && w.store.configMaps == st.configMaps && PodsAge(st.pods, s.pods) && PodsAge(s.pods, w.store.pods)
            && AtHome(s, Converter.DesiredPods(spec)) && w == ObserveAll(cx, World(st, script, [])).0
            && (forall op :: op in ops ==> Legit(cx, s, c, op) && !WritesConfigMaps(op))
  {
    hide Pass, Act, Calls, ChildrenFrom, RevisionName, Faithful, SelectRevisions, Active, ObserveAll, SameOrder, CalmScript, AtHome, SameHomes, Converter.WellFormed;
    var pt := Point(st, Trail(Some(spec), {}));
    CalmPass(cx, st, script, c);
    SameOrderSpec(st.cr, PassFrom(cx, st, script, c).world.store.cr);
    w := ActsOnSound(cx, specs, pt, script, c);
    var s := PassFrom(cx, st, script, c).report.s;
    GateMeansNewSpec(cx, specs, pt.trail, s);
    ops := ActCalls(cx, w, s, c);
    ConfigMapTableKeys(Converter.DesiredConfigMaps(spec));
    forall op | op in ops ensures !WritesConfigMaps(op) {
      NoConfigMapToWrite(cx, s, c, op);
    }
  }

  lemma SameOrderSpec(a: Option<Cr>, b: Option<Cr>)
    requires SameOrder(a, b)
    ensures a.value.spec == b.value.spec && Active(a.value) == Active(b.value)
  {
  }

  lemma NoConfigMapToWrite(cx: Context, s: Snapshot, c: Choices, op: Op)
    requires Legit(cx, s, c, op) && !Gate(s)
    requires s.configMaps.Keys == ConfigMapNames(Converter.DesiredConfigMaps(s.cr.spec))
    ensures !WritesConfigMaps(op)
  {
  }

  /** Settled stores stay settled through any pass in a calm environment, whatever fails in it
      and whatever is evicted. */
  lemma SettledPass(cx: Context, specs: set<Spec>, spec: Spec, st: Store, script: seq<Turn>, c: Choices)
    requires Admissible(cx, specs) && Settled(cx, specs, spec, st) && CalmScript(script)
    requires StepAllowed(cx, specs, Point(st, Trail(Some(spec), {})), Passes(script, c))
    ensures Settled(cx, specs, spec, PassFrom(cx, st, script, c).world.store)
  {
    hide PassFrom, ChildrenFrom, RevisionName, Faithful, CalmScript, SameHomes, Converter.WellFormed, Calls, Legit, FullyApplied, AtHome,
         PodsAge, Possible, Selects;
    var pt := Point(st, Trail(Some(spec), {}));
    var r := PassFrom(cx, st, script, c);
    CalmPass(cx, st, script, c);
    StepKeepsSound(cx, specs, pt, Passes(script, c));
    assert spec in SuspectSpecs(pt.trail);
    if r.report.Acted? {
      var w, ops := SettledCalls(cx, specs, spec, st, script, c);
      CallsDrift(w, ops);
      assert SuspectSpecs(pt.trail) == {spec};
      FullyAppliedConfigMaps(spec, st);
      OneSuspectApplied(specs, spec, r.world.store);
    } else {
      IdlePass(cx, st, script, c);
      AgedFullyApplied(spec, st, r.world.store);
    }
  }

  lemma FullyAppliedConfigMaps(spec: Spec, st: Store)
    requires FullyApplied(spec, st)
    ensures st.configMaps == ConfigMapTableOf(Converter.DesiredConfigMaps(spec))
  {
  }

  lemma SettledEvent(cx: Context, specs: set<Spec>, spec: Spec, st: Store, e: Event)
    requires Settled(cx, specs, spec, st) && Calm(e)
    ensures Settled(cx, specs, spec, Occur(st, e))
  {
    hide ChildrenFrom, FullyApplied;
    EventKeepsSound(cx, specs, Point(st, Trail(Some(spec), {})), e);
    OccurDrifts(st, e);
    AgedFullyApplied(spec, st, Occur(st, e));
  }

  // ---- The first action pass settles exactly when the gate is open or promises the truth ----

  /** An undisturbed acting pass over a sound store: the closed form. */
  lemma QuietAct(cx: Context, specs: set<Spec>, pt: Point, c: Choices)
    requires Admissible(cx, specs) && Sound(cx, specs, pt) && StepAllowed(cx, specs, pt, Passes([], c))
    requires pt.store.cr.Some? && Active(pt.store.cr.value) && PassFrom(cx, pt.store, [], c).report.Acted?
    ensures var r := PassFrom(cx, pt.store, [], c);
            var s := SnapshotOf(cx, pt.store);
            && r.report.s == s && r.report.landed && UpToDate(s, pt.store)
            && AtHome(s, Converter.DesiredPods(s.cr.spec)) && s.cr.spec in specs
            && r.world.store.configMaps == SettledConfigMaps(pt.store.configMaps, s, Converter.DesiredConfigMaps(s.cr.spec))
            && r.world.store.pods == SettledPods(pt.store.pods, s, Converter.DesiredPods(s.cr.spec))
            && r.world.store.cr == Some(Touched(pt.store.cr.value).(status := s.cr.status.(currentRevision := s.cr.status.nextRevision)))
            && r.world.store.secret == pt.store.secret
  {
    hide Act, Derive, FactsOf, StatusChanged, ChildrenFrom, RevisionName, Reconcile, Calls, Faithful, SameHomes, Converter.WellFormed,
         SettledConfigMaps, SettledPods, Selects, SelectRevisions, AtHome, Call, ReplyTo, Landed, FinalizerOp, ObserveAll, AdvanceOp;
    var st := pt.store;
    var w := QuietProceeds(cx, st, c);
    var s := SnapshotOf(cx, st);
    ProceedReports(cx, w, s, c);
    SnapshotWithin(cx, specs, pt);
    assert Converter.WellFormed(s.cr.spec);
    RoundRefinesPureStep(cx, w, s, c);
    var round := Reconcile(w, s, Desired(s.cr.spec), c);
    QuietBookkeeping(cx, w, s, c);
    assert PassFrom(cx, st, [], c) == Act(cx, w, s, c);
    QuietActReport(cx, w, s, c);
  }

  lemma QuietActReport(cx: Context, w: World, s: Snapshot, c: Choices)
    ensures Act(cx, w, s, c).report.Acted? && Act(cx, w, s, c).report.landed == Reconcile(w, s, Desired(s.cr.spec), c).landed
  {
    hide Reconcile, SyncRevisions, CleanupOldRevisions;
  }

  lemma SnapshotWithin(cx: Context, specs: set<Spec>, pt: Point)
    requires Admissible(cx, specs) && Sound(cx, specs, pt) && pt.store.cr.Some?
    ensures var s := SnapshotOf(cx, pt.store);
            && s.cr.spec in specs && UpToDate(s, pt.store) && AtHome(s, Converter.DesiredPods(s.cr.spec))
  {
    hide ChildrenFrom, Selects, SelectRevisions, RevisionName, Known, Converter.WellFormed, Faithful;
    var s, suspects := SnapshotOf(cx, pt.store), SuspectSpecs(pt.trail);
    EverythingSelected(specs, suspects, pt.store);
    forall p | p in Converter.DesiredPods(s.cr.spec) && p.name in s.pods
      ensures s.pods[p.name].labels == p.labels && s.pods[p.name].configVolume == p.configVolume
    {
      PodsKnown(specs, suspects, pt.store, p.name);
      KnownAtHome(specs, s.pods[p.name], s.cr.spec, p);
    }
  }

  /** After an undisturbed round, bookkeeping changes revisions only. */
  lemma QuietBookkeeping(cx: Context, w: World, s: Snapshot, c: Choices)
    requires Reconcile(w, s, Desired(s.cr.spec), c).world.script == []
    ensures var round, act := Reconcile(w, s, Desired(s.cr.spec), c), Act(cx, w, s, c);
            act.world.store == round.world.store.(revisions := act.world.store.revisions)
  {
    hide Reconcile, SyncRevisions, CleanupOldRevisions, Calls, Legit;
    var round := Reconcile(w, s, Desired(s.cr.spec), c);
    var ops := AfterRoundCalls(cx, round.world, s, c);
    QuietRevisionCalls(round.world, ops);
  }

  lemma {:induction false} QuietRevisionCalls(w: World, ops: seq<Op>)
    requires w.script == [] && forall op :: op in ops ==> op.GetRevision? || WritesRevisions(op)
    ensures Calls(w, ops).store == w.store.(revisions := Calls(w, ops).store.revisions)
    decreases |ops|
  {
    if ops != [] {
      QuietCall(w, ops[0]);
      assert ops[0] in ops;
      assert Apply(w.store, ops[0]).0 == w.store.(revisions := Apply(w.store, ops[0]).0.revisions);
      hide Call, Landed, Apply;
      QuietRevisionCalls(Call(w, ops[0]), ops[1..]);
    }
  }

  lemma AppliedIsSettled(cx: Context, specs: set<Spec>, spec: Spec, st: Store)
    requires spec in specs && st.cr.Some? && Active(st.cr.value) && st.cr.value.spec == spec
    requires st.cr.value.status.currentRevision == RevisionName(cx, spec)
    requires forall n :: n in st.pods ==> Known(specs, st.pods[n])
    ensures Settled(cx, specs, spec, st) <==> FullyApplied(spec, st)
  {
    hide Known, FullyApplied, ChildrenFrom, RevisionName;
    assert SuspectSpecs(Trail(Some(spec), {})) == {spec};
    if FullyApplied(spec, st) {
      FullyAppliedHasOneSuspect(specs, spec, st);
    }
  }

  /** An open gate lets the undisturbed acting pass apply its spec in full. */
  lemma OpenGateApplies(cx: Context, specs: set<Spec>, pt: Point, c: Choices)
    requires Admissible(cx, specs) && Sound(cx, specs, pt) && StepAllowed(cx, specs, pt, Passes([], c))
    requires pt.store.cr.Some? && Active(pt.store.cr.value) && PassFrom(cx, pt.store, [], c).report.Acted?
    requires Gate(SnapshotOf(cx, pt.store))
    ensures FullyApplied(pt.store.cr.value.spec, PassFrom(cx, pt.store, [], c).world.store)
  {
    hide Pass, ChildrenFrom, RevisionName, Admissible, Sound, FullyApplied, StepAllowed, AtHome, SettledConfigMaps, SettledPods,
         SelectConfigMaps, SelectPods, SelectRevisions;
    QuietAct(cx, specs, pt, c);
    ActingPassKeepsSound(cx, specs, pt, [], c);
  }

  /** A closed one lets it do so exactly if nothing stored under a desired name is wrong. */
  lemma ClosedGateApplies(cx: Context, specs: set<Spec>, pt: Point, c: Choices)
    requires Admissible(cx, specs) && Sound(cx, specs, pt) && StepAllowed(cx, specs, pt, Passes([], c))
    requires pt.store.cr.Some? && Active(pt.store.cr.value) && PassFrom(cx, pt.store, [], c).report.Acted?
    requires !Gate(SnapshotOf(cx, pt.store))
    ensures var spec := pt.store.cr.value.spec;
            FullyApplied(spec, PassFrom(cx, pt.store, [], c).world.store) <==> GateSound(spec, pt.store)
  {
    hide Pass, ChildrenFrom, RevisionName, Sound, FullyApplied, StepAllowed, AtHome, SettledConfigMaps, SettledPods, GateSound,
         SelectConfigMaps, SelectPods, SelectRevisions, Faithful, SameHomes, Converter.WellFormed;
    var st, s := pt.store, SnapshotOf(cx, pt.store);
    var spec, st' := st.cr.value.spec, PassFrom(cx, st, [], c).world.store;
    QuietAct(cx, specs, pt, c);
    DesiredListsDistinct(spec);
    ClosedGateResult(spec, st, s);
    SameChildrenApplied(spec, st', st.(configMaps := st'.configMaps, pods := st'.pods));
  }

  lemma SameChildrenApplied(spec: Spec, a: Store, b: Store)
    requires a.configMaps == b.configMaps && a.pods == b.pods
    ensures FullyApplied(spec, a) <==> FullyApplied(spec, b)
  {
  }

  /** Exactly when the first action pass settles: the gate is open, or what is stored under the
      desired names is already right. */
  lemma ActionSettles(cx: Context, specs: set<Spec>, pt: Point, c: Choices)
    requires Admissible(cx, specs) && Sound(cx, specs, pt) && StepAllowed(cx, specs, pt, Passes([], c))
    requires pt.store.cr.Some? && Active(pt.store.cr.value) && PassFrom(cx, pt.store, [], c).report.Acted?
    ensures Settled(cx, specs, pt.store.cr.value.spec, PassFrom(cx, pt.store, [], c).world.store)
        <==> Gate(SnapshotOf(cx, pt.store)) || GateSound(pt.store.cr.value.spec, pt.store)
  {
    hide Pass, ChildrenFrom, RevisionName, SettledConfigMaps, SettledPods, AtHome, FullyApplied, GateSound, Settled,
         SelectConfigMaps, SelectPods, SelectRevisions, StepAllowed, Admissible, Known;
    var st' := PassFrom(cx, pt.store, [], c).world.store;
    QuietAct(cx, specs, pt, c);
    ActingPassKeepsSound(cx, specs, pt, [], c);
    ChildrenKnown(specs, SuspectSpecs(After(cx, pt, Passes([], c)).trail), st');
    AppliedIsSettled(cx, specs, pt.store.cr.value.spec, st');
    if Gate(SnapshotOf(cx, pt.store)) {
      OpenGateApplies(cx, specs, pt, c);
    } else {
      ClosedGateApplies(cx, specs, pt, c);
    }
  }

  /** Behind a closed gate a round applies the spec in full exactly if nothing stored under a
      desired name was wrong. */
  lemma ClosedGateResult(spec: Spec, st: Store, s: Snapshot)
    requires UpToDate(s, st) && !Gate(s) && s.cr.spec == spec
    requires ConfigMapsDistinct(Converter.DesiredConfigMaps(spec)) && PodsDistinct(Converter.DesiredPods(spec))
    ensures FullyApplied(spec, st.(configMaps := SettledConfigMaps(st.configMaps, s, Converter.DesiredConfigMaps(spec)),
                                   pods := SettledPods(st.pods, s, Converter.DesiredPods(spec))))
        <==> GateSound(spec, st)
  {
    hide FullyApplied, GateSound;
    var st' := st.(configMaps := SettledConfigMaps(st.configMaps, s, Converter.DesiredConfigMaps(spec)),
                   pods := SettledPods(st.pods, s, Converter.DesiredPods(spec)));
    ClosedGateConfigMaps(st.configMaps, s, Converter.DesiredConfigMaps(spec));
    ClosedGatePods(st.pods, s, Converter.DesiredPods(spec));
    GateSoundTables(spec, st);
    FullyAppliedTables(spec, st');
  }

  ghost predicate ConfigMapsRight(cms: ConfigMapTable, list: seq<ConfigMap>)
  {
    forall n :: n in cms && n in ConfigMapTableOf(list) ==> cms[n] == ConfigMapTableOf(list)[n]
  }

  ghost predicate PodsRight(pods: PodTable, list: seq<Pod>)
  {
    forall n :: n in pods && !pods[n].terminating && n in PodTableOf(list) ==> Fits(PodTableOf(list)[n], pods[n])
  }

  lemma GateSoundTables(spec: Spec, st: Store)
    requires ConfigMapsDistinct(Converter.DesiredConfigMaps(spec)) && PodsDistinct(Converter.DesiredPods(spec))
    ensures GateSound(spec, st)
        <==> ConfigMapsRight(st.configMaps, Converter.DesiredConfigMaps(spec)) && PodsRight(st.pods, Converter.DesiredPods(spec))
  {
    hide Fits, Converter.DesiredConfigMaps, Converter.DesiredPods;
    var cms, pods := Converter.DesiredConfigMaps(spec), Converter.DesiredPods(spec);
    TablesComeFromLists(cms, pods);
    forall d | d in cms ensures d.name in ConfigMapTableOf(cms) && ConfigMapTableOf(cms)[d.name] == d { ConfigMapTableHolds(cms, d); }
    forall d | d in pods ensures d.name in PodTableOf(pods) && PodTableOf(pods)[d.name] == d { PodTableHolds(pods, d); }
  }

  lemma FullyAppliedTables(spec: Spec, st: Store)
    ensures FullyApplied(spec, st)
        <==> && st.configMaps == ConfigMapTableOf(Converter.DesiredConfigMaps(spec))
             && PodsRight(st.pods, Converter.DesiredPods(spec))
             && (forall n :: n in st.pods && !st.pods[n].terminating ==> n in PodTableOf(Converter.DesiredPods(spec)))
  {
  }

  lemma ClosedGateConfigMaps(cms: ConfigMapTable, s: Snapshot, list: seq<ConfigMap>)
    requires s.configMaps == cms && !Gate(s)
    ensures SettledConfigMaps(cms, s, list) == ConfigMapTableOf(list) <==> ConfigMapsRight(cms, list)
  {
    var desired := ConfigMapTableOf(list);
    var after := SettledConfigMaps(cms, s, list);
    assert after.Keys == desired.Keys;
    assert forall n :: n in desired ==> after[n] == if n in cms then cms[n] else desired[n];
    if ConfigMapsRight(cms, list) {
      assert after == desired;
    }
  }

  lemma StoredFits(p: Pod)
    ensures Fits(p, Stored(p))
  {
  }

  /** Behind a closed gate a round leaves each pod as it is, ends the undesired ones and stores the
      missing ones. */
  lemma ClosedGatePodAt(pods: PodTable, s: Snapshot, list: seq<Pod>, n: string)
    requires s.pods == pods && !Gate(s)
    ensures n in SettledPods(pods, s, list) <==> n in pods || n in PodTableOf(list)
    ensures n in SettledPods(pods, s, list) && n !in pods ==> SettledPods(pods, s, list)[n] == Stored(PodTableOf(list)[n])
    ensures n in pods && n in PodTableOf(list) ==> SettledPods(pods, s, list)[n] == pods[n]
    ensures n in pods && n !in PodTableOf(list) ==> SettledPods(pods, s, list)[n] == pods[n].(terminating := true)
  {
    hide Stored;
    PodTableKeys(list);
    assert Condemned(s, list) == {};
    assert n in PodNames(list) <==> n in PodTableOf(list);
    hide PodNames, Condemned;
  }

  lemma ClosedGatePodsRight(pods: PodTable, s: Snapshot, list: seq<Pod>)
    requires s.pods == pods && !Gate(s)
    ensures PodsRight(SettledPods(pods, s, list), list) <==> PodsRight(pods, list)
  {
    hide Fits, SettledPods, Stored;
    var after := SettledPods(pods, s, list);
    forall n | n in PodTableOf(list)
      ensures n in after
      ensures n !in pods ==> Fits(PodTableOf(list)[n], after[n])
      ensures n in pods ==> after[n] == pods[n]
    {
      ClosedGatePodAt(pods, s, list, n);
      StoredFits(PodTableOf(list)[n]);
    }
  }

  lemma ClosedGatePods(pods: PodTable, s: Snapshot, list: seq<Pod>)
    requires s.pods == pods && !Gate(s)
    ensures PodsRight(SettledPods(pods, s, list), list) <==> PodsRight(pods, list)
    ensures forall n :: n in SettledPods(pods, s, list) && !SettledPods(pods, s, list)[n].terminating ==> n in PodTableOf(list)
    ensures SettledPods(pods, s, list).Keys == pods.Keys + PodNames(list)
    ensures forall n :: n in pods && n in PodTableOf(list) ==> SettledPods(pods, s, list)[n] == pods[n]
    ensures forall n :: n in SettledPods(pods, s, list) && n !in pods ==> !SettledPods(pods, s, list)[n].terminating
  {
    ClosedGatePodsRight(pods, s, list);
    hide SettledPods, PodsRight;
    var after := SettledPods(pods, s, list);
    PodTableKeys(list);
    forall n
      ensures n in after <==> n in pods || n in PodNames(list)
      ensures n in after && !after[n].terminating ==> n in PodTableOf(list)
      ensures n in pods && n in PodTableOf(list) ==> after[n] == pods[n]
      ensures n in after && n !in pods ==> !after[n].terminating
    {
      ClosedGatePodAt(pods, s, list, n);
    }
  }

  // ---- The second action pass converges ----

  ghost predicate NoneTerminating(pods: PodTable) { forall n :: n in pods ==> !pods[n].terminating }

  /** In a settled store an undisturbed acting pass finds its gate closed. */
  lemma SettledGate(cx: Context, specs: set<Spec>, spec: Spec, st: Store)
    requires Settled(cx, specs, spec, st)
    ensures !Gate(SnapshotOf(cx, st))
  {
    hide ChildrenFrom, FullyApplied, RevisionName, SelectConfigMaps, SelectPods, SelectRevisions;
  }

  lemma NothingLeftToDo(pods: PodTable, s: Snapshot, list: seq<Pod>)
    requires s.pods == pods && !Gate(s) && NoneTerminating(pods) && pods.Keys <= PodTableOf(list).Keys
    ensures SettledPods(pods, s, list).Keys == PodNames(list) && NoneTerminating(SettledPods(pods, s, list))
  {
    hide Fits, SettledPods;
    ClosedGatePods(pods, s, list);
    PodTableKeys(list);
    assert pods.Keys + PodNames(list) == PodNames(list);
  }

  lemma LivePodsAreDesired(spec: Spec, st: Store)
    requires FullyApplied(spec, st) && NoneTerminating(st.pods)
    ensures st.pods.Keys <= PodTableOf(Converter.DesiredPods(spec)).Keys
  {
    hide Fits;
  }

  lemma AppliedAndPresent(spec: Spec, st: Store)
    requires FullyApplied(spec, st) && NoneTerminating(st.pods) && st.pods.Keys == PodNames(Converter.DesiredPods(spec))
    ensures Converged(spec, st)
  {
    hide FullyApplied;
  }

  lemma SettledIsApplied(cx: Context, specs: set<Spec>, spec: Spec, st: Store)
    requires Settled(cx, specs, spec, st)
    ensures FullyApplied(spec, st) && st.cr.Some? && Active(st.cr.value) && st.cr.value.spec == spec
    ensures Sound(cx, specs, Point(st, Trail(Some(spec), {})))
  {
    hide FullyApplied, Sound;
  }

  /** Once the deleted pods are gone, an undisturbed acting pass over a settled store converges. */
  lemma SettledConverges(cx: Context, specs: set<Spec>, spec: Spec, st: Store, c: Choices)
    requires Admissible(cx, specs) && Settled(cx, specs, spec, st) && NoneTerminating(st.pods)
    requires StepAllowed(cx, specs, Point(st, Trail(Some(spec), {})), Passes([], c))
    requires PassFrom(cx, st, [], c).report.Acted?
    ensures Converged(spec, PassFrom(cx, st, [], c).world.store)
  {
    hide Pass, RevisionName, StepAllowed, AtHome, SettledConfigMaps, SettledPods, Admissible, Sound, Settled, FullyApplied, Converged,
         SelectConfigMaps, SelectPods, SelectRevisions, ConfigMapTableOf, PodTableOf, Possible, Gate, NoneTerminating;
    SettledPass(cx, specs, spec, st, [], c);
    SettledIsApplied(cx, specs, spec, st);
    SettledIsApplied(cx, specs, spec, PassFrom(cx, st, [], c).world.store);
    SettledGate(cx, specs, spec, st);
    QuietAct(cx, specs, Point(st, Trail(Some(spec), {})), c);
    LivePodsAreDesired(spec, st);
    NothingLeftToDo(st.pods, SnapshotOf(cx, st), Converter.DesiredPods(spec));
    AppliedAndPresent(spec, PassFrom(cx, st, [], c).world.store);
  }
}
