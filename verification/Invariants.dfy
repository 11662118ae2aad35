/** The theorems about arbitrary runs: where children can come from, when the current revision
    moves, and what a closed gate promises. */
module Invariants {
  import opened Types
  import opened Restart
  import opened Api
  import opened Observer
  import opened Updater
  import opened Reconciler
  import opened Controller
  import opened Protocol
  import opened Actions
  import opened Runs
  import opened Suspects
  import Converter

  /** A landed advance behind an open gate leaves its spec fully applied, through the revision
      bookkeeping that follows it and the environment's moves. */
  lemma LandedRoundApplies(cx: Context, w: World, s: Snapshot, c: Choices)
    requires Converter.WellFormed(s.cr.spec) && Possible(c, s) && Gate(s)
    requires s.configMaps == w.store.configMaps && PodsAge(s.pods, w.store.pods)
    requires AtHome(s, Converter.DesiredPods(s.cr.spec))
    requires Reconcile(w, s, Desired(s.cr.spec), c).reached
    ensures FullyApplied(s.cr.spec, Act(cx, w, s, c).world.store)
  {
    hide ApplyChildren, Act, FullyApplied, Call, ReplyTo, Landed, Possible, AtHome, PodsAge, Converter.WellFormed, Gate, CrDrifts,
         Converter.DesiredConfigMaps, Converter.DesiredPods;
    var children := ApplyChildren(w, s, Desired(s.cr.spec), c);
    OpenRoundApplies(cx, w, s, c);
    CallDrifts(children.world, AdvanceOp(s));
    var round := Reconcile(w, s, Desired(s.cr.spec), c);
    assert round.world == Call(children.world, AdvanceOp(s));
    AgedFullyApplied(s.cr.spec, children.world.store, round.world.store);
    BookkeepingAges(cx, w, s, c);
    AgedFullyApplied(s.cr.spec, round.world.store, Act(cx, w, s, c).world.store);
  }

  /** Recording and pruning revisions leave the children alone. */
  lemma BookkeepingAges(cx: Context, w: World, s: Snapshot, c: Choices)
    ensures var round := Reconcile(w, s, Desired(s.cr.spec), c);
            && Act(cx, w, s, c).world.store.configMaps == round.world.store.configMaps
            && PodsAge(round.world.store.pods, Act(cx, w, s, c).world.store.pods)
  {
    hide Reconcile, SyncRevisions, CleanupOldRevisions, Calls, Legit, PodsAge, CrDrifts;
    var round := Reconcile(w, s, Desired(s.cr.spec), c);
    var ops := AfterRoundCalls(cx, round.world, s, c);
    CallsDrift(round.world, ops);
  }

  lemma ActKeepsChildren(cx: Context, run: set<Spec>, suspects: set<Spec>, w: World, s: Snapshot, c: Choices)
    requires ChildrenFrom(run, suspects, w.store) && s.cr.spec in run
    ensures ChildrenFrom(run, suspects + {s.cr.spec}, Act(cx, w, s, c).world.store)
  {
    hide Act, Calls, Legit, ChildrenFrom;
    WiderChildren(run, suspects, suspects + {s.cr.spec}, w.store);
    var ops := ActCalls(cx, w, s, c);
    LegitCallsKeepChildren(cx, run, suspects + {s.cr.spec}, w, s, c, ops);
  }

  /** The gate is closed exactly when the observed spec is the one last applied. */
  lemma GateMeansNewSpec(cx: Context, specs: set<Spec>, t: Trail, s: Snapshot)
    requires Faithful(cx, specs) && s.cr.spec in specs && SuspectSpecs(t) <= specs
    requires CurrentIs(cx, t.applied, s.cr.status.currentRevision)
    requires s.cr.status.nextRevision == RevisionName(cx, s.cr.spec)
    ensures Gate(s) <==> t.applied != Some(s.cr.spec)
  {
    hide RevisionName;
    if t.applied.Some? { assert t.applied.value in SuspectSpecs(t); }
  }

  /** What a pass that acts on a sound point knows. */
  lemma ActsOnSound(cx: Context, specs: set<Spec>, pt: Point, script: seq<Turn>, c: Choices) returns (w: World)
    requires Admissible(cx, specs) && Sound(cx, specs, pt) && StepAllowed(cx, specs, pt, Passes(script, c))
    requires PassFrom(cx, pt.store, script, c).report.Acted?
    ensures var s := PassFrom(cx, pt.store, script, c).report.s;
            && PassFrom(cx, pt.store, script, c) == Act(cx, w, s, c)
            && s.cr.spec in specs && Possible(c, s) && pt.store.cr.Some?
            && s.cr.status == pt.store.cr.value.status.(nextRevision := RevisionName(cx, s.cr.spec))
            && s.configMaps == pt.store.configMaps == w.store.configMaps
            && PodsAge(pt.store.pods, s.pods) && PodsAge(s.pods, w.store.pods)
            && AtHome(s, Converter.DesiredPods(s.cr.spec))
            && ChildrenFrom(specs, SuspectSpecs(pt.trail), w.store)
            && ChildrenFrom(specs, SuspectSpecs(pt.trail), pt.store.(pods := s.pods))
            && s.revisions == SelectRevisions(pt.store.revisions, RevisionSelector(cx))
            && w.store.revisions == pt.store.revisions
            && Active(s.cr) && w == ObserveAll(cx, World(pt.store, script, [])).0
  {
    hide Pass, Act, ObserveAll, ChildrenFrom, Selects, Derive, StatusChanged, FactsOf;
    var read, listed;
    w, read, listed := ActedFacts(cx, pt.store, script, c);
    var s := PassFrom(cx, pt.store, script, c).report.s;
    SpecRead(cx, specs, pt.store, script, c);
    SnapshotOfSound(cx, specs, SuspectSpecs(pt.trail), pt.store, s, w.store, read, listed);
    PodsAgeOn(pt.store.pods, s.pods, w.store.pods);
    DriftKeepsChildren(specs, SuspectSpecs(pt.trail), pt.store, w.store);
  }

  lemma ActingPassKeepsSound(cx: Context, specs: set<Spec>, pt: Point, script: seq<Turn>, c: Choices)
    requires Admissible(cx, specs) && Sound(cx, specs, pt) && StepAllowed(cx, specs, pt, Passes(script, c))
    requires PassFrom(cx, pt.store, script, c).report.Acted?
    ensures Sound(cx, specs, After(cx, pt, Passes(script, c)))
    ensures var r := PassFrom(cx, pt.store, script, c);
            Gate(r.report.s) && r.report.landed ==> FullyApplied(r.report.s.cr.spec, r.world.store)
  {
    hide Pass, PassFrom, ChildrenFrom, SelectRevisions, AtHome, Act, RevisionName, FullyApplied, Faithful, SameHomes,
         Converter.WellFormed, Possible, PodsAge, StatusStep, Active;
    var w := ActsOnSound(cx, specs, pt, script, c);
    var r := PassFrom(cx, pt.store, script, c);
    var s := r.report.s;
    SpecRead(cx, specs, pt.store, script, c);
    GateMeansNewSpec(cx, specs, pt.trail, s);
    ActKeepsChildren(cx, specs, SuspectSpecs(pt.trail), w, s, c);
    ActedRevision(cx, pt.store, script, c);
    NotedSuspects(pt.trail, r.report);
    if Gate(s) && r.report.landed {
      ActLandsWhenReached(cx, w, s, c);
      LandedRoundApplies(cx, w, s, c);
      ChildrenKnown(specs, SuspectSpecs(pt.trail) + {s.cr.spec}, r.world.store);
      FullyAppliedHasOneSuspect(specs, s.cr.spec, r.world.store);
    } else if !Gate(s) {
      assert SuspectSpecs(pt.trail) + {s.cr.spec} == SuspectSpecs(pt.trail);
    }
  }

  /** How a pass that acts moves the suspects. */
  lemma NotedSuspects(t: Trail, report: Report)
    requires report.Acted?
    ensures !Gate(report.s) ==> Noted(t, report) == t
    ensures Gate(report.s) && report.landed ==> SuspectSpecs(Noted(t, report)) == {report.s.cr.spec}
    ensures Gate(report.s) && !report.landed ==> SuspectSpecs(Noted(t, report)) == SuspectSpecs(t) + {report.s.cr.spec}
  {
    hide Gate;
  }

  /** The current revision that a pass that acts leaves. */
  lemma ActedRevision(cx: Context, st: Store, script: seq<Turn>, c: Choices)
    requires PassFrom(cx, st, script, c).report.Acted?
    ensures var r := PassFrom(cx, st, script, c);
            r.world.store.cr.Some? ==>
              && st.cr.Some?
              && r.world.store.cr.value.status.currentRevision
                   == if r.report.landed then RevisionName(cx, r.report.s.cr.spec) else st.cr.value.status.currentRevision
  {
    hide PassFrom, RevisionName, Derive, FactsOf;
    PassCr(cx, st, script, c);
  }

  /** A pass that does not act leaves the revisions and the current revision alone. */
  lemma IdleKeepsCurrent(cx: Context, st: Store, script: seq<Turn>, c: Choices)
    requires !PassFrom(cx, st, script, c).report.Acted?
    ensures var later := PassFrom(cx, st, script, c).world.store;
            && later.revisions == st.revisions
            && (later.cr.Some? ==>
                  st.cr.Some? && later.cr.value.status.currentRevision == st.cr.value.status.currentRevision)
  {
    hide Pass, FactsOf, PodsAge, NextState;
    IdlePass(cx, st, script, c);
    PassCr(cx, st, script, c);
  }

  lemma ActLandsWhenReached(cx: Context, w: World, s: Snapshot, c: Choices)
    ensures Act(cx, w, s, c).report.Acted?
    ensures Act(cx, w, s, c).report.landed ==> Reconcile(w, s, Desired(s.cr.spec), c).reached
  {
    hide ApplyChildren, Landed, ReplyTo, Call, SyncRevisions, CleanupOldRevisions;
  }

  lemma ChildrenKnown(run: set<Spec>, suspects: set<Spec>, st: Store)
    requires ChildrenFrom(run, suspects, st)
    ensures forall n :: n in st.pods ==> Known(run, st.pods[n])
  {
  }

  lemma IdlePassKeepsSound(cx: Context, specs: set<Spec>, pt: Point, script: seq<Turn>, c: Choices)
    requires Sound(cx, specs, pt) && ScriptWithin(specs, script)
    requires !PassFrom(cx, pt.store, script, c).report.Acted?
    ensures Sound(cx, specs, After(cx, pt, Passes(script, c)))
    ensures var r := PassFrom(cx, pt.store, script, c);
            r.world.store.cr.Some? ==>
              pt.store.cr.Some? && r.world.store.cr.value.status.currentRevision == pt.store.cr.value.status.currentRevision
  {
    hide Pass, ChildrenFrom, FactsOf;
    IdlePass(cx, pt.store, script, c);
    PassCr(cx, pt.store, script, c);
    SpecRead(cx, specs, pt.store, script, c);
    DriftKeepsChildren(specs, SuspectSpecs(pt.trail), pt.store, PassFrom(cx, pt.store, script, c).world.store);
  }

  lemma EventKeepsSound(cx: Context, specs: set<Spec>, pt: Point, e: Event)
    requires Sound(cx, specs, pt) && EditsWithin(specs, e)
    ensures Sound(cx, specs, Point(Occur(pt.store, e), pt.trail))
  {
    hide ChildrenFrom;
    OccurDrifts(pt.store, e);
    DriftKeepsChildren(specs, SuspectSpecs(pt.trail), pt.store, Occur(pt.store, e));
  }

  /** Every allowed step keeps the invariant, whatever fails in it. */
  lemma StepKeepsSound(cx: Context, specs: set<Spec>, pt: Point, step: Step)
    requires Admissible(cx, specs) && Sound(cx, specs, pt) && StepAllowed(cx, specs, pt, step)
    ensures Sound(cx, specs, After(cx, pt, step))
  {
    hide Pass, Sound, Admissible, Possible;
    match step
    case Happens(e) => EventKeepsSound(cx, specs, pt, e);
    case Passes(script, c) =>
      if PassFrom(cx, pt.store, script, c).report.Acted? {
        ActingPassKeepsSound(cx, specs, pt, script, c);
      } else {
        IdlePassKeepsSound(cx, specs, pt, script, c);
      }
  }

  lemma RunAllowedPrefix(cx: Context, specs: set<Spec>, pt: Point, steps: seq<Step>)
    requires RunAllowed(cx, specs, pt, steps) && steps != []
    ensures RunAllowed(cx, specs, pt, steps[..|steps| - 1])
    ensures StepAllowed(cx, specs, Run(cx, pt, steps[..|steps| - 1]), steps[|steps| - 1])
  {
    hide StepAllowed, Run;
    var front := steps[..|steps| - 1];
    forall i | 0 <= i < |front| ensures StepAllowed(cx, specs, Run(cx, pt, front[..i]), front[i]) {
      assert front[..i] == steps[..i];
    }
  }

  lemma Extend(cx: Context, specs: set<Spec>, pt: Point, steps: seq<Step>, step: Step)
    requires RunAllowed(cx, specs, pt, steps) && StepAllowed(cx, specs, Run(cx, pt, steps), step)
    ensures RunAllowed(cx, specs, pt, steps + [step])
    ensures Run(cx, pt, steps + [step]) == After(cx, Run(cx, pt, steps), step)
  {
    hide StepAllowed, After;
    var all := steps + [step];
    assert all[..|steps|] == steps;
    forall i | 0 <= i < |all| ensures StepAllowed(cx, specs, Run(cx, pt, all[..i]), all[i]) {
      if i < |steps| { assert all[..i] == steps[..i]; }
    }
  }

  /** Runs compose. */
  lemma {:induction false} RunCompose(cx: Context, specs: set<Spec>, pt: Point, a: seq<Step>, b: seq<Step>)
    ensures Run(cx, pt, a + b) == Run(cx, Run(cx, pt, a), b)
    ensures RunAllowed(cx, specs, pt, a) && RunAllowed(cx, specs, Run(cx, pt, a), b) ==> RunAllowed(cx, specs, pt, a + b)
    decreases |b|
  {
    hide StepAllowed, After, RunAllowed;
    if b == [] {
      assert a + b == a;
    } else {
      var front, last := b[..|b| - 1], b[|b| - 1];
      RunCompose(cx, specs, pt, a, front);
      assert (a + b)[..|a + b| - 1] == a + front;
      if RunAllowed(cx, specs, pt, a) && RunAllowed(cx, specs, Run(cx, pt, a), b) {
        RunAllowedPrefix(cx, specs, Run(cx, pt, a), b);
        Extend(cx, specs, pt, a + front, last);
        assert a + front + [last] == a + b;
      }
    }
  }

  lemma {:induction false} RunKeepsSound(cx: Context, specs: set<Spec>, pt: Point, steps: seq<Step>)
    requires Admissible(cx, specs) && Sound(cx, specs, pt) && RunAllowed(cx, specs, pt, steps)
    ensures Sound(cx, specs, Run(cx, pt, steps))
  {
    hide After, Sound, Admissible, StepAllowed;
    if steps != [] {
      RunAllowedPrefix(cx, specs, pt, steps);
      RunKeepsSound(cx, specs, pt, steps[..|steps| - 1]);
      StepKeepsSound(cx, specs, Run(cx, pt, steps[..|steps| - 1]), steps[|steps| - 1]);
    }
  }

  lemma EmptyIsSound(cx: Context, specs: set<Spec>, spec: Spec, finalizers: set<string>, secret: bool)
    requires spec in specs
    ensures Sound(cx, specs, Empty(spec, finalizers, secret))
  {
  }

  /** Failure-tolerant run invariant: over any run from an empty namespace, with any call failing
      and any edits, every stored ConfigMap and every live pod matches the spec last applied in
      full or one attempted since, and the current revision is that of the spec last applied. */
  lemma ChildrenComeFromSuspects(cx: Context, specs: set<Spec>, spec: Spec, finalizers: set<string>, secret: bool, steps: seq<Step>)
    requires Admissible(cx, specs) && spec in specs && RunAllowed(cx, specs, Empty(spec, finalizers, secret), steps)
    ensures Sound(cx, specs, Run(cx, Empty(spec, finalizers, secret), steps))
  {
    hide Admissible, RunAllowed, Run;
    EmptyIsSound(cx, specs, spec, finalizers, secret);
    RunKeepsSound(cx, specs, Empty(spec, finalizers, secret), steps);
  }

  /** Truthful advance: whatever fails and whatever is edited in between, a pass moves the stored
      current revision only to the revision of the spec it acted on, only when all its ConfigMap
      and pod steps succeeded, and then exactly that spec's children are in place. */
  lemma AdvanceIsTruthful(cx: Context, specs: set<Spec>, pt: Point, script: seq<Turn>, c: Choices)
    requires Admissible(cx, specs) && Sound(cx, specs, pt) && StepAllowed(cx, specs, pt, Passes(script, c))
    ensures var r := PassFrom(cx, pt.store, script, c);
            pt.store.cr.Some? && r.world.store.cr.Some?
            && r.world.store.cr.value.status.currentRevision != pt.store.cr.value.status.currentRevision ==>
              && r.report.Acted? && r.report.reached && r.report.landed
              && r.world.store.cr.value.status.currentRevision == RevisionName(cx, r.report.s.cr.spec)
              && FullyApplied(r.report.s.cr.spec, r.world.store)
  {
    hide Pass, ChildrenFrom, RevisionName, FullyApplied, Faithful, Derive, FactsOf, Admissible;
    var r := PassFrom(cx, pt.store, script, c);
    if r.report.Acted? {
      PassCr(cx, pt.store, script, c);
      ActingPassKeepsSound(cx, specs, pt, script, c);
    } else {
      IdlePassKeepsSound(cx, specs, pt, script, c);
    }
  }

  /** Gate soundness: when nothing has been attempted since the current revision but the spec it
      names, every present ConfigMap of a desired name is the desired one and every live pod of
      a desired name fits. */
  lemma ClosedGateIsSound(cx: Context, specs: set<Spec>, pt: Point)
    requires Admissible(cx, specs) && Sound(cx, specs, pt) && pt.store.cr.Some?
    requires pt.store.cr.value.status.currentRevision == RevisionName(cx, pt.store.cr.value.spec)
    requires pt.trail.attempted <= {pt.store.cr.value.spec}
    ensures GateSound(pt.store.cr.value.spec, pt.store)
  {
    var spec := pt.store.cr.value.spec;
    assert pt.trail.applied == Some(spec) by {
      hide RevisionName;
      if pt.trail.applied.Some? { assert pt.trail.applied.value in SuspectSpecs(pt.trail); }
    }
    assert SuspectSpecs(pt.trail) == {spec};
    OneSuspectIsSound(specs, spec, pt.store);
  }

  /** Nothing stored under a desired name contradicts the spec. */
  ghost predicate GateSound(spec: Spec, st: Store)
  {
    && (forall d :: d in Converter.DesiredConfigMaps(spec) && d.name in st.configMaps ==> st.configMaps[d.name] == d)
    && (forall d :: d in Converter.DesiredPods(spec) && d.name in st.pods && !st.pods[d.name].terminating ==>
          Fits(d, st.pods[d.name]))
  }

  lemma OneSuspectIsSound(run: set<Spec>, spec: Spec, st: Store)
    requires ChildrenFrom(run, {spec}, st) && Converter.WellFormed(spec)
    ensures GateSound(spec, st)
  {
    DesiredListsDistinct(spec);
    hide PodFrom, ConfigMapFrom, Fits, Known, Converter.WellFormed, Converter.DesiredConfigMaps, Converter.DesiredPods, PodsDistinct, ConfigMapsDistinct;
    forall d | d in Converter.DesiredConfigMaps(spec) && d.name in st.configMaps ensures st.configMaps[d.name] == d {
      OneSuspectConfigMap(spec, d, st.configMaps[d.name]);
    }
    forall d | d in Converter.DesiredPods(spec) && d.name in st.pods && !st.pods[d.name].terminating
      ensures Fits(d, st.pods[d.name])
    {
      OneSuspectPod(spec, d, st.pods[d.name]);
    }
  }

  lemma OneSuspectConfigMap(spec: Spec, d: ConfigMap, cm: ConfigMap)
    requires ConfigMapsDistinct(Converter.DesiredConfigMaps(spec)) && d in Converter.DesiredConfigMaps(spec)
    requires ConfigMapFrom({spec}, cm) && d.name == cm.name
    ensures cm == d
  {
  }

  lemma OneSuspectPod(spec: Spec, d: Pod, p: Pod)
    requires PodsDistinct(Converter.DesiredPods(spec)) && d in Converter.DesiredPods(spec)
    requires PodFrom({spec}, p) && d.name == p.name
    ensures Fits(d, p)
  {
    hide Fits;
    var e :| e in Converter.DesiredPods(spec) && e.name == p.name && Fits(e, p);
    assert e == d;
  }
}
