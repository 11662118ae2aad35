/** Convergence over runs: with the spec left alone, what two action passes achieve while pods
    start, stop and terminate, calls fail and pods are evicted around them. */
module RunsConverge {
  import opened Types
  import opened Restart
  import opened Api
  import opened Observer
  import opened Updater
  import opened Reconciler
  import opened Controller
  import opened Protocol
  import opened Runs
  import opened Suspects
  import opened Invariants
  import opened Quiet
  import opened StatusMachine
  import opened Convergence
  import opened Stability
  import opened Deletion
  import Converter

  // ---- Steps that leave the resource alone ----

  /** Nothing in the step edits or deletes the resource; calls may fail, pods may be evicted. */
  ghost predicate CalmStep(step: Step)
  {
    match step
    case Happens(e) => Calm(e)
    case Passes(script, _) => CalmScript(script)
  }

  /** Nor does anything in it evict a pod: pods only change phase or finish terminating. */
  ghost predicate GentleStep(step: Step)
  {
    match step
    case Happens(e) => Gentle(e)
    case Passes(script, _) => GentleScript(script)
  }

  ghost predicate CalmRun(steps: seq<Step>) { forall i :: 0 <= i < |steps| ==> CalmStep(steps[i]) }

  ghost predicate GentleRun(steps: seq<Step>) { forall i :: 0 <= i < |steps| ==> GentleStep(steps[i]) }

  lemma AllowedWhateverTheTrail(cx: Context, specs: set<Spec>, st: Store, t: Trail, u: Trail, step: Step)
    requires StepAllowed(cx, specs, Point(st, t), step)
    ensures StepAllowed(cx, specs, Point(st, u), step)
  {
    hide Pass, Possible;
  }

  // ---- Settled through calm runs ----

  lemma SettledStep(cx: Context, specs: set<Spec>, spec: Spec, pt: Point, step: Step)
    requires Admissible(cx, specs) && Settled(cx, specs, spec, pt.store) && CalmStep(step) && StepAllowed(cx, specs, pt, step)
    ensures Settled(cx, specs, spec, After(cx, pt, step).store)
  {
    hide Pass, Settled, Admissible, CalmScript, Occur;
    AllowedWhateverTheTrail(cx, specs, pt.store, pt.trail, Trail(Some(spec), {}), step);
    match step
    case Happens(e) => SettledEvent(cx, specs, spec, pt.store, e);
    case Passes(script, c) => SettledPass(cx, specs, spec, pt.store, script, c);
  }

  /** A fully applied spec stays so over any run that leaves the resource alone. */
  lemma {:induction false} CalmRunKeepsSettled(cx: Context, specs: set<Spec>, spec: Spec, pt: Point, steps: seq<Step>)
    requires Admissible(cx, specs) && Settled(cx, specs, spec, pt.store) && CalmRun(steps) && RunAllowed(cx, specs, pt, steps)
    ensures Settled(cx, specs, spec, Run(cx, pt, steps).store)
  {
    hide After, Settled, Admissible, StepAllowed, RunAllowed, CalmStep;
    if steps != [] {
      RunAllowedPrefix(cx, specs, pt, steps);
      CalmRunKeepsSettled(cx, specs, spec, pt, steps[..|steps| - 1]);
      SettledStep(cx, specs, spec, Run(cx, pt, steps[..|steps| - 1]), steps[|steps| - 1]);
    }
  }

  // ---- At rest through gentle runs ----

  lemma RestEvent(cx: Context, specs: set<Spec>, spec: Spec, st: Store, e: Event)
    requires AtRest(cx, specs, spec, st) && Gentle(e)
    ensures AtRest(cx, specs, spec, Occur(st, e))
    ensures Occur(st, e).configMaps == st.configMaps && Steady(st.pods, Occur(st, e).pods)
  {
    hide Settled, Converged;
    ConvergedParts(spec, st);
    SettledEvent(cx, specs, spec, st, e);
    SettledIsApplied(cx, specs, spec, Occur(st, e));
    GentleEvents(st, [e]);
    OneHappens(st, e);
    SteadyKeepsConverged(spec, st, Occur(st, e));
  }

  lemma OneHappens(st: Store, e: Event)
    ensures Happen(st, [e]) == Occur(st, e)
  {
    assert [e][1..] == [];
  }

  lemma RestStep(cx: Context, specs: set<Spec>, spec: Spec, pt: Point, step: Step)
    requires Admissible(cx, specs) && AtRest(cx, specs, spec, pt.store) && GentleStep(step) && StepAllowed(cx, specs, pt, step)
    ensures var after := After(cx, pt, step).store;
            AtRest(cx, specs, spec, after) && after.configMaps == pt.store.configMaps && Steady(pt.store.pods, after.pods)
  {
    hide Pass, AtRest, Admissible, GentleScript, Occur, Steady;
    AllowedWhateverTheTrail(cx, specs, pt.store, pt.trail, Trail(Some(spec), {}), step);
    match step
    case Happens(e) => RestEvent(cx, specs, spec, pt.store, e);
    case Passes(script, c) => ConvergedPass(cx, specs, spec, pt.store, script, c);
  }

  /** Converged for good, over runs: while nothing edits, deletes or evicts, with any call failing,
      the ConfigMaps never change and the pods only change phase. */
  lemma {:induction false} GentleRunKeepsRest(cx: Context, specs: set<Spec>, spec: Spec, pt: Point, steps: seq<Step>)
    requires Admissible(cx, specs) && AtRest(cx, specs, spec, pt.store) && GentleRun(steps) && RunAllowed(cx, specs, pt, steps)
    ensures var end := Run(cx, pt, steps).store;
            AtRest(cx, specs, spec, end) && end.configMaps == pt.store.configMaps && Steady(pt.store.pods, end.pods)
  {
    hide After, AtRest, Admissible, StepAllowed, RunAllowed, GentleStep;
    if steps != [] {
      var mid := Run(cx, pt, steps[..|steps| - 1]);
      RunAllowedPrefix(cx, specs, pt, steps);
      GentleRunKeepsRest(cx, specs, spec, pt, steps[..|steps| - 1]);
      RestStep(cx, specs, spec, mid, steps[|steps| - 1]);
      SteadyOn(pt.store.pods, mid.store.pods, Run(cx, pt, steps).store.pods);
    }
  }

  // ---- A wrong child behind a closed gate stays through gentle runs ----

  /** The gate is closed on this spec and something stored under a desired name is wrong. */
  ghost predicate StuckWrong(cx: Context, spec: Spec, st: Store)
  {
    && st.cr.Some? && Active(st.cr.value) && st.cr.value.spec == spec
    && !Open(cx, st) && !GateSound(spec, st)
  }

  lemma {:induction false} ConfigMapStays(w: World, ops: seq<Op>, n: string)
    requires n in w.store.configMaps
    requires forall op :: op in ops ==> !op.UpdateConfigMap? && (op.DeleteConfigMap? ==> op.name != n)
    ensures n in Calls(w, ops).store.configMaps && Calls(w, ops).store.configMaps[n] == w.store.configMaps[n]
    decreases |ops|
  {
    if ops != [] {
      assert ops[0] in ops;
      var before := CallParts(w, ops[0]);
      hide Call, Happen, PodsAge, ApplyToPods, ApplyToRevisions;
      ConfigMapStays(Call(w, ops[0]), ops[1..], n);
    }
  }

  /** The pod is there, live, and the same but for its phase. */
  predicate SameLivePod(n: string, p: Pod, pods: PodTable)
  {
    n in pods && pods[n] == p.(phase := pods[n].phase) && !p.terminating
  }

  lemma {:induction false} PodStaysThroughEvents(st: Store, events: seq<Event>, n: string, p: Pod)
    requires SameLivePod(n, p, st.pods) && forall k :: 0 <= k < |events| ==> Gentle(events[k])
    ensures SameLivePod(n, p, Happen(st, events).pods)
    decreases |events|
  {
    if events != [] {
      assert Gentle(events[0]);
      PodStaysThroughEvents(Occur(st, events[0]), events[1..], n, p);
    }
  }

  lemma PodStaysThroughCall(w: World, op: Op, n: string, p: Pod)
    requires SameLivePod(n, p, w.store.pods) && GentleScript(w.script) && (op.DeletePod? ==> op.name != n)
    ensures SameLivePod(n, p, Call(w, op).store.pods) && GentleScript(Call(w, op).script)
  {
    if w.script != [] {
      assert forall k :: 0 <= k < |w.script[0].before| ==> Gentle(w.script[0].before[k]);
      assert forall i :: 0 <= i < |w.script[1..]| ==> w.script[1..][i] == w.script[i + 1];
    }
    PodStaysThroughEvents(w.store, NextTurn(w).before, n, p);
    var before := CallParts(w, op);
    ApplySparesPod(before.pods, op, n, p);
    ScriptShifts(w, op);
    hide Happen, Call, PodsAge, ApplyToConfigMaps, ApplyToRevisions, ApplyToPods, SameLivePod;
  }

  lemma ScriptShifts(w: World, op: Op)
    ensures Call(w, op).script == if w.script == [] then [] else w.script[1..]
  {
    hide Apply, Happen;
  }

  lemma ApplySparesPod(t: PodTable, op: Op, n: string, p: Pod)
    requires SameLivePod(n, p, t) && (op.DeletePod? ==> op.name != n)
    ensures SameLivePod(n, p, ApplyToPods(t, op))
  {
    hide Stored;
  }

  lemma {:induction false} PodStays(w: World, ops: seq<Op>, n: string, p: Pod)
    requires SameLivePod(n, p, w.store.pods) && GentleScript(w.script)
    requires forall op :: op in ops && op.DeletePod? ==> op.name != n
    ensures SameLivePod(n, p, Calls(w, ops).store.pods)
    decreases |ops|
  {
    hide Call, GentleScript, SameLivePod;
    if ops != [] {
      assert ops[0] in ops;
      PodStaysThroughCall(w, ops[0], n, p);
      PodStays(Call(w, ops[0]), ops[1..], n, p);
    }
  }

  /** Behind a closed gate a pass neither updates a ConfigMap nor deletes anything desired. */
  lemma ClosedGateSpares(cx: Context, s: Snapshot, c: Choices, op: Op)
    requires !Gate(s) && (WritesChildren(op) ==> Legit(cx, s, c, op))
    ensures !op.UpdateConfigMap?
    ensures op.DeleteConfigMap? ==> op.name !in ConfigMapNames(Converter.DesiredConfigMaps(s.cr.spec))
    ensures op.DeletePod? ==> op.name !in PodNames(Converter.DesiredPods(s.cr.spec))
  {
  }

  /** The gate that a pass over this store finds, when nothing edits the resource meanwhile. */
  lemma FindsGateClosed(cx: Context, st: Store, script: seq<Turn>, c: Choices)
    requires st.cr.Some? && Active(st.cr.value) && !Open(cx, st) && CalmScript(script)
    requires PassFrom(cx, st, script, c).report.Acted?
    ensures !Gate(PassFrom(cx, st, script, c).report.s)
    ensures PassFrom(cx, st, script, c).report.s.cr.spec == st.cr.value.spec
  {
    hide Pass, CalmScript, RevisionName, Act, ObserveAll, Derive, StatusChanged, FactsOf, PodsAge, CrDrifts;
    CalmPass(cx, st, script, c);
    var w, read, listed := ActedFacts(cx, st, script, c);
    ReadStatus(cx, st, PassFrom(cx, st, script, c).report.s, w.store, read, listed);
  }

  /** What a pass over a store with a closed gate calls. */
  lemma ClosedGateCalls(cx: Context, st: Store, script: seq<Turn>, c: Choices) returns (ops: seq<Op>)
    requires st.cr.Some? && Active(st.cr.value) && !Open(cx, st) && CalmScript(script)
    ensures PassFrom(cx, st, script, c).world == Calls(World(st, script, []), ops)
    ensures forall op :: op in ops ==>
              && !op.UpdateConfigMap?
              && (op.DeleteConfigMap? ==> op.name !in ConfigMapNames(Converter.DesiredConfigMaps(st.cr.value.spec)))
              && (op.DeletePod? ==> op.name !in PodNames(Converter.DesiredPods(st.cr.value.spec)))
  {
    hide Pass, PassFrom, CalmScript, Calls, Legit, Gate, Open, ConfigMapNames, PodNames;
    ops := PassWrites(cx, st, script, c);
    var report := PassFrom(cx, st, script, c).report;
    if report.Acted? {
      FindsGateClosed(cx, st, script, c);
      forall op | op in ops
        ensures !op.UpdateConfigMap?
        ensures op.DeleteConfigMap? ==> op.name !in ConfigMapNames(Converter.DesiredConfigMaps(st.cr.value.spec))
        ensures op.DeletePod? ==> op.name !in PodNames(Converter.DesiredPods(st.cr.value.spec))
      {
        ClosedGateSpares(cx, report.s, c, op);
      }
    }
  }

  lemma PhaseDoesNotFit(d: Pod, p: Pod, q: Pod)
    requires q == p.(phase := q.phase)
    ensures Fits(d, q) <==> Fits(d, p)
  {
  }

  /** What is wrong before the calls is wrong after them. */
  lemma WrongAfterCalls(spec: Spec, w: World, ops: seq<Op>)
    requires !GateSound(spec, w.store) && GentleScript(w.script)
    requires forall op :: op in ops ==>
               && !op.UpdateConfigMap?
               && (op.DeleteConfigMap? ==> op.name !in ConfigMapNames(Converter.DesiredConfigMaps(spec)))
               && (op.DeletePod? ==> op.name !in PodNames(Converter.DesiredPods(spec)))
    ensures !GateSound(spec, Calls(w, ops).store)
  {
    hide Fits, Calls, GentleScript;
    var later := Calls(w, ops).store;
    if d :| d in Converter.DesiredConfigMaps(spec) && d.name in w.store.configMaps && w.store.configMaps[d.name] != d {
      assert d.name in ConfigMapNames(Converter.DesiredConfigMaps(spec));
      ConfigMapStays(w, ops, d.name);
      assert later.configMaps[d.name] != d;
    } else {
      var d :| d in Converter.DesiredPods(spec) && d.name in w.store.pods && !w.store.pods[d.name].terminating
               && !Fits(d, w.store.pods[d.name]);
      assert d.name in PodNames(Converter.DesiredPods(spec));
      PodStays(w, ops, d.name, w.store.pods[d.name]);
      PhaseDoesNotFit(d, w.store.pods[d.name], later.pods[d.name]);
    }
  }

  /** The gate stays closed through a pass that nothing edits around. */
  lemma StaysClosed(cx: Context, st: Store, script: seq<Turn>, c: Choices)
    requires st.cr.Some? && Active(st.cr.value) && !Open(cx, st) && CalmScript(script)
    ensures var later := PassFrom(cx, st, script, c).world.store;
            later.cr.Some? && Active(later.cr.value) && later.cr.value.spec == st.cr.value.spec && !Open(cx, later)
  {
    hide Pass, PassFrom, CalmScript, RevisionName;
    CalmPass(cx, st, script, c);
    if PassFrom(cx, st, script, c).report.Acted? {
      ActedRevision(cx, st, script, c);
    } else {
      IdleKeepsCurrent(cx, st, script, c);
    }
  }

  lemma StuckPass(cx: Context, spec: Spec, st: Store, script: seq<Turn>, c: Choices)
    requires StuckWrong(cx, spec, st) && GentleScript(script)
    ensures StuckWrong(cx, spec, PassFrom(cx, st, script, c).world.store)
  {
    hide PassFrom, GentleScript, CalmScript, GateSound, Calls, Open, ConfigMapNames, PodNames;
    GentleIsCalm(script);
    StaysClosed(cx, st, script, c);
    var ops := ClosedGateCalls(cx, st, script, c);
    WrongAfterCalls(spec, World(st, script, []), ops);
  }

  lemma StuckEvent(cx: Context, spec: Spec, st: Store, e: Event)
    requires StuckWrong(cx, spec, st) && Gentle(e)
    ensures StuckWrong(cx, spec, Occur(st, e))
  {
    hide Fits, RevisionName;
    var later := Occur(st, e);
    OccurDrifts(st, e);
    assert later.cr == st.cr;
    if forall d :: d in Converter.DesiredConfigMaps(spec) && d.name in st.configMaps ==> st.configMaps[d.name] == d {
      var d :| d in Converter.DesiredPods(spec) && d.name in st.pods && !st.pods[d.name].terminating && !Fits(d, st.pods[d.name]);
      PodStaysThroughEvents(st, [e], d.name, st.pods[d.name]);
      OneHappens(st, e);
      PhaseDoesNotFit(d, st.pods[d.name], later.pods[d.name]);
    }
  }

  /** Behind a closed gate a wrong child stays wrong over any run without edits and evictions,
      whatever fails in it. */
  lemma {:induction false} GentleRunStaysWrong(cx: Context, spec: Spec, pt: Point, steps: seq<Step>)
    requires StuckWrong(cx, spec, pt.store) && GentleRun(steps)
    ensures StuckWrong(cx, spec, Run(cx, pt, steps).store)
  {
    hide Pass, StuckWrong, Occur, Gentle, GentleScript;
    if steps != [] {
      var mid, step := Run(cx, pt, steps[..|steps| - 1]), steps[|steps| - 1];
      GentleRunStaysWrong(cx, spec, pt, steps[..|steps| - 1]);
      assert GentleStep(step);
      match step {
        case Happens(e) => StuckEvent(cx, spec, mid.store, e);
        case Passes(script, c) => StuckPass(cx, spec, mid.store, script, c);
      }
    }
  }

  // ---- The theorem ----

  /** An undisturbed pass that acts may be taken here. */
  ghost predicate ActsHere(cx: Context, st: Store, c: Choices)
  {
    PassFrom(cx, st, [], c).report.Acted? && StepPossible(cx, st, c)
  }

  lemma EmptyScriptIsGentle()
    ensures GentleScript([]) && CalmScript([])
  {
  }

  lemma ActsIsAllowed(cx: Context, specs: set<Spec>, pt: Point, c: Choices)
    requires ActsHere(cx, pt.store, c)
    ensures StepAllowed(cx, specs, pt, Passes([], c))
  {
    hide Pass;
    PossibleIsAllowed(cx, specs, pt, c);
  }

  /** From right: the first action pass settles, and the second converges for good. */
  lemma RightRunsConverge(cx: Context, specs: set<Spec>, pt: Point, c0: Choices, between: seq<Step>, c1: Choices, later: seq<Step>)
    requires Admissible(cx, specs) && Sound(cx, specs, pt) && pt.store.cr.Some? && Active(pt.store.cr.value)
    requires Open(cx, pt.store) || GateSound(pt.store.cr.value.spec, pt.store)
    requires ActsHere(cx, pt.store, c0)
    requires var p1 := After(cx, pt, Passes([], c0)); RunAllowed(cx, specs, p1, between) && CalmRun(between)
    requires var p2 := Run(cx, After(cx, pt, Passes([], c0)), between);
             NoneTerminating(p2.store.pods) && ActsHere(cx, p2.store, c1)
    requires var p3 := After(cx, Run(cx, After(cx, pt, Passes([], c0)), between), Passes([], c1));
             RunAllowed(cx, specs, p3, later) && GentleRun(later)
    ensures var spec := pt.store.cr.value.spec;
            var p3 := After(cx, Run(cx, After(cx, pt, Passes([], c0)), between), Passes([], c1));
            var end := Run(cx, p3, later).store;
            && AtRest(cx, specs, spec, p3.store) && AtRest(cx, specs, spec, end)
            && end.configMaps == p3.store.configMaps && Steady(p3.store.pods, end.pods)
  {
    hide Pass, Admissible, Sound, Open, GateSound, Active, RunAllowed, CalmRun, GentleRun, Run, Settled, Converged, Steady,
         NoneTerminating, StepPossible, StepAllowed, ActsHere, SnapshotOf, Gate, Noted;
    var spec := pt.store.cr.value.spec;
    ActsIsAllowed(cx, specs, pt, c0);
    ActsHereActs(cx, pt.store, c0);
    OpenIsGate(cx, pt.store);
    ActionSettles(cx, specs, pt, c0);
    var p1 := After(cx, pt, Passes([], c0));
    CalmRunKeepsSettled(cx, specs, spec, p1, between);
    var p2 := Run(cx, p1, between);
    ActsIsAllowed(cx, specs, Point(p2.store, Trail(Some(spec), {})), c1);
    ActsHereActs(cx, p2.store, c1);
    SettledConverges(cx, specs, spec, p2.store, c1);
    EmptyScriptIsGentle();
    SettledPass(cx, specs, spec, p2.store, [], c1);
    GentleRunKeepsRest(cx, specs, spec, After(cx, p2, Passes([], c1)), later);
  }

  lemma ActsHereActs(cx: Context, st: Store, c: Choices)
    requires ActsHere(cx, st, c)
    ensures PassFrom(cx, st, [], c).report.Acted?
  {
    hide Pass;
  }

  /** From wrong: without evictions no pass mends it. */
  lemma WrongRunsStayWrong(cx: Context, pt: Point, c0: Choices, between: seq<Step>, c1: Choices, later: seq<Step>)
    requires pt.store.cr.Some? && Active(pt.store.cr.value)
    requires !Open(cx, pt.store) && !GateSound(pt.store.cr.value.spec, pt.store)
    requires GentleRun(between) && GentleRun(later)
    ensures var spec := pt.store.cr.value.spec;
            var p3 := After(cx, Run(cx, After(cx, pt, Passes([], c0)), between), Passes([], c1));
            !GateSound(spec, p3.store) && !GateSound(spec, Run(cx, p3, later).store)
  {
    hide Pass, Open, GateSound, Active, GentleRun, Run;
    var spec := pt.store.cr.value.spec;
    EmptyScriptIsGentle();
    StuckPass(cx, spec, pt.store, [], c0);
    var p1 := After(cx, pt, Passes([], c0));
    GentleRunStaysWrong(cx, spec, p1, between);
    var p2 := Run(cx, p1, between);
    StuckPass(cx, spec, p2.store, [], c1);
    GentleRunStaysWrong(cx, spec, After(cx, p2, Passes([], c1)), later);
  }

  /** Convergence over runs.  From any point that a run with failures and edits can reach, with the
      spec then left alone: an undisturbed action pass; any run in which calls fail, pods change
      phase, finish terminating and are evicted; once no pod is terminating, another undisturbed
      action pass; and any run without evictions.  If at the start the gate is open or nothing
      stored under a desired name is wrong, then the second action pass leaves exactly the desired
      ConfigMaps and exactly the desired pods, all live and fitting, and the rest of the run keeps
      the ConfigMaps as they are and the pods but for their phase.  Without evictions this holds
      only then. */
  lemma ConvergesOverRuns(cx: Context, specs: set<Spec>, pt: Point, c0: Choices, between: seq<Step>, c1: Choices, later: seq<Step>)
    requires Admissible(cx, specs) && Sound(cx, specs, pt) && pt.store.cr.Some? && Active(pt.store.cr.value)
    requires ActsHere(cx, pt.store, c0)
    requires var p1 := After(cx, pt, Passes([], c0)); RunAllowed(cx, specs, p1, between) && CalmRun(between)
    requires var p2 := Run(cx, After(cx, pt, Passes([], c0)), between);
             NoneTerminating(p2.store.pods) && ActsHere(cx, p2.store, c1)
    requires var p3 := After(cx, Run(cx, After(cx, pt, Passes([], c0)), between), Passes([], c1));
             RunAllowed(cx, specs, p3, later) && GentleRun(later)
    ensures var spec := pt.store.cr.value.spec;
            var p3 := After(cx, Run(cx, After(cx, pt, Passes([], c0)), between), Passes([], c1));
            var end := Run(cx, p3, later).store;
            && (Open(cx, pt.store) || GateSound(spec, pt.store) ==>
                  && Converged(spec, p3.store) && Converged(spec, end)
                  && end.configMaps == p3.store.configMaps && Steady(p3.store.pods, end.pods))
            && (GentleRun(between) && (Converged(spec, p3.store) || Converged(spec, end)) ==>
                  Open(cx, pt.store) || GateSound(spec, pt.store))
  {
    hide Pass, Sound, Open, GateSound, Active, RunAllowed, CalmRun, GentleRun, Run, Settled, Converged, Steady,
         NoneTerminating, ActsHere, After, Faithful, SameHomes, Converter.WellFormed;
    var spec := pt.store.cr.value.spec;
    if Open(cx, pt.store) || GateSound(spec, pt.store) {
      RightRunsConverge(cx, specs, pt, c0, between, c1, later);
    } else if GentleRun(between) {
      var p3 := After(cx, Run(cx, After(cx, pt, Passes([], c0)), between), Passes([], c1));
      WrongRunsStayWrong(cx, pt, c0, between, c1, later);
      SoundSpec(cx, specs, pt);
      if Converged(spec, p3.store) { ConvergedIsSound(spec, p3.store); }
      if Converged(spec, Run(cx, p3, later).store) { ConvergedIsSound(spec, Run(cx, p3, later).store); }
    }
  }

  // ---- New resources ----

  /** The steps of undisturbed passes. */
  function QuietSteps(cs: seq<Choices>): seq<Step>
  {
    if cs == [] then [] else [Passes([], cs[0])] + QuietSteps(cs[1..])
  }

  lemma OneStep(cx: Context, specs: set<Spec>, pt: Point, step: Step)
    ensures Run(cx, pt, [step]) == After(cx, pt, step)
    ensures StepAllowed(cx, specs, pt, step) ==> RunAllowed(cx, specs, pt, [step])
  {
    hide After, StepAllowed;
    assert [step][..0] == [];
    assert Run(cx, pt, [][..0]) == pt;
  }

  lemma {:induction false} QuietIsRun(cx: Context, specs: set<Spec>, pt: Point, cs: seq<Choices>)
    requires QuietlyPossible(cx, pt.store, cs)
    ensures RunAllowed(cx, specs, pt, QuietSteps(cs))
    ensures Run(cx, pt, QuietSteps(cs)).store == QuietRun(cx, pt.store, cs)
    decreases |cs|
  {
    hide Pass, StepPossible, StepAllowed, RunAllowed;
    if cs == [] {
      NoSteps(cx, specs, pt);
    } else {
      var step := Passes([], cs[0]);
      PossibleIsAllowed(cx, specs, pt, cs[0]);
      OneStep(cx, specs, pt, step);
      QuietIsRun(cx, specs, After(cx, pt, step), cs[1..]);
      RunCompose(cx, specs, pt, [step], QuietSteps(cs[1..]));
    }
  }

  lemma NoSteps(cx: Context, specs: set<Spec>, pt: Point)
    ensures Run(cx, pt, []) == pt && RunAllowed(cx, specs, pt, [])
  {
  }

  function EventSteps(events: seq<Event>): seq<Step>
  {
    if events == [] then [] else [Happens(events[0])] + EventSteps(events[1..])
  }

  lemma {:induction false} EventsAreRun(cx: Context, specs: set<Spec>, pt: Point, events: seq<Event>)
    requires forall k :: 0 <= k < |events| ==> events[k].FinishTermination?
    ensures RunAllowed(cx, specs, pt, EventSteps(events))
    ensures Run(cx, pt, EventSteps(events)).store == Happen(pt.store, events)
    decreases |events|
  {
    hide Occur, RunAllowed;
    if events == [] {
      NoSteps(cx, specs, pt);
    } else {
      var step := Happens(events[0]);
      OneStep(cx, specs, pt, step);
      EventsAreRun(cx, specs, After(cx, pt, step), events[1..]);
      RunCompose(cx, specs, pt, [step], EventSteps(events[1..]));
    }
  }

  /** Two undisturbed rounds are a run, in which the terminating pods go by finishing one by one. */
  lemma TwoRoundsAreARun(cx: Context, specs: set<Spec>, pt: Point, first: seq<Choices>, second: seq<Choices>) returns (steps: seq<Step>)
    requires TwoRoundsPossible(cx, pt.store, first, second)
    ensures RunAllowed(cx, specs, pt, steps) && Run(cx, pt, steps).store == TwoRounds(cx, pt.store, first, second)
  {
    hide RunAllowed, Run, QuietRun, QuietlyPossible, Drained, Happen;
    var a := QuietSteps(first);
    QuietIsRun(cx, specs, pt, first);
    var mid := Run(cx, pt, a);
    var events := DrainHappens(mid.store);
    EventsAreRun(cx, specs, mid, events);
    var drained := Run(cx, mid, EventSteps(events));
    QuietIsRun(cx, specs, drained, second);
    RunCompose(cx, specs, pt, a, EventSteps(events));
    RunCompose(cx, specs, pt, a + EventSteps(events), QuietSteps(second));
    steps := a + EventSteps(events) + QuietSteps(second);
  }

  /** The first pass over a new resource adds the finalizer. */
  lemma FirstPass(cx: Context, specs: set<Spec>, spec: Spec, secret: bool, c: Choices)
    requires Admissible(cx, specs) && spec in specs
    ensures var pt := Empty(spec, {}, secret);
            && StepAllowed(cx, specs, pt, Passes([], c)) && Sound(cx, specs, After(cx, pt, Passes([], c)))
            && Ready(After(cx, pt, Passes([], c)).store) && Open(cx, After(cx, pt, Passes([], c)).store)
            && After(cx, pt, Passes([], c)).store.cr.value.spec == spec
  {
    hide Pass, Admissible, Sound, RevisionName;
    var pt := Empty(spec, {}, secret);
    QuietFinalizing(cx, pt.store, c);
    EmptyIsSound(cx, specs, spec, {}, secret);
    StepKeepsSound(cx, specs, pt, Passes([], c));
    assert {} + {FINALIZER} == {FINALIZER};
  }

  /** Every new resource converges: for each spec of a run there is a run from a resource just
      created, without a finalizer, in an empty namespace, that ends with exactly what the spec
      desires. */
  lemma NewResourceConverges(cx: Context, specs: set<Spec>, spec: Spec, secret: bool) returns (steps: seq<Step>)
    requires Admissible(cx, specs) && spec in specs
    ensures RunAllowed(cx, specs, Empty(spec, {}, secret), steps)
    ensures AtRest(cx, specs, spec, Run(cx, Empty(spec, {}, secret), steps).store)
  {
    hide Admissible, Sound, QuietlyPossible, QuietRun, TwoRounds, Converged, AtRest, GateSound, RevisionName, RunAllowed, Run, Ready,
         Open, Empty, StepAllowed, After;
    var pt, none := Empty(spec, {}, secret), Choices([], [], []);
    FirstPass(cx, specs, spec, secret, none);
    OneStep(cx, specs, pt, Passes([], none));
    var ready := After(cx, pt, Passes([], none));
    ReadyHasCr(ready.store);
    var first := ChoicesExist(cx, ready.store, 3);
    var second := ChoicesExist(cx, Drained(QuietRun(cx, ready.store, first)), 3);
    TwoRoundsConverge(cx, specs, ready, first, second);
    var rest := TwoRoundsAreARun(cx, specs, ready, first, second);
    RunCompose(cx, specs, pt, [Passes([], none)], rest);
    steps := [Passes([], none)] + rest;
  }

  lemma ReadyHasCr(st: Store)
    requires Ready(st)
    ensures st.cr.Some?
  {
  }

  lemma SoundSpec(cx: Context, specs: set<Spec>, pt: Point)
    requires Admissible(cx, specs) && Sound(cx, specs, pt) && pt.store.cr.Some?
    ensures Converter.WellFormed(pt.store.cr.value.spec)
  {
    hide Converter.WellFormed, ChildrenFrom;
  }

  /** After any run from an empty namespace in which every pass that acted got its status write
      through, whatever else failed or was edited, those two action passes converge. */
  lemma CleanRunsConverge(cx: Context, specs: set<Spec>, spec: Spec, finalizers: set<string>, secret: bool, steps: seq<Step>,
                          c0: Choices, between: seq<Step>, c1: Choices, later: seq<Step>)
    requires Admissible(cx, specs) && spec in specs
    requires RunAllowed(cx, specs, Empty(spec, finalizers, secret), steps) && RunLanded(cx, Empty(spec, finalizers, secret), steps)
    requires var pt := Run(cx, Empty(spec, finalizers, secret), steps);
             && pt.store.cr.Some? && Active(pt.store.cr.value) && ActsHere(cx, pt.store, c0)
             && RunAllowed(cx, specs, After(cx, pt, Passes([], c0)), between) && CalmRun(between)
    requires var p2 := Run(cx, After(cx, Run(cx, Empty(spec, finalizers, secret), steps), Passes([], c0)), between);
             && NoneTerminating(p2.store.pods) && ActsHere(cx, p2.store, c1)
             && RunAllowed(cx, specs, After(cx, p2, Passes([], c1)), later) && GentleRun(later)
    ensures var pt := Run(cx, Empty(spec, finalizers, secret), steps);
            var p3 := After(cx, Run(cx, After(cx, pt, Passes([], c0)), between), Passes([], c1));
            var end := Run(cx, p3, later).store;
            && Converged(pt.store.cr.value.spec, p3.store) && Converged(pt.store.cr.value.spec, end)
            && end.configMaps == p3.store.configMaps && Steady(p3.store.pods, end.pods)
  {
    hide Pass, Sound, Open, GateSound, Active, RunAllowed, RunLanded, CalmRun, GentleRun, Run, Converged, Steady,
         NoneTerminating, ActsHere, After, Admissible, Empty;
    CleanRunsAreRight(cx, specs, spec, finalizers, secret, steps);
    ConvergesOverRuns(cx, specs, Run(cx, Empty(spec, finalizers, secret), steps), c0, between, c1, later);
  }
}
