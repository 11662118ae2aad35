/** Once converged, converged: what later passes do to a converged namespace, and the whole road
    from any reachable state to there. */
module Stability {
  import opened Types
  import opened Restart
  import opened Api
  import opened Observer
  import opened Updater
  import opened Reconciler
  import opened Controller
  import opened Protocol
  import opened Actions
  import opened Runs
  import opened Suspects
  import opened Invariants
  import opened Quiet
  import opened StatusMachine
  import opened Convergence
  import Converter

  // ---- Pods left alone ----

  /** The same pods, of which some may have changed phase. */
  ghost predicate Steady(a: PodTable, b: PodTable)
  {
    a.Keys == b.Keys && forall n :: n in b ==> b[n] == a[n].(phase := b[n].phase)
  }

  lemma SteadyOn(a: PodTable, b: PodTable, c: PodTable)
    requires Steady(a, b) && Steady(b, c)
    ensures Steady(a, c)
  {
  }

  lemma {:induction false} GentleEvents(st: Store, events: seq<Event>)
    requires NoneTerminating(st.pods) && forall k :: 0 <= k < |events| ==> Gentle(events[k])
    ensures Steady(st.pods, Happen(st, events).pods)
    decreases |events|
  {
    if events != [] {
      var next := Occur(st, events[0]);
      assert Gentle(events[0]);
      assert Steady(st.pods, next.pods);
      GentleEvents(next, events[1..]);
      SteadyOn(st.pods, next.pods, Happen(st, events).pods);
    }
  }

  lemma GentleCall(w: World, op: Op)
    requires NoneTerminating(w.store.pods) && GentleScript(w.script) && !WritesPods(op)
    ensures Steady(w.store.pods, Call(w, op).store.pods) && GentleScript(Call(w, op).script)
    ensures w.script == [] ==> Call(w, op).store.pods == w.store.pods && Call(w, op).script == []
  {
    if w.script != [] {
      assert forall k :: 0 <= k < |w.script[0].before| ==> Gentle(w.script[0].before[k]);
      assert forall i :: 0 <= i < |w.script[1..]| ==> w.script[1..][i] == w.script[i + 1];
    }
    GentleEvents(w.store, NextTurn(w).before);
    var before := CallShape(w, op);
    ApplyReach(before, op);
    hide Apply, PodsAge, CrDrifts, WritesPods;
  }

  lemma {:induction false} GentleCalls(w: World, ops: seq<Op>)
    requires NoneTerminating(w.store.pods) && GentleScript(w.script) && forall op :: op in ops ==> !WritesPods(op)
    ensures Steady(w.store.pods, Calls(w, ops).store.pods)
    ensures w.script == [] ==> Calls(w, ops).store.pods == w.store.pods
    decreases |ops|
  {
    hide Call, GentleScript, WritesPods;
    if ops != [] {
      assert ops[0] in ops;
      GentleCall(w, ops[0]);
      GentleCalls(Call(w, ops[0]), ops[1..]);
      SteadyOn(w.store.pods, Call(w, ops[0]).store.pods, Calls(w, ops).store.pods);
    }
  }

  lemma GentleIsCalm(script: seq<Turn>)
    requires GentleScript(script)
    ensures CalmScript(script)
  {
  }

  /** An observation of a converged namespace lists every pod. */
  lemma ListedInFull(cx: Context, st: Store, script: seq<Turn>, pods: PodTable)
    requires NoneTerminating(st.pods) && GentleScript(script)
    requires PodsAge(st.pods, pods) && PodsAge(pods, ObserveAll(cx, World(st, script, [])).0.store.pods)
    ensures pods.Keys == st.pods.Keys
  {
    hide ObserveAll, Calls, SawBetween, ReplyTo;
    var start := World(st, script, []);
    var read, listed, ops := ObserveFacts(cx, start);
    GentleCalls(start, ops);
  }

  lemma NoPodToWrite(cx: Context, s: Snapshot, c: Choices, op: Op)
    requires Legit(cx, s, c, op) && !Gate(s) && AtHome(s, Converter.DesiredPods(s.cr.spec))
    requires s.pods.Keys == PodNames(Converter.DesiredPods(s.cr.spec))
    ensures !WritesPods(op)
  {
  }

  // ---- A converged namespace ----

  /** Converged, in a run whose last applied spec is this one. */
  ghost predicate AtRest(cx: Context, specs: set<Spec>, spec: Spec, st: Store)
  {
    Settled(cx, specs, spec, st) && Converged(spec, st)
  }

  lemma ConvergedParts(spec: Spec, st: Store)
    requires Converged(spec, st)
    ensures NoneTerminating(st.pods) && st.pods.Keys == PodNames(Converter.DesiredPods(spec))
  {
    hide FullyApplied;
  }

  lemma SteadyKeepsConverged(spec: Spec, st: Store, later: Store)
    requires Converged(spec, st) && FullyApplied(spec, later) && Steady(st.pods, later.pods)
    ensures Converged(spec, later)
  {
    hide FullyApplied;
  }

  /** No pass over a converged namespace writes a pod, whatever fails in it. */
  lemma RestWritesNoPod(cx: Context, specs: set<Spec>, spec: Spec, st: Store, script: seq<Turn>, c: Choices) returns (ops: seq<Op>)
    requires Admissible(cx, specs) && AtRest(cx, specs, spec, st) && GentleScript(script)
    requires StepAllowed(cx, specs, Point(st, Trail(Some(spec), {})), Passes(script, c))
    ensures PassFrom(cx, st, script, c).world == Calls(World(st, script, []), ops)
    ensures forall op :: op in ops ==> !WritesPods(op)
    ensures PassFrom(cx, st, script, c).world.store.configMaps == st.configMaps
  {
    hide Pass, Calls, Legit, Admissible, StepAllowed, Settled, Converged, GentleScript, CalmScript, AtHome, ObserveAll, Gate, Selects, WritesConfigMaps, WritesPods, WritesRevisions;
    var r := PassFrom(cx, st, script, c);
    GentleIsCalm(script);
    ConvergedParts(spec, st);
    ops := PassWrites(cx, st, script, c);
    if r.report.Acted? {
      var w, more := SettledCalls(cx, specs, spec, st, script, c);
      CallsDrift(w, more);
      ListedInFull(cx, st, script, r.report.s.pods);
      forall op | op in ops ensures !WritesPods(op) {
        if WritesChildren(op) { NoPodToWrite(cx, r.report.s, c, op); }
      }
    } else {
      IdlePass(cx, st, script, c);
    }
  }

  /** Converged for good: through any pass in which the environment neither edits, deletes nor
      evicts, with any call failing, the ConfigMaps stay as they are and the pods only change
      phase; an undisturbed pass changes neither. */
  lemma ConvergedPass(cx: Context, specs: set<Spec>, spec: Spec, st: Store, script: seq<Turn>, c: Choices)
    requires Admissible(cx, specs) && AtRest(cx, specs, spec, st) && GentleScript(script)
    requires StepAllowed(cx, specs, Point(st, Trail(Some(spec), {})), Passes(script, c))
    ensures var st' := PassFrom(cx, st, script, c).world.store;
            && AtRest(cx, specs, spec, st')
            && st'.configMaps == st.configMaps && Steady(st.pods, st'.pods)
            && (script == [] ==> st'.pods == st.pods)
  {
    hide Pass, Calls, Admissible, StepAllowed, Settled, Converged, GentleScript, CalmScript, Steady, WritesPods;
    GentleIsCalm(script);
    ConvergedParts(spec, st);
    var ops := RestWritesNoPod(cx, specs, spec, st, script, c);
    GentleCalls(World(st, script, []), ops);
    SettledPass(cx, specs, spec, st, script, c);
    SettledIsApplied(cx, specs, spec, PassFrom(cx, st, script, c).world.store);
    SteadyKeepsConverged(spec, st, PassFrom(cx, st, script, c).world.store);
  }

  // ---- Undisturbed passes from any reachable state ----

  /** The choices are ones that Go could make along these undisturbed passes. */
  ghost predicate QuietlyPossible(cx: Context, st: Store, cs: seq<Choices>)
    decreases |cs|
  {
    cs == [] ||
      (StepPossible(cx, st, cs[0]) && QuietlyPossible(cx, PassFrom(cx, st, [], cs[0]).world.store, cs[1..]))
  }

  ghost predicate StepPossible(cx: Context, st: Store, c: Choices)
  {
    PassFrom(cx, st, [], c).report.Acted? ==> Possible(c, PassFrom(cx, st, [], c).report.s)
  }

  lemma PossibleIsAllowed(cx: Context, specs: set<Spec>, pt: Point, c: Choices)
    requires StepPossible(cx, pt.store, c)
    ensures StepAllowed(cx, specs, pt, Passes([], c))
  {
    hide Pass, Possible;
  }

  lemma {:induction false} QuietRunSplits(cx: Context, st: Store, cs: seq<Choices>, k: nat)
    requires k <= |cs|
    ensures QuietRun(cx, st, cs) == QuietRun(cx, QuietRun(cx, st, cs[..k]), cs[k..])
    ensures QuietlyPossible(cx, st, cs) ==> QuietlyPossible(cx, QuietRun(cx, st, cs[..k]), cs[k..])
    decreases k
  {
    hide Pass, StepPossible;
    if k == 0 {
      assert cs[k..] == cs;
    } else {
      QuietRunSplits(cx, PassFrom(cx, st, [], cs[0]).world.store, cs[1..], k - 1);
      assert cs[..k][1..] == cs[1..][..k - 1] && cs[1..][k - 1..] == cs[k..];
    }
  }

  lemma {:induction false} SettledRun(cx: Context, specs: set<Spec>, spec: Spec, st: Store, cs: seq<Choices>)
    requires Admissible(cx, specs) && Settled(cx, specs, spec, st) && QuietlyPossible(cx, st, cs)
    ensures Settled(cx, specs, spec, QuietRun(cx, st, cs))
    decreases |cs|
  {
    hide Pass, Settled, Admissible, StepPossible;
    if cs != [] {
      PossibleIsAllowed(cx, specs, Point(st, Trail(Some(spec), {})), cs[0]);
      SettledPass(cx, specs, spec, st, [], cs[0]);
      SettledRun(cx, specs, spec, PassFrom(cx, st, [], cs[0]).world.store, cs[1..]);
    }
  }

  lemma {:induction false} RestRun(cx: Context, specs: set<Spec>, spec: Spec, st: Store, cs: seq<Choices>)
    requires Admissible(cx, specs) && AtRest(cx, specs, spec, st) && QuietlyPossible(cx, st, cs)
    ensures var end := QuietRun(cx, st, cs);
            AtRest(cx, specs, spec, end) && end.configMaps == st.configMaps && end.pods == st.pods
    decreases |cs|
  {
    hide Pass, AtRest, Admissible, StepPossible, Steady;
    if cs != [] {
      PossibleIsAllowed(cx, specs, Point(st, Trail(Some(spec), {})), cs[0]);
      ConvergedPass(cx, specs, spec, st, [], cs[0]);
      RestRun(cx, specs, spec, PassFrom(cx, st, [], cs[0]).world.store, cs[1..]);
    }
  }

  lemma {:induction false} QuietStates(cx: Context, st: Store, cs: seq<Choices>)
    requires st.cr.Some? ==> KnownState(st.cr.value.status.state)
    ensures var end := QuietRun(cx, st, cs);
            end.cr.Some? ==> st.cr.Some? && KnownState(end.cr.value.status.state)
    decreases |cs|
  {
    hide Pass, KnownState;
    if cs != [] {
      PassStates(cx, st, [], cs[0]);
      QuietStates(cx, PassFrom(cx, st, [], cs[0]).world.store, cs[1..]);
    }
  }

  /** Live, with a status the state machine can be in. */
  predicate Ready(st: Store)
  {
    st.cr.Some? && Active(st.cr.value) && KnownState(st.cr.value.status.state)
  }

  /** The same store but for the status and the version of the resource. */
  predicate OnlyStatusMoved(st: Store, later: Store)
  {
    && SameOrder(st.cr, later.cr) && later == st.(cr := later.cr)
    && later.cr.value.status.currentRevision == st.cr.value.status.currentRevision
  }

  /** The first action pass of an undisturbed run, found by the decreasing measure. */
  lemma FirstAction(cx: Context, st: Store, cs: seq<Choices>) returns (k: nat)
    requires Ready(st) && |cs| >= 3
    ensures k < |cs| && k <= 2
    ensures var before := QuietRun(cx, st, cs[..k]);
            PassFrom(cx, before, [], cs[k]).report.Acted? && Ready(before) && OnlyStatusMoved(st, before)
  {
    hide Pass, KnownState, WritesLeft, SnapshotOf;
    StatusKnown(cx, st);
    WritesLeftSmall(SnapshotOf(cx, st).cr.status, FactsOf(SnapshotOf(cx, st)));
    k := ActionPhaseRuns(cx, st, cs);
    NormalisedSame(st.cr.value, QuietRun(cx, st, cs[..k]).cr.value);
  }

  lemma StatusKnown(cx: Context, st: Store)
    requires Ready(st)
    ensures KnownState(SnapshotOf(cx, st).cr.status.state)
  {
    hide SelectConfigMaps, SelectPods, SelectRevisions, RevisionName, KnownState;
  }

  lemma NormalisedSame(a: Cr, b: Cr)
    requires b.(status := a.status, resourceVersion := 0) == a.(resourceVersion := 0)
    ensures SameOrder(Some(a), Some(b))
  {
  }

  lemma StatusKeepsSound(cx: Context, specs: set<Spec>, trail: Trail, st: Store, later: Store)
    requires Sound(cx, specs, Point(st, trail)) && OnlyStatusMoved(st, later)
    ensures Sound(cx, specs, Point(later, trail))
    ensures forall spec :: GateSound(spec, later) <==> GateSound(spec, st)
  {
    hide RevisionName, Known, PodFrom, ConfigMapFrom, Fits;
  }

  /** The gate a quiet pass would find in this store. */
  predicate Open(cx: Context, st: Store)
    requires st.cr.Some?
  {
    st.cr.value.status.currentRevision != RevisionName(cx, st.cr.value.spec)
  }

  lemma OpenIsGate(cx: Context, st: Store)
    requires st.cr.Some?
    ensures Open(cx, st) <==> Gate(SnapshotOf(cx, st))
  {
    hide SelectConfigMaps, SelectPods, SelectRevisions, RevisionName;
  }

  /** Three undisturbed passes settle whenever the gate is open or nothing stored is wrong. */
  lemma FirstRoundSettles(cx: Context, specs: set<Spec>, pt: Point, cs: seq<Choices>)
    requires Admissible(cx, specs) && Sound(cx, specs, pt) && Ready(pt.store) && |cs| >= 3
    requires QuietlyPossible(cx, pt.store, cs)
    requires Open(cx, pt.store) || GateSound(pt.store.cr.value.spec, pt.store)
    ensures Settled(cx, specs, pt.store.cr.value.spec, QuietRun(cx, pt.store, cs))
  {
    hide Pass, Admissible, Sound, Settled, GateSound, StepPossible, KnownState, Gate, SnapshotOf, QuietRun, QuietlyPossible, Active, RevisionName;
    var spec := pt.store.cr.value.spec;
    var k := FirstAction(cx, pt.store, cs);
    var before := QuietRun(cx, pt.store, cs[..k]);
    QuietRunSplits(cx, pt.store, cs, k);
    StatusKeepsSound(cx, specs, pt.trail, pt.store, before);
    OpenIsGate(cx, before);
    HeadPossible(cx, before, cs[k..]);
    PossibleIsAllowed(cx, specs, Point(before, pt.trail), cs[k]);
    ActionSettles(cx, specs, Point(before, pt.trail), cs[k]);
    assert cs[k..][0] == cs[k];
    SettledRun(cx, specs, spec, PassFrom(cx, before, [], cs[k]).world.store, cs[k..][1..]);
  }

  lemma HeadPossible(cx: Context, st: Store, cs: seq<Choices>)
    requires QuietlyPossible(cx, st, cs) && cs != []
    ensures StepPossible(cx, st, cs[0]) && QuietlyPossible(cx, PassFrom(cx, st, [], cs[0]).world.store, cs[1..])
    ensures QuietRun(cx, st, cs) == QuietRun(cx, PassFrom(cx, st, [], cs[0]).world.store, cs[1..])
  {
    hide Pass, StepPossible;
  }

  /** Three more, once the deleted pods are gone, converge. */
  lemma SecondRoundConverges(cx: Context, specs: set<Spec>, spec: Spec, st: Store, cs: seq<Choices>)
    requires Admissible(cx, specs) && Settled(cx, specs, spec, st) && Ready(st) && NoneTerminating(st.pods) && |cs| >= 3
    requires QuietlyPossible(cx, st, cs)
    ensures AtRest(cx, specs, spec, QuietRun(cx, st, cs))
  {
    hide Pass, Admissible, Settled, StepPossible, KnownState, QuietRun, QuietlyPossible, Active, Converged, Ready;
    var k := FirstAction(cx, st, cs);
    var before := QuietRun(cx, st, cs[..k]);
    QuietRunSplits(cx, st, cs, k);
    SettledPrefix(cx, specs, spec, st, cs, k);
    HeadPossible(cx, before, cs[k..]);
    assert cs[k..][0] == cs[k];
    PossibleIsAllowed(cx, specs, Point(before, Trail(Some(spec), {})), cs[k]);
    SettledConverges(cx, specs, spec, before, cs[k]);
    SettledPass(cx, specs, spec, before, [], cs[k]);
    RestRun(cx, specs, spec, PassFrom(cx, before, [], cs[k]).world.store, cs[k..][1..]);
  }

  lemma SettledPrefix(cx: Context, specs: set<Spec>, spec: Spec, st: Store, cs: seq<Choices>, k: nat)
    requires Admissible(cx, specs) && Settled(cx, specs, spec, st) && QuietlyPossible(cx, st, cs) && k <= |cs|
    ensures Settled(cx, specs, spec, QuietRun(cx, st, cs[..k]))
  {
    hide Admissible, Settled, QuietRun, QuietlyPossible;
    PrefixPossible(cx, st, cs, k);
    SettledRun(cx, specs, spec, st, cs[..k]);
  }

  lemma {:induction false} PrefixPossible(cx: Context, st: Store, cs: seq<Choices>, k: nat)
    requires QuietlyPossible(cx, st, cs) && k <= |cs|
    ensures QuietlyPossible(cx, st, cs[..k])
    decreases k
  {
    hide Pass, StepPossible;
    if k > 0 {
      PrefixPossible(cx, PassFrom(cx, st, [], cs[0]).world.store, cs[1..], k - 1);
      assert cs[..k][1..] == cs[1..][..k - 1];
    }
  }

  // ---- Terminating pods go away ----

  /** Every terminating pod is gone. */
  function Drained(st: Store): Store
  {
    st.(pods := map n | n in st.pods && !st.pods[n].terminating :: st.pods[n])
  }

  function TerminatingNames(pods: PodTable): set<string> { set n | n in pods && pods[n].terminating }

  lemma FinishOne(st: Store, n: string)
    requires n in TerminatingNames(st.pods)
    ensures Drained(Occur(st, FinishTermination(n))) == Drained(st)
    ensures TerminatingNames(Occur(st, FinishTermination(n)).pods) == TerminatingNames(st.pods) - {n}
  {
    var next := Occur(st, FinishTermination(n));
    assert Drained(next).pods == Drained(st).pods;
  }

  /** The environment gets there by finishing terminations alone. */
  lemma {:induction false} DrainHappens(st: Store) returns (events: seq<Event>)
    ensures Happen(st, events) == Drained(st)
    ensures forall k :: 0 <= k < |events| ==> events[k].FinishTermination?
    decreases |TerminatingNames(st.pods)|
  {
    hide Occur;
    var names := TerminatingNames(st.pods);
    if names == {} {
      assert forall n :: n in st.pods && st.pods[n].terminating ==> n in names;
      assert Drained(st).pods == st.pods;
      events := [];
    } else {
      hide Drained, TerminatingNames;
      var n :| n in names;
      FinishOne(st, n);
      var rest := DrainHappens(Occur(st, FinishTermination(n)));
      events := [FinishTermination(n)] + rest;
      assert events[1..] == rest;
    }
  }

  lemma DrainedFacts(cx: Context, specs: set<Spec>, trail: Trail, st: Store)
    requires Sound(cx, specs, Point(st, trail))
    ensures Sound(cx, specs, Point(Drained(st), trail)) && NoneTerminating(Drained(st).pods)
    ensures forall spec :: GateSound(spec, Drained(st)) <==> GateSound(spec, st)
    ensures forall spec :: FullyApplied(spec, st) ==> FullyApplied(spec, Drained(st))
  {
    hide ChildrenFrom, Fits, Converter.DesiredConfigMaps, Converter.DesiredPods;
    DriftKeepsChildren(specs, SuspectSpecs(trail), st, Drained(st));
  }

  // ---- Behind a closed gate a wrong child stays wrong ----

  /** An undisturbed pass that finds the gate closed leaves it closed and mends nothing that is
      stored under a desired name. */
  lemma ClosedGatePass(cx: Context, specs: set<Spec>, pt: Point, c: Choices)
    requires Admissible(cx, specs) && Sound(cx, specs, pt) && StepAllowed(cx, specs, pt, Passes([], c))
    requires Ready(pt.store) && !Open(cx, pt.store)
    ensures var spec, st' := pt.store.cr.value.spec, PassFrom(cx, pt.store, [], c).world.store;
            && Ready(st') && !Open(cx, st') && st'.cr.value.spec == spec
            && (GateSound(spec, st') <==> GateSound(spec, pt.store))
  {
    hide Pass, Admissible, Sound, StepAllowed, GateSound, KnownState, Act, Derive, StatusChanged, FactsOf, RevisionName, SnapshotOf, Active, Gate;
    var st := pt.store;
    var r := PassFrom(cx, st, [], c);
    OpenIsGate(cx, st);
    StatusKnown(cx, st);
    QuietStatusPass(cx, st, c);
    PassStates(cx, st, [], c);
    EmptyScriptIsCalm();
    CalmPass(cx, st, [], c);
    SameOrderSpec(st.cr, r.world.store.cr);
    if r.report.Acted? {
      ClosedGateActs(cx, specs, pt, c);
    } else {
      DerivedStatusKeepsRevision(cx, st);
      StatusKeepsSound(cx, specs, pt.trail, st, r.world.store);
    }
  }

  lemma EmptyScriptIsCalm()
    ensures CalmScript([])
  {
  }

  lemma DerivedStatusKeepsRevision(cx: Context, st: Store)
    requires Ready(st)
    ensures var s := SnapshotOf(cx, st);
            Derive(s.cr.status, FactsOf(s)).Some?
            && Derive(s.cr.status, FactsOf(s)).value.currentRevision == st.cr.value.status.currentRevision
  {
    hide FactsOf, SelectConfigMaps, SelectPods, SelectRevisions, RevisionName, KnownState;
    StatusKnown(cx, st);
    DerivedState(SnapshotOf(cx, st).cr.status, FactsOf(SnapshotOf(cx, st)));
  }

  lemma ClosedGateActs(cx: Context, specs: set<Spec>, pt: Point, c: Choices)
    requires Admissible(cx, specs) && Sound(cx, specs, pt) && StepAllowed(cx, specs, pt, Passes([], c))
    requires Ready(pt.store) && !Open(cx, pt.store) && PassFrom(cx, pt.store, [], c).report.Acted?
    ensures var spec, st' := pt.store.cr.value.spec, PassFrom(cx, pt.store, [], c).world.store;
            && st'.cr.Some? && st'.cr.value.status.currentRevision == RevisionName(cx, spec)
            && (GateSound(spec, st') <==> GateSound(spec, pt.store))
  {
    hide Pass, Admissible, Sound, StepAllowed, GateSound, KnownState, RevisionName, SelectConfigMaps, SelectPods, SelectRevisions,
         SettledConfigMaps, SettledPods, AtHome;
    var st, s, spec := pt.store, SnapshotOf(cx, pt.store), pt.store.cr.value.spec;
    var st' := PassFrom(cx, st, [], c).world.store;
    QuietAct(cx, specs, pt, c);
    AdmissibleSpec(cx, specs, spec);
    MendsNothing(spec, st, s, st');
  }

  lemma AdmissibleSpec(cx: Context, specs: set<Spec>, spec: Spec)
    requires Admissible(cx, specs) && spec in specs
    ensures ConfigMapsDistinct(Converter.DesiredConfigMaps(spec)) && PodsDistinct(Converter.DesiredPods(spec))
  {
    DesiredListsDistinct(spec);
  }

  lemma MendsNothing(spec: Spec, st: Store, s: Snapshot, st': Store)
    requires UpToDate(s, st) && !Gate(s)
    requires ConfigMapsDistinct(Converter.DesiredConfigMaps(spec)) && PodsDistinct(Converter.DesiredPods(spec))
    requires st'.configMaps == SettledConfigMaps(st.configMaps, s, Converter.DesiredConfigMaps(spec))
    requires st'.pods == SettledPods(st.pods, s, Converter.DesiredPods(spec))
    ensures GateSound(spec, st') <==> GateSound(spec, st)
  {
    hide GateSound, PodsRight, SettledPods;
    var cms, pods := Converter.DesiredConfigMaps(spec), Converter.DesiredPods(spec);
    GateSoundTables(spec, st);
    GateSoundTables(spec, st');
    ClosedGateConfigMaps(st.configMaps, s, cms);
    ClosedGatePods(st.pods, s, pods);
    if ConfigMapsRight(st'.configMaps, cms) {
      hide ConfigMapTableOf;
      assert forall n :: n in st.configMaps && n in ConfigMapTableOf(cms) ==> n in st'.configMaps && st'.configMaps[n] == st.configMaps[n];
    }
  }

  lemma {:induction false} ClosedGateRun(cx: Context, specs: set<Spec>, pt: Point, cs: seq<Choices>) returns (trail: Trail)
    requires Admissible(cx, specs) && Sound(cx, specs, pt) && QuietlyPossible(cx, pt.store, cs)
    requires Ready(pt.store) && !Open(cx, pt.store)
    ensures var spec, end := pt.store.cr.value.spec, QuietRun(cx, pt.store, cs);
            && Sound(cx, specs, Point(end, trail))
            && Ready(end) && !Open(cx, end) && end.cr.value.spec == spec
            && (GateSound(spec, end) <==> GateSound(spec, pt.store))
    decreases |cs|
  {
    hide Pass, Admissible, Sound, StepPossible, GateSound, Ready, Open, StepAllowed;
    trail := pt.trail;
    if cs != [] {
      PossibleIsAllowed(cx, specs, pt, cs[0]);
      StepKeepsSound(cx, specs, pt, Passes([], cs[0]));
      ClosedGatePass(cx, specs, pt, cs[0]);
      trail := ClosedGateRun(cx, specs, After(cx, pt, Passes([], cs[0])), cs[1..]);
    }
  }

  // ---- The theorem ----

  lemma ConvergedIsSound(spec: Spec, st: Store)
    requires Converged(spec, st) && Converter.WellFormed(spec)
    ensures GateSound(spec, st)
  {
    hide Fits, Converter.WellFormed;
    DesiredListsDistinct(spec);
    GateSoundTables(spec, st);
  }

  /** Two rounds of undisturbed passes, with the terminating pods gone in between. */
  function TwoRounds(cx: Context, st: Store, first: seq<Choices>, second: seq<Choices>): Store
  {
    QuietRun(cx, Drained(QuietRun(cx, st, first)), second)
  }

  ghost predicate TwoRoundsPossible(cx: Context, st: Store, first: seq<Choices>, second: seq<Choices>)
  {
    QuietlyPossible(cx, st, first) && QuietlyPossible(cx, Drained(QuietRun(cx, st, first)), second)
  }

  lemma QuietRunStaysReady(cx: Context, specs: set<Spec>, spec: Spec, st: Store, cs: seq<Choices>)
    requires Ready(st) && Settled(cx, specs, spec, QuietRun(cx, st, cs))
    ensures Ready(QuietRun(cx, st, cs))
  {
    hide Sound, KnownState, FullyApplied, QuietRun;
    QuietStates(cx, st, cs);
  }

  lemma DrainedSettled(cx: Context, specs: set<Spec>, spec: Spec, st: Store)
    requires Settled(cx, specs, spec, st)
    ensures Settled(cx, specs, spec, Drained(st)) && NoneTerminating(Drained(st).pods)
  {
    hide Sound, FullyApplied, NoneTerminating;
    DrainedFacts(cx, specs, Trail(Some(spec), {}), st);
  }

  lemma TwoRoundsConverge(cx: Context, specs: set<Spec>, pt: Point, first: seq<Choices>, second: seq<Choices>)
    requires Admissible(cx, specs) && Sound(cx, specs, pt) && Ready(pt.store)
    requires |first| >= 3 && |second| >= 3 && TwoRoundsPossible(cx, pt.store, first, second)
    requires Open(cx, pt.store) || GateSound(pt.store.cr.value.spec, pt.store)
    ensures AtRest(cx, specs, pt.store.cr.value.spec, TwoRounds(cx, pt.store, first, second))
  {
    hide Sound, Admissible, Settled, Open, GateSound, QuietRun, QuietlyPossible, AtRest, KnownState, Active;
    var spec, mid := pt.store.cr.value.spec, QuietRun(cx, pt.store, first);
    FirstRoundSettles(cx, specs, pt, first);
    QuietRunStaysReady(cx, specs, spec, pt.store, first);
    DrainedSettled(cx, specs, spec, mid);
    SecondRoundConverges(cx, specs, spec, Drained(mid), second);
  }

  lemma TwoRoundsStayWrong(cx: Context, specs: set<Spec>, pt: Point, first: seq<Choices>, second: seq<Choices>)
    requires Admissible(cx, specs) && Sound(cx, specs, pt) && Ready(pt.store)
    requires TwoRoundsPossible(cx, pt.store, first, second)
    requires !Open(cx, pt.store) && !GateSound(pt.store.cr.value.spec, pt.store)
    ensures !GateSound(pt.store.cr.value.spec, TwoRounds(cx, pt.store, first, second))
  {
    hide Sound, Admissible, GateSound, QuietRun, QuietlyPossible, KnownState, RevisionName;
    var mid := QuietRun(cx, pt.store, first);
    var trail := ClosedGateRun(cx, specs, pt, first);
    DrainedFacts(cx, specs, trail, mid);
    var _ := ClosedGateRun(cx, specs, Point(Drained(mid), trail), second);
  }

  /** Convergence: from any point a run with failures and edits can reach, with the spec then left
      alone, two rounds of three undisturbed passes, the terminating pods gone in between, end
      with exactly the desired ConfigMaps and exactly the desired pods, all live and fitting, if
      and only if the gate was open at the start or nothing stored under a desired name was
      wrong.  What then holds is kept by every later pass. */
  lemma ConvergesExactlyWhen(cx: Context, specs: set<Spec>, pt: Point, first: seq<Choices>, second: seq<Choices>)
    requires Admissible(cx, specs) && Sound(cx, specs, pt) && Ready(pt.store)
    requires |first| >= 3 && |second| >= 3 && TwoRoundsPossible(cx, pt.store, first, second)
    ensures Converged(pt.store.cr.value.spec, TwoRounds(cx, pt.store, first, second))
        <==> Open(cx, pt.store) || GateSound(pt.store.cr.value.spec, pt.store)
    ensures Converged(pt.store.cr.value.spec, TwoRounds(cx, pt.store, first, second))
        <==> AtRest(cx, specs, pt.store.cr.value.spec, TwoRounds(cx, pt.store, first, second))
  {
    hide TwoRounds, TwoRoundsPossible, Open, GateSound, Converged, Settled, Faithful, SameHomes, ChildrenFrom, Converter.WellFormed, Active, KnownState;
    var spec, end := pt.store.cr.value.spec, TwoRounds(cx, pt.store, first, second);
    if Open(cx, pt.store) || GateSound(spec, pt.store) {
      TwoRoundsConverge(cx, specs, pt, first, second);
    } else {
      TwoRoundsStayWrong(cx, specs, pt, first, second);
      if Converged(spec, end) {
        ConvergedIsSound(spec, end);
      }
    }
  }

  // ---- Clean runs always converge ----

  /** Every pass of the run that acted got its advance through. */
  ghost predicate RunLanded(cx: Context, pt: Point, steps: seq<Step>)
  {
    forall i :: 0 <= i < |steps| ==> StepLanded(cx, Run(cx, pt, steps[..i]), steps[i])
  }

  ghost predicate StepLanded(cx: Context, pt: Point, step: Step)
  {
    step.Passes? ==>
      var report := PassFrom(cx, pt.store, step.script, step.choices).report;
      report.Acted? ==> report.landed
  }

  lemma {:induction false} LandedRunsLeaveNoAttempt(cx: Context, pt: Point, steps: seq<Step>)
    requires pt.trail.attempted == {} && RunLanded(cx, pt, steps)
    ensures Run(cx, pt, steps).trail.attempted == {}
  {
    hide Pass, StepLanded;
    if steps != [] {
      var last := |steps| - 1;
      var front := steps[..last];
      forall i | 0 <= i < |front| ensures StepLanded(cx, Run(cx, pt, front[..i]), front[i]) {
        assert front[..i] == steps[..i];
      }
      LandedRunsLeaveNoAttempt(cx, pt, front);
      LandedStep(cx, Run(cx, pt, front), steps[last]);
    }
  }

  lemma LandedStep(cx: Context, pt: Point, step: Step)
    requires pt.trail.attempted == {} && StepLanded(cx, pt, step)
    ensures After(cx, pt, step).trail.attempted == {}
  {
    hide Pass;
  }

  /** After such a run from an empty namespace the gate is open or nothing stored is wrong. */
  lemma CleanRunsAreRight(cx: Context, specs: set<Spec>, spec: Spec, finalizers: set<string>, secret: bool, steps: seq<Step>)
    requires Admissible(cx, specs) && spec in specs
    requires RunAllowed(cx, specs, Empty(spec, finalizers, secret), steps) && RunLanded(cx, Empty(spec, finalizers, secret), steps)
    requires Run(cx, Empty(spec, finalizers, secret), steps).store.cr.Some?
    ensures var pt := Run(cx, Empty(spec, finalizers, secret), steps);
            Sound(cx, specs, pt) && (Open(cx, pt.store) || GateSound(pt.store.cr.value.spec, pt.store))
  {
    hide Admissible, RunAllowed, Run, RunLanded, Sound, GateSound, RevisionName;
    var start := Empty(spec, finalizers, secret);
    ChildrenComeFromSuspects(cx, specs, spec, finalizers, secret, steps);
    LandedRunsLeaveNoAttempt(cx, start, steps);
    if !Open(cx, Run(cx, start, steps).store) {
      ClosedGateIsSound(cx, specs, Run(cx, start, steps));
    }
  }

  /** From an empty namespace, after any run whose acting passes all got their advance through,
      whatever else failed or was edited, two undisturbed rounds converge. */
  lemma CleanRunsConvergeUndisturbed(cx: Context, specs: set<Spec>, spec: Spec, finalizers: set<string>, secret: bool, steps: seq<Step>,
                                     first: seq<Choices>, second: seq<Choices>)
    requires Admissible(cx, specs) && spec in specs
    requires RunAllowed(cx, specs, Empty(spec, finalizers, secret), steps) && RunLanded(cx, Empty(spec, finalizers, secret), steps)
    requires var st := Run(cx, Empty(spec, finalizers, secret), steps).store;
             st.cr.Some? && Active(st.cr.value) && TwoRoundsPossible(cx, st, first, second)
    requires |first| >= 3 && |second| >= 3
    ensures var st := Run(cx, Empty(spec, finalizers, secret), steps).store;
            Converged(st.cr.value.spec, TwoRounds(cx, st, first, second))
  {
    hide Admissible, RunAllowed, Run, RunLanded, Sound, Active, TwoRoundsPossible, TwoRounds, Converged, AtRest, GateSound, RevisionName;
    var start := Empty(spec, finalizers, secret);
    var pt := Run(cx, start, steps);
    CleanRunsAreRight(cx, specs, spec, finalizers, secret, steps);
    RunStates(cx, start, steps);
    ConvergesExactlyWhen(cx, specs, pt, first, second);
  }

  /** Some choices are possible along any number of undisturbed passes. */
  lemma {:induction false} ChoicesExist(cx: Context, st: Store, n: nat) returns (cs: seq<Choices>)
    ensures |cs| == n && QuietlyPossible(cx, st, cs)
    decreases n
  {
    hide Possible;
    if n == 0 {
      cs := [];
    } else {
      var c := ChoiceExists(cx, st);
      var rest := ChoicesExist(cx, PassFrom(cx, st, [], c).world.store, n - 1);
      cs := [c] + rest;
      assert cs[1..] == rest;
    }
  }

  lemma ChoiceExists(cx: Context, st: Store) returns (c: Choices)
    ensures StepPossible(cx, st, c)
  {
    hide Possible, ObserveAll, Act, Derive, StatusChanged, FactsOf, Call;
    var (w, o) := ObserveAll(cx, World(st, [], []));
    c := Choices([], [], []);
    if o.Seen? {
      c := ChoicesFor(o.snapshot);
      ProceedReports(cx, w, o.snapshot, c);
    }
  }
}
