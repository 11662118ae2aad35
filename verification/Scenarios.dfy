/** Runs that show which assumptions the theorems need. */
module Scenarios {
  import opened Types
  import opened Api
  import opened Observer
  import opened Updater
  import opened Reconciler
  import opened Controller
  import opened Protocol
  import opened Actions
  import opened Runs
  import opened Suspects
  import opened Invariants
  import opened Quiet
  import opened StatusMachine
  import opened Convergence
  import opened Stability
  import opened History
  import Converter

  // ---- Scripts that fail one call ----

  /** `n` calls served, with nothing in between, and then `rest`. */
  function Smooth(n: nat, rest: seq<Turn>): seq<Turn>
  {
    if n == 0 then rest else [Turn([], Served)] + Smooth(n - 1, rest)
  }

  const REFUSE_ONE := [Turn([], Refused)]

  lemma SmoothCall(w: World, op: Op, n: nat, rest: seq<Turn>)
    requires n > 0 && w.script == Smooth(n, rest)
    ensures Call(w, op).script == Smooth(n - 1, rest)
    ensures Call(w, op).store == Apply(w.store, op).0 && ReplyTo(w, op) == Apply(w.store, op).1
    ensures Landed(w, op) == Apply(w.store, op).1.Done?
  {
    assert Smooth(n, rest)[1..] == Smooth(n - 1, rest);
    assert Happen(w.store, []) == w.store;
  }

  lemma RefusedCall(w: World, op: Op)
    requires w.script == REFUSE_ONE
    ensures Call(w, op).script == [] && Call(w, op).store == w.store
    ensures ReplyTo(w, op) == Unavailable && !Landed(w, op)
  {
    assert Happen(w.store, []) == w.store;
  }

  lemma SmoothRead(w: World, op: Op, n: nat, rest: seq<Turn>)
    requires Reads(op) && w.script == Smooth(n + 1, rest)
    ensures Call(w, op).script == Smooth(n, rest) && Call(w, op).store == w.store
    ensures op == GetCr && w.store.cr.Some? ==> ReplyTo(w, op) == TheCr(w.store.cr.value)
    ensures op == GetSecret ==> ReplyTo(w, op) == if w.store.secret then TheSecret else NotFound
    ensures op.ListConfigMaps? ==> ReplyTo(w, op) == TheConfigMaps(SelectConfigMaps(w.store.configMaps, op.selector))
    ensures op.ListPods? ==> ReplyTo(w, op) == ThePods(SelectPods(w.store.pods, op.selector))
    ensures op.ListRevisions? ==> ReplyTo(w, op) == TheRevisions(SelectRevisions(w.store.revisions, op.selector))
  {
    SmoothCall(w, op, n + 1, rest);
  }

  lemma SmoothLists(cx: Context, w: World, s0: Snapshot, n: nat, rest: seq<Turn>)
    requires w.script == Smooth(n + 2, rest)
    ensures ObservePods(cx, w, s0).0.store == w.store && ObservePods(cx, w, s0).0.script == Smooth(n, rest)
    ensures ObservePods(cx, w, s0).1
         == Seen(s0.(pods := SelectPods(w.store.pods, CHILD_SELECTOR),
                     revisions := SelectRevisions(w.store.revisions, RevisionSelector(cx))))
  {
    hide Call, ReplyTo, SelectPods, SelectRevisions, RevisionSelector, Smooth, Reads, CHILD_SELECTOR, ObserveRevisions;
    var w1 := Call(w, ListPods(CHILD_SELECTOR));
    assert Reads(ListPods(CHILD_SELECTOR)) by { SelectorsOnlyRead(cx); }
    SmoothRead(w, ListPods(CHILD_SELECTOR), n + 1, rest);
    SmoothRevisions(cx, w1, s0.(pods := SelectPods(w.store.pods, CHILD_SELECTOR)), n, rest);
  }

  lemma SelectorsOnlyRead(cx: Context)
    ensures Reads(GetCr) && Reads(GetSecret) && Reads(ListConfigMaps(CHILD_SELECTOR)) && Reads(ListPods(CHILD_SELECTOR))
  {
  }

  lemma SmoothRevisions(cx: Context, w: World, s0: Snapshot, n: nat, rest: seq<Turn>)
    requires w.script == Smooth(n + 1, rest)
    ensures ObserveRevisions(cx, w, s0).0.store == w.store && ObserveRevisions(cx, w, s0).0.script == Smooth(n, rest)
    ensures ObserveRevisions(cx, w, s0).1 == Seen(s0.(revisions := SelectRevisions(w.store.revisions, RevisionSelector(cx))))
  {
    hide Call, ReplyTo, SelectRevisions, RevisionSelector, Smooth;
    SmoothRead(w, ListRevisions(RevisionSelector(cx)), n, rest);
  }

  lemma SmoothTables(cx: Context, w: World, s0: Snapshot, n: nat, rest: seq<Turn>)
    requires w.script == Smooth(n + 3, rest)
    ensures ObserveConfigMaps(cx, w, s0).0.store == w.store && ObserveConfigMaps(cx, w, s0).0.script == Smooth(n, rest)
    ensures ObserveConfigMaps(cx, w, s0).1
         == Seen(s0.(configMaps := SelectConfigMaps(w.store.configMaps, CHILD_SELECTOR),
                     pods := SelectPods(w.store.pods, CHILD_SELECTOR),
                     revisions := SelectRevisions(w.store.revisions, RevisionSelector(cx))))
  {
    hide Call, ReplyTo, SelectConfigMaps, SelectPods, SelectRevisions, RevisionSelector, Smooth, ObservePods;
    SmoothRead(w, ListConfigMaps(CHILD_SELECTOR), n + 2, rest);
    SmoothLists(cx, Call(w, ListConfigMaps(CHILD_SELECTOR)), s0.(configMaps := SelectConfigMaps(w.store.configMaps, CHILD_SELECTOR)), n, rest);
  }

  /** An observation whose five calls are served sees the store as it is. */
  lemma SmoothObserve(cx: Context, w: World, n: nat, rest: seq<Turn>)
    requires w.script == Smooth(n + 5, rest) && w.store.cr.Some?
    ensures ObserveAll(cx, w).0.store == w.store && ObserveAll(cx, w).0.script == Smooth(n, rest)
    ensures ObserveAll(cx, w).1 == Seen(SnapshotOf(cx, w.store))
  {
    hide Call, ReplyTo, ObserveConfigMaps, Smooth, SelectConfigMaps, SelectPods, SelectRevisions, RevisionSelector, Named, CHILD_SELECTOR;
    var w1 := Call(w, GetCr);
    SmoothRead(w, GetCr, n + 4, rest);
    SmoothRead(w1, GetSecret, n + 3, rest);
    SmoothTables(cx, Call(w1, GetSecret), Snapshot(Named(cx, w.store.cr.value), w.store.secret, map[], map[], map[]), n, rest);
  }

  /** A pass whose observation is served and finds nothing to write to the status acts. */
  lemma SmoothActs(cx: Context, st: Store, n: nat, rest: seq<Turn>, c: Choices) returns (w: World)
    requires st.cr.Some? && Active(st.cr.value)
    requires var s := SnapshotOf(cx, st);
             Derive(s.cr.status, FactsOf(s)).Some? && !StatusChanged(s.cr.status, Derive(s.cr.status, FactsOf(s)).value)
    ensures w.store == st && w.script == Smooth(n, rest)
    ensures PassFrom(cx, st, Smooth(n + 5, rest), c) == Act(cx, w, SnapshotOf(cx, st), c)
  {
    hide ObserveAll, Act, Derive, StatusChanged, FactsOf, Smooth, SelectConfigMaps, SelectPods, SelectRevisions, RevisionName;
    SmoothObserve(cx, World(st, Smooth(n + 5, rest), []), n, rest);
    w := ObserveAll(cx, World(st, Smooth(n + 5, rest), [])).0;
  }

  // ---- One entity, two specs ----

  const ENTITY := StatefulEntity("worker", "", "", "", "broker", "orders", "results", [])
  const SPEC_A := Spec("v1", "", [ENTITY], 1)
  const SPEC_B := Spec("v1", "", [ENTITY.(inputTopic := "payments")], 1)
  const BOTH := {SPEC_A, SPEC_B}
  const CONFIG_NAME := Converter.ConfigMapName("worker")

  function ConfigOf(spec: Spec): ConfigMap
    requires spec in BOTH
  {
    Converter.DesiredConfigMap(spec.entities[0])
  }

  lemma TwoSpecs(spec: Spec)
    requires spec in BOTH
    ensures Converter.DesiredConfigMaps(spec) == [ConfigOf(spec)] && Converter.DesiredPods(spec) == []
    ensures ConfigOf(spec).name == CONFIG_NAME && ConfigOf(spec).labels == Converter.CONFIG_MAP_LABELS
    ensures Converter.WellFormed(spec)
  {
    var entity := spec.entities[0];
    assert spec.entities[..|spec.entities| - 1] == [];
    assert Converter.PodsOf(entity, entity.pods) == [];
    assert Converter.DesiredPods(spec) == Converter.PodsOfAll([]) + Converter.PodsOf(entity, entity.pods);
  }

  lemma TopicsDiffer()
    ensures SPEC_A != SPEC_B && ConfigOf(SPEC_A) != ConfigOf(SPEC_B)
  {
    var a, b := SPEC_A.entities[0], SPEC_B.entities[0];
    assert a.inputTopic[0] != b.inputTopic[0];
    var textA := Converter.MainText(a.ioAddress, a.inputTopic, a.outputTopic);
    var textB := Converter.MainText(b.ioAddress, b.inputTopic, b.outputTopic);
    Converter.MainTextReadBack(a.ioAddress, a.inputTopic, a.outputTopic);
    Converter.MainTextReadBack(b.ioAddress, b.inputTopic, b.outputTopic);
    Converter.EntityDataMain(a, []);
    Converter.EntityDataMain(b, []);
    assert textA != textB;
  }

  lemma BothAdmissible(cx: Context)
    requires Faithful(cx, BOTH)
    ensures Admissible(cx, BOTH)
    ensures RevisionName(cx, SPEC_A) != RevisionName(cx, SPEC_B)
  {
    TwoSpecs(SPEC_A);
    TwoSpecs(SPEC_B);
    TopicsDiffer();
    hide Converter.WellFormed, RevisionName;
  }

  // ---- The stages of the run ----

  /** A live resource with this spec and status in a namespace with these ConfigMaps and no pods. */
  ghost predicate Stage(st: Store, spec: Spec, status: Status, configMaps: ConfigMapTable)
  {
    && st.cr.Some? && st.cr.value.finalizers == {FINALIZER} && !st.cr.value.deleting
    && st.cr.value.spec == spec && st.cr.value.status == status
    && st.configMaps == configMaps && st.pods == map[] && !st.secret
  }

  function Holding(spec: Spec): ConfigMapTable
    requires spec in BOTH
  {
    TwoSpecs(spec);
    map[CONFIG_NAME := ConfigOf(spec)]
  }

  function Creating(configMap: string, current: string, next: string): Status
  {
    Status([TYPE_AVAILABLE], Components(configMap, COMPONENT_READY, ""), STATE_CREATING, current, next)
  }

  /** The ConfigMaps of the run: none yet, or those of one of the two specs. */
  ghost predicate OfTheRun(configMaps: ConfigMapTable)
  {
    configMaps == map[] || configMaps == Holding(SPEC_A) || configMaps == Holding(SPEC_B)
  }

  lemma OfTheRunListed(configMaps: ConfigMapTable)
    requires OfTheRun(configMaps)
    ensures SelectConfigMaps(configMaps, CHILD_SELECTOR) == configMaps
    ensures |configMaps| != 0 <==> configMaps != map[]
  {
    TwoSpecs(SPEC_A);
    TwoSpecs(SPEC_B);
    hide ConfigOf;
    if configMaps != map[] {
      assert CONFIG_NAME in configMaps;
      assert Selects(CHILD_SELECTOR, configMaps[CONFIG_NAME].labels);
    }
  }

  lemma NoPodsReady()
    ensures |ReadyEntities(map[])| == 0 && |Entities(map[])| == 0 && SelectPods(map[], CHILD_SELECTOR) == map[]
  {
    assert Entities(map[]) == {} && ReadyEntities(map[]) == {};
  }

  lemma OneEntity(spec: Spec)
    requires spec in BOTH
    ensures |spec.entities| == 1
  {
  }

  lemma StageFacts(cx: Context, st: Store, spec: Spec, status: Status, configMaps: ConfigMapTable)
    requires Stage(st, spec, status, configMaps) && spec in BOTH && OfTheRun(configMaps)
    ensures FactsOf(SnapshotOf(cx, st)) == Facts(1, 0, 0, configMaps != map[], false)
    ensures SnapshotOf(cx, st).cr.status == status.(nextRevision := RevisionName(cx, spec))
    ensures SnapshotOf(cx, st).cr.spec == spec
    ensures SnapshotOf(cx, st).configMaps == configMaps && SnapshotOf(cx, st).pods == map[]
  {
    OneEntity(spec);
    OfTheRunListed(configMaps);
    NoPodsReady();
    hide RevisionName, SelectRevisions, SelectConfigMaps, SelectPods, Entities, ReadyEntities, OfTheRun;
  }

  /** With its one entity not running the resource stays in Creating, whatever the revisions. */
  lemma StageDerives(status: Status, hasConfigMaps: bool)
    requires status.state == "" || status.state == STATE_CREATING
    requires status.conditions == [] || status.conditions == [TYPE_AVAILABLE]
    requires status.components.configMap == "" && status.components.secret == ""
    ensures Derive(status, Facts(1, 0, 0, hasConfigMaps, false))
         == Some(Creating(if hasConfigMaps then COMPONENT_READY else "", status.currentRevision, status.nextRevision))
  {
  }

  /** A pass that only brings the recorded status up to date. */
  lemma StatusStage(cx: Context, st: Store, status: Status, configMaps: ConfigMapTable, spec: Spec, c: Choices)
    requires Stage(st, spec, status, configMaps) && spec in BOTH
    requires OfTheRun(configMaps)
    requires status == EMPTY_STATUS || (configMaps != map[] && status == Creating("", status.currentRevision, status.nextRevision))
    ensures PassFrom(cx, st, [], c).report.StatusOnly?
    ensures Stage(PassFrom(cx, st, [], c).world.store, spec,
                  Creating(if configMaps == map[] then "" else COMPONENT_READY, status.currentRevision, RevisionName(cx, spec)), configMaps)
  {
    hide Pass, FactsOf, SnapshotOf, RevisionName, Derive;
    StageFacts(cx, st, spec, status, configMaps);
    StageDerives(status.(nextRevision := RevisionName(cx, spec)), configMaps != map[]);
    assert KnownState(status.state);
    QuietStatusPass(cx, st, c);
    assert COMPONENT_READY != "";
  }

  /** In Creating with its components up to date, there is no status to write. */
  lemma StageIsQuiet(cx: Context, st: Store, spec: Spec, configMap: string, current: string, next: string, configMaps: ConfigMapTable)
    requires Stage(st, spec, Creating(configMap, current, next), configMaps) && spec in BOTH
    requires OfTheRun(configMaps)
    requires configMap == if configMaps == map[] then "" else COMPONENT_READY
    ensures var s := SnapshotOf(cx, st);
            Derive(s.cr.status, FactsOf(s)).Some? && !StatusChanged(s.cr.status, Derive(s.cr.status, FactsOf(s)).value)
  {
    hide FactsOf, SnapshotOf, RevisionName;
    StageFacts(cx, st, spec, Creating(configMap, current, next), configMaps);
  }

  /** The first action pass stores the ConfigMap and makes the first revision current. */
  lemma FirstStage(cx: Context, pt: Point, c: Choices)
    requires Faithful(cx, BOTH) && Sound(cx, BOTH, pt)
    requires Stage(pt.store, SPEC_A, Creating("", "", RevisionName(cx, SPEC_A)), map[])
    requires Possible(c, SnapshotOf(cx, pt.store))
    ensures StepAllowed(cx, BOTH, pt, Passes([], c))
    ensures var after := After(cx, pt, Passes([], c));
            && Stage(after.store, SPEC_A, Creating("", RevisionName(cx, SPEC_A), RevisionName(cx, SPEC_A)), Holding(SPEC_A))
            && after.trail == Trail(Some(SPEC_A), {})
  {
    hide Pass, FactsOf, SnapshotOf, RevisionName, Derive, StatusChanged, SettledPods, SettledConfigMaps, Faithful, Sound, Possible,
         BOTH, Holding, OfTheRun, AtHome, Admissible, SPEC_A, ConfigOf, StepAllowed, QuietlyPossible, UpToDate;
    var st, s := pt.store, SnapshotOf(cx, pt.store);
    assert SPEC_A in BOTH && OfTheRun(map[]) by { FirstSpec(); }
    StageIsQuiet(cx, st, SPEC_A, "", "", RevisionName(cx, SPEC_A), map[]);
    StageFacts(cx, st, SPEC_A, Creating("", "", RevisionName(cx, SPEC_A)), map[]);
    assert KnownState(STATE_CREATING);
    QuietStatusPass(cx, st, c);
    BothAdmissible(cx);
    PossibleIsAllowed(cx, BOTH, pt, c);
    QuietAct(cx, BOTH, pt, c);
    TwoSpecs(SPEC_A);
    FirstTables(s);
    assert Gate(s);
  }

  lemma FirstSpec()
    ensures SPEC_A in BOTH && SPEC_B in BOTH && OfTheRun(map[]) && OfTheRun(Holding(SPEC_A)) && OfTheRun(Holding(SPEC_B))
    ensures Holding(SPEC_A) != map[] && Holding(SPEC_A).Keys == {CONFIG_NAME}
    ensures Holding(SPEC_A)[CONFIG_NAME := ConfigOf(SPEC_B)] == Holding(SPEC_B)
  {
    hide ConfigOf;
    assert CONFIG_NAME in Holding(SPEC_A);
  }

  lemma FirstTables(s: Snapshot)
    requires s.configMaps == map[] && s.pods == map[]
    ensures SettledConfigMaps(map[], s, [ConfigOf(SPEC_A)]) == Holding(SPEC_A)
    ensures SettledPods(map[], s, []) == map[]
  {
    TwoSpecs(SPEC_A);
    var list := [ConfigOf(SPEC_A)];
    assert list[1..] == [];
    assert ConfigMapTableOf(list) == Holding(SPEC_A);
    assert Condemned(s, []) == {} && Created(s, []) == map[];
  }

  // ---- The half-applied pass ----

  lemma {:induction false} NothingDropped(w: World, s: Snapshot, wanted: set<string>, order: seq<string>)
    requires forall n :: n in order ==> n in wanted
    ensures DropConfigMaps(w, s, wanted, order) == Progress(w, true)
    decreases |order|
  {
    if order != [] { NothingDropped(w, s, wanted, order[1..]); }
  }

  lemma {:induction false} NoPodDropped(w: World, s: Snapshot, wanted: set<string>, order: seq<string>)
    requires s.pods == map[]
    ensures DropPods(w, s, wanted, order) == Progress(w, true)
    decreases |order|
  {
    if order != [] { NoPodDropped(w, s, wanted, order[1..]); }
  }

  /** The one ConfigMap is updated; there is nothing else to do for the children. */
  lemma UpdatedChildren(w: World, s: Snapshot, c: Choices, cm: ConfigMap)
    requires w.script == Smooth(1, REFUSE_ONE) && cm.name in w.store.configMaps
    requires s.configMaps.Keys == {cm.name} && s.pods == map[] && Gate(s) && Possible(c, s)
    ensures var r := ApplyChildren(w, s, DesiredState([cm], []), c);
            r.ok && r.world.script == REFUSE_ONE
            && r.world.store == w.store.(configMaps := w.store.configMaps[cm.name := cm])
  {
    hide Call, ReplyTo, Landed, Smooth;
    var update := UpdateConfigMap(cm);
    var w1 := Call(w, update);
    SmoothCall(w, update, 1, REFUSE_ONE);
    SmoothNone(REFUSE_ONE);
    assert [cm][1..] == [];
    assert EnsureConfigMaps(w, s, [cm]) == Progress(w1, true);
    NothingDropped(w1, s, ConfigMapNames([cm]), c.configMaps);
    NoPodDropped(w1, s, PodNames([]), c.pods);
  }

  /** The update of the one ConfigMap is served and the status write after it is refused. */
  lemma HalfAppliedRound(w: World, s: Snapshot, c: Choices)
    requires w.script == Smooth(1, REFUSE_ONE) && w.store.configMaps == Holding(SPEC_A)
    requires s.cr.spec == SPEC_B && s.configMaps == Holding(SPEC_A) && s.pods == map[] && Gate(s) && Possible(c, s)
    ensures var r := Reconcile(w, s, Desired(SPEC_B), c);
            r.reached && !r.landed && r.world.script == [] && r.world.store == w.store.(configMaps := Holding(SPEC_B))
  {
    FirstSpec();
    TwoSpecs(SPEC_B);
    hide Call, ReplyTo, Landed, ConfigOf, Smooth, ApplyChildren, Possible, SPEC_A, SPEC_B, BOTH, Holding, OfTheRun, CONFIG_NAME,
         Converter.DesiredConfigMaps, Converter.DesiredPods, Converter.WellFormed;
    var cm := ConfigOf(SPEC_B);
    assert Desired(SPEC_B) == DesiredState([cm], []);
    UpdatedChildren(w, s, c, cm);
    RefusedCall(ApplyChildren(w, s, Desired(SPEC_B), c).world, AdvanceOp(s));
  }

  lemma SmoothNone(rest: seq<Turn>)
    ensures Smooth(0, rest) == rest
  {
  }

  lemma HalfStage(cx: Context, pt: Point, c: Choices)
    requires Faithful(cx, BOTH)
    requires Stage(pt.store, SPEC_B, Creating(COMPONENT_READY, RevisionName(cx, SPEC_A), RevisionName(cx, SPEC_B)), Holding(SPEC_A))
    requires Possible(c, SnapshotOf(cx, pt.store))
    ensures StepAllowed(cx, BOTH, pt, Passes(Smooth(6, REFUSE_ONE), c))
    ensures var after := After(cx, pt, Passes(Smooth(6, REFUSE_ONE), c));
            && Stage(after.store, SPEC_B, pt.store.cr.value.status, Holding(SPEC_B))
            && after.trail == pt.trail.(attempted := pt.trail.attempted + {SPEC_B})
  {
    hide Pass, FactsOf, SnapshotOf, RevisionName, Derive, StatusChanged, Faithful, Possible, Act, Reconcile, Smooth, Holding,
         BOTH, OfTheRun, SPEC_A, SPEC_B, ScriptWithin, Admissible;
    var st, s := pt.store, SnapshotOf(cx, pt.store);
    BothAdmissible(cx);
    FirstSpec();
    StageIsQuiet(cx, st, SPEC_B, COMPONENT_READY, RevisionName(cx, SPEC_A), RevisionName(cx, SPEC_B), Holding(SPEC_A));
    StageFacts(cx, st, SPEC_B, st.cr.value.status, Holding(SPEC_A));
    var w := SmoothActs(cx, st, 1, REFUSE_ONE, c);
    HalfAppliedRound(w, s, c);
    QuietBookkeeping(cx, w, s, c);
    QuietActReport(cx, w, s, c);
    ActReports(cx, w, s, c);
    SmoothWithin(BOTH, 6);
  }

  lemma {:induction false} SmoothWithin(specs: set<Spec>, n: nat)
    ensures ScriptWithin(specs, Smooth(n, REFUSE_ONE))
  {
    if n > 0 { SmoothWithin(specs, n - 1); }
  }

  // ---- Apply one spec, half-apply another, roll back ----

  lemma StageSound(cx: Context, pt: Point, steps: seq<Step>, start: Point)
    requires Faithful(cx, BOTH) && start == Empty(SPEC_A, {FINALIZER}, false)
    requires RunAllowed(cx, BOTH, start, steps) && pt == Run(cx, start, steps)
    ensures Sound(cx, BOTH, pt)
  {
    hide Sound, RunAllowed, Run, Admissible, Faithful;
    BothAdmissible(cx);
    FirstSpec();
    ChildrenComeFromSuspects(cx, BOTH, SPEC_A, {FINALIZER}, false, steps);
  }

  /** The run up to the point where the first spec is in place. */
  lemma ApplyFirst(cx: Context) returns (steps: seq<Step>)
    requires Faithful(cx, BOTH)
    ensures var start := Empty(SPEC_A, {FINALIZER}, false);
            && RunAllowed(cx, BOTH, start, steps)
            && Stage(Run(cx, start, steps).store, SPEC_A, Creating("", RevisionName(cx, SPEC_A), RevisionName(cx, SPEC_A)), Holding(SPEC_A))
            && Run(cx, start, steps).trail == Trail(Some(SPEC_A), {})
  {
    hide Pass, SnapshotOf, RevisionName, Faithful, Sound, Possible, BOTH, Holding, OfTheRun, SPEC_A, StepAllowed, RunAllowed, After, Run;
    var start := Empty(SPEC_A, {FINALIZER}, false);
    var none := Choices([], [], []);
    FirstSpec();
    NoSteps(cx, start);
    StatusStage(cx, start.store, EMPTY_STATUS, map[], SPEC_A, none);
    IdleStep(cx, start, none);
    Extend(cx, BOTH, start, [], Passes([], none));
    steps := [] + [Passes([], none)];
    var pt := Run(cx, start, steps);
    StageSound(cx, pt, steps, start);
    var c := ChoicesFor(SnapshotOf(cx, pt.store));
    FirstStage(cx, pt, c);
    Extend(cx, BOTH, start, steps, Passes([], c));
    steps := steps + [Passes([], c)];
  }

  lemma NoSteps(cx: Context, pt: Point)
    ensures Run(cx, pt, []) == pt && RunAllowed(cx, BOTH, pt, [])
  {
  }

  lemma IdleStep(cx: Context, pt: Point, c: Choices)
    requires PassFrom(cx, pt.store, [], c).report.StatusOnly?
    ensures StepAllowed(cx, BOTH, pt, Passes([], c))
    ensures After(cx, pt, Passes([], c)) == Point(PassFrom(cx, pt.store, [], c).world.store, pt.trail)
  {
    hide Pass;
  }

  lemma EditStep(cx: Context, pt: Point, spec: Spec, status: Status, configMaps: ConfigMapTable, to: Spec)
    requires Stage(pt.store, spec, status, configMaps) && to in BOTH
    ensures StepAllowed(cx, BOTH, pt, Happens(EditSpec(to)))
    ensures Stage(After(cx, pt, Happens(EditSpec(to))).store, to, status, configMaps)
    ensures After(cx, pt, Happens(EditSpec(to))).trail == pt.trail
  {
    hide BOTH;
  }

  /** Edit to the second spec, apply half of it, and go back. */
  lemma HalfApplyAndBack(cx: Context, start: Point, before: seq<Step>) returns (steps: seq<Step>)
    requires Faithful(cx, BOTH) && RunAllowed(cx, BOTH, start, before)
    requires Stage(Run(cx, start, before).store, SPEC_A, Creating("", RevisionName(cx, SPEC_A), RevisionName(cx, SPEC_A)), Holding(SPEC_A))
    requires Run(cx, start, before).trail == Trail(Some(SPEC_A), {})
    ensures RunAllowed(cx, BOTH, start, steps)
    ensures Stage(Run(cx, start, steps).store, SPEC_A, Creating(COMPONENT_READY, RevisionName(cx, SPEC_A), RevisionName(cx, SPEC_B)), Holding(SPEC_B))
    ensures Run(cx, start, steps).trail == Trail(Some(SPEC_A), {SPEC_B})
  {
    hide *;
    FirstSpec();
    var none := Choices([], [], []);
    var a := RevisionName(cx, SPEC_A);
    EditStep(cx, Run(cx, start, before), SPEC_A, Creating("", a, a), Holding(SPEC_A), SPEC_B);
    Extend(cx, BOTH, start, before, Happens(EditSpec(SPEC_B)));
    steps := before + [Happens(EditSpec(SPEC_B))];
    var pt := Run(cx, start, steps);
    CreatingFields("", a, a);
    StatusStage(cx, pt.store, Creating("", a, a), Holding(SPEC_A), SPEC_B, none);
    IdleStep(cx, pt, none);
    Extend(cx, BOTH, start, steps, Passes([], none));
    steps := steps + [Passes([], none)];
    pt := Run(cx, start, steps);
    StagePresent(pt.store, SPEC_B, Creating(COMPONENT_READY, a, RevisionName(cx, SPEC_B)), Holding(SPEC_A));
    var c := ChoicesFor(SnapshotOf(cx, pt.store));
    HalfStage(cx, pt, c);
    Extend(cx, BOTH, start, steps, Passes(Smooth(6, REFUSE_ONE), c));
    steps := steps + [Passes(Smooth(6, REFUSE_ONE), c)];
    pt := Run(cx, start, steps);
    EditStep(cx, pt, SPEC_B, Creating(COMPONENT_READY, a, RevisionName(cx, SPEC_B)), Holding(SPEC_B), SPEC_A);
    Extend(cx, BOTH, start, steps, Happens(EditSpec(SPEC_A)));
    steps := steps + [Happens(EditSpec(SPEC_A))];
    assert {} + {SPEC_B} == {SPEC_B};
  }

  lemma CreatingFields(configMap: string, current: string, next: string)
    ensures Creating(configMap, current, next).currentRevision == current && Creating(configMap, current, next).nextRevision == next
  {
  }

  lemma StagePresent(st: Store, spec: Spec, status: Status, configMaps: ConfigMapTable)
    requires Stage(st, spec, status, configMaps)
    ensures st.cr.Some? && st.cr.value.status == status
  {
  }

  lemma WrongBehindClosedGate(cx: Context, st: Store, next: string)
    requires Stage(st, SPEC_A, Creating(COMPONENT_READY, RevisionName(cx, SPEC_A), next), Holding(SPEC_B))
    ensures Ready(st) && !Open(cx, st) && st.cr.value.spec == SPEC_A && !GateSound(SPEC_A, st)
  {
    TwoSpecs(SPEC_A);
    TwoSpecs(SPEC_B);
    TopicsDiffer();
    hide ConfigOf, RevisionName, SPEC_A, SPEC_B;
    var d := ConfigOf(SPEC_A);
    assert d in Converter.DesiredConfigMaps(SPEC_A);
    assert st.configMaps[d.name] == ConfigOf(SPEC_B);
  }

  /** The assumption behind gate soundness is needed: for every faithful encoding there is a run
      from an empty namespace, with a single refused call, that applies one spec, updates the
      ConfigMap for another, fails before the advance and is rolled back.  It leaves the other
      spec's ConfigMap behind a closed gate, and no later undisturbed passes mend it. */
  lemma HalfAppliedRollback(cx: Context) returns (steps: seq<Step>)
    requires Faithful(cx, BOTH)
    ensures var start := Empty(SPEC_A, {FINALIZER}, false);
            var end := Run(cx, start, steps);
            && RunAllowed(cx, BOTH, start, steps)
            && Ready(end.store) && end.store.cr.value.spec == SPEC_A && end.trail.attempted == {SPEC_B}
            && !Open(cx, end.store) && !GateSound(SPEC_A, end.store)
            && (forall first, second :: |first| >= 3 && |second| >= 3 && TwoRoundsPossible(cx, end.store, first, second) ==>
                  !Converged(SPEC_A, TwoRounds(cx, end.store, first, second)))
  {
    hide RevisionName, Faithful, BOTH, Holding, SPEC_A, SPEC_B, RunAllowed, Run, Stage, Ready, Open, GateSound, Converged, TwoRounds, TwoRoundsPossible, Sound, Admissible, AtRest;
    var start := Empty(SPEC_A, {FINALIZER}, false);
    var before := ApplyFirst(cx);
    steps := HalfApplyAndBack(cx, start, before);
    var end := Run(cx, start, steps);
    WrongBehindClosedGate(cx, end.store, RevisionName(cx, SPEC_B));
    StageSound(cx, end, steps, start);
    BothAdmissible(cx);
    forall first, second | |first| >= 3 && |second| >= 3 && TwoRoundsPossible(cx, end.store, first, second)
      ensures !Converged(SPEC_A, TwoRounds(cx, end.store, first, second))
    {
      ConvergesExactlyWhen(cx, BOTH, end, first, second);
    }
  }

  // ---- A revision that is lost ----

  lemma CreatedChildren(w: World, s: Snapshot, c: Choices, cm: ConfigMap)
    requires w.script == Smooth(3, REFUSE_ONE) && w.store.configMaps == map[]
    requires s.configMaps == map[] && s.pods == map[] && Possible(c, s)
    ensures var r := ApplyChildren(w, s, DesiredState([cm], []), c);
            r.ok && r.world.script == Smooth(2, REFUSE_ONE) && r.world.store == w.store.(configMaps := map[cm.name := cm])
  {
    hide Call, ReplyTo, Landed, Smooth;
    var w1 := Call(w, CreateConfigMap(cm));
    SmoothCall(w, CreateConfigMap(cm), 3, REFUSE_ONE);
    assert [cm][1..] == [];
    assert s.configMaps.Keys == {};
    EnumerationSize(c.configMaps, s.configMaps.Keys);
    assert EnsureConfigMaps(w, s, [cm]) == Progress(w1, true);
    NothingDropped(w1, s, ConfigMapNames([cm]), c.configMaps);
    NoPodDropped(w1, s, PodNames([]), c.pods);
  }

  /** The one ConfigMap is created and the status write is served. */
  lemma CreatedRound(w: World, s: Snapshot, c: Choices, cm: ConfigMap)
    requires w.script == Smooth(3, REFUSE_ONE) && w.store.configMaps == map[] && w.store.cr.Some?
    requires s.configMaps == map[] && s.pods == map[] && Possible(c, s)
    requires s.cr.resourceVersion == w.store.cr.value.resourceVersion
    ensures var r := Reconcile(w, s, DesiredState([cm], []), c);
            && r.landed && r.world.script == Smooth(1, REFUSE_ONE)
            && r.world.store.revisions == w.store.revisions && r.world.store.cr.Some?
            && r.world.store.cr.value.status.currentRevision == s.cr.status.nextRevision
  {
    hide Call, ReplyTo, Landed, Smooth, ApplyChildren;
    CreatedChildren(w, s, c, cm);
    SmoothCall(ApplyChildren(w, s, DesiredState([cm], []), c).world, AdvanceOp(s), 2, REFUSE_ONE);
  }

  /** The first revision is looked for, not found, and not created. */
  lemma RefusedRevision(cx: Context, w: World, cr: Cr)
    requires w.script == Smooth(1, REFUSE_ONE) && w.store.revisions == map[] && cr.status.currentRevision == ""
    ensures !SyncRevisions(cx, w, cr).ok && SyncRevisions(cx, w, cr).world.store == w.store
  {
    hide Call, ReplyTo, Landed, Smooth, RevisionName;
    var get := GetRevision(RevisionName(cx, cr.spec));
    SmoothCall(w, get, 1, REFUSE_ONE);
    SmoothNone(REFUSE_ONE);
    RefusedCall(Call(w, get), CreateRevision(RevisionFor(cx, cr.spec, 1)));
  }

  lemma LostStage(cx: Context, pt: Point, c: Choices)
    requires Faithful(cx, BOTH) && pt.store.revisions == map[]
    requires Stage(pt.store, SPEC_A, Creating("", "", RevisionName(cx, SPEC_A)), map[])
    requires Possible(c, SnapshotOf(cx, pt.store))
    ensures StepAllowed(cx, BOTH, pt, Passes(Smooth(8, REFUSE_ONE), c))
    ensures var after := After(cx, pt, Passes(Smooth(8, REFUSE_ONE), c)).store;
            Dangling(after) && after.revisions == map[]
  {
    hide Pass, FactsOf, SnapshotOf, RevisionName, Derive, StatusChanged, Faithful, Possible, Reconcile, SyncRevisions, Smooth, Holding,
         BOTH, OfTheRun, SPEC_A, SPEC_B, ScriptWithin, Admissible, CleanupOldRevisions, ConfigOf;
    var st, s := pt.store, SnapshotOf(cx, pt.store);
    FirstSpec();
    TwoSpecs(SPEC_A);
    StageIsQuiet(cx, st, SPEC_A, "", "", RevisionName(cx, SPEC_A), map[]);
    StageFacts(cx, st, SPEC_A, st.cr.value.status, map[]);
    SnapshotVersion(cx, st);
    var w := SmoothActs(cx, st, 3, REFUSE_ONE, c);
    CreatedRound(w, s, c, ConfigOf(SPEC_A));
    RefusedRevision(cx, Reconcile(w, s, Desired(SPEC_A), c).world, s.cr);
    ActReports(cx, w, s, c);
    SmoothWithin(BOTH, 8);
  }

  lemma SnapshotVersion(cx: Context, st: Store)
    requires st.cr.Some?
    ensures SnapshotOf(cx, st).cr.resourceVersion == st.cr.value.resourceVersion
  {
  }

  /** For every faithful encoding there is a run from an empty namespace, with a single refused
      call, after which the current revision names nothing stored; and however the run goes on
      over these specs, with any edits and failures, no revision is ever recorded again. */
  lemma LostRevision(cx: Context) returns (steps: seq<Step>)
    requires Faithful(cx, BOTH)
    ensures var start := Empty(SPEC_A, {FINALIZER}, false);
            var end := Run(cx, start, steps);
            && RunAllowed(cx, BOTH, start, steps) && Dangling(end.store)
            && (forall more :: RunAllowed(cx, BOTH, end, more) ==>
                  var later := Run(cx, end, more).store;
                  later.revisions == map[] && (later.cr.Some? ==> Dangling(later)))
  {
    hide Pass, SnapshotOf, RevisionName, Faithful, Sound, Possible, BOTH, Holding, OfTheRun, SPEC_A, StepAllowed, RunAllowed, After, Run, Smooth, Dangling;
    var start := Empty(SPEC_A, {FINALIZER}, false);
    var none := Choices([], [], []);
    FirstSpec();
    NoSteps(cx, start);
    StatusStage(cx, start.store, EMPTY_STATUS, map[], SPEC_A, none);
    IdlePass(cx, start.store, [], none);
    IdleStep(cx, start, none);
    Extend(cx, BOTH, start, [], Passes([], none));
    steps := [] + [Passes([], none)];
    var pt := Run(cx, start, steps);
    var c := ChoicesFor(SnapshotOf(cx, pt.store));
    LostStage(cx, pt, c);
    Extend(cx, BOTH, start, steps, Passes(Smooth(8, REFUSE_ONE), c));
    steps := steps + [Passes(Smooth(8, REFUSE_ONE), c)];
    StageSound(cx, Run(cx, start, steps), steps, start);
    LostForGood(cx, Run(cx, start, steps));
  }

  lemma LostForGood(cx: Context, pt: Point)
    requires Dangling(pt.store) && pt.store.revisions == map[] && Sound(cx, BOTH, pt)
    ensures forall more :: RunAllowed(cx, BOTH, pt, more) ==>
              var later := Run(cx, pt, more).store;
              later.revisions == map[] && (later.cr.Some? ==> Dangling(later))
  {
    hide Dangling, RevisionName, RunAllowed, Run, ChildrenFrom;
    forall more | RunAllowed(cx, BOTH, pt, more)
      ensures var later := Run(cx, pt, more).store;
              later.revisions == map[] && (later.cr.Some? ==> Dangling(later))
    {
      DanglingPersists(cx, BOTH, pt, more);
    }
  }
}
