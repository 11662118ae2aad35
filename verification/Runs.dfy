/** Runs: passes and environment moves in any order, and what every one of them keeps. */
module Runs {
  import opened Types
  import opened Api
  import opened Observer
  import opened Updater
  import opened Reconciler
  import opened Controller
  import opened Protocol
  import Converter

  // ---- Runs ----

  /** The history a reader of the cluster would want: the spec that was last applied in full
      through an open gate, and the specs whose application was begun since. */
  datatype Trail = Trail(applied: Option<Spec>, attempted: set<Spec>)

  datatype Point = Point(store: Store, trail: Trail)

  /** A step of a run: the environment moves between passes, or a pass runs, with the
      environment's moves and the failures around its calls in `script`. */
  datatype Step = Happens(event: Event) | Passes(script: seq<Turn>, choices: Choices)

  function PassFrom(cx: Context, st: Store, script: seq<Turn>, c: Choices): PassResult
  {
    Pass(cx, World(st, script, []), c)
  }

  /** A pass behind a closed gate neither applies nor attempts anything new. */
  function Noted(t: Trail, report: Report): Trail
  {
    if !report.Acted? || !Gate(report.s) then t
    else if report.landed then Trail(Some(report.s.cr.spec), {})
    else t.(attempted := t.attempted + {report.s.cr.spec})
  }

  function After(cx: Context, pt: Point, step: Step): Point
  {
    match step
    case Happens(e) => Point(Occur(pt.store, e), pt.trail)
    case Passes(script, c) =>
      var r := PassFrom(cx, pt.store, script, c);
      Point(r.world.store, Noted(pt.trail, r.report))
  }

  function Run(cx: Context, pt: Point, steps: seq<Step>): Point
  {
    if steps == [] then pt else After(cx, Run(cx, pt, steps[..|steps| - 1]), steps[|steps| - 1])
  }

  // ---- Assumptions ----

  ghost predicate EditsWithin(specs: set<Spec>, e: Event) { e.EditSpec? ==> e.spec in specs }

  ghost predicate ScriptWithin(specs: set<Spec>, script: seq<Turn>)
  {
    forall i, k :: 0 <= i < |script| && 0 <= k < |script[i].before| ==> EditsWithin(specs, script[i].before[k])
  }

  /** Pod names stay in one entity over all specs of the run. */
  ghost predicate SameHomes(specs: set<Spec>)
  {
    forall s, t, p, q :: s in specs && t in specs && p in Converter.DesiredPods(s) && q in Converter.DesiredPods(t)
      && p.name == q.name
      ==> EntityOf(p) == EntityOf(q)
  }

  /** The specs of a run: well-formed, faithfully encoded, with stable homes. */
  ghost predicate Admissible(cx: Context, specs: set<Spec>)
  {
    Faithful(cx, specs) && SameHomes(specs) && forall s :: s in specs ==> Converter.WellFormed(s)
  }

  ghost predicate StepAllowed(cx: Context, specs: set<Spec>, pt: Point, step: Step)
  {
    match step
    case Happens(e) => EditsWithin(specs, e)
    case Passes(script, c) =>
      && ScriptWithin(specs, script)
      && var report := PassFrom(cx, pt.store, script, c).report;
         (report.Acted? ==> Possible(c, report.s))
  }

  ghost predicate RunAllowed(cx: Context, specs: set<Spec>, pt: Point, steps: seq<Step>)
  {
    forall i :: 0 <= i < |steps| ==> StepAllowed(cx, specs, Run(cx, pt, steps[..i]), steps[i])
  }

  /** A freshly created resource in a namespace without children. */
  function Empty(spec: Spec, finalizers: set<string>, secret: bool): Point
  {
    Point(Store(Some(Cr(finalizers, false, 0, spec, EMPTY_STATUS)), secret, map[], map[], map[]), Trail(None, {}))
  }

  // ---- Specs stay within the run's specs ----

  ghost predicate CrWithin(specs: set<Spec>, cr: Option<Cr>) { cr.Some? ==> cr.value.spec in specs }

  lemma {:induction false} EventsWithin(specs: set<Spec>, st: Store, events: seq<Event>)
    requires CrWithin(specs, st.cr) && forall k :: 0 <= k < |events| ==> EditsWithin(specs, events[k])
    ensures CrWithin(specs, Happen(st, events).cr)
    decreases |events|
  {
    if events != [] {
      assert EditsWithin(specs, events[0]);
      EventsWithin(specs, Occur(st, events[0]), events[1..]);
    }
  }

  lemma CallWithin(specs: set<Spec>, w: World, op: Op)
    requires CrWithin(specs, w.store.cr) && ScriptWithin(specs, w.script)
    requires op.UpdateCr? ==> op.cr.spec in specs
    ensures CrWithin(specs, Call(w, op).store.cr) && ScriptWithin(specs, Call(w, op).script)
  {
    var events := NextTurn(w).before;
    if w.script != [] {
      assert forall k :: 0 <= k < |events| ==> EditsWithin(specs, w.script[0].before[k]);
      var rest := w.script[1..];
      assert forall i :: 0 <= i < |rest| ==> rest[i] == w.script[i + 1];
    }
    EventsWithin(specs, w.store, events);
    var before := CallShape(w, op);
  }

  lemma {:induction false} CallsWithin(specs: set<Spec>, w: World, ops: seq<Op>)
    requires CrWithin(specs, w.store.cr) && ScriptWithin(specs, w.script)
    requires forall op :: op in ops ==> !op.UpdateCr?
    ensures CrWithin(specs, Calls(w, ops).store.cr) && ScriptWithin(specs, Calls(w, ops).script)
    decreases |ops|
  {
    if ops != [] {
      assert ops[0] in ops;
      CallWithin(specs, w, ops[0]);
      CallsWithin(specs, Call(w, ops[0]), ops[1..]);
    }
  }

  // ---- What a pass does to the resource ----

  /** The last write of a round lands only on the very resource that was read. */
  lemma RoundCr(cx: Context, w: World, s: Snapshot, c: Choices, read: Cr)
    requires s.cr == Named(cx, read) && CrDrifts(Some(read), w.store.cr)
    ensures var r := Reconcile(w, s, Desired(s.cr.spec), c);
            && (r.landed ==> r.reached && r.world.store.cr == Some(Touched(read).(status := s.cr.status.(currentRevision := s.cr.status.nextRevision))))
            && (!r.landed ==> CrDrifts(Some(read), r.world.store.cr))
  {
    hide ApplyChildren, Calls;
    var children := ApplyChildren(w, s, Desired(s.cr.spec), c);
    var ops := ChildCalls(cx, w, s, c);
    CallsDrift(w, ops);
    CrDriftsOn(Some(read), w.store.cr, children.world.store.cr);
    if children.ok {
      AdvanceCr(cx, children.world, s, read);
    }
  }

  lemma AdvanceCr(cx: Context, w: World, s: Snapshot, read: Cr)
    requires s.cr == Named(cx, read) && CrDrifts(Some(read), w.store.cr)
    ensures var cr := Call(w, AdvanceOp(s)).store.cr;
            && (Landed(w, AdvanceOp(s)) ==> cr == Some(Touched(read).(status := s.cr.status.(currentRevision := s.cr.status.nextRevision))))
            && (!Landed(w, AdvanceOp(s)) ==> CrDrifts(Some(read), cr))
  {
    var before := CallShape(w, AdvanceOp(s));
    hide Landed, Call, Happen;
    CrDriftsOn(Some(read), w.store.cr, before.cr);
  }

  /** The status a pass leaves, in terms of the status it found. */
  ghost predicate StatusStep(cx: Context, before: Status, report: Report, after: Status)
  {
    match report
    case StatusOnly(s, next, landed) =>
      s.cr.status == before.(nextRevision := RevisionName(cx, s.cr.spec))
      && Derive(s.cr.status, FactsOf(s)) == Some(next) && after == if landed then next else before
    case Acted(s, reached, landed, _) =>
      s.cr.status == before.(nextRevision := RevisionName(cx, s.cr.spec))
      && (landed ==> reached)
      && after == if landed then s.cr.status.(currentRevision := s.cr.status.nextRevision) else before
    case _ => after == before
  }

  lemma StatusStays(cx: Context, status: Status, report: Report)
    requires !report.StatusOnly? && !report.Acted?
    ensures StatusStep(cx, status, report, status)
  {
  }

  lemma ActCr(cx: Context, w: World, s: Snapshot, c: Choices, read: Cr)
    requires s.cr == Named(cx, read) && CrDrifts(Some(read), w.store.cr)
    ensures var r := Act(cx, w, s, c);
            && (r.world.store.cr.Some? ==> StatusStep(cx, read.status, r.report, r.world.store.cr.value.status))
            && (read.finalizers != {} ==> r.world.store.cr.Some?)
            && (r.world.store.cr.Some? ==> r.world.store.cr.value.finalizers == read.finalizers)
  {
    hide Reconcile, SyncRevisions, CleanupOldRevisions, Calls, Derive, FactsOf, PodsAge, Legit, Desired;
    var round := Reconcile(w, s, Desired(s.cr.spec), c);
    RoundCr(cx, w, s, c, read);
    var ops := AfterRoundCalls(cx, round.world, s, c);
    CallsDrift(round.world, ops);
    assert forall op :: op in ops ==> !WritesCr(op);
    assert Act(cx, w, s, c).world == Calls(round.world, ops);
  }

  lemma StatusWriteCr(cx: Context, w: World, s: Snapshot, next: Status, read: Cr)
    requires s.cr == Named(cx, read) && CrDrifts(Some(read), w.store.cr) && Derive(s.cr.status, FactsOf(s)) == Some(next)
    ensures var op := UpdateStatus(s.cr.(status := next));
            Call(w, op).store.cr.Some? ==>
              StatusStep(cx, read.status, StatusOnly(s, next, Landed(w, op)), Call(w, op).store.cr.value.status)
  {
    var before := CallShape(w, UpdateStatus(s.cr.(status := next)));
    hide Landed, Call, Happen, Derive, FactsOf;
  }

  lemma FinalizerWriteCr(w: World, s: Snapshot)
    ensures var cr := Call(w, FinalizerOp(s.cr)).store.cr;
            cr.Some? ==> w.store.cr.Some? && cr.value.status == w.store.cr.value.status
  {
    var before := CallShape(w, FinalizerOp(s.cr));
    hide Landed, Call, Happen;
  }

  lemma ProceedCr(cx: Context, w: World, s: Snapshot, c: Choices, read: Cr)
    requires s.cr == Named(cx, read) && CrDrifts(Some(read), w.store.cr)
    ensures var r := Proceed(cx, w, s, c);
            r.world.store.cr.Some? ==> StatusStep(cx, read.status, r.report, r.world.store.cr.value.status)
  {
    hide Act, Call, Derive, StatusChanged, StatusStep, Landed, FactsOf;
    var next := Derive(s.cr.status, FactsOf(s));
    if !Active(s.cr) {
      FinalizerWriteCr(w, s);
      StatusStays(cx, read.status, Finalizing(s));
    } else if next.None? {
      StatusStays(cx, read.status, Crashed(s));
    } else if StatusChanged(s.cr.status, next.value) {
      StatusWriteCr(cx, w, s, next.value, read);
    } else {
      ActCr(cx, w, s, c, read);
    }
  }

  /** A pass never creates the resource, and changes its status only by one landed write, whose
      old value is the status found: nothing is lost to a concurrent edit. */
  lemma PassCr(cx: Context, st: Store, script: seq<Turn>, c: Choices)
    ensures var r := PassFrom(cx, st, script, c);
            r.world.store.cr.Some? ==>
              st.cr.Some? && StatusStep(cx, st.cr.value.status, r.report, r.world.store.cr.value.status)
  {
    hide Reads, Call, SawBetween, ObserveAll, Proceed, StatusStep, Calls, ReplyTo, PodsAge, SelectConfigMaps, SelectPods, SelectRevisions, RevisionSelector;
    var w := World(st, script, []);
    var (w', o) := ObserveAll(cx, w);
    var read, listed, ops := ObserveFacts(cx, w);
    if o.Seen? {
      SawCr(cx, w.store, o.snapshot, w'.store, read, listed);
      ProceedCr(cx, w', o.snapshot, c, read);
      ProceedNeedsCr(cx, w', o.snapshot, c, read);
    } else {
      ReadsDrift(w, ops);
      if st.cr.Some? { StatusStays(cx, st.cr.value.status, if o.Fault? then ObserveFailed else NoResource); }
    }
  }

  lemma SawCr(cx: Context, start: Store, s: Snapshot, end: Store, read: Cr, listed: PodTable)
    requires SawBetween(cx, start, s, end, read, listed)
    ensures s.cr == Named(cx, read) && CrDrifts(Some(read), end.cr)
    ensures start.cr.Some? && start.cr.value.status == read.status
    ensures read.finalizers == start.cr.value.finalizers
  {
    hide PodsAge, SelectConfigMaps, SelectPods, SelectRevisions, Named;
  }

  lemma ProceedNeedsCr(cx: Context, w: World, s: Snapshot, c: Choices, read: Cr)
    requires s.cr == Named(cx, read) && CrDrifts(Some(read), w.store.cr)
    ensures Proceed(cx, w, s, c).world.store.cr.Some? ==> w.store.cr.Some? || read.finalizers != {}
  {
    hide Proceed, Calls;
    var ops := ProceedCalls(cx, w, s, c);
    NothingCreatesCr(w, ops);
  }

  lemma {:induction false} NothingCreatesCr(w: World, ops: seq<Op>)
    ensures Calls(w, ops).store.cr.Some? ==> w.store.cr.Some?
    decreases |ops|
  {
    if ops != [] {
      var before := CallShape(w, ops[0]);
      ApplyReach(before, ops[0]);
      hide Call, Landed, Happen, Apply, PodsAge;
      NothingCreatesCr(Call(w, ops[0]), ops[1..]);
    }
  }

  lemma ReadStatus(cx: Context, st: Store, s: Snapshot, end: Store, read: Cr, listed: PodTable)
    requires SawBetween(cx, st, s, end, read, listed)
    ensures st.cr.Some? && s.cr.status == st.cr.value.status.(nextRevision := RevisionName(cx, s.cr.spec))
  {
  }

  /** What a pass acted on, and where it stood when it started acting. */
  lemma ActedFacts(cx: Context, st: Store, script: seq<Turn>, c: Choices) returns (w: World, read: Cr, listed: PodTable)
    requires PassFrom(cx, st, script, c).report.Acted?
    ensures var s := PassFrom(cx, st, script, c).report.s;
            && PassFrom(cx, st, script, c) == Act(cx, w, s, c)
            && SawBetween(cx, st, s, w.store, read, listed)
            && Active(read) && Derive(s.cr.status, FactsOf(s)).Some?
            && !StatusChanged(s.cr.status, Derive(s.cr.status, FactsOf(s)).value)
            && w.audit != [] && w == ObserveAll(cx, World(st, script, [])).0
  {
    hide ObserveAll, SawBetween, Derive, StatusChanged, Calls, ReplyTo, Act, Active, Call, FactsOf;
    var start := World(st, script, []);
    var ops;
    read, listed, ops := ObserveFacts(cx, start);
    w := ObserveAll(cx, start).0;
    CallsAudit(start, ops);
    assert ObserveAll(cx, start).1.Seen?;
    NamedActive(cx, start.store, ObserveAll(cx, start).1.snapshot, w.store, read, listed);
    ActReports(cx, w, ObserveAll(cx, start).1.snapshot, c);
  }

  /** A pass acts on a spec of the run and leaves one of the run's specs in place. */
  lemma SpecRead(cx: Context, specs: set<Spec>, st: Store, script: seq<Turn>, c: Choices)
    requires CrWithin(specs, st.cr) && ScriptWithin(specs, script)
    ensures var r := PassFrom(cx, st, script, c);
            && CrWithin(specs, r.world.store.cr)
            && (r.report.Acted? ==> r.report.s.cr.spec in specs)
  {
    hide ObserveAll, Proceed, Calls, ScriptWithin, ReplyTo, CrDrifts, PodsAge, Selects;
    var start := World(st, script, []);
    var (w, o) := ObserveAll(cx, start);
    var read, listed, ops := ObserveFacts(cx, start);
    CallsWithin(specs, start, ops);
    if o.Seen? {
      ReadWithin(specs, start);
      ProceedWithin(cx, specs, w, o.snapshot, c);
    }
  }

  lemma ReadWithin(specs: set<Spec>, w: World)
    requires CrWithin(specs, w.store.cr) && ScriptWithin(specs, w.script)
    ensures ReplyTo(w, GetCr).TheCr? ==> ReplyTo(w, GetCr).cr.spec in specs
  {
    CallWithin(specs, w, GetCr);
    var before := ReadCall(w, GetCr);
  }

  lemma ProceedWithin(cx: Context, specs: set<Spec>, w: World, s: Snapshot, c: Choices)
    requires CrWithin(specs, w.store.cr) && ScriptWithin(specs, w.script) && s.cr.spec in specs
    ensures CrWithin(specs, Proceed(cx, w, s, c).world.store.cr)
    ensures Proceed(cx, w, s, c).report.Acted? ==> Proceed(cx, w, s, c).report.s == s
  {
    hide Act, Call, Derive, StatusChanged, ScriptWithin, Calls;
    if !Active(s.cr) {
      CallWithin(specs, w, FinalizerOp(s.cr));
    } else {
      var more := ActiveCalls(cx, w, s, c);
      CallsWithin(specs, w, more);
      ActReports(cx, w, s, c);
    }
  }

  lemma ActiveCalls(cx: Context, w: World, s: Snapshot, c: Choices) returns (ops: seq<Op>)
    requires Active(s.cr)
    ensures Proceed(cx, w, s, c).world == Calls(w, ops)
    ensures forall op :: op in ops ==> !op.UpdateCr?
  {
    hide Act, Call, Derive, StatusChanged;
    ops := [];
    var next := Derive(s.cr.status, FactsOf(s));
    if next.Some? {
      if StatusChanged(s.cr.status, next.value) {
        ops := [UpdateStatus(s.cr.(status := next.value))];
        OneCall(w, ops[0]);
      } else {
        ops := ActCalls(cx, w, s, c);
      }
    }
  }

  /** Only the action phase writes children or revisions. */
  lemma IdlePass(cx: Context, st: Store, script: seq<Turn>, c: Choices)
    requires !PassFrom(cx, st, script, c).report.Acted?
    ensures var st' := PassFrom(cx, st, script, c).world.store;
            && st'.configMaps == st.configMaps && st'.revisions == st.revisions && PodsAge(st.pods, st'.pods)
  {
    hide ObserveAll, Proceed, Calls, PodsAge, ReplyTo, Reads, SawBetween, CrDrifts;
    var start := World(st, script, []);
    var (w, o) := ObserveAll(cx, start);
    var read, listed, ops := ObserveFacts(cx, start);
    ReadsDrift(start, ops);
    if o.Seen? {
      IdleProceed(cx, w, o.snapshot, c);
      PodsAgeOn(st.pods, w.store.pods, PassFrom(cx, st, script, c).world.store.pods);
    }
  }

  lemma IdleProceed(cx: Context, w: World, s: Snapshot, c: Choices)
    requires !Proceed(cx, w, s, c).report.Acted?
    ensures var st' := Proceed(cx, w, s, c).world.store;
            && st'.configMaps == w.store.configMaps && st'.revisions == w.store.revisions && PodsAge(w.store.pods, st'.pods)
  {
    hide Act, Call, Derive, StatusChanged;
    var next := Derive(s.cr.status, FactsOf(s));
    if !Active(s.cr) {
      CallDrifts(w, FinalizerOp(s.cr));
    } else if next.Some? {
      if StatusChanged(s.cr.status, next.value) {
        CallDrifts(w, UpdateStatus(s.cr.(status := next.value)));
      } else {
        ActReports(cx, w, s, c);
      }
    }
  }

  predicate WritesChildren(op: Op) { WritesConfigMaps(op) || WritesPods(op) || WritesRevisions(op) }

  /** A whole pass as one sequence of calls, in which every write to a child or a revision is one
      that the snapshot acted on calls for. */
  lemma PassWrites(cx: Context, st: Store, script: seq<Turn>, c: Choices) returns (ops: seq<Op>)
    ensures PassFrom(cx, st, script, c).world == Calls(World(st, script, []), ops)
    ensures var report := PassFrom(cx, st, script, c).report;
            forall op :: op in ops && WritesChildren(op) ==> report.Acted? && Legit(cx, report.s, c, op)
  {
    hide ObserveAll, Proceed, Calls, ReplyTo, Legit, SawBetween;
    var start := World(st, script, []);
    var (w, o) := ObserveAll(cx, start);
    var read, listed, first := ObserveFacts(cx, start);
    ops := first;
    assert forall op :: op in first ==> !WritesChildren(op);
    if o.Seen? {
      var more := ProceedWrites(cx, w, o.snapshot, c);
      CallsCompose(start, first, more);
      ops := first + more;
    }
  }

  lemma ProceedWrites(cx: Context, w: World, s: Snapshot, c: Choices) returns (ops: seq<Op>)
    ensures Proceed(cx, w, s, c).world == Calls(w, ops)
    ensures var report := Proceed(cx, w, s, c).report;
            forall op :: op in ops && WritesChildren(op) ==> report.Acted? && Legit(cx, report.s, c, op)
  {
    hide Act, Call, Derive, StatusChanged, Legit, Landed;
    ops := [];
    var next := Derive(s.cr.status, FactsOf(s));
    if !Active(s.cr) {
      ops := [FinalizerOp(s.cr)];
      OneCall(w, ops[0]);
    } else if next.Some? {
      if StatusChanged(s.cr.status, next.value) {
        ops := [UpdateStatus(s.cr.(status := next.value))];
        OneCall(w, ops[0]);
      } else {
        ops := ActCalls(cx, w, s, c);
        ActReports(cx, w, s, c);
      }
    }
  }
}
