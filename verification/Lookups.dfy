/** When the history lookup misses: the exact condition, over single passes and whole runs. */
module Lookups {
  import opened Types
  import opened Api
  import opened Observer
  import opened Updater
  import opened Reconciler
  import opened Controller
  import opened Protocol
  import opened Runs
  import opened Suspects
  import opened Invariants
  import opened History
  import opened Pruning

  // ---- Which revisions a pass adds ----

  /** A create of a revision took effect, from entry `from` of the log on. */
  predicate CreateLanded(log: seq<Record>, from: nat)
  {
    exists i :: from <= i < |log| && log[i].op.CreateRevision? && log[i].landed
  }

  lemma CallAddsKeys(w: World, op: Op, name: string)
    requires !op.DeleteRevision? && (WritesRevisions(op) ==> op.revision.name == name)
    ensures Call(w, op).store.revisions.Keys
         == w.store.revisions.Keys + if op.CreateRevision? && LastRecord(Call(w, op)).landed then {name} else {}
  {
    var before := CallShape(w, op);
    if !WritesRevisions(op) {
      CallDrifts(w, op);
    } else {
      hide Happen, CrDrifts, PodsAge, ApplyToPods, ApplyToConfigMaps, ApplyToCr;
      assert Landed(w, op) == LastRecord(Call(w, op)).landed;
    }
  }

  lemma CreateLandedSplits(first: seq<Record>, log: seq<Record>, from: nat)
    requires first <= log && |first| == from + 1
    ensures CreateLanded(log, from) <==> (first[from].op.CreateRevision? && first[from].landed) || CreateLanded(log, from + 1)
  {
    assert log[from] == first[from];
  }

  lemma {:induction false} CallsAddKeys(w: World, ops: seq<Op>, name: string)
    requires forall op :: op in ops ==> !op.DeleteRevision? && (WritesRevisions(op) ==> op.revision.name == name)
    ensures Calls(w, ops).store.revisions.Keys
         == w.store.revisions.Keys + if CreateLanded(Calls(w, ops).audit, |w.audit|) then {name} else {}
    decreases |ops|
  {
    hide Call, CreateLanded, WritesRevisions;
    if ops == [] {
      NoneLanded(w.audit);
    } else {
      var next := Call(w, ops[0]);
      assert ops[0] in ops;
      CallAddsKeys(w, ops[0], name);
      CallsAddKeys(next, ops[1..], name);
      CallsAudit(next, ops[1..]);
      LastRecordOf(w, ops[0]);
      CreateLandedSplits(next.audit, Calls(w, ops).audit, |w.audit|);
    }
  }

  lemma NoneLanded(log: seq<Record>)
    ensures !CreateLanded(log, |log|)
  {
  }

  lemma LastRecordOf(w: World, op: Op)
    ensures |Call(w, op).audit| == |w.audit| + 1
    ensures LastRecord(Call(w, op)) == Call(w, op).audit[|w.audit|] && LastRecord(Call(w, op)).op == op
  {
    hide Apply, Happen;
  }

  lemma RevisionWriteNamed(cx: Context, s: Snapshot, c: Choices, op: Op)
    requires c.revisions == [] && (WritesRevisions(op) ==> Legit(cx, s, c, op))
    ensures !op.DeleteRevision? && (WritesRevisions(op) ==> op.revision.name == RevisionName(cx, s.cr.spec))
  {
    hide Legit, RevisionName;
    if WritesRevisions(op) { RevisionWriteIsOfSpec(cx, s, c, op); }
  }

  /** The revisions a pass leaves stored: those it found, and that of its spec if a create of it
      took effect. */
  lemma PassAddsKeys(cx: Context, st: Store, script: seq<Turn>, c: Choices)
    requires Unlisted(st.revisions) && PassFrom(cx, st, script, c).report.Acted?
    requires Possible(c, PassFrom(cx, st, script, c).report.s)
    ensures var r := PassFrom(cx, st, script, c);
            r.world.store.revisions.Keys
              == st.revisions.Keys + if CreateLanded(r.world.audit, 0) then {RevisionName(cx, r.report.s.cr.spec)} else {}
  {
    hide Pass, Act, Calls, Unlisted, SelectRevisions, RevisionSelector, Derive, StatusChanged, FactsOf, ObserveAll, PodsAge,
         CrDrifts, CreateLanded, RevisionName, Legit;
    var r := PassFrom(cx, st, script, c);
    var ops := PassWrites(cx, st, script, c);
    var w, read, listed := ActedFacts(cx, st, script, c);
    UnlistedIsUnseen(cx, st.revisions, c.revisions);
    hide PassFrom;
    forall op | op in ops
      ensures !op.DeleteRevision? && (WritesRevisions(op) ==> op.revision.name == RevisionName(cx, r.report.s.cr.spec))
    {
      RevisionWriteNamed(cx, r.report.s, c, op);
    }
    CallsAddKeys(World(st, script, []), ops, RevisionName(cx, r.report.s.cr.spec));
  }

  // ---- One pass ----

  /** The pass makes its spec's revision current although that revision is not stored and no
      create of it takes effect. */
  ghost predicate LosesRevision(cx: Context, st: Store, step: Step)
  {
    step.Passes? &&
    var r := PassFrom(cx, st, step.script, step.choices);
    && r.report.Acted? && r.report.landed && r.world.store.cr.Some?
    && RevisionName(cx, r.report.s.cr.spec) !in st.revisions
    && !CreateLanded(r.world.audit, 0)
  }

  /** The exact condition: the current revision starts to name nothing stored in just those
      passes that lose it. */
  lemma PassDanglesExactlyWhen(cx: Context, st: Store, script: seq<Turn>, c: Choices)
    requires !Dangling(st) && Unlisted(st.revisions)
    requires PassFrom(cx, st, script, c).report.Acted? ==> Possible(c, PassFrom(cx, st, script, c).report.s)
    ensures Dangling(PassFrom(cx, st, script, c).world.store) <==> LosesRevision(cx, st, Passes(script, c))
  {
    hide Pass, Possible, CreateLanded, RevisionName, Unlisted;
    assert RevisionNamed(cx);
    if PassFrom(cx, st, script, c).report.Acted? {
      PassAddsKeys(cx, st, script, c);
      ActedRevision(cx, st, script, c);
    } else {
      IdleKeepsCurrent(cx, st, script, c);
    }
  }

  ghost predicate RevisionNamed(cx: Context) { forall spec :: RevisionName(cx, spec) != "" }

  /** What can be checked beforehand: whatever fails, a pass that acts on a spec whose revision is
      already stored does not start it. */
  lemma StoredSpecIsSafe(cx: Context, st: Store, script: seq<Turn>, c: Choices)
    requires !Dangling(st) && Unlisted(st.revisions)
    requires PassFrom(cx, st, script, c).report.Acted? ==>
               && Possible(c, PassFrom(cx, st, script, c).report.s)
               && RevisionName(cx, PassFrom(cx, st, script, c).report.s.cr.spec) in st.revisions
    ensures !Dangling(PassFrom(cx, st, script, c).world.store)
  {
    hide Pass, Possible, CreateLanded, RevisionName, Unlisted, Dangling;
    PassDanglesExactlyWhen(cx, st, script, c);
  }

  // ---- Runs ----

  ghost predicate EverDangles(cx: Context, pt: Point, steps: seq<Step>)
  {
    exists i :: 0 <= i <= |steps| && Dangling(Run(cx, pt, steps[..i]).store)
  }

  ghost predicate EverLoses(cx: Context, pt: Point, steps: seq<Step>)
  {
    exists i :: 0 <= i < |steps| && LosesRevision(cx, Run(cx, pt, steps[..i]).store, steps[i])
  }

  lemma EverSplits(cx: Context, pt: Point, steps: seq<Step>)
    requires steps != []
    ensures var front, last := steps[..|steps| - 1], steps[|steps| - 1];
            && (EverDangles(cx, pt, steps) <==> EverDangles(cx, pt, front) || Dangling(Run(cx, pt, steps).store))
            && (EverLoses(cx, pt, steps) <==> EverLoses(cx, pt, front) || LosesRevision(cx, Run(cx, pt, front).store, last))
  {
    hide Run, Dangling, LosesRevision;
    var n := |steps| - 1;
    var front := steps[..n];
    assert forall i :: 0 <= i <= n ==> front[..i] == steps[..i];
    assert steps[..|steps|] == steps;
    if i :| 0 <= i <= n && Dangling(Run(cx, pt, front[..i]).store) {
      assert Dangling(Run(cx, pt, steps[..i]).store);
    }
    if i :| 0 <= i <= |steps| && Dangling(Run(cx, pt, steps[..i]).store) {
      assert i <= n ==> Dangling(Run(cx, pt, front[..i]).store);
    }
    if i :| 0 <= i < n && LosesRevision(cx, Run(cx, pt, front[..i]).store, front[i]) {
      assert LosesRevision(cx, Run(cx, pt, steps[..i]).store, steps[i]);
    }
    if i :| 0 <= i < |steps| && LosesRevision(cx, Run(cx, pt, steps[..i]).store, steps[i]) {
      assert i < n ==> LosesRevision(cx, Run(cx, pt, front[..i]).store, front[i]);
    }
    if LosesRevision(cx, Run(cx, pt, front).store, steps[n]) {
      assert LosesRevision(cx, Run(cx, pt, steps[..n]).store, steps[n]);
    }
  }

  lemma EventNeverDangles(st: Store, e: Event)
    requires !Dangling(st)
    ensures !Dangling(Occur(st, e))
  {
    OccurDrifts(st, e);
    hide Occur, PodsAge;
  }

  lemma StepDangles(cx: Context, specs: set<Spec>, pt: Point, step: Step)
    requires !Dangling(pt.store) && Unlisted(pt.store.revisions) && StepAllowed(cx, specs, pt, step)
    ensures Dangling(After(cx, pt, step).store) <==> LosesRevision(cx, pt.store, step)
  {
    hide Pass, Possible, Dangling, Unlisted, Occur, RevisionName, CreateLanded;
    match step
    case Happens(e) => EventNeverDangles(pt.store, e);
    case Passes(script, c) => PassDanglesExactlyWhen(cx, pt.store, script, c);
  }

  /** Over any run, whatever fails, the current revision dangles at some point if and only if
      some pass of the run loses its revision. */
  lemma {:induction false} RunDanglesExactlyWhen(cx: Context, specs: set<Spec>, pt: Point, steps: seq<Step>)
    requires !Dangling(pt.store) && Unlisted(pt.store.revisions) && RunAllowed(cx, specs, pt, steps)
    ensures EverDangles(cx, pt, steps) <==> EverLoses(cx, pt, steps)
  {
    hide RunAllowed, After, Dangling, LosesRevision, Unlisted, StepAllowed;
    if steps == [] {
      assert Run(cx, pt, steps[..0]) == pt;
    } else {
      var front, step := steps[..|steps| - 1], steps[|steps| - 1];
      RunAllowedPrefix(cx, specs, pt, steps);
      RunDanglesExactlyWhen(cx, specs, pt, front);
      EverSplits(cx, pt, steps);
      NothingIsEverPruned(cx, specs, pt, front);
      assert front[..|front|] == front;
      if !EverDangles(cx, pt, front) {
        StepDangles(cx, specs, Run(cx, pt, front), step);
      }
    }
  }

  /** Over any run whose specs all have their revisions stored at its start, the current revision
      never dangles, whatever fails. */
  lemma {:induction false} RecordedSpecsNeverDangle(cx: Context, specs: set<Spec>, pt: Point, steps: seq<Step>)
    requires !Dangling(pt.store) && Unlisted(pt.store.revisions) && RunAllowed(cx, specs, pt, steps) && CrWithin(specs, pt.store.cr)
    requires forall s :: s in specs ==> RevisionName(cx, s) in pt.store.revisions
    ensures !Dangling(Run(cx, pt, steps).store) && CrWithin(specs, Run(cx, pt, steps).store.cr)
  {
    hide RunAllowed, Pass, Possible, Dangling, Unlisted, RevisionName, Occur;
    if steps != [] {
      var front, step := steps[..|steps| - 1], steps[|steps| - 1];
      RunAllowedPrefix(cx, specs, pt, steps);
      RecordedSpecsNeverDangle(cx, specs, pt, front);
      NothingIsEverPruned(cx, specs, pt, front);
      var mid := Run(cx, pt, front);
      match step {
        case Happens(e) =>
          EventNeverDangles(mid.store, e);
          EventsWithin(specs, mid.store, [e]);
          assert Happen(mid.store, [e]) == Occur(mid.store, e) by { OneEvent(mid.store, e); }
        case Passes(script, c) =>
          SpecRead(cx, specs, mid.store, script, c);
          StoredSpecIsSafe(cx, mid.store, script, c);
      }
    }
  }

  lemma OneEvent(st: Store, e: Event)
    ensures Happen(st, [e]) == Occur(st, e)
  {
    assert [e][1..] == [];
  }

  // ---- What a lookup finds ----

  /** Every stored revision was written for a spec of the run. */
  ghost predicate Written(cx: Context, specs: set<Spec>, revisions: RevisionTable)
  {
    forall n :: n in revisions ==> exists s :: s in specs && revisions[n] == RevisionFor(cx, s, revisions[n].number)
  }

  lemma PutKeepsWritten(cx: Context, specs: set<Spec>, t: RevisionTable, op: Op, spec: Spec)
    requires Written(cx, specs, t) && spec in specs && WritesRevisions(op)
    requires op.DeleteRevision? || op.revision == RevisionFor(cx, spec, op.revision.number)
    ensures Written(cx, specs, ApplyToRevisions(t, op))
  {
    hide RevisionFor, RevisionName;
    var later := ApplyToRevisions(t, op);
    assert forall n :: n in later ==> (n in t && later[n] == t[n]) || (!op.DeleteRevision? && later[n] == op.revision);
    hide ApplyToRevisions;
    forall n | n in later ensures exists s :: s in specs && later[n] == RevisionFor(cx, s, later[n].number) {
      if n in t && later[n] == t[n] {
        var s :| s in specs && t[n] == RevisionFor(cx, s, t[n].number);
      } else {
        assert later[n] == RevisionFor(cx, spec, later[n].number);
      }
    }
  }

  lemma OtherCallsKeepTable(t: RevisionTable, op: Op)
    requires !WritesRevisions(op)
    ensures ApplyToRevisions(t, op) == t
  {
  }

  lemma LegitWriteKeepsWritten(cx: Context, specs: set<Spec>, t: RevisionTable, s: Snapshot, c: Choices, op: Op)
    requires Written(cx, specs, t) && WritesRevisions(op) && Legit(cx, s, c, op) && s.cr.spec in specs
    ensures Written(cx, specs, ApplyToRevisions(t, op))
  {
    hide Written, ApplyToRevisions, RevisionFor;
    PutKeepsWritten(cx, specs, t, op, s.cr.spec);
  }

  lemma CallKeepsWritten(cx: Context, specs: set<Spec>, w: World, s: Snapshot, c: Choices, op: Op)
    requires Written(cx, specs, w.store.revisions)
    requires WritesRevisions(op) ==> Legit(cx, s, c, op) && s.cr.spec in specs
    ensures Written(cx, specs, Call(w, op).store.revisions)
  {
    hide *;
    if WritesRevisions(op) {
      LegitWriteKeepsWritten(cx, specs, w.store.revisions, s, c, op);
    } else {
      OtherCallsKeepTable(w.store.revisions, op);
    }
    var before := CallParts(w, op);
  }

  lemma {:induction false} CallsKeepWritten(cx: Context, specs: set<Spec>, w: World, s: Snapshot, c: Choices, ops: seq<Op>)
    requires Written(cx, specs, w.store.revisions)
    requires forall op :: op in ops && WritesRevisions(op) ==> Legit(cx, s, c, op) && s.cr.spec in specs
    ensures Written(cx, specs, Calls(w, ops).store.revisions)
    decreases |ops|
  {
    hide Call, Written, Legit, WritesRevisions;
    if ops != [] {
      assert ops[0] in ops;
      CallKeepsWritten(cx, specs, w, s, c, ops[0]);
      CallsKeepWritten(cx, specs, Call(w, ops[0]), s, c, ops[1..]);
    }
  }

  lemma PassKeepsWritten(cx: Context, specs: set<Spec>, st: Store, script: seq<Turn>, c: Choices)
    requires Written(cx, specs, st.revisions) && CrWithin(specs, st.cr) && ScriptWithin(specs, script)
    ensures Written(cx, specs, PassFrom(cx, st, script, c).world.store.revisions)
  {
    hide Pass, Calls, Written, Legit, ScriptWithin;
    if PassFrom(cx, st, script, c).report.Acted? {
      SpecRead(cx, specs, st, script, c);
      var ops := PassWrites(cx, st, script, c);
      CallsKeepWritten(cx, specs, World(st, script, []), PassFrom(cx, st, script, c).report.s, c, ops);
    } else {
      IdlePass(cx, st, script, c);
    }
  }

  lemma {:induction false} RunKeepsWritten(cx: Context, specs: set<Spec>, pt: Point, steps: seq<Step>)
    requires Admissible(cx, specs) && Sound(cx, specs, pt) && RunAllowed(cx, specs, pt, steps)
    requires Written(cx, specs, pt.store.revisions)
    ensures Written(cx, specs, Run(cx, pt, steps).store.revisions)
  {
    hide RunAllowed, Pass, Possible, Written, ChildrenFrom, ScriptWithin, Admissible;
    if steps != [] {
      var front, step := steps[..|steps| - 1], steps[|steps| - 1];
      RunAllowedPrefix(cx, specs, pt, steps);
      RunKeepsWritten(cx, specs, pt, front);
      RunKeepsSound(cx, specs, pt, front);
      var mid := Run(cx, pt, front);
      match step {
        case Happens(e) => OccurDrifts(mid.store, e);
        case Passes(script, c) => PassKeepsWritten(cx, specs, mid.store, script, c);
      }
    }
  }

  /** The lookup at the start of the next synchronisation finds the spec last applied in full. */
  ghost predicate LookupHits(cx: Context, pt: Point)
  {
    pt.store.cr.Some? && Current(pt.store) != "" ==>
      && Current(pt.store) in pt.store.revisions
      && pt.trail.applied.Some?
      && cx.unmarshal(pt.store.revisions[Current(pt.store)].data) == pt.trail.applied
  }

  lemma HitsUnlessDangling(cx: Context, specs: set<Spec>, pt: Point)
    requires Admissible(cx, specs) && Sound(cx, specs, pt) && Written(cx, specs, pt.store.revisions)
    ensures LookupHits(cx, pt) <==> !Dangling(pt.store)
  {
    hide ChildrenFrom, RevisionName, SameHomes;
    if pt.store.cr.Some? && Current(pt.store) in pt.store.revisions && Current(pt.store) != "" {
      assert pt.trail.applied.value in SuspectSpecs(pt.trail);
      WrittenDecodes(cx, specs, pt.store.revisions, pt.trail.applied.value);
    }
  }

  lemma WrittenDecodes(cx: Context, specs: set<Spec>, revisions: RevisionTable, spec: Spec)
    requires Faithful(cx, specs) && spec in specs && Written(cx, specs, revisions) && RevisionName(cx, spec) in revisions
    ensures cx.unmarshal(revisions[RevisionName(cx, spec)].data) == Some(spec)
  {
    var r := revisions[RevisionName(cx, spec)];
    var s :| s in specs && r == RevisionFor(cx, s, r.number);
    hide RevisionName;
    assert RevisionName(cx, s) == r.name == RevisionName(cx, spec);
  }

  /** History lookup: over any run from an empty namespace, with any call failing and any edits,
      every lookup finds the spec last applied in full if and only if no pass of the run loses
      its revision. */
  lemma LookupsHitExactlyWhen(cx: Context, specs: set<Spec>, spec: Spec, finalizers: set<string>, secret: bool, steps: seq<Step>)
    requires Admissible(cx, specs) && spec in specs && RunAllowed(cx, specs, Empty(spec, finalizers, secret), steps)
    ensures var start := Empty(spec, finalizers, secret);
            (forall i :: 0 <= i <= |steps| ==> LookupHits(cx, Run(cx, start, steps[..i]))) <==> !EverLoses(cx, start, steps)
  {
    hide RunAllowed, Run, Sound, LookupHits, LosesRevision, Admissible, Dangling;
    var start := Empty(spec, finalizers, secret);
    EmptyIsFine(cx, specs, spec, finalizers, secret);
    RunDanglesExactlyWhen(cx, specs, start, steps);
    forall i | 0 <= i <= |steps| ensures LookupHits(cx, Run(cx, start, steps[..i])) <==> !Dangling(Run(cx, start, steps[..i]).store) {
      RunAllowedUpTo(cx, specs, start, steps, i);
      RunKeepsWritten(cx, specs, start, steps[..i]);
      RunKeepsSound(cx, specs, start, steps[..i]);
      HitsUnlessDangling(cx, specs, Run(cx, start, steps[..i]));
    }
  }

  lemma EmptyIsFine(cx: Context, specs: set<Spec>, spec: Spec, finalizers: set<string>, secret: bool)
    requires spec in specs
    ensures var start := Empty(spec, finalizers, secret);
            Sound(cx, specs, start) && Written(cx, specs, start.store.revisions) && Unlisted(start.store.revisions) && !Dangling(start.store)
  {
    EmptyIsSound(cx, specs, spec, finalizers, secret);
  }

  lemma RunAllowedUpTo(cx: Context, specs: set<Spec>, pt: Point, steps: seq<Step>, n: nat)
    requires RunAllowed(cx, specs, pt, steps) && n <= |steps|
    ensures RunAllowed(cx, specs, pt, steps[..n])
  {
    hide StepAllowed, Run;
    forall i | 0 <= i < n ensures StepAllowed(cx, specs, Run(cx, pt, steps[..n][..i]), steps[..n][i]) {
      assert steps[..n][..i] == steps[..i];
    }
  }
}
