/** The revision history over runs: numbering, lookups that never miss, and how they can. */
module History {
  import opened Types
  import opened Api
  import opened Observer
  import opened Updater
  import opened Reconciler
  import opened Controller
  import opened Protocol
  import opened Runs
  import opened Suspects
  import opened Invariants
  import Converter

  predicate RevisionCall(op: Op) { op.GetRevision? || op.CreateRevision? || op.UpdateRevision? }

  /** No revision call of the pass failed at the server. */
  ghost predicate RevisionsAnswered(log: seq<Record>)
  {
    forall i :: 0 <= i < |log| && RevisionCall(log[i].op) ==> log[i].reply != Unavailable
  }

  /** Every stored revision records a spec of the run under that spec's name. */
  ghost predicate Recorded(cx: Context, specs: set<Spec>, revisions: RevisionTable)
  {
    forall n :: n in revisions ==> exists s :: s in specs && Records(cx, s, revisions[n])
  }

  predicate Records(cx: Context, s: Spec, r: Revision)
  {
    r == RevisionFor(cx, s, r.number) && r.number >= 1
  }

  /** The number of the current revision; zero before the first. */
  function CurrentNumber(current: string, revisions: RevisionTable): int
  {
    if current in revisions then revisions[current].number else 0
  }

  /** A non-empty current revision is stored, and no number is more than one ahead of it. */
  ghost predicate Numbered(cx: Context, specs: set<Spec>, st: Store)
  {
    && Recorded(cx, specs, st.revisions)
    && (st.cr.Some? ==>
          var current := st.cr.value.status.currentRevision;
          && (current in st.revisions <==> current != "")
          && forall n :: n in st.revisions ==> st.revisions[n].number <= CurrentNumber(current, st.revisions) + 1)
  }

  // ---- One synchronisation ----

  lemma AnsweredCall(w: World, op: Op) returns (before: Store)
    requires RevisionCall(op) && RevisionsAnswered(Call(w, op).audit)
    ensures ReplyTo(w, op) == Apply(before, op).1 && before.revisions == w.store.revisions
    ensures Apply(before, op).1.Done? ==> Call(w, op).store.revisions == Apply(before, op).0.revisions
    ensures op.GetRevision? ==> Call(w, op).store.revisions == w.store.revisions
    ensures RevisionsAnswered(w.audit)
  {
    before := CallShape(w, op);
    CallDrifts(w, op);
    var log := Call(w, op).audit;
    assert log[|w.audit|].op == op && log[|w.audit|].reply == ReplyTo(w, op);
    assert forall i :: 0 <= i < |w.audit| ==> log[i] == w.audit[i];
  }

  lemma GetAnswered(w: World, n: string)
    requires RevisionsAnswered(Call(w, GetRevision(n)).audit)
    ensures Call(w, GetRevision(n)).store.revisions == w.store.revisions
    ensures ReplyTo(w, GetRevision(n)) == if n in w.store.revisions then TheRevision(w.store.revisions[n]) else NotFound
  {
    var before := AnsweredCall(w, GetRevision(n));
  }

  lemma PutAnswered(w: World, op: Op, r: Revision)
    requires op == CreateRevision(r) || op == UpdateRevision(r)
    requires RevisionsAnswered(Call(w, op).audit)
    requires op.CreateRevision? <==> r.name !in w.store.revisions
    ensures ReplyTo(w, op).Done? && Call(w, op).store.revisions == w.store.revisions[r.name := r]
  {
    var before := AnsweredCall(w, op);
  }

  lemma AnsweredPrefix(a: seq<Record>, b: seq<Record>)
    requires a <= b && RevisionsAnswered(b)
    ensures RevisionsAnswered(a)
  {
    assert forall i :: 0 <= i < |a| ==> a[i] == b[i];
  }

  lemma CallGrowsAudit(w: World, op: Op)
    ensures w.audit <= Call(w, op).audit
  {
  }

  lemma CreatedRevision(cx: Context, w: World, spec: Spec, number: int)
    requires RevisionsAnswered(CreateControllerRevision(cx, w, spec, number).world.audit)
    ensures CreateControllerRevision(cx, w, spec, number).ok
    ensures CreateControllerRevision(cx, w, spec, number).world.store.revisions
         == w.store.revisions[RevisionName(cx, spec) := RevisionFor(cx, spec, number)]
  {
    hide Call, RevisionsAnswered, ReplyTo;
    var r := RevisionFor(cx, spec, number);
    var get := GetRevision(r.name);
    var w' := Call(w, get);
    CallGrowsAudit(w', CreateRevision(r));
    CallGrowsAudit(w', UpdateRevision(r));
    AnsweredPrefix(w'.audit, CreateControllerRevision(cx, w, spec, number).world.audit);
    GetAnswered(w, r.name);
    if r.name in w.store.revisions {
      PutAnswered(w', UpdateRevision(r), r);
    } else {
      PutAnswered(w', CreateRevision(r), r);
    }
  }

  /** The revision table after recording `spec` on top of the current revision. */
  function Synced(cx: Context, revisions: RevisionTable, current: string, applied: Option<Spec>, spec: Spec): RevisionTable
  {
    if applied == Some(spec) then revisions
    else revisions[RevisionName(cx, spec) := RevisionFor(cx, spec, CurrentNumber(current, revisions) + 1)]
  }

  lemma SyncResult(cx: Context, specs: set<Spec>, w: World, cr: Cr, applied: Option<Spec>)
    requires Faithful(cx, specs) && Recorded(cx, specs, w.store.revisions)
    requires CurrentIs(cx, applied, cr.status.currentRevision)
    requires cr.status.currentRevision in w.store.revisions <==> cr.status.currentRevision != ""
    requires applied.Some? ==> applied.value in specs
    requires RevisionsAnswered(SyncRevisions(cx, w, cr).world.audit)
    ensures SyncRevisions(cx, w, cr).ok
    ensures SyncRevisions(cx, w, cr).world.store.revisions
         == Synced(cx, w.store.revisions, cr.status.currentRevision, applied, cr.spec)
  {
    hide Call, RevisionsAnswered, CreateControllerRevision, RevisionName, ReplyTo, Recorded, Faithful, Calls;
    var current := cr.status.currentRevision;
    if current == "" {
      assert applied.None?;
      CreatedRevision(cx, w, cr.spec, 1);
    } else {
      var get := GetRevision(current);
      var w' := Call(w, get);
      var sync := SyncRevisions(cx, w, cr);
      var ops := SyncTail(cx, w, cr);
      CallsAudit(w', ops);
      AnsweredPrefix(w'.audit, sync.world.audit);
      GetAnswered(w, current);
      var last := w.store.revisions[current];
      CurrentDecodes(cx, specs, w.store.revisions, applied.value);
      assert sync == SyncAgainst(cx, w', cr, last);
      if cr.spec != applied.value {
        CreatedRevision(cx, w', cr.spec, last.number + 1);
      }
    }
  }

  lemma SyncTail(cx: Context, w: World, cr: Cr) returns (ops: seq<Op>)
    requires cr.status.currentRevision != ""
    ensures SyncRevisions(cx, w, cr).world == Calls(Call(w, GetRevision(cr.status.currentRevision)), ops)
  {
    hide Call, CreateControllerRevision, ReplyTo;
    ops := [];
    var get := GetRevision(cr.status.currentRevision);
    if ReplyTo(w, get).TheRevision? {
      ops := SyncAgainstCalls(cx, Call(w, get), Snapshot(cr, false, map[], map[], map[]), Choices([], [], []), ReplyTo(w, get).revision);
    }
  }

  /** The stored current revision decodes to the spec last applied. */
  lemma CurrentDecodes(cx: Context, specs: set<Spec>, revisions: RevisionTable, applied: Spec)
    requires Faithful(cx, specs) && Recorded(cx, specs, revisions) && applied in specs
    requires RevisionName(cx, applied) in revisions
    ensures cx.unmarshal(revisions[RevisionName(cx, applied)].data) == Some(applied)
    ensures revisions[RevisionName(cx, applied)].number >= 1
  {
    var r := revisions[RevisionName(cx, applied)];
    var s :| s in specs && Records(cx, s, r);
    hide RevisionName;
    assert RevisionName(cx, s) == r.name == RevisionName(cx, applied);
  }

  // ---- Pruning never sees a recorded revision ----

  lemma KeysDiffer()
    ensures LISTED_REVISION_KEY != WRITTEN_REVISION_KEY
  {
    assert LISTED_REVISION_KEY[18] != WRITTEN_REVISION_KEY[18];
  }

  /** Revisions are listed by a label no recorded revision carries. */
  lemma NothingListed(cx: Context, specs: set<Spec>, revisions: RevisionTable)
    requires Recorded(cx, specs, revisions)
    ensures SelectRevisions(revisions, RevisionSelector(cx)) == map[]
  {
    KeysDiffer();
    hide RevisionName;
    forall n | n in revisions ensures !Selects(RevisionSelector(cx), revisions[n].labels) {
      var s :| s in specs && Records(cx, s, revisions[n]);
      assert LISTED_REVISION_KEY in RevisionSelector(cx) && LISTED_REVISION_KEY !in revisions[n].labels;
    }
  }

  // ---- A pass ----

  lemma RoundKeepsRevisions(cx: Context, w: World, s: Snapshot, c: Choices)
    ensures Reconcile(w, s, Desired(s.cr.spec), c).world.store.revisions == w.store.revisions
    ensures w.audit <= Reconcile(w, s, Desired(s.cr.spec), c).world.audit
  {
    hide Reconcile, Calls, Legit;
    var ops := RoundCalls(cx, w, s, c);
    CallsDrift(w, ops);
    CallsAudit(w, ops);
  }

  lemma NothingPruned(w: World, limit: nat)
    ensures CleanupOldRevisions(w, limit, []) == Progress(w, true)
  {
  }

  /** What an acting pass makes of the revision table when its revision calls are answered. */
  lemma ActedRevisions(cx: Context, specs: set<Spec>, pt: Point, script: seq<Turn>, c: Choices)
    requires Admissible(cx, specs) && Sound(cx, specs, pt) && StepAllowed(cx, specs, pt, Passes(script, c))
    requires Numbered(cx, specs, pt.store)
    requires PassFrom(cx, pt.store, script, c).report.Acted?
    requires RevisionsAnswered(PassFrom(cx, pt.store, script, c).world.audit)
    ensures var r := PassFrom(cx, pt.store, script, c);
            && pt.store.cr.Some? && r.report.synced && r.report.s.cr.spec in specs
            && r.world.store.revisions == Synced(cx, pt.store.revisions, pt.store.cr.value.status.currentRevision,
                                                 pt.trail.applied, r.report.s.cr.spec)
  {
    hide Pass, ChildrenFrom, SelectRevisions, Reconcile, SyncRevisions, CleanupOldRevisions, RevisionName, Faithful,
         Recorded, RevisionsAnswered, Synced, Selects, Derive, StatusChanged, FactsOf;
    var w := ActsOnSound(cx, specs, pt, script, c);
    var s := PassFrom(cx, pt.store, script, c).report.s;
    NothingListed(cx, specs, pt.store.revisions);
    assert c.revisions == [] by { NoneEnumerated(c.revisions, s.revisions); }
    RoundKeepsRevisions(cx, w, s, c);
    var round := Reconcile(w, s, Desired(s.cr.spec), c);
    var sync := SyncRevisions(cx, round.world, s.cr);
    NothingPruned(sync.world, s.cr.spec.historyLimit);
    assert Act(cx, w, s, c).world == sync.world;
    if pt.trail.applied.Some? { assert pt.trail.applied.value in SuspectSpecs(pt.trail); }
    SyncResult(cx, specs, round.world, s.cr, pt.trail.applied);
  }

  lemma NoneEnumerated(order: seq<Revision>, t: RevisionTable)
    requires t == map[] && Enumerates(order, t.Values)
    ensures order == []
  {
    EnumerationSize(order, t.Values);
    assert t.Values == {};
  }

  lemma SyncedStaysRecorded(cx: Context, specs: set<Spec>, revisions: RevisionTable, current: string, applied: Option<Spec>, spec: Spec)
    requires Recorded(cx, specs, revisions) && spec in specs
    ensures Recorded(cx, specs, Synced(cx, revisions, current, applied, spec))
  {
    hide RevisionName;
    assert CurrentNumber(current, revisions) >= 0 by {
      if current in revisions {
        var s :| s in specs && Records(cx, s, revisions[current]);
      }
    }
    assert Records(cx, spec, RevisionFor(cx, spec, CurrentNumber(current, revisions) + 1));
  }

  /** Only the entry of `spec` differs. */
  ghost predicate Renumbered(cx: Context, spec: Spec, before: RevisionTable, after: RevisionTable)
  {
    exists number :: after == before[RevisionName(cx, spec) := RevisionFor(cx, spec, number)]
  }

  /** Revision numbering over one pass, with its revision calls answered: the stored current
      revision stays recorded, no number runs more than one ahead of it, and when the current
      revision moves its number rises by exactly one.  At most the entry of the spec acted on
      changes, so a rollback renumbers that spec's entry instead of adding one. */
  lemma PassNumbers(cx: Context, specs: set<Spec>, pt: Point, script: seq<Turn>, c: Choices)
    requires Admissible(cx, specs) && Sound(cx, specs, pt) && StepAllowed(cx, specs, pt, Passes(script, c))
    requires Numbered(cx, specs, pt.store)
    requires RevisionsAnswered(PassFrom(cx, pt.store, script, c).world.audit)
    ensures var r := PassFrom(cx, pt.store, script, c);
            var st, st' := pt.store, r.world.store;
            && Numbered(cx, specs, st')
            && (st'.revisions != st.revisions ==>
                  r.report.Acted? && Renumbered(cx, r.report.s.cr.spec, st.revisions, st'.revisions))
            && (st.cr.Some? && st'.cr.Some? ==>
                  var current, current' := st.cr.value.status.currentRevision, st'.cr.value.status.currentRevision;
                  CurrentNumber(current', st'.revisions)
                    == CurrentNumber(current, st.revisions) + if current' == current then 0 else 1)
  {
    hide PassFrom, ChildrenFrom, RevisionName, Faithful, Recorded, RevisionsAnswered, SelectRevisions, Possible, SameHomes,
         Converter.WellFormed;
    var r := PassFrom(cx, pt.store, script, c);
    if r.report.Acted? {
      ActedRevision(cx, pt.store, script, c);
      var spec := r.report.s.cr.spec;
      ActedRevisions(cx, specs, pt, script, c);
      SyncedStaysRecorded(cx, specs, pt.store.revisions, pt.store.cr.value.status.currentRevision, pt.trail.applied, spec);
      if pt.trail.applied.Some? { assert pt.trail.applied.value in SuspectSpecs(pt.trail); }
      NamesApart(cx, specs, pt.trail.applied, spec);
    } else {
      IdlePass(cx, pt.store, script, c);
      IdlePassKeepsSound(cx, specs, pt, script, c);
    }
  }

  lemma NamesApart(cx: Context, specs: set<Spec>, applied: Option<Spec>, spec: Spec)
    requires Faithful(cx, specs) && spec in specs && (applied.Some? ==> applied.value in specs)
    ensures applied.Some? && RevisionName(cx, applied.value) == RevisionName(cx, spec) ==> applied == Some(spec)
  {
    hide RevisionName;
  }

  // ---- When recording gives up ----

  /** Recording a revision writes nothing when the look for it goes unanswered, and synchronising
      writes nothing when the current revision cannot be fetched or does not decode. */
  lemma RecordingGivesUp(cx: Context, w: World, cr: Cr, number: int)
    ensures ReplyTo(w, GetRevision(RevisionName(cx, cr.spec))) == Unavailable ==>
              var p := CreateControllerRevision(cx, w, cr.spec, number);
              !p.ok && p.world == Call(w, GetRevision(RevisionName(cx, cr.spec)))
    ensures cr.status.currentRevision != "" ==>
              var get := GetRevision(cr.status.currentRevision);
              var p := SyncRevisions(cx, w, cr);
              (!ReplyTo(w, get).TheRevision? || cx.unmarshal(ReplyTo(w, get).revision.data).None? ==> !p.ok && p.world == Call(w, get))
    ensures RevisionFor(cx, cr.spec, number).labels == map["invoker.io/invokerdeployment" := cx.name]
  {
    hide Call, RevisionName;
  }

  // ---- Whole runs ----

  function Current(st: Store): string
  {
    if st.cr.Some? then st.cr.value.status.currentRevision else ""
  }

  /** How often the stored current revision moved. */
  function Advances(cx: Context, pt: Point, steps: seq<Step>): nat
  {
    if steps == [] then 0
    else
      var front := steps[..|steps| - 1];
      Advances(cx, pt, front) + if Current(Run(cx, pt, steps).store) != Current(Run(cx, pt, front).store) then 1 else 0
  }

  ghost predicate StepAnswered(cx: Context, pt: Point, step: Step)
  {
    step.Passes? ==> RevisionsAnswered(PassFrom(cx, pt.store, step.script, step.choices).world.audit)
  }

  ghost predicate RunAnswered(cx: Context, pt: Point, steps: seq<Step>)
  {
    forall i :: 0 <= i < |steps| ==> StepAnswered(cx, Run(cx, pt, steps[..i]), steps[i])
  }

  lemma RunAnsweredPrefix(cx: Context, pt: Point, steps: seq<Step>)
    requires RunAnswered(cx, pt, steps) && steps != []
    ensures RunAnswered(cx, pt, steps[..|steps| - 1])
    ensures StepAnswered(cx, Run(cx, pt, steps[..|steps| - 1]), steps[|steps| - 1])
  {
    hide StepAnswered, Run;
    var front := steps[..|steps| - 1];
    forall i | 0 <= i < |front| ensures StepAnswered(cx, Run(cx, pt, front[..i]), front[i]) {
      assert front[..i] == steps[..i];
    }
  }

  /** One step of a run: numbering survives and the current number moves with the revision. */
  lemma StepNumbers(cx: Context, specs: set<Spec>, pt: Point, step: Step)
    requires Admissible(cx, specs) && Sound(cx, specs, pt) && StepAllowed(cx, specs, pt, step)
    requires Numbered(cx, specs, pt.store) && StepAnswered(cx, pt, step)
    ensures var after := After(cx, pt, step).store;
            && Numbered(cx, specs, after)
            && (after.cr.Some? ==>
                  && pt.store.cr.Some?
                  && CurrentNumber(Current(after), after.revisions)
                       == CurrentNumber(Current(pt.store), pt.store.revisions) + if Current(after) == Current(pt.store) then 0 else 1)
  {
    hide Pass, Sound, Admissible, RevisionsAnswered, Recorded, StatusStep, Renumbered;
    match step
    case Happens(e) => OccurDrifts(pt.store, e);
    case Passes(script, c) =>
      PassCr(cx, pt.store, script, c);
      PassNumbers(cx, specs, pt, script, c);
  }

  lemma {:induction false} RunNumbers(cx: Context, specs: set<Spec>, pt: Point, steps: seq<Step>)
    requires Admissible(cx, specs) && Sound(cx, specs, pt) && RunAllowed(cx, specs, pt, steps)
    requires Numbered(cx, specs, pt.store) && RunAnswered(cx, pt, steps)
    ensures var end := Run(cx, pt, steps).store;
            && Numbered(cx, specs, end)
            && (end.cr.Some? ==>
                  && pt.store.cr.Some?
                  && CurrentNumber(Current(end), end.revisions)
                    == CurrentNumber(Current(pt.store), pt.store.revisions) + Advances(cx, pt, steps))
  {
    hide After, Sound, Admissible, StepAllowed, StepAnswered, Numbered, RunAllowed, RunAnswered;
    if steps != [] {
      var front := steps[..|steps| - 1];
      RunAllowedPrefix(cx, specs, pt, steps);
      RunAnsweredPrefix(cx, pt, steps);
      RunNumbers(cx, specs, pt, front);
      RunKeepsSound(cx, specs, pt, front);
      StepNumbers(cx, specs, Run(cx, pt, front), steps[|steps| - 1]);
    }
  }

  /** Revision numbering: over any run from an empty namespace whose revision calls are answered,
      with other calls failing and specs edited at will, the number of the current revision is
      the number of times the current revision has moved, and no stored number is more than one
      ahead of it. */
  lemma NumberCountsAdvances(cx: Context, specs: set<Spec>, spec: Spec, finalizers: set<string>, secret: bool, steps: seq<Step>)
    requires Admissible(cx, specs) && spec in specs
    requires RunAllowed(cx, specs, Empty(spec, finalizers, secret), steps)
    requires RunAnswered(cx, Empty(spec, finalizers, secret), steps)
    ensures var start := Empty(spec, finalizers, secret);
            var end := Run(cx, start, steps).store;
            end.cr.Some? ==>
              && CurrentNumber(Current(end), end.revisions) == Advances(cx, start, steps)
              && forall n :: n in end.revisions ==> 1 <= end.revisions[n].number <= Advances(cx, start, steps) + 1
  {
    hide Admissible, RunAllowed, Run, RunAnswered, Recorded, Advances;
    var start := Empty(spec, finalizers, secret);
    assert Recorded(cx, specs, map[]) by { NothingRecorded(cx, specs); }
    RunNumbers(cx, specs, start, steps);
    var end := Run(cx, start, steps).store;
    forall n | n in end.revisions ensures end.revisions[n].number >= 1 {
      RecordedPositive(cx, specs, end.revisions, n);
    }
  }

  lemma NothingRecorded(cx: Context, specs: set<Spec>)
    ensures Recorded(cx, specs, map[])
  {
  }

  lemma RecordedPositive(cx: Context, specs: set<Spec>, revisions: RevisionTable, n: string)
    requires Recorded(cx, specs, revisions) && n in revisions
    ensures revisions[n].number >= 1
  {
  }

  /** History lookup never misses: in those same runs, a non-empty current revision names a stored
      revision that decodes to the spec last applied in full. */
  lemma LookupNeverMisses(cx: Context, specs: set<Spec>, spec: Spec, finalizers: set<string>, secret: bool, steps: seq<Step>)
    requires Admissible(cx, specs) && spec in specs
    requires RunAllowed(cx, specs, Empty(spec, finalizers, secret), steps)
    requires RunAnswered(cx, Empty(spec, finalizers, secret), steps)
    ensures var end := Run(cx, Empty(spec, finalizers, secret), steps);
            end.store.cr.Some? && Current(end.store) != "" ==>
              && Current(end.store) in end.store.revisions
              && end.trail.applied.Some?
              && cx.unmarshal(end.store.revisions[Current(end.store)].data) == end.trail.applied
  {
    hide RunAllowed, Run, RunAnswered, Recorded, RevisionName, Faithful, ChildrenFrom;
    var start := Empty(spec, finalizers, secret);
    NothingRecorded(cx, specs);
    EmptyIsSound(cx, specs, spec, finalizers, secret);
    RunNumbers(cx, specs, start, steps);
    ChildrenComeFromSuspects(cx, specs, spec, finalizers, secret, steps);
    var end := Run(cx, start, steps);
    if end.store.cr.Some? && Current(end.store) != "" {
      assert end.trail.applied.value in SuspectSpecs(end.trail);
      CurrentDecodes(cx, specs, end.store.revisions, end.trail.applied.value);
    }
  }

  // ---- A lost revision ----

  /** The current revision names nothing stored. */
  predicate Dangling(st: Store)
  {
    st.cr.Some? && Current(st) != "" && Current(st) !in st.revisions
  }

  lemma DanglingSync(cx: Context, w: World, cr: Cr)
    requires cr.status.currentRevision != "" && cr.status.currentRevision !in w.store.revisions
    ensures !SyncRevisions(cx, w, cr).ok
    ensures SyncRevisions(cx, w, cr).world.store.revisions == w.store.revisions
  {
    var get := GetRevision(cr.status.currentRevision);
    var before := CallShape(w, get);
    CallDrifts(w, get);
    hide Call, CreateControllerRevision, Happen;
  }

  /** While the current revision dangles no pass records or deletes a revision, whatever fails;
      a pass either leaves the current revision alone or moves it to the spec it acted on. */
  lemma DanglingPass(cx: Context, st: Store, script: seq<Turn>, c: Choices)
    requires Dangling(st)
    ensures var r := PassFrom(cx, st, script, c);
            && r.world.store.revisions == st.revisions
            && (r.world.store.cr.Some? ==>
                  Current(r.world.store) == if r.report.Acted? && r.report.landed then RevisionName(cx, r.report.s.cr.spec) else Current(st))
  {
    hide PassFrom, RevisionName;
    if PassFrom(cx, st, script, c).report.Acted? {
      DanglingAct(cx, st, script, c);
      ActedRevision(cx, st, script, c);
    } else {
      IdleKeepsCurrent(cx, st, script, c);
    }
  }

  lemma DanglingAct(cx: Context, st: Store, script: seq<Turn>, c: Choices)
    requires Dangling(st) && PassFrom(cx, st, script, c).report.Acted?
    ensures PassFrom(cx, st, script, c).world.store.revisions == st.revisions
  {
    hide Pass, Reconcile, SyncRevisions, CleanupOldRevisions, RevisionName, FactsOf, StatusChanged, Derive, CrDrifts, PodsAge, Selects,
         SelectConfigMaps, SelectPods, SelectRevisions, Active;
    var w, read, listed := ActedFacts(cx, st, script, c);
    var s := PassFrom(cx, st, script, c).report.s;
    ReadStatus(cx, st, s, w.store, read, listed);
    RoundKeepsRevisions(cx, w, s, c);
    DanglingSync(cx, Reconcile(w, s, Desired(s.cr.spec), c).world, s.cr);
  }

  /** A dangling current revision stays dangling, and the history frozen, as long as no spec of
      the run has its revision stored. */
  lemma {:induction false} DanglingPersists(cx: Context, specs: set<Spec>, pt: Point, steps: seq<Step>)
    requires Dangling(pt.store) && CrWithin(specs, pt.store.cr) && RunAllowed(cx, specs, pt, steps)
    requires forall s :: s in specs ==> RevisionName(cx, s) !in pt.store.revisions
    ensures var end := Run(cx, pt, steps).store;
            && end.revisions == pt.store.revisions && CrWithin(specs, end.cr)
            && (end.cr.Some? ==> Dangling(end))
  {
    hide RunAllowed, Pass, Possible, RevisionName;
    if steps != [] {
      var front, step := steps[..|steps| - 1], steps[|steps| - 1];
      RunAllowedPrefix(cx, specs, pt, steps);
      DanglingPersists(cx, specs, pt, front);
      var mid := Run(cx, pt, front);
      match step {
        case Happens(e) => OccurDrifts(mid.store, e);
        case Passes(script, c) =>
          SpecRead(cx, specs, mid.store, script, c);
          if mid.store.cr.Some? {
            DanglingPass(cx, mid.store, script, c);
            assert RevisionName(cx, pt.store.cr.value.spec) != "";
          } else {
            GonePass(cx, mid.store, script, c);
          }
      }
    }
  }

  /** Without the resource a pass reads once and writes nothing. */
  lemma GonePass(cx: Context, st: Store, script: seq<Turn>, c: Choices)
    requires st.cr.None?
    ensures var r := PassFrom(cx, st, script, c);
            && r.world.store.cr.None? && Drifts(st, r.world.store)
            && |r.world.audit| == 1 && r.world.audit[0].op == GetCr
  {
    var w := World(st, script, []);
    var before := ReadCall(w, GetCr);
    hide Happen, Proceed, ObserveSecret;
    assert !ReplyTo(w, GetCr).TheCr?;
  }

  lemma HealsWhenStored(cx: Context, st: Store, script: seq<Turn>, c: Choices)
    requires Dangling(st)
    requires var r := PassFrom(cx, st, script, c);
             r.world.store.cr.Some? && r.report.Acted? && r.report.landed
    ensures var r := PassFrom(cx, st, script, c);
            Dangling(r.world.store) <==> RevisionName(cx, r.report.s.cr.spec) !in st.revisions
  {
    hide Pass;
    DanglingPass(cx, st, script, c);
  }
}
