/** Concurrent edits: no write of a pass undoes them. */
module Edits {
  import opened Types
  import opened Api
  import opened Observer
  import opened Updater
  import opened Reconciler
  import opened Controller
  import opened Protocol
  import opened Runs

  /** The spec after these events of the environment. */
  function LastEdit(spec: Spec, events: seq<Event>): Spec
    decreases |events|
  {
    if events == [] then spec
    else LastEdit(if events[0].EditSpec? then events[0].spec else spec, events[1..])
  }

  /** The spec after what the environment does before each of the next calls. */
  function EditedDuring(spec: Spec, script: seq<Turn>, calls: nat): Spec
    decreases calls
  {
    if calls == 0 || script == [] then spec
    else EditedDuring(LastEdit(spec, script[0].before), script[1..], calls - 1)
  }

  lemma {:induction false} EventsEdit(st: Store, events: seq<Event>)
    ensures Happen(st, events).cr.Some? ==>
              st.cr.Some? && Happen(st, events).cr.value.spec == LastEdit(st.cr.value.spec, events)
    decreases |events|
  {
    if events != [] {
      EventsEdit(Occur(st, events[0]), events[1..]);
    }
  }

  /** A call keeps the edits made before it, provided a write to the resource carries the spec and
      the version of an earlier read of it. */
  lemma CallEdits(w: World, op: Op, read: Cr)
    requires CrDrifts(Some(read), w.store.cr)
    requires op.UpdateCr? ==> op.cr.spec == read.spec && op.cr.resourceVersion == read.resourceVersion
    ensures Call(w, op).store.cr.Some? ==>
              w.store.cr.Some? && Call(w, op).store.cr.value.spec == EditedDuring(w.store.cr.value.spec, w.script, 1)
  {
    var events := NextTurn(w).before;
    EventsEdit(w.store, events);
    var before := CallShape(w, op);
    hide Happen, Call, Landed, PodsAge, ApplyToPods, ApplyToConfigMaps, ApplyToRevisions, Answer;
    CrDriftsOn(Some(read), w.store.cr, before.cr);
    if w.store.cr.Some? {
      OneTurn(w.store.cr.value.spec, w.script);
    }
  }

  lemma OneTurn(spec: Spec, script: seq<Turn>)
    ensures EditedDuring(spec, script, 1) == if script == [] then spec else LastEdit(spec, script[0].before)
    ensures LastEdit(spec, []) == spec
  {
  }

  lemma CallShiftsScript(w: World, op: Op)
    ensures Call(w, op).script == if w.script == [] then [] else w.script[1..]
  {
    hide Apply, Happen;
  }

  lemma EditedStep(spec: Spec, script: seq<Turn>, n: nat)
    ensures EditedDuring(spec, script, n + 1)
         == EditedDuring(EditedDuring(spec, script, 1), if script == [] then [] else script[1..], n)
  {
    OneTurn(spec, script);
  }

  function Rest(script: seq<Turn>, calls: nat): seq<Turn>
  {
    if calls <= |script| then script[calls..] else []
  }

  lemma {:induction false} CallsEdit(w: World, ops: seq<Op>)
    requires forall op :: op in ops ==> !op.UpdateCr?
    ensures Calls(w, ops).script == Rest(w.script, |ops|)
    ensures Calls(w, ops).store.cr.Some? ==>
              w.store.cr.Some? && Calls(w, ops).store.cr.value.spec == EditedDuring(w.store.cr.value.spec, w.script, |ops|)
    decreases |ops|
  {
    hide Call;
    if ops != [] {
      assert ops[0] in ops;
      var next := Call(w, ops[0]);
      PlainCallEdits(w, ops[0]);
      CallShiftsScript(w, ops[0]);
      CallsEdit(next, ops[1..]);
      if w.store.cr.Some? { EditedStep(w.store.cr.value.spec, w.script, |ops| - 1); }
    }
  }

  lemma PlainCallEdits(w: World, op: Op)
    requires !op.UpdateCr?
    ensures Call(w, op).store.cr.Some? ==>
              w.store.cr.Some? && Call(w, op).store.cr.value.spec == EditedDuring(w.store.cr.value.spec, w.script, 1)
  {
    hide Call;
    if w.store.cr.Some? {
      CallEdits(w, op, w.store.cr.value);
    } else {
      NothingCreatesCr(w, [op]);
      OneCall(w, op);
    }
  }

  lemma {:induction false} EditedCompose(spec: Spec, script: seq<Turn>, a: nat, b: nat)
    ensures EditedDuring(EditedDuring(spec, script, a), Rest(script, a), b) == EditedDuring(spec, script, a + b)
    decreases a
  {
    if a > 0 && script != [] {
      EditedCompose(LastEdit(spec, script[0].before), script[1..], a - 1, b);
      assert Rest(script[1..], a - 1) == Rest(script, a);
    }
  }

  /** `later` is a world some calls after `w`, and its spec is the one the edits meanwhile leave. */
  ghost predicate SpecFollows(w: World, later: World)
  {
    && |w.audit| <= |later.audit|
    && (later.store.cr.Some? ==>
          w.store.cr.Some?
          && later.store.cr.value.spec == EditedDuring(w.store.cr.value.spec, w.script, |later.audit| - |w.audit|))
  }

  lemma ObserveEdits(cx: Context, w: World) returns (read: Cr)
    ensures var (later, o) := ObserveAll(cx, w);
            && SpecFollows(w, later) && later.script == Rest(w.script, |later.audit| - |w.audit|)
            && (o.Seen? ==> o.snapshot.cr == Named(cx, read) && CrDrifts(Some(read), later.store.cr))
  {
    hide ObserveAll, Calls, ReplyTo, PodsAge, SelectConfigMaps, SelectPods, SelectRevisions, RevisionSelector, CrDrifts, Named;
    var listed, ops;
    read, listed, ops := ObserveFacts(cx, w);
    CallsEdit(w, ops);
    CallsAudit(w, ops);
  }

  lemma SpecFollowsOn(a: World, b: World, c: World)
    requires SpecFollows(a, b) && SpecFollows(b, c) && b.script == Rest(a.script, |b.audit| - |a.audit|)
    ensures SpecFollows(a, c)
  {
    if a.store.cr.Some? {
      EditedCompose(a.store.cr.value.spec, a.script, |b.audit| - |a.audit|, |c.audit| - |b.audit|);
    }
  }

  lemma ProceedEdits(cx: Context, w: World, s: Snapshot, c: Choices, read: Cr)
    requires s.cr == Named(cx, read) && CrDrifts(Some(read), w.store.cr)
    ensures SpecFollows(w, Proceed(cx, w, s, c).world)
  {
    hide Act, Call, Derive, StatusChanged, Calls, CrDrifts;
    if !Active(s.cr) {
      CallEdits(w, FinalizerOp(s.cr), read);
    } else {
      var ops := ActiveCalls(cx, w, s, c);
      CallsEdit(w, ops);
      CallsAudit(w, ops);
    }
  }

  /** No edit is lost: whatever fails, the spec after a pass is the one that the environment's own
      edits before and between the pass's calls leave. */
  lemma PassKeepsEdits(cx: Context, st: Store, script: seq<Turn>, c: Choices)
    ensures var r := PassFrom(cx, st, script, c);
            r.world.store.cr.Some? ==>
              st.cr.Some? && r.world.store.cr.value.spec == EditedDuring(st.cr.value.spec, script, |r.world.audit|)
  {
    hide ObserveAll, Proceed, CrDrifts, Named, EditedDuring;
    var start := World(st, script, []);
    var (w, o) := ObserveAll(cx, start);
    var read := ObserveEdits(cx, start);
    if o.Seen? {
      ProceedEdits(cx, w, o.snapshot, c, read);
      SpecFollowsOn(start, w, PassFrom(cx, st, script, c).world);
    }
  }
}
