/** The finalizer's life: added before anything else, removed to let a deletion complete. */
module Deletion {
  import opened Types
  import opened Api
  import opened Observer
  import opened Updater
  import opened Reconciler
  import opened Controller
  import opened Runs
  import opened Quiet
  import opened StatusMachine
  import opened History

  /** The resource after an undisturbed pass over one that is not active. */
  function Finalized(cr: Cr): Option<Cr>
  {
    if !cr.deleting then Some(Touched(cr).(finalizers := cr.finalizers + {FINALIZER}))
    else if FINALIZER !in cr.finalizers then Some(cr)
    else if cr.finalizers == {FINALIZER} then None
    else Some(Touched(cr).(finalizers := cr.finalizers - {FINALIZER}))
  }

  /** An undisturbed pass over a resource that is not active changes its finalizers and nothing
      else; adding one to a resource that is being deleted is refused. */
  lemma QuietFinalizing(cx: Context, st: Store, c: Choices)
    requires st.cr.Some? && !Active(st.cr.value)
    ensures PassFrom(cx, st, [], c).report.Finalizing?
    ensures PassFrom(cx, st, [], c).world.store == st.(cr := Finalized(st.cr.value))
  {
    hide Pass, Call, Act, Derive, StatusChanged, FactsOf, RevisionName, SelectConfigMaps, SelectPods, SelectRevisions;
    var w := QuietProceeds(cx, st, c);
    var op := FinalizerOp(SnapshotOf(cx, st).cr);
    QuietCall(w, op);
    var cr := st.cr.value;
    assert cr.finalizers == {FINALIZER} <==> FINALIZER in cr.finalizers && cr.finalizers - {FINALIZER} == {};
    assert Touched(cr).(finalizers := op.cr.finalizers, spec := cr.spec) == Touched(cr).(finalizers := op.cr.finalizers);
  }

  /** Deletion completes: a resource that is being deleted is gone after one undisturbed pass if
      and only if the operator's finalizer is its only one; its children are left alone. */
  lemma DeletionCompletes(cx: Context, st: Store, c: Choices)
    requires st.cr.Some? && st.cr.value.deleting
    ensures PassFrom(cx, st, [], c).world.store == st.(cr := Finalized(st.cr.value))
    ensures PassFrom(cx, st, [], c).world.store.cr.None? <==> st.cr.value.finalizers == {FINALIZER}
  {
    QuietFinalizing(cx, st, c);
  }

  /** After that, for ever: the resource stays gone, every pass only tries to read it, and the
      children change only by the environment's own moves. */
  lemma {:induction false} GoneForGood(cx: Context, pt: Point, steps: seq<Step>)
    requires pt.store.cr.None?
    ensures var end := Run(cx, pt, steps);
            && end.store.cr.None? && end.trail == pt.trail && Drifts(pt.store, end.store)
    ensures forall i :: 0 <= i < |steps| && steps[i].Passes? ==>
              var log := PassFrom(cx, Run(cx, pt, steps[..i]).store, steps[i].script, steps[i].choices).world.audit;
              |log| == 1 && log[0].op == GetCr
  {
    hide Pass;
    if steps != [] {
      var last := |steps| - 1;
      var front := steps[..last];
      GoneForGood(cx, pt, front);
      var mid := Run(cx, pt, front);
      forall i | 0 <= i < |steps| && steps[i].Passes?
        ensures var log := PassFrom(cx, Run(cx, pt, steps[..i]).store, steps[i].script, steps[i].choices).world.audit;
                |log| == 1 && log[0].op == GetCr
      {
        if i < last {
          assert front[..i] == steps[..i] && front[i] == steps[i];
        } else {
          GonePass(cx, mid.store, steps[i].script, steps[i].choices);
        }
      }
      GoneStep(cx, mid, steps[last]);
      PodsAgeOn(pt.store.pods, mid.store.pods, Run(cx, pt, steps).store.pods);
    } else {
      PodsAgeSelf(pt.store.pods);
    }
  }

  lemma PodsAgeSelf(pods: PodTable)
    ensures PodsAge(pods, pods)
  {
  }

  lemma GoneStep(cx: Context, pt: Point, step: Step)
    requires pt.store.cr.None?
    ensures var after := After(cx, pt, step);
            after.store.cr.None? && after.trail == pt.trail && Drifts(pt.store, after.store)
  {
    match step
    case Happens(e) => OccurDrifts(pt.store, e);
    case Passes(script, c) =>
      GonePass(cx, pt.store, script, c);
      GoneReports(cx, pt.store, script, c);
  }

  lemma GoneReports(cx: Context, st: Store, script: seq<Turn>, c: Choices)
    requires st.cr.None?
    ensures !PassFrom(cx, st, script, c).report.Acted?
  {
    hide ObserveSecret, Proceed;
    GonePass(cx, st, script, c);
    var before := CallShape(World(st, script, []), GetCr);
  }
}
