/** One reconcile pass: observe, finalizers, status, actions, revisions, pruning. */
module Controller {
  import opened Types
  import opened Api
  import opened Observer
  import opened Updater
  import opened Reconciler
  import Converter

  /** How far a pass got, and what it had seen. */
  datatype Report =
    | ObserveFailed
    | NoResource
    | Finalizing(s: Snapshot)
    | Crashed(s: Snapshot)
    | StatusOnly(s: Snapshot, status: Status, landed: bool)
    | Acted(s: Snapshot, reached: bool, landed: bool, synced: bool)

  datatype PassResult = PassResult(world: World, report: Report)

  /** The finalizer is there and the resource is not being deleted. */
  predicate Active(cr: Cr)
  {
    FINALIZER in cr.finalizers && !cr.deleting
  }

  /** The finalizer is added before anything else, and removed once the resource is being deleted. */
  function FinalizerOp(cr: Cr): Op
  {
    if FINALIZER !in cr.finalizers then UpdateCr(cr.(finalizers := cr.finalizers + {FINALIZER}))
    else UpdateCr(cr.(finalizers := cr.finalizers - {FINALIZER}))
  }

  function Act(cx: Context, w: World, s: Snapshot, c: Choices): PassResult
  {
    var round := Reconcile(w, s, Desired(s.cr.spec), c);
    // Revisions are recorded whether or not the round succeeded.
    var sync := SyncRevisions(cx, round.world, s.cr);
    if !sync.ok then PassResult(sync.world, Acted(s, round.reached, round.landed, false))
    else PassResult(CleanupOldRevisions(sync.world, s.cr.spec.historyLimit, c.revisions).world,
                    Acted(s, round.reached, round.landed, true))
  }

  function Proceed(cx: Context, w: World, s: Snapshot, c: Choices): PassResult
  {
    if !Active(s.cr) then PassResult(Call(w, FinalizerOp(s.cr)), Finalizing(s))
    else
      match Derive(s.cr.status, FactsOf(s))
      case None => PassResult(w, Crashed(s))
      case Some(next) =>
        if StatusChanged(s.cr.status, next) then
          var write := UpdateStatus(s.cr.(status := next));
          PassResult(Call(w, write), StatusOnly(s, next, Landed(w, write)))
        else Act(cx, w, s, c)
  }

  function Pass(cx: Context, w: World, c: Choices): PassResult
  {
    var (w', o) := ObserveAll(cx, w);
    match o
    case Fault => PassResult(w', ObserveFailed)
    case Absent => PassResult(w', NoResource)
    case Seen(s) => Proceed(cx, w', s, c)
  }

  /** The choices are ones that Go's map ranges and sort.Slice could have made on this snapshot. */
  ghost predicate Possible(c: Choices, s: Snapshot)
  {
    && Enumerates(c.configMaps, s.configMaps.Keys)
    && Enumerates(c.pods, s.pods.Keys)
    && Enumerates(c.revisions, s.revisions.Values)
    && (|c.revisions| <= s.cr.spec.historyLimit || Ascending(c.revisions))
  }

  class Handler {
    const cx: Context
    const k8sClient: ApiServer

    constructor (cx: Context, k8sClient: ApiServer)
      ensures this.cx == cx && this.k8sClient == k8sClient
    {
      this.cx, this.k8sClient := cx, k8sClient;
    }

    /** Adds or removes the finalizer on the observed resource and writes it back. */
    method WriteFinalizers(cr: InvokerDeployment)
      requires !Active(cr.Value())
      modifies k8sClient, cr
      ensures k8sClient.Now() == Call(old(k8sClient.Now()), FinalizerOp(old(cr.Value())))
    {
      if FINALIZER !in cr.finalizers {
        cr.finalizers := cr.finalizers + {FINALIZER};
      } else {
        cr.finalizers := cr.finalizers - {FINALIZER};
      }
      var _ := k8sClient.Do(UpdateCr(cr.Value()));
    }

    method TakeActions(observed: ObservedState, ghost s: Snapshot) returns (ghost result: PassResult, ghost c: Choices)
      requires observed.Shows(s)
      modifies k8sClient, observed.cr, observed.revisions
      ensures result == Act(cx, old(k8sClient.Now()), s, c) && result.world == k8sClient.Now()
      ensures Possible(c, s)
    {
      hide SyncRevisions, CleanupOldRevisions, Enumerates, Ascending, IndexOf;
      ghost var w := k8sClient.Now();
      var updater := new StatusUpdater(cx, k8sClient, observed);
      var configMaps := Converter.GetDesiredConfigMaps(observed.cr.spec);
      var pods := Converter.GetDesiredStatefulEntities(observed.cr.spec);
      var reconciler := new ResourceReconciler(k8sClient, observed, DesiredState(configMaps, pods));
      assert reconciler.desired == Desired(s.cr.spec);
      var _, orders := reconciler.ReconcileAll(s);
      ghost var round := Reconcile(w, s, Desired(s.cr.spec), orders);
      assert observed.cr.Value() == s.cr;
      var synced := updater.SyncRevisionObjects();
      if !synced {
        c := orders.(revisions := Sorted(s.revisions));
        result := PassResult(k8sClient.Now(), Acted(s, round.reached, round.landed, false));
        return;
      }
      ghost var listed := observed.revisions[..];
      var _ := reconciler.Cleanup(observed.cr.spec.historyLimit);
      c := orders.(revisions := observed.revisions[..]);
      PermutationEnumerates(listed, c.revisions, s.revisions.Values);
      result := PassResult(k8sClient.Now(), Acted(s, round.reached, round.landed, true));
    }

    /** The pass from the finalizer check on. */
    method Handle(observed: ObservedState, ghost s: Snapshot) returns (ghost result: PassResult, ghost c: Choices)
      requires observed.Shows(s)
      modifies k8sClient, observed.cr, observed.revisions
      ensures result == Proceed(cx, old(k8sClient.Now()), s, c) && result.world == k8sClient.Now()
      ensures result.report.Acted? ==> Possible(c, result.report.s)
    {
      hide Act, Derive, StatusChanged, FactsOf, Possible, Call, Landed;
      c := Choices([], [], []);
      ghost var w := k8sClient.Now();
      if FINALIZER !in observed.cr.finalizers || observed.cr.deleting {
        WriteFinalizers(observed.cr);
        result := PassResult(k8sClient.Now(), Finalizing(s));
        return;
      }
      var updater := new StatusUpdater(cx, k8sClient, observed);
      var statusChanged, crashed := updater.UpdateStatusIfChanged(s);
      if crashed { result := PassResult(k8sClient.Now(), Crashed(s)); return; }
      if statusChanged {
        ghost var next := Derive(s.cr.status, FactsOf(s)).value;
        result := PassResult(k8sClient.Now(), StatusOnly(s, next, Landed(w, UpdateStatus(s.cr.(status := next)))));
        return;
      }
      result, c := TakeActions(observed, s);
      ActReports(cx, w, s, c);
    }

    /** A whole pass does what its specification says, for choices Go could have made. */
    method ReconcilePass() returns (ghost result: PassResult, ghost c: Choices)
      modifies k8sClient
      ensures result == Pass(cx, old(k8sClient.Now()), c) && result.world == k8sClient.Now()
      ensures result.report.Acted? ==> Possible(c, result.report.s)
    {
      hide ObserveAll, Proceed, Possible;
      c := Choices([], [], []);
      var observed := new ObservedState();
      var observer := new StateObserver(cx, k8sClient);
      var err, o := observer.Observe(observed);
      if err { result := PassResult(k8sClient.Now(), ObserveFailed); return; }
      if observed.cr == null { result := PassResult(k8sClient.Now(), NoResource); return; }
      result, c := Handle(observed, o.snapshot);
    }
  }

  lemma ActReports(cx: Context, w: World, s: Snapshot, c: Choices)
    ensures Act(cx, w, s, c).report.Acted? && Act(cx, w, s, c).report.s == s
  {
    hide Reconcile, SyncRevisions, CleanupOldRevisions;
  }

  /** The listed revisions in ascending order of their numbers. */
  ghost function Sorted(t: RevisionTable): (r: seq<Revision>)
    ensures Enumerates(r, t.Values) && Ascending(r)
  {
    SortSeq(Arrange(t.Values), t.Values)
  }

  /** One choice that Go could make on a snapshot. */
  ghost function ChoicesFor(s: Snapshot): (c: Choices)
    ensures Possible(c, s)
  {
    Choices(Arrange(s.configMaps.Keys), Arrange(s.pods.Keys), Sorted(s.revisions))
  }

  ghost function SortSeq(r: seq<Revision>, values: set<Revision>): (sorted: seq<Revision>)
    requires Enumerates(r, values)
    ensures Enumerates(sorted, values) && Ascending(sorted)
    decreases |r|
  {
    if r == [] then []
    else
      var i := GreatestIndex(r);
      var rest := SortSeq(r[..i] + r[i + 1..], values - {r[i]});
      rest + [r[i]]
  }

  ghost function GreatestIndex(r: seq<Revision>): (i: nat)
    requires r != []
    ensures i < |r| && forall x :: x in r ==> x.number <= r[i].number
  {
    if |r| == 1 then 0
    else
      var i := GreatestIndex(r[..|r| - 1]);
      assert r == r[..|r| - 1] + [r[|r| - 1]];
      if r[i].number <= r[|r| - 1].number then |r| - 1 else i
  }
}
