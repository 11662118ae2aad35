/** What a pass sees and which calls it makes: the facts the run invariants are built from. */
module Protocol {
  import opened Types
  import opened Restart
  import opened Api
  import opened Observer
  import opened Updater
  import opened Reconciler
  import opened Controller
  import Converter

  /** The reads of an observation. */
  predicate Reads(op: Op)
  {
    op.GetCr? || op.GetSecret? || op.ListConfigMaps? || op.ListPods? || op.ListRevisions?
  }

  // ---- Observation ----

  /** `s` is what an observation that started in `start` and ended in `end` may have seen, where
      `read` is the resource as it was read and `listed` all pods as they were listed. */
  ghost predicate SawBetween(cx: Context, start: Store, s: Snapshot, end: Store, read: Cr, listed: PodTable)
  {
    && s.cr == Named(cx, read)
    && CrDrifts(start.cr, Some(read)) && CrDrifts(Some(read), end.cr)
    && end.configMaps == start.configMaps
    && s.configMaps == SelectConfigMaps(start.configMaps, CHILD_SELECTOR)
    && end.revisions == start.revisions
    && s.revisions == SelectRevisions(start.revisions, RevisionSelector(cx))
    && PodsAge(start.pods, listed) && PodsAge(listed, end.pods)
    && s.pods == SelectPods(listed, CHILD_SELECTOR)
  }

  lemma CrDriftsOn(a: Option<Cr>, b: Option<Cr>, c: Option<Cr>)
    requires CrDrifts(a, b) && CrDrifts(b, c)
    ensures CrDrifts(a, c)
  {
  }

  lemma ReadCall(w: World, op: Op) returns (before: Store)
    requires Reads(op)
    ensures Call(w, op).store == before && Drifts(w.store, before)
    ensures ReplyTo(w, op) == Unavailable || ReplyTo(w, op) == Apply(before, op).1
  {
    before := CallShape(w, op);
  }

  lemma SeeRevisions(cx: Context, w: World, s0: Snapshot)
    ensures ObserveRevisions(cx, w, s0).0 == Calls(w, [ListRevisions(RevisionSelector(cx))])
    ensures var (w', o) := ObserveRevisions(cx, w, s0);
            o.Seen? ==> o.snapshot == s0.(revisions := SelectRevisions(w.store.revisions, RevisionSelector(cx)))
                        && PodsAge(w.store.pods, w'.store.pods)
  {
    var op := ListRevisions(RevisionSelector(cx));
    var before := ReadCall(w, op);
    OneCall(w, op);
  }

  lemma PodReads(cx: Context, w: World, s0: Snapshot) returns (ops: seq<Op>)
    ensures ObservePods(cx, w, s0).0 == Calls(w, ops) && forall op :: op in ops ==> Reads(op)
  {
    hide Call, ReplyTo, Landed, Calls;
    var op, next := ListPods(CHILD_SELECTOR), ListRevisions(RevisionSelector(cx));
    OneCall(w, op);
    ops := [op];
    if ReplyTo(w, op).ThePods? {
      SeeRevisions(cx, Call(w, op), s0.(pods := ReplyTo(w, op).pods));
      CallsCompose(w, [op], [next]);
      ops := [op] + [next];
    }
  }

  lemma ListedPods(w: World, selector: Labels) returns (listed: PodTable)
    ensures var op := ListPods(selector);
            && PodsAge(w.store.pods, listed) && Call(w, op).store.pods == listed
            && Call(w, op).store.revisions == w.store.revisions
            && (ReplyTo(w, op) == Unavailable || ReplyTo(w, op) == ThePods(SelectPods(listed, selector)))
  {
    hide Call, ReplyTo, PodsAge, SelectPods, CrDrifts;
    var before := ReadCall(w, ListPods(selector));
    listed := before.pods;
  }

  lemma SeePods(cx: Context, w: World, s0: Snapshot) returns (listed: PodTable)
    ensures var (w', o) := ObservePods(cx, w, s0);
            o.Seen? ==>
              && o.snapshot == s0.(pods := SelectPods(listed, CHILD_SELECTOR),
                                   revisions := SelectRevisions(w.store.revisions, RevisionSelector(cx)))
              && PodsAge(w.store.pods, listed) && PodsAge(listed, w'.store.pods)
  {
    var op := ListPods(CHILD_SELECTOR);
    hide Call, ReplyTo, ObserveRevisions, PodsAge, SelectPods, SelectRevisions, RevisionSelector, Calls, CHILD_SELECTOR;
    listed := ListedPods(w, CHILD_SELECTOR);
    if ReplyTo(w, op).ThePods? {
      SeeRevisions(cx, Call(w, op), s0.(pods := ReplyTo(w, op).pods));
    }
  }

  lemma SeeChildren(cx: Context, w: World, cr: Cr) returns (listed: PodTable, ops: seq<Op>)
    ensures ObserveSecret(cx, w, cr).0 == Calls(w, ops)
    ensures forall op :: op in ops ==> Reads(op)
    ensures var (w', o) := ObserveSecret(cx, w, cr);
            o.Seen? ==>
              && o.snapshot.cr == cr
              && o.snapshot.configMaps == SelectConfigMaps(w.store.configMaps, CHILD_SELECTOR)
              && o.snapshot.pods == SelectPods(listed, CHILD_SELECTOR)
              && o.snapshot.revisions == SelectRevisions(w.store.revisions, RevisionSelector(cx))
              && PodsAge(w.store.pods, listed) && PodsAge(listed, w'.store.pods)
  {
    var op2 := ListConfigMaps(CHILD_SELECTOR);
    var before1 := ReadCall(w, GetSecret);
    var w1 := Call(w, GetSecret);
    var reply := ReplyTo(w, GetSecret);
    OneCall(w, GetSecret);
    listed, ops := map[], [GetSecret];
    if reply.TheSecret? || reply.NotFound? {
      var rest;
      listed, rest := SeeTables(cx, w1, Snapshot(cr, reply.TheSecret?, map[], map[], map[]));
      CallsCompose(w, [GetSecret], rest);
      ops := [GetSecret] + rest;
      if ObserveSecret(cx, w, cr).1.Seen? {
        PodsAgeOn(w.store.pods, w1.store.pods, listed);
      }
    }
  }

  lemma SeeTables(cx: Context, w: World, s0: Snapshot) returns (listed: PodTable, ops: seq<Op>)
    ensures ObserveConfigMaps(cx, w, s0).0 == Calls(w, ops)
    ensures forall op :: op in ops ==> Reads(op)
    ensures var (w', o) := ObserveConfigMaps(cx, w, s0);
            o.Seen? ==>
              && o.snapshot.cr == s0.cr
              && o.snapshot.configMaps == SelectConfigMaps(w.store.configMaps, CHILD_SELECTOR)
              && o.snapshot.pods == SelectPods(listed, CHILD_SELECTOR)
              && o.snapshot.revisions == SelectRevisions(w.store.revisions, RevisionSelector(cx))
              && PodsAge(w.store.pods, listed) && PodsAge(listed, w'.store.pods)
  {
    var op := ListConfigMaps(CHILD_SELECTOR);
    var before := ReadCall(w, op);
    var w1 := Call(w, op);
    OneCall(w, op);
    listed, ops := map[], [op];
    if ReplyTo(w, op).TheConfigMaps? {
      var rest;
      listed := SeePods(cx, w1, s0.(configMaps := ReplyTo(w, op).configMaps));
      rest := PodReads(cx, w1, s0.(configMaps := ReplyTo(w, op).configMaps));
      CallsCompose(w, [op], rest);
      ops := [op] + rest;
      if ObserveConfigMaps(cx, w, s0).1.Seen? {
        PodsAgeOn(w.store.pods, w1.store.pods, listed);
      }
    }
  }

  /** Over reads the store only drifts. */
  lemma ReadsDrift(w: World, ops: seq<Op>)
    requires forall op :: op in ops ==> Reads(op)
    ensures var later := Calls(w, ops).store;
            && CrDrifts(w.store.cr, later.cr) && PodsAge(w.store.pods, later.pods)
            && later.configMaps == w.store.configMaps && later.revisions == w.store.revisions
  {
    hide Calls, CrDrifts, PodsAge;
    CallsDrift(w, ops);
  }

  /** An observation only reads, and its first call is the one that fetches the resource. */
  lemma ObserveFacts(cx: Context, w: World) returns (read: Cr, listed: PodTable, ops: seq<Op>)
    ensures ObserveAll(cx, w).0 == Calls(w, ops) && forall op :: op in ops ==> Reads(op)
    ensures var (w', o) := ObserveAll(cx, w);
            o.Seen? ==> SawBetween(cx, w.store, o.snapshot, w'.store, read, listed)
                        && ops != [] && ops[0] == GetCr && ReplyTo(w, GetCr) == TheCr(read)
  {
    var before := ReadCall(w, GetCr);
    assert Reads(GetCr);
    hide Reads, Calls, Call, ReplyTo, Landed, Happen, ObserveSecret, Selects, PodsAge, CrDrifts, SelectConfigMaps, SelectPods, SelectRevisions, RevisionSelector;
    var w1 := Call(w, GetCr);
    read := Cr({}, false, 0, Spec("", "", [], 0), EMPTY_STATUS);
    listed := map[];
    if ReplyTo(w, GetCr).TheCr? {
      read := ReplyTo(w, GetCr).cr;
      var rest;
      listed, rest := SeeChildren(cx, w1, Named(cx, read));
      ReadsDrift(w1, rest);
      OneCall(w, GetCr);
      CallsCompose(w, [GetCr], rest);
      ops := [GetCr] + rest;
      if ObserveAll(cx, w).1.Seen? {
        PodsAgeOn(w.store.pods, w1.store.pods, listed);
      }
    } else {
      OneCall(w, GetCr);
      ops := [GetCr];
    }
  }

  // ---- The calls of a round of actions ----

  /** The calls a pass may make once it acts on snapshot `s`. */
  predicate Legit(cx: Context, s: Snapshot, c: Choices, op: Op)
  {
    match op
    case CreateConfigMap(cm) => cm in Converter.DesiredConfigMaps(s.cr.spec) && cm.name !in s.configMaps
    case UpdateConfigMap(cm) => cm in Converter.DesiredConfigMaps(s.cr.spec) && cm.name in s.configMaps && Gate(s)
    case DeleteConfigMap(n) => n in s.configMaps && n !in ConfigMapNames(Converter.DesiredConfigMaps(s.cr.spec))
    case CreatePod(p) => p in Converter.DesiredPods(s.cr.spec) && Lookup(s.pods, EntityOf(p), p.name).None?
    case DeletePod(n) =>
      n in s.pods && (n !in PodNames(Converter.DesiredPods(s.cr.spec)) || (Gate(s) && Restarts(s, n)))
    case UpdateStatus(_) => op == AdvanceOp(s)
    case GetRevision(_) => true
    case CreateRevision(r) => r == RevisionFor(cx, s.cr.spec, r.number)
    case UpdateRevision(r) => r == RevisionFor(cx, s.cr.spec, r.number)
    case DeleteRevision(n) => exists r :: r in c.revisions && r.name == n
    case _ => false
  }

  /** Some desired pod of this name no longer fits the observed one. */
  predicate Restarts(s: Snapshot, n: string)
  {
    exists p :: p in Converter.DesiredPods(s.cr.spec) && p.name == n
                && Lookup(s.pods, EntityOf(p), n).Some? && NeedToRestart(p, s.pods[n])
  }

  predicate LegitConfigMapCall(cx: Context, s: Snapshot, c: Choices, op: Op) { Legit(cx, s, c, op) && WritesConfigMaps(op) }
  predicate LegitPodCall(cx: Context, s: Snapshot, c: Choices, op: Op) { Legit(cx, s, c, op) && WritesPods(op) }

  lemma NoCalls(w: World)
    ensures Calls(w, []) == w
  {
  }

  lemma OneCall(w: World, op: Op)
    ensures Calls(w, [op]) == Call(w, op)
  {
    assert [op][1..] == [];
  }

  lemma {:induction false} EnsureConfigMapsCalls(cx: Context, w: World, s: Snapshot, c: Choices, list: seq<ConfigMap>) returns (ops: seq<Op>)
    requires forall cm :: cm in list ==> cm in Converter.DesiredConfigMaps(s.cr.spec)
    ensures EnsureConfigMaps(w, s, list).world == Calls(w, ops)
    ensures forall op :: op in ops ==> LegitConfigMapCall(cx, s, c, op)
    decreases |list|
  {
    hide Call, ReplyTo, Landed, Calls;
    NoCalls(w);
    ops := [];
    if list != [] {
      var cm := list[0];
      var step := ReconcileConfigMap(w, s, Some(cm), ObservedConfigMap(s, cm.name));
      var first := if cm.name !in s.configMaps then [CreateConfigMap(cm)] else if Gate(s) then [UpdateConfigMap(cm)] else [];
      if first != [] { OneCall(w, first[0]); }
      assert step.world == Calls(w, first);
      ops := first;
      if step.ok {
        var rest := EnsureConfigMapsCalls(cx, step.world, s, c, list[1..]);
        CallsCompose(w, first, rest);
        ops := first + rest;
      }
    }
  }

  lemma {:induction false} DropConfigMapsCalls(cx: Context, w: World, s: Snapshot, c: Choices, wanted: set<string>, order: seq<string>) returns (ops: seq<Op>)
    requires wanted == ConfigMapNames(Converter.DesiredConfigMaps(s.cr.spec))
    ensures DropConfigMaps(w, s, wanted, order).world == Calls(w, ops)
    ensures forall op :: op in ops ==> LegitConfigMapCall(cx, s, c, op)
    decreases |order|
  {
    hide Call, ReplyTo, Landed, Calls;
    NoCalls(w);
    ops := [];
    if order != [] {
      var n := order[0];
      var first := if n in wanted || n !in s.configMaps then [] else [DeleteConfigMap(n)];
      var step := if n in wanted then Progress(w, true) else ReconcileConfigMap(w, s, None, ObservedConfigMap(s, n));
      if first != [] { OneCall(w, first[0]); }
      assert step.world == Calls(w, first);
      ops := first;
      if step.ok {
        var rest := DropConfigMapsCalls(cx, step.world, s, c, wanted, order[1..]);
        CallsCompose(w, first, rest);
        ops := first + rest;
      }
    }
  }

  lemma PodStepIsLegit(cx: Context, s: Snapshot, c: Choices, p: Pod)
    requires p in Converter.DesiredPods(s.cr.spec)
    ensures Lookup(s.pods, EntityOf(p), p.name).None? ==> LegitPodCall(cx, s, c, CreatePod(p))
    ensures Lookup(s.pods, EntityOf(p), p.name).Some? && Gate(s) && NeedToRestart(p, s.pods[p.name])
            ==> LegitPodCall(cx, s, c, DeletePod(p.name))
  {
    assert Lookup(s.pods, EntityOf(p), p.name).Some? && NeedToRestart(p, s.pods[p.name]) ==> Restarts(s, p.name);
  }

  lemma {:induction false} EnsurePodsCalls(cx: Context, w: World, s: Snapshot, c: Choices, list: seq<Pod>) returns (ops: seq<Op>)
    requires forall p :: p in list ==> p in Converter.DesiredPods(s.cr.spec)
    ensures EnsurePods(w, s, list).world == Calls(w, ops)
    ensures forall op :: op in ops ==> LegitPodCall(cx, s, c, op)
    decreases |list|
  {
    ops := [];
    if list != [] {
      var p := list[0];
      var found := Lookup(s.pods, EntityOf(p), p.name);
      var step := ReconcilePod(w, s, Some(p), found);
      var first := if found.None? then [CreatePod(p)]
                   else if Gate(s) && NeedToRestart(p, found.value) then [DeletePod(p.name)] else [];
      if first != [] { OneCall(w, first[0]); }
      assert step.world == Calls(w, first);
      PodStepIsLegit(cx, s, c, p);
      ops := first;
      if step.ok {
        var rest := EnsurePodsCalls(cx, step.world, s, c, list[1..]);
        CallsCompose(w, first, rest);
        ops := first + rest;
      }
    }
  }

  lemma {:induction false} DropPodsCalls(cx: Context, w: World, s: Snapshot, c: Choices, wanted: set<string>, order: seq<string>) returns (ops: seq<Op>)
    requires wanted == PodNames(Converter.DesiredPods(s.cr.spec))
    ensures DropPods(w, s, wanted, order).world == Calls(w, ops)
    ensures forall op :: op in ops ==> LegitPodCall(cx, s, c, op)
    decreases |order|
  {
    ops := [];
    if order != [] {
      var n := order[0];
      var first := if n in wanted || n !in s.pods then [] else [DeletePod(n)];
      var step := if n in wanted || n !in s.pods then Progress(w, true) else ReconcilePod(w, s, None, Some(s.pods[n]));
      if first != [] { OneCall(w, first[0]); }
      assert step.world == Calls(w, first);
      ops := first;
      if step.ok {
        var rest := DropPodsCalls(cx, step.world, s, c, wanted, order[1..]);
        CallsCompose(w, first, rest);
        ops := first + rest;
      }
    }
  }

  predicate LegitChildCall(cx: Context, s: Snapshot, c: Choices, op: Op)
  {
    Legit(cx, s, c, op) && (WritesConfigMaps(op) || WritesPods(op))
  }

  lemma ConfigMapCalls(cx: Context, w: World, s: Snapshot, c: Choices) returns (ops: seq<Op>)
    ensures ApplyConfigMaps(w, s, Desired(s.cr.spec).configMaps, c.configMaps).world == Calls(w, ops)
    ensures forall op :: op in ops ==> LegitConfigMapCall(cx, s, c, op)
  {
    var list := Desired(s.cr.spec).configMaps;
    var ensured := EnsureConfigMaps(w, s, list);
    ops := EnsureConfigMapsCalls(cx, w, s, c, list);
    if ensured.ok {
      var more := DropConfigMapsCalls(cx, ensured.world, s, c, ConfigMapNames(list), c.configMaps);
      CallsCompose(w, ops, more);
      ops := ops + more;
    }
  }

  lemma PodCalls(cx: Context, w: World, s: Snapshot, c: Choices) returns (ops: seq<Op>)
    ensures ApplyPods(w, s, Desired(s.cr.spec).pods, c.pods).world == Calls(w, ops)
    ensures forall op :: op in ops ==> LegitPodCall(cx, s, c, op)
  {
    var list := Desired(s.cr.spec).pods;
    var ensured := EnsurePods(w, s, list);
    ops := EnsurePodsCalls(cx, w, s, c, list);
    if ensured.ok {
      var more := DropPodsCalls(cx, ensured.world, s, c, PodNames(list), c.pods);
      CallsCompose(w, ops, more);
      ops := ops + more;
    }
  }

  lemma ChildCalls(cx: Context, w: World, s: Snapshot, c: Choices) returns (ops: seq<Op>)
    ensures ApplyChildren(w, s, Desired(s.cr.spec), c).world == Calls(w, ops)
    ensures forall op :: op in ops ==> LegitChildCall(cx, s, c, op)
  {
    ops := ConfigMapCalls(cx, w, s, c);
    var configMaps := ApplyConfigMaps(w, s, Desired(s.cr.spec).configMaps, c.configMaps);
    if configMaps.ok {
      var more := PodCalls(cx, configMaps.world, s, c);
      CallsCompose(w, ops, more);
      ops := ops + more;
    }
  }

  predicate LegitRevisionCall(cx: Context, s: Snapshot, c: Choices, op: Op)
  {
    Legit(cx, s, c, op) && (op.GetRevision? || WritesRevisions(op))
  }

  lemma RevisionWritesAreLegit(cx: Context, s: Snapshot, c: Choices, number: int)
    ensures forall n :: LegitRevisionCall(cx, s, c, GetRevision(n))
    ensures LegitRevisionCall(cx, s, c, CreateRevision(RevisionFor(cx, s.cr.spec, number)))
    ensures LegitRevisionCall(cx, s, c, UpdateRevision(RevisionFor(cx, s.cr.spec, number)))
  {
  }

  lemma CreateRevisionCalls(cx: Context, w: World, s: Snapshot, c: Choices, number: int) returns (ops: seq<Op>)
    ensures CreateControllerRevision(cx, w, s.cr.spec, number).world == Calls(w, ops)
    ensures forall op :: op in ops ==> LegitRevisionCall(cx, s, c, op)
  {
    hide Legit, LegitRevisionCall, Call, ReplyTo, Calls, RevisionFor, RevisionName;
    var r := RevisionFor(cx, s.cr.spec, number);
    var get := GetRevision(r.name);
    var w' := Call(w, get);
    OneCall(w, get);
    RevisionWritesAreLegit(cx, s, c, number);
    assert LegitRevisionCall(cx, s, c, get);
    ops := [get];
    if ReplyTo(w, get).NotFound? || ReplyTo(w, get).TheRevision? {
      var write := if ReplyTo(w, get).NotFound? then CreateRevision(r) else UpdateRevision(r);
      assert LegitRevisionCall(cx, s, c, write);
      OneCall(w', write);
      CallsCompose(w, [get], [write]);
      ops := [get] + [write];
    }
  }

  lemma SyncAgainstCalls(cx: Context, w: World, s: Snapshot, c: Choices, last: Revision) returns (ops: seq<Op>)
    ensures SyncAgainst(cx, w, s.cr, last).world == Calls(w, ops)
    ensures forall op :: op in ops ==> LegitRevisionCall(cx, s, c, op)
  {
    hide CreateControllerRevision, Legit, LegitRevisionCall, Calls, Call;
    ops := [];
    NoCalls(w);
    var lastSpec := cx.unmarshal(last.data);
    if lastSpec.Some? && s.cr.spec != lastSpec.value {
      assert SyncAgainst(cx, w, s.cr, last) == CreateControllerRevision(cx, w, s.cr.spec, last.number + 1);
      ops := CreateRevisionCalls(cx, w, s, c, last.number + 1);
    }
  }

  lemma SyncCalls(cx: Context, w: World, s: Snapshot, c: Choices) returns (ops: seq<Op>)
    ensures SyncRevisions(cx, w, s.cr).world == Calls(w, ops)
    ensures forall op :: op in ops ==> LegitRevisionCall(cx, s, c, op)
  {
    hide CreateControllerRevision, SyncAgainst, Legit, LegitRevisionCall, Calls, Call, ReplyTo;
    RevisionWritesAreLegit(cx, s, c, 1);
    if s.cr.status.currentRevision == "" {
      ops := CreateRevisionCalls(cx, w, s, c, 1);
    } else {
      var get := GetRevision(s.cr.status.currentRevision);
      var w' := Call(w, get);
      OneCall(w, get);
      ops := [get];
      if ReplyTo(w, get).TheRevision? {
        var more := SyncAgainstCalls(cx, w', s, c, ReplyTo(w, get).revision);
        CallsCompose(w, [get], more);
        ops := [get] + more;
      }
    }
  }

  lemma {:induction false} PruneCalls(cx: Context, w: World, s: Snapshot, c: Choices, oldest: seq<Revision>) returns (ops: seq<Op>)
    requires forall r :: r in oldest ==> r in c.revisions
    ensures Prune(w, oldest).world == Calls(w, ops)
    ensures forall op :: op in ops ==> LegitRevisionCall(cx, s, c, op)
    decreases |oldest|
  {
    ops := [];
    if oldest != [] {
      var op := DeleteRevision(oldest[0].name);
      OneCall(w, op);
      ops := [op];
      assert LegitRevisionCall(cx, s, c, op) by { assert oldest[0] in c.revisions; }
      if ReplyTo(w, op).Done? {
        var more := PruneCalls(cx, Call(w, op), s, c, oldest[1..]);
        CallsCompose(w, [op], more);
        ops := [op] + more;
      }
    }
  }

  lemma AfterRoundCalls(cx: Context, w: World, s: Snapshot, c: Choices) returns (ops: seq<Op>)
    ensures var sync := SyncRevisions(cx, w, s.cr);
            (if sync.ok then CleanupOldRevisions(sync.world, s.cr.spec.historyLimit, c.revisions).world else sync.world)
              == Calls(w, ops)
    ensures forall op :: op in ops ==> LegitRevisionCall(cx, s, c, op)
  {
    var sync := SyncRevisions(cx, w, s.cr);
    ops := SyncCalls(cx, w, s, c);
    if sync.ok {
      var more := PruneCalls(cx, sync.world, s, c, c.revisions[..Excess(|c.revisions|, s.cr.spec.historyLimit)]);
      CallsCompose(w, ops, more);
      ops := ops + more;
    }
  }

  lemma RoundCalls(cx: Context, w: World, s: Snapshot, c: Choices) returns (ops: seq<Op>)
    ensures Reconcile(w, s, Desired(s.cr.spec), c).world == Calls(w, ops)
    ensures forall op :: op in ops ==> Legit(cx, s, c, op) && !WritesRevisions(op)
  {
    hide Call, ReplyTo, Landed, Calls, ApplyChildren;
    var children := ApplyChildren(w, s, Desired(s.cr.spec), c);
    ops := ChildCalls(cx, w, s, c);
    if children.ok {
      OneCall(children.world, AdvanceOp(s));
      CallsCompose(w, ops, [AdvanceOp(s)]);
      ops := ops + [AdvanceOp(s)];
    }
  }

  /** Every call of the action phase is one the snapshot calls for. */
  lemma ActCalls(cx: Context, w: World, s: Snapshot, c: Choices) returns (ops: seq<Op>)
    ensures Act(cx, w, s, c).world == Calls(w, ops)
    ensures forall op :: op in ops ==> Legit(cx, s, c, op)
  {
    var round := Reconcile(w, s, Desired(s.cr.spec), c);
    ops := RoundCalls(cx, w, s, c);
    var more := AfterRoundCalls(cx, round.world, s, c);
    CallsCompose(w, ops, more);
    ops := ops + more;
  }

  // ---- The finalizer protocol ----

  predicate ChildOrStatusWrite(op: Op)
  {
    WritesConfigMaps(op) || WritesPods(op) || WritesRevisions(op) || op.UpdateStatus?
  }

  lemma ProceedCalls(cx: Context, w: World, s: Snapshot, c: Choices) returns (ops: seq<Op>)
    ensures Proceed(cx, w, s, c).world == Calls(w, ops)
    ensures !Active(s.cr) ==> forall op :: op in ops ==> !ChildOrStatusWrite(op)
  {
    ops := [];
    if !Active(s.cr) {
      ops := [FinalizerOp(s.cr)];
      OneCall(w, FinalizerOp(s.cr));
    } else {
      var next := Derive(s.cr.status, FactsOf(s));
      if next.Some? {
        if StatusChanged(s.cr.status, next.value) {
          ops := [UpdateStatus(s.cr.(status := next.value))];
          OneCall(w, UpdateStatus(s.cr.(status := next.value)));
        } else {
          ops := ActCalls(cx, w, s, c);
        }
      }
    }
  }

  lemma NamedActive(cx: Context, start: Store, s: Snapshot, end: Store, read: Cr, listed: PodTable)
    requires SawBetween(cx, start, s, end, read, listed)
    ensures Active(s.cr) == Active(read)
  {
  }

  /** A pass as one sequence of calls: reads, and then calls that depend on what was read. */
  lemma PassCalls(cx: Context, w: World, c: Choices) returns (ops: seq<Op>)
    ensures Pass(cx, w, c).world == Calls(w, ops)
    ensures forall op :: op in ops && ChildOrStatusWrite(op) ==>
              ops[0] == GetCr && ReplyTo(w, GetCr).TheCr? && Active(ReplyTo(w, GetCr).cr)
  {
    hide ObserveAll, Proceed, Calls, SawBetween, ReplyTo, Call;
    var (w', o) := ObserveAll(cx, w);
    var read, listed, first := ObserveFacts(cx, w);
    ops := first;
    if o.Seen? { NamedActive(cx, w.store, o.snapshot, w'.store, read, listed); }
    assert forall op :: op in first ==> !ChildOrStatusWrite(op);
    if o.Seen? {
      var more := ProceedCalls(cx, w', o.snapshot, c);
      CallsCompose(w, first, more);
      ops := first + more;
    }
  }

  lemma ActiveMeaning()
    ensures forall cr :: Active(cr) <==> "invokeroperator.invoker.io/finalizer" in cr.finalizers && !cr.deleting
  {
  }

  lemma FirstRecord(w: World, op: Op)
    requires w.audit == []
    ensures |Call(w, op).audit| == 1 && Call(w, op).audit[0].op == op && Call(w, op).audit[0].reply == ReplyTo(w, op)
  {
    hide Apply, Happen;
  }

  /** Finalizer protocol: whatever fails and whatever happens in between, a pass writes a
      ConfigMap, a pod, a revision or a status only if the resource it read at its start carried
      the finalizer and no deletion mark. */
  lemma WritesOnlyWhenActive(cx: Context, st: Store, script: seq<Turn>, c: Choices)
    ensures var log := Pass(cx, World(st, script, []), c).world.audit;
            forall i :: 0 <= i < |log| && ChildOrStatusWrite(log[i].op) ==>
              && log[0].op == GetCr && log[0].reply.TheCr?
              && "invokeroperator.invoker.io/finalizer" in log[0].reply.cr.finalizers && !log[0].reply.cr.deleting
  {
    ActiveMeaning();
    hide Pass, Call, Active, ReplyTo;
    var w := World(st, script, []);
    var ops := PassCalls(cx, w, c);
    CallsAudit(w, ops);
    var log := Pass(cx, w, c).world.audit;
    forall i | 0 <= i < |log| && ChildOrStatusWrite(log[i].op)
      ensures log[0].op == GetCr && log[0].reply.TheCr?
      ensures "invokeroperator.invoker.io/finalizer" in log[0].reply.cr.finalizers && !log[0].reply.cr.deleting
    {
      assert ops[i] in ops;
      CallsAudit(Call(w, ops[0]), ops[1..]);
      FirstRecord(w, GetCr);
      assert log[0] == Call(w, GetCr).audit[0];
    }
  }
}
