/** The audit log of one pass: in which order it makes its calls, where a failure stops it, and
    what its outcome says about every single call. */
module Trace {
  import opened Types
  import opened Api
  import opened Observer
  import opened Updater
  import opened Reconciler
  import opened Controller
  import opened Protocol
  import opened Runs

  // ---- Failures ----

  /** The call succeeded; a delete also if there was nothing left to delete. */
  predicate Succeeded(r: Record)
  {
    r.reply.Done? || ((r.op.DeleteConfigMap? || r.op.DeletePod?) && r.reply.NotFound?)
  }

  /** From entry `from` of the log on, every call but the last has succeeded, and the outcome says
      whether all have. */
  ghost predicate StopsAtFirstFailure(from: nat, p: Progress)
  {
    var log := p.world.audit;
    && from <= |log|
    && (forall i :: from <= i < |log| - 1 ==> Succeeded(log[i]))
    && (p.ok <==> forall i :: from <= i < |log| ==> Succeeded(log[i]))
  }

  lemma NoCallStops(w: World)
    ensures StopsAtFirstFailure(|w.audit|, Progress(w, true))
  {
  }

  lemma CallRecord(w: World, op: Op)
    ensures w.audit <= Call(w, op).audit && |Call(w, op).audit| == |w.audit| + 1
    ensures Call(w, op).audit[|w.audit|].op == op && Call(w, op).audit[|w.audit|].reply == ReplyTo(w, op)
  {
    hide Apply, Happen;
  }

  lemma OneCallStops(w: World, op: Op, ok: bool)
    requires ok <==> Succeeded(Record(op, ReplyTo(w, op), false))
    ensures StopsAtFirstFailure(|w.audit|, Progress(Call(w, op), ok)) && w.audit <= Call(w, op).audit
  {
    hide Call, ReplyTo;
    CallRecord(w, op);
  }

  lemma StopsOn(w: World, first: Progress, second: Progress)
    requires StopsAtFirstFailure(|w.audit|, first) && first.ok && w.audit <= first.world.audit
    requires StopsAtFirstFailure(|first.world.audit|, second) && first.world.audit <= second.world.audit
    ensures StopsAtFirstFailure(|w.audit|, second) && w.audit <= second.world.audit
  {
    var a, b := first.world.audit, second.world.audit;
    assert forall i :: 0 <= i < |a| ==> b[i] == a[i];
  }

  lemma ConfigMapStepStops(w: World, s: Snapshot, desired: Option<ConfigMap>, observed: Option<ConfigMap>)
    ensures var step := ReconcileConfigMap(w, s, desired, observed);
            StopsAtFirstFailure(|w.audit|, step) && w.audit <= step.world.audit
  {
    hide Call, ReplyTo, StopsAtFirstFailure, Gate;
    NoCallStops(w);
    if desired.Some? {
      OneCallStops(w, CreateConfigMap(desired.value), ReplyTo(w, CreateConfigMap(desired.value)).Done?);
      OneCallStops(w, UpdateConfigMap(desired.value), ReplyTo(w, UpdateConfigMap(desired.value)).Done?);
    } else if observed.Some? {
      OneCallStops(w, DeleteConfigMap(observed.value.name), Deleted(ReplyTo(w, DeleteConfigMap(observed.value.name))));
    }
  }

  lemma PodStepStops(w: World, s: Snapshot, desired: Option<Pod>, observed: Option<Pod>)
    ensures var step := ReconcilePod(w, s, desired, observed);
            StopsAtFirstFailure(|w.audit|, step) && w.audit <= step.world.audit
  {
    hide Call, ReplyTo, StopsAtFirstFailure, Gate;
    NoCallStops(w);
    if desired.Some? {
      OneCallStops(w, CreatePod(desired.value), ReplyTo(w, CreatePod(desired.value)).Done?);
      OneCallStops(w, DeletePod(desired.value.name), Deleted(ReplyTo(w, DeletePod(desired.value.name))));
    } else if observed.Some? {
      OneCallStops(w, DeletePod(observed.value.name), Deleted(ReplyTo(w, DeletePod(observed.value.name))));
    }
  }

  lemma {:induction false} EnsureConfigMapsStops(w: World, s: Snapshot, list: seq<ConfigMap>)
    ensures var p := EnsureConfigMaps(w, s, list);
            StopsAtFirstFailure(|w.audit|, p) && w.audit <= p.world.audit
    decreases |list|
  {
    hide StopsAtFirstFailure, ReconcileConfigMap;
    if list == [] {
      NoCallStops(w);
    } else {
      var step := ReconcileConfigMap(w, s, Some(list[0]), ObservedConfigMap(s, list[0].name));
      ConfigMapStepStops(w, s, Some(list[0]), ObservedConfigMap(s, list[0].name));
      if step.ok {
        EnsureConfigMapsStops(step.world, s, list[1..]);
        StopsOn(w, step, EnsureConfigMaps(step.world, s, list[1..]));
      }
    }
  }

  lemma {:induction false} DropConfigMapsStops(w: World, s: Snapshot, wanted: set<string>, order: seq<string>)
    ensures var p := DropConfigMaps(w, s, wanted, order);
            StopsAtFirstFailure(|w.audit|, p) && w.audit <= p.world.audit
    decreases |order|
  {
    hide StopsAtFirstFailure, ReconcileConfigMap;
    NoCallStops(w);
    if order != [] {
      var step := if order[0] in wanted then Progress(w, true) else ReconcileConfigMap(w, s, None, ObservedConfigMap(s, order[0]));
      ConfigMapStepStops(w, s, None, ObservedConfigMap(s, order[0]));
      if step.ok {
        DropConfigMapsStops(step.world, s, wanted, order[1..]);
        StopsOn(w, step, DropConfigMaps(step.world, s, wanted, order[1..]));
      }
    }
  }

  lemma {:induction false} EnsurePodsStops(w: World, s: Snapshot, list: seq<Pod>)
    ensures var p := EnsurePods(w, s, list);
            StopsAtFirstFailure(|w.audit|, p) && w.audit <= p.world.audit
    decreases |list|
  {
    hide StopsAtFirstFailure, ReconcilePod, Lookup;
    if list == [] {
      NoCallStops(w);
    } else {
      var step := ReconcilePod(w, s, Some(list[0]), Lookup(s.pods, EntityOf(list[0]), list[0].name));
      PodStepStops(w, s, Some(list[0]), Lookup(s.pods, EntityOf(list[0]), list[0].name));
      if step.ok {
        EnsurePodsStops(step.world, s, list[1..]);
        StopsOn(w, step, EnsurePods(step.world, s, list[1..]));
      }
    }
  }

  lemma {:induction false} DropPodsStops(w: World, s: Snapshot, wanted: set<string>, order: seq<string>)
    ensures var p := DropPods(w, s, wanted, order);
            StopsAtFirstFailure(|w.audit|, p) && w.audit <= p.world.audit
    decreases |order|
  {
    hide StopsAtFirstFailure, ReconcilePod;
    NoCallStops(w);
    if order != [] {
      var skip := order[0] in wanted || order[0] !in s.pods;
      var step := if skip then Progress(w, true) else ReconcilePod(w, s, None, Some(s.pods[order[0]]));
      if !skip { PodStepStops(w, s, None, Some(s.pods[order[0]])); }
      if step.ok {
        DropPodsStops(step.world, s, wanted, order[1..]);
        StopsOn(w, step, DropPods(step.world, s, wanted, order[1..]));
      }
    }
  }

  lemma ApplyConfigMapsStops(w: World, s: Snapshot, list: seq<ConfigMap>, order: seq<string>)
    ensures var p := ApplyConfigMaps(w, s, list, order);
            StopsAtFirstFailure(|w.audit|, p) && w.audit <= p.world.audit
  {
    hide StopsAtFirstFailure, EnsureConfigMaps, DropConfigMaps;
    var first := EnsureConfigMaps(w, s, list);
    EnsureConfigMapsStops(w, s, list);
    if first.ok {
      DropConfigMapsStops(first.world, s, ConfigMapNames(list), order);
      StopsOn(w, first, DropConfigMaps(first.world, s, ConfigMapNames(list), order));
    }
  }

  lemma ApplyPodsStops(w: World, s: Snapshot, list: seq<Pod>, order: seq<string>)
    ensures var p := ApplyPods(w, s, list, order);
            StopsAtFirstFailure(|w.audit|, p) && w.audit <= p.world.audit
  {
    hide StopsAtFirstFailure, EnsurePods, DropPods;
    var first := EnsurePods(w, s, list);
    EnsurePodsStops(w, s, list);
    if first.ok {
      DropPodsStops(first.world, s, PodNames(list), order);
      StopsOn(w, first, DropPods(first.world, s, PodNames(list), order));
    }
  }

  lemma ApplyChildrenStops(w: World, s: Snapshot, d: DesiredState, c: Choices)
    ensures var p := ApplyChildren(w, s, d, c);
            StopsAtFirstFailure(|w.audit|, p) && w.audit <= p.world.audit
  {
    hide StopsAtFirstFailure, ApplyConfigMaps, ApplyPods;
    var first := ApplyConfigMaps(w, s, d.configMaps, c.configMaps);
    ApplyConfigMapsStops(w, s, d.configMaps, c.configMaps);
    if first.ok {
      ApplyPodsStops(first.world, s, d.pods, c.pods);
      StopsOn(w, first, ApplyPods(first.world, s, d.pods, c.pods));
    }
  }

  // ---- The order of the phases ----

  /** Reads, then ConfigMaps, then pods, then the status, then revisions, then their deletion. */
  function StageOf(op: Op): nat
  {
    if WritesConfigMaps(op) then 1
    else if WritesPods(op) then 2
    else if WritesCr(op) then 3
    else if op.GetRevision? || op.CreateRevision? || op.UpdateRevision? then 4
    else if op.DeleteRevision? then 5
    else 0
  }

  ghost predicate InOrder(ops: seq<Op>) { forall i, j :: 0 <= i < j < |ops| ==> StageOf(ops[i]) <= StageOf(ops[j]) }

  ghost predicate Within(ops: seq<Op>, low: nat, high: nat) { forall op :: op in ops ==> low <= StageOf(op) <= high }

  lemma OrderedBoth(a: seq<Op>, b: seq<Op>, low: nat, mid: nat, high: nat)
    requires InOrder(a) && InOrder(b) && Within(a, low, mid) && Within(b, mid, high) && low <= mid <= high
    ensures InOrder(a + b) && Within(a + b, low, high)
  {
    hide StageOf;
    forall i, j | 0 <= i < j < |a + b| ensures StageOf((a + b)[i]) <= StageOf((a + b)[j]) {
      if i < |a| <= j { assert a[i] in a && b[j - |a|] in b; }
    }
  }

  lemma OnePhase(ops: seq<Op>, n: nat)
    requires Within(ops, n, n)
    ensures InOrder(ops)
  {
    hide StageOf;
    forall i, j | 0 <= i < j < |ops| ensures StageOf(ops[i]) <= StageOf(ops[j]) {
      assert ops[i] in ops && ops[j] in ops;
    }
  }

  lemma Wider(ops: seq<Op>, low: nat, high: nat, low': nat, high': nat)
    requires Within(ops, low, high) && low' <= low && high <= high'
    ensures Within(ops, low', high')
  {
    hide StageOf;
  }

  lemma ConfigMapStage(op: Op)
    requires WritesConfigMaps(op)
    ensures StageOf(op) == 1
  {
  }

  lemma PodStage(op: Op)
    requires WritesPods(op)
    ensures StageOf(op) == 2
  {
  }

  lemma RevisionStage(cx: Context, s: Snapshot, c: Choices, op: Op)
    requires LegitRevisionCall(cx, s, c, op) && c.revisions == []
    ensures StageOf(op) == 4
  {
    hide Restarts, RevisionFor;
    assert !op.DeleteRevision?;
    hide Legit;
  }

  lemma ConfigMapPhase(cx: Context, s: Snapshot, c: Choices, ops: seq<Op>)
    requires forall op :: op in ops ==> LegitConfigMapCall(cx, s, c, op)
    ensures Within(ops, 1, 1) && InOrder(ops)
  {
    hide StageOf, Legit, WritesConfigMaps;
    forall op | op in ops ensures StageOf(op) == 1 { ConfigMapStage(op); }
    OnePhase(ops, 1);
  }

  lemma PodPhase(cx: Context, s: Snapshot, c: Choices, ops: seq<Op>)
    requires forall op :: op in ops ==> LegitPodCall(cx, s, c, op)
    ensures Within(ops, 2, 2) && InOrder(ops)
  {
    hide StageOf, Legit, WritesPods;
    forall op | op in ops ensures StageOf(op) == 2 { PodStage(op); }
    OnePhase(ops, 2);
  }

  lemma ChildrenInOrder(cx: Context, w: World, s: Snapshot, c: Choices) returns (ops: seq<Op>)
    ensures ApplyChildren(w, s, Desired(s.cr.spec), c).world == Calls(w, ops)
    ensures InOrder(ops) && Within(ops, 1, 2)
  {
    hide ApplyConfigMaps, ApplyPods, Calls, InOrder, Within, LegitConfigMapCall, LegitPodCall, Desired;
    var d := Desired(s.cr.spec);
    ops := ConfigMapCalls(cx, w, s, c);
    ConfigMapPhase(cx, s, c, ops);
    Wider(ops, 1, 1, 1, 2);
    var first := ApplyConfigMaps(w, s, d.configMaps, c.configMaps);
    if first.ok {
      var more := PodCalls(cx, first.world, s, c);
      PodPhase(cx, s, c, more);
      Wider(more, 2, 2, 2, 2);
      CallsCompose(w, ops, more);
      OrderedBoth(ops, more, 1, 2, 2);
      ops := ops + more;
    }
  }

  lemma SyncInOrder(cx: Context, w: World, s: Snapshot) returns (ops: seq<Op>)
    ensures SyncRevisions(cx, w, s.cr).world == Calls(w, ops) && InOrder(ops) && Within(ops, 4, 4)
  {
    hide SyncRevisions, Calls, StageOf, LegitRevisionCall;
    var none := Choices([], [], []);
    ops := SyncCalls(cx, w, s, none);
    forall op | op in ops ensures StageOf(op) == 4 { RevisionStage(cx, s, none, op); }
    OnePhase(ops, 4);
  }

  lemma {:induction false} PruneInOrder(w: World, oldest: seq<Revision>) returns (ops: seq<Op>)
    ensures Prune(w, oldest).world == Calls(w, ops) && Within(ops, 5, 5)
    decreases |oldest|
  {
    hide Call, ReplyTo, Calls;
    ops := [];
    NoCalls(w);
    if oldest != [] {
      var op := DeleteRevision(oldest[0].name);
      OneCall(w, op);
      ops := [op];
      if ReplyTo(w, op).Done? {
        var more := PruneInOrder(Call(w, op), oldest[1..]);
        CallsCompose(w, [op], more);
        ops := [op] + more;
      }
    }
  }

  lemma BookkeepingInOrder(cx: Context, w: World, s: Snapshot, c: Choices) returns (ops: seq<Op>)
    ensures var sync := SyncRevisions(cx, w, s.cr);
            (if sync.ok then CleanupOldRevisions(sync.world, s.cr.spec.historyLimit, c.revisions).world else sync.world)
              == Calls(w, ops)
    ensures InOrder(ops) && Within(ops, 4, 5)
  {
    hide SyncRevisions, Calls, InOrder, Within, Prune;
    var sync := SyncRevisions(cx, w, s.cr);
    ops := SyncInOrder(cx, w, s);
    Wider(ops, 4, 4, 4, 5);
    if sync.ok {
      var more := PruneInOrder(sync.world, c.revisions[..Excess(|c.revisions|, s.cr.spec.historyLimit)]);
      OnePhase(more, 5);
      Wider(more, 5, 5, 5, 5);
      Wider(ops, 4, 5, 4, 5);
      CallsCompose(w, ops, more);
      OrderedBoth(ops, more, 4, 5, 5);
      ops := ops + more;
    }
  }

  // ---- The action phase ----

  /** The calls of the action phase: those for the children, the status write if it comes to that,
      and the bookkeeping. */
  lemma ActInOrder(cx: Context, w: World, s: Snapshot, c: Choices) returns (children: seq<Op>, after: seq<Op>)
    ensures ApplyChildren(w, s, Desired(s.cr.spec), c).world == Calls(w, children)
    ensures Act(cx, w, s, c).world == Calls(Calls(w, children), after)
    ensures InOrder(children) && Within(children, 1, 2) && InOrder(after) && Within(after, 3, 5)
    ensures Act(cx, w, s, c).report.reached == ApplyChildren(w, s, Desired(s.cr.spec), c).ok
    ensures !ApplyChildren(w, s, Desired(s.cr.spec), c).ok ==> Within(after, 4, 5)
  {
    hide ApplyChildren, SyncRevisions, CleanupOldRevisions, Calls, InOrder, Within, Call, ReplyTo, Landed;
    children := ChildrenInOrder(cx, w, s, c);
    var p := ApplyChildren(w, s, Desired(s.cr.spec), c);
    var round := Reconcile(w, s, Desired(s.cr.spec), c);
    after := BookkeepingInOrder(cx, round.world, s, c);
    Wider(after, 4, 5, 3, 5);
    if p.ok {
      var advance := AdvanceOp(s);
      OneCall(p.world, advance);
      CallsCompose(p.world, [advance], after);
      StatusPhase(advance);
      Wider(after, 4, 5, 3, 5);
      OrderedBoth([advance], after, 3, 3, 5);
      after := [advance] + after;
    }
  }

  lemma StatusPhase(op: Op)
    requires op.UpdateStatus?
    ensures InOrder([op]) && Within([op], 3, 3)
  {
  }

  // ---- The log of a pass ----

  predicate WritesChild(op: Op) { WritesConfigMaps(op) || WritesPods(op) }

  /** The log of a pass in three parts: its reads, then what it did to the children, then the rest.
      `reached` tells whether the pass came to write the advanced status. */
  ghost predicate LogSplits(log: seq<Record>, a: nat, b: nat, reached: bool)
  {
    && a <= b <= |log|
    && (forall i :: 0 <= i < a ==> StageOf(log[i].op) == 0)
    && (forall i :: a <= i < b ==> 1 <= StageOf(log[i].op) <= 2)
    && (forall i :: b <= i < |log| ==> 3 <= StageOf(log[i].op))
    && (forall i, j :: 0 <= i < j < |log| ==> StageOf(log[i].op) <= StageOf(log[j].op))
    && (forall i :: a <= i < b - 1 ==> Succeeded(log[i]))
    && (reached <==> forall i :: a <= i < b ==> Succeeded(log[i]))
    && (!reached ==> forall i :: b <= i < |log| ==> StageOf(log[i].op) >= 4)
  }

  lemma LogOf(w: World, ops: seq<Op>)
    ensures w.audit <= Calls(w, ops).audit && |Calls(w, ops).audit| == |w.audit| + |ops|
    ensures forall i :: |w.audit| <= i < |w.audit| + |ops| ==>
              Calls(w, ops).audit[i].op == ops[i - |w.audit|] && ops[i - |w.audit|] in ops
  {
    hide Calls;
    CallsAudit(w, ops);
    forall i | |w.audit| <= i < |w.audit| + |ops|
      ensures Calls(w, ops).audit[i].op == ops[i - |w.audit|] && ops[i - |w.audit|] in ops
    {
      assert Calls(w, ops).audit[|w.audit| + (i - |w.audit|)].op == ops[i - |w.audit|];
    }
  }

  /** Entry by entry: what the log of three sequences of calls holds. */
  lemma LogEntry(start: World, first: seq<Op>, second: seq<Op>, third: seq<Op>, i: nat)
    requires start.audit == [] && i < |first| + |second| + |third|
    ensures var mid := Calls(Calls(start, first), second).audit;
            var log := Calls(Calls(Calls(start, first), second), third).audit;
            && |log| == |first| + |second| + |third| && |mid| == |first| + |second|
            && log[i].op == (first + second + third)[i]
            && (i < |mid| ==> log[i] == mid[i])
  {
    hide Calls;
    LogOf(start, first);
    LogOf(Calls(start, first), second);
    LogOf(Calls(Calls(start, first), second), third);
  }

  lemma LogLength(start: World, first: seq<Op>, second: seq<Op>, third: seq<Op>)
    requires start.audit == []
    ensures |Calls(Calls(start, first), second).audit| == |first| + |second|
    ensures |Calls(Calls(Calls(start, first), second), third).audit| == |first| + |second| + |third|
  {
    hide Calls;
    LogOf(start, first);
    LogOf(Calls(start, first), second);
    LogOf(Calls(Calls(start, first), second), third);
  }

  lemma SplitOrdered(seen: seq<Op>, children: seq<Op>, after: seq<Op>)
    requires Within(seen, 0, 0)
    requires InOrder(children) && Within(children, 1, 2) && InOrder(after) && Within(after, 3, 5)
    ensures InOrder(seen + children + after)
  {
    hide InOrder, Within;
    OnePhase(seen, 0);
    Wider(seen, 0, 0, 0, 1);
    OrderedBoth(seen, children, 0, 1, 2);
    Wider(after, 3, 5, 2, 5);
    OrderedBoth(seen + children, after, 0, 2, 5);
  }

  lemma StageAt(seen: seq<Op>, children: seq<Op>, after: seq<Op>, low: nat, i: nat)
    requires Within(seen, 0, 0) && Within(children, 1, 2) && Within(after, low, 5)
    requires i < |seen| + |children| + |after|
    ensures var stage := StageOf((seen + children + after)[i]);
            && (i < |seen| ==> stage == 0)
            && (|seen| <= i < |seen| + |children| ==> 1 <= stage <= 2)
            && (|seen| + |children| <= i ==> low <= stage)
  {
    hide StageOf;
    var op := (seen + children + after)[i];
    assert op in seen || op in children || op in after;
    assert i < |seen| ==> op == seen[i];
    assert |seen| <= i < |seen| + |children| ==> op == children[i - |seen|];
    assert |seen| + |children| <= i ==> op == after[i - |seen| - |children|];
  }

  lemma SplitLog(seen: seq<Op>, children: seq<Op>, after: seq<Op>, start: World, p: Progress)
    requires start.audit == [] && Within(seen, 0, 0)
    requires InOrder(children) && Within(children, 1, 2) && InOrder(after) && Within(after, 3, 5)
    requires p.world == Calls(Calls(start, seen), children)
    requires StopsAtFirstFailure(|seen|, p) && (!p.ok ==> Within(after, 4, 5))
    ensures LogSplits(Calls(p.world, after).audit, |seen|, |seen| + |children|, p.ok)
  {
    hide Calls, StageOf, Succeeded, Within, InOrder, StopsAtFirstFailure;
    SplitOrdered(seen, children, after);
    LogLength(start, seen, children, after);
    var log, ops := Calls(p.world, after).audit, seen + children + after;
    var a, b := |seen|, |seen| + |children|;
    forall i | 0 <= i < |log|
      ensures log[i].op == ops[i] && (i < b ==> log[i] == p.world.audit[i])
      ensures i < a ==> StageOf(log[i].op) == 0
      ensures a <= i < b ==> 1 <= StageOf(log[i].op) <= 2
      ensures b <= i ==> 3 <= StageOf(log[i].op) && (!p.ok ==> 4 <= StageOf(log[i].op))
    {
      LogEntry(start, seen, children, after, i);
      StageAt(seen, children, after, 3, i);
      if !p.ok { StageAt(seen, children, after, 4, i); }
    }
    forall i, j | 0 <= i < j < |log| ensures StageOf(log[i].op) <= StageOf(log[j].op) {
      OrderedAt(ops, i, j);
    }
    SplitSuccess(log, a, p);
  }

  lemma SplitSuccess(log: seq<Record>, a: nat, p: Progress)
    requires StopsAtFirstFailure(a, p) && |p.world.audit| <= |log|
    requires forall i :: 0 <= i < |p.world.audit| ==> log[i] == p.world.audit[i]
    ensures forall i :: a <= i < |p.world.audit| - 1 ==> Succeeded(log[i])
    ensures p.ok <==> forall i :: a <= i < |p.world.audit| ==> Succeeded(log[i])
  {
    hide Succeeded;
  }

  lemma OrderedAt(ops: seq<Op>, i: nat, j: nat)
    requires InOrder(ops) && i < j < |ops|
    ensures StageOf(ops[i]) <= StageOf(ops[j])
  {
    hide StageOf;
  }

  lemma ReadPhase(ops: seq<Op>)
    requires forall op :: op in ops ==> Reads(op)
    ensures Within(ops, 0, 0)
  {
  }

  lemma ActedWorld(cx: Context, st: Store, script: seq<Turn>, c: Choices) returns (w: World)
    requires PassFrom(cx, st, script, c).report.Acted?
    ensures w == ObserveAll(cx, World(st, script, [])).0
    ensures PassFrom(cx, st, script, c) == Act(cx, w, PassFrom(cx, st, script, c).report.s, c)
  {
    hide *;
    var read, listed;
    w, read, listed := ActedFacts(cx, st, script, c);
  }

  lemma ObserveStage(cx: Context, w: World) returns (ops: seq<Op>)
    ensures ObserveAll(cx, w).0 == Calls(w, ops) && Within(ops, 0, 0)
  {
    hide *;
    var read, listed;
    read, listed, ops := ObserveFacts(cx, w);
    ReadPhase(ops);
  }

  /** The log of every pass that acts, whatever fails in it: first its reads, then its ConfigMap
      writes, then its pod writes, then the status, then the revisions, then their pruning.  The
      first child call that fails is the last one, and then the status is not advanced; the
      status is written exactly if every child call succeeded. */
  lemma ActedLog(cx: Context, st: Store, script: seq<Turn>, c: Choices) returns (a: nat, b: nat)
    requires PassFrom(cx, st, script, c).report.Acted?
    ensures LogSplits(PassFrom(cx, st, script, c).world.audit, a, b, PassFrom(cx, st, script, c).report.reached)
  {
    hide Pass, Act, ObserveAll, Calls, ApplyChildren, InOrder, Within, LogSplits, StopsAtFirstFailure;
    var start := World(st, script, []);
    var w := ActedWorld(cx, st, script, c);
    var s := PassFrom(cx, st, script, c).report.s;
    var seen := ObserveStage(cx, start);
    var children, after := ActInOrder(cx, w, s, c);
    var p := ApplyChildren(w, s, Desired(s.cr.spec), c);
    ApplyChildrenStops(w, s, Desired(s.cr.spec), c);
    LogOf(start, seen);
    SplitLog(seen, children, after, start, p);
    a, b := |seen|, |seen| + |children|;
  }

  /** Corollary, about every two calls and about the outcome. */
  lemma FirstFailureStops(cx: Context, st: Store, script: seq<Turn>, c: Choices)
    requires PassFrom(cx, st, script, c).report.Acted?
    ensures var r := PassFrom(cx, st, script, c);
            var log := r.world.audit;
            && (forall i, j :: 0 <= i < j < |log| ==> StageOf(log[i].op) <= StageOf(log[j].op))
            && (forall i, j :: 0 <= i < j < |log| && WritesChild(log[i].op) && !Succeeded(log[i]) ==>
                  !WritesChild(log[j].op) && !WritesCr(log[j].op))
            && (r.report.reached <==> forall i :: 0 <= i < |log| && WritesChild(log[i].op) ==> Succeeded(log[i]))
  {
    hide PassFrom, Succeeded;
    var a, b := ActedLog(cx, st, script, c);
    ChildPhase();
  }

  lemma ChildPhase()
    ensures forall op :: WritesChild(op) <==> 1 <= StageOf(op) <= 2
    ensures forall op :: WritesCr(op) ==> StageOf(op) == 3
  {
  }

  // ---- Observation ----

  /** From entry `from` of the log on, the observation failed exactly if some call went unanswered. */
  ghost predicate FailsIfUnanswered(from: nat, log: seq<Record>, o: Observation)
  {
    from <= |log| && (o.Fault? <==> exists i :: from <= i < |log| && log[i].reply == Unavailable)
  }

  lemma AnsweredThen(w: World, op: Op, later: World, o: Observation)
    requires ReplyTo(w, op) != Unavailable
    requires Call(w, op).audit <= later.audit && FailsIfUnanswered(|w.audit| + 1, later.audit, o)
    ensures w.audit <= later.audit && FailsIfUnanswered(|w.audit|, later.audit, o)
  {
    hide Call, ReplyTo;
    CallRecord(w, op);
    assert later.audit[|w.audit|] == Call(w, op).audit[|w.audit|];
  }

  lemma OneRead(w: World, op: Op, o: Observation)
    requires o.Fault? <==> ReplyTo(w, op) == Unavailable
    ensures w.audit <= Call(w, op).audit && FailsIfUnanswered(|w.audit|, Call(w, op).audit, o)
  {
    hide Call, ReplyTo;
    CallRecord(w, op);
  }

  lemma RevisionsFail(cx: Context, w: World, s: Snapshot)
    ensures var (later, o) := ObserveRevisions(cx, w, s);
            w.audit <= later.audit && FailsIfUnanswered(|w.audit|, later.audit, o) && (o.Seen? ==> o.snapshot.secret == s.secret) && !o.Absent?
  {
    hide Call, ReplyTo, FailsIfUnanswered, RevisionSelector, SelectRevisions;
    var op := ListRevisions(RevisionSelector(cx));
    var before := ReadCall(w, op);
    OneRead(w, op, ObserveRevisions(cx, w, s).1);
  }

  lemma PodsFail(cx: Context, w: World, s: Snapshot)
    ensures var (later, o) := ObservePods(cx, w, s);
            w.audit <= later.audit && FailsIfUnanswered(|w.audit|, later.audit, o) && (o.Seen? ==> o.snapshot.secret == s.secret) && !o.Absent?
  {
    hide Call, ReplyTo, FailsIfUnanswered, ObserveRevisions, SelectPods;
    var op := ListPods(CHILD_SELECTOR);
    var before := ReadCall(w, op);
    CallRecord(w, op);
    if ReplyTo(w, op).ThePods? {
      RevisionsFail(cx, Call(w, op), s.(pods := ReplyTo(w, op).pods));
      AnsweredThen(w, op, ObservePods(cx, w, s).0, ObservePods(cx, w, s).1);
    } else {
      OneRead(w, op, ObservePods(cx, w, s).1);
    }
  }

  lemma ConfigMapsFail(cx: Context, w: World, s: Snapshot)
    ensures var (later, o) := ObserveConfigMaps(cx, w, s);
            w.audit <= later.audit && FailsIfUnanswered(|w.audit|, later.audit, o) && (o.Seen? ==> o.snapshot.secret == s.secret) && !o.Absent?
  {
    hide Call, ReplyTo, FailsIfUnanswered, ObservePods, SelectConfigMaps;
    var op := ListConfigMaps(CHILD_SELECTOR);
    var before := ReadCall(w, op);
    CallRecord(w, op);
    if ReplyTo(w, op).TheConfigMaps? {
      PodsFail(cx, Call(w, op), s.(configMaps := ReplyTo(w, op).configMaps));
      AnsweredThen(w, op, ObserveConfigMaps(cx, w, s).0, ObserveConfigMaps(cx, w, s).1);
    } else {
      OneRead(w, op, ObserveConfigMaps(cx, w, s).1);
    }
  }

  lemma SecretFails(cx: Context, w: World, cr: Cr)
    ensures var (later, o) := ObserveSecret(cx, w, cr);
            w.audit <= later.audit && FailsIfUnanswered(|w.audit|, later.audit, o)
            && (o.Seen? ==> o.snapshot.secret == w.store.secret) && !o.Absent?
  {
    hide Call, ReplyTo, FailsIfUnanswered, ObserveConfigMaps;
    var before := ReadCall(w, GetSecret);
    CallRecord(w, GetSecret);
    var reply := ReplyTo(w, GetSecret);
    if reply.TheSecret? || reply.NotFound? {
      ConfigMapsFail(cx, Call(w, GetSecret), Snapshot(cr, reply.TheSecret?, map[], map[], map[]));
      AnsweredThen(w, GetSecret, ObserveSecret(cx, w, cr).0, ObserveSecret(cx, w, cr).1);
    } else {
      OneRead(w, GetSecret, ObserveSecret(cx, w, cr).1);
    }
  }

  /** An observation fails exactly if one of its calls goes unanswered; finding no resource or no
      secret is not a failure, and the secret is seen exactly if it is there. */
  lemma ObservationFailsExactlyWhen(cx: Context, w: World)
    ensures var (later, o) := ObserveAll(cx, w);
            && w.audit <= later.audit
            && (o.Fault? <==> exists i :: |w.audit| <= i < |later.audit| && later.audit[i].reply == Unavailable)
            && (o.Absent? ==> ReplyTo(w, GetCr) == NotFound)
            && (o.Seen? ==> o.snapshot.secret == w.store.secret)
  {
    hide Call, ReplyTo, ObserveSecret, Named;
    var before := ReadCall(w, GetCr);
    CallRecord(w, GetCr);
    if ReplyTo(w, GetCr).TheCr? {
      SecretFails(cx, Call(w, GetCr), Named(cx, ReplyTo(w, GetCr).cr));
      AnsweredThen(w, GetCr, ObserveAll(cx, w).0, ObserveAll(cx, w).1);
    } else {
      OneRead(w, GetCr, ObserveAll(cx, w).1);
    }
  }
}
