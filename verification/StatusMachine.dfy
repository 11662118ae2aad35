/** The status state machine over runs, and why status writes cannot starve the action phase. */
module StatusMachine {
  import opened Types
  import opened Api
  import opened Observer
  import opened Updater
  import opened Reconciler
  import opened Controller
  import opened Protocol
  import opened Runs
  import opened Quiet

  predicate Starting(state: string) { state == "" || state == STATE_CREATING }

  predicate Started(state: string) { state == STATE_RUNNING || state == STATE_RECONCILING || state == STATE_UPDATING }

  predicate KnownState(state: string) { Starting(state) || Started(state) }

  lemma StatesDiffer()
    ensures forall x :: !(Starting(x) && Started(x))
    ensures Started(STATE_RUNNING) && Started(STATE_RECONCILING) && Started(STATE_UPDATING) && STATE_CREATING != ""
    ensures STATE_UPDATING != STATE_RECONCILING && STATE_UPDATING != STATE_RUNNING
  {
    assert STATE_CREATING[0] == 'C' && STATE_RUNNING[0] == 'R' && STATE_RECONCILING[0] == 'R' && STATE_UPDATING[0] == 'U';
  }

  /** From a known state the derivation stays among the known states, never returns to the
      starting ones, and reports an update exactly when the revisions differ. */
  lemma DerivedState(recorded: Status, f: Facts)
    requires KnownState(recorded.state)
    ensures Derive(recorded, f).Some?
    ensures var next := Derive(recorded, f).value;
            && KnownState(next.state) && next.state != ""
            && (Started(recorded.state) ==>
                  Started(next.state)
                  && (next.state == STATE_UPDATING <==> recorded.currentRevision != recorded.nextRevision))
            && (next.state == STATE_UPDATING ==> Started(recorded.state))
            && next.currentRevision == recorded.currentRevision && next.nextRevision == recorded.nextRevision
  {
    StatesDiffer();
  }

  lemma CrashFacts(cx: Context, st: Store, script: seq<Turn>, c: Choices)
    requires PassFrom(cx, st, script, c).report.Crashed?
    ensures var s := PassFrom(cx, st, script, c).report.s;
            && st.cr.Some? && s.cr.status == st.cr.value.status.(nextRevision := RevisionName(cx, s.cr.spec))
            && Derive(s.cr.status, FactsOf(s)).None?
  {
    hide ObserveAll, Derive, StatusChanged, Calls, ReplyTo, Act, Call, FactsOf, RevisionName, SawBetween;
    var start := World(st, script, []);
    var read, listed, ops := ObserveFacts(cx, start);
    var (w, o) := ObserveAll(cx, start);
    ActReports(cx, w, o.snapshot, c);
    ReadStatus(cx, st, o.snapshot, w.store, read, listed);
  }

  /** One pass of the state machine, whatever fails in it. */
  lemma PassStates(cx: Context, st: Store, script: seq<Turn>, c: Choices)
    requires st.cr.Some? ==> KnownState(st.cr.value.status.state)
    ensures var r := PassFrom(cx, st, script, c);
            && !r.report.Crashed?
            && (r.world.store.cr.Some? ==>
                  && st.cr.Some?
                  && KnownState(r.world.store.cr.value.status.state)
                  && (Started(st.cr.value.status.state) ==> Started(r.world.store.cr.value.status.state))
                  && (r.world.store.cr.value.status.state == "" ==> st.cr.value.status.state == ""))
  {
    hide Pass, Derive, FactsOf, RevisionName;
    var r := PassFrom(cx, st, script, c);
    PassCr(cx, st, script, c);
    if r.report.Crashed? {
      CrashFacts(cx, st, script, c);
      DerivedState(r.report.s.cr.status, FactsOf(r.report.s));
    }
    if r.report.StatusOnly? && r.world.store.cr.Some? {
      DerivedState(r.report.s.cr.status, FactsOf(r.report.s));
    }
  }

  /** Status machine over runs: from a known state, whatever fails and whatever is edited, every
      state reached is a known one, no pass panics, and a started resource never goes back to the
      empty state or to Creating. */
  lemma {:induction false} RunStates(cx: Context, pt: Point, steps: seq<Step>)
    requires pt.store.cr.Some? ==> KnownState(pt.store.cr.value.status.state)
    ensures var end := Run(cx, pt, steps).store;
            end.cr.Some? ==>
              && pt.store.cr.Some?
              && KnownState(end.cr.value.status.state)
              && (Started(pt.store.cr.value.status.state) ==> Started(end.cr.value.status.state))
    ensures forall i :: 0 <= i < |steps| && steps[i].Passes? ==>
              !PassFrom(cx, Run(cx, pt, steps[..i]).store, steps[i].script, steps[i].choices).report.Crashed?
  {
    hide Pass, KnownState, Started;
    if steps != [] {
      var last := |steps| - 1;
      var front := steps[..last];
      RunStates(cx, pt, front);
      var mid := Run(cx, pt, front);
      forall i | 0 <= i < |steps| && steps[i].Passes?
        ensures !PassFrom(cx, Run(cx, pt, steps[..i]).store, steps[i].script, steps[i].choices).report.Crashed?
      {
        if i < last {
          assert front[..i] == steps[..i] && front[i] == steps[i];
        } else {
          PassStates(cx, mid.store, steps[i].script, steps[i].choices);
        }
      }
      match steps[last] {
        case Happens(e) => OccurDrifts(mid.store, e);
        case Passes(script, c) => PassStates(cx, mid.store, script, c);
      }
    }
  }

  // ---- No starvation ----

  /** How many more status writes a recorded status still calls for, the facts standing still. */
  function WritesLeft(recorded: Status, f: Facts): nat
    requires KnownState(recorded.state)
  {
    DerivedState(recorded, f);
    var first := Derive(recorded, f).value;
    if !StatusChanged(recorded, first) then 0
    else if Derive(first, f).value.state == first.state then 1
    else 2
  }

  /** Each status write brings the recorded status closer to one that is not changed any more:
      conditions and components settle at once, the state after at most one more write. */
  lemma WritesLeftDecreases(recorded: Status, f: Facts)
    requires KnownState(recorded.state)
    ensures var next := Derive(recorded, f).value;
            KnownState(next.state) && (StatusChanged(recorded, next) ==> WritesLeft(next, f) < WritesLeft(recorded, f))
  {
    StatesDiffer();
    DerivedState(recorded, f);
    var next := Derive(recorded, f).value;
    DerivedState(next, f);
    var after := Derive(next, f).value;
    assert |after.conditions| == |next.conditions| && after.components == next.components;
    assert StatusChanged(next, after) <==> after.state != next.state;
    if after.state != next.state {
      DerivedState(after, f);
      assert Derive(after, f).value.state == after.state;
    }
  }

  lemma QuietProceeds(cx: Context, st: Store, c: Choices) returns (w: World)
    requires st.cr.Some?
    ensures w.store == st && w.script == []
    ensures PassFrom(cx, st, [], c) == Proceed(cx, w, SnapshotOf(cx, st), c)
  {
    hide ObserveAll, Proceed, SnapshotOf;
    QuietObserve(cx, World(st, [], []));
    w := ObserveAll(cx, World(st, [], [])).0;
  }

  /** An undisturbed pass over an active resource either writes exactly the derived status and
      stops, or acts. */
  lemma QuietStatusPass(cx: Context, st: Store, c: Choices)
    requires st.cr.Some? && Active(st.cr.value) && KnownState(st.cr.value.status.state)
    ensures var s := SnapshotOf(cx, st);
            var next := Derive(s.cr.status, FactsOf(s)).value;
            var r := PassFrom(cx, st, [], c);
            && KnownState(s.cr.status.state)
            && Derive(s.cr.status, FactsOf(s)).Some?
            && (StatusChanged(s.cr.status, next) ==>
                  r.report == StatusOnly(s, next, true)
                  && r.world.store == st.(cr := Some(Touched(st.cr.value).(status := next))))
            && (!StatusChanged(s.cr.status, next) ==> r.report.Acted? && r.report.s == s)
  {
    hide Act, Derive, FactsOf, StatusChanged, SelectConfigMaps, SelectPods, SelectRevisions, RevisionName, KnownState, Call;
    var w := QuietProceeds(cx, st, c);
    var s := SnapshotOf(cx, st);
    DerivedState(s.cr.status, FactsOf(s));
    var next := Derive(s.cr.status, FactsOf(s)).value;
    QuietCall(w, UpdateStatus(s.cr.(status := next)));
    ActReports(cx, w, s, c);
  }

  lemma StatusWriteKeepsFacts(cx: Context, st: Store, next: Status)
    requires st.cr.Some? && next.nextRevision == RevisionName(cx, st.cr.value.spec)
    ensures var st' := st.(cr := Some(Touched(st.cr.value).(status := next)));
            && FactsOf(SnapshotOf(cx, st')) == FactsOf(SnapshotOf(cx, st))
            && SnapshotOf(cx, st').cr.status == next
  {
    hide RevisionName, SelectConfigMaps, SelectPods, SelectRevisions;
  }

  function QuietRun(cx: Context, st: Store, cs: seq<Choices>): Store
    decreases |cs|
  {
    if cs == [] then st else QuietRun(cx, PassFrom(cx, st, [], cs[0]).world.store, cs[1..])
  }

  /** No starvation: with nothing else moving, after as many status-only passes as are pending,
      at most two, the next pass acts; those passes change nothing but the resource's status. */
  lemma {:induction false} ActionPhaseRuns(cx: Context, st: Store, cs: seq<Choices>) returns (k: nat)
    requires st.cr.Some? && Active(st.cr.value) && KnownState(st.cr.value.status.state)
    requires |cs| > WritesLeft(SnapshotOf(cx, st).cr.status, FactsOf(SnapshotOf(cx, st)))
    ensures k <= WritesLeft(SnapshotOf(cx, st).cr.status, FactsOf(SnapshotOf(cx, st))) <= 2
    ensures var before := QuietRun(cx, st, cs[..k]);
            && PassFrom(cx, before, [], cs[k]).report.Acted?
            && before.cr.Some? && before == st.(cr := before.cr)
            && before.cr.value.(status := st.cr.value.status, resourceVersion := 0) == st.cr.value.(resourceVersion := 0)
            && before.cr.value.status.currentRevision == st.cr.value.status.currentRevision
            && KnownState(before.cr.value.status.state)
    decreases |cs|
  {
    hide Act, Derive, FactsOf, StatusChanged, SelectConfigMaps, SelectPods, SelectRevisions, RevisionName, KnownState, Pass, Call, WritesLeft;
    var s := SnapshotOf(cx, st);
    var r := PassFrom(cx, st, [], cs[0]);
    QuietStatusPass(cx, st, cs[0]);
    DerivedState(s.cr.status, FactsOf(s));
    WritesLeftSmall(s.cr.status, FactsOf(s));
    k := 0;
    if r.report.StatusOnly? {
      var next := r.report.status;
      StatusWriteKeepsFacts(cx, st, next);
      WritesLeftDecreases(s.cr.status, FactsOf(s));
      var rest := ActionPhaseRuns(cx, r.world.store, cs[1..]);
      k := rest + 1;
      assert cs[..k][1..] == cs[1..][..rest] && cs[1..][rest] == cs[k];
    }
  }

  lemma WritesLeftSmall(recorded: Status, f: Facts)
    requires KnownState(recorded.state)
    ensures WritesLeft(recorded, f) <= 2
    ensures WritesLeft(recorded, f) == 0 <==> !StatusChanged(recorded, Derive(recorded, f).value)
  {
    DerivedState(recorded, f);
  }
}
