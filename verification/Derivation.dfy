/** What the recorded status says about the cluster: when a pass acts, and which state a resource
    left alone comes to record. */
module Derivation {
  import opened Types
  import opened Api
  import opened Observer
  import opened Updater
  import opened Reconciler
  import opened Controller
  import opened Runs
  import opened Quiet
  import opened StatusMachine

  // ---- When a pass acts ----

  /** An undisturbed pass over an active resource in a known state acts if and only if the recorded
      state, number of conditions, ConfigMap component and StatefulEntities component each equal
      the derived ones. */
  lemma ActsExactlyWhenUpToDate(cx: Context, st: Store, c: Choices)
    requires st.cr.Some? && Active(st.cr.value) && KnownState(st.cr.value.status.state)
    ensures exists next :: Follows(SnapshotOf(cx, st), next)
    ensures forall next :: Follows(SnapshotOf(cx, st), next) ==>
              (PassFrom(cx, st, [], c).report.Acted? <==> SameCompared(SnapshotOf(cx, st).cr.status, next))
  {
    hide Pass, Derive, FactsOf, StatusChanged, SnapshotOf, KnownState, Follows, SameCompared;
    var s := SnapshotOf(cx, st);
    QuietStatusPass(cx, st, c);
    DerivationMeaning(s);
    var next := Derive(s.cr.status, FactsOf(s)).value;
    ChangeMeaning(s.cr.status, next);
    forall other | Follows(s, other) ensures other == next {
      KnownFollows(s);
      FollowsIsOne(s, next, other);
    }
  }

  lemma KnownFollows(s: Snapshot)
    ensures KnownState(s.cr.status.state) ==> KnownToCode(s.cr.status.state)
  {
    StatesSpelled();
  }

  /** The description leaves no choice. */
  lemma FollowsIsOne(s: Snapshot, a: Status, b: Status)
    requires KnownToCode(s.cr.status.state) && Follows(s, a) && Follows(s, b)
    ensures a == b
  {
    hide EnoughRun;
  }

  /** Whatever fails: a pass acts only if what it read was up to date with what it saw, so that the
      recorded StatefulEntities component is Ready exactly when every listed pod has phase
      Running, and the recorded state is the one that the pods and the revisions call for. */
  lemma ActedIsUpToDate(cx: Context, st: Store, script: seq<Turn>, c: Choices)
    requires PassFrom(cx, st, script, c).report.Acted?
    ensures var s := PassFrom(cx, st, script, c).report.s;
            var recorded := s.cr.status;
            && (exists next :: Follows(s, next) && SameCompared(recorded, next))
            && recorded.conditions != []
            && (recorded.components.statefulEntities == "Ready" <==> forall n :: n in s.pods ==> s.pods[n].phase == Running)
            && (s.configMaps != map[] ==> recorded.components.configMap == "Ready")
            && recorded.state in {"Creating", "Running", "Updating", "Reconciling"}
            && (recorded.state == "Updating" ==> recorded.currentRevision != recorded.nextRevision)
            && (recorded.state in {"Creating", "Reconciling"} ==> !EnoughRun(s))
            && (recorded.state == "Running" ==> EnoughRun(s) && recorded.currentRevision == recorded.nextRevision)
  {
    hide Pass, Derive, FactsOf, StatusChanged, Act, ObserveAll, CrDrifts, PodsAge, Active;
    var w, read, listed := ActedFacts(cx, st, script, c);
    var s := PassFrom(cx, st, script, c).report.s;
    DerivationMeaning(s);
    var next := Derive(s.cr.status, FactsOf(s)).value;
    ChangeMeaning(s.cr.status, next);
    hide PassFrom;
    UpToDateMeaning(s, next);
  }

  lemma UpToDateMeaning(s: Snapshot, next: Status)
    requires Follows(s, next) && SameCompared(s.cr.status, next) && KnownToCode(s.cr.status.state)
    ensures var recorded := s.cr.status;
            && recorded.conditions != []
            && (recorded.components.statefulEntities == "Ready" <==> forall n :: n in s.pods ==> s.pods[n].phase == Running)
            && (s.configMaps != map[] ==> recorded.components.configMap == "Ready")
            && recorded.state in {"Creating", "Running", "Updating", "Reconciling"}
            && (recorded.state == "Updating" ==> recorded.currentRevision != recorded.nextRevision)
            && (recorded.state in {"Creating", "Reconciling"} ==> !EnoughRun(s))
            && (recorded.state == "Running" ==> EnoughRun(s) && recorded.currentRevision == recorded.nextRevision)
  {
    hide EnoughRun;
    StatesSpelled();
    assert "NotReady"[0] == 'N' && "Ready"[0] == 'R';
    assert s.configMaps != map[] ==> |s.configMaps| != 0;
    assert "Stopping" != "" && "Stopped" != "";
  }

  // ---- What a resource left alone comes to record ----

  /** The state that the pods and the revisions call for, given whether the resource has started. */
  function StateCalledFor(s: Snapshot): string
  {
    if s.cr.status.state in {"", "Creating"} && !EnoughRun(s) then "Creating"
    else if s.cr.status.currentRevision != s.cr.status.nextRevision then "Updating"
    else if EnoughRun(s) then "Running"
    else "Reconciling"
  }

  /** A status write moves the record towards that state and never past it. */
  lemma WriteKeepsCall(s: Snapshot, next: Status)
    requires Follows(s, next) && KnownState(s.cr.status.state)
    ensures StateCalledFor(s.(cr := s.cr.(status := next))) == StateCalledFor(s)
    ensures SameCompared(s.cr.status, next) ==> s.cr.status.state == StateCalledFor(s)
  {
    StatesSpelled();
    var later := s.(cr := s.cr.(status := next));
    assert EnoughRun(later) == EnoughRun(s);
    hide EnoughRun;
  }

  lemma WriteKeepsSnapshot(cx: Context, st: Store, next: Status)
    requires st.cr.Some? && next.nextRevision == RevisionName(cx, st.cr.value.spec)
    ensures var later := SnapshotOf(cx, st.(cr := Some(Touched(st.cr.value).(status := next))));
            var s := SnapshotOf(cx, st);
            later.pods == s.pods && later.cr.spec == s.cr.spec && later.cr.status == next
  {
    hide RevisionName, SelectConfigMaps, SelectPods, SelectRevisions;
  }

  lemma CallDependsOn(s: Snapshot, t: Snapshot)
    requires s.pods == t.pods && s.cr.spec == t.cr.spec && s.cr.status == t.cr.status
    ensures StateCalledFor(s) == StateCalledFor(t)
  {
    hide RunningLabels;
  }

  /** An active resource left alone, whatever state it has recorded, comes to record exactly the
      state called for within two status passes, and the next pass acts. */
  lemma {:induction false} RecordsStateCalledFor(cx: Context, st: Store, cs: seq<Choices>) returns (k: nat)
    requires st.cr.Some? && Active(st.cr.value) && KnownState(st.cr.value.status.state)
    requires KnownState(SnapshotOf(cx, st).cr.status.state)
    requires |cs| > WritesLeft(SnapshotOf(cx, st).cr.status, FactsOf(SnapshotOf(cx, st)))
    ensures k <= WritesLeft(SnapshotOf(cx, st).cr.status, FactsOf(SnapshotOf(cx, st))) <= 2
    ensures var before := QuietRun(cx, st, cs[..k]);
            && PassFrom(cx, before, [], cs[k]).report.Acted?
            && before.cr.Some? && before == st.(cr := before.cr)
            && before.cr.value.status.state == StateCalledFor(SnapshotOf(cx, st))
    decreases |cs|
  {
    hide Act, Derive, FactsOf, StatusChanged, SnapshotOf, RevisionName, KnownState, Pass, Call, WritesLeft, Follows, SameCompared, StateCalledFor;
    var s := SnapshotOf(cx, st);
    var r := PassFrom(cx, st, [], cs[0]);
    QuietStatusPass(cx, st, cs[0]);
    DerivedState(s.cr.status, FactsOf(s));
    WritesLeftSmall(s.cr.status, FactsOf(s));
    DerivationMeaning(s);
    var next := Derive(s.cr.status, FactsOf(s)).value;
    ChangeMeaning(s.cr.status, next);
    WriteKeepsCall(s, next);
    SnapshotState(cx, st);
    k := 0;
    if r.report.StatusOnly? {
      StatusWriteKeepsFacts(cx, st, next);
      WriteKeepsSnapshot(cx, st, next);
      CallDependsOn(SnapshotOf(cx, r.world.store), s.(cr := s.cr.(status := next)));
      WritesLeftDecreases(s.cr.status, FactsOf(s));
      var rest := RecordsStateCalledFor(cx, r.world.store, cs[1..]);
      k := rest + 1;
      assert cs[..k][1..] == cs[1..][..rest] && cs[1..][rest] == cs[k];
    }
  }

  lemma SnapshotState(cx: Context, st: Store)
    requires st.cr.Some?
    ensures SnapshotOf(cx, st).cr.status.state == st.cr.value.status.state
    ensures SnapshotOf(cx, st).cr.status.nextRevision == RevisionName(cx, st.cr.value.spec)
  {
    hide RevisionName, SelectConfigMaps, SelectPods, SelectRevisions;
  }
}
