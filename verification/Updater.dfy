/** Deriving and writing the status, and recording revisions. */
module Updater {
  import opened Types
  import opened Api
  import opened Observer

  // ---- Status derivation ----

  predicate AllRunning(t: PodTable)
  {
    forall n :: n in t ==> t[n].phase == Running
  }

  /** The observed entities all of whose pods are running. */
  function ReadyEntities(t: PodTable): set<string>
  {
    set e | e in Entities(t) && AllRunning(InEntity(t, e))
  }

  /** What the derivation reads of the cluster. */
  datatype Facts = Facts(total: nat, ready: nat, observed: nat, hasConfigMaps: bool, hasSecret: bool)

  function FactsOf(s: Snapshot): Facts
  {
    Facts(|s.cr.spec.entities|, |ReadyEntities(s.pods)|, |Entities(s.pods)|, |s.configMaps| != 0, s.secret)
  }

  /** The state after `recorded`; nothing for a state the code panics on. */
  function NextState(recorded: string, updating: bool, f: Facts): Option<string>
  {
    if recorded == "" || recorded == STATE_CREATING then
      Some(if f.ready < f.total then STATE_CREATING else STATE_RUNNING)
    else if recorded == STATE_RUNNING || recorded == STATE_RECONCILING || recorded == STATE_UPDATING then
      Some(if updating then STATE_UPDATING else if f.ready < f.total then STATE_RECONCILING else STATE_RUNNING)
    else if recorded == STATE_STOPPING || recorded == STATE_STOPPED then Some("")
    else None
  }

  function ComponentState(present: bool, recorded: string): string
  {
    if present then COMPONENT_READY else if recorded != "" then COMPONENT_DELETED else ""
  }

  function Derive(recorded: Status, f: Facts): Option<Status>
  {
    match NextState(recorded.state, recorded.currentRevision != recorded.nextRevision, f)
    case None => None
    case Some(state) =>
      Some(Status(if recorded.conditions == [] then [TYPE_AVAILABLE] else recorded.conditions,
                  Components(ComponentState(f.hasConfigMaps, recorded.components.configMap),
                             if f.ready < f.observed then COMPONENT_NOT_READY else COMPONENT_READY,
                             ComponentState(f.hasSecret, recorded.components.secret)),
                  state, recorded.currentRevision, recorded.nextRevision))
  }

  predicate StatusChanged(current: Status, next: Status)
  {
    || next.state != current.state
    || |current.conditions| != |next.conditions|
    || next.components.configMap != current.components.configMap
    || next.components.statefulEntities != current.components.statefulEntities
  }

  // ---- Readiness ----

  /** The entity labels that some listed pod carries and under which every listed pod has phase
      Running. */
  function RunningLabels(pods: PodTable): set<string>
  {
    set n | n in pods && (forall m :: m in pods && EntityOf(pods[m]) == EntityOf(pods[n]) ==> pods[m].phase == Running)
      :: EntityOf(pods[n])
  }

  lemma ReadyAreRunning(t: PodTable)
    ensures ReadyEntities(t) == RunningLabels(t)
  {
    forall e | e in ReadyEntities(t) ensures e in RunningLabels(t) {
      var n :| n in t && EntityOf(t[n]) == e;
      forall m | m in t && EntityOf(t[m]) == EntityOf(t[n]) ensures t[m].phase == Running {
        assert m in InEntity(t, e) && InEntity(t, e)[m] == t[m];
      }
    }
    forall e | e in RunningLabels(t) ensures e in ReadyEntities(t) {
      var n :| n in t && EntityOf(t[n]) == e
               && forall m :: m in t && EntityOf(t[m]) == EntityOf(t[n]) ==> t[m].phase == Running;
      assert e in Entities(t);
      assert forall m :: m in InEntity(t, e) ==> m in t && InEntity(t, e)[m] == t[m];
    }
  }

  lemma ReadyWithin(t: PodTable)
    ensures ReadyEntities(t) <= Entities(t)
    ensures |ReadyEntities(t)| <= |Entities(t)|
    ensures |ReadyEntities(t)| == |Entities(t)| ==> ReadyEntities(t) == Entities(t)
  {
    SubsetSize(ReadyEntities(t), Entities(t));
  }

  lemma {:induction false} SubsetSize<T>(a: set<T>, b: set<T>)
    requires a <= b
    ensures |a| <= |b|
    ensures |a| == |b| ==> a == b
  {
    assert |b| == |a| + |b - a| by { assert b == a + (b - a); }
  }

  /** The entities component is reported ready exactly when every observed pod is running. */
  lemma ComponentReadyIffAllRunning(s: Snapshot, next: Status)
    requires Derive(s.cr.status, FactsOf(s)) == Some(next)
    ensures next.components.statefulEntities == COMPONENT_READY <==> forall n :: n in s.pods ==> s.pods[n].phase == Running
  {
    ReadyWithin(s.pods);
    if AllRunning(s.pods) {
      assert ReadyEntities(s.pods) == Entities(s.pods);
    } else {
      var n :| n in s.pods && s.pods[n].phase != Running;
      assert n in InEntity(s.pods, EntityOf(s.pods[n]));
      assert EntityOf(s.pods[n]) in Entities(s.pods) && EntityOf(s.pods[n]) !in ReadyEntities(s.pods);
    }
  }

  /** The members of `ready` that a walk over `es` meets. */
  function Met(ready: set<string>, es: seq<string>): set<string>
  {
    set e | e in ready && e in es
  }

  lemma MetGrows(ready: set<string>, es: seq<string>, all: set<string>, i: nat)
    requires Enumerates(es, all) && i < |es|
    ensures es[i] in ready ==> es[i] !in Met(ready, es[..i]) && Met(ready, es[..i + 1]) == Met(ready, es[..i]) + {es[i]}
    ensures es[i] !in ready ==> Met(ready, es[..i + 1]) == Met(ready, es[..i])
  {
    assert es[..i + 1] == es[..i] + [es[i]];
  }

  lemma NoneMet(ready: set<string>)
    ensures Met(ready, []) == {}
  {
  }

  lemma MetAll(t: PodTable, es: seq<string>)
    requires Enumerates(es, IndexOf(t).Keys)
    ensures Met(ReadyEntities(t), es) == ReadyEntities(t)
  {
    ReadyWithin(t);
  }

  lemma ReadyInIndex(t: PodTable, e: string)
    requires e in IndexOf(t)
    ensures e in ReadyEntities(t) <==> forall n :: n in IndexOf(t)[e] ==> IndexOf(t)[e][n].phase == Running
  {
    InnerMaps(t, e);
  }

  // ---- What the derivation answers ----

  /** The spec has at most as many entities as run. */
  predicate EnoughRun(s: Snapshot) { |s.cr.spec.entities| <= |RunningLabels(s.pods)| }

  const UP_STATES := {"Running", "Reconciling", "Updating"}

  /** A component is Ready when something is there, Deleted when nothing is but something was
      recorded, and otherwise stays empty. */
  predicate ComponentFollows(present: bool, recorded: string, next: string)
  {
    && (present ==> next == "Ready")
    && (!present && recorded != "" ==> next == "Deleted")
    && (!present && recorded == "" ==> next == "")
  }

  /** The status that a pass which has seen `s` derives, field by field. */
  ghost predicate Follows(s: Snapshot, next: Status)
  {
    var recorded := s.cr.status;
    && (recorded.state in {"", "Creating"} ==> next.state == if EnoughRun(s) then "Running" else "Creating")
    && (recorded.state in UP_STATES && recorded.currentRevision != recorded.nextRevision ==> next.state == "Updating")
    && (recorded.state in UP_STATES && recorded.currentRevision == recorded.nextRevision ==>
          next.state == if EnoughRun(s) then "Running" else "Reconciling")
    && (recorded.state in {"Stopping", "Stopped"} ==> next.state == "")
    && next.conditions == (if |recorded.conditions| == 0 then ["Available"] else recorded.conditions)
    && ComponentFollows(|s.configMaps| != 0, recorded.components.configMap, next.components.configMap)
    && ComponentFollows(s.secret, recorded.components.secret, next.components.secret)
    && next.components.statefulEntities
         == (if forall n :: n in s.pods ==> s.pods[n].phase == Running then "Ready" else "NotReady")
    && next.currentRevision == recorded.currentRevision && next.nextRevision == recorded.nextRevision
  }

  predicate KnownToCode(state: string)
  {
    state in {"", "Creating", "Running", "Reconciling", "Updating", "Stopping", "Stopped"}
  }

  lemma StatesSpelled()
    ensures STATE_CREATING == "Creating" && STATE_RUNNING == "Running" && STATE_RECONCILING == "Reconciling"
    ensures STATE_UPDATING == "Updating" && STATE_STOPPING == "Stopping" && STATE_STOPPED == "Stopped"
    ensures "Creating"[0] == 'C' && "Running"[0] == 'R' && |"Running"| == 7 && |"Reconciling"| == 11
    ensures "Updating"[0] == 'U' && |"Stopping"| == 8 && |"Stopped"| == 7 && "Stopped"[0] == 'S'
  {
  }

  /** The meaning of the derivation: it fails exactly on a state the code does not know, and
      otherwise gives the status just described. */
  lemma DerivationMeaning(s: Snapshot)
    ensures Derive(s.cr.status, FactsOf(s)).Some? <==> KnownToCode(s.cr.status.state)
    ensures Derive(s.cr.status, FactsOf(s)).Some? ==> Follows(s, Derive(s.cr.status, FactsOf(s)).value)
  {
    StateMeaning(s);
    hide NextState, RunningLabels, ReadyEntities, Entities, EnoughRun, KnownToCode, UP_STATES, AllRunning;
    if Derive(s.cr.status, FactsOf(s)).Some? {
      ComponentReadyIffAllRunning(s, Derive(s.cr.status, FactsOf(s)).value);
    }
  }

  lemma StateMeaning(s: Snapshot)
    ensures var recorded, next := s.cr.status,
              NextState(s.cr.status.state, s.cr.status.currentRevision != s.cr.status.nextRevision, FactsOf(s));
            && (next.Some? <==> KnownToCode(recorded.state))
            && (recorded.state in {"", "Creating"} ==> next == Some(if EnoughRun(s) then "Running" else "Creating"))
            && (recorded.state in UP_STATES && recorded.currentRevision != recorded.nextRevision ==> next == Some("Updating"))
            && (recorded.state in UP_STATES && recorded.currentRevision == recorded.nextRevision ==>
                  next == Some(if EnoughRun(s) then "Running" else "Reconciling"))
            && (recorded.state in {"Stopping", "Stopped"} ==> next == Some(""))
  {
    StatesSpelled();
    ReadyAreRunning(s.pods);
    hide RunningLabels, ReadyEntities, Entities;
  }

  /** The four fields that decide whether a status is written agree. */
  predicate SameCompared(a: Status, b: Status)
  {
    && a.state == b.state && |a.conditions| == |b.conditions|
    && a.components.configMap == b.components.configMap
    && a.components.statefulEntities == b.components.statefulEntities
  }

  lemma ChangeMeaning(a: Status, b: Status)
    ensures !StatusChanged(a, b) <==> SameCompared(a, b)
  {
  }

  // ---- Recording revisions ----

  function RevisionFor(cx: Context, spec: Spec, number: int): (r: Revision)
    ensures r.name == RevisionName(cx, spec) && r.number == number && r.data == cx.marshal(spec)
  {
    Revision(RevisionName(cx, spec), map[WRITTEN_REVISION_KEY := cx.name], cx.marshal(spec), number)
  }

  datatype Progress = Progress(world: World, ok: bool)

  function CreateControllerRevision(cx: Context, w: World, spec: Spec, number: int): Progress
  {
    var revision := RevisionFor(cx, spec, number);
    var get := GetRevision(revision.name);
    var w' := Call(w, get);
    match ReplyTo(w, get)
    case NotFound => Progress(Call(w', CreateRevision(revision)), ReplyTo(w', CreateRevision(revision)).Done?)
    case TheRevision(_) => Progress(Call(w', UpdateRevision(revision)), ReplyTo(w', UpdateRevision(revision)).Done?)
    case _ => Progress(w', false)
  }

  /** `cr` is the resource as observed, with the current revision it had then. */
  function SyncRevisions(cx: Context, w: World, cr: Cr): Progress
  {
    if cr.status.currentRevision == "" then CreateControllerRevision(cx, w, cr.spec, 1)
    else
      var get := GetRevision(cr.status.currentRevision);
      var w' := Call(w, get);
      match ReplyTo(w, get)
      case TheRevision(last) => SyncAgainst(cx, w', cr, last)
      case _ => Progress(w', false)
  }

  /** Records the observed spec, one number up, unless the revision already holds that spec. */
  function SyncAgainst(cx: Context, w: World, cr: Cr, last: Revision): Progress
  {
    match cx.unmarshal(last.data)
    case None => Progress(w, false)
    case Some(lastSpec) =>
      if cr.spec != lastSpec then CreateControllerRevision(cx, w, cr.spec, last.number + 1)
      else Progress(w, true)
  }

  // ---- The updater's own code ----

  class StatusUpdater {
    const cx: Context
    const k8sClient: ApiServer
    const observed: ObservedState

    constructor (cx: Context, k8sClient: ApiServer, observed: ObservedState)
      ensures this.cx == cx && this.k8sClient == k8sClient && this.observed == observed
    {
      this.cx, this.k8sClient, this.observed := cx, k8sClient, observed;
    }

    /** The inner loop: every pod of one entity is running. */
    method AllReady(pods: PodTable) returns (allReady: bool)
      ensures allReady <==> forall n :: n in pods ==> pods[n].phase == Running
    {
      allReady := true;
      var names := RangeOver(pods.Keys);
      for j := 0 to |names|
        invariant allReady <==> forall n :: n in names[..j] ==> n in pods && pods[n].phase == Running
      {
        assert names[j] in pods.Keys;
        if pods[names[j]].phase != Running {
          allReady := false;
        }
      }
      assert names[..|names|] == names;
    }

    /** Counts the entities whose pods are all running, in whatever order the maps are walked. */
    method CountRunning(index: PodIndex, ghost t: PodTable) returns (runningSE: nat)
      requires index == IndexOf(t)
      ensures runningSE == |RunningLabels(t)|
    {
      ReadyAreRunning(t);
      hide ReadyEntities, RunningLabels, Met, IndexOf;
      NoneMet(ReadyEntities(t));
      runningSE := 0;
      var entities := RangeOver(index.Keys);
      ghost var counted: set<string> := {};
      for i := 0 to |entities|
        invariant counted == Met(ReadyEntities(t), entities[..i])
        invariant runningSE == |counted|
      {
        assert entities[i] in index.Keys;
        var allReady := AllReady(index[entities[i]]);
        ReadyInIndex(t, entities[i]);
        MetGrows(ReadyEntities(t), entities, IndexOf(t).Keys, i);
        if allReady {
          runningSE := runningSE + 1;
          counted := counted + {entities[i]};
        }
      }
      assert entities[..|entities|] == entities;
      assert counted == ReadyEntities(t) by { MetAll(t, entities); }
    }

    method SwitchState(recorded: string, updating: bool, runningComponents: nat, totalComponents: nat, ghost f: Facts)
      returns (state: Option<string>)
      requires f.ready == runningComponents && f.total == totalComponents
      ensures state == NextState(recorded, updating, f)
    {
      if recorded == "" || recorded == STATE_CREATING {
        state := Some(if runningComponents < totalComponents then STATE_CREATING else STATE_RUNNING);
      } else if recorded == STATE_RUNNING || recorded == STATE_RECONCILING || recorded == STATE_UPDATING {
        if updating {
          state := Some(STATE_UPDATING);
        } else if runningComponents < totalComponents {
          state := Some(STATE_RECONCILING);
        } else {
          state := Some(STATE_RUNNING);
        }
      } else if recorded == STATE_STOPPING || recorded == STATE_STOPPED {
        state := Some("");
      } else {
        state := None;
      }
    }

    /** `None` stands for the panic on an unknown recorded state. */
    method DeriveInvokerDeploymentStatus(ghost s: Snapshot) returns (status: Option<Status>)
      requires observed.Shows(s)
      ensures status == Derive(s.cr.status, FactsOf(s))
      ensures status.Some? <==> KnownToCode(s.cr.status.state)
      ensures status.Some? ==> Follows(s, status.value)
    {
      DerivationMeaning(s);
      ReadyAreRunning(s.pods);
      hide Follows, KnownToCode, RunningLabels, NextState, ReadyEntities, Entities, EntityOf;
      var recorded := observed.cr.status;
      var derived := EMPTY_STATUS;
      derived := derived.(conditions := if |recorded.conditions| == 0 then [TYPE_AVAILABLE] else recorded.conditions);
      var totalComponents := |observed.cr.spec.entities|;
      if |observed.configMaps| != 0 {
        derived := derived.(components := derived.components.(configMap := COMPONENT_READY));
      } else if recorded.components.configMap != "" {
        derived := derived.(components := derived.components.(configMap := COMPONENT_DELETED));
      }
      if observed.secret {
        derived := derived.(components := derived.components.(secret := COMPONENT_READY));
      } else if recorded.components.secret != "" {
        derived := derived.(components := derived.components.(secret := COMPONENT_DELETED));
      }
      var totalStatefulEntities := |observed.statefulEntities.Keys|;
      var runningSE := CountRunning(observed.statefulEntities, s.pods);
      var runningComponents := runningSE;
      derived := derived.(components := derived.components.(statefulEntities :=
        if runningSE < totalStatefulEntities then COMPONENT_NOT_READY else COMPONENT_READY));
      var isClusterStateUpdating := recorded.currentRevision != recorded.nextRevision;
      var state := SwitchState(recorded.state, isClusterStateUpdating, runningComponents, totalComponents, FactsOf(s));
      if state.None? { return None; }
      status := Some(derived.(state := state.value, currentRevision := recorded.currentRevision,
                           nextRevision := recorded.nextRevision));
    }

    method UpdateClusterStatus(status: Status) returns (reply: Reply)
      requires observed.cr != null
      modifies k8sClient
      ensures k8sClient.Now() == Call(old(k8sClient.Now()), UpdateStatus(old(observed.cr.Value()).(status := status)))
      ensures reply == ReplyTo(old(k8sClient.Now()), UpdateStatus(old(observed.cr.Value()).(status := status)))
    {
      var cluster := new InvokerDeployment(observed.cr.Value());
      cluster.status := status;
      reply := k8sClient.Do(UpdateStatus(cluster.Value()));
    }

    /** Writes the derived status if it differs from the recorded one in a compared field. */
    method UpdateStatusIfChanged(ghost s: Snapshot) returns (changed: bool, crashed: bool)
      requires observed.Shows(s)
      modifies k8sClient
      ensures crashed == Derive(s.cr.status, FactsOf(s)).None?
      ensures crashed ==> k8sClient.Now() == old(k8sClient.Now())
      ensures !crashed ==>
                var next := Derive(s.cr.status, FactsOf(s)).value;
                && changed == StatusChanged(s.cr.status, next) == !SameCompared(s.cr.status, next) && Follows(s, next)
                && k8sClient.Now() == if changed then Call(old(k8sClient.Now()), UpdateStatus(s.cr.(status := next)))
                                      else old(k8sClient.Now())
    {
      hide Call, ReplyTo, Landed, Derive, FactsOf;
      var oldStatus := observed.cr.status;
      var newStatus := DeriveInvokerDeploymentStatus(s);
      if newStatus.None? { return false, true; }
      crashed := false;
      changed := false;
      if newStatus.value.state != oldStatus.state { changed := true; }
      if |oldStatus.conditions| != |newStatus.value.conditions| { changed := true; }
      if newStatus.value.components.configMap != oldStatus.components.configMap { changed := true; }
      if newStatus.value.components.statefulEntities != oldStatus.components.statefulEntities { changed := true; }
      if changed {
        var _ := UpdateClusterStatus(newStatus.value);
      }
    }

    method CreateRevisionObject(revisionNum: int) returns (ok: bool)
      requires observed.cr != null
      modifies k8sClient, observed.cr
      ensures Progress(k8sClient.Now(), ok)
           == CreateControllerRevision(cx, old(k8sClient.Now()), old(observed.cr.spec), revisionNum)
      ensures observed.cr.Value() == Named(cx, old(observed.cr.Value()))
    {
      hide Call, ReplyTo, Landed;
      ghost var w := k8sClient.Now();
      var specBytes := cx.marshal(observed.cr.spec);
      var revisionName := RevisionName(cx, observed.cr.spec);
      observed.cr.status := observed.cr.status.(nextRevision := revisionName);
      var revision := Revision(revisionName, map[WRITTEN_REVISION_KEY := cx.name], specBytes, revisionNum);
      assert revision == RevisionFor(cx, observed.cr.spec, revisionNum);
      var found := k8sClient.Do(GetRevision(revisionName));
      if found.NotFound? {
        var created := k8sClient.Do(CreateRevision(revision));
        ok := created.Done?;
      } else if found.TheRevision? {
        var updated := k8sClient.Do(UpdateRevision(revision));
        ok := updated.Done?;
      } else {
        ok := false;
      }
    }

    method SyncAgainstLast(last: Revision) returns (ok: bool)
      requires observed.cr != null
      modifies k8sClient, observed.cr
      ensures Progress(k8sClient.Now(), ok) == SyncAgainst(cx, old(k8sClient.Now()), old(observed.cr.Value()), last)
      ensures observed.cr.spec == old(observed.cr.spec)
    {
      hide CreateControllerRevision, Call, ReplyTo, Landed, RevisionName;
      var lastSpec := cx.unmarshal(last.data);
      if lastSpec.None? { return false; }
      if observed.cr.spec != lastSpec.value {
        ok := CreateRevisionObject(last.number + 1);
        return;
      }
      ok := true;
    }

    method SyncRevisionObjects() returns (ok: bool)
      requires observed.cr != null
      modifies k8sClient, observed.cr
      ensures Progress(k8sClient.Now(), ok) == SyncRevisions(cx, old(k8sClient.Now()), old(observed.cr.Value()))
      ensures observed.cr.spec == old(observed.cr.spec)
    {
      hide CreateControllerRevision, SyncAgainst, Call, ReplyTo, Landed;
      if observed.cr.status.currentRevision == "" {
        ok := CreateRevisionObject(1);
        return;
      }
      var found := k8sClient.Do(GetRevision(observed.cr.status.currentRevision));
      if !found.TheRevision? { return false; }
      ok := SyncAgainstLast(found.revision);
    }
  }
}
