/** The API server as the operator meets it: a store of named objects, an environment that may
    change the store before any call, and calls that may fail with or without taking effect. */
module Api {
  import opened Types
  import opened Restart

  datatype Store = Store(cr: Option<Cr>, secret: bool, configMaps: ConfigMapTable, pods: PodTable,
                         revisions: RevisionTable)

  // ---- What the environment does by itself ----

  datatype Event =
    | EditSpec(spec: Spec)
    | MarkDeleted
    | SetPhase(pod: string, phase: Phase)
    | Evict(pod: string)
    | FinishTermination(pod: string)

  function OccurToCr(stored: Option<Cr>, e: Event): Option<Cr>
  {
    match (stored, e)
    case (Some(cr), EditSpec(spec)) => Some(Touched(cr).(spec := spec))
    case (Some(cr), MarkDeleted) =>
      if cr.deleting then stored
      else if cr.finalizers == {} then None
      else Some(Touched(cr).(deleting := true))
    case _ => stored
  }

  function OccurToPods(pods: PodTable, e: Event): PodTable
  {
    match e
    case SetPhase(pod, phase) => if pod in pods then pods[pod := pods[pod].(phase := phase)] else pods
    case Evict(pod) => Terminate(pods, pod)
    case FinishTermination(pod) => if pod in pods && pods[pod].terminating then pods - {pod} else pods
    case _ => pods
  }

  function Occur(st: Store, e: Event): Store
  {
    st.(cr := OccurToCr(st.cr, e), pods := OccurToPods(st.pods, e))
  }

  function Happen(st: Store, events: seq<Event>): Store
    decreases |events|
  {
    if events == [] then st else Happen(Occur(st, events[0]), events[1..])
  }

  /** Every write to the resource moves its resource version. */
  function Touched(cr: Cr): Cr { cr.(resourceVersion := cr.resourceVersion + 1) }

  function Terminate(pods: PodTable, pod: string): PodTable
  {
    if pod in pods then pods[pod := pods[pod].(terminating := true)] else pods
  }

  // ---- Calls ----

  datatype Op =
    | GetCr
    | UpdateCr(cr: Cr)
    | UpdateStatus(cr: Cr)
    | GetSecret
    | ListConfigMaps(selector: Labels)
    | CreateConfigMap(configMap: ConfigMap)
    | UpdateConfigMap(configMap: ConfigMap)
    | DeleteConfigMap(name: string)
    | ListPods(selector: Labels)
    | CreatePod(pod: Pod)
    | DeletePod(name: string)
    | ListRevisions(selector: Labels)
    | GetRevision(name: string)
    | CreateRevision(revision: Revision)
    | UpdateRevision(revision: Revision)
    | DeleteRevision(name: string)

  datatype Reply =
    | Done | NotFound | AlreadyExists | Conflict | Invalid | Unavailable
    | TheCr(cr: Cr) | TheSecret
    | TheConfigMaps(configMaps: ConfigMapTable) | ThePods(pods: PodTable) | TheRevisions(revisions: RevisionTable)
    | TheRevision(revision: Revision)

  /** A label selector matches objects that carry each of its pairs. */
  predicate Selects(selector: Labels, labels: Labels)
  {
    forall k :: k in selector ==> k in labels && labels[k] == selector[k]
  }

  function SelectConfigMaps(t: ConfigMapTable, selector: Labels): ConfigMapTable
  {
    map n | n in t && Selects(selector, t[n].labels) :: t[n]
  }

  function SelectPods(t: PodTable, selector: Labels): PodTable
  {
    map n | n in t && Selects(selector, t[n].labels) :: t[n]
  }

  function SelectRevisions(t: RevisionTable, selector: Labels): RevisionTable
  {
    map n | n in t && Selects(selector, t[n].labels) :: t[n]
  }

  /** A write to the resource itself is refused when the resource version is stale or when it
      adds a finalizer to a resource that is being deleted. */
  function WriteCrReply(stored: Option<Cr>, cr: Cr): Reply
  {
    if stored.None? then NotFound
    else if stored.value.resourceVersion != cr.resourceVersion then Conflict
    else if stored.value.deleting && !(cr.finalizers <= stored.value.finalizers) then Invalid
    else Done
  }

  function WriteStatusReply(stored: Option<Cr>, cr: Cr): Reply
  {
    if stored.None? then NotFound
    else if stored.value.resourceVersion != cr.resourceVersion then Conflict
    else Done
  }

  /** A write to the resource never touches the status, and completes a pending deletion when no
      finalizer is left; a write to the status subresource replaces the status and nothing else. */
  function ApplyToCr(stored: Option<Cr>, op: Op): Option<Cr>
  {
    match op
    case UpdateCr(cr) =>
      if !WriteCrReply(stored, cr).Done? then stored
      else if stored.value.deleting && cr.finalizers == {} then None
      else Some(Touched(stored.value).(finalizers := cr.finalizers, spec := cr.spec))
    case UpdateStatus(cr) =>
      if !WriteStatusReply(stored, cr).Done? then stored
      else Some(Touched(stored.value).(status := cr.status))
    case _ => stored
  }

  /** A new pod gets the defaulted resources, starts pending and is not terminating. */
  function Stored(pod: Pod): Pod
  {
    pod.(containers := Admit(pod.containers), phase := Pending, terminating := false)
  }

  function ApplyToConfigMaps(t: ConfigMapTable, op: Op): ConfigMapTable
  {
    match op
    case CreateConfigMap(cm) => if cm.name in t then t else t[cm.name := cm]
    case UpdateConfigMap(cm) => if cm.name in t then t[cm.name := cm] else t
    case DeleteConfigMap(name) => t - {name}
    case _ => t
  }

  function ApplyToPods(t: PodTable, op: Op): PodTable
  {
    match op
    case CreatePod(pod) => if pod.name in t then t else t[pod.name := Stored(pod)]
    case DeletePod(name) => Terminate(t, name)
    case _ => t
  }

  function ApplyToRevisions(t: RevisionTable, op: Op): RevisionTable
  {
    match op
    case CreateRevision(r) => if r.name in t then t else t[r.name := r]
    case UpdateRevision(r) => if r.name in t then t[r.name := r] else t
    case DeleteRevision(name) => t - {name}
    case _ => t
  }

  /** Creating what exists and changing or deleting what does not exist are refused. */
  function Answer(st: Store, op: Op): Reply
  {
    match op
    case GetCr => if st.cr.Some? then TheCr(st.cr.value) else NotFound
    case UpdateCr(cr) => WriteCrReply(st.cr, cr)
    case UpdateStatus(cr) => WriteStatusReply(st.cr, cr)
    case GetSecret => if st.secret then TheSecret else NotFound
    case ListConfigMaps(selector) => TheConfigMaps(SelectConfigMaps(st.configMaps, selector))
    case CreateConfigMap(cm) => if cm.name in st.configMaps then AlreadyExists else Done
    case UpdateConfigMap(cm) => if cm.name in st.configMaps then Done else NotFound
    case DeleteConfigMap(name) => if name in st.configMaps then Done else NotFound
    case ListPods(selector) => ThePods(SelectPods(st.pods, selector))
    case CreatePod(pod) => if pod.name in st.pods then AlreadyExists else Done
    case DeletePod(name) => if name in st.pods then Done else NotFound
    case ListRevisions(selector) => TheRevisions(SelectRevisions(st.revisions, selector))
    case GetRevision(name) => if name in st.revisions then TheRevision(st.revisions[name]) else NotFound
    case CreateRevision(r) => if r.name in st.revisions then AlreadyExists else Done
    case UpdateRevision(r) => if r.name in st.revisions then Done else NotFound
    case DeleteRevision(name) => if name in st.revisions then Done else NotFound
  }

  /** One operation, carried out in full: the new store and the answer. */
  function Apply(st: Store, op: Op): (Store, Reply)
  {
    (st.(cr := ApplyToCr(st.cr, op), configMaps := ApplyToConfigMaps(st.configMaps, op),
         pods := ApplyToPods(st.pods, op), revisions := ApplyToRevisions(st.revisions, op)),
     Answer(st, op))
  }

  /** A call is served, refused before it takes effect, or takes effect without its answer
      reaching the caller. */
  datatype Fate = Served | Refused | Unanswered

  datatype Turn = Turn(before: seq<Event>, fate: Fate)

  /** One line of the server's audit log.  `landed` says that a write took effect. */
  datatype Record = Record(op: Op, reply: Reply, landed: bool)

  /** The store, what is still to happen around the coming calls, and the calls made so far.
      Once the script is used up, calls are served and nothing happens in between. */
  datatype World = World(store: Store, script: seq<Turn>, audit: seq<Record>)

  function NextTurn(w: World): Turn
  {
    if w.script == [] then Turn([], Served) else w.script[0]
  }

  function Call(w: World, op: Op): (w': World)
    ensures |w'.audit| == |w.audit| + 1
  {
    var turn := NextTurn(w);
    var before := Happen(w.store, turn.before);
    var (after, answer) := Apply(before, op);
    var rest := if w.script == [] then [] else w.script[1..];
    if turn.fate.Refused? then World(before, rest, w.audit + [Record(op, Unavailable, false)])
    else World(after, rest, w.audit + [Record(op, if turn.fate.Served? then answer else Unavailable, answer.Done?)])
  }

  function LastRecord(w: World): Record
    requires w.audit != []
  {
    w.audit[|w.audit| - 1]
  }

  function ReplyTo(w: World, op: Op): Reply { LastRecord(Call(w, op)).reply }

  predicate Landed(w: World, op: Op) { LastRecord(Call(w, op)).landed }

  /** The client end of the server.  The environment's moves are in `script`. */
  class ApiServer {
    var store: Store
    var script: seq<Turn>
    var audit: seq<Record>

    function Now(): World
      reads this
    {
      World(store, script, audit)
    }

    constructor (store: Store, script: seq<Turn>)
      ensures Now() == World(store, script, [])
    {
      this.store, this.script, this.audit := store, script, [];
    }

    method Do(op: Op) returns (reply: Reply)
      modifies this
      ensures Now() == Call(old(Now()), op)
      ensures reply == ReplyTo(old(Now()), op)
    {
      var w := Call(Now(), op);
      store, script, audit := w.store, w.script, w.audit;
      reply := LastRecord(w).reply;
    }
  }

  // ---- A sequence of calls ----

  function Calls(w: World, ops: seq<Op>): World
    decreases |ops|
  {
    if ops == [] then w else Calls(Call(w, ops[0]), ops[1..])
  }

  lemma {:induction false} CallsCompose(w: World, a: seq<Op>, b: seq<Op>)
    ensures Calls(Calls(w, a), b) == Calls(w, a + b)
    decreases |a|
  {
    if a == [] {
      assert a + b == b;
    } else {
      CallsCompose(Call(w, a[0]), a[1..], b);
      assert (a + b)[1..] == a[1..] + b;
    }
  }

  /** The audit log lists exactly the operations called. */
  lemma {:induction false} CallsAudit(w: World, ops: seq<Op>)
    ensures |Calls(w, ops).audit| == |w.audit| + |ops|
    ensures w.audit <= Calls(w, ops).audit
    ensures forall i :: 0 <= i < |ops| ==> Calls(w, ops).audit[|w.audit| + i].op == ops[i]
    decreases |ops|
  {
    if ops != [] {
      CallsAudit(Call(w, ops[0]), ops[1..]);
    }
  }

  // ---- What events and calls leave alone ----

  predicate WritesCr(op: Op) { op.UpdateCr? || op.UpdateStatus? }

  predicate WritesConfigMaps(op: Op) { op.CreateConfigMap? || op.UpdateConfigMap? || op.DeleteConfigMap? }

  predicate WritesPods(op: Op) { op.CreatePod? || op.DeletePod? }

  predicate WritesRevisions(op: Op) { op.CreateRevision? || op.UpdateRevision? || op.DeleteRevision? }

  /** The later pod is the same object as the earlier one, further along its life. */
  predicate Ages(earlier: Pod, later: Pod)
  {
    && later == earlier.(phase := later.phase, terminating := later.terminating)
    && (earlier.terminating ==> later.terminating)
  }

  ghost predicate PodsAge(earlier: PodTable, later: PodTable)
  {
    forall n :: n in later ==> n in earlier && Ages(earlier[n], later[n])
  }

  /** By itself the environment never creates the resource, writes its status or finalizers, or
      makes it vanish while it holds a finalizer. */
  ghost predicate CrDrifts(earlier: Option<Cr>, later: Option<Cr>)
  {
    && (later.Some? ==>
      && earlier.Some?
      && later.value.status == earlier.value.status
      && later.value.finalizers == earlier.value.finalizers
      && earlier.value.resourceVersion <= later.value.resourceVersion
      && (earlier.value.resourceVersion == later.value.resourceVersion ==> later == earlier)
      && (earlier.value.deleting ==> later.value.deleting))
    && (earlier.Some? && earlier.value.finalizers != {} ==> later.Some?)
  }

  ghost predicate Drifts(earlier: Store, later: Store)
  {
    && later.secret == earlier.secret
    && later.configMaps == earlier.configMaps
    && later.revisions == earlier.revisions
    && PodsAge(earlier.pods, later.pods)
    && CrDrifts(earlier.cr, later.cr)
  }

  lemma OccurDrifts(st: Store, e: Event)
    ensures Drifts(st, Occur(st, e))
  {
    EventAges(st.pods, e);
    EventDriftsCr(st.cr, e);
    hide PodsAge, CrDrifts, OccurToCr, OccurToPods;
  }

  lemma EventAges(pods: PodTable, e: Event)
    ensures PodsAge(pods, OccurToPods(pods, e))
  {
  }

  lemma EventDriftsCr(cr: Option<Cr>, e: Event)
    ensures CrDrifts(cr, OccurToCr(cr, e))
  {
  }

  lemma {:induction false} EventsDrift(st: Store, events: seq<Event>)
    ensures Drifts(st, Happen(st, events))
    decreases |events|
  {
    if events != [] {
      var next := Occur(st, events[0]);
      OccurDrifts(st, events[0]);
      EventsDrift(next, events[1..]);
      PodsAgeOn(st.pods, next.pods, Happen(st, events).pods);
    }
  }

  lemma PodsAgeOn(a: PodTable, b: PodTable, c: PodTable)
    requires PodsAge(a, b) && PodsAge(b, c)
    ensures PodsAge(a, c)
  {
    forall n | n in c ensures n in a && Ages(a[n], c[n])
    {
      assert n in b && Ages(a[n], b[n]) && Ages(b[n], c[n]);
    }
  }

  /** One call: the environment drifts, and then the write lands or nothing changes. */
  lemma CallShape(w: World, op: Op) returns (before: Store)
    ensures before == Happen(w.store, NextTurn(w).before) && Drifts(w.store, before)
    ensures Landed(w, op) ==> Apply(before, op).1.Done? && Call(w, op).store == Apply(before, op).0
    ensures !Landed(w, op) ==> Call(w, op).store == before
    ensures ReplyTo(w, op) == Unavailable || ReplyTo(w, op) == Apply(before, op).1
    ensures ReplyTo(w, op).Done? ==> Landed(w, op)
    ensures ReplyTo(w, op) != Unavailable && Apply(before, op).1.Done? ==> Landed(w, op)
  {
    hide Apply, Happen, Drifts;
    before := Happen(w.store, NextTurn(w).before);
    EventsDrift(w.store, NextTurn(w).before);
    RefusalsChangeNothing(before, op);
  }

  /** An operation that is not answered with success leaves the store alone. */
  lemma RefusalsChangeNothing(st: Store, op: Op)
    ensures !Apply(st, op).1.Done? ==> Apply(st, op).0 == st
  {
    hide Stored, SelectConfigMaps, SelectPods, SelectRevisions, Touched;
    if !Answer(st, op).Done? {
      assert ApplyToCr(st.cr, op) == st.cr;
      assert ApplyToConfigMaps(st.configMaps, op) == st.configMaps;
      assert ApplyToPods(st.pods, op) == st.pods;
      assert ApplyToRevisions(st.revisions, op) == st.revisions;
    }
  }

  /** The same, table by table: each is left as the environment left it or gets the write. */
  lemma CallParts(w: World, op: Op) returns (before: Store)
    ensures before == Happen(w.store, NextTurn(w).before) && PodsAge(w.store.pods, before.pods)
    ensures var after := Call(w, op).store;
            && (after.revisions == w.store.revisions || after.revisions == ApplyToRevisions(w.store.revisions, op))
            && (after.configMaps == w.store.configMaps || after.configMaps == ApplyToConfigMaps(w.store.configMaps, op))
            && (after.pods == before.pods || after.pods == ApplyToPods(before.pods, op))
  {
    before := CallShape(w, op);
    hide Call, Landed, Happen, PodsAge, CrDrifts, ApplyToCr, ApplyToConfigMaps, ApplyToPods, ApplyToRevisions, Answer;
  }

  /** What a single operation can reach. */
  lemma ApplyReach(st: Store, op: Op)
    ensures !WritesCr(op) ==> Apply(st, op).0.cr == st.cr
    ensures !WritesConfigMaps(op) ==> Apply(st, op).0.configMaps == st.configMaps
    ensures !WritesRevisions(op) ==> Apply(st, op).0.revisions == st.revisions
    ensures !WritesPods(op) ==> Apply(st, op).0.pods == st.pods
    ensures Apply(st, op).0.cr.Some? ==> st.cr.Some?
  {
  }

  lemma CallDrifts(w: World, op: Op)
    ensures !WritesCr(op) ==> CrDrifts(w.store.cr, Call(w, op).store.cr)
    ensures !WritesConfigMaps(op) ==> Call(w, op).store.configMaps == w.store.configMaps
    ensures !WritesRevisions(op) ==> Call(w, op).store.revisions == w.store.revisions
    ensures !WritesPods(op) ==> PodsAge(w.store.pods, Call(w, op).store.pods)
  {
    var before := CallShape(w, op);
    ApplyReach(before, op);
    hide Apply, Call, Landed, Happen, WritesCr, WritesConfigMaps, WritesRevisions, WritesPods;
  }

  /** Over a sequence of calls, each part of the store only drifts unless one of the calls writes it. */
  lemma {:induction false} CallsDrift(w: World, ops: seq<Op>)
    ensures (forall op :: op in ops ==> !WritesCr(op)) ==> CrDrifts(w.store.cr, Calls(w, ops).store.cr)
    ensures (forall op :: op in ops ==> !WritesConfigMaps(op)) ==> Calls(w, ops).store.configMaps == w.store.configMaps
    ensures (forall op :: op in ops ==> !WritesRevisions(op)) ==> Calls(w, ops).store.revisions == w.store.revisions
    ensures (forall op :: op in ops ==> !WritesPods(op)) ==> PodsAge(w.store.pods, Calls(w, ops).store.pods)
    decreases |ops|
  {
    if ops != [] {
      var next := Call(w, ops[0]);
      CallDrifts(w, ops[0]);
      CallsDrift(next, ops[1..]);
      assert ops[0] in ops && forall op :: op in ops[1..] ==> op in ops;
      if forall op :: op in ops ==> !WritesPods(op) {
        PodsAgeOn(w.store.pods, next.store.pods, Calls(w, ops).store.pods);
      }
    }
  }
}
