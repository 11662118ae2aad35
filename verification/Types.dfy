/** The values the operator reads and writes: the custom resource, its spec and status,
    and the child objects it manages in its namespace. */
module Types {

  datatype Option<+T> = None | Some(value: T)

  type Labels = map<string, string>

  /** A container's resource requirements.  An absent map (Go's nil) and an empty map are
      different values, because the restart test compares them with reflect.DeepEqual. */
  datatype Resources = Resources(limits: Option<map<string, string>>, requests: Option<map<string, string>>)

  datatype Container = Container(name: string, image: string, resources: Resources)

  datatype Phase = Pending | Running | Succeeded | Failed | Unknown

  /** `terminating` is set once the pod has a deletion timestamp; the object stays listed
      until the kubelet has stopped it. */
  datatype Pod = Pod(name: string, labels: Labels, containers: seq<Container>, configVolume: string,
                     phase: Phase, terminating: bool)

  datatype ConfigMap = ConfigMap(name: string, labels: Labels, data: map<string, string>)

  datatype Revision = Revision(name: string, labels: Labels, data: string, number: int)

  datatype PodConfig = PodConfig(name: string, partitions: seq<string>, resources: Resources)

  datatype StatefulEntity = StatefulEntity(name: string, executorImage: string, ioImage: string, stateImage: string,
                                           ioAddress: string, inputTopic: string, outputTopic: string,
                                           pods: seq<PodConfig>)

  datatype Spec = Spec(version: string, imagePullPolicy: string, entities: seq<StatefulEntity>, historyLimit: nat)

  datatype Components = Components(configMap: string, statefulEntities: string, secret: string)

  datatype Status = Status(conditions: seq<string>, components: Components, state: string,
                           currentRevision: string, nextRevision: string)

  datatype Cr = Cr(finalizers: set<string>, deleting: bool, resourceVersion: nat, spec: Spec, status: Status)

  const COMPONENT_NOT_READY := "NotReady"
  const COMPONENT_READY := "Ready"
  const COMPONENT_DELETED := "Deleted"

  const STATE_CREATING := "Creating"
  const STATE_RUNNING := "Running"
  const STATE_UPDATING := "Updating"
  const STATE_RECONCILING := "Reconciling"
  const STATE_STOPPING := "Stopping"
  const STATE_STOPPED := "Stopped"

  const FINALIZER := "invokeroperator.invoker.io/finalizer"
  const TYPE_AVAILABLE := "Available"

  const EMPTY_STATUS := Status([], Components("", "", ""), "", "", "")

  // Objects of one kind, keyed by name as the API server keys them.
  type ConfigMapTable = m: map<string, ConfigMap> | forall n :: n in m ==> m[n].name == n
  type PodTable = m: map<string, Pod> | forall n :: n in m ==> m[n].name == n
  type RevisionTable = m: map<string, Revision> | forall n :: n in m ==> m[n].name == n

  /** The name of the reconciled resource, the JSON encoding of specs and the shortened
      SHA-256 digest.  None of the three functions is modelled further. */
  datatype Context = Context(name: string, marshal: Spec -> string, unmarshal: string -> Option<Spec>,
                             digest: string -> string)

  function RevisionName(cx: Context, spec: Spec): (name: string)
    ensures name != ""
  {
    cx.name + "-rev-" + cx.digest(cx.marshal(spec))
  }

  /** Over the specs of a run, decoding undoes encoding and revision names do not collide. */
  ghost predicate Faithful(cx: Context, specs: set<Spec>)
  {
    && (forall s :: s in specs ==> cx.unmarshal(cx.marshal(s)) == Some(s))
    && (forall s, t :: s in specs && t in specs && RevisionName(cx, s) == RevisionName(cx, t) ==> s == t)
  }

  /** `order` lists every element of `s` exactly once: one possible order of a Go map range. */
  ghost predicate Enumerates<T(!new)>(order: seq<T>, s: set<T>)
  {
    && (forall x :: x in order <==> x in s)
    && (forall i, j :: 0 <= i < j < |order| ==> order[i] != order[j])
  }

  lemma EnumeratesBoth<T(!new)>(a: seq<T>, s: set<T>, b: seq<T>, t: set<T>)
    requires Enumerates(a, s) && Enumerates(b, t) && s !! t
    ensures Enumerates(a + b, s + t)
  {
    forall i, j | 0 <= i < j < |a + b| ensures (a + b)[i] != (a + b)[j] {
      if i < |a| <= j {
        assert a[i] in s && b[j - |a|] in t;
      }
    }
  }

  ghost function Arrange<T(!new)>(s: set<T>): (order: seq<T>)
    ensures Enumerates(order, s)
  {
    if s == {} then [] else
      var x :| x in s;
      [x] + Arrange(s - {x})
  }

  /** The order in which a `range` over a map visits its keys: any order will do. */
  method RangeOver<T(==,!new)>(s: set<T>) returns (order: seq<T>)
    ensures Enumerates(order, s)
  {
    order := [];
    var rest := s;
    while rest != {}
      invariant rest <= s && Enumerates(order, s - rest)
      decreases |rest|
    {
      var x :| x in rest;
      order, rest := order + [x], rest - {x};
    }
  }

}
