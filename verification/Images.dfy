/** Which images the pods run: the restart test looks at resources alone. */
module Images {
  import opened Types
  import opened Restart
  import opened Api
  import opened Observer
  import opened Reconciler
  import opened Controller
  import opened Actions
  import opened Runs
  import opened Suspects
  import opened Invariants
  import opened History
  import opened Quiet
  import opened StatusMachine
  import opened Convergence
  import opened Stability
  import opened RunsConverge
  import Converter

  // ---- When the pods run their templates ----

  /** Every live pod of a desired name was stored from exactly its template. */
  ghost predicate RunTemplates(list: seq<Pod>, pods: PodTable)
  {
    forall n :: n in pods && !pods[n].terminating && n in PodTableOf(list) ==>
      pods[n].containers == Admit(PodTableOf(list)[n].containers)
  }

  /** So was every live pod of a desired name that an action pass with this gate would keep. */
  ghost predicate KeptRunTemplates(gate: bool, list: seq<Pod>, pods: PodTable)
  {
    forall n :: n in pods && !pods[n].terminating && n in PodTableOf(list) && !(gate && NeedToRestart(PodTableOf(list)[n], pods[n])) ==>
      pods[n].containers == Admit(PodTableOf(list)[n].containers)
  }

  lemma CondemnedByTable(s: Snapshot, list: seq<Pod>, n: string)
    requires PodsDistinct(list) && n in PodTableOf(list)
    ensures n in Condemned(s, list) <==> Gate(s) && n in s.pods && NeedToRestart(PodTableOf(list)[n], s.pods[n])
  {
    hide NeedToRestart;
    TablesComeFromLists([], list);
    if p :| p in list && p.name == n {
      PodTableHolds(list, p);
    }
  }

  /** What the closed form of a round says about one pod. */
  lemma SettledPodAt(pods: PodTable, s: Snapshot, list: seq<Pod>, n: string)
    requires s.pods == pods && n in PodTableOf(list)
    ensures n in SettledPods(pods, s, list)
    ensures n in pods && n in Condemned(s, list) ==> SettledPods(pods, s, list)[n] == pods[n].(terminating := true)
    ensures n in pods && n !in Condemned(s, list) ==> SettledPods(pods, s, list)[n] == pods[n]
    ensures n !in pods ==> SettledPods(pods, s, list)[n] == Stored(PodTableOf(list)[n])
  {
    PodTableKeys(list);
    assert n in PodNames(list);
    CreatedAt(s, list, n);
    hide Stored, Condemned, Created, PodNames, PodTableOf;
  }

  lemma CreatedAt(s: Snapshot, list: seq<Pod>, n: string)
    requires n in PodTableOf(list)
    ensures n in Created(s, list) <==> n !in s.pods
    ensures n !in s.pods ==> Created(s, list)[n] == Stored(PodTableOf(list)[n])
  {
    hide Stored;
  }

  lemma RunsAt(pods: PodTable, s: Snapshot, list: seq<Pod>, n: string)
    requires s.pods == pods && PodsDistinct(list) && n in PodTableOf(list)
    ensures n in SettledPods(pods, s, list)
    ensures n !in pods ==> SettledPods(pods, s, list)[n].containers == Admit(PodTableOf(list)[n].containers)
    ensures n in pods ==> SettledPods(pods, s, list)[n].containers == pods[n].containers
    ensures n in pods ==> (SettledPods(pods, s, list)[n].terminating
              <==> pods[n].terminating || (Gate(s) && NeedToRestart(PodTableOf(list)[n], pods[n])))
  {
    SettledPodAt(pods, s, list, n);
    CondemnedByTable(s, list, n);
    hide SettledPods, Condemned, NeedToRestart;
  }

  lemma SettledRunTemplates(pods: PodTable, s: Snapshot, list: seq<Pod>)
    requires s.pods == pods && PodsDistinct(list)
    ensures RunTemplates(list, SettledPods(pods, s, list)) <==> KeptRunTemplates(Gate(s), list, pods)
  {
    hide SettledPods, Condemned, NeedToRestart, Gate, Admit, PodTableOf, PodsDistinct;
    var after := SettledPods(pods, s, list);
    forall n | n in PodTableOf(list)
      ensures n in after
      ensures n !in pods ==> after[n].containers == Admit(PodTableOf(list)[n].containers)
      ensures n in pods ==> after[n].containers == pods[n].containers
      ensures n in pods ==> (after[n].terminating <==> pods[n].terminating || (Gate(s) && NeedToRestart(PodTableOf(list)[n], pods[n])))
    {
      RunsAt(pods, s, list, n);
    }
  }

  /** An advance is truthful about containers, images included, exactly when the guard of the
      restart lets it be: after an undisturbed pass that acts, every live pod of a desired name was
      stored from exactly its template if and only if that was so before of each such pod that is
      not restarted, because the gate is closed or its resources agree. */
  lemma TemplatesRunExactlyWhen(cx: Context, specs: set<Spec>, pt: Point, c: Choices)
    requires Admissible(cx, specs) && Sound(cx, specs, pt) && StepAllowed(cx, specs, pt, Passes([], c))
    requires pt.store.cr.Some? && Active(pt.store.cr.value) && PassFrom(cx, pt.store, [], c).report.Acted?
    ensures var spec, after := pt.store.cr.value.spec, PassFrom(cx, pt.store, [], c).world.store;
            && Current(after) == RevisionName(cx, spec)
            && RunTemplates(Converter.DesiredPods(spec), after.pods)
                 == KeptRunTemplates(Open(cx, pt.store), Converter.DesiredPods(spec), pt.store.pods)
  {
    hide Pass, RevisionName, Sound, StepAllowed, AtHome, SettledConfigMaps, SettledPods, RunTemplates, KeptRunTemplates, Admissible,
         SelectConfigMaps, SelectPods, SelectRevisions, Gate, PodsDistinct;
    var s := SnapshotOf(cx, pt.store);
    QuietAct(cx, specs, pt, c);
    OpenIsGate(cx, pt.store);
    AdmissibleSpec(cx, specs, pt.store.cr.value.spec);
    SettledRunTemplates(pt.store.pods, s, Converter.DesiredPods(pt.store.cr.value.spec));
  }

  // ---- Which pods an action pass restarts ----

  /** After an undisturbed pass that acts, a pod of a desired name that was stored before is
      terminating exactly if it was before, or the gate was open and its needs differ from its
      template's.  So behind an open gate every live pod of a desired name has its template's
      needs, unless it is fresh, and then it was stored from exactly its template. */
  lemma RestartsExactlyWhen(cx: Context, specs: set<Spec>, pt: Point, c: Choices)
    requires Admissible(cx, specs) && Sound(cx, specs, pt) && StepAllowed(cx, specs, pt, Passes([], c))
    requires pt.store.cr.Some? && Active(pt.store.cr.value) && PassFrom(cx, pt.store, [], c).report.Acted?
    ensures var templates := PodTableOf(Converter.DesiredPods(pt.store.cr.value.spec));
            var before, after := pt.store.pods, PassFrom(cx, pt.store, [], c).world.store.pods;
            && (forall n :: n in templates && n in before ==>
                  && n in after
                  && (after[n].terminating <==>
                        before[n].terminating || (Open(cx, pt.store) && !SameNeeds(templates[n].containers, before[n].containers))))
            && (forall n :: n in templates && n in after && !after[n].terminating && Open(cx, pt.store) ==>
                  if n in before then SameNeeds(templates[n].containers, after[n].containers)
                  else after[n].containers == Admit(templates[n].containers))
  {
    hide Pass, RevisionName, Sound, StepAllowed, AtHome, SettledConfigMaps, SettledPods, Admissible,
         SelectConfigMaps, SelectPods, SelectRevisions, Gate, PodsDistinct, SameNeeds, NeedToRestart, Admit, PodTableOf, Open;
    var s, spec := SnapshotOf(cx, pt.store), pt.store.cr.value.spec;
    var list := Converter.DesiredPods(spec);
    QuietAct(cx, specs, pt, c);
    OpenIsGate(cx, pt.store);
    AdmissibleSpec(cx, specs, spec);
    var before, after := pt.store.pods, PassFrom(cx, pt.store, [], c).world.store.pods;
    forall n | n in PodTableOf(list)
      ensures n in after
      ensures n !in before ==> after[n].containers == Admit(PodTableOf(list)[n].containers)
      ensures n in before ==> after[n].containers == before[n].containers
      ensures n in before ==> (after[n].terminating <==>
                before[n].terminating || (Open(cx, pt.store) && !SameNeeds(PodTableOf(list)[n].containers, before[n].containers)))
    {
      RunsAt(before, s, list, n);
      if n in before { RestartTestMeaning(PodTableOf(list)[n], before[n]); }
    }
  }

  /** What a landed advance leaves, under any interference: every live pod is desired and has its
      template's labels and volume, and its needs or exactly its stored form. */
  lemma AppliedMeaning(spec: Spec, st: Store, n: string)
    requires FullyApplied(spec, st) && n in st.pods && !st.pods[n].terminating
    ensures var templates := PodTableOf(Converter.DesiredPods(spec));
            && n in templates
            && st.pods[n].labels == templates[n].labels && st.pods[n].configVolume == templates[n].configVolume
            && (SameNeeds(templates[n].containers, st.pods[n].containers) || st.pods[n].containers == Admit(templates[n].containers))
  {
    hide NeedToRestart, SameNeeds, Admit;
    var template := PodTableOf(Converter.DesiredPods(spec))[n];
    RestartTestMeaning(template, st.pods[n]);
  }

  // ---- An edit of images alone ----

  function WithoutImages(e: StatefulEntity): StatefulEntity { e.(executorImage := "", ioImage := "", stateImage := "") }

  /** The two specs differ in container images at most. */
  ghost predicate ImagesApart(a: Spec, b: Spec)
  {
    |a.entities| == |b.entities| && forall i :: 0 <= i < |a.entities| ==> WithoutImages(a.entities[i]) == WithoutImages(b.entities[i])
  }

  /** The same pod for every purpose but its images. */
  ghost predicate SamePod(p: Pod, q: Pod)
  {
    && p.name == q.name && p.labels == q.labels && p.configVolume == q.configVolume
    && ByContainer(p.containers) == ByContainer(q.containers)
  }

  lemma SamePodOf(a: StatefulEntity, b: StatefulEntity, pc: PodConfig)
    requires WithoutImages(a) == WithoutImages(b)
    ensures SamePod(Converter.DesiredPod(a, pc), Converter.DesiredPod(b, pc))
  {
    ImagesIgnored(Converter.DesiredPod(a, pc).containers, Converter.DesiredPod(b, pc).containers);
    assert WithoutImages(a).name == a.name && WithoutImages(b).name == b.name;
  }

  lemma {:induction false} SamePodLists(a: seq<StatefulEntity>, b: seq<StatefulEntity>)
    requires |a| == |b| && forall i :: 0 <= i < |a| ==> WithoutImages(a[i]) == WithoutImages(b[i])
    ensures |Converter.PodsOfAll(a)| == |Converter.PodsOfAll(b)|
    ensures forall k :: 0 <= k < |Converter.PodsOfAll(a)| ==> SamePod(Converter.PodsOfAll(a)[k], Converter.PodsOfAll(b)[k])
    decreases |a|
  {
    if a != [] {
      var last := |a| - 1;
      SamePodLists(a[..last], b[..last]);
      assert WithoutImages(a[last]).pods == a[last].pods && WithoutImages(b[last]).pods == b[last].pods;
      hide SamePod;
      forall j | 0 <= j < |a[last].pods|
        ensures SamePod(Converter.PodsOf(a[last], a[last].pods)[j], Converter.PodsOf(b[last], b[last].pods)[j])
      {
        SamePodOf(a[last], b[last], a[last].pods[j]);
      }
    }
  }

  lemma SamePodSameTest(p: Pod, q: Pod, pod: Pod)
    requires SamePod(p, q)
    ensures NeedToRestart(p, pod) == NeedToRestart(q, pod)
  {
  }

  lemma SameNames(before: seq<Pod>, after: seq<Pod>)
    requires |before| == |after| && forall k :: 0 <= k < |before| ==> before[k].name == after[k].name
    ensures PodNames(before) == PodNames(after)
  {
    forall n | n in PodNames(before) ensures n in PodNames(after) {
      var k :| 0 <= k < |before| && before[k].name == n;
      assert after[k].name == n;
    }
    forall n | n in PodNames(after) ensures n in PodNames(before) {
      var k :| 0 <= k < |after| && after[k].name == n;
      assert before[k].name == n;
    }
  }

  lemma PassesTest(spec: Spec, st: Store, p: Pod, q: Pod)
    requires Converged(spec, st) && Converter.WellFormed(spec) && p in Converter.DesiredPods(spec)
    requires AllCovered(p) && SamePod(p, q)
    ensures q.name in st.pods && !NeedToRestart(q, st.pods[q.name])
  {
    hide NeedToRestart, Fits, AllCovered, Converter.DesiredPods, Converter.WellFormed;
    DesiredListsDistinct(spec);
    PodTableHolds(Converter.DesiredPods(spec), p);
    assert p.name in st.pods;
    SamePodSameTest(p, q, st.pods[p.name]);
    FitsWhenCovered(p, st.pods[p.name]);
  }

  lemma NoneCondemned(s: Snapshot, list: seq<Pod>)
    requires forall p :: p in list ==> !(p.name in s.pods && NeedToRestart(p, s.pods[p.name]))
    ensures Condemned(s, list) == {}
  {
    hide NeedToRestart;
  }

  lemma SamePodsSameNames(before: seq<Pod>, after: seq<Pod>)
    requires |before| == |after| && forall k :: 0 <= k < |before| ==> SamePod(before[k], after[k])
    ensures PodNames(before) == PodNames(after)
  {
    hide ByContainer;
    SameNames(before, after);
  }

  /** No pod of a converged namespace is condemned after an edit of images. */
  lemma NothingCondemned(spec: Spec, edited: Spec, s: Snapshot, st: Store)
    requires Converged(spec, st) && s.pods == st.pods && ImagesApart(spec, edited) && Converter.WellFormed(spec)
    requires forall p :: p in Converter.DesiredPods(spec) ==> AllCovered(p)
    ensures Condemned(s, Converter.DesiredPods(edited)) == {}
    ensures PodNames(Converter.DesiredPods(edited)) == st.pods.Keys
  {
    hide Converter.WellFormed, NeedToRestart, AllCovered, Converged, PodNames, Condemned, SamePod;
    var before, after := Converter.DesiredPods(spec), Converter.DesiredPods(edited);
    SamePodLists(spec.entities, edited.entities);
    hide Converter.DesiredPods, ImagesApart;
    SamePodsSameNames(before, after);
    ConvergedParts(spec, st);
    forall q | q in after
      ensures !(q.name in s.pods && NeedToRestart(q, s.pods[q.name]))
    {
      var k :| 0 <= k < |after| && after[k] == q;
      assert before[k] in before;
      PassesTest(spec, st, before[k], q);
    }
    NoneCondemned(s, after);
  }

  lemma SettledUnmoved(pods: PodTable, s: Snapshot, list: seq<Pod>)
    requires s.pods == pods && Condemned(s, list) == {} && PodNames(list) == pods.Keys
    ensures SettledPods(pods, s, list) == pods
  {
    NothingCreated(s, list);
    hide Condemned, Created, PodNames;
    assert TerminateAll(pods, {}) == pods;
    assert s.pods.Keys - PodNames(list) == {};
  }

  lemma NothingCreated(s: Snapshot, list: seq<Pod>)
    requires PodNames(list) == s.pods.Keys
    ensures Created(s, list) == map[]
  {
    PodTableKeys(list);
    hide PodNames, Stored;
  }

  /** The restart test looks at resources alone: in a converged namespace, an edit that changes
      nothing but images is declared current by the next undisturbed acting pass, while every pod
      goes on running the images of the spec before. */
  lemma ImageEditRestartsNothing(cx: Context, specs: set<Spec>, pt: Point, spec: Spec, c: Choices)
    requires Admissible(cx, specs) && Sound(cx, specs, pt) && StepAllowed(cx, specs, pt, Passes([], c))
    requires pt.store.cr.Some? && Active(pt.store.cr.value) && PassFrom(cx, pt.store, [], c).report.Acted?
    requires spec in specs && Converged(spec, pt.store) && ImagesApart(spec, pt.store.cr.value.spec)
    requires forall p :: p in Converter.DesiredPods(spec) ==> AllCovered(p)
    ensures var st' := PassFrom(cx, pt.store, [], c).world.store;
            && st'.pods == pt.store.pods
            && Current(st') == RevisionName(cx, pt.store.cr.value.spec)
  {
    hide Pass, RevisionName, Sound, StepAllowed, AtHome, SettledConfigMaps, SettledPods, Converged, AllCovered, ImagesApart, Possible,
         SelectConfigMaps, SelectPods, SelectRevisions, Faithful, SameHomes, Converter.WellFormed, Condemned;
    var s := SnapshotOf(cx, pt.store);
    QuietAct(cx, specs, pt, c);
    assert Converter.WellFormed(spec);
    NothingCondemned(spec, pt.store.cr.value.spec, s, pt.store);
    SettledUnmoved(pt.store.pods, s, Converter.DesiredPods(pt.store.cr.value.spec));
  }

  // ---- A run that ends with old images ----

  /** In a namespace without pods, the first action pass runs every pod from its template. */
  lemma FirstPods(cx: Context, specs: set<Spec>, pt: Point, c: Choices)
    requires Admissible(cx, specs) && Sound(cx, specs, pt) && StepAllowed(cx, specs, pt, Passes([], c))
    requires Ready(pt.store) && PassFrom(cx, pt.store, [], c).report.Acted? && pt.store.pods == map[] && Open(cx, pt.store)
    ensures var spec, after := pt.store.cr.value.spec, PassFrom(cx, pt.store, [], c).world.store;
            && Converged(spec, after) && RunTemplates(Converter.DesiredPods(spec), after.pods)
  {
    hide Pass, RevisionName, Sound, StepAllowed, AtHome, SettledConfigMaps, SettledPods, RunTemplates, KeptRunTemplates, Admissible,
         SelectConfigMaps, SelectPods, SelectRevisions, KnownState, Active, Settled, Gate, FullyApplied;
    var s, spec := SnapshotOf(cx, pt.store), pt.store.cr.value.spec;
    ReadyParts(pt.store);
    QuietAct(cx, specs, pt, c);
    OpenIsGate(cx, pt.store);
    ActionSettles(cx, specs, pt, c);
    SettledIsApplied(cx, specs, spec, PassFrom(cx, pt.store, [], c).world.store);
    TemplatesRunExactlyWhen(cx, specs, pt, c);
    NoPodsKept(Open(cx, pt.store), Converter.DesiredPods(spec));
    AllFresh(s, Converter.DesiredPods(spec));
    AppliedAndPresent(spec, PassFrom(cx, pt.store, [], c).world.store);
  }

  lemma ReadyParts(st: Store)
    requires Ready(st)
    ensures st.cr.Some? && Active(st.cr.value) && KnownState(st.cr.value.status.state)
  {
    hide KnownState, Active;
  }

  lemma NoPodsKept(gate: bool, list: seq<Pod>)
    ensures KeptRunTemplates(gate, list, map[])
  {
  }

  lemma AllFresh(s: Snapshot, list: seq<Pod>)
    requires s.pods == map[]
    ensures SettledPods(map[], s, list).Keys == PodNames(list) && NoneTerminating(SettledPods(map[], s, list))
  {
    PodTableKeys(list);
    CondemnedObserved(s, list);
    hide Condemned;
  }

  /** Undisturbed passes up to one that acts: a run over which only the status moves. */
  lemma UntilItActs(cx: Context, specs: set<Spec>, pt: Point) returns (steps: seq<Step>, c: Choices)
    requires Ready(pt.store) && Admissible(cx, specs) && Sound(cx, specs, pt)
    ensures RunAllowed(cx, specs, pt, steps)
    ensures var mid := Run(cx, pt, steps);
            && Ready(mid.store) && OnlyStatusMoved(pt.store, mid.store) && Sound(cx, specs, mid)
            && PassFrom(cx, mid.store, [], c).report.Acted? && StepAllowed(cx, specs, mid, Passes([], c))
  {
    hide Pass, Ready, Admissible, Sound, RunAllowed, Run, QuietRun, QuietlyPossible, OnlyStatusMoved, StepAllowed, StepPossible;
    var cs := ChoicesExist(cx, pt.store, 3);
    var k := FirstAction(cx, pt.store, cs);
    QuietRunSplits(cx, pt.store, cs, k);
    PrefixPossible(cx, pt.store, cs, k);
    steps, c := QuietSteps(cs[..k]), cs[k];
    QuietIsRun(cx, specs, pt, cs[..k]);
    RunKeepsSound(cx, specs, pt, steps);
    HeadPossible(cx, Run(cx, pt, steps).store, cs[k..]);
    assert cs[k..][0] == c;
    PossibleIsAllowed(cx, specs, Run(cx, pt, steps), c);
  }

  lemma MovedParts(cx: Context, a: Store, b: Store)
    requires OnlyStatusMoved(a, b)
    ensures b.pods == a.pods && b.configMaps == a.configMaps && b.cr.Some? && a.cr.Some?
    ensures b.cr.value.spec == a.cr.value.spec && (Open(cx, b) <==> Open(cx, a))
  {
    hide RevisionName;
  }

  /** From an empty namespace to the first action pass and through it. */
  lemma FirstImages(cx: Context, specs: set<Spec>, spec: Spec) returns (steps: seq<Step>)
    requires Admissible(cx, specs) && spec in specs
    ensures var start := Empty(spec, {FINALIZER}, false);
            var end := Run(cx, start, steps);
            && RunAllowed(cx, specs, start, steps) && Sound(cx, specs, end) && Ready(end.store)
            && end.store.cr.value.spec == spec && Converged(spec, end.store)
            && RunTemplates(Converter.DesiredPods(spec), end.store.pods)
  {
    hide Pass, Admissible, Sound, RunAllowed, Run, StepAllowed, Converged, RunTemplates, RevisionName, Open, OnlyStatusMoved, KnownState,
         Active, CalmScript;
    var start := Empty(spec, {FINALIZER}, false);
    EmptyIsReady(cx, spec);
    EmptyIsSound(cx, specs, spec, {FINALIZER}, false);
    var before, c := UntilItActs(cx, specs, start);
    var mid := Run(cx, start, before);
    MovedParts(cx, start.store, mid.store);
    FirstPods(cx, specs, mid, c);
    StepKeepsSound(cx, specs, mid, Passes([], c));
    EmptyScriptIsCalm();
    CalmPass(cx, mid.store, [], c);
    SameOrderSpec(mid.store.cr, PassFrom(cx, mid.store, [], c).world.store.cr);
    PassStates(cx, mid.store, [], c);
    Extend(cx, specs, start, before, Passes([], c));
    steps := before + [Passes([], c)];
  }

  lemma EmptyIsReady(cx: Context, spec: Spec)
    ensures Ready(Empty(spec, {FINALIZER}, false).store) && Open(cx, Empty(spec, {FINALIZER}, false).store)
  {
    hide RevisionName;
  }

  /** For all specs of a run that differ in images at most there is a run, with no failure at all,
      from an empty namespace, after which the edited spec's revision is current and exactly its
      pods are live, each of them still stored from the template of the spec before. */
  lemma OldImagesRun(cx: Context, specs: set<Spec>, spec: Spec, edited: Spec) returns (steps: seq<Step>)
    requires Admissible(cx, specs) && spec in specs && edited in specs && ImagesApart(spec, edited)
    requires forall p :: p in Converter.DesiredPods(spec) ==> AllCovered(p)
    ensures var start := Empty(spec, {FINALIZER}, false);
            var end := Run(cx, start, steps).store;
            && RunAllowed(cx, specs, start, steps)
            && end.cr.Some? && end.cr.value.spec == edited && Current(end) == RevisionName(cx, edited)
            && end.pods.Keys == PodNames(Converter.DesiredPods(edited)) == PodNames(Converter.DesiredPods(spec))
            && NoneTerminating(end.pods) && RunTemplates(Converter.DesiredPods(spec), end.pods)
  {
    hide Pass, Admissible, Sound, RunAllowed, Run, StepAllowed, Converged, RunTemplates, RevisionName, OnlyStatusMoved, KnownState,
         Open, AllCovered, ImagesApart, NoneTerminating, PodNames, Active;
    var start := Empty(spec, {FINALIZER}, false);
    var before := FirstImages(cx, specs, spec);
    var first := Run(cx, start, before);
    var edit := Happens(EditSpec(edited));
    var pt := After(cx, first, edit);
    EditIsReady(cx, specs, first, edited);
    StepKeepsSound(cx, specs, first, edit);
    Extend(cx, specs, start, before, edit);
    var more, c := UntilItActs(cx, specs, pt);
    RunCompose(cx, specs, start, before + [edit], more);
    var mid := Run(cx, pt, more);
    MovedParts(cx, pt.store, mid.store);
    ReadyParts(mid.store);
    SameConverged(spec, first.store, mid.store);
    ImageEditRestartsNothing(cx, specs, mid, spec, c);
    EmptyScriptIsCalm();
    CalmPass(cx, mid.store, [], c);
    SameOrderSpec(mid.store.cr, PassFrom(cx, mid.store, [], c).world.store.cr);
    ConvergedParts(spec, first.store);
    SpecNames(spec, edited);
    Extend(cx, specs, start, before + [edit] + more, Passes([], c));
    steps := before + [edit] + more + [Passes([], c)];
  }

  lemma EditIsReady(cx: Context, specs: set<Spec>, pt: Point, edited: Spec)
    requires Ready(pt.store) && edited in specs
    ensures var after := After(cx, pt, Happens(EditSpec(edited))).store;
            && StepAllowed(cx, specs, pt, Happens(EditSpec(edited)))
            && Ready(after) && after.cr.value.spec == edited && after.pods == pt.store.pods && after.configMaps == pt.store.configMaps
  {
    hide KnownState;
  }

  lemma SameConverged(spec: Spec, a: Store, b: Store)
    requires Converged(spec, a) && b.pods == a.pods && b.configMaps == a.configMaps
    ensures Converged(spec, b)
  {
    SameChildrenApplied(spec, a, b);
    hide FullyApplied;
  }

  lemma SpecNames(spec: Spec, edited: Spec)
    requires ImagesApart(spec, edited)
    ensures PodNames(Converter.DesiredPods(edited)) == PodNames(Converter.DesiredPods(spec))
  {
    SamePodLists(spec.entities, edited.entities);
    hide SamePod;
    SamePodsSameNames(Converter.DesiredPods(spec), Converter.DesiredPods(edited));
  }

  // ---- One pod, one image ----

  const ONE_POD := StatefulEntity("worker", "executor:1", "io:1", "state:1", "broker", "orders", "results",
                                  [PodConfig("worker-0", ["0"], Resources(None, None))])
  const IMAGE_ONE := Spec("v1", "", [ONE_POD], 1)
  const IMAGE_TWO := Spec("v1", "", [ONE_POD.(executorImage := "executor:2")], 1)

  lemma OnePod(spec: Spec)
    requires spec == IMAGE_ONE || spec == IMAGE_TWO
    ensures Converter.DesiredPods(spec) == [Converter.DesiredPod(spec.entities[0], spec.entities[0].pods[0])]
    ensures Converter.WellFormed(spec)
    ensures forall p :: p in Converter.DesiredPods(spec) ==> AllCovered(p)
  {
    var e := spec.entities[0];
    assert spec.entities[..|spec.entities| - 1] == [];
    assert Converter.PodsOf(e, e.pods) == [Converter.DesiredPod(e, e.pods[0])];
    assert Converter.DesiredPods(spec) == Converter.PodsOfAll([]) + Converter.PodsOf(e, e.pods);
    OneTemplateCovered(Converter.DesiredPod(e, e.pods[0]));
  }

  lemma OneTemplateCovered(p: Pod)
    requires forall k :: 0 <= k < |p.containers| ==> p.containers[k].resources == Resources(None, None)
    ensures AllCovered(p)
  {
    LastWins(p.containers);
    forall n | n in ByContainer(p.containers) ensures Covered(ByContainer(p.containers)[n]) {
      var i := SomeLast(p.containers, n);
    }
  }

  lemma OnePodAdmissible(cx: Context)
    requires Faithful(cx, {IMAGE_ONE, IMAGE_TWO})
    ensures Admissible(cx, {IMAGE_ONE, IMAGE_TWO}) && ImagesApart(IMAGE_ONE, IMAGE_TWO)
  {
    OnePod(IMAGE_ONE);
    OnePod(IMAGE_TWO);
    assert WithoutImages(IMAGE_ONE.entities[0]) == WithoutImages(IMAGE_TWO.entities[0]);
    hide Converter.DesiredPods, Converter.WellFormed, RevisionName, EntityOf;
    forall s, p | s in {IMAGE_ONE, IMAGE_TWO} && p in Converter.DesiredPods(s) ensures EntityOf(p) == "worker" {
      OneHome(s, p);
    }
  }

  lemma OneHome(spec: Spec, p: Pod)
    requires spec == IMAGE_ONE || spec == IMAGE_TWO
    requires p in Converter.DesiredPods(spec)
    ensures EntityOf(p) == "worker"
  {
    OnePod(spec);
  }

  /** The first container of the pod, the executor, runs this image. */
  predicate ExecutorIs(p: Pod, image: string) { p.containers != [] && p.containers[0].image == image }

  lemma TemplateOfOne(pods: PodTable)
    requires pods.Keys == PodNames(Converter.DesiredPods(IMAGE_ONE)) && NoneTerminating(pods)
    requires RunTemplates(Converter.DesiredPods(IMAGE_ONE), pods)
    ensures pods.Keys == {"worker-0"} && !pods["worker-0"].terminating && ExecutorIs(pods["worker-0"], "executor:1")
  {
    OnePod(IMAGE_ONE);
    var p := Converter.DesiredPods(IMAGE_ONE)[0];
    assert p.name == "worker-0" && ExecutorIs(p, "executor:1");
    PodTableHolds(Converter.DesiredPods(IMAGE_ONE), p);
    assert PodNames(Converter.DesiredPods(IMAGE_ONE)) == {"worker-0"};
    assert "worker-0" in pods;
    assert pods["worker-0"].containers == Admit(p.containers);
  }

  /** A run without a single failure ends with the revision of the spec that asks for executor:2
      current, its one pod live, and that pod running executor:1. */
  lemma OldImageRuns(cx: Context) returns (steps: seq<Step>)
    requires Faithful(cx, {IMAGE_ONE, IMAGE_TWO})
    ensures var start := Empty(IMAGE_ONE, {FINALIZER}, false);
            var end := Run(cx, start, steps).store;
            && RunAllowed(cx, {IMAGE_ONE, IMAGE_TWO}, start, steps)
            && end.cr.Some? && end.cr.value.spec == IMAGE_TWO && Current(end) == RevisionName(cx, IMAGE_TWO)
            && (forall p :: p in Converter.DesiredPods(IMAGE_TWO) ==> ExecutorIs(p, "executor:2"))
            && end.pods.Keys == {"worker-0"} && !end.pods["worker-0"].terminating && ExecutorIs(end.pods["worker-0"], "executor:1")
  {
    hide RevisionName, Admissible, RunAllowed, Run, Faithful, ImagesApart;
    OnePodAdmissible(cx);
    OnePod(IMAGE_ONE);
    OnePod(IMAGE_TWO);
    steps := OldImagesRun(cx, {IMAGE_ONE, IMAGE_TWO}, IMAGE_ONE, IMAGE_TWO);
    TemplateOfOne(Run(cx, Empty(IMAGE_ONE, {FINALIZER}, false), steps).store.pods);
  }
}
