/** Pruning the revision history: what is deleted, what survives, and what a stale listing costs. */
module Pruning {
  import opened Types
  import opened Api
  import opened Observer
  import opened Updater
  import opened Reconciler
  import opened Controller
  import opened Protocol
  import opened Actions
  import opened Runs
  import opened Quiet
  import opened Convergence
  import opened Invariants
  import opened History
  import Converter

  function RevisionNames(list: seq<Revision>): set<string> { set r | r in list :: r.name }

  ghost predicate RevisionsDistinct(list: seq<Revision>)
  {
    forall i, j :: 0 <= i < j < |list| ==> list[i].name != list[j].name
  }

  lemma DeleteLands(w: World, n: string)
    ensures Call(w, DeleteRevision(n)).store.revisions == w.store.revisions
         || Call(w, DeleteRevision(n)).store.revisions == w.store.revisions - {n}
    ensures ReplyTo(w, DeleteRevision(n)).Done? ==> Call(w, DeleteRevision(n)).store.revisions == w.store.revisions - {n}
  {
    var before := CallShape(w, DeleteRevision(n));
  }

  /** Whatever fails, pruning has deleted a prefix of what it set out to delete, and all of it if
      it reports success. */
  lemma {:induction false} PruneTakesPrefix(w: World, oldest: seq<Revision>) returns (k: nat)
    ensures k <= |oldest|
    ensures Prune(w, oldest).world.store.revisions == w.store.revisions - RevisionNames(oldest[..k])
    ensures Prune(w, oldest).ok ==> k == |oldest|
    decreases |oldest|
  {
    hide Call, ReplyTo, RevisionNames;
    k := 0;
    NoNames(oldest);
    if oldest != [] {
      var op := DeleteRevision(oldest[0].name);
      DeleteLands(w, oldest[0].name);
      if ReplyTo(w, op).Done? {
        var rest := PruneTakesPrefix(Call(w, op), oldest[1..]);
        k := rest + 1;
        NamesOfPrefix(oldest, rest);
        assert w.store.revisions - {oldest[0].name} - RevisionNames(oldest[1..][..rest]) == w.store.revisions - RevisionNames(oldest[..k]);
      } else if Call(w, op).store.revisions != w.store.revisions {
        k := 1;
        NamesOfPrefix(oldest, 0);
        NoNames(oldest[1..]);
      }
    }
  }

  lemma NoNames(list: seq<Revision>)
    ensures RevisionNames(list[..0]) == {}
  {
  }

  lemma NamesOfPrefix(list: seq<Revision>, n: nat)
    requires n < |list|
    ensures RevisionNames(list[..n + 1]) == {list[0].name} + RevisionNames(list[1..][..n])
  {
    assert list[..n + 1] == [list[0]] + list[1..][..n];
  }

  lemma RestStillStored(list: seq<Revision>, stored: RevisionTable)
    requires list != [] && RevisionsDistinct(list) && forall r :: r in list ==> r.name in stored
    ensures forall r :: r in list[1..] ==> r.name in stored - {list[0].name}
    ensures stored - {list[0].name} - RevisionNames(list[1..]) == stored - RevisionNames(list)
    ensures RevisionsDistinct(list[1..])
  {
    forall r | r in list[1..] ensures r.name in stored - {list[0].name} {
      var i :| 0 <= i < |list[1..]| && list[1..][i] == r;
      assert list[i + 1] == r;
    }
    assert list == [list[0]] + list[1..];
    assert RevisionNames(list) == {list[0].name} + RevisionNames(list[1..]);
  }

  /** Undisturbed, pruning deletes all it set out to delete. */
  lemma {:induction false} QuietPrune(w: World, oldest: seq<Revision>)
    requires w.script == [] && RevisionsDistinct(oldest)
    requires forall r :: r in oldest ==> r.name in w.store.revisions
    ensures Prune(w, oldest).ok
    ensures Prune(w, oldest).world.store == w.store.(revisions := w.store.revisions - RevisionNames(oldest))
    decreases |oldest|
  {
    hide Call, ReplyTo;
    if oldest == [] {
      assert RevisionNames(oldest) == {};
    } else {
      var op := DeleteRevision(oldest[0].name);
      hide RevisionNames, Landed;
      QuietCall(w, op);
      assert oldest[0] in oldest;
      assert Call(w, op).store == w.store.(revisions := w.store.revisions - {oldest[0].name});
      RestStillStored(oldest, w.store.revisions);
      QuietPrune(Call(w, op), oldest[1..]);
    }
  }

  /** The first entry of the list that is not stored, or its length. */
  function FirstMissing(list: seq<Revision>, stored: set<string>): (k: nat)
    ensures k <= |list|
  {
    if list == [] || list[0].name !in stored then 0 else 1 + FirstMissing(list[1..], stored)
  }

  /** Undisturbed, pruning deletes up to the first revision that is gone already, and there it
      stops with an error: a missing revision is not ignored. */
  lemma {:induction false} QuietPruneExactly(w: World, oldest: seq<Revision>)
    requires w.script == [] && RevisionsDistinct(oldest)
    ensures var k := FirstMissing(oldest, w.store.revisions.Keys);
            && (Prune(w, oldest).ok <==> k == |oldest|)
            && Prune(w, oldest).world.store.revisions == w.store.revisions - RevisionNames(oldest[..k])
    decreases |oldest|
  {
    hide Call, ReplyTo, RevisionNames;
    NoNames(oldest);
    if oldest != [] {
      var op := DeleteRevision(oldest[0].name);
      QuietCall(w, op);
      if oldest[0].name in w.store.revisions {
        var next := Call(w, op);
        RestDistinct(oldest);
        QuietPruneExactly(next, oldest[1..]);
        SameFirstMissing(oldest[1..], w.store.revisions.Keys, oldest[0].name);
        var rest := FirstMissing(oldest[1..], w.store.revisions.Keys);
        NamesOfPrefix(oldest, rest);
        assert next.store.revisions.Keys == w.store.revisions.Keys - {oldest[0].name};
        assert w.store.revisions - {oldest[0].name} - RevisionNames(oldest[1..][..rest]) == w.store.revisions - RevisionNames(oldest[..rest + 1]);
      }
    }
  }

  lemma RestDistinct(list: seq<Revision>)
    requires list != [] && RevisionsDistinct(list)
    ensures RevisionsDistinct(list[1..])
    ensures forall r :: r in list[1..] ==> r.name != list[0].name
  {
    forall r | r in list[1..] ensures r.name != list[0].name {
      var i :| 0 <= i < |list[1..]| && list[1..][i] == r;
      assert list[i + 1] == r;
    }
  }

  lemma {:induction false} SameFirstMissing(list: seq<Revision>, stored: set<string>, name: string)
    requires forall r :: r in list ==> r.name != name
    ensures FirstMissing(list, stored - {name}) == FirstMissing(list, stored)
  {
    if list != [] {
      assert list[0] in list;
      SameFirstMissing(list[1..], stored, name);
    }
  }

  // ---- What survives ----

  lemma ListedDistinct(order: seq<Revision>, t: RevisionTable)
    requires Enumerates(order, t.Values)
    ensures RevisionsDistinct(order)
    ensures forall r :: r in order <==> r.name in t && t[r.name] == r
    ensures |order| == |t|
  {
    EnumerationSize(order, t.Values);
    TableSize(t);
    forall r ensures r in order <==> r.name in t && t[r.name] == r {
      if r.name in t && t[r.name] == r { assert r in t.Values; }
    }
    forall i, j | 0 <= i < j < |order| ensures order[i].name != order[j].name {
      assert order[i] in order && order[j] in order;
    }
  }

  lemma {:induction false} TableSize(t: RevisionTable)
    ensures |t.Values| == |t|
    decreases |t|
  {
    if t.Keys != {} {
      var n :| n in t.Keys;
      var rest: RevisionTable := t - {n};
      assert rest.Keys == t.Keys - {n};
      TableSize(rest);
      assert t.Values == rest.Values + {t[n]} by {
        forall r | r in t.Values ensures r in rest.Values + {t[n]} {
          if r.name != n { assert r == rest[r.name]; }
        }
      }
      assert t[n] !in rest.Values;
    } else {
      assert t == map[];
    }
  }

  /** The listed revisions that are still stored. */
  function Surviving(order: seq<Revision>, stored: RevisionTable): set<Revision>
  {
    set r | r in order && r.name in stored
  }

  /** After a prefix is deleted, exactly the rest of the list survives. */
  lemma SuffixSurvives(order: seq<Revision>, stored: RevisionTable, k: nat)
    requires RevisionsDistinct(order) && k <= |order| && forall r :: r in order ==> r.name in stored
    ensures forall i :: 0 <= i < |order| ==> (order[i].name in stored - RevisionNames(order[..k]) <==> k <= i)
    ensures |Surviving(order, stored - RevisionNames(order[..k]))| == |order| - k
  {
    var left := stored - RevisionNames(order[..k]);
    forall i | 0 <= i < |order| ensures order[i].name in left <==> k <= i {
      if i < k {
        assert order[..k][i] == order[i] && order[i].name in RevisionNames(order[..k]);
      } else {
        assert forall j :: 0 <= j < k ==> order[..k][j].name == order[j].name && order[j].name != order[i].name;
      }
    }
    var rest := order[k..];
    assert Surviving(order, left) == Members(rest) by {
      forall r | r in order ensures r in Surviving(order, left) <==> r in rest {
        var i :| 0 <= i < |order| && order[i] == r;
        if k <= i { assert rest[i - k] == r; }
        if r in rest { var j :| 0 <= j < |rest| && rest[j] == r; assert order[k + j] == order[i]; }
      }
    }
    MembersOfSuffix(order, k);
  }

  function Members(list: seq<Revision>): set<Revision> { set r | r in list }

  lemma MembersOfSuffix(order: seq<Revision>, k: nat)
    requires k <= |order| && forall i, j :: 0 <= i < j < |order| ==> order[i] != order[j]
    ensures |Members(order[k..])| == |order| - k
  {
    var rest := order[k..];
    assert forall i, j :: 0 <= i < j < |rest| ==> rest[i] == order[k + i] && rest[j] == order[k + j];
    EnumerationSize(rest, Members(rest));
  }

  /** Pruning keeps the newest: in any order that a sort by number can leave, ties included, and
      whatever fails, what is deleted is a prefix of the oldest, no survivor is older than
      anything deleted, and if no call fails exactly min(listed, limit) survive. */
  lemma PruningKeepsNewest(w: World, limit: nat, listed: RevisionTable, order: seq<Revision>) returns (k: nat)
    requires Enumerates(order, listed.Values) && (|order| <= limit || Ascending(order))
    requires listed.Keys <= w.store.revisions.Keys
    ensures |order| == |listed| && k <= Excess(|listed|, limit) <= |order|
    ensures var left := CleanupOldRevisions(w, limit, order).world.store.revisions;
            && left == w.store.revisions - RevisionNames(order[..k])
            && |Surviving(order, left)| == |listed| - k
            && (forall d, r :: d in listed.Values && r in listed.Values && d.name !in left && r.name in left ==> d.number <= r.number)
    ensures CleanupOldRevisions(w, limit, order).ok || w.script == [] ==>
              && k == Excess(|listed|, limit)
              && |Surviving(order, CleanupOldRevisions(w, limit, order).world.store.revisions)|
                   == (if |listed| <= limit then |listed| else limit)
  {
    hide Prune, RevisionNames, Surviving;
    var excess := Excess(|order|, limit);
    var oldest := order[..excess];
    ListedDistinct(order, listed);
    k := PruneTakesPrefix(w, oldest);
    assert oldest[..k] == order[..k];
    SuffixSurvives(order, w.store.revisions, k);
    if w.script == [] {
      assert forall r :: r in oldest ==> r in order;
      QuietPrune(w, oldest);
    }
    NewestSurvive(order, CleanupOldRevisions(w, limit, order).world.store.revisions, k);
  }

  lemma NewestSurvive(order: seq<Revision>, left: RevisionTable, k: nat)
    requires k == 0 || Ascending(order)
    requires forall i :: 0 <= i < |order| ==> (order[i].name in left <==> k <= i)
    ensures forall d, r :: d in order && r in order && d.name !in left && r.name in left ==> d.number <= r.number
  {
    forall d, r | d in order && r in order && d.name !in left && r.name in left
      ensures d.number <= r.number
    {
      var i :| 0 <= i < |order| && order[i] == d;
      var j :| 0 <= j < |order| && order[j] == r;
      assert i < k <= j;
    }
  }

  function StrictlyNewer(listed: RevisionTable, r: Revision): set<Revision>
  {
    set x | x in listed.Values && x.number > r.number
  }

  function OthersAsNew(listed: RevisionTable, r: Revision): set<Revision>
  {
    set x | x in listed.Values && x != r && x.number >= r.number
  }

  /** The position of a revision in a sorted listing is bounded by the numbers around it. */
  lemma PositionBounds(listed: RevisionTable, order: seq<Revision>, p: nat)
    requires Enumerates(order, listed.Values) && Ascending(order) && p < |order|
    ensures |StrictlyNewer(listed, order[p])| <= |order| - 1 - p <= |OthersAsNew(listed, order[p])|
  {
    var rest := order[p + 1..];
    MembersOfSuffix(order, p + 1);
    forall x | x in StrictlyNewer(listed, order[p]) ensures x in Members(rest) {
      var i :| 0 <= i < |order| && order[i] == x;
      assert p < i && rest[i - p - 1] == x;
    }
    forall x | x in Members(rest) ensures x in OthersAsNew(listed, order[p]) {
      var i :| 0 <= i < |rest| && rest[i] == x;
      assert order[p + 1 + i] == x && x in order;
    }
    SubsetSize(StrictlyNewer(listed, order[p]), Members(rest));
    SubsetSize(Members(rest), OthersAsNew(listed, order[p]));
  }

  /** Who is safe: a revision with fewer than `limit` others at least as new survives every order
      and every failure; one with `limit` or more strictly newer ones is deleted as soon as all
      calls succeed.  Without ties the two conditions are each other's opposite. */
  lemma SurvivesByNumber(w: World, limit: nat, listed: RevisionTable, order: seq<Revision>, r: Revision)
    requires Enumerates(order, listed.Values) && (|order| <= limit || Ascending(order))
    requires listed.Keys <= w.store.revisions.Keys && r in listed.Values
    ensures |OthersAsNew(listed, r)| < limit ==> r.name in CleanupOldRevisions(w, limit, order).world.store.revisions
    ensures |StrictlyNewer(listed, r)| >= limit && w.script == []
            ==> r.name !in CleanupOldRevisions(w, limit, order).world.store.revisions
  {
    hide CleanupOldRevisions, OthersAsNew, StrictlyNewer;
    var k := PruningKeepsNewest(w, limit, listed, order);
    ListedDistinct(order, listed);
    SuffixSurvives(order, w.store.revisions, k);
    var p :| 0 <= p < |order| && order[p] == r;
    if |order| > limit {
      PositionBounds(listed, order, p);
    } else {
      NewerAreOthers(listed, r);
    }
  }

  lemma NewerAreOthers(listed: RevisionTable, r: Revision)
    requires r in listed.Values
    ensures |StrictlyNewer(listed, r)| < |listed|
  {
    TableSize(listed);
    SubsetSize(StrictlyNewer(listed, r) + {r}, listed.Values);
  }

  /** The current revision survives when it is listed with the strictly highest number. */
  lemma CurrentSurvives(w: World, limit: nat, listed: RevisionTable, order: seq<Revision>, current: string)
    requires Enumerates(order, listed.Values) && (|order| <= limit || Ascending(order))
    requires listed.Keys <= w.store.revisions.Keys && limit >= 1 && current in listed
    requires forall n :: n in listed && n != current ==> listed[n].number < listed[current].number
    ensures current in CleanupOldRevisions(w, limit, order).world.store.revisions
  {
    hide CleanupOldRevisions;
    assert listed[current] in listed.Values;
    assert OthersAsNew(listed, listed[current]) == {};
    SurvivesByNumber(w, limit, listed, order, listed[current]);
  }

  // ---- A listing taken before the revisions are synchronised ----

  lemma QuietRewrite(cx: Context, w: World, spec: Spec, number: int)
    requires w.script == [] && RevisionName(cx, spec) in w.store.revisions
    ensures var p := CreateControllerRevision(cx, w, spec, number);
            && p.ok && p.world.script == []
            && p.world.store == w.store.(revisions := w.store.revisions[RevisionName(cx, spec) := RevisionFor(cx, spec, number)])
  {
    hide Call, ReplyTo, Landed, RevisionName, RevisionFor;
    var r := RevisionFor(cx, spec, number);
    var w1 := Call(w, GetRevision(r.name));
    QuietCall(w, GetRevision(r.name));
    assert ReplyTo(w, GetRevision(r.name)) == TheRevision(w.store.revisions[r.name]);
    QuietCall(w1, UpdateRevision(r));
  }

  /** Undisturbed, synchronising a rollback renumbers the entry the spec already has. */
  lemma QuietRenumber(cx: Context, w: World, cr: Cr, last: Revision, lastSpec: Spec)
    requires w.script == [] && RevisionName(cx, cr.spec) in w.store.revisions
    requires cr.status.currentRevision != "" && cr.status.currentRevision in w.store.revisions
    requires w.store.revisions[cr.status.currentRevision] == last
    requires cx.unmarshal(last.data) == Some(lastSpec) && lastSpec != cr.spec
    ensures var sync := SyncRevisions(cx, w, cr);
            && sync.ok && sync.world.script == []
            && sync.world.store == w.store.(revisions := w.store.revisions[RevisionName(cx, cr.spec) := RevisionFor(cx, cr.spec, last.number + 1)])
  {
    hide Call, ReplyTo, Landed, RevisionName, CreateControllerRevision, RevisionFor;
    var get := GetRevision(cr.status.currentRevision);
    QuietCall(w, get);
    assert SyncRevisions(cx, w, cr) == SyncAgainst(cx, Call(w, get), cr, last);
    QuietRewrite(cx, Call(w, get), cr.spec, last.number + 1);
  }

  /** Pruning works from the numbers listed before the synchronisation.  Suppose the listing did
      see every revision, as it does not under the labels as written, and the spec is rolled back
      to one that is already recorded.  Then, although no call fails, the entry that becomes
      current is deleted if the listing holds `limit` or more strictly newer ones, and stays if
      it holds fewer than `limit` others at least as new; without ties these are opposites. */
  lemma StaleListingDecides(cx: Context, w: World, s: Snapshot, c: Choices, lastSpec: Spec)
    requires w.script == [] && UpToDate(s, w.store) && Possible(c, s)
    requires Converter.WellFormed(s.cr.spec) && AtHome(s, Converter.DesiredPods(s.cr.spec))
    requires s.cr.status.nextRevision == RevisionName(cx, s.cr.spec)
    requires s.revisions == w.store.revisions && RevisionName(cx, s.cr.spec) in s.revisions
    requires s.cr.status.currentRevision != "" && s.cr.status.currentRevision in s.revisions
    requires cx.unmarshal(s.revisions[s.cr.status.currentRevision].data) == Some(lastSpec) && lastSpec != s.cr.spec
    ensures Current(Act(cx, w, s, c).world.store) == RevisionName(cx, s.cr.spec)
    ensures |StrictlyNewer(s.revisions, s.revisions[RevisionName(cx, s.cr.spec)])| >= s.cr.spec.historyLimit
            ==> Dangling(Act(cx, w, s, c).world.store)
    ensures |OthersAsNew(s.revisions, s.revisions[RevisionName(cx, s.cr.spec)])| < s.cr.spec.historyLimit
            ==> !Dangling(Act(cx, w, s, c).world.store)
  {
    hide Reconcile, SyncRevisions, CleanupOldRevisions, StrictlyNewer, OthersAsNew, SettledConfigMaps, SettledPods,
         Converter.WellFormed, AtHome, RevisionName;
    RoundRefinesPureStep(cx, w, s, c);
    var round := Reconcile(w, s, Desired(s.cr.spec), c);
    QuietRenumber(cx, round.world, s.cr, s.revisions[s.cr.status.currentRevision], lastSpec);
    var sync := SyncRevisions(cx, round.world, s.cr);
    var r := s.revisions[RevisionName(cx, s.cr.spec)];
    assert r in s.revisions.Values;
    SurvivesByNumber(sync.world, s.cr.spec.historyLimit, s.revisions, c.revisions, r);
    QuietBookkeeping(cx, w, s, c);
  }

  // ---- Under the labels as written nothing is ever pruned ----

  /** No stored revision carries the label that revisions are listed by. */
  ghost predicate Unlisted(revisions: RevisionTable)
  {
    forall n :: n in revisions ==> LISTED_REVISION_KEY !in revisions[n].labels
  }

  lemma UnlistedIsUnseen(cx: Context, revisions: RevisionTable, order: seq<Revision>)
    requires Unlisted(revisions) && Enumerates(order, SelectRevisions(revisions, RevisionSelector(cx)).Values)
    ensures order == []
  {
    var seen := SelectRevisions(revisions, RevisionSelector(cx));
    assert forall n :: n in revisions ==> !Selects(RevisionSelector(cx), revisions[n].labels) by {
      assert LISTED_REVISION_KEY in RevisionSelector(cx);
    }
    assert seen == map[];
    NoneEnumerated(order, seen);
  }

  lemma WrittenUnlisted(cx: Context, spec: Spec, number: int)
    ensures LISTED_REVISION_KEY !in RevisionFor(cx, spec, number).labels
  {
    KeysDiffer();
  }

  lemma PutKeepsUnlisted(t: RevisionTable, op: Op)
    requires Unlisted(t)
    requires WritesRevisions(op) ==> !op.DeleteRevision? && LISTED_REVISION_KEY !in op.revision.labels
    ensures Unlisted(ApplyToRevisions(t, op)) && t.Keys <= ApplyToRevisions(t, op).Keys
  {
    hide LISTED_REVISION_KEY;
  }

  /** With nothing listed, a revision write of a pass stores the spec it acts on. */
  lemma RevisionWriteIsOfSpec(cx: Context, s: Snapshot, c: Choices, op: Op)
    requires Legit(cx, s, c, op) && WritesRevisions(op) && c.revisions == []
    ensures op.CreateRevision? || op.UpdateRevision?
    ensures op.revision == RevisionFor(cx, s.cr.spec, op.revision.number)
  {
  }

  lemma CallKeepsRevisions(cx: Context, w: World, s: Snapshot, c: Choices, op: Op)
    requires Unlisted(w.store.revisions) && c.revisions == []
    requires WritesRevisions(op) ==> Legit(cx, s, c, op)
    ensures Unlisted(Call(w, op).store.revisions) && w.store.revisions.Keys <= Call(w, op).store.revisions.Keys
  {
    hide *;
    if WritesRevisions(op) {
      RevisionWriteIsOfSpec(cx, s, c, op);
      WrittenUnlisted(cx, s.cr.spec, op.revision.number);
    }
    PutKeepsUnlisted(w.store.revisions, op);
    var before := CallParts(w, op);
  }

  lemma {:induction false} CallsKeepRevisions(cx: Context, w: World, s: Snapshot, c: Choices, ops: seq<Op>)
    requires Unlisted(w.store.revisions) && c.revisions == []
    requires forall op :: op in ops && WritesRevisions(op) ==> Legit(cx, s, c, op)
    ensures Unlisted(Calls(w, ops).store.revisions) && w.store.revisions.Keys <= Calls(w, ops).store.revisions.Keys
    decreases |ops|
  {
    hide Call, Unlisted, Legit, WritesRevisions;
    if ops != [] {
      assert ops[0] in ops;
      CallKeepsRevisions(cx, w, s, c, ops[0]);
      CallsKeepRevisions(cx, Call(w, ops[0]), s, c, ops[1..]);
    }
  }

  lemma PassKeepsRevisions(cx: Context, st: Store, script: seq<Turn>, c: Choices)
    requires Unlisted(st.revisions)
    requires PassFrom(cx, st, script, c).report.Acted? ==> Possible(c, PassFrom(cx, st, script, c).report.s)
    ensures var after := PassFrom(cx, st, script, c).world.store.revisions;
            Unlisted(after) && st.revisions.Keys <= after.Keys
  {
    hide Pass, Act, Calls, Legit, Unlisted, SelectRevisions, RevisionSelector, Derive, StatusChanged, FactsOf, ObserveAll, PodsAge, CrDrifts;
    var r := PassFrom(cx, st, script, c);
    if r.report.Acted? {
      var ops := PassWrites(cx, st, script, c);
      var w, read, listed := ActedFacts(cx, st, script, c);
      UnlistedIsUnseen(cx, st.revisions, c.revisions);
      CallsKeepRevisions(cx, World(st, script, []), r.report.s, c, ops);
    } else {
      IdlePass(cx, st, script, c);
    }
  }

  /** The history limit is not enforced: over any run, whatever fails, a stored revision is never
      deleted, because revisions are listed under a label they are not written with. */
  lemma {:induction false} NothingIsEverPruned(cx: Context, specs: set<Spec>, pt: Point, steps: seq<Step>)
    requires Unlisted(pt.store.revisions) && RunAllowed(cx, specs, pt, steps)
    ensures var end := Run(cx, pt, steps).store.revisions;
            Unlisted(end) && pt.store.revisions.Keys <= end.Keys
  {
    hide RunAllowed, Pass, Possible, Unlisted;
    if steps != [] {
      var front, step := steps[..|steps| - 1], steps[|steps| - 1];
      RunAllowedPrefix(cx, specs, pt, steps);
      NothingIsEverPruned(cx, specs, pt, front);
      var mid := Run(cx, pt, front);
      match step {
        case Happens(e) => OccurDrifts(mid.store, e);
        case Passes(script, c) => PassKeepsRevisions(cx, mid.store, script, c);
      }
    }
  }
}
