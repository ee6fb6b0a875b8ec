/**
 Purge safety of cell lifecycle reconciliation.

 One developer name is followed through any number of incarnations. The store keeps
 its record and a guard that at most one client holds; the cluster keeps one object
 and one namespace per incarnation key. The guard holder's progress is `pc`; every
 other writer of the cluster, and every crash, may act between any two of its calls.
*/
module Lifecycle {
  import opened Wrappers

  /** The recorded cluster identity, and the object's uid once it has been observed. */
  datatype Binding = Binding(cluster: nat, uid: Option<nat>)

  datatype Record = Record(key: nat, closing: bool, binding: Option<Binding>)

  /** Where the holder of the lifecycle guard is, with what it has read. */
  datatype Pc =
    | Free
    | Held
    // reconcile_name
    | Identified(key: nat, cluster: nat)
    | Bound(key: nat, cluster: nat, binding: Option<Binding>)
    | Seen(key: nat, cluster: nat, uid: nat)
    | Unseen(key: nat, cluster: nat, binding: Option<Binding>)
    | Condemned(key: nat, cluster: nat, binding: Option<Binding>, closing: bool)
    // `pending`: a create request for the key was on its way when the cell was read
    | CellAbsent(key: nat, cluster: nat, binding: Option<Binding>, closing: bool, pending: bool)
    | BothAbsent(key: nat, cluster: nat, binding: Option<Binding>, closing: bool, pending: bool)
    // materialize_locked
    | Accepted(key: nat)
    | Intended(key: nat, cluster: nat)
    | Creating(key: nat, cluster: nat)
    | Created(key: nat, cluster: nat)

  /** A purge, with what was read for it and what was true when it happened. */
  datatype Purge = Purge(key: nat, cluster: nat, binding: Option<Binding>, closing: bool, pending: bool, cell: bool, namespace: bool)

  /** `inflight` holds keys whose create request was sent by a client that no longer waits for the answer. */
  datatype World = World(record: Option<Record>, nextKey: nat, cluster: nat, cells: map<nat, nat>, namespaces: set<nat>,
                         nextUid: nat, inflight: set<nat>, pc: Pc, purges: seq<Purge>)

  datatype Event =
    // The guard holder, one call at a time
    | Acquire
    | Release
    | Identify
    | ReadBinding
    | LookUp
    | BindSeen
    | Decide
    | VerifyCell
    | VerifyNamespace
    | PurgeRecord
    | Accept
    | BindIntent
    | SendCreate
    | CreateAnswered
    | BindCreated
    | BeginClose
    // A failed call, a timeout or a crash; a sweep keeps its guard after a timeout
    | Abort(keepGuard: bool)
    // The cluster
    | CreateNamespace(key: nat)
    | DeleteNamespace(key: nat)
    | RemoveCell(key: nat)
    | Land(key: nat)
    | Drop(key: nat)
    | ReplaceCluster(cluster: nat)

  function Init(): World {
    World(None, 0, 0, map[], {}, 0, {}, Free, [])
  }

  /**
   `bind_runtime`: the row is created once, its cluster never changes, and its uid is
   only ever filled in. None is the stale-incarnation error.
  */
  function BindRuntime(w: World, key: nat, binding: Binding): Option<World> {
    if w.record.None? || w.record.value.key != key then None
    else
      var r := w.record.value;
      match r.binding
      case None => Some(w.(record := Some(r.(binding := Some(binding)))))
      case Some(b) =>
        if b.cluster != binding.cluster || (binding.uid.Some? && b.uid.Some? && b.uid != binding.uid) then None
        else Some(w.(record := Some(r.(binding := Some(Binding(b.cluster, if binding.uid.Some? then binding.uid else b.uid))))))
  }

  /** A bound intent that was never created, on this cluster and not closing, is kept. */
  predicate KeptIntent(binding: Option<Binding>, cluster: nat, closing: bool) {
    binding.Some? && binding.value.uid.None? && binding.value.cluster == cluster && !closing
  }

  /** The create request of a client that stops waiting is still on its way. */
  function AbortStep(w: World, keepGuard: bool): World {
    var w' := if w.pc.Creating? && w.pc.cluster == w.cluster then w.(inflight := w.inflight + {w.pc.key}) else w;
    w'.(pc := if keepGuard then Held else Free)
  }

  function ReconcileStep(w: World, e: Event): World {
    match (e, w.pc)
    case (Identify, Held) => if w.record.None? then w else w.(pc := Identified(w.record.value.key, w.cluster))
    case (ReadBinding, Identified(k, u)) => if w.record.None? then w else w.(pc := Bound(k, u, w.record.value.binding))
    case (LookUp, Bound(k, u, b)) => w.(pc := if k in w.cells then Seen(k, u, w.cells[k]) else Unseen(k, u, b))
    case (BindSeen, Seen(k, u, uid)) =>
      (match BindRuntime(w, k, Binding(u, Some(uid))) case Some(w') => w'.(pc := Held) case None => w.(pc := Held))
    case (Decide, Unseen(k, u, b)) =>
      if w.record.None? then w
      else w.(pc := if KeptIntent(b, u, w.record.value.closing) then Held else Condemned(k, u, b, w.record.value.closing))
    case (VerifyCell, Condemned(k, u, b, x)) => w.(pc := if k in w.cells then Held else CellAbsent(k, u, b, x, k in w.inflight))
    case (VerifyNamespace, CellAbsent(k, u, b, x, p)) => w.(pc := if k in w.namespaces then Held else BothAbsent(k, u, b, x, p))
    case (PurgeRecord, BothAbsent(k, u, b, x, p)) =>
      if w.record.None? || w.record.value.key != k then w.(pc := Held)
      else w.(record := None, pc := Held, purges := w.purges + [Purge(k, u, b, x, p, k in w.cells, k in w.namespaces)])
    case _ => w
  }

  function MaterializeStep(w: World, e: Event): World {
    match (e, w.pc)
    case (Accept, Held) =>
      if w.record.None? then w.(record := Some(Record(w.nextKey, false, None)), nextKey := w.nextKey + 1, pc := Accepted(w.nextKey))
      else if w.record.value.closing then w
      else w.(pc := Accepted(w.record.value.key))
    case (BindIntent, Accepted(k)) =>
      (match BindRuntime(w, k, Binding(w.cluster, None)) case Some(w') => w'.(pc := Intended(k, w.cluster)) case None => w.(pc := Free))
    case (SendCreate, Intended(k, u)) => w.(pc := if k in w.cells then Created(k, u) else Creating(k, w.cluster))
    case (CreateAnswered, Creating(k, u)) =>
      if u != w.cluster || k in w.cells then w.(pc := Free)
      else w.(cells := w.cells[k := w.nextUid], nextUid := w.nextUid + 1, pc := Created(k, u))
    case (BindCreated, Created(k, u)) =>
      if k !in w.cells then w.(pc := Free)
      else (match BindRuntime(w, k, Binding(u, Some(w.cells[k]))) case Some(w') => w'.(pc := Held) case None => w.(pc := Free))
    case (BeginClose, Held) => if w.record.None? then w else w.(record := Some(w.record.value.(closing := true)))
    case _ => w
  }

  function ClusterStep(w: World, e: Event): World {
    match e
    // the controller works on the namespace of a cell that exists
    case CreateNamespace(k) => if k in w.cells then w.(namespaces := w.namespaces + {k}) else w
    case DeleteNamespace(k) => w.(namespaces := w.namespaces - {k})
    case RemoveCell(k) => w.(cells := w.cells - {k})
    case Land(k) =>
      if k !in w.inflight then w
      else if k in w.cells then w.(inflight := w.inflight - {k})
      else w.(inflight := w.inflight - {k}, cells := w.cells[k := w.nextUid], nextUid := w.nextUid + 1)
    case Drop(k) => w.(inflight := w.inflight - {k})
    case ReplaceCluster(u) => if u == w.cluster then w else w.(cluster := u, cells := map[], namespaces := {}, inflight := {})
    case _ => w
  }

  function Step(w: World, e: Event): World {
    match e
    case Acquire => if w.pc.Free? then w.(pc := Held) else w
    case Release => if w.pc.Held? then w.(pc := Free) else w
    case Abort(keep) => if w.pc.Free? then w else AbortStep(w, keep)
    case CreateNamespace(_) => ClusterStep(w, e)
    case DeleteNamespace(_) => ClusterStep(w, e)
    case RemoveCell(_) => ClusterStep(w, e)
    case Land(_) => ClusterStep(w, e)
    case Drop(_) => ClusterStep(w, e)
    case ReplaceCluster(_) => ClusterStep(w, e)
    case Accept => MaterializeStep(w, e)
    case BindIntent => MaterializeStep(w, e)
    case SendCreate => MaterializeStep(w, e)
    case CreateAnswered => MaterializeStep(w, e)
    case BindCreated => MaterializeStep(w, e)
    case BeginClose => MaterializeStep(w, e)
    case _ => ReconcileStep(w, e)
  }

  function Run(w: World, events: seq<Event>): World
    decreases |events|
  {
    if events == [] then w else Run(Step(w, events[0]), events[1..])
  }

  // ---------------------------------------------------------------- invariant

  ghost predicate Recorded(w: World, k: nat) {
    w.record.Some? && w.record.value.key == k && w.record.value.binding.Some?
  }

  /** The key was purged while a create request for it was on its way. */
  ghost predicate PurgedPending(w: World, k: nat) {
    exists i :: 0 <= i < |w.purges| && w.purges[i].key == k && w.purges[i].pending
  }

  ghost predicate Intact(w: World, k: nat) {
    Recorded(w, k) || PurgedPending(w, k)
  }

  ghost predicate PcOk(w: World) {
    match w.pc
    case Free => true
    case Held => true
    case Identified(k, _) => w.record.Some? && w.record.value.key == k
    case Bound(k, _, b) => w.record.Some? && w.record.value.key == k && w.record.value.binding == b
    case Seen(k, _, _) => w.record.Some? && w.record.value.key == k
    case Unseen(k, _, b) => w.record.Some? && w.record.value.key == k && w.record.value.binding == b
    case Condemned(k, u, b, x) => w.record == Some(Record(k, x, b)) && !KeptIntent(b, u, x)
    case CellAbsent(k, u, b, x, p) =>
      && w.record == Some(Record(k, x, b)) && !KeptIntent(b, u, x)
      && (p || (k !in w.cells && k !in w.inflight))
    case BothAbsent(k, u, b, x, p) =>
      && w.record == Some(Record(k, x, b)) && !KeptIntent(b, u, x)
      && (p || (k !in w.cells && k !in w.inflight && k !in w.namespaces))
    case Accepted(k) => w.record.Some? && w.record.value.key == k && !w.record.value.closing
    case Intended(k, _) => Recorded(w, k) && !w.record.value.closing
    case Creating(k, _) => Recorded(w, k) && !w.record.value.closing
    case Created(k, _) => Recorded(w, k) && !w.record.value.closing
  }

  ghost predicate PurgeOk(p: Purge) {
    && !KeptIntent(p.binding, p.cluster, p.closing)
    && (p.cell || p.namespace ==> p.pending)
  }

  ghost predicate Inv(w: World) {
    && (forall k :: k in w.cells || k in w.inflight ==> Intact(w, k))
    && (w.record.Some? ==> w.record.value.key < w.nextKey)
    && PcOk(w)
    && (forall p :: p in w.purges ==> PurgeOk(p))
  }

  lemma PurgesGrow(w: World, w': World, k: nat)
    requires w.purges <= w'.purges && PurgedPending(w, k)
    ensures PurgedPending(w', k)
  {
    var i :| 0 <= i < |w.purges| && w.purges[i].key == k && w.purges[i].pending;
    assert w'.purges[i] == w.purges[i];
  }

  /** The purge step turns a recorded key into one purged with its create pending, or into one that is gone for good. */
  lemma PurgeStepKeepsInv(w: World)
    requires Inv(w)
    ensures Inv(ReconcileStep(w, PurgeRecord)) && w.purges <= ReconcileStep(w, PurgeRecord).purges
  {
    var w' := ReconcileStep(w, PurgeRecord);
    if w.pc.BothAbsent? {
      assert w'.purges[|w.purges|].key == w.pc.key && w'.purges[|w.purges|].pending == w.pc.pending;
      forall k | k in w'.cells || k in w'.inflight ensures Intact(w', k) {
        if PurgedPending(w, k) { PurgesGrow(w, w', k); } else { assert k == w.pc.key && w.pc.pending; }
      }
    }
  }

  lemma ReconcileStepKeepsInv(w: World, e: Event)
    requires Inv(w) && !e.PurgeRecord?
    ensures Inv(ReconcileStep(w, e)) && ReconcileStep(w, e).purges == w.purges
  {
    var w' := ReconcileStep(w, e);
    forall k | k in w'.cells || k in w'.inflight ensures Intact(w', k) {
      if PurgedPending(w, k) { PurgesGrow(w, w', k); }
    }
  }

  lemma MaterializeStepKeepsInv(w: World, e: Event)
    requires Inv(w)
    ensures Inv(MaterializeStep(w, e)) && MaterializeStep(w, e).purges == w.purges
  {
    var w' := MaterializeStep(w, e);
    forall k | k in w'.cells || k in w'.inflight ensures Intact(w', k) {
      if PurgedPending(w, k) { PurgesGrow(w, w', k); }
    }
  }

  lemma ClusterStepKeepsInv(w: World, e: Event)
    requires Inv(w)
    ensures Inv(ClusterStep(w, e)) && ClusterStep(w, e).purges == w.purges
  {
    var w' := ClusterStep(w, e);
    forall k | k in w'.cells || k in w'.inflight ensures Intact(w', k) {
      if PurgedPending(w, k) { PurgesGrow(w, w', k); }
    }
  }

  lemma AbortKeepsInv(w: World, keep: bool)
    requires Inv(w)
    ensures Inv(Step(w, Abort(keep))) && Step(w, Abort(keep)).purges == w.purges
  {
    var w' := Step(w, Abort(keep));
    forall k | k in w'.cells || k in w'.inflight ensures Intact(w', k) {
      if PurgedPending(w, k) { PurgesGrow(w, w', k); }
    }
  }

  lemma StepKeepsInv(w: World, e: Event)
    requires Inv(w)
    ensures Inv(Step(w, e)) && w.purges <= Step(w, e).purges
  {
    if e.PurgeRecord? { PurgeStepKeepsInv(w); }
    else if e.Abort? { AbortKeepsInv(w, e.keepGuard); }
    else {
      ReconcileStepKeepsInv(w, e);
      MaterializeStepKeepsInv(w, e);
      ClusterStepKeepsInv(w, e);
      if e.Acquire? || e.Release? { GuardKeepsInv(w, e); }
    }
  }

  lemma GuardKeepsInv(w: World, e: Event)
    requires Inv(w) && (e.Acquire? || e.Release?)
    ensures Inv(Step(w, e)) && Step(w, e).purges == w.purges
  {
    var w' := Step(w, e);
    forall k | k in w'.cells || k in w'.inflight ensures Intact(w', k) {
      if PurgedPending(w, k) { PurgesGrow(w, w', k); }
    }
  }

  lemma {:induction false} RunKeepsInv(w: World, events: seq<Event>)
    requires Inv(w)
    ensures Inv(Run(w, events)) && w.purges <= Run(w, events).purges
    decreases |events|
  {
    if events != [] {
      StepKeepsInv(w, events[0]);
      RunKeepsInv(Step(w, events[0]), events[1..]);
    }
  }

  lemma Reachable(events: seq<Event>)
    ensures Inv(Run(Init(), events))
  {
    RunKeepsInv(Init(), events);
  }

  // ---------------------------------------------------------------- purge safety

  /**
   Over every run, crashes during a create included: no purge took a kept intent; a purge met
   its cell or namespace only if a create request was on its way when it read the cell; and
   every live cell, and every cell still to come from a request on its way, has its bound
   record unless it was purged in just that situation.
  */
  lemma PurgeIsSafe(events: seq<Event>)
    ensures var w := Run(Init(), events);
            && (forall i :: 0 <= i < |w.purges| ==>
                  var p := w.purges[i];
                  !KeptIntent(p.binding, p.cluster, p.closing) && (p.cell || p.namespace ==> p.pending))
            && (forall k :: k in w.cells || k in w.inflight ==>
                  || (w.record.Some? && w.record.value.key == k && w.record.value.binding.Some?)
                  || (exists i :: 0 <= i < |w.purges| && w.purges[i].key == k && w.purges[i].pending))
  {
    Reachable(events);
    var w := Run(Init(), events);
    forall i | 0 <= i < |w.purges| ensures PurgeOk(w.purges[i]) { assert w.purges[i] in w.purges; }
    forall k | k in w.cells || k in w.inflight ensures Recorded(w, k) || PurgedPending(w, k) { assert Intact(w, k); }
  }

  /** A key that can never be live again. */
  ghost predicate Dead(w: World, k: nat) {
    && k < w.nextKey && k !in w.cells && k !in w.inflight
    && (w.record.Some? ==> w.record.value.key != k)
  }

  lemma DeadStep(w: World, e: Event, k: nat)
    requires Inv(w) && Dead(w, k)
    ensures Dead(Step(w, e), k)
  {
  }

  lemma {:induction false} DeadStays(w: World, events: seq<Event>, k: nat)
    requires Inv(w) && Dead(w, k)
    ensures k !in Run(w, events).cells
    decreases |events|
  {
    if events != [] {
      StepKeepsInv(w, events[0]);
      DeadStep(w, events[0], k);
      DeadStays(Step(w, events[0]), events[1..], k);
    }
  }

  lemma LandedLives(w: World, k: nat)
    requires k in w.inflight
    ensures k in Run(w, [Land(k)]).cells
  {
    assert [Land(k)][1..] == [];
    assert Run(w, [Land(k)]) == Step(w, Land(k));
  }

  /** Exactly when a purge can leave a live cell without a record: its create is live already, or still in flight. */
  lemma PurgeOrphansIffCreateUnanswered(w: World)
    requires Inv(w) && w.pc.BothAbsent?
    ensures var k := w.pc.key;
            var w' := Step(w, PurgeRecord);
            && w'.record == None
            && ((exists events :: k in Run(w', events).cells) <==> k in w.cells || k in w.inflight)
  {
    var k, w' := w.pc.key, Step(w, PurgeRecord);
    StepKeepsInv(w, PurgeRecord);
    assert w'.cells == w.cells && w'.inflight == w.inflight && w'.record == None;
    if k in w.cells {
      assert k in Run(w', []).cells;
    } else if k in w.inflight {
      LandedLives(w', k);
    } else {
      forall events ensures k !in Run(w', events).cells { DeadStays(w', events, k); }
    }
  }

  lemma {:induction false} RunConcat(w: World, first: seq<Event>, second: seq<Event>)
    ensures Run(w, first + second) == Run(Run(w, first), second)
    decreases |first|
  {
    if first == [] {
      assert first + second == second;
    } else {
      assert (first + second)[1..] == first[1..] + second;
      RunConcat(Step(w, first[0]), first[1..], second);
    }
  }

  lemma RunFour(w: World, a: Event, b: Event, c: Event, d: Event)
    ensures Run(w, [a, b, c, d]) == Step(Step(Step(Step(w, a), b), c), d)
  {
    var w1, w2, w3 := Step(w, a), Step(Step(w, a), b), Step(Step(Step(w, a), b), c);
    assert Run(w, [a, b, c, d]) == Run(w1, [b, c, d]) by { assert [a, b, c, d][1..] == [b, c, d]; }
    assert Run(w1, [b, c, d]) == Run(w2, [c, d]) by { assert [b, c, d][1..] == [c, d]; }
    assert Run(w2, [c, d]) == Run(w3, [d]) by { assert [c, d][1..] == [d]; }
    assert Run(w3, [d]) == Step(w3, d) by { assert [d][1..] == []; }
  }

  // The smallest run that orphans a cell, in four parts: a client crashes with its create
  // unanswered, the intent is closed, it is found absent and purged, and the create lands.
  const INTENT := Some(Binding(0, None))
  const CRASHING := World(Some(Record(0, false, INTENT)), 1, 0, map[], {}, 0, {}, Creating(0, 0), [])
  const CLOSED := World(Some(Record(0, true, INTENT)), 1, 0, map[], {}, 0, {0}, Identified(0, 0), [])
  const UNSEEN := CLOSED.(pc := CellAbsent(0, 0, INTENT, true, true))

  lemma CrashWhileCreating()
    ensures Run(Init(), [Acquire, Accept, BindIntent, SendCreate]) == CRASHING
  {
    RunFour(Init(), Acquire, Accept, BindIntent, SendCreate);
  }

  lemma CloseTheIntent()
    ensures Run(CRASHING, [Abort(false), Acquire, BeginClose, Identify]) == CLOSED
  {
    RunFour(CRASHING, Abort(false), Acquire, BeginClose, Identify);
  }

  lemma FindItAbsent()
    ensures Run(CLOSED, [ReadBinding, LookUp, Decide, VerifyCell]) == UNSEEN
  {
    RunFour(CLOSED, ReadBinding, LookUp, Decide, VerifyCell);
  }

  lemma PurgeThenLand()
    ensures var w := Run(UNSEEN, [VerifyNamespace, PurgeRecord, Land(0), Release]);
            w.record == None && 0 in w.cells && |w.purges| == 1 && w.purges[0].closing
  {
    RunFour(UNSEEN, VerifyNamespace, PurgeRecord, Land(0), Release);
  }

  function OrphaningRun(): seq<Event> {
    [Acquire, Accept, BindIntent, SendCreate] + [Abort(false), Acquire, BeginClose, Identify] +
    [ReadBinding, LookUp, Decide, VerifyCell] + [VerifyNamespace, PurgeRecord, Land(0), Release]
  }

  lemma OrphaningRunEndsPurged()
    ensures Run(Init(), OrphaningRun()) == Run(UNSEEN, [VerifyNamespace, PurgeRecord, Land(0), Release])
  {
    var a, b := [Acquire, Accept, BindIntent, SendCreate], [Abort(false), Acquire, BeginClose, Identify];
    var c := [ReadBinding, LookUp, Decide, VerifyCell];
    CrashWhileCreating();
    CloseTheIntent();
    FindItAbsent();
    RunConcat(Init(), a, b);
    RunConcat(Init(), a + b, c);
    RunConcat(Init(), a + b + c, [VerifyNamespace, PurgeRecord, Land(0), Release]);
  }

  lemma ClosedIntentCanBeOrphaned()
    ensures var w := Run(Init(), OrphaningRun());
            w.record == None && 0 in w.cells && |w.purges| == 1 && w.purges[0].closing
  {
    OrphaningRunEndsPurged();
    PurgeThenLand();
  }

  // ---------------------------------------------------------------- bindings

  /** A record keeps its incarnation, its closing mark and its binding until it is purged, and keys are never reused. */
  ghost predicate Grows(w: World, w': World) {
    && w.nextKey <= w'.nextKey
    && (w'.record.Some? && w'.record.value.key < w.nextKey ==>
          && w.record.Some? && w.record.value.key == w'.record.value.key
          && (w.record.value.closing ==> w'.record.value.closing)
          && (w.record.value.binding.Some? ==>
                && w'.record.value.binding.Some?
                && w'.record.value.binding.value.cluster == w.record.value.binding.value.cluster
                && (w.record.value.binding.value.uid.Some? ==>
                      w'.record.value.binding.value.uid == w.record.value.binding.value.uid)))
  }

  lemma StepGrows(w: World, e: Event)
    requires Inv(w)
    ensures Grows(w, Step(w, e))
  {
  }

  lemma {:induction false} RunGrows(w: World, events: seq<Event>)
    requires Inv(w)
    ensures Grows(w, Run(w, events))
    decreases |events|
  {
    if events != [] {
      StepGrows(w, events[0]);
      StepKeepsInv(w, events[0]);
      RunGrows(Step(w, events[0]), events[1..]);
    }
  }

  // ---------------------------------------------------------------- the code of the guard holder

  lemma {:induction false} RunSnoc(w: World, events: seq<Event>, e: Event)
    ensures Run(w, events + [e]) == Step(Run(w, events), e)
    decreases |events|
  {
    RunConcat(w, events, [e]);
    assert [e][1..] == [];
  }

  /** What may happen while the guard is held: the cluster acts, then a call may fail. */
  predicate OfCluster(e: Event) {
    e.CreateNamespace? || e.DeleteNamespace? || e.RemoveCell? || e.Land? || e.Drop? || e.ReplaceCluster?
  }

  datatype Slot = Slot(others: seq<Event>, fails: bool)

  predicate ClusterOnly(tape: seq<Slot>) {
    forall i, e :: 0 <= i < |tape| && e in tape[i].others ==> OfCluster(e)
  }

  function SlotAt(tape: seq<Slot>, i: nat): Slot {
    if i < |tape| then tape[i] else Slot([], false)
  }

  lemma ClusterLeavesTheHolder(w: World, e: Event)
    requires OfCluster(e)
    ensures Step(w, e).pc == w.pc && Step(w, e).record == w.record && Step(w, e).purges == w.purges
  {
  }

  /** Neither the cell nor the namespace of a key is there. */
  predicate Vanished(w: World, key: nat) {
    key !in w.cells && key !in w.namespaces
  }

  /** No create request for the key arrives while the calls are made. */
  predicate NothingLands(tape: seq<Slot>, key: nat) {
    forall i :: 0 <= i < |tape| ==> Land(key) !in tape[i].others
  }

  predicate AllAnswered(tape: seq<Slot>) {
    forall i :: 0 <= i < |tape| ==> !tape[i].fails
  }

  lemma StaysVanished(w: World, e: Event, key: nat)
    requires OfCluster(e) && e != Land(key) && Vanished(w, key)
    ensures Vanished(Step(w, e), key)
  {
  }

  /** The store and the cluster as the guard holder meets them, one method for each of its calls. */
  class Site {
    var w: World
    ghost var trace: seq<Event>

    ghost predicate Valid()
      reads this
    {
      Inv(w) && w == Run(Init(), trace)
    }

    constructor ()
      ensures Valid() && w == Init() && trace == []
    {
      w := Init();
      trace := [];
    }

    method Act(e: Event)
      requires Valid()
      modifies this
      ensures Valid() && w == Step(old(w), e) && trace == old(trace) + [e]
    {
      StepKeepsInv(w, e);
      RunSnoc(Init(), trace, e);
      w := Step(w, e);
      trace := trace + [e];
    }

    /** Everything the cluster does around call n; true when that call then fails. */
    method Await(tape: seq<Slot>, n: nat) returns (failed: bool)
      requires Valid() && ClusterOnly(tape) && !w.pc.Free?
      modifies this
      ensures Valid() && old(trace) <= trace && w.record == old(w.record) && w.purges == old(w.purges)
      ensures w.pc == if failed then Held else old(w.pc)
      ensures failed == SlotAt(tape, n).fails
      ensures forall k :: NothingLands(tape, k) && Vanished(old(w), k) ==> Vanished(w, k)
    {
      var others := SlotAt(tape, n).others;
      var i := 0;
      while i < |others|
        invariant i <= |others|
        invariant Valid() && old(trace) <= trace
        invariant w.pc == old(w.pc) && w.record == old(w.record) && w.purges == old(w.purges)
        invariant forall k :: NothingLands(tape, k) && Vanished(old(w), k) ==> Vanished(w, k)
      {
        assert others[i] in tape[n].others;
        forall k | NothingLands(tape, k) && Vanished(w, k) ensures Vanished(Step(w, others[i]), k) {
          StaysVanished(w, others[i], k);
        }
        ClusterLeavesTheHolder(w, others[i]);
        Act(others[i]);
        i := i + 1;
      }
      failed := SlotAt(tape, n).fails;
      if failed { Act(Abort(true)); }
    }

    method Identify() returns (key: nat, cluster: nat)
      requires Valid() && w.pc == Held && w.record.Some?
      modifies this
      ensures Valid() && old(trace) <= trace && key == old(w).record.value.key && cluster == old(w).cluster
      ensures w == old(w).(pc := Identified(key, cluster))
    {
      key, cluster := w.record.value.key, w.cluster;
      Act(Event.Identify);
    }

    method ReadBinding() returns (binding: Option<Binding>)
      requires Valid() && w.pc.Identified? && w.record.Some?
      modifies this
      ensures Valid() && old(trace) <= trace && binding == old(w).record.value.binding
      ensures w == old(w).(pc := Bound(old(w).pc.key, old(w).pc.cluster, binding))
    {
      binding := w.record.value.binding;
      Act(Event.ReadBinding);
    }

    method LookUp() returns (uid: Option<nat>)
      requires Valid() && w.pc.Bound?
      modifies this
      ensures Valid() && old(trace) <= trace && (uid.Some? <==> old(w).pc.key in old(w).cells)
      ensures var pc := old(w).pc;
              w == old(w).(pc := match uid
                                 case Some(id) => Seen(pc.key, pc.cluster, id)
                                 case None => Unseen(pc.key, pc.cluster, pc.binding))
    {
      uid := if w.pc.key in w.cells then Some(w.cells[w.pc.key]) else None;
      Act(Event.LookUp);
    }

    method BindSeen() returns (bound: bool)
      requires Valid() && w.pc.Seen?
      modifies this
      ensures Valid() && old(trace) <= trace && w.pc == Held && w.purges == old(w).purges
      ensures if bound then FilledIn(old(w).record, w.record) else w.record == old(w).record
    {
      bound := BindRuntime(w, w.pc.key, Binding(w.pc.cluster, Some(w.pc.uid))).Some?;
      Act(Event.BindSeen);
    }

    method Decide() returns (kept: bool)
      requires Valid() && w.pc.Unseen? && w.record.Some?
      modifies this
      ensures Valid() && old(trace) <= trace && kept == KeptIntent(old(w).pc.binding, old(w).pc.cluster, old(w).record.value.closing)
      ensures var pc := old(w).pc;
              w == old(w).(pc := if kept then Held else Condemned(pc.key, pc.cluster, pc.binding, old(w).record.value.closing))
    {
      kept := KeptIntent(w.pc.binding, w.pc.cluster, w.record.value.closing);
      Act(Event.Decide);
    }

    method VerifyCell() returns (absent: bool)
      requires Valid() && w.pc.Condemned?
      modifies this
      ensures Valid() && trace == old(trace) + [Event.VerifyCell] && absent == (old(w).pc.key !in old(w).cells)
      ensures var pc := old(w).pc;
              w == old(w).(pc := if absent then CellAbsent(pc.key, pc.cluster, pc.binding, pc.closing, pc.key in old(w).inflight) else Held)
    {
      absent := w.pc.key !in w.cells;
      Act(Event.VerifyCell);
    }

    method VerifyNamespace() returns (absent: bool)
      requires Valid() && w.pc.CellAbsent?
      modifies this
      ensures Valid() && trace == old(trace) + [Event.VerifyNamespace] && absent == (old(w).pc.key !in old(w).namespaces)
      ensures var pc := old(w).pc;
              w == old(w).(pc := if absent then BothAbsent(pc.key, pc.cluster, pc.binding, pc.closing, pc.pending) else Held)
    {
      absent := w.pc.key !in w.namespaces;
      Act(Event.VerifyNamespace);
    }

    method PurgeRecord()
      requires Valid() && w.pc.BothAbsent?
      modifies this
      ensures Valid() && old(trace) <= trace && w.pc == Held && w.record == None
      ensures old(w).record.Some? && |w.purges| == |old(w).purges| + 1
      ensures w.purges[|old(w).purges|].key == old(w).pc.key == old(w).record.value.key
    {
      Act(Event.PurgeRecord);
    }
  }

  /** Whether a step of `reconcile_name` settled the call: Some(outcome), or None to go on. */
  datatype Verdict = Retained | Failed | GoOn

  /** The same incarnation, with the same closing mark; its binding may have been filled in from the object seen. */
  predicate FilledIn(r: Option<Record>, r': Option<Record>) {
    match (r, r')
    case (None, None) => true
    case (Some(x), Some(y)) =>
      && y.key == x.key && y.closing == x.closing
      && (x.binding.Some? ==>
            && y.binding.Some? && y.binding.value.cluster == x.binding.value.cluster
            && (x.binding.value.uid.Some? ==> y.binding == x.binding))
    case _ => false
  }

  /**
   The reads `verify_absent` makes for a purge, in their order, among the calls since `from`:
   the cell was absent when it was read, and later its namespace when that was read.
  */
  ghost predicate AbsenceRead(trace: seq<Event>, from: nat, key: nat) {
    exists i: nat, j: nat ::
      && from <= i < j < |trace| && trace[i] == VerifyCell && trace[j] == VerifyNamespace
      && key !in Run(Init(), trace[..i]).cells && key !in Run(Init(), trace[..j]).namespaces
  }

  /** Every call is answered, and cell and namespace are gone and stay so. */
  predicate Purgeable(w: World, tape: seq<Slot>)
    requires w.record.Some?
  {
    AllAnswered(tape) && Vanished(w, w.record.value.key) && NothingLands(tape, w.record.value.key)
  }

  /** The record is an intent to be kept, as the cluster is identified now. */
  predicate IsIntent(w: World)
    requires w.record.Some?
  {
    KeptIntent(w.record.value.binding, w.cluster, w.record.value.closing)
  }

  /** Identity, binding, object: retain what exists and what is still an intent. */
  method Examine(site: Site, tape: seq<Slot>) returns (verdict: Verdict)
    requires site.Valid() && site.w.pc == Held && site.w.record.Some? && ClusterOnly(tape)
    modifies site
    ensures site.Valid() && old(site.trace) <= site.trace && site.w.purges == old(site.w).purges
    ensures if verdict == Retained then FilledIn(old(site.w).record, site.w.record) else site.w.record == old(site.w).record
    ensures if verdict == GoOn then site.w.pc.Condemned? && site.w.pc.key == site.w.record.value.key else site.w.pc == Held
    ensures Purgeable(old(site.w), tape) ==>
              && verdict == (if IsIntent(old(site.w)) then Retained else GoOn)
              && Vanished(site.w, old(site.w).record.value.key)
  {
    var key, cluster := site.Identify();
    var failed := site.Await(tape, 0);
    if failed { return Failed; }
    var binding := site.ReadBinding();
    failed := site.Await(tape, 1);
    if failed { return Failed; }
    var uid := site.LookUp();
    failed := site.Await(tape, 2);
    if failed { return Failed; }
    if uid.Some? {
      var bound := site.BindSeen();
      return if bound then Retained else Failed;
    }
    var kept := site.Decide();
    return if kept then Retained else GoOn;
  }

  /** `verify_absent` reads the cell first and its namespace second; only then is the record purged. */
  method VerifyAndPurge(site: Site, tape: seq<Slot>) returns (purged: bool)
    requires site.Valid() && site.w.pc.Condemned? && ClusterOnly(tape)
    modifies site
    ensures site.Valid() && site.w.pc == Held && old(site.trace) <= site.trace
    ensures purged ==>
              && old(site.w).record.Some? && site.w.record == None && |site.w.purges| == |old(site.w).purges| + 1
              && site.w.purges[|old(site.w).purges|].key == old(site.w).record.value.key
              && AbsenceRead(site.trace, |old(site.trace)|, old(site.w).record.value.key)
    ensures !purged ==> site.w.record == old(site.w).record && site.w.purges == old(site.w).purges
    ensures AllAnswered(tape) && Vanished(old(site.w), old(site.w).pc.key) && NothingLands(tape, old(site.w).pc.key) ==> purged
  {
    var failed := site.Await(tape, 3);
    if failed { return false; }
    ghost var key, i := site.w.pc.key, |site.trace|;
    label cell:
    var absent := site.VerifyCell();
    if !absent { return false; }
    failed := site.Await(tape, 4);
    if failed { return false; }
    ghost var j := |site.trace|;
    label namespace:
    absent := site.VerifyNamespace();
    if !absent { return false; }
    failed := site.Await(tape, 5);
    if failed { return false; }
    site.PurgeRecord();
    assert site.trace[..i] == old@cell(site.trace) && site.trace[..j] == old@namespace(site.trace);
    return true;
  }

  /**
   `reconcile_name`, under the guard: Some(true) when an old incarnation was purged,
   Some(false) when the record is retained or there is none, None for an error.
  */
  method ReconcileName(site: Site, tape: seq<Slot>) returns (purged: Option<bool>)
    requires site.Valid() && site.w.pc == Held && ClusterOnly(tape)
    modifies site
    ensures site.Valid() && site.w.pc == Held && old(site.trace) <= site.trace
    ensures purged == Some(true) ==>
              && old(site.w).record.Some? && site.w.record == None && |site.w.purges| == |old(site.w).purges| + 1
              && site.w.purges[|old(site.w).purges|].key == old(site.w).record.value.key
              && AbsenceRead(site.trace, |old(site.trace)|, old(site.w).record.value.key)
    ensures purged != Some(true) ==> site.w.purges == old(site.w).purges && FilledIn(old(site.w).record, site.w.record)
    ensures purged == None ==> site.w.record == old(site.w).record
    ensures old(site.w).record.Some? && Purgeable(old(site.w), tape) ==> purged == Some(!IsIntent(old(site.w)))
  {
    if site.w.record.None? {
      var failed := site.Await(tape, 0);
      return if failed then None else Some(false);
    }
    var verdict := Examine(site, tape);
    if verdict != GoOn { return if verdict == Retained then Some(false) else None; }
    ghost var from := |site.trace|;
    var done := VerifyAndPurge(site, tape);
    assert done ==> AbsenceRead(site.trace, |old(site.trace)|, old(site.w).record.value.key) by {
      if done {
        assert AbsenceRead(site.trace, from, old(site.w).record.value.key);
      }
    }
    return if done then Some(true) else None;
  }
}
