/**
 The cell update protocol: a durable store holding the desired revision and its
 generation, a cluster object guarded by `resourceVersion`, any number of clients
 running `reconcile`, and a controller that writes status and deletes the object.

 One event is one atomic action. A client's pass is broken at every point where the
 source awaits or starts another transaction, so `Run` over all event sequences is
 every interleaving, with crashes.
*/
module Updates {
  import opened Wrappers

  type Revision = nat

  // The retry loop of `reconcile` runs attempts 0..4.
  const ATTEMPTS: nat := 4
  // A generation is stored as a non-negative i64.
  const MAX_GENERATION: nat := 0x7FFF_FFFF_FFFF_FFFF

  datatype Phase = Pending | Blocked | Ready | Closing | CleanupBlocked

  datatype Status = Status(observedDesired: nat, observedRevision: Option<Revision>,
                           observedGeneration: Option<nat>, phase: Phase)

  const DEFAULT_STATUS := Status(0, None, None, Pending)

  /** `desired` is the desired-generation annotation, `generation` the API server's own counter of spec changes. */
  datatype Cell = Cell(uid: nat, version: nat, revision: Revision, desired: Option<nat>,
                       generation: nat, deleting: bool, status: Option<Status>)

  /** What one query of the instance row returns: desired generation and revision together. */
  datatype Instance = Instance(generation: nat, revision: Revision)

  datatype Outcome =
    | Reconciled(phase: Phase)
    | ClosingSeen
    | Missing
    | NotOpen
    | Superseded
    | Conflict
    | Failed

  /** A client's progress through one call of `reconcile`, with exactly what it has read in this attempt. */
  datatype Pass =
    | Idle
    | Starting(attempt: nat)
    | HasInstance(attempt: nat, instance: Instance)
    | HasState(attempt: nat, instance: Instance, generation: nat)
    | Replacing(attempt: nat, instance: Instance, generation: nat, cell: Cell)
    | Observed(attempt: nat, instance: Instance, generation: nat, cell: Cell)
    | Finished(outcome: Outcome)

  datatype Report = Report(uid: nat, status: Status)

  /** One effective call of `mark_update_applied`, with the reads it was based on. */
  datatype Mark = Mark(instance: Instance, generation: nat, cell: Cell)

  /**
   `history[g - 1]` is the revision accepted as generation g, so the store's desired
   generation is its length. `reports` and `marks` only record what happened.
  */
  datatype World = World(history: seq<Revision>, closing: bool, applied: nat,
                         cell: Option<Cell>, nextVersion: nat, nextUid: nat,
                         clients: map<nat, Pass>, reports: set<Report>, marks: seq<Mark>)

  datatype Event =
    // Store
    | Edit(revision: Revision)
    | BeginClose
    // A client
    | Begin(c: nat)
    | ReadInstance(c: nat)
    | ReadState(c: nat)
    | Fetch(c: nat)
    | Replace(c: nat)
    | Finish(c: nat, expired: bool)
    | Error(c: nat, conflict: bool)
    | Crash(c: nat)
    // Everybody else who writes the object
    | Create(generation: nat)
    | WriteStatus(status: Status)
    | OtherWrite
    | RequestDelete
    | Finalize

  function Init(revision: Revision): World {
    World([revision], false, 1, None, 0, 0, map[], {}, [])
  }

  function PassOf(w: World, c: nat): Pass {
    if c in w.clients then w.clients[c] else Idle
  }

  function SetPass(w: World, c: nat, x: Pass): World {
    w.(clients := w.clients[c := x])
  }

  function Current(w: World): Instance
    requires |w.history| > 0
  {
    Instance(|w.history|, w.history[|w.history| - 1])
  }

  /** A missing or unparsable annotation counts as generation 1. */
  function DesiredOf(cell: Cell): nat {
    cell.desired.GetOr(1)
  }

  predicate Open(cell: Cell) {
    !cell.deleting && !(cell.status.Some? && cell.status.value.phase in {Closing, CleanupBlocked})
  }

  predicate UpToDate(instance: Instance, generation: nat, cell: Cell) {
    cell.revision == instance.revision && DesiredOf(cell) == generation
  }

  /** Expiry can only withdraw Ready; a status observed for anything else is not Ready either. */
  function PhaseOf(instance: Instance, cell: Cell, expired: bool): Phase {
    var status := cell.status.GetOr(DEFAULT_STATUS);
    var phase := if expired && status.phase == Ready then Pending else status.phase;
    if (|| status.observedDesired != instance.generation
        || status.observedRevision != Some(instance.revision)
        || status.observedGeneration != Some(cell.generation)) && phase == Ready
    then Pending else phase
  }

  /** The API server stores the object under a fresh resource version. */
  function Store(w: World, cell: Cell): World {
    w.(cell := Some(cell.(version := w.nextVersion)), nextVersion := w.nextVersion + 1)
  }

  /** A 409 restarts the whole pass from fresh reads, except on the last attempt. */
  function OnConflict(w: World, c: nat, attempt: nat): World {
    SetPass(w, c, if attempt < ATTEMPTS - 1 then Starting(attempt + 1) else Finished(Conflict))
  }

  function FetchStep(w: World, c: nat, x: Pass): World
    requires x.HasState?
  {
    if w.cell.None? then SetPass(w, c, Finished(Missing))
    else
      var cell := w.cell.value;
      if !Open(cell) then SetPass(w, c, Finished(NotOpen))
      else if DesiredOf(cell) > x.generation then SetPass(w, c, Finished(Superseded))
      else if UpToDate(x.instance, x.generation, cell) then
        SetPass(w, c, Observed(x.attempt, x.instance, x.generation, cell))
      else SetPass(w, c, Replacing(x.attempt, x.instance, x.generation, cell))
  }

  /** The body sent by `replace`: the fetched object with the spec and annotation overwritten. */
  function Desired(x: Pass): Cell
    requires x.Replacing?
  {
    x.cell.(revision := x.instance.revision, desired := Some(x.generation),
            generation := if x.cell.revision == x.instance.revision then x.cell.generation else x.cell.generation + 1)
  }

  function ReplaceStep(w: World, c: nat, x: Pass): World
    requires x.Replacing?
  {
    if w.cell.None? then SetPass(w, c, Finished(Failed))
    else if w.cell.value.version != x.cell.version then OnConflict(w, c, x.attempt)
    else
      var w' := Store(w, Desired(x));
      SetPass(w', c, Observed(x.attempt, x.instance, x.generation, w'.cell.value))
  }

  /** `mark_update_applied`: ignored unless the generation is still the desired one. */
  function MarkApplied(w: World, mark: Mark): World {
    if |w.history| != mark.generation then w
    else w.(applied := if w.applied < mark.generation then mark.generation else w.applied, marks := w.marks + [mark])
  }

  function FinishStep(w: World, c: nat, x: Pass, expired: bool): World
    requires x.Observed?
  {
    var phase := PhaseOf(x.instance, x.cell, expired);
    var w' := if phase == Ready then MarkApplied(w, Mark(x.instance, x.generation, x.cell)) else w;
    SetPass(w', c, Finished(Reconciled(phase)))
  }

  predicate Working(x: Pass) {
    !x.Idle? && !x.Finished?
  }

  /** One atomic action; an event that cannot happen now changes nothing. */
  function Step(w: World, e: Event): World
    requires |w.history| > 0
  {
    match e
    case Edit(r) => if w.closing || |w.history| >= MAX_GENERATION then w else w.(history := w.history + [r])
    case BeginClose => w.(closing := true)
    case Begin(c) => if Working(PassOf(w, c)) then w else SetPass(w, c, Starting(0))
    case ReadInstance(c) =>
      var x := PassOf(w, c);
      if x.Starting? then SetPass(w, c, HasInstance(x.attempt, Current(w))) else w
    case ReadState(c) =>
      var x := PassOf(w, c);
      if !x.HasInstance? then w
      else if w.closing then SetPass(w, c, Finished(ClosingSeen))
      else SetPass(w, c, HasState(x.attempt, x.instance, |w.history|))
    case Fetch(c) => var x := PassOf(w, c); if x.HasState? then FetchStep(w, c, x) else w
    case Replace(c) => var x := PassOf(w, c); if x.Replacing? then ReplaceStep(w, c, x) else w
    case Finish(c, expired) => var x := PassOf(w, c); if x.Observed? then FinishStep(w, c, x, expired) else w
    case Error(c, conflict) =>
      var x := PassOf(w, c);
      if !Working(x) then w
      else if conflict then OnConflict(w, c, x.attempt)
      else SetPass(w, c, Finished(Failed))
    case Crash(c) => SetPass(w, c, Idle)
    case Create(g) =>
      if w.cell.Some? || !(1 <= g <= |w.history|) then w
      else Store(w.(nextUid := w.nextUid + 1), Cell(w.nextUid, 0, w.history[g - 1], None, 1, false, None))
    case WriteStatus(s) =>
      if w.cell.None? then w
      else Store(w.(reports := w.reports + {Report(w.cell.value.uid, s)}), w.cell.value.(status := Some(s)))
    case OtherWrite => if w.cell.None? then w else Store(w, w.cell.value)
    case RequestDelete =>
      if w.cell.None? || w.cell.value.deleting then w
      else Store(w, w.cell.value.(deleting := true, generation := w.cell.value.generation + 1))
    case Finalize => if w.cell.Some? && w.cell.value.deleting then w.(cell := None) else w
  }

  function Run(w: World, events: seq<Event>): (w': World)
    requires |w.history| > 0
    ensures w.history <= w'.history
    decreases |events|
  {
    if events == [] then w
    else
      StepKeepsHistory(w, events[0]);
      Run(Step(w, events[0]), events[1..])
  }

  lemma StepKeepsHistory(w: World, e: Event)
    requires |w.history| > 0
    ensures w.history <= Step(w, e).history
  {
  }

  lemma {:induction false} RunConcat(w: World, first: seq<Event>, second: seq<Event>)
    requires |w.history| > 0
    ensures Run(w, first + second) == Run(Run(w, first), second)
    decreases |first|
  {
    if first == [] {
      assert first + second == second;
    } else {
      assert (first + second)[1..] == first[1..] + second;
      RunConcat(Step(w, first[0]), first[1..], second);
    }
  }

  // ---------------------------------------------------------------- invariants

  /** How the shared part of the world may move, whoever acts. */
  ghost predicate Grows(w: World, w': World) {
    && w.history <= w'.history
    && w.applied <= w'.applied
    && w.nextVersion <= w'.nextVersion
    && w.nextUid <= w'.nextUid
    && w.reports <= w'.reports
    && w.marks <= w'.marks
       // an old resource version is never stored again with other content
    && (w'.cell.Some? && w'.cell.value.version < w.nextVersion ==> w'.cell == w.cell)
       // an old incarnation is never recreated, and its desired generation never decreases
    && (w'.cell.Some? && w'.cell.value.uid < w.nextUid ==>
          w.cell.Some? && w.cell.value.uid == w'.cell.value.uid && DesiredOf(w.cell.value) <= DesiredOf(w'.cell.value))
  }

  ghost predicate CellOk(w: World, cell: Cell) {
    && cell.version < w.nextVersion
    && cell.uid < w.nextUid
    && DesiredOf(cell) <= |w.history|
    && (cell.status.Some? ==> Report(cell.uid, cell.status.value) in w.reports)
  }

  /** A copy a client holds: if its version is still stored, so is its content. */
  ghost predicate CopyOk(w: World, cell: Cell) {
    CellOk(w, cell) && (w.cell.Some? && w.cell.value.version == cell.version ==> w.cell.value == cell)
  }

  ghost predicate InstanceOk(w: World, i: Instance) {
    1 <= i.generation <= |w.history| && w.history[i.generation - 1] == i.revision
  }

  ghost predicate ReadsOk(w: World, i: Instance, g: nat) {
    InstanceOk(w, i) && i.generation <= g <= |w.history|
  }

  ghost predicate PassOk(w: World, x: Pass) {
    match x
    case Idle => true
    case Finished(_) => true
    case Starting(a) => a < ATTEMPTS
    case HasInstance(a, i) => a < ATTEMPTS && InstanceOk(w, i)
    case HasState(a, i, g) => a < ATTEMPTS && ReadsOk(w, i, g)
    case Replacing(a, i, g, cell) => a < ATTEMPTS && ReadsOk(w, i, g) && CopyOk(w, cell) && DesiredOf(cell) <= g && !UpToDate(i, g, cell)
    case Observed(a, i, g, cell) => a < ATTEMPTS && ReadsOk(w, i, g) && CopyOk(w, cell) && UpToDate(i, g, cell)
  }

  /** What each recorded mark was based on. */
  ghost predicate MarkOk(w: World, m: Mark) {
    && ReadsOk(w, m.instance, m.generation)
    && CellOk(w, m.cell)
    && UpToDate(m.instance, m.generation, m.cell)
    && m.cell.status == Some(Status(m.instance.generation, Some(m.instance.revision), Some(m.cell.generation), Ready))
  }

  ghost predicate Inv(w: World) {
    && 1 <= w.applied <= |w.history| <= MAX_GENERATION
    && (w.cell.Some? ==> CellOk(w, w.cell.value))
    && (forall c :: c in w.clients ==> PassOk(w, w.clients[c]))
    && (forall m :: m in w.marks ==> MarkOk(w, m))
  }

  lemma GrowsTransitive(a: World, b: World, c: World)
    requires Grows(a, b) && Grows(b, c)
    ensures Grows(a, c)
  {
  }

  lemma PassStable(w: World, w': World, x: Pass)
    requires Grows(w, w') && PassOk(w, x)
    ensures PassOk(w', x)
  {
  }

  lemma MarkStable(w: World, w': World, m: Mark)
    requires Grows(w, w') && MarkOk(w, m)
    ensures MarkOk(w', m)
  {
  }

  /** Only the acting client's own state and an added mark need a look of their own. */
  lemma InvFromGrows(w: World, w': World, c: nat)
    requires Inv(w) && Grows(w, w')
    requires w'.applied <= |w'.history| <= MAX_GENERATION
    requires w'.cell.Some? ==> CellOk(w', w'.cell.value)
    requires forall d :: d in w'.clients && d != c ==> d in w.clients && w'.clients[d] == w.clients[d]
    requires c in w'.clients ==> PassOk(w', w'.clients[c])
    requires forall m :: m in w'.marks ==> m in w.marks || MarkOk(w', m)
    ensures Inv(w')
  {
    forall d | d in w'.clients ensures PassOk(w', w'.clients[d]) {
      if d != c { PassStable(w, w', w.clients[d]); }
    }
    forall m | m in w'.marks ensures MarkOk(w', m) {
      if m in w.marks { MarkStable(w, w', m); }
    }
  }

  function Actor(e: Event): Option<nat> {
    match e
    case Begin(c) => Some(c)
    case ReadInstance(c) => Some(c)
    case ReadState(c) => Some(c)
    case Fetch(c) => Some(c)
    case Replace(c) => Some(c)
    case Finish(c, _) => Some(c)
    case Error(c, _) => Some(c)
    case Crash(c) => Some(c)
    case _ => None
  }

  lemma ReplaceKeepsInv(w: World, c: nat)
    requires Inv(w)
    ensures Grows(w, Step(w, Replace(c))) && Inv(Step(w, Replace(c)))
  {
    var x, w' := PassOf(w, c), Step(w, Replace(c));
    if x.Replacing? { InvFromGrows(w, w', c); }
  }

  lemma FinishKeepsInv(w: World, c: nat, expired: bool)
    requires Inv(w)
    ensures Grows(w, Step(w, Finish(c, expired))) && Inv(Step(w, Finish(c, expired)))
  {
    var x, w' := PassOf(w, c), Step(w, Finish(c, expired));
    if x.Observed? { InvFromGrows(w, w', c); }
  }

  /** Everybody but the two writing steps of a pass. */
  lemma OtherStepGrows(w: World, e: Event)
    requires Inv(w) && !e.Replace? && !e.Finish?
    ensures Grows(w, Step(w, e))
  {
  }

  lemma SharedStepKeepsInv(w: World, e: Event)
    requires Inv(w) && Actor(e).None?
    ensures Inv(Step(w, e))
  {
    var w' := Step(w, e);
    OtherStepGrows(w, e);
    if 0 in w.clients { PassStable(w, w', w.clients[0]); }
    InvFromGrows(w, w', 0);
  }

  lemma FetchKeepsInv(w: World, c: nat)
    requires Inv(w)
    ensures Inv(Step(w, Fetch(c)))
  {
    OtherStepGrows(w, Fetch(c));
    assert PassOk(w, PassOf(w, c));
    InvFromGrows(w, Step(w, Fetch(c)), c);
  }

  lemma ReadStepKeepsInv(w: World, e: Event)
    requires Inv(w) && Actor(e).Some? && !e.Replace? && !e.Finish? && !e.Fetch?
    ensures Inv(Step(w, e))
  {
    OtherStepGrows(w, e);
    var c := Actor(e).value;
    assert PassOk(w, PassOf(w, c));
    InvFromGrows(w, Step(w, e), c);
  }

  lemma StepKeepsInv(w: World, e: Event)
    requires Inv(w)
    ensures Grows(w, Step(w, e)) && Inv(Step(w, e))
  {
    match e
    case Replace(c) => ReplaceKeepsInv(w, c);
    case Finish(c, expired) => FinishKeepsInv(w, c, expired);
    case Fetch(c) =>
      OtherStepGrows(w, e);
      FetchKeepsInv(w, c);
    case _ =>
      OtherStepGrows(w, e);
      if Actor(e).Some? { ReadStepKeepsInv(w, e); } else { SharedStepKeepsInv(w, e); }
  }

  lemma {:induction false} RunKeepsInv(w: World, events: seq<Event>)
    requires Inv(w)
    ensures Inv(Run(w, events)) && Grows(w, Run(w, events))
    decreases |events|
  {
    if events != [] {
      var w1 := Step(w, events[0]);
      StepKeepsInv(w, events[0]);
      RunKeepsInv(w1, events[1..]);
      GrowsTransitive(w, w1, Run(w1, events[1..]));
    }
  }

  lemma Reachable(revision: Revision, events: seq<Event>)
    ensures Inv(Run(Init(revision), events))
  {
    RunKeepsInv(Init(revision), events);
  }

  // ---------------------------------------------------------------- no stale overwrite

  /** In every interleaving, the desired generation of one incarnation never decreases. */
  lemma DesiredGenerationNeverDecreases(revision: Revision, before: seq<Event>, after: seq<Event>)
    ensures var w := Run(Init(revision), before);
            var w' := Run(w, after);
            w.cell.Some? && w'.cell.Some? && w.cell.value.uid == w'.cell.value.uid
            ==> DesiredOf(w.cell.value) <= DesiredOf(w'.cell.value)
  {
    Reachable(revision, before);
    RunKeepsInv(Run(Init(revision), before), after);
  }

  /** A replace that goes through replaced exactly the object the client had read, and never a newer generation. */
  lemma ReplaceIsNeverStale(w: World, c: nat)
    requires Inv(w) && PassOf(w, c).Replacing?
    ensures var x, w' := PassOf(w, c), Step(w, Replace(c));
            w'.cell != w.cell ==>
              && w.cell == Some(x.cell)
              && DesiredOf(w.cell.value) <= x.generation
              && w'.cell == Some(Desired(x).(version := w.nextVersion))
  {
    assert PassOk(w, PassOf(w, c));
  }

  // ---------------------------------------------------------------- applied

  ghost predicate ReadyReported(w: World, m: Mark, generation: nat, revision: Revision) {
    Report(m.cell.uid, Status(generation, Some(revision), Some(m.cell.generation), Ready)) in w.reports
  }

  /**
   The controller's Ready that a mark counted was an observation of exactly the
   generation and revision marked, if and only if the pass had read the instance
   and the update state at one generation.
  */
  lemma AppliedCountsTheMarkedGenerationIffReadsAgree(revision: Revision, events: seq<Event>, i: nat)
    requires i < |Run(Init(revision), events).marks|
    ensures var w := Run(Init(revision), events);
            var m := w.marks[i];
            && 1 <= m.generation <= |w.history|
            && m.cell.status.Some?
            && ReadyReported(w, m, m.instance.generation, m.instance.revision)
            && (m.instance == Instance(m.generation, w.history[m.generation - 1])
                <==> m.instance.generation == m.generation)
            && (m.cell.status.value.observedDesired == m.generation <==> m.instance.generation == m.generation)
            && (m.instance.generation == m.generation ==> ReadyReported(w, m, m.generation, w.history[m.generation - 1]))
  {
    Reachable(revision, events);
    assert MarkOk(Run(Init(revision), events), Run(Init(revision), events).marks[i]);
  }

  // ---------------------------------------------------------------- convergence

  /** The cluster object carries exactly the store's desired revision and generation. */
  ghost predicate Settled(w: World)
    requires |w.history| > 0
  {
    w.cell.Some? && UpToDate(Current(w), |w.history|, w.cell.value)
  }

  /** Whatever the pass has read so far is what the store holds now. */
  ghost predicate Fresh(w: World, x: Pass)
    requires |w.history| > 0
  {
    match x
    case HasInstance(_, i) => i == Current(w)
    case HasState(_, i, g) => i == Current(w) && g == |w.history|
    case Replacing(_, i, g, _) => i == Current(w) && g == |w.history|
    case Observed(_, i, g, _) => i == Current(w) && g == |w.history|
    case _ => true
  }

  ghost predicate AllFresh(w: World)
    requires |w.history| > 0
  {
    forall c :: c in w.clients ==> Fresh(w, w.clients[c])
  }

  predicate Quiet(events: seq<Event>) {
    forall e :: e in events ==> !e.Edit?
  }

  lemma FreshStays(w: World, e: Event, c: nat)
    requires Inv(w) && !e.Edit? && Fresh(w, PassOf(w, c))
    ensures Fresh(Step(w, e), PassOf(Step(w, e), c))
  {
    if Actor(e) == Some(c) { FreshOwnStep(w, e, c); } else { OtherActorsLeaveThePass(w, e, c); }
    assert Step(w, e).history == w.history;
  }

  lemma FreshOwnStep(w: World, e: Event, c: nat)
    requires Inv(w) && Actor(e) == Some(c) && Fresh(w, PassOf(w, c))
    ensures Fresh(Step(w, e), PassOf(Step(w, e), c))
  {
  }

  lemma OtherActorsLeaveThePass(w: World, e: Event, c: nat)
    requires Inv(w) && Actor(e) != Some(c)
    ensures PassOf(Step(w, e), c) == PassOf(w, c)
  {
  }

  /** The step that completes a pass built from fresh reads leaves, or finds, the cluster settled. */
  lemma FreshPassSettles(w: World, e: Event, c: nat)
    requires Inv(w) && !e.Edit? && Fresh(w, PassOf(w, c))
    requires !PassOf(w, c).Observed? && PassOf(Step(w, e), c).Observed?
    ensures Settled(Step(w, e))
  {
    assert PassOk(w, PassOf(w, c));
  }

  ghost predicate Succeeded(x: Pass) {
    x.Observed? || (x.Finished? && x.outcome.Reconciled?)
  }

  /**
   Convergence: once the store stops changing, a pass begun afterwards that succeeds has
   brought the cluster to exactly the desired revision and generation, from every
   reachable world (also one a torn read wrote to) and against every interleaving.
  */
  lemma {:induction false} PassConverges(w: World, events: seq<Event>, c: nat)
    requires Inv(w) && Quiet(events) && Fresh(w, PassOf(w, c)) && !Succeeded(PassOf(w, c))
    requires Succeeded(PassOf(Run(w, events), c))
    ensures exists k :: 0 <= k <= |events| && Settled(Run(w, events[..k]))
    decreases |events|
  {
    var e, rest := events[0], events[1..];
    StepKeepsInv(w, e);
    FreshStays(w, e, c);
    if PassOf(Step(w, e), c).Observed? {
      FreshPassSettles(w, e, c);
      RunTake(w, events, 0);
    } else {
      NotSucceededOtherwise(w, e, c);
      PassConverges(Step(w, e), rest, c);
      var k :| 0 <= k <= |rest| && Settled(Run(Step(w, e), rest[..k]));
      RunTake(w, events, k);
    }
  }

  lemma RunTake(w: World, events: seq<Event>, k: nat)
    requires |w.history| > 0 && k < |events|
    ensures Run(w, events[..k + 1]) == Run(Step(w, events[0]), events[1..][..k])
  {
    assert events[..k + 1][0] == events[0] && events[..k + 1][1..] == events[1..][..k];
  }

  lemma NotSucceededOtherwise(w: World, e: Event, c: nat)
    requires Inv(w) && !Succeeded(PassOf(w, c)) && !PassOf(Step(w, e), c).Observed?
    ensures !Succeeded(PassOf(Step(w, e), c))
  {
  }

  lemma AllFreshStays(w: World, e: Event)
    requires Inv(w) && !e.Edit? && AllFresh(w)
    ensures AllFresh(Step(w, e))
  {
    var w' := Step(w, e);
    forall c | c in w'.clients ensures Fresh(w', w'.clients[c]) {
      FreshStays(w, e, c);
    }
  }

  /** Once no pass holds reads from before the last edit, a settled incarnation stays settled. */
  lemma {:induction false} SettledStays(w: World, events: seq<Event>)
    requires Inv(w) && Quiet(events) && AllFresh(w) && Settled(w)
    ensures var w' := Run(w, events);
            w'.cell.Some? && w'.cell.value.uid == w.cell.value.uid ==> Settled(w')
    decreases |events|
  {
    if events != [] {
      var e, w1 := events[0], Step(w, events[0]);
      StepKeepsInv(w, e);
      AllFreshStays(w, e);
      RunKeepsInv(w1, events[1..]);
      if w1.cell.Some? && w1.cell.value.uid == w.cell.value.uid {
        assert Settled(w1) by { SettledStep(w, e); }
        SettledStays(w1, events[1..]);
      }
    }
  }

  lemma {:induction false} AllFreshThroughout(w: World, events: seq<Event>)
    requires Inv(w) && Quiet(events) && AllFresh(w)
    ensures Inv(Run(w, events)) && AllFresh(Run(w, events))
    decreases |events|
  {
    if events != [] {
      StepKeepsInv(w, events[0]);
      AllFreshStays(w, events[0]);
      AllFreshThroughout(Step(w, events[0]), events[1..]);
    }
  }

  /**
   Convergence to the end of the run: if no pass holds reads from before the last edit, the
   incarnation that a succeeding pass settled is still settled when the run ends.
  */
  lemma PassLeavesSettled(w: World, events: seq<Event>, c: nat)
    requires Inv(w) && Quiet(events) && AllFresh(w) && !Succeeded(PassOf(w, c))
    requires Succeeded(PassOf(Run(w, events), c))
    ensures exists k :: 0 <= k <= |events| && SettledFrom(w, events, k)
  {
    assert Fresh(w, PassOf(w, c)) by { if c in w.clients { assert Fresh(w, w.clients[c]); } }
    PassConverges(w, events, c);
    var k :| 0 <= k <= |events| && Settled(Run(w, events[..k]));
    SettledToTheEnd(w, events, k);
  }

  lemma SettledToTheEnd(w: World, events: seq<Event>, k: nat)
    requires Inv(w) && Quiet(events) && AllFresh(w) && k <= |events| && Settled(Run(w, events[..k]))
    ensures SettledFrom(w, events, k)
  {
    var first, rest := events[..k], events[k..];
    assert Quiet(first) && Quiet(rest);
    AllFreshThroughout(w, first);
    SettledStays(Run(w, first), rest);
    RunConcat(w, first, rest);
    assert first + rest == events;
  }

  /** Settled after k steps, and still at the end if the object has not been replaced by another one. */
  ghost predicate SettledFrom(w: World, events: seq<Event>, k: nat)
    requires |w.history| > 0 && k <= |events|
  {
    var at, end := Run(w, events[..k]), Run(w, events);
    Settled(at) && (end.cell.Some? && end.cell.value.uid == at.cell.value.uid ==> Settled(end))
  }

  /** A pass that ends because the cell is closing saw it closing, and changed neither the object nor the mark. */
  lemma ClosingPassOnlyLooks(w: World, e: Event, c: nat)
    requires Inv(w) && PassOf(w, c) != Finished(ClosingSeen) && PassOf(Step(w, e), c) == Finished(ClosingSeen)
    ensures var w' := Step(w, e);
            w.closing && w'.closing && w'.cell == w.cell && w'.applied == w.applied && w'.marks == w.marks
  {
  }

  lemma SettledStep(w: World, e: Event)
    requires Inv(w) && !e.Edit? && AllFresh(w) && Settled(w)
    requires Step(w, e).cell.Some? && Step(w, e).cell.value.uid == w.cell.value.uid
    ensures Settled(Step(w, e))
  {
    if e.Replace? { assert PassOk(w, PassOf(w, e.c)); }
  }

  /**
   A replace undoes a settled cluster exactly when it goes through, and then it was
   built from an instance read older than its state read: comparing the two
   generations before writing would rule it out.
  */
  lemma OnlyTornReadsUnsettle(w: World, c: nat)
    requires Inv(w) && Settled(w)
    ensures var x := PassOf(w, c);
            && (!Settled(Step(w, Replace(c))) <==> x.Replacing? && x.cell.version == w.cell.value.version)
            && (!Settled(Step(w, Replace(c))) ==> x.instance.generation < x.generation)
  {
    assert PassOk(w, PassOf(w, c));
  }

  // ---------------------------------------------------------------- at most four attempts

  predicate Restarted(w: World, e: Event, c: nat)
    requires |w.history| > 0
  {
    PassOf(Step(w, e), c).Starting? && PassOf(w, c) != PassOf(Step(w, e), c)
  }

  /** How often a pass of client c is restarted by a conflict during a run. */
  function Restarts(w: World, events: seq<Event>, c: nat): nat
    requires |w.history| > 0
    decreases |events|
  {
    if events == [] then 0
    else
      StepKeepsHistory(w, events[0]);
      (if Restarted(w, events[0], c) then 1 else 0) + Restarts(Step(w, events[0]), events[1..], c)
  }

  lemma RestartStep(w: World, e: Event, c: nat)
    requires Inv(w) && e != Begin(c) && e != Crash(c)
    ensures var x, x' := PassOf(w, c), PassOf(Step(w, e), c);
            if Working(x) && Working(x') then x'.attempt == x.attempt + (if Restarted(w, e, c) then 1 else 0) < ATTEMPTS
            else !Working(x') && !Restarted(w, e, c)
  {
    assert PassOk(w, PassOf(w, c));
  }

  /** One call makes at most four attempts: three restarts, and each forgets everything read before. */
  lemma {:induction false} AtMostFourAttempts(w: World, events: seq<Event>, c: nat)
    requires Inv(w) && Begin(c) !in events && Crash(c) !in events
    ensures (if Working(PassOf(w, c)) then PassOf(w, c).attempt else ATTEMPTS - 1) + Restarts(w, events, c) <= ATTEMPTS - 1
    decreases |events|
  {
    assert PassOk(w, PassOf(w, c));
    if events != [] {
      StepKeepsInv(w, events[0]);
      RestartStep(w, events[0], c);
      AtMostFourAttempts(Step(w, events[0]), events[1..], c);
    }
  }

  // ---------------------------------------------------------------- what a torn read does

  /** An edit between the two store reads of one pass. */
  function TornPrefix(c: nat, r: Revision): seq<Event> {
    [Begin(c), ReadInstance(c), Edit(r), ReadState(c)]
  }

  function Torn(w: World, c: nat, r: Revision): World
    requires |w.history| > 0
  {
    SetPass(w.(history := w.history + [r]), c, HasState(0, Current(w), |w.history| + 1))
  }

  ghost predicate CanBeTorn(w: World, c: nat) {
    Inv(w) && !w.closing && |w.history| < MAX_GENERATION && !Working(PassOf(w, c)) && Settled(w) && Open(w.cell.value)
  }

  lemma TornRead(w: World, c: nat, r: Revision)
    requires CanBeTorn(w, c)
    ensures Run(w, TornPrefix(c, r)) == Torn(w, c, r)
  {
    var es := TornPrefix(c, r);
    var w1 := SetPass(w, c, Starting(0));
    var w2 := SetPass(w, c, HasInstance(0, Current(w)));
    assert w1.clients[c := HasInstance(0, Current(w))] == w2.clients;
    var w3 := w2.(history := w.history + [r]);
    assert w3.clients[c := HasState(0, Current(w), |w.history| + 1)] == Torn(w, c, r).clients;
    assert Run(w, es) == Run(w1, es[1..]);
    assert Run(w1, es[1..]) == Run(w2, es[2..]) by { assert es[1..][1..] == es[2..]; }
    assert Run(w2, es[2..]) == Run(w3, es[3..]) by { assert es[2..][1..] == es[3..]; }
    assert Run(w3, es[3..]) == Torn(w, c, r) by { assert es[3..][1..] == []; }
  }

  /** The rest of a pass whose writing step goes through. */
  function WriteSuffix(c: nat): seq<Event> {
    [Fetch(c), Replace(c)]
  }

  ghost predicate CanWrite(w: World, x: Pass) {
    && x.HasState? && w.cell.Some? && Open(w.cell.value)
    && DesiredOf(w.cell.value) <= x.generation && !UpToDate(x.instance, x.generation, w.cell.value)
  }

  /** The object a pass stores when nothing intervenes between its fetch and its replace. */
  function Written(w: World, x: Pass): Cell
    requires x.HasState? && w.cell.Some?
  {
    Desired(Replacing(x.attempt, x.instance, x.generation, w.cell.value)).(version := w.nextVersion)
  }

  function AfterWrite(w: World, c: nat, x: Pass): World
    requires x.HasState? && w.cell.Some?
  {
    SetPass(w.(cell := Some(Written(w, x)), nextVersion := w.nextVersion + 1), c,
            Observed(x.attempt, x.instance, x.generation, Written(w, x)))
  }

  lemma WriteRun(w: World, c: nat)
    requires Inv(w) && CanWrite(w, PassOf(w, c))
    ensures Run(w, WriteSuffix(c)) == AfterWrite(w, c, PassOf(w, c)) && Inv(Run(w, WriteSuffix(c)))
  {
    var x := PassOf(w, c);
    var w1 := SetPass(w, c, Replacing(x.attempt, x.instance, x.generation, w.cell.value));
    WriteSteps(w, c, w1);
    assert Run(w, WriteSuffix(c)) == Run(w1, [Replace(c)]) by { assert WriteSuffix(c)[1..] == [Replace(c)]; }
    assert Run(w1, [Replace(c)]) == Step(w1, Replace(c)) by { assert [Replace(c)][1..] == []; }
    RunKeepsInv(w, WriteSuffix(c));
  }

  lemma WriteSteps(w: World, c: nat, w1: World)
    requires Inv(w) && CanWrite(w, PassOf(w, c))
    requires var x := PassOf(w, c); w1 == SetPass(w, c, Replacing(x.attempt, x.instance, x.generation, w.cell.value))
    ensures Step(w, Fetch(c)) == w1
    ensures Step(w1, Replace(c)) == AfterWrite(w, c, PassOf(w, c))
  {
    var x, x1 := PassOf(w, c), PassOf(w1, c);
    assert w1.clients[c := Observed(x.attempt, x.instance, x.generation, Written(w, x))]
        == w.clients[c := Observed(x.attempt, x.instance, x.generation, Written(w, x))];
  }

  /** Where a torn pass leaves a settled cluster: the old revision under the new generation. */
  function TornWritten(w: World, c: nat, r: Revision): World
    requires |w.history| > 0 && w.cell.Some?
  {
    var cell := w.cell.value.(desired := Some(|w.history| + 1), version := w.nextVersion);
    SetPass(w.(history := w.history + [r], cell := Some(cell), nextVersion := w.nextVersion + 1), c,
            Observed(0, Current(w), |w.history| + 1, cell))
  }

  lemma TornAfterWrite(w: World, c: nat, r: Revision)
    requires CanBeTorn(w, c)
    ensures var w1 := Torn(w, c, r);
            && CanWrite(w1, PassOf(w1, c))
            && AfterWrite(w1, c, PassOf(w1, c)) == TornWritten(w, c, r)
  {
    var x := TornWritten(w, c, r).clients[c];
    assert Torn(w, c, r).clients[c := x] == w.clients[c := x];
  }

  lemma TornThenWrite(w: World, c: nat, r: Revision)
    requires CanBeTorn(w, c)
    ensures Run(w, TornPrefix(c, r) + WriteSuffix(c)) == TornWritten(w, c, r)
  {
    TornRead(w, c, r);
    RunKeepsInv(w, TornPrefix(c, r));
    RunConcat(w, TornPrefix(c, r), WriteSuffix(c));
    TornAfterWrite(w, c, r);
    WriteRun(Torn(w, c, r), c);
  }

  ghost predicate ReadyAsDesired(w: World)
    requires |w.history| > 0
  {
    && w.cell.Some?
    && w.cell.value.status ==
         Some(Status(|w.history|, Some(w.history[|w.history| - 1]), Some(w.cell.value.generation), Ready))
  }

  /**
   From every settled, Ready cluster: an edit landing between the two reads of a pass
   is marked applied although no controller ever reported on it. The replace changes
   only the annotation, so the older Ready still matches the older instance.
  */
  lemma TornPassMarksUnseenUpdate(w: World, c: nat, r: Revision)
    requires CanBeTorn(w, c) && ReadyAsDesired(w)
    ensures var w' := Run(w, TornPrefix(c, r) + WriteSuffix(c) + [Finish(c, false)]);
            && w'.applied == |w'.history| == |w.history| + 1
            && Current(w').revision == r
            && w'.cell.Some? && w'.cell.value.revision == Current(w).revision
            && w'.reports == w.reports
  {
    var es := TornPrefix(c, r) + WriteSuffix(c);
    TornThenWrite(w, c, r);
    RunConcat(w, es, [Finish(c, false)]);
    var w1 := Run(w, es);
    assert Run(w1, [Finish(c, false)]) == Step(w1, Finish(c, false)) by { assert [Finish(c, false)][1..] == []; }
  }

  /**
   And while that torn pass waits to write, a pass with fresh reads may settle the
   cluster on the new revision, only for the torn one to put the old revision back
   under the new generation.
  */
  lemma TornPassUndoesNewerRevision(w: World, s: nat, c: nat, r: Revision)
    requires CanBeTorn(w, s) && s != c && !Working(PassOf(w, c)) && r != Current(w).revision
    ensures var settled := TornPrefix(s, r) + [Begin(c), ReadInstance(c), ReadState(c)] + WriteSuffix(c);
            && Settled(Run(w, settled))
            && !Settled(Run(Run(w, settled), WriteSuffix(s)))
            && Run(Run(w, settled), WriteSuffix(s)).cell.Some?
            && Run(Run(w, settled), WriteSuffix(s)).cell.value.revision == Current(w).revision
  {
    var again := [Begin(c), ReadInstance(c), ReadState(c)];
    TornRead(w, s, r);
    RunKeepsInv(w, TornPrefix(s, r));
    var w1 := Torn(w, s, r);
    RunConcat(w, TornPrefix(s, r), again);
    FreshReads(w1, c);
    RunKeepsInv(w1, again);
    var w2 := Run(w1, again);
    RunConcat(w, TornPrefix(s, r) + again, WriteSuffix(c));
    WriteRun(w2, c);
    var w3 := Run(w2, WriteSuffix(c));
    assert PassOf(w3, s) == PassOf(w1, s);
    WriteRun(w3, s);
  }

  lemma FreshReads(w: World, c: nat)
    requires Inv(w) && !w.closing && !Working(PassOf(w, c))
    ensures Run(w, [Begin(c), ReadInstance(c), ReadState(c)]) == SetPass(w, c, HasState(0, Current(w), |w.history|))
  {
    var w1, w2 := SetPass(w, c, Starting(0)), SetPass(w, c, HasInstance(0, Current(w)));
    assert w1.clients[c := HasInstance(0, Current(w))] == w2.clients;
    assert w2.clients[c := HasState(0, Current(w), |w.history|)] == w.clients[c := HasState(0, Current(w), |w.history|)];
    assert Step(w, Begin(c)) == w1;
    assert Step(w1, ReadInstance(c)) == w2;
    assert Step(w2, ReadState(c)) == SetPass(w, c, HasState(0, Current(w), |w.history|));
    RunThree(w, Begin(c), ReadInstance(c), ReadState(c));
  }

  lemma RunThree(w: World, a: Event, b: Event, c: Event)
    requires |w.history| > 0 && |Step(w, a).history| > 0 && |Step(Step(w, a), b).history| > 0
    ensures Run(w, [a, b, c]) == Step(Step(Step(w, a), b), c)
  {
    RunSnoc(w, [], a);
    RunSnoc(w, [a], b);
    RunSnoc(w, [a, b], c);
    assert [] + [a] == [a] && [a] + [b] == [a, b] && [a, b] + [c] == [a, b, c];
  }

  /** Such worlds are reachable: the smallest instance of both anomalies. */
  lemma TornPassIsReachable()
    ensures var w := Run(Init(7), [Create(1), WriteStatus(Status(1, Some(7), Some(1), Ready))]);
            CanBeTorn(w, 0) && ReadyAsDesired(w)
  {
    var es := [Create(1), WriteStatus(Status(1, Some(7), Some(1), Ready))];
    Reachable(7, es);
    var w1 := Step(Init(7), es[0]);
    assert Run(Init(7), es) == Run(w1, es[1..]);
    assert Run(w1, es[1..]) == Step(w1, es[1]) by { assert es[1..][1..] == []; }
  }

  lemma {:induction false} RunSnoc(w: World, events: seq<Event>, e: Event)
    requires |w.history| > 0
    ensures Run(w, events + [e]) == Step(Run(w, events), e)
    decreases |events|
  {
    RunConcat(w, events, [e]);
    assert [e][1..] == [];
  }
}

/** The code of one client: `reconcile` against shared state that anybody may change between its calls. */
module Reconcile {
  import opened Wrappers
  import opened Updates

  /** What happens around one await point: other actors' events, then perhaps a failed call (true for a 409). */
  datatype Slot = Slot(others: seq<Event>, fault: Option<bool>)

  predicate OthersOnly(tape: seq<Slot>, c: nat) {
    forall i, e :: 0 <= i < |tape| && e in tape[i].others ==> Actor(e) != Some(c)
  }

  function SlotAt(tape: seq<Slot>, i: nat): Slot {
    if i < |tape| then tape[i] else Slot([], None)
  }

  /** The shared store and cluster as a client meets them; `trace` is the run so far. */
  class Shared {
    var w: World
    ghost var start: World
    ghost var trace: seq<Event>

    ghost predicate Valid()
      reads this
    {
      Inv(start) && Inv(w) && w == Run(start, trace)
    }

    constructor (revision: Revision)
      ensures Valid() && w == Init(revision) && start == w && trace == []
    {
      w := Init(revision);
      start := Init(revision);
      trace := [];
    }

    method Act(e: Event)
      requires Valid()
      modifies this
      ensures Valid() && w == Step(old(w), e)
      ensures start == old(start) && trace == old(trace) + [e]
    {
      StepKeepsInv(w, e);
      RunSnoc(start, trace, e);
      w := Step(w, e);
      trace := trace + [e];
    }

    method Others(c: nat, events: seq<Event>)
      requires Valid() && forall e :: e in events ==> Actor(e) != Some(c)
      modifies this
      ensures Valid() && PassOf(w, c) == old(PassOf(w, c))
      ensures start == old(start) && trace == old(trace) + events
    {
      var i := 0;
      while i < |events|
        invariant i <= |events|
        invariant Valid() && PassOf(w, c) == old(PassOf(w, c))
        invariant start == old(start) && trace == old(trace) + events[..i]
      {
        assert events[i] in events;
        OtherActorsLeaveThePass(w, events[i], c);
        Act(events[i]);
        i := i + 1;
      }
    }
  }

  /** The two store reads, in their own transactions; None once the cell is closing. */
  method ReadDesired(k: Shared, c: nat, attempt: nat, tape: seq<Slot>) returns (desired: Option<(Instance, nat)>)
    requires k.Valid() && PassOf(k.w, c) == Starting(attempt) && OthersOnly(tape, c)
    modifies k
    ensures k.Valid() && k.start == old(k.start) && old(k.trace) <= k.trace
    ensures PassOf(k.w, c) == match desired
                              case Some((instance, generation)) => HasState(attempt, instance, generation)
                              case None => Finished(ClosingSeen)
    ensures desired.None? ==> k.w.closing
  {
    k.Others(c, SlotAt(tape, 0).others);
    var instance := Current(k.w);
    k.Act(ReadInstance(c));
    k.Others(c, SlotAt(tape, 1).others);
    var closing, generation := k.w.closing, |k.w.history|;
    k.Act(ReadState(c));
    return if closing then None else Some((instance, generation));
  }

  /** Fetch the object and refuse to go on with a missing, closing or newer one. */
  method FetchCell(k: Shared, c: nat, attempt: nat, instance: Instance, generation: nat, tape: seq<Slot>)
    returns (found: Result<Cell, Outcome>)
    requires k.Valid() && PassOf(k.w, c) == HasState(attempt, instance, generation) && OthersOnly(tape, c)
    modifies k
    ensures k.Valid() && k.start == old(k.start) && old(k.trace) <= k.trace
    ensures PassOf(k.w, c) == match found
                              case Err(outcome) => Finished(outcome)
                              case Ok(cell) =>
                                if UpToDate(instance, generation, cell) then Observed(attempt, instance, generation, cell)
                                else Replacing(attempt, instance, generation, cell)
    ensures found.Err? ==> found.error in {Missing, NotOpen, Superseded}
  {
    k.Others(c, SlotAt(tape, 2).others);
    var cell := k.w.cell;
    k.Act(Fetch(c));
    if cell.None? {
      found := Err(Missing);
    } else if !Open(cell.value) {
      found := Err(NotOpen);
    } else if DesiredOf(cell.value) > generation {
      found := Err(Superseded);
    } else {
      found := Ok(cell.value);
    }
  }

  /** One attempt; every decision is the client's own, taken on what it has read. */
  method ReconcileOnce(k: Shared, c: nat, attempt: nat, tape: seq<Slot>, expired: bool) returns (result: Outcome)
    requires k.Valid() && PassOf(k.w, c) == Starting(attempt) && attempt < ATTEMPTS && OthersOnly(tape, c)
    modifies k
    ensures k.Valid() && k.start == old(k.start) && old(k.trace) <= k.trace
    ensures PassOf(k.w, c) == if result == Conflict && attempt < ATTEMPTS - 1 then Starting(attempt + 1) else Finished(result)
    ensures result == ClosingSeen ==> k.w.closing
  {
    var desired := ReadDesired(k, c, attempt, tape);
    if desired.None? { return ClosingSeen; }
    result := Publish(k, c, attempt, desired.value.0, desired.value.1, tape, expired);
  }

  /** Bring the object to what was read, and report the phase it then shows. */
  method Publish(k: Shared, c: nat, attempt: nat, instance: Instance, generation: nat, tape: seq<Slot>, expired: bool)
    returns (result: Outcome)
    requires k.Valid() && PassOf(k.w, c) == HasState(attempt, instance, generation) && attempt < ATTEMPTS && OthersOnly(tape, c)
    modifies k
    ensures k.Valid() && k.start == old(k.start) && old(k.trace) <= k.trace
    ensures PassOf(k.w, c) == if result == Conflict && attempt < ATTEMPTS - 1 then Starting(attempt + 1) else Finished(result)
    ensures result != ClosingSeen
  {
    var found := FetchCell(k, c, attempt, instance, generation, tape);
    if found.Err? { return found.error; }
    var cell := found.value;
    if !UpToDate(instance, generation, cell) {
      result, cell := Overwrite(k, c, attempt, instance, generation, cell, tape);
      if result != Reconciled(Pending) { return; }
    }
    result := Reconciled(PhaseOf(instance, cell, expired));
    k.Act(Finish(c, expired));
  }

  /** Snapshot, overwrite and replace; `Reconciled(Pending)` means the write went through. */
  method Overwrite(k: Shared, c: nat, attempt: nat, instance: Instance, generation: nat, fetched: Cell, tape: seq<Slot>)
    returns (result: Outcome, cell: Cell)
    requires k.Valid() && PassOf(k.w, c) == Replacing(attempt, instance, generation, fetched)
    requires attempt < ATTEMPTS && OthersOnly(tape, c)
    modifies k
    ensures k.Valid() && k.start == old(k.start) && old(k.trace) <= k.trace
    ensures result in {Reconciled(Pending), Conflict, Failed}
    ensures result == Reconciled(Pending) ==> PassOf(k.w, c) == Observed(attempt, instance, generation, cell)
    ensures result == Failed ==> PassOf(k.w, c) == Finished(Failed)
    ensures result == Conflict ==>
              PassOf(k.w, c) == if attempt < ATTEMPTS - 1 then Starting(attempt + 1) else Finished(Conflict)
  {
    k.Others(c, SlotAt(tape, 3).others);
    cell := fetched;
    if SlotAt(tape, 3).fault.Some? {
      var conflict := SlotAt(tape, 3).fault.value;
      k.Act(Error(c, conflict));
      return if conflict then Conflict else Failed, cell;
    }
    var stored := k.w.cell;
    k.Act(Replace(c));
    if stored.None? { return Failed, cell; }
    if stored.value.version != fetched.version { return Conflict, cell; }
    cell := k.w.cell.value;
    k.Others(c, SlotAt(tape, 4).others);
    if SlotAt(tape, 4).fault.Some? {
      var conflict := SlotAt(tape, 4).fault.value;
      k.Act(Error(c, conflict));
      return if conflict then Conflict else Failed, cell;
    }
    return Reconciled(Pending), cell;
  }

  /** The retry loop of `reconcile`, against any interference. */
  method Reconcile(k: Shared, c: nat, tapes: seq<seq<Slot>>, expired: bool) returns (result: Outcome)
    requires k.Valid() && !Working(PassOf(k.w, c))
    requires forall i :: 0 <= i < |tapes| ==> OthersOnly(tapes[i], c)
    modifies k
    ensures k.Valid() && k.start == old(k.start) && old(k.trace) <= k.trace
    ensures PassOf(k.w, c) == Finished(result)
    ensures var now := k.trace[|old(k.trace)|..];
            && (result.Reconciled? && Quiet(now) ==> exists n :: 0 <= n <= |now| && Settled(Run(old(k.w), now[..n])))
            && (result.Reconciled? && Quiet(now) && AllFresh(old(k.w)) ==> exists n :: 0 <= n <= |now| && SettledFrom(old(k.w), now, n))
    ensures result == ClosingSeen ==> k.w.closing
  {
    ghost var before, past := k.w, k.trace;
    k.Act(Begin(c));
    ghost var begun := k.w;
    var attempt := 0;
    while true
      invariant attempt < ATTEMPTS
      invariant k.Valid() && k.start == old(k.start) && past + [Begin(c)] <= k.trace
      invariant PassOf(k.w, c) == Starting(attempt)
      decreases ATTEMPTS - attempt
    {
      result := ReconcileOnce(k, c, attempt, if attempt < |tapes| then tapes[attempt] else [], expired);
      if result == Conflict && attempt < ATTEMPTS - 1 {
        attempt := attempt + 1;
        continue;
      }
      break;
    }
    Converged(k.start, past, k.trace, c);
  }

  /** `PassConverges` and `PassLeavesSettled` for the part of a trace that one call added. */
  lemma Converged(start: World, past: seq<Event>, trace: seq<Event>, c: nat)
    requires Inv(start) && past + [Begin(c)] <= trace && !Working(PassOf(Run(start, past), c))
    ensures var w, now := Run(start, past), trace[|past|..];
            Quiet(now) && Succeeded(PassOf(Run(start, trace), c)) ==>
              && (exists n :: 0 <= n <= |now| && Settled(Run(w, now[..n])))
              && (AllFresh(w) ==> exists n :: 0 <= n <= |now| && SettledFrom(w, now, n))
  {
    var w, now := Run(start, past), trace[|past|..];
    RunKeepsInv(start, past);
    assert trace == past + now;
    RunConcat(start, past, now);
    if Quiet(now) && Succeeded(PassOf(Run(start, trace), c)) {
      assert now[0] == Begin(c);
      CallConverges(w, now, c);
      if AllFresh(w) { CallLeavesSettled(w, now, c); }
    }
  }

  lemma CallConverges(w: World, now: seq<Event>, c: nat)
    requires Inv(w) && now != [] && now[0] == Begin(c) && !Working(PassOf(w, c))
    requires Quiet(now) && Succeeded(PassOf(Run(w, now), c))
    ensures exists n :: 0 <= n <= |now| && Settled(Run(w, now[..n]))
  {
    var w1, rest := Step(w, Begin(c)), now[1..];
    StepKeepsInv(w, Begin(c));
    PassConverges(w1, rest, c);
    var k :| 0 <= k <= |rest| && Settled(Run(w1, rest[..k]));
    RunTake(w, now, k);
    assert Settled(Run(w, now[..k + 1]));
  }

  lemma CallLeavesSettled(w: World, now: seq<Event>, c: nat)
    requires Inv(w) && now != [] && now[0] == Begin(c) && !Working(PassOf(w, c)) && AllFresh(w)
    requires Quiet(now) && Succeeded(PassOf(Run(w, now), c))
    ensures exists n :: 0 <= n <= |now| && SettledFrom(w, now, n)
  {
    var w1, rest := Step(w, Begin(c)), now[1..];
    StepKeepsInv(w, Begin(c));
    AllFreshStays(w, Begin(c));
    PassLeavesSettled(w1, rest, c);
    var k :| 0 <= k <= |rest| && SettledFrom(w1, rest, k);
    RunTake(w, now, k);
    assert SettledFrom(w, now, k + 1);
  }
}
