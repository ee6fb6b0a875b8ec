/**
 The private-access registry: one annotation of a cell object that any number of
 clients publish grants into, guarded by nothing but the object's resource version.

 A world steps by single API calls. Clients list, decide on what they saw, and patch;
 the object may change, be deleted or be created again between the two.
*/
module AccessRegistry {
  import opened Wrappers

  datatype Grant = Grant(id: string, workspace: string, instance: string, principal: string, scope: nat,
                         created: int, revoked: Option<int>)

  type Grants = map<string, Grant>

  /** The annotation: absent, unreadable, or a map by grant id. */
  datatype Registry = Missing | Garbled | Readable(grants: Grants)

  datatype Cell = Cell(workspace: string, instance: string, open: bool, registry: Registry, uid: nat, version: nat)

  datatype Failure = Unavailable | Closing | Invalid | IdentityConflict | Revoked | TooLarge | Conflict | Transport

  type Answer = Result<(), Failure>

  /** One call: listing next, or waiting to patch `name` as it was listed. */
  datatype Client =
    | Listing(grant: Grant, attempt: nat)
    | Patching(grant: Grant, attempt: nat, name: string, cell: Cell, next: Grants)
    | Done(grant: Grant, answer: Answer)

  datatype Commit = Commit(client: nat, uid: nat, grant: Grant)

  datatype World = World(cells: map<string, Cell>, clients: map<nat, Client>, clock: nat,
                         origin: seq<Registry>, log: seq<Commit>)

  datatype Event =
    | Begin(c: nat, grant: Grant)
    | List(c: nat)
    | Patch(c: nat, lost: bool)     // lost: the patch takes effect but its reply never arrives
    | Fails(c: nat, conflict: bool) // a call fails without effect
    | Create(name: string, workspace: string, instance: string, registry: Registry)
    | Touch(name: string, open: bool) // any other write to the object
    | Delete(name: string)

  const ATTEMPTS := 5
  const CAPACITY := 128 * 1024
  const EMPTY := World(map[], map[], 0, [], [])

  /** Length of the serialized registry. */
  type Size = Grants -> nat

  function Entries(r: Registry): Grants
    requires !r.Garbled?
  {
    if r.Readable? then r.grants else map[]
  }

  predicate SameIdentity(a: Grant, b: Grant) {
    a.scope == b.scope && a.principal == b.principal && a.instance == b.instance
  }

  /** The registry as a sequential object: what publishing one grant answers, and what it stores. */
  datatype Verdict = Refuse(why: Failure) | AlreadyThere | Store(next: Grants)

  function Publish(r: Registry, g: Grant, size: Size): Verdict {
    if r.Garbled? then Refuse(Invalid)
    else if g.id in Entries(r) && !SameIdentity(Entries(r)[g.id], g) then Refuse(IdentityConflict)
    else if g.id in Entries(r) && Entries(r)[g.id].revoked.Some? && g.revoked.None? then Refuse(Revoked)
    else if g.id in Entries(r) && Entries(r)[g.id] == g then AlreadyThere
    else if size(Entries(r)[g.id := g]) > CAPACITY then Refuse(TooLarge)
    else Store(Entries(r)[g.id := g])
  }

  function Admit(cell: Cell, g: Grant, size: Size): Verdict {
    if !cell.open then Refuse(Closing) else Publish(cell.registry, g, size)
  }

  predicate Targets(g: Grant, cell: Cell) {
    cell.workspace == g.workspace && cell.instance == g.instance
  }

  function Matches(cells: map<string, Cell>, g: Grant): set<string> {
    set n | n in cells && Targets(g, cells[n])
  }

  // ---------------------------------------------------------------- the transition system

  function Failed(x: Client, conflict: bool): Client
    requires !x.Done?
  {
    if conflict && x.attempt < ATTEMPTS - 1 then Listing(x.grant, x.attempt + 1)
    else Done(x.grant, Err(if conflict then Conflict else Transport))
  }

  lemma Singleton(s: set<string>)
    ensures |s| == 1 <==> exists n :: s == {n}
    ensures |s| == 1 ==> forall m, n :: m in s && n in s ==> m == n
  {
    if |s| == 1 {
      var n :| n in s;
      assert |s - {n}| == |s| - 1;
      assert s == {n} + (s - {n});
    }
  }

  /** What a client makes of a listing. */
  function Listed(cells: map<string, Cell>, g: Grant, attempt: nat, size: Size): Client {
    var matches := Matches(cells, g);
    if |matches| == 1 then
      Singleton(matches);
      var n :| n in matches;
      match Admit(cells[n], g, size)
      case Refuse(why) => Done(g, Err(why))
      case AlreadyThere => Done(g, Ok(()))
      case Store(next) => Patching(g, attempt, n, cells[n], next)
    else Done(g, Err(Unavailable))
  }

  predicate PatchApplies(w: World, x: Client) {
    x.Patching? && x.name in w.cells && w.cells[x.name].version == x.cell.version
  }

  function Patched(w: World, c: nat, x: Client): World
    requires PatchApplies(w, x)
  {
    var cell := w.cells[x.name].(registry := Readable(x.next), version := w.clock);
    w.(cells := w.cells[x.name := cell], clock := w.clock + 1, log := w.log + [Commit(c, cell.uid, x.grant)])
  }

  predicate Active(w: World, c: nat) {
    c in w.clients && !w.clients[c].Done?
  }

  function Step(w: World, e: Event, size: Size): World {
    match e
    case Begin(c, g) =>
      if Active(w, c) then w else w.(clients := w.clients[c := Listing(g, 0)])
    case List(c) =>
      if !(Active(w, c) && w.clients[c].Listing?) then w
      else w.(clients := w.clients[c := Listed(w.cells, w.clients[c].grant, w.clients[c].attempt, size)])
    case Patch(c, lost) =>
      if !(Active(w, c) && w.clients[c].Patching?) then w
      else
        var x := w.clients[c];
        if PatchApplies(w, x) then
          Patched(w, c, x).(clients := w.clients[c := Done(x.grant, if lost then Err(Transport) else Ok(()))])
        else w.(clients := w.clients[c := Failed(x, x.name in w.cells)])
    case Fails(c, conflict) =>
      if !Active(w, c) then w else w.(clients := w.clients[c := Failed(w.clients[c], conflict)])
    case Create(name, workspace, instance, registry) =>
      if name in w.cells then w
      else
        var cell := Cell(workspace, instance, true, registry, |w.origin|, w.clock);
        w.(cells := w.cells[name := cell], clock := w.clock + 1, origin := w.origin + [registry])
    case Touch(name, open) =>
      if name !in w.cells then w
      else w.(cells := w.cells[name := w.cells[name].(open := open, version := w.clock)], clock := w.clock + 1)
    case Delete(name) => w.(cells := w.cells - {name})
  }

  function Run(w: World, events: seq<Event>, size: Size): World
    decreases |events|
  {
    if events == [] then w else Run(Step(w, events[0], size), events[1..], size)
  }

  // ---------------------------------------------------------------- invariant

  /** The registry of one incarnation, rebuilt by publishing its commits one after another. */
  function Replay(origin: Registry, log: seq<Commit>, uid: nat): Registry {
    if log == [] then origin
    else
      var before, last := Replay(origin, log[..|log| - 1], uid), log[|log| - 1];
      if last.uid == uid && !before.Garbled? then Readable(Entries(before)[last.grant.id := last.grant]) else before
  }

  /** Each commit is one the sequential object accepts after all commits before it. */
  ghost predicate Legal(origin: seq<Registry>, log: seq<Commit>, size: Size) {
    forall i :: 0 <= i < |log| ==> LegalAt(origin, log, i, size)
  }

  ghost predicate LegalAt(origin: seq<Registry>, log: seq<Commit>, i: nat, size: Size)
    requires i < |log|
  {
    var uid := log[i].uid;
    && uid < |origin|
    && Publish(Replay(origin[uid], log[..i], uid), log[i].grant, size).Store?
  }

  ghost predicate CellOk(w: World, cell: Cell) {
    && cell.uid < |w.origin| && cell.version < w.clock
    && cell.registry == Replay(w.origin[cell.uid], w.log, cell.uid)
  }

  /** A waiting patch was computed from the object it names, and a matching version means nothing changed since. */
  ghost predicate ClientOk(w: World, x: Client, size: Size) {
    && (!x.Done? ==> x.attempt < ATTEMPTS)
    && (x.Patching? ==>
          && x.cell.version < w.clock
          && Targets(x.grant, x.cell)
          && Admit(x.cell, x.grant, size) == Store(x.next)
          && (PatchApplies(w, x) ==> w.cells[x.name] == x.cell))
  }

  ghost predicate Inv(w: World, size: Size) {
    && (forall n :: n in w.cells ==> CellOk(w, w.cells[n]))
    && (forall m, n :: m in w.cells && n in w.cells && w.cells[m].uid == w.cells[n].uid ==> m == n)
    && (forall c :: c in w.clients ==> ClientOk(w, w.clients[c], size))
    && Legal(w.origin, w.log, size)
  }

  lemma ReplaySnoc(origin: Registry, log: seq<Commit>, last: Commit, uid: nat)
    ensures var before := Replay(origin, log, uid);
            Replay(origin, log + [last], uid)
            == if last.uid == uid && !before.Garbled? then Readable(Entries(before)[last.grant.id := last.grant]) else before
  {
    assert (log + [last])[..|log|] == log;
  }

  lemma LegalSnoc(origin: seq<Registry>, log: seq<Commit>, last: Commit, size: Size)
    requires Legal(origin, log, size) && last.uid < |origin|
    requires Publish(Replay(origin[last.uid], log, last.uid), last.grant, size).Store?
    ensures Legal(origin, log + [last], size)
  {
    var longer := log + [last];
    forall i | 0 <= i < |longer| ensures LegalAt(origin, longer, i, size) {
      if i < |log| {
        assert LegalAt(origin, log, i, size);
        assert longer[..i] == log[..i];
      } else {
        assert longer[..i] == log;
      }
    }
  }

  lemma LegalGrows(origin: seq<Registry>, more: Registry, log: seq<Commit>, size: Size)
    requires Legal(origin, log, size)
    ensures Legal(origin + [more], log, size)
  {
    forall i | 0 <= i < |log| ensures LegalAt(origin + [more], log, i, size) {
      assert LegalAt(origin, log, i, size);
    }
  }

  lemma ListedOk(cells: map<string, Cell>, g: Grant, attempt: nat, size: Size)
    ensures var x := Listed(cells, g, attempt, size);
            x.Patching? ==> && x.name in cells && x.cell == cells[x.name] && Matches(cells, g) == {x.name}
                            && Targets(g, x.cell) && Admit(x.cell, g, size) == Store(x.next)
                            && x.grant == g && x.attempt == attempt
  {
    Singleton(Matches(cells, g));
  }

  lemma PatchedCellsOk(w: World, c: nat, x: Client, size: Size)
    requires Inv(w, size) && ClientOk(w, x, size) && PatchApplies(w, x)
    ensures var w' := Patched(w, c, x);
            && (forall n :: n in w'.cells ==> CellOk(w', w'.cells[n]))
            && Legal(w'.origin, w'.log, size)
  {
    var w', last := Patched(w, c, x), Commit(c, x.cell.uid, x.grant);
    assert CellOk(w, w.cells[x.name]);
    LegalSnoc(w.origin, w.log, last, size);
    forall n | n in w'.cells ensures CellOk(w', w'.cells[n]) {
      assert CellOk(w, w.cells[n]);
      ReplaySnoc(w.origin[w.cells[n].uid], w.log, last, w.cells[n].uid);
    }
  }

  lemma PatchedClientOk(w: World, c: nat, x: Client, y: Client, size: Size)
    requires PatchApplies(w, x) && ClientOk(w, y, size)
    ensures ClientOk(Patched(w, c, x), y, size)
  {
  }

  lemma PatchKeepsInv(w: World, c: nat, lost: bool, size: Size)
    requires Inv(w, size) && Active(w, c) && PatchApplies(w, w.clients[c])
    ensures Inv(Step(w, Patch(c, lost), size), size)
  {
    var x, w' := w.clients[c], Step(w, Patch(c, lost), size);
    var p := Patched(w, c, x);
    assert w'.cells == p.cells && w'.clock == p.clock && w'.origin == p.origin && w'.log == p.log;
    PatchedCellsOk(w, c, x, size);
    forall n | n in w'.cells ensures CellOk(w', w'.cells[n]) { assert CellOk(p, p.cells[n]); }
    forall d | d in w'.clients ensures ClientOk(w', w'.clients[d], size) {
      if d != c { PatchedClientOk(w, c, x, w.clients[d], size); }
    }
  }

  lemma WrittenCellOk(w: World, e: Event, size: Size, n: string)
    requires Inv(w, size) && (e.Create? || e.Touch? || e.Delete?) && n in Step(w, e, size).cells
    ensures CellOk(Step(w, e, size), Step(w, e, size).cells[n])
  {
    if n in w.cells { assert CellOk(w, w.cells[n]); }
    if e.Create? && e.name !in w.cells { FreshUid(w.log, w, size, e.registry); }
  }

  lemma WrittenClientOk(w: World, e: Event, size: Size, x: Client)
    requires (e.Create? || e.Touch? || e.Delete?) && ClientOk(w, x, size)
    ensures ClientOk(Step(w, e, size), x, size)
  {
  }

  lemma ObjectWriteKeepsInv(w: World, e: Event, size: Size)
    requires Inv(w, size) && (e.Create? || e.Touch? || e.Delete?)
    ensures Inv(Step(w, e, size), size)
  {
    var w' := Step(w, e, size);
    if e.Create? && e.name !in w.cells { LegalGrows(w.origin, e.registry, w.log, size); }
    forall n | n in w'.cells ensures CellOk(w', w'.cells[n]) { WrittenCellOk(w, e, size, n); }
    forall n | n in w.cells ensures w.cells[n].uid < |w.origin| { assert CellOk(w, w.cells[n]); }
    forall d | d in w'.clients ensures ClientOk(w', w'.clients[d], size) { WrittenClientOk(w, e, size, w.clients[d]); }
  }

  /** Nothing in the log belongs to an incarnation that does not exist yet. */
  lemma {:induction false} FreshUid(log: seq<Commit>, w: World, size: Size, r: Registry)
    requires Inv(w, size) && log <= w.log
    ensures Replay(r, log, |w.origin|) == r
    decreases |log|
  {
    if log != [] {
      assert LegalAt(w.origin, w.log, |log| - 1, size);
      FreshUid(log[..|log| - 1], w, size, r);
    }
  }

  /** A call that does not write: the objects and the log stay, and so do the other clients. */
  predicate OnlyCalls(w: World, e: Event) {
    e.Begin? || e.List? || e.Fails? || (e.Patch? && !(Active(w, e.c) && PatchApplies(w, w.clients[e.c])))
  }

  lemma CallFrame(w: World, e: Event, size: Size)
    requires OnlyCalls(w, e)
    ensures var w' := Step(w, e, size); w' == w || w' == w.(clients := w'.clients)
    ensures forall d :: d != e.c ==> (d in Step(w, e, size).clients <==> d in w.clients)
    ensures forall d :: d != e.c && d in w.clients ==> Step(w, e, size).clients[d] == w.clients[d]
  {
  }

  lemma CallerOk(w: World, e: Event, size: Size)
    requires Inv(w, size) && OnlyCalls(w, e) && e.c in Step(w, e, size).clients
    ensures ClientOk(Step(w, e, size), Step(w, e, size).clients[e.c], size)
  {
    if e.c in w.clients {
      assert ClientOk(w, w.clients[e.c], size);
      if e.List? && w.clients[e.c].Listing? {
        var x := w.clients[e.c];
        ListedOk(w.cells, x.grant, x.attempt, size);
        var y := Listed(w.cells, x.grant, x.attempt, size);
        if y.Patching? { assert CellOk(w, w.cells[y.name]); }
      }
    }
  }

  lemma CallKeepsInv(w: World, e: Event, size: Size)
    requires Inv(w, size) && OnlyCalls(w, e)
    ensures Inv(Step(w, e, size), size)
  {
    var w' := Step(w, e, size);
    CallFrame(w, e, size);
    forall n | n in w'.cells ensures CellOk(w', w'.cells[n]) { assert CellOk(w, w.cells[n]); }
    forall d | d in w'.clients ensures ClientOk(w', w'.clients[d], size) {
      if d == e.c { CallerOk(w, e, size); } else { assert ClientOk(w, w.clients[d], size); }
    }
  }

  lemma StepKeepsInv(w: World, e: Event, size: Size)
    requires Inv(w, size)
    ensures Inv(Step(w, e, size), size)
  {
    if e.Create? || e.Touch? || e.Delete? { ObjectWriteKeepsInv(w, e, size); }
    else if e.Patch? && Active(w, e.c) && PatchApplies(w, w.clients[e.c]) { PatchKeepsInv(w, e.c, e.lost, size); }
    else { CallKeepsInv(w, e, size); }
  }

  lemma {:induction false} RunKeepsInv(w: World, events: seq<Event>, size: Size)
    requires Inv(w, size)
    ensures Inv(Run(w, events, size), size)
    decreases |events|
  {
    if events != [] {
      StepKeepsInv(w, events[0], size);
      RunKeepsInv(Step(w, events[0], size), events[1..], size);
    }
  }

  /**
   Over every interleaving the log is a legal sequential history, and the registry of every
   object is exactly what publishing that history one grant after another leaves: no grant is
   lost, and none is stored unasked.
  */
  lemma Serializable(events: seq<Event>, size: Size)
    ensures var w := Run(EMPTY, events, size);
            && (forall i :: 0 <= i < |w.log| ==> LegalAt(w.origin, w.log, i, size))
            && (forall n :: n in w.cells ==>
                  w.cells[n].uid < |w.origin| && w.cells[n].registry == Replay(w.origin[w.cells[n].uid], w.log, w.cells[n].uid))
  {
    RunKeepsInv(EMPTY, events, size);
    var w := Run(EMPTY, events, size);
    forall n | n in w.cells
      ensures w.cells[n].uid < |w.origin| && w.cells[n].registry == Replay(w.origin[w.cells[n].uid], w.log, w.cells[n].uid)
    {
      assert CellOk(w, w.cells[n]);
    }
  }

  // ---------------------------------------------------------------- what a registry keeps

  /** No grant disappears, none changes its scope, principal or instance, no revocation is undone. */
  ghost predicate Extends(r: Registry, r': Registry) {
    if r.Garbled? then r' == r
    else
      !r'.Garbled? &&
      forall id :: id in Entries(r) ==>
        && id in Entries(r') && SameIdentity(Entries(r)[id], Entries(r')[id])
        && (Entries(r)[id].revoked.Some? ==> Entries(r')[id].revoked.Some?)
  }

  lemma PatchExtends(w: World, x: Client, size: Size)
    requires ClientOk(w, x, size) && PatchApplies(w, x)
    ensures Extends(w.cells[x.name].registry, Readable(x.next))
  {
  }

  lemma StepExtends(w: World, e: Event, size: Size, m: string, n: string)
    requires Inv(w, size) && m in w.cells && n in Step(w, e, size).cells
    requires w.cells[m].uid == Step(w, e, size).cells[n].uid
    ensures m == n && Extends(w.cells[m].registry, Step(w, e, size).cells[n].registry)
  {
    StepCreatesFresh(w, e, size, n);
    assert CellOk(w, w.cells[m]);
    if e.Patch? && Active(w, e.c) && PatchApplies(w, w.clients[e.c]) {
      PatchExtends(w, w.clients[e.c], size);
    }
  }

  /** An incarnation seen at two moments of a run: its registry only ever extends. */
  lemma {:induction false} GrantsAreKept(w: World, events: seq<Event>, size: Size, m: string, n: string)
    requires Inv(w, size) && m in w.cells && n in Run(w, events, size).cells
    requires w.cells[m].uid == Run(w, events, size).cells[n].uid
    ensures m == n && Extends(w.cells[m].registry, Run(w, events, size).cells[n].registry)
    decreases |events|
  {
    if events != [] {
      var w1 := Step(w, events[0], size);
      StepKeepsInv(w, events[0], size);
      assert CellOk(w, w.cells[m]);
      StaysGone(w1, events[1..], size, n, w.cells[m].uid);
      var k :| k in w1.cells && w1.cells[k].uid == w.cells[m].uid;
      StepExtends(w, events[0], size, m, k);
      GrantsAreKept(w1, events[1..], size, k, n);
    }
  }

  /** A deleted incarnation does not come back: one that exists later existed all along. */
  lemma {:induction false} StaysGone(w: World, events: seq<Event>, size: Size, n: string, uid: nat)
    requires Inv(w, size) && uid < |w.origin|
    requires n in Run(w, events, size).cells && Run(w, events, size).cells[n].uid == uid
    ensures exists k :: k in w.cells && w.cells[k].uid == uid
    decreases |events|
  {
    if events != [] {
      var w1 := Step(w, events[0], size);
      StepKeepsInv(w, events[0], size);
      StaysGone(w1, events[1..], size, n, uid);
      var k :| k in w1.cells && w1.cells[k].uid == uid;
      StepCreatesFresh(w, events[0], size, k);
    }
  }

  lemma StepCreatesFresh(w: World, e: Event, size: Size, k: string)
    requires k in Step(w, e, size).cells
    ensures Step(w, e, size).cells[k].uid == |w.origin| || (k in w.cells && w.cells[k].uid == Step(w, e, size).cells[k].uid)
    ensures |w.origin| <= |Step(w, e, size).origin|
  {
  }

  // ---------------------------------------------------------------- linearizability of a call

  function Commits(log: seq<Commit>, c: nat): nat {
    if log == [] then 0 else Commits(log[..|log| - 1], c) + if log[|log| - 1].client == c then 1 else 0
  }

  predicate Holds(w: World, name: string, g: Grant) {
    && name in w.cells && Targets(g, w.cells[name]) && w.cells[name].registry.Readable?
    && g.id in w.cells[name].registry.grants && w.cells[name].registry.grants[g.id] == g
  }

  /** The step of one call that decides its answer, and what it does to the registry at that moment. */
  ghost predicate DecidedBy(u: World, e: Event, c: nat, g: Grant, answer: Answer, size: Size) {
    var u' := Step(u, e, size);
    && Active(u, c) && u'.clients[c] == Done(g, answer)
    && match answer
       case Ok(_) => exists n :: Accepts(u, u', n, c, g, size)
       case Err(Conflict) => u'.cells == u.cells && u'.log == u.log
       case Err(Transport) =>
         (u'.cells == u.cells && u'.log == u.log) || exists n :: Accepts(u, u', n, c, g, size)
       case Err(why) =>
         && u'.cells == u.cells && u'.log == u.log
         && if exists n :: Matches(u.cells, g) == {n} then
              exists n :: n in u.cells && Matches(u.cells, g) == {n} && Admit(u.cells[n], g, size) == Refuse(why)
            else why == Unavailable
  }

  /** The grant is there already, or becomes so, exactly as the sequential object would have it. */
  ghost predicate Accepts(u: World, u': World, n: string, c: nat, g: Grant, size: Size) {
    && Holds(u', n, g) && n in u.cells && u.cells[n].open
    && match Publish(u.cells[n].registry, g, size)
       case Refuse(_) => false
       case AlreadyThere => u'.cells == u.cells && u'.log == u.log
       case Store(next) =>
         && u'.cells[n].registry == Readable(next) && u'.cells - {n} == u.cells - {n}
         && u'.log == u.log + [Commit(c, u.cells[n].uid, g)]
  }

  ghost predicate Own(e: Event, c: nat) {
    !e.Create? && !e.Touch? && !e.Delete? && e.c == c
  }

  /** A step that ends a call decides it; any other step of a call leaves the cluster alone. */
  lemma CallStep(w: World, e: Event, c: nat, size: Size)
    requires Inv(w, size) && Active(w, c)
    ensures var w' := Step(w, e, size);
            && c in w'.clients && w'.clients[c].grant == w.clients[c].grant
            && (!w'.clients[c].Done? ==> Commits(w'.log, c) == Commits(w.log, c))
            && (w'.clients[c].Done? ==> DecidedBy(w, e, c, w.clients[c].grant, w'.clients[c].answer, size))
  {
    if Own(e, c) { OwnStep(w, e, c, size); } else { OtherStep(w, e, c, size); }
  }

  lemma OtherStep(w: World, e: Event, c: nat, size: Size)
    requires !Own(e, c)
    ensures var w' := Step(w, e, size);
            && (c in w'.clients <==> c in w.clients) && (c in w.clients ==> w'.clients[c] == w.clients[c])
            && Commits(w'.log, c) == Commits(w.log, c)
  {
    var w' := Step(w, e, size);
    assert w'.log == w.log || w'.log[..|w'.log| - 1] == w.log;
  }

  lemma OwnStep(w: World, e: Event, c: nat, size: Size)
    requires Inv(w, size) && Active(w, c) && Own(e, c)
    ensures var w' := Step(w, e, size);
            && c in w'.clients && w'.clients[c].grant == w.clients[c].grant
            && (!w'.clients[c].Done? ==> w'.log == w.log)
            && (w'.clients[c].Done? ==> DecidedBy(w, e, c, w.clients[c].grant, w'.clients[c].answer, size))
  {
    var x, w' := w.clients[c], Step(w, e, size);
    assert ClientOk(w, x, size);
    if e.Patch? && PatchApplies(w, x) {
      assert Accepts(w, w', x.name, c, x.grant, size);
    } else if e.List? && x.Listing? {
      ListStep(w, c, size);
    }
  }

  lemma ListStep(w: World, c: nat, size: Size)
    requires Inv(w, size) && Active(w, c) && w.clients[c].Listing?
    ensures var w' := Step(w, List(c), size);
            && w'.log == w.log && w'.clients[c].grant == w.clients[c].grant
            && (w'.clients[c].Done? ==> DecidedBy(w, List(c), c, w.clients[c].grant, w'.clients[c].answer, size))
  {
    var g, w' := w.clients[c].grant, Step(w, List(c), size);
    ListedOk(w.cells, g, w.clients[c].attempt, size);
    Singleton(Matches(w.cells, g));
    if n :| Matches(w.cells, g) == {n} {
      assert n in Matches(w.cells, g);
      forall k | Matches(w.cells, g) == {k} ensures k == n { assert k in Matches(w.cells, g); }
      if Admit(w.cells[n], g, size).AlreadyThere? { assert Accepts(w, w', n, c, g, size); }
    }
  }

  /**
   Linearizability: a call that has ended took effect, or was refused, at one single step
   between its start and its end, as if the sequential object had been called right there;
   before and after that step it changed nothing.
  */
  lemma {:induction false} Linearizable(w: World, events: seq<Event>, c: nat, size: Size)
    requires Inv(w, size) && Active(w, c)
    requires forall e :: e in events ==> !(e.Begin? && e.c == c)
    requires c in Run(w, events, size).clients && Run(w, events, size).clients[c].Done?
    ensures exists k :: 0 <= k < |events| && LinearizedAt(w, events, c, k, size)
    decreases |events|
  {
    if events != [] {
      var e, rest, w1 := events[0], events[1..], Step(w, events[0], size);
      StepKeepsInv(w, e, size);
      CallStep(w, e, c, size);
      assert events[..0] == [] && events[..1] == [e] && [e][1..] == [];
      if w1.clients[c].Done? {
        EndedStays(w1, rest, c, size);
        assert Run(w, events[..1], size) == w1;
        assert LinearizedAt(w, events, c, 0, size);
      } else {
        Linearizable(w1, rest, c, size);
        var k :| 0 <= k < |rest| && LinearizedAt(w1, rest, c, k, size);
        RunTake(w, events, k, size);
        RunTake(w, events, k + 1, size);
        assert LinearizedAt(w, events, c, k + 1, size);
      }
    }
  }

  ghost predicate LinearizedAt(w: World, events: seq<Event>, c: nat, k: nat, size: Size)
    requires Active(w, c) && k < |events|
  {
    var end := Run(w, events, size);
    var u := Run(w, events[..k], size);
    && c in end.clients && end.clients[c].Done?
    && DecidedBy(u, events[k], c, w.clients[c].grant, end.clients[c].answer, size)
    && Commits(u.log, c) == Commits(w.log, c)
    && Commits(end.log, c) == Commits(Step(u, events[k], size).log, c)
  }

  lemma RunTake(w: World, events: seq<Event>, k: nat, size: Size)
    requires k < |events|
    ensures Run(w, events[..k + 1], size) == Run(Step(w, events[0], size), events[1..][..k], size)
  {
    assert events[..k + 1][0] == events[0] && events[..k + 1][1..] == events[1..][..k];
  }

  lemma {:induction false} EndedStays(w: World, events: seq<Event>, c: nat, size: Size)
    requires c in w.clients && w.clients[c].Done?
    requires forall e :: e in events ==> !(e.Begin? && e.c == c)
    ensures var w' := Run(w, events, size);
            c in w'.clients && w'.clients[c] == w.clients[c] && Commits(w'.log, c) == Commits(w.log, c)
    decreases |events|
  {
    if events != [] {
      assert events[0] in events;
      if !Own(events[0], c) { OtherStep(w, events[0], c, size); }
      EndedStays(Step(w, events[0], size), events[1..], c, size);
    }
  }

  // ---------------------------------------------------------------- at most five attempts

  function Budget(w: World, c: nat): int {
    if !Active(w, c) then 0
    else ATTEMPTS - w.clients[c].attempt - if w.clients[c].Patching? then 1 else 0
  }

  predicate Lists(w: World, e: Event, c: nat) {
    e == List(c) && Active(w, c) && w.clients[c].Listing?
  }

  /** How often a client lists during a run. */
  function Listings(w: World, events: seq<Event>, c: nat, size: Size): nat
    decreases |events|
  {
    if events == [] then 0
    else (if Lists(w, events[0], c) then 1 else 0) + Listings(Step(w, events[0], size), events[1..], c, size)
  }

  lemma BudgetStep(w: World, e: Event, c: nat, size: Size)
    requires Inv(w, size) && !(e.Begin? && e.c == c)
    ensures Budget(Step(w, e, size), c) + (if Lists(w, e, c) then 1 else 0) <= Budget(w, c)
  {
    if c in w.clients { assert ClientOk(w, w.clients[c], size); }
    if e.List? && Active(w, e.c) && w.clients[e.c].Listing? {
      ListedOk(w.cells, w.clients[e.c].grant, w.clients[e.c].attempt, size);
    }
  }

  /** One call lists at most five times: a conflict only ever leads to a fresh listing four times. */
  lemma {:induction false} AtMostFiveListings(w: World, events: seq<Event>, c: nat, size: Size)
    requires Inv(w, size) && forall e :: e in events ==> !(e.Begin? && e.c == c)
    ensures 0 <= Listings(w, events, c, size) <= Budget(w, c) <= ATTEMPTS
    decreases |events|
  {
    if c in w.clients { assert ClientOk(w, w.clients[c], size); }
    if events != [] {
      StepKeepsInv(w, events[0], size);
      BudgetStep(w, events[0], c, size);
      AtMostFiveListings(Step(w, events[0], size), events[1..], c, size);
    }
  }

  lemma {:induction false} RunConcat(w: World, a: seq<Event>, b: seq<Event>, size: Size)
    ensures Run(w, a + b, size) == Run(Run(w, a, size), b, size)
    decreases |a|
  {
    if a == [] {
      assert a + b == b;
    } else {
      assert (a + b)[0] == a[0] && (a + b)[1..] == a[1..] + b;
      RunConcat(Step(w, a[0], size), a[1..], b, size);
    }
  }
}

/** The code of one client: `private_access` on a cluster that anybody may change between its calls. */
module PrivateAccessClient {
  import opened Wrappers
  import opened AccessRegistry

  /** Around one await point: other actors' events, then perhaps a failed call, or a lost reply. */
  datatype Slot = Slot(others: seq<Event>, fault: Option<bool>, lost: bool)

  const CALM := Slot([], None, false)

  predicate OthersOnly(tape: seq<Slot>, c: nat) {
    forall i, e :: 0 <= i < |tape| && e in tape[i].others ==> e.Create? || e.Touch? || e.Delete? || e.c != c
  }

  function SlotAt(tape: seq<Slot>, i: nat): Slot {
    if i < |tape| then tape[i] else CALM
  }

  predicate Same(w: World, w': World, c: nat) {
    (c in w'.clients <==> c in w.clients) && (c in w.clients ==> w'.clients[c] == w.clients[c])
  }

  class Cluster {
    var w: World
    const size: Size
    ghost var start: World
    ghost var trace: seq<Event>

    ghost predicate Valid()
      reads this
    {
      Inv(start, size) && Inv(w, size) && w == Run(start, trace, size)
    }

    constructor (size: Size)
      ensures Valid() && w == EMPTY && start == EMPTY && trace == [] && this.size == size
    {
      this.size := size;
      w, start, trace := EMPTY, EMPTY, [];
    }

    method Act(e: Event)
      requires Valid()
      modifies this
      ensures Valid() && w == Step(old(w), e, size)
      ensures start == old(start) && trace == old(trace) + [e]
    {
      StepKeepsInv(w, e, size);
      RunConcat(start, trace, [e], size);
      assert [e][1..] == [];
      w := Step(w, e, size);
      trace := trace + [e];
    }

    method Other(c: nat, e: Event)
      requires Valid() && !Own(e, c)
      modifies this
      ensures Valid() && Same(old(w), w, c)
      ensures start == old(start) && trace == old(trace) + [e]
    {
      OtherStep(w, e, c, size);
      Act(e);
    }

    method Others(c: nat, events: seq<Event>)
      requires Valid() && forall e :: e in events ==> !Own(e, c)
      modifies this
      ensures Valid() && Same(old(w), w, c)
      ensures start == old(start) && trace == old(trace) + events
    {
      var i := 0;
      while i < |events|
        invariant i <= |events|
        invariant Valid() && Same(old(w), w, c)
        invariant start == old(start) && trace == old(trace) + events[..i]
      {
        assert events[i] in events;
        Other(c, events[i]);
        i := i + 1;
      }
    }
  }

  /** No event of the call that begins at `past` starts another call of the same client. */
  ghost predicate OneCall(past: seq<Event>, trace: seq<Event>, c: nat) {
    past <= trace && forall e :: e in trace[|past|..] ==> !(e.Begin? && e.c == c)
  }

  lemma OneCallGrows(past: seq<Event>, trace: seq<Event>, more: seq<Event>, c: nat)
    requires OneCall(past, trace, c) && forall e :: e in more ==> !(e.Begin? && e.c == c)
    ensures OneCall(past, trace + more, c)
  {
    assert (trace + more)[|past|..] == trace[|past|..] + more;
  }

  /** Where the decision taken on a listing leaves the call. */
  function After(plan: Result<Option<(string, Cell, Grants)>, Failure>, g: Grant, attempt: nat): Client {
    match plan
    case Ok(Some((name, cell, next))) => Patching(g, attempt, name, cell, next)
    case Ok(None) => Done(g, Ok(()))
    case Err(why) => if why == Conflict && attempt < ATTEMPTS - 1 then Listing(g, attempt + 1) else Done(g, Err(why))
  }

  /** List, pick the one matching cell, and decide on its registry. */
  method Inspect(k: Cluster, c: nat, g: Grant, attempt: nat, slot: Slot, ghost past: seq<Event>)
    returns (plan: Result<Option<(string, Cell, Grants)>, Failure>)
    requires k.Valid() && c in k.w.clients && k.w.clients[c] == Listing(g, attempt)
    requires OthersOnly([slot], c) && OneCall(past, k.trace, c) && attempt < ATTEMPTS
    modifies k
    ensures k.Valid() && k.start == old(k.start) && OneCall(past, k.trace, c) && c in k.w.clients
    ensures k.w.clients[c] == After(plan, g, attempt)
  {
    assert slot in [slot] && [slot][0] == slot;
    OneCallGrows(past, k.trace, slot.others, c);
    k.Others(c, slot.others);
    if slot.fault.Some? {
      OneCallGrows(past, k.trace, [Fails(c, slot.fault.value)], c);
      k.Act(Fails(c, slot.fault.value));
      return Err(if slot.fault.value then Conflict else Transport);
    }
    OneCallGrows(past, k.trace, [List(c)], c);
    var cells := k.w.cells;
    k.Act(List(c));
    plan := Choose(cells, g, attempt, k.size);
  }

  /** The checks of `private_access_once` in the order it makes them. */
  method Choose(cells: map<string, Cell>, g: Grant, attempt: nat, size: Size)
    returns (plan: Result<Option<(string, Cell, Grants)>, Failure>)
    ensures Listed(cells, g, attempt, size) == After(plan, g, attempt)
    ensures plan.Err? ==> plan.error != Conflict
  {
    var matches := set n | n in cells && cells[n].workspace == g.workspace && cells[n].instance == g.instance;
    assert matches == Matches(cells, g);
    Singleton(matches);
    if |matches| != 1 { return Err(Unavailable); }
    var name :| name in matches;
    var cell := cells[name];
    if !cell.open { return Err(Closing); }
    if cell.registry.Garbled? { return Err(Invalid); }
    var grants: Grants := if cell.registry.Readable? then cell.registry.grants else map[];
    if g.id in grants {
      var previous := grants[g.id];
      if previous.scope != g.scope || previous.principal != g.principal || previous.instance != g.instance {
        return Err(IdentityConflict);
      }
      if previous.revoked.Some? && g.revoked.None? { return Err(Revoked); }
      if previous == g { return Ok(None); }
    }
    grants := grants[g.id := g];
    if size(grants) > CAPACITY { return Err(TooLarge); }
    return Ok(Some((name, cell, grants)));
  }

  /** One attempt. */
  method Once(k: Cluster, c: nat, g: Grant, attempt: nat, tape: seq<Slot>, ghost past: seq<Event>) returns (answer: Answer)
    requires k.Valid() && c in k.w.clients && k.w.clients[c] == Listing(g, attempt)
    requires OthersOnly(tape, c) && OneCall(past, k.trace, c) && attempt < ATTEMPTS
    modifies k
    ensures k.Valid() && k.start == old(k.start) && OneCall(past, k.trace, c) && c in k.w.clients
    ensures k.w.clients[c] == if answer == Err(Conflict) && attempt < ATTEMPTS - 1 then Listing(g, attempt + 1)
                              else Done(g, answer)
  {
    var plan := Inspect(k, c, g, attempt, SlotAt(tape, 0), past);
    if plan.Err? { return Err(plan.error); }
    if plan.value.None? { return Ok(()); }
    answer := Write(k, c, SlotAt(tape, 1), past);
  }

  /** The guarded patch. */
  method Write(k: Cluster, c: nat, slot: Slot, ghost past: seq<Event>) returns (answer: Answer)
    requires k.Valid() && c in k.w.clients && k.w.clients[c].Patching? && k.w.clients[c].attempt < ATTEMPTS
    requires OthersOnly([slot], c) && OneCall(past, k.trace, c)
    modifies k
    ensures k.Valid() && k.start == old(k.start) && OneCall(past, k.trace, c) && c in k.w.clients
    ensures var x := old(k.w.clients[c]);
            k.w.clients[c] == if answer == Err(Conflict) && x.attempt < ATTEMPTS - 1 then Listing(x.grant, x.attempt + 1)
                              else Done(x.grant, answer)
  {
    assert slot in [slot] && [slot][0] == slot;
    var x := k.w.clients[c];
    OneCallGrows(past, k.trace, slot.others, c);
    k.Others(c, slot.others);
    if slot.fault.Some? {
      OneCallGrows(past, k.trace, [Fails(c, slot.fault.value)], c);
      k.Act(Fails(c, slot.fault.value));
      answer := Err(if slot.fault.value then Conflict else Transport);
    } else {
      OneCallGrows(past, k.trace, [Patch(c, slot.lost)], c);
      var cells := k.w.cells;
      k.Act(Patch(c, slot.lost));
      if x.name !in cells {
        answer := Err(Transport);
      } else if cells[x.name].version != x.cell.version {
        answer := Err(Conflict);
      } else {
        answer := if slot.lost then Err(Transport) else Ok(());
      }
    }
  }

  /**
   `private_access`: at most five attempts, each from a fresh listing; whatever others do
   meanwhile, the call is linearizable.
  */
  method PrivateAccess(k: Cluster, c: nat, g: Grant, tapes: seq<seq<Slot>>) returns (answer: Answer)
    requires k.Valid() && !Active(k.w, c)
    requires forall i :: 0 <= i < |tapes| ==> OthersOnly(tapes[i], c)
    modifies k
    ensures k.Valid() && k.start == old(k.start) && old(k.trace) + [Begin(c, g)] <= k.trace
    ensures c in k.w.clients && k.w.clients[c] == Done(g, answer)
    ensures var began := Step(old(k.w), Begin(c, g), k.size);
            var now := k.trace[|old(k.trace)| + 1..];
            && (exists n :: 0 <= n < |now| && LinearizedAt(began, now, c, n, k.size))
            && Listings(began, now, c, k.size) <= ATTEMPTS
  {
    k.Act(Begin(c, g));
    ghost var past := k.trace;
    var attempt := 0;
    while true
      invariant attempt < ATTEMPTS && k.Valid() && k.start == old(k.start) && OneCall(past, k.trace, c)
      invariant c in k.w.clients && k.w.clients[c] == Listing(g, attempt)
      decreases ATTEMPTS - attempt
    {
      answer := Once(k, c, g, attempt, if attempt < |tapes| then tapes[attempt] else [], past);
      if answer == Err(Conflict) && attempt < ATTEMPTS - 1 {
        attempt := attempt + 1;
        continue;
      }
      break;
    }
    WholeCall(k.start, past, k.trace, c, k.size);
  }

  /** `Linearizable` and `AtMostFiveListings` for the part of a trace that one call added. */
  lemma WholeCall(start: World, past: seq<Event>, trace: seq<Event>, c: nat, size: Size)
    requires Inv(start, size) && OneCall(past, trace, c) && Active(Run(start, past, size), c)
    requires c in Run(start, trace, size).clients && Run(start, trace, size).clients[c].Done?
    ensures var began, now := Run(start, past, size), trace[|past|..];
            && (exists n :: 0 <= n < |now| && LinearizedAt(began, now, c, n, size))
            && Listings(began, now, c, size) <= ATTEMPTS
  {
    var now := trace[|past|..];
    assert trace == past + now;
    RunConcat(start, past, now, size);
    RunKeepsInv(start, past, size);
    Linearizable(Run(start, past, size), now, c, size);
    AtMostFiveListings(Run(start, past, size), now, c, size);
  }
}
