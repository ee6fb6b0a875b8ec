/** Bundles of files and what verification accepts. */
module Bundles {
  import opened Wrappers

  /** A file is known by its contents' digest, which is taken to be injective, and its mode. */
  datatype File = File(digest: nat, mode: nat)

  type Tree = map<string, File>

  datatype Receipt = Receipt(size: nat, digest: nat, mode: nat)

  type Receipts = map<string, Receipt>

  /** How manifests are read and judged: parsing, file sizes, required payload, and the release policy on manifest and release info. */
  datatype Policy = Policy(parse: nat -> Option<Receipts>, size: nat -> nat, required: set<string>, accepts: (nat, nat) -> bool)

  const MANIFEST := "manifest.json"
  const RELEASE_INFO := "release-info.json"
  const EXECUTABLE := 493 // 0o755
  const PLAIN := 420      // 0o644

  function ModeOf(name: string): nat {
    if "bin/" <= name then EXECUTABLE else PLAIN
  }

  function Parts(path: string): seq<string> {
    if path == "" then [""]
    else
      var rest := Parts(path[1..]);
      if path[0] == '/' then [""] + rest else [[path[0]] + rest[0]] + rest[1..]
  }

  /** Only normal components: not absolute, nothing empty, no dots. */
  predicate SafeRelative(name: string) {
    forall i :: 0 <= i < |Parts(name)| ==> Parts(name)[i] !in {"", ".", ".."}
  }

  predicate Matches(t: Tree, name: string, receipt: Receipt, p: Policy) {
    && SafeRelative(name) && name in t
    && receipt.size > 0 && p.size(t[name].digest) == receipt.size && t[name].digest == receipt.digest
    && receipt.mode == ModeOf(name) && t[name].mode == receipt.mode
  }

  /** What verification accepts: exactly the listed files and the manifest, each as its receipt says. */
  predicate Verified(t: Tree, p: Policy) {
    && MANIFEST in t && p.parse(t[MANIFEST].digest).Some?
    && var receipts := p.parse(t[MANIFEST].digest).value;
       && p.required <= receipts.Keys && RELEASE_INFO in receipts && t.Keys == receipts.Keys + {MANIFEST}
       && (forall n :: n in receipts ==> Matches(t, n, receipts[n], p))
       && p.accepts(t[MANIFEST].digest, t[RELEASE_INFO].digest)
  }

  /** Two verified trees with one manifest hold the same files, whoever verified them: an id says everything about what it names. */
  lemma ManifestDeterminesTree(a: Tree, b: Tree, p: Policy, q: Policy)
    requires p.parse == q.parse
    requires Verified(a, p) && Verified(b, q) && a[MANIFEST].digest == b[MANIFEST].digest
    ensures a.Keys == b.Keys
    ensures forall n :: n in a ==> a[n].digest == b[n].digest && (n != MANIFEST ==> a[n].mode == b[n].mode)
  {
    var receipts := p.parse(a[MANIFEST].digest).value;
    forall n | n in a ensures a[n].digest == b[n].digest && (n != MANIFEST ==> a[n].mode == b[n].mode) {
      if n != MANIFEST { assert Matches(a, n, receipts[n], p) && Matches(b, n, receipts[n], q); }
    }
  }
}

/**
 Installing bundles under a prefix that any number of installers share.

 Installers run step by step and may stop at any of them; a bundle is somebody's directory
 and may change under an installer's eyes. The lock is released when its holder stops.
*/
module InstallerSteps {
  import opened Wrappers
  import opened Bundles

  /** What each installer's verification accepts; their release metadata and development flags may differ. */
  type Check = (nat, Tree) -> bool

  datatype Phase =
    | Began(expected: Option<nat>)
    | Locked(expected: Option<nat>)
    | Ready(expected: Option<nat>)
    | Hashed(expected: Option<nat>, id: nat)
    | Staging(expected: Option<nat>, id: nat, rest: set<string>, stage: Tree)
    | Staged(expected: Option<nat>, id: nat, stage: Tree)
    | Placed(expected: Option<nat>, id: nat)
    | Ended(outcome: Outcome)

  datatype Outcome = Installed(id: nat) | Refused | Stopped

  datatype Activation = Activation(expected: Option<nat>, before: Option<nat>, after: nat)

  datatype World = World(versions: map<nat, Tree>, current: Option<nat>, owned: bool, lock: Option<nat>,
                         bundles: map<nat, Tree>, clients: map<nat, Phase>, log: seq<Activation>)

  datatype Event =
    | Begin(c: nat, expected: Option<nat>)
    | Lock(c: nat)
    | Precondition(c: nat)
    | Hash(c: nat)
    | Inventory(c: nat)
    | Copy(c: nat, name: string)
    | VerifyStage(c: nat)
    | Place(c: nat)
    | Activate(c: nat)
    | Stop(c: nat)
    | Mutate(c: nat, bundle: Tree)

  const EMPTY := World(map[], None, false, None, map[], map[], [])

  predicate Running(w: World, c: nat) {
    c in w.clients && !w.clients[c].Ended?
  }

  predicate Holds(w: World, c: nat) {
    Running(w, c) && !w.clients[c].Began?
  }

  function To(w: World, c: nat, phase: Phase): World {
    w.(clients := w.clients[c := phase])
  }

  /** An installer that ends gives the lock back. */
  function End(w: World, c: nat, outcome: Outcome): World {
    To(w.(lock := if w.lock == Some(c) then None else w.lock), c, Ended(outcome))
  }

  predicate Named(t: Tree, id: nat) {
    MANIFEST in t && t[MANIFEST].digest == id
  }

  function BundleOf(w: World, c: nat): Tree {
    if c in w.bundles then w.bundles[c] else map[]
  }

  /** The bundle's id decides whether to verify what is installed under it or to stage a copy. */
  function AfterHashing(w: World, c: nat, expected: Option<nat>, ok: Check): World {
    var bundle := BundleOf(w, c);
    if MANIFEST !in bundle then End(w, c, Refused)
    else
      var id := bundle[MANIFEST].digest;
      if id !in w.versions then To(w, c, Hashed(expected, id))
      else if ok(c, w.versions[id]) && Named(w.versions[id], id) then To(w, c, Placed(expected, id))
      else End(w, c, Refused)
  }

  function Step(w: World, e: Event, ok: Check): World {
    match e
    case Begin(c, expected) =>
      if Running(w, c) then w
      else if (expected.Some? && !w.owned) || !ok(c, BundleOf(w, c)) then To(w, c, Ended(Refused))
      else To(w, c, Began(expected))
    case Lock(c) =>
      if !(Running(w, c) && w.clients[c].Began?) then w
      else if w.lock.Some? then To(w, c, Ended(Refused))
      else To(w.(lock := Some(c)), c, Locked(w.clients[c].expected))
    case Precondition(c) =>
      if !(Running(w, c) && w.clients[c].Locked?) then w
      else if w.clients[c].expected.Some? && w.current != w.clients[c].expected then End(w, c, Refused)
      else To(w.(owned := true), c, Ready(w.clients[c].expected))
    case Hash(c) =>
      if !(Running(w, c) && w.clients[c].Ready?) then w else AfterHashing(w, c, w.clients[c].expected, ok)
    case Inventory(c) =>
      if !(Running(w, c) && w.clients[c].Hashed?) then w
      else To(w, c, Staging(w.clients[c].expected, w.clients[c].id, BundleOf(w, c).Keys, map[]))
    case Copy(c, name) =>
      if !(Running(w, c) && w.clients[c].Staging? && name in w.clients[c].rest) then w
      else
        var x := w.clients[c];
        if name !in BundleOf(w, c) then End(w, c, Refused)
        else To(w, c, x.(rest := x.rest - {name}, stage := x.stage[name := BundleOf(w, c)[name]]))
    case VerifyStage(c) =>
      if !(Running(w, c) && w.clients[c].Staging? && w.clients[c].rest == {}) then w
      else if !ok(c, w.clients[c].stage) then End(w, c, Refused)
      else To(w, c, Staged(w.clients[c].expected, w.clients[c].id, w.clients[c].stage))
    case Place(c) =>
      if !(Running(w, c) && w.clients[c].Staged?) then w
      else
        var x := w.clients[c];
        To(w.(versions := w.versions[x.id := x.stage]), c, Placed(x.expected, x.id))
    case Activate(c) =>
      if !(Running(w, c) && w.clients[c].Placed?) then w
      else
        var x := w.clients[c];
        End(w.(current := Some(x.id), log := w.log + [Activation(x.expected, w.current, x.id)]), c, Installed(x.id))
    case Stop(c) =>
      if !Running(w, c) then w else End(w, c, Stopped)
    case Mutate(c, bundle) => w.(bundles := w.bundles[c := bundle])
  }

  function Run(w: World, events: seq<Event>, ok: Check): World
    decreases |events|
  {
    if events == [] then w else Run(Step(w, events[0], ok), events[1..], ok)
  }

}

/** What every run of the installers keeps. */
module Installer {
  import opened Wrappers
  import opened Bundles
  import opened InstallerSteps

  /** Some installer verified the tree. */
  ghost predicate Accepted(t: Tree, ok: Check) {
    exists c: nat :: ok(c, t)
  }

  ghost predicate PhaseOk(w: World, c: nat, x: Phase, ok: Check) {
    && (!x.Began? && !x.Ended? ==> w.lock == Some(c))
    && (x.Ready? || x.Hashed? || x.Staging? || x.Staged? || x.Placed? ==> w.owned && (x.expected.Some? ==> w.current == x.expected))
    && (x.Hashed? || x.Staging? || x.Staged? ==> x.id !in w.versions)
    && (x.Staged? ==> ok(c, x.stage))
    && (x.Placed? ==> x.id in w.versions && ok(c, w.versions[x.id]))
  }

  /** Activations form a chain, and a checked one replaced exactly what it expected. */
  ghost predicate Chain(log: seq<Activation>) {
    && (forall i, j :: 0 <= i && j == i + 1 < |log| ==> log[j].before == Some(log[i].after))
    && (forall i :: 0 <= i < |log| && log[i].expected.Some? ==> log[i].before == log[i].expected)
    && (log != [] ==> log[0].before == None)
  }

  ghost predicate Inv(w: World, ok: Check) {
    && (forall id :: id in w.versions ==> Accepted(w.versions[id], ok))
    && (w.current.Some? ==> w.current.value in w.versions)
    && w.current == (if w.log == [] then None else Some(w.log[|w.log| - 1].after))
    && Chain(w.log)
    && (forall c :: c in w.clients ==> PhaseOk(w, c, w.clients[c], ok))
  }

  lemma OnlyHolder(w: World, c: nat, d: nat, ok: Check)
    requires Inv(w, ok) && Holds(w, c) && d in w.clients && d != c
    ensures w.clients[d].Began? || w.clients[d].Ended?
  {
    assert PhaseOk(w, c, w.clients[c], ok) && PhaseOk(w, d, w.clients[d], ok);
  }

  lemma PlaceKeepsInv(w: World, c: nat, ok: Check)
    requires Inv(w, ok)
    ensures Inv(Step(w, Place(c), ok), ok)
  {
    var w' := Step(w, Place(c), ok);
    if Running(w, c) && w.clients[c].Staged? {
      assert PhaseOk(w, c, w.clients[c], ok);
      forall d | d in w'.clients ensures PhaseOk(w', d, w'.clients[d], ok) {
        if d != c { OnlyHolder(w, c, d, ok); }
      }
    }
  }

  lemma ActivateKeepsInv(w: World, c: nat, ok: Check)
    requires Inv(w, ok)
    ensures Inv(Step(w, Activate(c), ok), ok)
  {
    var w' := Step(w, Activate(c), ok);
    if Running(w, c) && w.clients[c].Placed? {
      assert PhaseOk(w, c, w.clients[c], ok);
      forall d | d in w'.clients ensures PhaseOk(w', d, w'.clients[d], ok) {
        if d != c { OnlyHolder(w, c, d, ok); }
      }
    }
  }

  ghost predicate Framed(w: World, w': World) {
    w'.versions == w.versions && w'.current == w.current && w'.log == w.log && (w.owned ==> w'.owned)
  }

  lemma EntryFrame(w: World, e: Event, ok: Check)
    requires e.Begin? || e.Lock? || e.Precondition? || e.Hash? || e.Inventory?
    ensures Framed(w, Step(w, e, ok))
  {
  }

  /** Steps other than placing and activating touch neither the versions nor `current`. */
  lemma Frame(w: World, e: Event, ok: Check)
    requires !e.Place? && !e.Activate?
    ensures Framed(w, Step(w, e, ok))
  {
    if e.Begin? || e.Lock? || e.Precondition? || e.Hash? || e.Inventory? { EntryFrame(w, e, ok); }
  }

  ghost predicate Untouched(w: World, w': World, d: nat) {
    && (d in w'.clients <==> d in w.clients) && (d in w.clients ==> w'.clients[d] == w.clients[d])
    && (w.lock == Some(d) ==> w'.lock == Some(d))
  }

  lemma EntryUntouched(w: World, e: Event, d: nat, ok: Check)
    requires d != e.c && (e.Begin? || e.Lock? || e.Precondition? || e.Hash? || e.Inventory?)
    ensures Untouched(w, Step(w, e, ok), d)
  {
  }

  lemma StagingUntouched(w: World, e: Event, d: nat, ok: Check)
    requires d != e.c && (e.Copy? || e.VerifyStage? || e.Place?)
    ensures Untouched(w, Step(w, e, ok), d)
  {
  }

  /** A step leaves the other installers, and the lock they hold, alone. */
  lemma OtherClient(w: World, e: Event, d: nat, ok: Check)
    requires d != e.c
    ensures Untouched(w, Step(w, e, ok), d)
  {
    if e.Begin? || e.Lock? || e.Precondition? || e.Hash? || e.Inventory? { EntryUntouched(w, e, d, ok); }
    else if e.Copy? || e.VerifyStage? || e.Place? { StagingUntouched(w, e, d, ok); }
  }

  lemma OwnPhase(w: World, e: Event, ok: Check)
    requires !e.Place? && !e.Activate? && (e.c in w.clients ==> PhaseOk(w, e.c, w.clients[e.c], ok))
    ensures var w' := Step(w, e, ok); e.c in w'.clients ==> PhaseOk(w', e.c, w'.clients[e.c], ok)
  {
  }

  lemma OtherKeepsInv(w: World, e: Event, ok: Check)
    requires Inv(w, ok) && !e.Place? && !e.Activate?
    ensures Inv(Step(w, e, ok), ok)
  {
    var w' := Step(w, e, ok);
    Frame(w, e, ok);
    OwnPhase(w, e, ok);
    forall d | d in w'.clients ensures PhaseOk(w', d, w'.clients[d], ok) {
      if d != e.c { OtherClient(w, e, d, ok); assert PhaseOk(w, d, w.clients[d], ok); }
    }
  }

  lemma StepKeepsInv(w: World, e: Event, ok: Check)
    requires Inv(w, ok)
    ensures Inv(Step(w, e, ok), ok)
  {
    if e.Place? { PlaceKeepsInv(w, e.c, ok); }
    else if e.Activate? { ActivateKeepsInv(w, e.c, ok); }
    else { OtherKeepsInv(w, e, ok); }
  }

  /**
   At every moment of every run: `current` is absent or names a version directory that was
   verified as a whole before it was renamed into place, and the activations form a chain in
   which every checked update replaced exactly the version it expected.
  */
  lemma {:induction false} Reachable(w: World, events: seq<Event>, ok: Check)
    requires Inv(w, ok)
    ensures Inv(Run(w, events, ok), ok)
    decreases |events|
  {
    if events != [] {
      StepKeepsInv(w, events[0], ok);
      Reachable(Step(w, events[0], ok), events[1..], ok);
    }
  }

  lemma StartsEmpty(ok: Check)
    ensures Inv(EMPTY, ok)
  {
  }

  lemma StepKeepsVersion(w: World, e: Event, ok: Check, id: nat)
    requires Inv(w, ok) && id in w.versions
    ensures var w' := Step(w, e, ok); id in w'.versions && w'.versions[id] == w.versions[id] && w.log <= w'.log
  {
    if e.Place? {
      if Running(w, e.c) { assert PhaseOk(w, e.c, w.clients[e.c], ok); }
    } else if !e.Activate? {
      Frame(w, e, ok);
    }
  }

  /** A version directory is never changed or removed, and activations are never forgotten. */
  lemma {:induction false} VersionsAreImmutable(w: World, events: seq<Event>, ok: Check, id: nat)
    requires Inv(w, ok) && id in w.versions
    ensures id in Run(w, events, ok).versions && Run(w, events, ok).versions[id] == w.versions[id]
    ensures w.log <= Run(w, events, ok).log
    decreases |events|
  {
    if events != [] {
      StepKeepsInv(w, events[0], ok);
      StepKeepsVersion(w, events[0], ok, id);
      VersionsAreImmutable(Step(w, events[0], ok), events[1..], ok, id);
    }
  }

  /** Whoever else runs, a holder of the lock sees `current` and the versions only change by its own steps. */
  lemma LockProtects(w: World, e: Event, c: nat, ok: Check)
    requires Inv(w, ok) && Holds(w, c) && e.c != c
    ensures var w' := Step(w, e, ok);
            && w'.current == w.current && w'.versions == w.versions && w'.log == w.log
            && w'.lock == w.lock && Holds(w', c) && w'.clients[c] == w.clients[c]
  {
    assert PhaseOk(w, c, w.clients[c], ok);
    if e.c in w.clients { OnlyHolder(w, c, e.c, ok); }
    OtherClient(w, e, c, ok);
    if !e.Place? && !e.Activate? { Frame(w, e, ok); }
  }

  // ---------------------------------------------------------------- names

  predicate StillBundles(events: seq<Event>) {
    forall e :: e in events ==> !e.Mutate?
  }

  /** A copy in progress is what has been copied of the bundle whose id was taken. */
  ghost predicate Faithful(w: World, c: nat, x: Phase) {
    match x
    case Hashed(_, id) => Named(BundleOf(w, c), id)
    case Staging(_, id, rest, stage) =>
      && Named(BundleOf(w, c), id) && rest <= BundleOf(w, c).Keys && stage == BundleOf(w, c) - rest
    case Staged(_, id, stage) => Named(stage, id)
    case _ => true
  }

  ghost predicate WellNamed(w: World) {
    && (forall id :: id in w.versions ==> Named(w.versions[id], id))
    && (forall c :: c in w.clients ==> Faithful(w, c, w.clients[c]))
  }

  lemma OwnNames(w: World, e: Event, ok: Check)
    requires !e.Mutate? && (e.c in w.clients ==> Faithful(w, e.c, w.clients[e.c]))
    ensures var w' := Step(w, e, ok); e.c in w'.clients ==> Faithful(w', e.c, w'.clients[e.c])
  {
  }

  lemma VersionNames(w: World, e: Event, ok: Check, id: nat)
    requires WellNamed(w) && id in Step(w, e, ok).versions
    ensures Named(Step(w, e, ok).versions[id], id)
  {
    if e.Place? {
      if e.c in w.clients { assert Faithful(w, e.c, w.clients[e.c]); }
    } else if !e.Activate? {
      Frame(w, e, ok);
    }
  }

  lemma StepKeepsNames(w: World, e: Event, ok: Check)
    requires WellNamed(w) && !e.Mutate?
    ensures WellNamed(Step(w, e, ok))
  {
    var w' := Step(w, e, ok);
    OwnNames(w, e, ok);
    BundlesStay(w, e, ok);
    forall d | d in w'.clients ensures Faithful(w', d, w'.clients[d]) {
      if d != e.c { OtherClient(w, e, d, ok); assert Faithful(w, d, w.clients[d]); }
    }
    forall id | id in w'.versions ensures Named(w'.versions[id], id) { VersionNames(w, e, ok, id); }
  }

  lemma BundlesStay(w: World, e: Event, ok: Check)
    requires !e.Mutate?
    ensures Step(w, e, ok).bundles == w.bundles
  {
  }

  /** While nobody touches the bundles, every version directory is named by the digest of its own manifest. */
  lemma {:induction false} StillBundlesNameVersions(w: World, events: seq<Event>, ok: Check)
    requires WellNamed(w) && StillBundles(events)
    ensures WellNamed(Run(w, events, ok))
    decreases |events|
  {
    if events != [] {
      StepKeepsNames(w, events[0], ok);
      StillBundlesNameVersions(Step(w, events[0], ok), events[1..], ok);
    }
  }

  /** The manifest of an installer's bundle at one moment. */
  function ManifestOf(w: World, c: nat): Option<nat> {
    var bundle := BundleOf(w, c);
    if MANIFEST in bundle then Some(bundle[MANIFEST].digest) else None
  }

  predicate OneSession(events: seq<Event>, c: nat) {
    forall e :: e in events ==> !(e.Begin? && e.c == c)
  }

  /** The step of a run at which an installer takes its bundle's id. */
  ghost predicate HashesAt(w: World, events: seq<Event>, c: nat, h: nat, id: nat, ok: Check) {
    && h < |events| && events[h] == Hash(c)
    && var u := Run(w, events[..h], ok);
       Running(u, c) && u.clients[c].Ready? && ManifestOf(u, c) == Some(id)
  }

  /** The step of a run at which an installer copies its bundle's manifest. */
  ghost predicate CopiesManifestAt(w: World, events: seq<Event>, c: nat, k: nat, stage: Tree, ok: Check) {
    && k < |events| && events[k] == Copy(c, MANIFEST)
    && var u := Run(w, events[..k], ok);
       && Running(u, c) && u.clients[c].Staging? && MANIFEST in u.clients[c].rest
       && MANIFEST in stage && ManifestOf(u, c) == Some(stage[MANIFEST].digest)
  }

  lemma HashesLater(w: World, events: seq<Event>, c: nat, h: nat, id: nat, ok: Check)
    requires events != [] && HashesAt(Step(w, events[0], ok), events[1..], c, h, id, ok)
    ensures HashesAt(w, events, c, h + 1, id, ok)
  {
    RunTake(w, events, h, ok);
  }

  lemma CopiesLater(w: World, events: seq<Event>, c: nat, k: nat, stage: Tree, ok: Check)
    requires events != [] && CopiesManifestAt(Step(w, events[0], ok), events[1..], c, k, stage, ok)
    ensures CopiesManifestAt(w, events, c, k + 1, stage, ok)
  {
    RunTake(w, events, k, ok);
  }

  lemma RunTake(w: World, events: seq<Event>, k: nat, ok: Check)
    requires k < |events|
    ensures Run(w, events[..k + 1], ok) == Run(Step(w, events[0], ok), events[1..][..k], ok)
  {
    assert events[..k + 1][0] == events[0] && events[..k + 1][1..] == events[1..][..k];
  }

  /** Once an installer has ended, nothing but a new session sets it going. */
  lemma {:induction false} EndedStays(w: World, events: seq<Event>, c: nat, ok: Check)
    requires c in w.clients && w.clients[c].Ended? && OneSession(events, c)
    ensures Run(w, events, ok).clients.Keys >= {c} && Run(w, events, ok).clients[c].Ended?
    decreases |events|
  {
    if events != [] {
      assert events[0] in events;
      if events[0].c != c { OtherClient(w, events[0], c, ok); }
      EndedStays(Step(w, events[0], ok), events[1..], c, ok);
    }
  }

  /** Where an installer that is copying, or past it, may get by one step. */
  ghost predicate StagingStep(x: Phase, y: Phase, w: World, e: Event, c: nat) {
    || y == x
    || y.Ended?
    || (x.Hashed? && y.Staging? && y.id == x.id && y.stage == map[] && y.rest == BundleOf(w, c).Keys)
    || (x.Staging? && e.Copy? && e.c == c && e.name in x.rest && e.name in BundleOf(w, c)
        && y == x.(rest := x.rest - {e.name}, stage := x.stage[e.name := BundleOf(w, c)[e.name]]))
    || (x.Staging? && x.rest == {} && y == Staged(x.expected, x.id, x.stage))
    || (x.Staged? && y == Placed(x.expected, x.id))
  }

  lemma StagingStepHolds(w: World, e: Event, c: nat, ok: Check)
    requires c in w.clients && (w.clients[c].Hashed? || w.clients[c].Staging? || w.clients[c].Staged?)
    ensures c in Step(w, e, ok).clients && StagingStep(w.clients[c], Step(w, e, ok).clients[c], w, e, c)
  {
    if e.c != c { OtherClient(w, e, c, ok); }
  }

  /** A placed installer stays placed, or ends. */
  lemma {:induction false} PlacedStays(w: World, events: seq<Event>, c: nat, ok: Check)
    requires c in w.clients && w.clients[c].Placed? && OneSession(events, c)
    ensures c in Run(w, events, ok).clients && (Run(w, events, ok).clients[c].Placed? || Run(w, events, ok).clients[c].Ended?)
    decreases |events|
  {
    if events != [] {
      assert events[0] in events;
      if events[0].c != c { OtherClient(w, events[0], c, ok); }
      var w1 := Step(w, events[0], ok);
      if w1.clients[c].Ended? { EndedStays(w1, events[1..], c, ok); } else { PlacedStays(w1, events[1..], c, ok); }
    }
  }

  /** What is in the stage stays there, and the id stays the one taken. */
  lemma {:induction false} CopiedManifestStays(w: World, events: seq<Event>, c: nat, ok: Check)
    requires c in w.clients && OneSession(events, c)
    requires w.clients[c].Staged? || (w.clients[c].Staging? && MANIFEST !in w.clients[c].rest)
    requires c in Run(w, events, ok).clients && Run(w, events, ok).clients[c].Staged?
    ensures var x, y := w.clients[c], Run(w, events, ok).clients[c];
            y.id == x.id && (MANIFEST in y.stage <==> MANIFEST in x.stage) && (MANIFEST in x.stage ==> y.stage[MANIFEST] == x.stage[MANIFEST])
    decreases |events|
  {
    if events != [] {
      var w1, rest := Step(w, events[0], ok), events[1..];
      assert forall e :: e in rest ==> e in events;
      StagingStepHolds(w, events[0], c, ok);
      if w1.clients[c].Ended? { EndedStays(w1, rest, c, ok); }
      else if w1.clients[c].Placed? { PlacedStays(w1, rest, c, ok); }
      else { CopiedManifestStays(w1, rest, c, ok); }
    }
  }

  /** An installer that has taken its id copies the manifest at one step of the run, if it comes to stage one. */
  lemma {:induction false} CopiesManifest(w: World, events: seq<Event>, c: nat, ok: Check) returns (k: nat)
    requires c in w.clients && OneSession(events, c)
    requires w.clients[c].Hashed? || (w.clients[c].Staging? && MANIFEST !in w.clients[c].stage)
    requires c in Run(w, events, ok).clients && Run(w, events, ok).clients[c].Staged?
    requires MANIFEST in Run(w, events, ok).clients[c].stage
    ensures Run(w, events, ok).clients[c].id == w.clients[c].id
    ensures CopiesManifestAt(w, events, c, k, Run(w, events, ok).clients[c].stage, ok)
    decreases |events|
  {
    var w1, rest := Step(w, events[0], ok), events[1..];
    assert forall e :: e in rest ==> e in events;
    StagingStepHolds(w, events[0], c, ok);
    var x, y := w.clients[c], w1.clients[c];
    if y.Ended? {
      EndedStays(w1, rest, c, ok);
      assert false;
    } else if y.Staged? || (y.Staging? && MANIFEST !in y.rest) {
      CopiedManifestStays(w1, rest, c, ok);
      k := 0;
      assert events[..0] == [];
    } else {
      k := CopiesManifest(w1, rest, c, ok);
      CopiesLater(w, events, c, k, Run(w, events, ok).clients[c].stage, ok);
      k := k + 1;
    }
  }

  /** A ready installer takes its id at one step of the run, and copies the manifest at a later one, if it comes to stage a tree. */
  lemma {:induction false} HashesThenCopies(w: World, events: seq<Event>, c: nat, ok: Check) returns (h: nat, k: nat)
    requires c in w.clients && w.clients[c].Ready? && OneSession(events, c)
    requires c in Run(w, events, ok).clients && Run(w, events, ok).clients[c].Staged?
    requires MANIFEST in Run(w, events, ok).clients[c].stage
    ensures h < k && HashesAt(w, events, c, h, Run(w, events, ok).clients[c].id, ok)
    ensures CopiesManifestAt(w, events, c, k, Run(w, events, ok).clients[c].stage, ok)
    decreases |events|
  {
    var w1, rest := Step(w, events[0], ok), events[1..];
    assert forall e :: e in rest ==> e in events;
    ReadyStep(w, events[0], c, ok);
    var y := w1.clients[c];
    h, k := 0, 0;
    if y.Ended? {
      EndedStays(w1, rest, c, ok);
      assert false;
    } else if y.Placed? {
      PlacedStays(w1, rest, c, ok);
      assert false;
    } else if y.Hashed? {
      k := CopiesManifest(w1, rest, c, ok);
      CopiesLater(w, events, c, k, Run(w, events, ok).clients[c].stage, ok);
      k := k + 1;
      assert events[..0] == [];
    } else {
      h, k := HashesThenCopies(w1, rest, c, ok);
      HashesLater(w, events, c, h, Run(w, events, ok).clients[c].id, ok);
      CopiesLater(w, events, c, k, Run(w, events, ok).clients[c].stage, ok);
      h, k := h + 1, k + 1;
    }
  }

  lemma ReadyStep(w: World, e: Event, c: nat, ok: Check)
    requires c in w.clients && w.clients[c].Ready?
    ensures var w' := Step(w, e, ok);
            && c in w'.clients
            && (w'.clients[c] == w.clients[c] || w'.clients[c].Ended? || w'.clients[c].Placed?
                || (e == Hash(c) && w'.clients[c].Hashed? && ManifestOf(w, c) == Some(w'.clients[c].id)))
  {
    if e.c != c { OtherClient(w, e, c, ok); }
  }

  /**
   Otherwise it need not be: the staged copy is verified against its own manifest, but not
   against the id taken before copying. Over every run in which an installer goes from under
   the lock to placing a version, the version is misnamed if and only if the bundle's manifest
   when it was copied was not the one that had been hashed.
  */
  lemma MisnamedIffManifestChanged(w: World, events: seq<Event>, c: nat, ok: Check)
    requires Inv(w, ok) && c in w.clients && w.clients[c].Ready? && OneSession(events, c)
    requires c in Run(w, events, ok).clients && Run(w, events, ok).clients[c].Staged?
    requires MANIFEST in Run(w, events, ok).clients[c].stage
    ensures var end := Run(w, events, ok);
            var x, versions := end.clients[c], Step(end, Place(c), ok).versions;
            x.id in versions && Accepted(versions[x.id], ok) &&
            exists h: nat, k: nat ::
              && h < k && HashesAt(w, events, c, h, x.id, ok) && CopiesManifestAt(w, events, c, k, x.stage, ok)
              && (!Named(versions[x.id], x.id) <==> ManifestOf(Run(w, events[..k], ok), c) != ManifestOf(Run(w, events[..h], ok), c))
  {
    var h, k := HashesThenCopies(w, events, c, ok);
    Reachable(w, events, ok);
    var end := Run(w, events, ok);
    assert PhaseOk(end, c, end.clients[c], ok);
  }

  /** A misnamed version stays, and every later install of what it is named by is refused. */
  lemma MisnamedStaysRefused(w: World, events: seq<Event>, id: nat, d: nat, expected: Option<nat>, ok: Check)
    requires Inv(w, ok) && id in w.versions && !Named(w.versions[id], id)
    ensures var w' := Run(w, events, ok);
            ManifestOf(w', d) == Some(id) ==> AfterHashing(w', d, expected, ok).clients[d] == Ended(Refused)
  {
    VersionsAreImmutable(w, events, ok, id);
  }

  /** The smallest such run: the bundle is swapped for another verified one between hashing and copying. */
  lemma SwappedBundleIsMisnamed(ok: Check, a: Tree, b: Tree, names: seq<string>)
    requires ok(0, a) && ok(0, b) && MANIFEST in a && MANIFEST in b && a[MANIFEST].digest != b[MANIFEST].digest
    requires (forall n :: n in names <==> n in b) && (forall i, j :: 0 <= i < j < |names| ==> names[i] != names[j])
    ensures var w := Run(Run(EMPTY, Swap(a, b), ok), Copies(names) + [VerifyStage(0), Place(0)], ok);
            var id := a[MANIFEST].digest;
            w.versions == map[id := b] && !Named(w.versions[id], id)
  {
    SwapRun(ok, a, b, names);
    SwapPlaces(ok, a, b);
    var w := Run(EMPTY, Swap(a, b), ok);
    RunSnoc(w, Copies(names), VerifyStage(0), ok);
    RunSnoc(w, Copies(names) + [VerifyStage(0)], Place(0), ok);
    assert Copies(names) + [VerifyStage(0), Place(0)] == Copies(names) + [VerifyStage(0)] + [Place(0)];
  }

  function Swap(a: Tree, b: Tree): seq<Event> {
    ToHash(a) + [Mutate(0, b)] + [Inventory(0)]
  }

  lemma SwapRun(ok: Check, a: Tree, b: Tree, names: seq<string>)
    requires ok(0, a) && MANIFEST in a
    requires (forall n :: n in names <==> n in b) && (forall i, j :: 0 <= i < j < |names| ==> names[i] != names[j])
    ensures Run(Run(EMPTY, Swap(a, b), ok), Copies(names), ok) == Swapped(a, b)
  {
    StepsToHash(ok, a);
    RunSnoc(EMPTY, ToHash(a), Mutate(0, b), ok);
    RunSnoc(EMPTY, ToHash(a) + [Mutate(0, b)], Inventory(0), ok);
    var id := a[MANIFEST].digest;
    var w1 := AfterHash(a).(bundles := map[0 := b]);
    var w2 := w1.(clients := map[0 := Staging(None, id, b.Keys, map[])]);
    assert Step(AfterHash(a), Mutate(0, b), ok) == w1;
    assert Step(w1, Inventory(0), ok) == w2;
    CopiesAll(w2, ok, names, b);
    assert w2.(clients := map[0 := w2.clients[0].(rest := {}, stage := b)]) == Swapped(a, b);
  }

  lemma SwapPlaces(ok: Check, a: Tree, b: Tree)
    requires ok(0, b) && MANIFEST in a
    ensures Step(Step(Swapped(a, b), VerifyStage(0), ok), Place(0), ok).versions == map[a[MANIFEST].digest := b]
  {
    var w, id := Swapped(a, b), a[MANIFEST].digest;
    assert Step(w, VerifyStage(0), ok) == w.(clients := map[0 := Staged(None, id, b)]);
  }

  function Swapped(a: Tree, b: Tree): World
    requires MANIFEST in a
  {
    EMPTY.(owned := true, lock := Some(0), bundles := map[0 := b],
           clients := map[0 := Staging(None, a[MANIFEST].digest, {}, b)])
  }

  function ToHash(a: Tree): seq<Event> {
    [Mutate(0, a), Begin(0, None), Lock(0), Precondition(0), Hash(0)]
  }

  function AfterHash(a: Tree): World
    requires MANIFEST in a
  {
    EMPTY.(owned := true, lock := Some(0), bundles := map[0 := a],
           clients := map[0 := Hashed(None, a[MANIFEST].digest)])
  }

  lemma StepsToHash(ok: Check, a: Tree)
    requires ok(0, a) && MANIFEST in a
    ensures Run(EMPTY, ToHash(a), ok) == AfterHash(a)
  {
    var w1 := EMPTY.(bundles := map[0 := a]);
    var w2 := w1.(clients := map[0 := Began(None)]);
    var w3 := w1.(lock := Some(0), clients := map[0 := Locked(None)]);
    var w4 := w3.(owned := true, clients := map[0 := Ready(None)]);
    assert Step(EMPTY, Mutate(0, a), ok) == w1;
    assert Step(w1, Begin(0, None), ok) == w2;
    assert Step(w2, Lock(0), ok) == w3;
    assert Step(w3, Precondition(0), ok) == w4;
    assert Step(w4, Hash(0), ok) == AfterHash(a);
    RunFive(EMPTY, ToHash(a), ok);
  }

  lemma RunFive(w: World, es: seq<Event>, ok: Check)
    requires |es| == 5
    ensures Run(w, es, ok) == Step(Step(Step(Step(Step(w, es[0], ok), es[1], ok), es[2], ok), es[3], ok), es[4], ok)
  {
    RunSnoc(w, [], es[0], ok);
    RunSnoc(w, [es[0]], es[1], ok);
    RunSnoc(w, [es[0], es[1]], es[2], ok);
    RunSnoc(w, [es[0], es[1], es[2]], es[3], ok);
    RunSnoc(w, [es[0], es[1], es[2], es[3]], es[4], ok);
    assert [] + [es[0]] == [es[0]];
    assert [es[0]] + [es[1]] == [es[0], es[1]];
    assert [es[0], es[1]] + [es[2]] == [es[0], es[1], es[2]];
    assert [es[0], es[1], es[2]] + [es[3]] == [es[0], es[1], es[2], es[3]];
    assert [es[0], es[1], es[2], es[3]] + [es[4]] == es;
  }

  lemma {:induction false} RunSnoc(w: World, events: seq<Event>, e: Event, ok: Check)
    ensures Run(w, events + [e], ok) == Step(Run(w, events, ok), e, ok)
    decreases |events|
  {
    if events == [] {
      assert ([] + [e])[1..] == [];
    } else {
      assert (events + [e])[0] == events[0] && (events + [e])[1..] == events[1..] + [e];
      RunSnoc(Step(w, events[0], ok), events[1..], e, ok);
    }
  }

  function Copies(names: seq<string>): seq<Event> {
    seq(|names|, i requires 0 <= i < |names| => Copy(0, names[i]))
  }

  lemma {:induction false} CopiesAll(w: World, ok: Check, names: seq<string>, b: Tree)
    requires w.clients.Keys == {0} && w.clients[0].Staging? && BundleOf(w, 0) == b
    requires w.clients[0].rest <= b.Keys && w.clients[0].stage == b - w.clients[0].rest
    requires forall n :: n in names <==> n in w.clients[0].rest
    requires forall i, j :: 0 <= i < j < |names| ==> names[i] != names[j]
    ensures Run(w, Copies(names), ok) == w.(clients := map[0 := w.clients[0].(rest := {}, stage := b)])
    decreases |names|
  {
    var x := w.clients[0];
    if names == [] {
      assert x.rest == {};
      assert b - {} == b;
      assert w.clients == map[0 := x];
    } else {
      var n, others := names[0], names[1..];
      var x1 := x.(rest := x.rest - {n}, stage := x.stage[n := b[n]]);
      var w1 := To(w, 0, x1);
      assert Copies(names)[0] == Copy(0, n) && Copies(names)[1..] == Copies(others);
      assert b - (x.rest - {n}) == x1.stage;
      CopiesAll(w1, ok, others, b);
    }
  }

  // ---------------------------------------------------------------- with the real verification

  function Checker(policies: nat -> Policy): Check {
    (c: nat, t: Tree) => Verified(t, policies(c))
  }

  /** From an empty prefix, whatever the installers do and wherever they stop, each with its own policy. */
  lemma CurrentIsVerified(events: seq<Event>, policies: nat -> Policy)
    ensures var w := Run(EMPTY, events, Checker(policies));
            && (w.current.Some? ==>
                  w.current.value in w.versions && exists c: nat :: Verified(w.versions[w.current.value], policies(c)))
            && Chain(w.log)
            && (StillBundles(events) && w.current.Some? ==> Named(w.versions[w.current.value], w.current.value))
  {
    StartsEmpty(Checker(policies));
    Reachable(EMPTY, events, Checker(policies));
    if StillBundles(events) { StillBundlesNameVersions(EMPTY, events, Checker(policies)); }
    var w := Run(EMPTY, events, Checker(policies));
    if w.current.Some? {
      var c: nat :| Checker(policies)(c, w.versions[w.current.value]);
      assert Verified(w.versions[w.current.value], policies(c));
    }
  }
}

/** The prefix as installers share it, and the verification they run on trees. */
module InstallerPrefix {
  import opened Wrappers
  import opened Bundles
  import opened InstallerSteps
  import opened Installer

  /** `verify_with_metadata`: inventory, required payload, every receipt, then the release policy. */
  method VerifyTree(t: Tree, p: Policy) returns (verified: bool)
    ensures verified <==> Verified(t, p)
  {
    if MANIFEST !in t { return false; }
    var parsed := p.parse(t[MANIFEST].digest);
    if parsed.None? { return false; }
    var receipts := parsed.value;
    if !(p.required <= receipts.Keys && RELEASE_INFO in receipts) { return false; }
    if t.Keys != receipts.Keys + {MANIFEST} { return false; }
    var rest := receipts.Keys;
    while rest != {}
      invariant rest <= receipts.Keys
      invariant forall n :: n in receipts && n !in rest ==> Matches(t, n, receipts[n], p)
    {
      var n :| n in rest;
      var receipt := receipts[n];
      if !SafeRelative(n) { return false; }
      if !(receipt.size > 0 && p.size(t[n].digest) == receipt.size && t[n].digest == receipt.digest) { return false; }
      var mode := if "bin/" <= n then EXECUTABLE else PLAIN;
      if receipt.mode != mode || t[n].mode != mode { return false; }
      rest := rest - {n};
    }
    return p.accepts(t[MANIFEST].digest, t[RELEASE_INFO].digest);
  }

  function PhaseOf(w: World, c: nat): Phase {
    if c in w.clients then w.clients[c] else Ended(Stopped)
  }

  /** What a step under the lock may not touch. */
  predicate SameActivations(w: World, w': World) {
    w'.current == w.current && w'.log == w.log
  }

  lemma OthersStep(w: World, e: Event, c: nat, ok: Check)
    requires Inv(w, ok) && (e.Mutate? || e.c != c)
    ensures PhaseOf(Step(w, e, ok), c) == PhaseOf(w, c)
    ensures Holds(w, c) ==> SameActivations(w, Step(w, e, ok)) && Step(w, e, ok).versions == w.versions
  {
    if !e.Mutate? {
      OtherClient(w, e, c, ok);
      if Holds(w, c) { LockProtects(w, e, c, ok); }
    }
  }

  class Prefix {
    var w: World
    const policies: nat -> Policy

    ghost predicate Valid()
      reads this
    {
      Inv(w, Checker(policies))
    }

    constructor (policies: nat -> Policy)
      ensures Valid() && w == EMPTY && this.policies == policies
    {
      this.policies := policies;
      w := EMPTY;
    }

    method Act(e: Event)
      requires Valid()
      modifies this
      ensures Valid() && w == Step(old(w), e, Checker(policies))
    {
      StepKeepsInv(w, e, Checker(policies));
      w := Step(w, e, Checker(policies));
    }

    /** What others do meanwhile; while this installer holds the lock, only bundles change under it. */
    method Others(c: nat, events: seq<Event>)
      requires Valid() && forall e :: e in events ==> e.Mutate? || e.c != c
      modifies this
      ensures Valid() && PhaseOf(w, c) == PhaseOf(old(w), c)
      ensures Holds(old(w), c) ==> SameActivations(old(w), w) && w.versions == old(w).versions
    {
      var i := 0;
      while i < |events|
        invariant i <= |events| && Valid() && PhaseOf(w, c) == PhaseOf(old(w), c)
        invariant Holds(old(w), c) ==> SameActivations(old(w), w) && w.versions == old(w).versions
      {
        assert events[i] in events;
        OthersStep(w, events[i], c, Checker(policies));
        Act(events[i]);
        i := i + 1;
      }
    }
  }
}

/** The single operations of one installer, each deciding on what it finds. */
module InstallerOperations {
  import opened Wrappers
  import opened Bundles
  import opened InstallerSteps
  import opened Installer
  import opened InstallerPrefix

  lemma BeginStep(w: World, c: nat, expected: Option<nat>, ok: Check)
    requires !Running(w, c)
    ensures PhaseOf(Step(w, Begin(c, expected), ok), c)
         == if (expected.Some? && !w.owned) || !ok(c, BundleOf(w, c)) then Ended(Refused) else Began(expected)
  {
  }

  method VerifyBundle(k: Prefix, c: nat, expected: Option<nat>) returns (began: bool)
    requires k.Valid() && !Running(k.w, c)
    modifies k
    ensures k.Valid() && PhaseOf(k.w, c) == if began then Began(expected) else Ended(Refused)
  {
    BeginStep(k.w, c, expected, Checker(k.policies));
    var disappeared := expected.Some? && !k.w.owned;
    var verified := VerifyTree(BundleOf(k.w, c), k.policies(c));
    k.Act(Begin(c, expected));
    return !disappeared && verified;
  }

  lemma LockStep(w: World, c: nat, ok: Check)
    requires PhaseOf(w, c).Began?
    ensures PhaseOf(Step(w, Lock(c), ok), c) == if w.lock.Some? then Ended(Refused) else Locked(PhaseOf(w, c).expected)
  {
  }

  method TakeLock(k: Prefix, c: nat) returns (taken: bool)
    requires k.Valid() && PhaseOf(k.w, c).Began?
    modifies k
    ensures k.Valid() && PhaseOf(k.w, c) == if taken then Locked(old(PhaseOf(k.w, c)).expected) else Ended(Refused)
  {
    LockStep(k.w, c, Checker(k.policies));
    taken := k.w.lock.None?;
    k.Act(Lock(c));
  }

  lemma PreconditionStep(w: World, c: nat, ok: Check)
    requires PhaseOf(w, c).Locked?
    ensures PhaseOf(Step(w, Precondition(c), ok), c)
         == if PhaseOf(w, c).expected.Some? && w.current != PhaseOf(w, c).expected then Ended(Refused)
            else Ready(PhaseOf(w, c).expected)
  {
  }

  method CheckPrecondition(k: Prefix, c: nat) returns (ready: bool)
    requires k.Valid() && PhaseOf(k.w, c).Locked?
    modifies k
    ensures k.Valid() && PhaseOf(k.w, c) == if ready then Ready(old(PhaseOf(k.w, c)).expected) else Ended(Refused)
  {
    PreconditionStep(k.w, c, Checker(k.policies));
    var expected := k.w.clients[c].expected;
    ready := expected.None? || k.w.current == expected;
    k.Act(Precondition(c));
  }

  /** The bundle's id, and whether a verified version of that name is there. */
  type Found = Option<(nat, bool)>

  /** Where taking the bundle's id leads. */
  function PhaseAfterHash(found: Found, expected: Option<nat>): Phase {
    match found
    case None => Ended(Refused)
    case Some((id, installed)) => if installed then Placed(expected, id) else Hashed(expected, id)
  }

  function FoundIn(c: nat, bundle: Tree, versions: map<nat, Tree>, ok: Check): Found {
    if MANIFEST !in bundle then None
    else
      var id := bundle[MANIFEST].digest;
      if id !in versions then Some((id, false))
      else if ok(c, versions[id]) && Named(versions[id], id) then Some((id, true)) else None
  }

  /** An installed version counts only if it verifies and carries the manifest it is named by. */
  method LookUp(c: nat, bundle: Tree, versions: map<nat, Tree>, policies: nat -> Policy) returns (found: Found)
    ensures found == FoundIn(c, bundle, versions, Checker(policies))
  {
    if MANIFEST !in bundle { return None; }
    var id := bundle[MANIFEST].digest;
    if id !in versions { return Some((id, false)); }
    var verified := VerifyTree(versions[id], policies(c));
    return if verified && versions[id][MANIFEST].digest == id then Some((id, true)) else None;
  }

  lemma HashStep(w: World, c: nat, expected: Option<nat>, ok: Check)
    requires PhaseOf(w, c) == Ready(expected)
    ensures var w' := Step(w, Hash(c), ok);
            && SameActivations(w, w')
            && PhaseOf(w', c) == PhaseAfterHash(FoundIn(c, BundleOf(w, c), w.versions, ok), expected)
  {
  }

  method HashManifest(k: Prefix, c: nat) returns (found: Found)
    requires k.Valid() && PhaseOf(k.w, c).Ready?
    modifies k
    ensures k.Valid() && SameActivations(old(k.w), k.w)
    ensures PhaseOf(k.w, c) == PhaseAfterHash(found, old(PhaseOf(k.w, c)).expected)
  {
    HashStep(k.w, c, PhaseOf(k.w, c).expected, Checker(k.policies));
    found := LookUp(c, BundleOf(k.w, c), k.w.versions, k.policies);
    k.Act(Hash(c));
  }

  lemma InventoryStep(w: World, c: nat, ok: Check)
    requires PhaseOf(w, c).Hashed?
    ensures var x, w' := PhaseOf(w, c), Step(w, Inventory(c), ok);
            SameActivations(w, w') && PhaseOf(w', c) == Staging(x.expected, x.id, BundleOf(w, c).Keys, map[])
  {
  }

  method ListFiles(k: Prefix, c: nat) returns (files: set<string>)
    requires k.Valid() && PhaseOf(k.w, c).Hashed?
    modifies k
    ensures k.Valid() && SameActivations(old(k.w), k.w)
    ensures PhaseOf(k.w, c) == Staging(old(PhaseOf(k.w, c)).expected, old(PhaseOf(k.w, c)).id, files, map[])
  {
    InventoryStep(k.w, c, Checker(k.policies));
    files := BundleOf(k.w, c).Keys;
    k.Act(Inventory(c));
  }

  lemma CopyStep(w: World, c: nat, name: string, ok: Check)
    requires PhaseOf(w, c).Staging? && name in PhaseOf(w, c).rest
    ensures var x, w' := PhaseOf(w, c), Step(w, Copy(c, name), ok);
            && SameActivations(w, w')
            && PhaseOf(w', c) == if name !in BundleOf(w, c) then Ended(Refused)
                                 else x.(rest := x.rest - {name}, stage := x.stage[name := BundleOf(w, c)[name]])
  {
  }

  method CopyFile(k: Prefix, c: nat, name: string) returns (copied: bool)
    requires k.Valid() && PhaseOf(k.w, c).Staging? && name in PhaseOf(k.w, c).rest
    modifies k
    ensures k.Valid() && SameActivations(old(k.w), k.w)
    ensures var x := old(PhaseOf(k.w, c));
            if copied then PhaseOf(k.w, c).Staging? && PhaseOf(k.w, c).rest == x.rest - {name}
                           && PhaseOf(k.w, c).expected == x.expected && PhaseOf(k.w, c).id == x.id
            else PhaseOf(k.w, c) == Ended(Refused)
  {
    CopyStep(k.w, c, name, Checker(k.policies));
    copied := name in BundleOf(k.w, c);
    k.Act(Copy(c, name));
  }

  lemma VerifyStageStep(w: World, c: nat, ok: Check)
    requires PhaseOf(w, c).Staging? && PhaseOf(w, c).rest == {}
    ensures var x, w' := PhaseOf(w, c), Step(w, VerifyStage(c), ok);
            SameActivations(w, w') && PhaseOf(w', c) == if ok(c, x.stage) then Staged(x.expected, x.id, x.stage) else Ended(Refused)
  {
  }

  method VerifyCopy(k: Prefix, c: nat) returns (verified: bool)
    requires k.Valid() && PhaseOf(k.w, c).Staging? && PhaseOf(k.w, c).rest == {}
    modifies k
    ensures k.Valid() && SameActivations(old(k.w), k.w)
    ensures var x := old(PhaseOf(k.w, c));
            PhaseOf(k.w, c) == if verified then Staged(x.expected, x.id, x.stage) else Ended(Refused)
  {
    VerifyStageStep(k.w, c, Checker(k.policies));
    verified := VerifyTree(k.w.clients[c].stage, k.policies(c));
    k.Act(VerifyStage(c));
  }

  lemma PlaceStep(w: World, c: nat, ok: Check)
    requires PhaseOf(w, c).Staged?
    ensures var x, w' := PhaseOf(w, c), Step(w, Place(c), ok);
            SameActivations(w, w') && PhaseOf(w', c) == Placed(x.expected, x.id)
  {
  }

  method PlaceVersion(k: Prefix, c: nat)
    requires k.Valid() && PhaseOf(k.w, c).Staged?
    modifies k
    ensures k.Valid() && SameActivations(old(k.w), k.w)
    ensures PhaseOf(k.w, c) == Placed(old(PhaseOf(k.w, c)).expected, old(PhaseOf(k.w, c)).id)
  {
    PlaceStep(k.w, c, Checker(k.policies));
    k.Act(Place(c));
  }

  /** What an activation means. */
  predicate Activated(w: World, w': World, c: nat, expected: Option<nat>, id: nat, ok: Check) {
    && w'.current == Some(id) && id in w'.versions && ok(c, w'.versions[id])
    && w'.log == w.log + [Activation(expected, w.current, id)]
    && (expected.Some? ==> w.current == expected)
  }

  lemma ActivateStep(w: World, c: nat, ok: Check)
    requires Inv(w, ok) && PhaseOf(w, c).Placed?
    ensures var x, w' := PhaseOf(w, c), Step(w, Activate(c), ok);
            PhaseOf(w', c) == Ended(Installed(x.id)) && Activated(w, w', c, x.expected, x.id, ok)
  {
    assert PhaseOk(w, c, w.clients[c], ok);
  }

  method ActivateVersion(k: Prefix, c: nat)
    requires k.Valid() && PhaseOf(k.w, c).Placed?
    modifies k
    ensures k.Valid() && PhaseOf(k.w, c) == Ended(Installed(old(PhaseOf(k.w, c)).id))
    ensures Activated(old(k.w), k.w, c, old(PhaseOf(k.w, c)).expected, old(PhaseOf(k.w, c)).id, Checker(k.policies))
  {
    ActivateStep(k.w, c, Checker(k.policies));
    k.Act(Activate(c));
  }
}

/** The code of one installer, on a prefix and a bundle that others may change between its steps. */
module InstallerCode {
  import opened Wrappers
  import opened Bundles
  import opened InstallerSteps
  import opened Installer
  import opened InstallerPrefix
  import opened InstallerOperations

  type Tape = seq<seq<Event>>

  predicate OthersOnly(tape: Tape, c: nat) {
    forall i, e :: 0 <= i < |tape| && e in tape[i] ==> e.Mutate? || e.c != c
  }

  function SlotAt(tape: Tape, i: nat): seq<Event> {
    if i < |tape| then tape[i] else []
  }

  /** Verify the bundle, take the lock, and check the precondition under it. */
  method Enter(k: Prefix, c: nat, expected: Option<nat>, tape: Tape) returns (entered: bool)
    requires k.Valid() && !Running(k.w, c) && OthersOnly(tape, c)
    modifies k
    ensures k.Valid() && PhaseOf(k.w, c) == if entered then Ready(expected) else Ended(Refused)
  {
    var began := VerifyBundle(k, c, expected);
    if !began { return false; }
    k.Others(c, SlotAt(tape, 0));
    var taken := TakeLock(k, c);
    if !taken { return false; }
    k.Others(c, SlotAt(tape, 1));
    entered := CheckPrecondition(k, c);
  }

  /** Copy the bundle file by file while it may change, and verify the copy. */
  method StageCopy(k: Prefix, c: nat, files: set<string>, tape: Tape) returns (staged: bool)
    requires k.Valid() && PhaseOf(k.w, c).Staging? && PhaseOf(k.w, c).rest == files && OthersOnly(tape, c)
    modifies k
    ensures k.Valid() && SameActivations(old(k.w), k.w)
    ensures if staged then PhaseOf(k.w, c).Staged? && PhaseOf(k.w, c).expected == old(PhaseOf(k.w, c)).expected
                           && PhaseOf(k.w, c).id == old(PhaseOf(k.w, c)).id
            else PhaseOf(k.w, c) == Ended(Refused)
  {
    var rest, i := files, 0;
    while rest != {}
      invariant k.Valid() && SameActivations(old(k.w), k.w)
      invariant PhaseOf(k.w, c).Staging? && PhaseOf(k.w, c).rest == rest
      invariant PhaseOf(k.w, c).expected == old(PhaseOf(k.w, c)).expected && PhaseOf(k.w, c).id == old(PhaseOf(k.w, c)).id
      decreases rest
    {
      k.Others(c, SlotAt(tape, i));
      i := i + 1;
      var name :| name in rest;
      var copied := CopyFile(k, c, name);
      if !copied { return false; }
      rest := rest - {name};
    }
    staged := VerifyCopy(k, c);
  }

  /** Put the bundle's version in place, or verify the one already there. */
  method Provide(k: Prefix, c: nat, slot: seq<Event>, copying: Tape) returns (id: Option<nat>)
    requires k.Valid() && PhaseOf(k.w, c).Ready? && OthersOnly([slot], c) && OthersOnly(copying, c)
    modifies k
    ensures k.Valid() && SameActivations(old(k.w), k.w)
    ensures PhaseOf(k.w, c) == if id.Some? then Placed(old(PhaseOf(k.w, c)).expected, id.value) else Ended(Refused)
  {
    assert slot == [slot][0];
    k.Others(c, slot);
    var found := HashManifest(k, c);
    if found.None? { return None; }
    var (hashed, installed) := found.value;
    if !installed {
      k.Others(c, slot);
      var files := ListFiles(k, c);
      var staged := StageCopy(k, c, files, copying);
      if !staged { return None; }
      PlaceVersion(k, c);
    }
    return Some(hashed);
  }

  /**
   `install_with_precondition`: when it succeeds, the named version is verified and active, and
   a checked update replaced exactly the version it expected.
  */
  method Install(k: Prefix, c: nat, expected: Option<nat>, tape: Tape, copying: Tape) returns (outcome: Outcome)
    requires k.Valid() && !Running(k.w, c) && OthersOnly(tape, c) && OthersOnly(copying, c)
    modifies k
    ensures k.Valid() && PhaseOf(k.w, c) == Ended(outcome) && outcome != Stopped
    ensures outcome.Installed? ==>
              && (exists before: World :: Activated(before, k.w, c, expected, outcome.id, Checker(k.policies)))
              && outcome.id in k.w.versions && Verified(k.w.versions[outcome.id], k.policies(c))
  {
    var entered := Enter(k, c, expected, tape);
    if !entered { return Refused; }
    var id := Provide(k, c, SlotAt(tape, 2), copying);
    if id.None? { return Refused; }
    k.Others(c, SlotAt(tape, 3));
    ghost var before := k.w;
    ActivateVersion(k, c);
    assert Activated(before, k.w, c, expected, id.value, Checker(k.policies));
    return Installed(id.value);
  }
}
