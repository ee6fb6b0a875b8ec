/**
 Crash-recoverable reset of an installation's state directory.

 Every file operation is atomic (a rename, a directory creation, or a save through a
 temporary file). A session performs as many operations as its budget allows and is
 then interrupted, so "for every budget" means a crash after any operation. Nothing
 survives an interruption but the disk.
*/
module Reset {
  import opened Wrappers

  datatype Installation = Installation(id: nat, ports: nat)

  datatype Journal = Journal(previous: Installation, replacement: Option<Installation>, runtimeRemoved: bool)

  /** The checkout registration: which source tree a state directory was registered for. */
  datatype Registration = Registration(source: nat, id: nat)

  /** A state directory. `data` stands for everything reset never looks into. */
  datatype Dir = Dir(manifest: Option<Installation>, config: Option<Installation>, tools: Option<nat>,
                     registration: Option<Registration>, retired: bool, data: nat, complete: Option<Journal>)

  // A directory that was just created.
  const EMPTY := Dir(None, None, None, None, false, 0, None)

  /** What is on disk beside the build caches, and whether the old runtime still exists. */
  datatype State = State(home: Option<Dir>, history: bool, archives: map<nat, Dir>, pending: Option<Journal>, runtime: bool)

  datatype Outcome = Done | Interrupted | Refused

  /** `Installation::load`. */
  function Load(s: State): Option<Installation> {
    if s.home.Some? then s.home.value.manifest else None
  }

  /** The checks `read_journal` makes on a saved journal. */
  predicate ValidJournal(j: Journal) {
    j.replacement.Some? ==> j.runtimeRemoved && j.replacement.value.id != j.previous.id
  }

  // ---------------------------------------------------------------- specification

  /** The home holds the confirmed installation and, in a checkout, is registered for this source and this installation. */
  predicate Registered(s: State, source: Option<nat>, expected: nat) {
    && Load(s).Some? && Load(s).value.id == expected
    && (source.Some? ==> s.home.value.registration == Some(Registration(source.value, expected)))
  }

  /** A state from which an uninterrupted reset is possible: a registered home, no journal, a free archive name. */
  ghost predicate Resettable(o: State, source: Option<nat>) {
    && o.home.Some? && o.home.value.manifest.Some? && o.pending.None?
    && Registered(o, source, o.home.value.manifest.value.id)
    && o.home.value.manifest.value.id !in o.archives
    && o.home.value.complete.None?
    && (!o.history ==> o.archives == map[])
  }

  function Previous(o: State): Installation
    requires o.home.Some? && o.home.value.manifest.Some?
  {
    o.home.value.manifest.value
  }

  /** The state a finished reset leaves, as a function of the state it began from and the replacement alone. */
  ghost function Target(o: State, source: Option<nat>, next: Installation): State
    requires Resettable(o, source)
  {
    var p := Previous(o);
    State(Some(Dir(Some(next), Some(next), o.home.value.tools,
                   if source.Some? then Some(Registration(source.value, next.id)) else None, false, 0, None)),
          true,
          o.archives[p.id := o.home.value.(tools := None, retired := true, complete := Some(Journal(p, Some(next), true)))],
          None, false)
  }

  /** Nothing has been moved yet; the runtime may or may not have been retired. */
  ghost predicate AtHome(o: State, s: State)
    requires o.home.Some? && o.home.value.manifest.Some?
  {
    var p := Previous(o);
    && (s.pending == Some(Journal(p, None, false)) || s.pending == Some(Journal(p, None, true)))
    && (if s.home == Some(o.home.value.(retired := true)) && !s.runtime then true
        else s.home == o.home && s.runtime == o.runtime && !s.pending.value.runtimeRemoved)
    && s.archives == o.archives && (o.history ==> s.history)
    && (s.history && !o.history ==> s.pending.value.runtimeRemoved)
  }

  /** The old home lies in the archive; no replacement has been recorded. */
  ghost predicate Archived(o: State, s: State)
    requires o.home.Some? && o.home.value.manifest.Some?
  {
    var p := Previous(o);
    s == State(None, true, o.archives[p.id := o.home.value.(retired := true)], Some(Journal(p, None, true)), false)
  }

  /** The replacement is recorded, and each of its parts is either still missing or already as it will stay. */
  ghost predicate Replacing(o: State, source: Option<nat>, s: State, next: Installation)
    requires Resettable(o, source)
  {
    var p, j, t := Previous(o), Journal(Previous(o), Some(next), true), Target(o, source, next);
    && next.id != p.id
    && s.history && !s.runtime && s.pending == Some(j)
    && p.id in s.archives
    && s.archives == o.archives[p.id := s.archives[p.id]]
    && (var a := s.archives[p.id];
        && a == o.home.value.(retired := true, tools := a.tools, complete := a.complete)
        && (a.complete.None? || a == t.archives[p.id])
        && (s.home.None? ==> a.tools == o.home.value.tools && a.complete.None?)
        && (s.home.Some? ==>
              var h := s.home.value;
              && h == EMPTY.(manifest := h.manifest, config := h.config, tools := h.tools, registration := h.registration)
              && (h.manifest.Some? ==> h.manifest.value == next)
              && (h.config.Some? ==> h.config.value == next && h.manifest.Some?)
                 // the tools are in exactly one of the two places
              && ((a.tools == o.home.value.tools && h.tools.None?) || (a.tools.None? && h.tools == o.home.value.tools))
              && (h.tools.Some? ==> h.config.Some?)
              && (h.registration.Some? ==> h.registration == t.home.value.registration)
              && (a.complete.Some? ==> h == t.home.value)))
  }

  /** Every state a reset begun in `o` can be interrupted in. */
  ghost predicate Mid(o: State, source: Option<nat>, s: State)
    requires Resettable(o, source)
  {
    || s == o
    || AtHome(o, s)
    || Archived(o, s)
    || (s.pending.Some? && s.pending.value.replacement.Some? && Replacing(o, source, s, s.pending.value.replacement.value))
  }

  /**
   What an interruption can be relied on for: the previous state is whole in exactly one
   place, its tools are in exactly one place, and it is archived only after the journal
   says its runtime is gone.
  */
  lemma InterruptedResetLosesNothing(o: State, source: Option<nat>, s: State)
    requires Resettable(o, source) && Mid(o, source, s)
    ensures var p := Previous(o);
            && ((Load(s) == Some(p)) != (p.id in s.archives))
            && (Load(s) == Some(p) ==> s.home.value.(retired := o.home.value.retired) == o.home.value)
            && (p.id in s.archives ==>
                  && s.archives[p.id].(retired := o.home.value.retired, tools := o.home.value.tools, complete := None) == o.home.value
                  && !s.runtime && s.pending.Some? && s.pending.value.runtimeRemoved)
            && (o.home.value.tools.Some? && p.id in s.archives ==>
                  (s.archives[p.id].tools == o.home.value.tools) != (s.home.Some? && s.home.value.tools == o.home.value.tools))
            && (forall id :: id in o.archives ==> id in s.archives && s.archives[id] == o.archives[id])
            && (s != o ==> s.pending.Some?)
  {
  }

  // ---------------------------------------------------------------- the disk

  class Disk {
    var s: State
    var budget: nat

    constructor (s: State, budget: nat)
      ensures this.s == s && this.budget == budget
    {
      this.s := s;
      this.budget := budget;
    }

    /** One atomic file operation, unless the session is interrupted first. */
    method Write(next: State) returns (ok: bool)
      modifies this
      ensures ok == (old(budget) > 0)
      ensures if ok then s == next && budget == old(budget) - 1 else s == old(s) && budget == 0
    {
      ok := budget > 0;
      if ok {
        s := next;
        budget := budget - 1;
      }
    }
  }

  // ---------------------------------------------------------------- what holds on any disk

  /** The same directory, up to what reset itself adds or hands over. */
  predicate SameContent(d: Dir, d': Dir) {
    d' == d.(tools := d'.tools, retired := d'.retired, complete := d'.complete)
  }

  /** No directory is lost or overwritten: archives keep their content, and an old home is still the home or archived. */
  ghost predicate Kept(s: State, s': State) {
    && (forall id :: id in s.archives ==> id in s'.archives && SameContent(s.archives[id], s'.archives[id]))
    && (s.home.Some? ==> HomeKept(s.home.value, s'))
  }

  predicate ContentKept(d: Dir, d': Dir) {
    && d'.data == d.data
    && (d.manifest.Some? ==> d'.manifest == d.manifest)
    && (d.registration.Some? ==> d'.registration == d.registration)
  }

  ghost predicate HomeKept(d: Dir, s: State) {
    || (s.home.Some? && ContentKept(d, s.home.value))
    || (exists id :: id in s.archives && ContentKept(d, s.archives[id]))
  }

  lemma KeptTransitive(a: State, b: State, c: State)
    requires Kept(a, b) && Kept(b, c)
    ensures Kept(a, c)
  {
  }

  /** The disk is in a state of a reset that began in `o`. */
  ghost predicate Begun(o: State, source: Option<nat>, s: State) {
    Resettable(o, source) && Mid(o, source, s)
  }

  ghost predicate Building(o: State, source: Option<nat>, s: State, j: Journal) {
    Resettable(o, source) && j.replacement.Some? && s.pending == Some(j) && Replacing(o, source, s, j.replacement.value)
  }

  // ---------------------------------------------------------------- the code

  /** `run`: resume the journal or start one, retire the runtime, then finish. */
  method Run(disk: Disk, source: Option<nat>, expected: nat, candidate: Installation, ghost o: State) returns (outcome: Outcome)
    modifies disk
    ensures Kept(old(disk.s), disk.s)
    ensures old(disk.s).pending.None? && !Registered(old(disk.s), source, expected) ==> outcome == Refused && disk.s == old(disk.s)
    ensures Begun(o, source, old(disk.s)) && candidate.id != Previous(o).id ==>
              && (outcome == Refused <==> expected != Previous(o).id)
              && (outcome == Refused ==> disk.s == old(disk.s))
              && (outcome == Interrupted ==> Mid(o, source, disk.s) && disk.budget == 0)
              && (outcome == Done ==> disk.s == Target(o, source, Chosen(old(disk.s), candidate)))
              && (outcome == Interrupted && Recorded(old(disk.s)).Some? ==> Recorded(disk.s) == Recorded(old(disk.s)))
              && (outcome == Interrupted && Recorded(old(disk.s)).None? ==> Recorded(disk.s) in {None, Some(candidate)})
              && (old(disk.budget) >= 13 && expected == Previous(o).id ==> outcome == Done)
  {
    var journal: Journal;
    if disk.s.pending.Some? {
      journal := disk.s.pending.value;
      if !ValidJournal(journal) { return Refused; }
    } else {
      var loaded := Load(disk.s);
      if loaded.None? { return Refused; }
      // a registration for another source or another installation is refused before anything is written
      if source.Some? && disk.s.home.value.registration != Some(Registration(source.value, loaded.value.id)) { return Refused; }
      journal := Journal(loaded.value, None, false);
    }
    if journal.previous.id != expected { return Refused; }
    var ok := disk.Write(disk.s.(pending := Some(journal)));
    if !ok { return Interrupted; }
    if !journal.runtimeRemoved {
      if Load(disk.s) != Some(journal.previous) { return Refused; }
      // retiring a runtime that is already gone changes nothing
      ok := disk.Write(disk.s.(runtime := false, home := Some(disk.s.home.value.(retired := true))));
      if !ok { return Interrupted; }
      journal := journal.(runtimeRemoved := true);
      ok := disk.Write(disk.s.(pending := Some(journal)));
      if !ok { return Interrupted; }
    }
    label retired:
    outcome := Finish(disk, source, journal, candidate, o);
    KeptTransitive(old(disk.s), old@retired(disk.s), disk.s);
  }

  /** The replacement the journal has recorded so far. */
  function Recorded(s: State): Option<Installation> {
    if s.pending.Some? then s.pending.value.replacement else None
  }

  function Chosen(s: State, candidate: Installation): Installation {
    Recorded(s).GetOr(candidate)
  }

  /** `finish`: archive, record the replacement, build it, hand over the tools, drop the journal. */
  method Finish(disk: Disk, source: Option<nat>, journal: Journal, candidate: Installation, ghost o: State)
    returns (outcome: Outcome)
    requires disk.s.pending == Some(journal)
    modifies disk
    ensures Kept(old(disk.s), disk.s)
    ensures Begun(o, source, old(disk.s)) && journal.runtimeRemoved && candidate.id != Previous(o).id ==>
              && outcome in {Done, Interrupted}
              && (outcome == Interrupted ==> Mid(o, source, disk.s) && disk.budget == 0)
              && (outcome == Done ==> disk.s == Target(o, source, Chosen(old(disk.s), candidate)))
              && (outcome == Interrupted && journal.replacement.Some? ==> Recorded(disk.s) == journal.replacement)
              && (outcome == Interrupted && journal.replacement.None? ==> Recorded(disk.s) in {None, Some(candidate)})
              && (old(disk.budget) >= 10 ==> outcome == Done)
  {
    if !journal.runtimeRemoved { return Refused; }
    outcome := Archive(disk, source, journal, o);
    if outcome != Done { return; }
    label archived:
    var recorded := journal;
    if journal.replacement.None? {
      if disk.s.home.Some? { return Refused; }
      recorded := journal.(replacement := Some(candidate));
      var ok := disk.Write(disk.s.(pending := Some(recorded)));
      if !ok { return Interrupted; }
    }
    outcome := Build(disk, source, recorded, o);
    KeptTransitive(old(disk.s), old@archived(disk.s), disk.s);
  }

  /** Rename the home into the archive, unless this installation is archived already. */
  method Archive(disk: Disk, source: Option<nat>, journal: Journal, ghost o: State) returns (outcome: Outcome)
    requires disk.s.pending == Some(journal)
    modifies disk
    ensures Kept(old(disk.s), disk.s) && disk.s.pending == Some(journal)
    ensures outcome == Done ==> journal.previous.id in disk.s.archives && disk.budget + 2 >= old(disk.budget)
    ensures Begun(o, source, old(disk.s)) && journal.runtimeRemoved ==>
              && outcome in {Done, Interrupted} && Mid(o, source, disk.s)
              && (outcome == Interrupted ==> disk.budget == 0)
              && (outcome == Done && journal.replacement.None? ==> Archived(o, disk.s))
              && (old(disk.budget) >= 2 ==> outcome == Done)
  {
    var p := journal.previous;
    if !disk.s.history {
      var ok := disk.Write(disk.s.(history := true));
      if !ok { return Interrupted; }
    }
    if p.id in disk.s.archives {
      if disk.s.archives[p.id].manifest != Some(p) { return Refused; }
    } else {
      if Load(disk.s) != Some(p) { return Refused; }
      var ok := disk.Write(disk.s.(home := None, archives := disk.s.archives[p.id := disk.s.home.value]));
      if !ok { return Interrupted; }
      assert ContentKept(old(disk.s).home.value, disk.s.archives[p.id]);
    }
    return Done;
  }

  lemma SealKeeps(s: State, s': State)
    requires s'.home == s.home && s'.archives.Keys == s.archives.Keys
    requires forall k :: k in s.archives ==> SameContent(s.archives[k], s'.archives[k])
    ensures Kept(s, s')
  {
  }

  /** From a recorded replacement to the end. */
  method Build(disk: Disk, source: Option<nat>, journal: Journal, ghost o: State) returns (outcome: Outcome)
    requires disk.s.pending == Some(journal) && journal.replacement.Some? && journal.previous.id in disk.s.archives
    modifies disk
    ensures Kept(old(disk.s), disk.s)
    ensures Building(o, source, old(disk.s), journal) ==>
              && outcome in {Done, Interrupted}
              && (outcome == Interrupted ==> Replacing(o, source, disk.s, journal.replacement.value) && disk.budget == 0)
              && (outcome == Done ==> disk.s == Target(o, source, journal.replacement.value))
              && (old(disk.budget) >= 7 ==> outcome == Done)
  {
    var p, next := journal.previous, journal.replacement.value;
    outcome := Activate(disk, source, journal, o);
    if outcome != Done { return; }
    label active:
    outcome := HandOver(disk, source, journal, o);
    KeptTransitive(old(disk.s), old@active(disk.s), disk.s);
    if outcome != Done { return; }
    label built:
    var ok := disk.Write(disk.s.(archives := disk.s.archives[p.id := disk.s.archives[p.id].(complete := Some(journal))]));
    SealKeeps(old@built(disk.s), disk.s);
    KeptTransitive(old(disk.s), old@built(disk.s), disk.s);
    if !ok { return Interrupted; }
    ok := disk.Write(disk.s.(pending := None));
    return if ok then Done else Interrupted;
  }

  /** Move the archived tools, and register the replacement for the checkout, each only if not done yet. */
  method HandOver(disk: Disk, source: Option<nat>, journal: Journal, ghost o: State) returns (outcome: Outcome)
    requires disk.s.pending == Some(journal) && journal.replacement.Some? && journal.previous.id in disk.s.archives
    requires disk.s.home.Some? && disk.s.home.value.manifest == disk.s.home.value.config == journal.replacement
    modifies disk
    ensures Kept(old(disk.s), disk.s) && disk.s.pending == Some(journal) && journal.previous.id in disk.s.archives
    ensures outcome == Done ==> disk.budget + 2 >= old(disk.budget)
    ensures Building(o, source, old(disk.s), journal) ==>
              && outcome in {Done, Interrupted} && Building(o, source, disk.s, journal)
              && (outcome == Interrupted ==> disk.budget == 0)
              && (outcome == Done ==>
                    && disk.s.home == Target(o, source, journal.replacement.value).home
                    && disk.s.archives[journal.previous.id].tools.None?)
              && (old(disk.budget) >= 2 ==> outcome == Done)
  {
    outcome := MoveTools(disk, source, journal, o);
    if outcome != Done || source.None? { return; }
    label moved:
    var p, next := journal.previous, journal.replacement.value;
    if disk.s.archives[p.id].registration != Some(Registration(source.value, p.id)) { return Refused; }
    var registration := Some(Registration(source.value, next.id));
    if disk.s.home.value.registration.Some? {
      if disk.s.home.value.registration != registration { return Refused; }
    } else {
      var ok := disk.Write(disk.s.(home := Some(disk.s.home.value.(registration := registration))));
      KeptTransitive(old(disk.s), old@moved(disk.s), disk.s);
      if !ok { return Interrupted; }
    }
    return Done;
  }

  method MoveTools(disk: Disk, source: Option<nat>, journal: Journal, ghost o: State) returns (outcome: Outcome)
    requires disk.s.pending == Some(journal) && journal.replacement.Some? && journal.previous.id in disk.s.archives
    requires disk.s.home.Some? && disk.s.home.value.manifest == disk.s.home.value.config == journal.replacement
    modifies disk
    ensures Kept(old(disk.s), disk.s) && disk.s.pending == Some(journal) && journal.previous.id in disk.s.archives
    ensures disk.s.home.Some? && disk.s.home.value.manifest == disk.s.home.value.config == journal.replacement
    ensures outcome == Done ==> disk.budget + 1 >= old(disk.budget)
    ensures Building(o, source, old(disk.s), journal) ==>
              && outcome in {Done, Interrupted} && Building(o, source, disk.s, journal)
              && (outcome == Interrupted ==> disk.budget == 0)
              && (outcome == Done ==> disk.s.archives[journal.previous.id].tools.None?)
              && (old(disk.budget) >= 1 ==> outcome == Done)
  {
    var p := journal.previous;
    if disk.s.archives[p.id].tools.Some? {
      if disk.s.home.value.tools.Some? { return Refused; }
      var a := disk.s.archives[p.id];
      var ok := disk.Write(disk.s.(archives := disk.s.archives[p.id := a.(tools := None)],
                                   home := Some(disk.s.home.value.(tools := a.tools))));
      if !ok { return Interrupted; }
    }
    return Done;
  }

  /** `activate_fresh`: the directory, its manifest and its configuration, each only if missing. */
  method Activate(disk: Disk, source: Option<nat>, journal: Journal, ghost o: State) returns (outcome: Outcome)
    requires disk.s.pending == Some(journal) && journal.replacement.Some? && journal.previous.id in disk.s.archives
    modifies disk
    ensures Kept(old(disk.s), disk.s) && disk.s.pending == Some(journal) && disk.s.archives == old(disk.s).archives
    ensures outcome == Done ==>
              && disk.s.home.Some?
              && disk.s.home.value.manifest == disk.s.home.value.config == journal.replacement
              && disk.budget + 3 >= old(disk.budget)
    ensures Building(o, source, old(disk.s), journal) ==>
              && outcome in {Done, Interrupted} && Building(o, source, disk.s, journal)
              && (outcome == Interrupted ==> disk.budget == 0)
              && (old(disk.budget) >= 3 ==> outcome == Done)
  {
    var next := journal.replacement.value;
    var ok := true;
    if disk.s.home.None? {
      ok := disk.Write(disk.s.(home := Some(EMPTY)));
      if !ok { return Interrupted; }
    }
    if disk.s.home.value.manifest.Some? {
      if Load(disk.s) != Some(next) { return Refused; }
    } else {
      ok := disk.Write(disk.s.(home := Some(disk.s.home.value.(manifest := Some(next)))));
      if !ok { return Interrupted; }
    }
    if disk.s.home.value.config.Some? {
      if disk.s.home.value.config != Some(next) { return Refused; }
    } else {
      ok := disk.Write(disk.s.(home := Some(disk.s.home.value.(config := Some(next)))));
      if !ok { return Interrupted; }
    }
    return Done;
  }

  // ---------------------------------------------------------------- any number of reruns

  /** One invocation: how many file operations it gets, and the identity it would generate. */
  datatype Session = Session(budget: nat, candidate: Installation)

  /**
   Rerun after every interruption. Whatever the interruptions, a reset that completes
   leaves exactly the state an uninterrupted one leaves with the same replacement, and
   the replacement is the one the first session to record any recorded.
  */
  method Rerun(s: State, source: Option<nat>, sessions: seq<Session>) returns (outcome: Outcome, final: State, used: nat)
    requires Resettable(s, source)
    requires forall x :: x in sessions ==> x.candidate.id != Previous(s).id
    ensures outcome != Refused
    ensures outcome == Interrupted ==> Mid(s, source, final)
    ensures outcome == Done ==> used < |sessions| && final == Target(s, source, sessions[used].candidate)
    ensures (exists i :: 0 <= i < |sessions| && sessions[i].budget >= 13) ==> outcome == Done
  {
    final, used, outcome := s, 0, Interrupted;
    var i := 0;
    while i < |sessions|
      invariant i <= |sessions| && Mid(s, source, final)
      invariant Recorded(final).Some? ==> used < |sessions| && Recorded(final) == Some(sessions[used].candidate)
      invariant forall k :: 0 <= k < i ==> sessions[k].budget < 13
    {
      assert sessions[i] in sessions;
      var disk := new Disk(final, sessions[i].budget);
      if Recorded(final).None? { used := i; }
      outcome := Run(disk, source, Previous(s).id, sessions[i].candidate, s);
      final := disk.s;
      if outcome == Done { return; }
      i := i + 1;
    }
    outcome := Interrupted;
  }
}
