/**
 The campaign driver: a journal saved before every launch, replayed on resume.

 A session may be interrupted after any save or launch, and the process it launched
 may outlive it: `running` holds the attempts whose child has not exited, which can
 still start a model while a later session is already replaying the journal.
*/
module CampaignJournal {
  /** The part of a frozen plan that drives the loop. */
  datatype Plan = Plan(runs: nat, maxSetupAttempts: nat)

  /** `Plan::validate`, for these two fields. */
  predicate ValidPlan(plan: Plan) {
    plan.runs > 0 && 1 <= plan.maxSetupAttempts <= 3
  }

  datatype Attempt = Attempt(run: nat, setup: nat)

  datatype Entry = Entry(attempt: Attempt, finished: bool)

  /** What the receipts of an ended attempt would say, apart from its launch marker. */
  datatype Evidence = Evidence(setupFailed: bool, setupVerified: bool, modelVerified: bool)

  datatype Row = ModelResult | ModelUnverified | SetupFailure(safe: bool) | PreModelFailure

  datatype Progress = Fresh | Running | Stopped | Completed

  /**
   `started` holds the attempts whose launch marker exists: it is written before the model
   starts and never removed. `results` and `cleared` hold the attempts that an inspection has
   classified as a model result, or as a setup failure that is safe to retry.
  */
  datatype State = State(journal: seq<Entry>, launched: seq<Attempt>, running: set<Attempt>, started: set<Attempt>,
                         results: set<Attempt>, cleared: set<Attempt>, progress: Progress)

  function Init(): State {
    State([], [], {}, {}, {}, {}, Fresh)
  }

  datatype Outcome = Done | Bailed | Interrupted

  /** A child left over from an interrupted session writes its marker, or exits. */
  datatype Late = Starts(a: Attempt) | Exits(a: Attempt)

  /** Everything the world decides around one inspection or launch. */
  datatype Tick = Tick(late: seq<Late>, evidence: Evidence, cancelled: bool, sourceUnchanged: bool,
                       spawned: bool, starts: bool, exitKnown: bool, cancelledAfter: bool)

  const QUIET := Tick([], Evidence(false, false, false), false, true, true, false, true, false)

  function TickAt(tape: seq<Tick>, i: nat): Tick {
    if i < |tape| then tape[i] else QUIET
  }

  /** `records::inspect`: receipts are only written by a child that has ended. */
  function Inspect(s: State, a: Attempt, e: Evidence): Row {
    if a in s.started then
      if e.modelVerified && a !in s.running then ModelResult else ModelUnverified
    else if e.setupFailed && a !in s.running then SetupFailure(e.setupVerified)
    else PreModelFailure
  }

  /** What is known once an attempt has been classified. */
  function Noted(s: State, a: Attempt, row: Row): State {
    match row
    case ModelResult => s.(results := s.results + {a})
    case SetupFailure(true) => s.(cleared := s.cleared + {a})
    case _ => s
  }

  function LateStep(s: State, e: Late): State {
    match e
    case Starts(a) => if a in s.running then s.(started := s.started + {a}) else s
    case Exits(a) => s.(running := s.running - {a})
  }

  function LateRun(s: State, late: seq<Late>): State
    decreases |late|
  {
    if late == [] then s else LateRun(LateStep(s, late[0]), late[1..])
  }

  /** Nothing here is the doing of a child of that run. */
  predicate Foreign(late: seq<Late>, run: nat) {
    forall i :: 0 <= i < |late| ==> late[i].a.run != run
  }

  lemma {:induction false} LateSnoc(s: State, late: seq<Late>, e: Late)
    ensures LateRun(s, late + [e]) == LateStep(LateRun(s, late), e)
    decreases |late|
  {
    if late == [] {
      assert [e][1..] == [] && late + [e] == [e];
    } else {
      assert (late + [e])[1..] == late[1..] + [e];
      LateSnoc(LateStep(s, late[0]), late[1..], e);
    }
  }

  lemma {:induction false} ForeignLeaves(s: State, late: seq<Late>, a: Attempt)
    requires Foreign(late, a.run)
    ensures var s' := LateRun(s, late); (a in s'.running <==> a in s.running) && (a in s'.started <==> a in s.started)
    decreases |late|
  {
    if late != [] {
      assert late[0].a.run != a.run;
      assert forall i :: 0 <= i < |late| - 1 ==> late[1..][i] == late[i + 1];
      ForeignLeaves(LateStep(s, late[0]), late[1..], a);
    }
  }

  // ---------------------------------------------------------------- invariants

  /** The journal order `drive` checks: attempts of a run count up from 1, and runs follow each other. */
  predicate Follows(a: Attempt, b: Attempt) {
    b == Attempt(a.run, a.setup + 1) || b == Attempt(a.run + 1, 1)
  }

  predicate InOrder(journal: seq<Entry>, i: nat)
    requires i + 1 < |journal|
  {
    Follows(journal[i].attempt, journal[i + 1].attempt)
  }

  predicate Ordered(plan: Plan, journal: seq<Entry>) {
    && (|journal| > 0 ==> journal[0].attempt == Attempt(0, 1))
    && (forall i: nat :: i + 1 < |journal| ==> InOrder(journal, i))
    && (forall i :: 0 <= i < |journal| ==> journal[i].attempt.run < plan.runs && 1 <= journal[i].attempt.setup <= plan.maxSetupAttempts)
  }

  ghost predicate InJournal(journal: seq<Entry>, a: Attempt) {
    exists i :: 0 <= i < |journal| && journal[i].attempt == a
  }

  predicate Precedes(launched: seq<Attempt>, i: int, j: int) {
    0 <= i < j < |launched|
  }

  ghost predicate Distinct(launched: seq<Attempt>) {
    forall i, j {:trigger Precedes(launched, i, j)} :: Precedes(launched, i, j) ==> launched[i] != launched[j]
  }

  /** The attempt has started a model or still could. */
  predicate Live(s: State, a: Attempt) {
    a in s.started || a in s.running
  }

  ghost predicate NoMoreLive(s: State, s': State) {
    forall a :: Live(s', a) ==> Live(s, a)
  }

  predicate SameRun(a: Attempt, b: Attempt) {
    a.run == b.run
  }

  /** At most one attempt of each run has started a model or still could. */
  ghost predicate OnePerRun(s: State) {
    forall a, b {:trigger SameRun(a, b)} :: SameRun(a, b) && Live(s, a) && Live(s, b) ==> a == b
  }

  /** No attempt of a run was launched after one that has started a model or still could. */
  ghost predicate NoneAfterModel(s: State) {
    forall i, j {:trigger Precedes(s.launched, i, j)} :: Precedes(s.launched, i, j) && s.launched[i].run == s.launched[j].run ==>
      !Live(s, s.launched[i])
  }

  /** Some attempt of the run was inspected and found to be a verified model result. */
  ghost predicate HasModel(s: State, r: nat) {
    exists a :: a in s.results && a.run == r
  }

  /** What inspections found stays true: model results have started and ended, safe setup failures never start. */
  ghost predicate Inspected(s: State) {
    && s.results <= s.started && s.results !! s.running
    && (forall a :: a in s.cleared ==> InJournal(s.journal, a) && !Live(s, a))
  }

  /** What an inspection must have found in one attempt before the next one is recorded. */
  predicate Justifies(s: State, a: Attempt, b: Attempt) {
    if b.run == a.run then a in s.cleared else a in s.results
  }

  /** The run goes on after a model result only, and a setup is retried after a safe setup failure only. */
  predicate JustifiedAt(s: State, i: nat)
    requires i + 1 < |s.journal|
  {
    Justifies(s, s.journal[i].attempt, s.journal[i + 1].attempt)
  }

  ghost predicate Justified(s: State) {
    forall i: nat :: i + 1 < |s.journal| ==> JustifiedAt(s, i)
  }

  ghost predicate Inv(plan: Plan, s: State) {
    && Ordered(plan, s.journal)
    && Distinct(s.launched)
    && (forall a :: a in s.launched ==> InJournal(s.journal, a))
    && (forall a :: Live(s, a) ==> a in s.launched)
    && OnePerRun(s) && NoneAfterModel(s)
    && Inspected(s) && Justified(s)
    && (s.progress == Completed ==> forall r :: 0 <= r < plan.runs ==> HasModel(s, r))
  }

  /** The findings justify the journal as long as both are kept. */
  lemma SameFindings(s: State, s': State)
    requires Justified(s) && s.results <= s'.results && s.cleared <= s'.cleared
    requires |s'.journal| == |s.journal| && forall i :: 0 <= i < |s.journal| ==> s'.journal[i].attempt == s.journal[i].attempt
    ensures Justified(s')
  {
    forall i: nat | i + 1 < |s'.journal| ensures JustifiedAt(s', i) { assert JustifiedAt(s, i); }
  }

  /** Launches, markers and findings are only ever added. */
  ghost predicate Grows(s: State, s': State) {
    && s.launched <= s'.launched && s.started <= s'.started && |s.journal| <= |s'.journal|
    && s.results <= s'.results && s.cleared <= s'.cleared
  }

  lemma LateKeepsInv(plan: Plan, s: State, e: Late)
    requires Inv(plan, s)
    ensures Inv(plan, LateStep(s, e)) && Grows(s, LateStep(s, e))
    ensures NoMoreLive(s, LateStep(s, e))
  {
    var s' := LateStep(s, e);
    SameFindings(s, s');
    if s.progress == Completed {
      forall r | 0 <= r < plan.runs ensures HasModel(s', r) { assert HasModel(s, r); }
    }
  }

  lemma {:induction false} LateRunKeepsInv(plan: Plan, s: State, late: seq<Late>)
    requires Inv(plan, s)
    ensures var s' := LateRun(s, late);
            && Inv(plan, s') && Grows(s, s') && NoMoreLive(s, s')
            && s' == s.(started := s'.started, running := s'.running)
    decreases |late|
  {
    if late != [] {
      LateKeepsInv(plan, s, late[0]);
      LateRunKeepsInv(plan, LateStep(s, late[0]), late[1..]);
    }
  }

  /** Inspecting an attempt keeps the invariant, whatever it finds. */
  lemma NotedKeepsInv(plan: Plan, s: State, a: Attempt, e: Evidence)
    requires Inv(plan, s) && InJournal(s.journal, a)
    ensures Inv(plan, Noted(s, a, Inspect(s, a, e))) && Grows(s, Noted(s, a, Inspect(s, a, e)))
  {
    var s' := Noted(s, a, Inspect(s, a, e));
    if s.progress == Completed {
      forall r | 0 <= r < plan.runs ensures HasModel(s', r) { assert HasModel(s, r); }
    }
    SameFindings(s, s');
  }

  /** Sequence position of an attempt in a valid order: entries of one run are adjacent, counting up. */
  lemma {:induction false} EarlierEntries(plan: Plan, journal: seq<Entry>, i: nat, j: nat)
    requires Ordered(plan, journal) && i <= j < |journal|
    ensures journal[i].attempt.run <= journal[j].attempt.run
    ensures journal[i].attempt.run == journal[j].attempt.run ==> journal[j].attempt.setup == journal[i].attempt.setup + (j - i)
    decreases j - i
  {
    if i < j {
      EarlierEntries(plan, journal, i, j - 1);
      assert InOrder(journal, j - 1);
    }
  }

  ghost function OneRun(r: nat, n: nat): (all: set<Attempt>)
    ensures |all| == n
    ensures forall a :: a in all <==> a.run == r && 1 <= a.setup <= n
  {
    if n == 0 then {} else OneRun(r, n - 1) + {Attempt(r, n)}
  }

  ghost function AllAttempts(runs: nat, n: nat): (all: set<Attempt>)
    ensures |all| == runs * n
    ensures forall a :: a in all <==> a.run < runs && 1 <= a.setup <= n
  {
    if runs == 0 then {}
    else
      var fewer, last := AllAttempts(runs - 1, n), OneRun(runs - 1, n);
      assert fewer !! last && (runs - 1) * n + n == runs * n;
      fewer + last
  }

  /** Total launches are bounded by the plan. */
  lemma LaunchesAreBounded(plan: Plan, s: State)
    requires Inv(plan, s)
    ensures |s.launched| <= plan.runs * plan.maxSetupAttempts
  {
    var all := AllAttempts(plan.runs, plan.maxSetupAttempts);
    var seen := set a | a in s.launched;
    forall a | a in seen ensures a in all { assert InJournal(s.journal, a); }
    DistinctCount(s.launched);
    SubsetSize(seen, all);
  }

  lemma {:induction false} DistinctCount(xs: seq<Attempt>)
    requires Distinct(xs)
    ensures |set a | a in xs| == |xs|
  {
    if xs != [] {
      var rest := xs[..|xs| - 1];
      forall i, j | Precedes(rest, i, j) ensures rest[i] != rest[j] { assert Precedes(xs, i, j); }
      forall i | 0 <= i < |rest| ensures rest[i] != xs[|xs| - 1] { assert Precedes(xs, i, |xs| - 1); }
      DistinctCount(rest);
      assert (set a | a in xs) == (set a | a in rest) + {xs[|xs| - 1]};
    }
  }

  lemma {:induction false} SubsetSize<T>(a: set<T>, b: set<T>)
    requires a <= b
    ensures |a| <= |b|
  {
    if a != {} {
      var x :| x in a;
      SubsetSize(a - {x}, b - {x});
    }
  }
}

/** The two loops of the driver, over a directory that survives interruptions. */
module Campaign {
  import opened Wrappers
  import opened CampaignJournal

  /** The campaign directory, and the processes launched for it. */
  class Work {
    var s: State
    var budget: nat

    constructor (s: State, budget: nat)
      ensures this.s == s && this.budget == budget
    {
      this.s := s;
      this.budget := budget;
    }

    /** One save or launch, unless the session is interrupted first. */
    method Write(next: State) returns (ok: bool)
      modifies this
      ensures ok == (old(budget) > 0)
      ensures if ok then s == next && budget == old(budget) - 1 else s == old(s) && budget == 0
    {
      ok := budget > 0;
      if ok {
        s := next;
        budget := budget - 1;
      }
    }

    /** Children of earlier sessions act. */
    method LateActions(late: seq<Late>)
      modifies this
      ensures s == LateRun(old(s), late) && budget == old(budget)
    {
      var i := 0;
      while i < |late|
        invariant i <= |late| && LateRun(s, late[i..]) == LateRun(old(s), late) && budget == old(budget)
      {
        assert late[i..][0] == late[i] && late[i..][1..] == late[i + 1..];
        s := LateStep(s, late[i]);
        i := i + 1;
      }
    }
  }

  /**
   Where the replay stands: every earlier run has a verified model result, every earlier attempt
   of this run can never start a model, and the last entry was found to lead here.
  */
  ghost predicate Position(plan: Plan, s: State, seen: nat, run: nat, setup: nat)
    requires seen <= |s.journal|
  {
    && 1 <= setup && run <= plan.runs
    && (forall r :: 0 <= r < run ==> HasModel(s, r))
    && (forall i :: 0 <= i < seen ==> s.journal[i].attempt.run <= run)
    && (forall i :: 0 <= i < seen && s.journal[i].attempt.run == run ==>
          s.journal[i].attempt.setup < setup && !Live(s, s.journal[i].attempt))
    && (if seen == 0 then run == 0 && setup == 1
        else
          && Follows(s.journal[seen - 1].attempt, Attempt(run, setup))
          && Justifies(s, s.journal[seen - 1].attempt, Attempt(run, setup)))
  }

  lemma PositionStays(plan: Plan, s: State, s': State, seen: nat, run: nat, setup: nat)
    requires seen <= |s.journal| && Position(plan, s, seen, run, setup)
    requires s'.journal == s.journal && s.results <= s'.results && s.cleared <= s'.cleared
    requires NoMoreLive(s, s')
    ensures Position(plan, s', seen, run, setup)
  {
    forall r | 0 <= r < run ensures HasModel(s', r) { assert HasModel(s, r); }
  }

  /** Where a journal entry's classification leads, or None to stop for inspection. */
  function Advance(row: Row, run: nat, setup: nat): Option<(nat, nat)> {
    match row
    case ModelResult => Some((run + 1, 1))
    case SetupFailure(true) => Some((run, setup + 1))
    case _ => None
  }

  /** One more entry inspected: the next run after a verified model result, the next setup after a safe failure. */
  lemma AdvanceKeepsPosition(plan: Plan, s: State, i: nat, run: nat, setup: nat, e: Evidence)
    requires i < |s.journal| && Position(plan, s, i, run, setup) && s.journal[i].attempt == Attempt(run, setup)
    requires run < plan.runs && Advance(Inspect(s, Attempt(run, setup), e), run, setup).Some?
    ensures var row := Inspect(s, Attempt(run, setup), e);
            var next := Advance(row, run, setup).value;
            Position(plan, Noted(s, Attempt(run, setup), row), i + 1, next.0, next.1)
  {
    var s' := Noted(s, Attempt(run, setup), Inspect(s, Attempt(run, setup), e));
    forall r | 0 <= r < run ensures HasModel(s', r) { assert HasModel(s, r); }
    if Inspect(s, Attempt(run, setup), e) == ModelResult {
      assert Attempt(run, setup) in s'.results;
      assert HasModel(s', run);
    }
  }

  /** One entry inspected where the replay stands; None means that it is not the expected one, or leads nowhere. */
  function Examine(plan: Plan, s: State, e: Evidence, i: nat, run: nat, setup: nat): (State, Option<(nat, nat)>)
    requires i < |s.journal|
  {
    if s.journal[i].attempt != Attempt(run, setup) || run >= plan.runs then (s, None)
    else
      var row := Inspect(s, Attempt(run, setup), e);
      (Noted(s, Attempt(run, setup), row), Advance(row, run, setup))
  }

  lemma ExamineKeepsPosition(plan: Plan, s: State, e: Evidence, i: nat, run: nat, setup: nat)
    requires Inv(plan, s) && i < |s.journal| && Position(plan, s, i, run, setup)
    ensures var r := Examine(plan, s, e, i, run, setup);
            && Inv(plan, r.0) && Grows(s, r.0) && r.0.journal == s.journal && r.0.launched == s.launched
            && (r.1.Some? ==> Position(plan, r.0, i + 1, r.1.value.0, r.1.value.1))
  {
    if s.journal[i].attempt == Attempt(run, setup) && run < plan.runs {
      assert InJournal(s.journal, Attempt(run, setup));
      NotedKeepsInv(plan, s, Attempt(run, setup), e);
      if Advance(Inspect(s, Attempt(run, setup), e), run, setup).Some? { AdvanceKeepsPosition(plan, s, i, run, setup, e); }
    }
  }

  lemma LateKeepsPosition(plan: Plan, s: State, late: seq<Late>, i: nat, run: nat, setup: nat)
    requires Inv(plan, s) && i <= |s.journal| && Position(plan, s, i, run, setup)
    ensures var s' := LateRun(s, late);
            && Inv(plan, s') && Grows(s, s') && s'.journal == s.journal && s'.launched == s.launched
            && Position(plan, s', i, run, setup)
  {
    LateRunKeepsInv(plan, s, late);
    PositionStays(plan, s, LateRun(s, late), i, run, setup);
  }

  lemma GrowsTrans(a: State, b: State, c: State)
    requires Grows(a, b) && Grows(b, c)
    ensures Grows(a, c)
  {
  }

  /** The row an inspection gives once left-over children have acted. */
  function RowOf(s: State, tick: Tick, a: Attempt): Row {
    Inspect(LateRun(s, tick.late), a, tick.evidence)
  }

  /** Inspect one journal entry against the expected position. */
  method ReplayEntry(work: Work, plan: Plan, tick: Tick, i: nat, run: nat, setup: nat) returns (next: Option<(nat, nat)>)
    requires Inv(plan, work.s) && i < |work.s.journal| && Position(plan, work.s, i, run, setup)
    modifies work
    ensures Inv(plan, work.s) && Grows(old(work.s), work.s) && work.budget == old(work.budget)
    ensures work.s.journal == old(work.s).journal && work.s.launched == old(work.s).launched
    ensures next.Some? ==> Position(plan, work.s, i + 1, next.value.0, next.value.1)
    ensures LateRun(old(work.s), tick.late).journal == work.s.journal
    ensures (work.s, next) == Examine(plan, LateRun(old(work.s), tick.late), tick.evidence, i, run, setup)
    ensures var expected := old(work.s).journal[i].attempt == Attempt(run, setup) && run < plan.runs;
            && (next == Some((run + 1, 1)) <==> expected && RowOf(old(work.s), tick, Attempt(run, setup)) == ModelResult)
            && (next == Some((run, setup + 1)) <==> expected && RowOf(old(work.s), tick, Attempt(run, setup)) == SetupFailure(true))
            && next in {None, Some((run + 1, 1)), Some((run, setup + 1))}
  {
    var a := Attempt(run, setup);
    next := None;
    EntryKeepsPosition(plan, work.s, tick, i, run, setup);
    work.LateActions(tick.late);
    if work.s.journal[i].attempt == a && run < plan.runs {
      var row := Inspect(work.s, a, tick.evidence);
      next := Advance(row, run, setup);
      work.s := Noted(work.s, a, row);
    }
  }

  lemma EntryKeepsPosition(plan: Plan, s: State, tick: Tick, i: nat, run: nat, setup: nat)
    requires Inv(plan, s) && i < |s.journal| && Position(plan, s, i, run, setup)
    ensures LateRun(s, tick.late).journal == s.journal
    ensures var r := Examine(plan, LateRun(s, tick.late), tick.evidence, i, run, setup);
            && Inv(plan, r.0) && Grows(s, r.0) && r.0.journal == s.journal && r.0.launched == s.launched
            && (r.1.Some? ==> Position(plan, r.0, i + 1, r.1.value.0, r.1.value.1))
  {
    var late := LateRun(s, tick.late);
    LateKeepsPosition(plan, s, tick.late, i, run, setup);
    ExamineKeepsPosition(plan, late, tick.evidence, i, run, setup);
    GrowsTrans(s, late, Examine(plan, late, tick.evidence, i, run, setup).0);
  }

  lemma {:induction false} LateKeepsJournal(s: State, late: seq<Late>)
    ensures LateRun(s, late).journal == s.journal
    decreases |late|
  {
    if late != [] { LateKeepsJournal(LateStep(s, late[0]), late[1..]); }
  }

  /** What replaying the journal from entry i on finds, and where it ends: None means that something needs inspection. */
  function Walk(plan: Plan, s: State, tape: seq<Tick>, i: nat, run: nat, setup: nat): (State, Option<(nat, nat)>)
    decreases |s.journal| - i
  {
    if i >= |s.journal| then (s, Some((run, setup)))
    else
      LateKeepsJournal(s, TickAt(tape, i).late);
      var r := Examine(plan, LateRun(s, TickAt(tape, i).late), TickAt(tape, i).evidence, i, run, setup);
      if r.1.None? then r else Walk(plan, r.0, tape, i + 1, r.1.value.0, r.1.value.1)
  }

  /** An entry was found to be what the journal did after it: the next run, or another setup. */
  predicate Confirms(journal: seq<Entry>, i: nat, row: Row)
    requires i < |journal|
  {
    var last := i + 1 == |journal|;
    || (row == ModelResult && (last || journal[i + 1].attempt.run == journal[i].attempt.run + 1))
    || (row == SetupFailure(true) && (last || journal[i + 1].attempt.run == journal[i].attempt.run))
  }

  predicate Confirmed(s: State, tape: seq<Tick>, i: nat)
    requires i < |s.journal|
  {
    Confirms(s.journal, i, Inspect(s, s.journal[i].attempt, TickAt(tape, i).evidence))
  }

  /**
   While no left-over child acts, the replay goes through if and only if every entry is found
   to be what the journal took it for: a model result before the next run, a safe setup
   failure before another setup of the same run, and either of them at the end.
  */
  lemma {:induction false} WalksThroughIff(plan: Plan, s: State, tape: seq<Tick>, i: nat, run: nat, setup: nat)
    requires Ordered(plan, s.journal) && forall k :: 0 <= k < |tape| ==> tape[k].late == []
    requires i < |s.journal| ==> s.journal[i].attempt == Attempt(run, setup)
    ensures Walk(plan, s, tape, i, run, setup).1.Some? <==> forall k :: i <= k < |s.journal| ==> Confirmed(s, tape, k)
    decreases |s.journal| - i
  {
    if i < |s.journal| {
      assert TickAt(tape, i).late == [];
      var r := Examine(plan, s, TickAt(tape, i).evidence, i, run, setup);
      forall k | i + 1 <= k < |s.journal| ensures Confirmed(r.0, tape, k) == Confirmed(s, tape, k) {}
      if r.1.None? {
        assert !Confirmed(s, tape, i);
      } else if i + 1 == |s.journal| {
        assert Confirmed(s, tape, i) && Walk(plan, r.0, tape, i + 1, r.1.value.0, r.1.value.1).1.Some?;
      } else {
        assert InOrder(s.journal, i);
        if Confirmed(s, tape, i) {
          WalksThroughIff(plan, r.0, tape, i + 1, r.1.value.0, r.1.value.1);
        } else {
          MisplacedStops(plan, r.0, tape, i + 1, r.1.value.0, r.1.value.1);
        }
      }
    }
  }

  lemma MisplacedStops(plan: Plan, s: State, tape: seq<Tick>, i: nat, run: nat, setup: nat)
    requires i < |s.journal| && s.journal[i].attempt != Attempt(run, setup)
    ensures Walk(plan, s, tape, i, run, setup).1.None?
  {
    LateKeepsJournal(s, TickAt(tape, i).late);
  }

  /** The first loop of `drive`: inspect every journal entry in order. */
  method Replay(work: Work, plan: Plan, tape: seq<Tick>) returns (at: Option<(nat, nat)>)
    requires Inv(plan, work.s)
    modifies work
    ensures Inv(plan, work.s) && Grows(old(work.s), work.s) && work.s.launched == old(work.s).launched
    ensures work.s.journal == old(work.s).journal && work.budget == old(work.budget)
    ensures (work.s, at) == Walk(plan, old(work.s), tape, 0, 0, 1)
    ensures at.Some? ==> Position(plan, work.s, |work.s.journal|, at.value.0, at.value.1)
  {
    at := Some((0, 1));
    var i := 0;
    while at.Some? && i < |work.s.journal|
      invariant i <= |work.s.journal| && Inv(plan, work.s) && Grows(old(work.s), work.s) && work.budget == old(work.budget)
      invariant work.s.journal == old(work.s).journal && work.s.launched == old(work.s).launched
      invariant at.Some? ==> Position(plan, work.s, i, at.value.0, at.value.1)
      invariant Walk(plan, old(work.s), tape, 0, 0, 1) ==
                if at.Some? then Walk(plan, work.s, tape, i, at.value.0, at.value.1) else (work.s, None)
      decreases |work.s.journal| - i
    {
      label entry:
      at := ReplayEntry(work, plan, TickAt(tape, i), i, at.value.0, at.value.1);
      GrowsTrans(old(work.s), old@entry(work.s), work.s);
      i := i + 1;
    }
  }

  lemma LaunchKeepsInv(plan: Plan, s: State, a: Attempt)
    requires Inv(plan, s) && InJournal(s.journal, a) && a !in s.launched && a !in s.cleared
    requires forall b :: Live(s, b) ==> b.run != a.run
    ensures Inv(plan, s.(launched := s.launched + [a], running := s.running + {a}))
  {
    var s' := s.(launched := s.launched + [a], running := s.running + {a});
    forall i, j | Precedes(s'.launched, i, j)
      ensures s'.launched[i] != s'.launched[j] && (s'.launched[i].run == s'.launched[j].run ==> !Live(s', s'.launched[i]))
    {
      if j < |s.launched| { assert Precedes(s.launched, i, j); }
    }
    if s.progress == Completed {
      forall r | 0 <= r < plan.runs ensures HasModel(s', r) { assert HasModel(s, r); }
    }
    SameFindings(s, s');
  }

  /** Nothing was done for an attempt yet, and no attempt of its run has started a model or still could. */
  ghost predicate Unused(s: State, a: Attempt) {
    a !in s.launched && a !in s.cleared && forall b :: Live(s, b) ==> b.run != a.run
  }

  /** The next attempt is not in the journal, and no attempt of its run can start a model any more. */
  lemma NextIsUnused(plan: Plan, s: State, run: nat, setup: nat)
    requires Inv(plan, s) && Position(plan, s, |s.journal|, run, setup)
    ensures !InJournal(s.journal, Attempt(run, setup)) && Unused(s, Attempt(run, setup))
  {
    forall b | Live(s, b) ensures b.run != run { assert InJournal(s.journal, b); }
  }

  /** Recording the next attempt keeps the journal in order and justified. */
  lemma NextEntry(plan: Plan, s: State, run: nat, setup: nat)
    requires Inv(plan, s) && Position(plan, s, |s.journal|, run, setup)
    requires run < plan.runs && setup <= plan.maxSetupAttempts
    ensures Inv(plan, s.(journal := s.journal + [Entry(Attempt(run, setup), false)]))
  {
    var a := Attempt(run, setup);
    var journal := s.journal + [Entry(a, false)];
    var s' := s.(journal := journal);
    LongerJournal(s.journal, Entry(a, false));
    forall i: nat | i + 1 < |journal| ensures InOrder(journal, i) && JustifiedAt(s', i) {
      if i + 1 < |s.journal| { assert InOrder(s.journal, i) && JustifiedAt(s, i); }
    }
    if s.progress == Completed {
      forall r | 0 <= r < plan.runs ensures HasModel(s', r) { assert HasModel(s, r); }
    }
  }

  lemma LongerJournal(journal: seq<Entry>, entry: Entry)
    ensures InJournal(journal + [entry], entry.attempt)
    ensures forall b :: InJournal(journal, b) ==> InJournal(journal + [entry], b)
  {
    var longer := journal + [entry];
    assert longer[|journal|] == entry;
    forall b | InJournal(journal, b) ensures InJournal(longer, b) {
      var i :| 0 <= i < |journal| && journal[i].attempt == b;
      assert longer[i].attempt == b;
    }
  }

  /** Marking an entry finished, or rewriting the progress file, changes nothing that matters here. */
  lemma RewriteKeepsInv(plan: Plan, s: State, s': State)
    requires Inv(plan, s)
    requires |s'.journal| == |s.journal| && forall i :: 0 <= i < |s.journal| ==> s'.journal[i].attempt == s.journal[i].attempt
    requires s' == s.(journal := s'.journal, progress := s'.progress)
    requires s'.progress == Completed ==> s.progress == Completed || forall r :: 0 <= r < plan.runs ==> HasModel(s, r)
    ensures Inv(plan, s')
  {
    forall a | InJournal(s.journal, a) ensures InJournal(s'.journal, a) {
      var i :| 0 <= i < |s.journal| && s.journal[i].attempt == a;
      assert s'.journal[i].attempt == a;
    }
    forall i: nat | i + 1 < |s'.journal| ensures InOrder(s'.journal, i) { assert InOrder(s.journal, i); }
    SameFindings(s, s');
    if s'.progress == Completed {
      forall r | 0 <= r < plan.runs ensures HasModel(s', r) { assert HasModel(s, r); }
    }
  }

  /** After a verified model result the driver stands at the next run. */
  lemma NextRun(plan: Plan, s: State, s': State, run: nat, setup: nat)
    requires Position(plan, s, |s.journal|, run, setup) && run < plan.runs && s.results <= s'.results
    requires s'.journal == s.journal + [Entry(Attempt(run, setup), true)]
    requires Attempt(run, setup) in s'.results
    ensures Position(plan, s', |s'.journal|, run + 1, 1)
  {
    forall r | 0 <= r < run + 1 ensures HasModel(s', r) {
      if r < run { assert HasModel(s, r); }
    }
  }

  /** `execute`: refuse an attempt directory that exists, else launch the child and wait for it. */
  method Execute(work: Work, ghost plan: Plan, a: Attempt, tick: Tick) returns (result: Option<bool>)
    requires Inv(plan, work.s) && InJournal(work.s.journal, a)
    requires a in work.s.launched || Unused(work.s, a)
    modifies work
    ensures Inv(plan, work.s) && Grows(old(work.s), work.s)
    ensures work.s.journal == old(work.s).journal && work.s.results == old(work.s).results && work.s.cleared == old(work.s).cleared
    ensures work.s.launched == old(work.s).launched || (a !in old(work.s).launched && work.s.launched == old(work.s).launched + [a])
    ensures a in old(work.s).launched ==> work.s == old(work.s) && result == Some(false)
    ensures result == Some(true) <==> a !in old(work.s).launched && tick.spawned && tick.exitKnown && old(work.budget) >= 2
    ensures result == Some(true) ==>
              && work.s.launched == old(work.s).launched + [a] && a !in work.s.running && work.budget == old(work.budget) - 2
              && (Foreign(tick.late, a.run) ==> (a in work.s.started <==> tick.starts))
    ensures result.None? ==> work.budget == 0
    ensures forall b :: Live(work.s, b) ==> Live(old(work.s), b) || b == a
  {
    if a in work.s.launched || !tick.spawned { return Some(false); }
    LaunchKeepsInv(plan, work.s, a);
    var ok := work.Write(work.s.(launched := work.s.launched + [a], running := work.s.running + {a}));
    if !ok { return None; }
    ghost var launched := work.s;
    var late := if tick.starts then tick.late + [Starts(a)] else tick.late;
    LateRunKeepsInv(plan, work.s, late);
    work.LateActions(late);
    ChildStarts(launched, tick, a);
    LateKeepsInv(plan, work.s, Exits(a));
    ok := work.Write(LateStep(work.s, Exits(a)));
    if !ok { return None; }
    return Some(tick.exitKnown);
  }

  /** Left to itself, a launched child leaves its marker exactly if it gets as far as starting the model. */
  lemma ChildStarts(s: State, tick: Tick, a: Attempt)
    requires a in s.running && a !in s.started
    ensures Foreign(tick.late, a.run) ==>
              (a in LateRun(s, if tick.starts then tick.late + [Starts(a)] else tick.late).started <==> tick.starts)
  {
    LateSnoc(s, tick.late, Starts(a));
    if Foreign(tick.late, a.run) { ForeignLeaves(s, tick.late, a); }
  }

  /** Save the attempt in the journal before anything is launched for it. */
  method Record(work: Work, plan: Plan, run: nat, setup: nat) returns (ok: bool)
    requires Inv(plan, work.s) && Position(plan, work.s, |work.s.journal|, run, setup)
    requires run < plan.runs && setup <= plan.maxSetupAttempts
    modifies work
    ensures Inv(plan, work.s) && Grows(old(work.s), work.s) && work.s.launched == old(work.s).launched
    ensures ok <==> old(work.budget) >= 2
    ensures ok ==>
              && work.budget == old(work.budget) - 2
              && work.s == old(work.s).(journal := old(work.s).journal + [Entry(Attempt(run, setup), false)], progress := Running)
              && InJournal(work.s.journal, Attempt(run, setup)) && Unused(work.s, Attempt(run, setup))
  {
    var entry := Entry(Attempt(run, setup), false);
    NextIsUnused(plan, work.s, run, setup);
    NextEntry(plan, work.s, run, setup);
    LongerJournal(work.s.journal, entry);
    ok := work.Write(work.s.(journal := work.s.journal + [entry]));
    if !ok { return; }
    RewriteKeepsInv(plan, work.s, work.s.(progress := Running));
    ok := work.Write(work.s.(progress := Running));
  }

  /** A verified model result of a child that is known to have exited, with no cancellation meanwhile. */
  predicate Concluded(s: State, a: Attempt, tick: Tick, exitKnown: bool) {
    Inspect(s, a, tick.evidence) == ModelResult && exitKnown && !tick.cancelledAfter
  }

  /** Save that the child ended, then inspect it; anything but a verified model result stops the campaign. */
  method Conclude(work: Work, plan: Plan, a: Attempt, tick: Tick, exitKnown: bool) returns (outcome: Outcome)
    requires Inv(plan, work.s) && |work.s.journal| > 0 && work.s.journal[|work.s.journal| - 1].attempt == a
    modifies work
    ensures Inv(plan, work.s) && Grows(old(work.s), work.s)
    ensures work.s.launched == old(work.s).launched && work.s.started == old(work.s).started
    ensures outcome == Done <==> old(work.budget) >= 1 && Concluded(old(work.s), a, tick, exitKnown)
    ensures outcome == Bailed ==> work.s.progress == Stopped
    ensures outcome == Done ==>
              && a in work.s.results && work.budget == old(work.budget) - 1
              && work.s.journal == old(work.s).journal[..|old(work.s).journal| - 1] + [Entry(a, true)]
  {
    FinishKeepsInv(plan, work.s, a, tick.evidence);
    var ok := work.Write(Finished(work.s, a));
    if !ok { return Interrupted; }
    var row := Inspect(work.s, a, tick.evidence);
    work.s := Noted(work.s, a, row);
    if row == ModelResult && exitKnown && !tick.cancelledAfter { return Done; }
    outcome := Stop(work, plan);
  }

  /** The last entry, marked finished. */
  function Finished(s: State, a: Attempt): State
    requires |s.journal| > 0
  {
    s.(journal := s.journal[..|s.journal| - 1] + [Entry(a, true)])
  }

  lemma FinishKeepsInv(plan: Plan, s: State, a: Attempt, e: Evidence)
    requires Inv(plan, s) && |s.journal| > 0 && s.journal[|s.journal| - 1].attempt == a
    ensures var f := Finished(s, a); var n := Noted(f, a, Inspect(f, a, e));
            Inv(plan, f) && Grows(s, f) && Inv(plan, n) && Grows(s, n) && Inspect(f, a, e) == Inspect(s, a, e)
  {
    var f := Finished(s, a);
    RewriteKeepsInv(plan, s, f);
    assert InJournal(f.journal, a) by { assert f.journal[|s.journal| - 1].attempt == a; }
    NotedKeepsInv(plan, f, a, e);
    GrowsTrans(s, f, Noted(f, a, Inspect(f, a, e)));
  }

  /** Record that the campaign stopped. */
  method Stop(work: Work, plan: Plan) returns (outcome: Outcome)
    requires Inv(plan, work.s)
    modifies work
    ensures Inv(plan, work.s) && work.s == old(work.s).(progress := work.s.progress)
    ensures outcome in {Bailed, Interrupted} && (outcome == Bailed ==> work.s.progress == Stopped)
  {
    RewriteKeepsInv(plan, work.s, work.s.(progress := Stopped));
    var ok := work.Write(work.s.(progress := Stopped));
    return if ok then Bailed else Interrupted;
  }

  /** What `drive` checks before a launch; otherwise it stops with nothing recorded. */
  predicate Permitted(plan: Plan, tick: Tick, setup: nat) {
    !tick.cancelled && setup <= plan.maxSetupAttempts && tick.sourceUnchanged
  }

  /** The child runs, starts its model, exits and leaves a result that verifies, without a cancellation meanwhile. */
  predicate Clean(tick: Tick) {
    tick.spawned && tick.starts && tick.exitKnown && tick.evidence.modelVerified && !tick.cancelledAfter
  }

  /** One launch: journal first, then the child, then its inspection. Done means a verified model result. */
  method LaunchRun(work: Work, plan: Plan, tick: Tick, run: nat, setup: nat) returns (outcome: Outcome)
    requires Inv(plan, work.s) && Position(plan, work.s, |work.s.journal|, run, setup) && run < plan.runs
    modifies work
    ensures Inv(plan, work.s) && Grows(old(work.s), work.s)
    ensures work.s.launched == old(work.s).launched || work.s.launched == old(work.s).launched + [Attempt(run, setup)]
    ensures !Permitted(plan, tick, setup) ==> outcome == Bailed && work.s == old(work.s)
    ensures outcome == Done ==>
              && Position(plan, work.s, |work.s.journal|, run + 1, 1) && work.budget == old(work.budget) - 5
              && Attempt(run, setup) in work.s.results && work.s.launched == old(work.s).launched + [Attempt(run, setup)]
    ensures Foreign(tick.late, run) ==>
              (outcome == Done <==> Permitted(plan, tick, setup) && Clean(tick) && old(work.budget) >= 5)
  {
    outcome := Bailed;
    if !tick.cancelled && setup <= plan.maxSetupAttempts && tick.sourceUnchanged {
      outcome := Interrupted;
      var ok := Record(work, plan, run, setup);
      if ok {
        outcome := LaunchRecorded(work, plan, tick, Attempt(run, setup));
        if outcome == Done { NextRun(plan, old(work.s), work.s, run, setup); }
      }
    }
  }

  /** The child of the entry just journalled, and the inspection of what it left. */
  method LaunchRecorded(work: Work, plan: Plan, tick: Tick, a: Attempt) returns (outcome: Outcome)
    requires Inv(plan, work.s) && |work.s.journal| > 0 && work.s.journal[|work.s.journal| - 1].attempt == a
    requires Unused(work.s, a)
    modifies work
    ensures Inv(plan, work.s) && Grows(old(work.s), work.s)
    ensures work.s.launched == old(work.s).launched || work.s.launched == old(work.s).launched + [a]
    ensures outcome == Done ==>
              && a in work.s.results && work.s.launched == old(work.s).launched + [a] && work.budget == old(work.budget) - 3
              && work.s.journal == old(work.s).journal[..|old(work.s).journal| - 1] + [Entry(a, true)]
    ensures Foreign(tick.late, a.run) ==> (outcome == Done <==> Clean(tick) && old(work.budget) >= 3)
  {
    assert InJournal(work.s.journal, a) by { assert work.s.journal[|work.s.journal| - 1].attempt == a; }
    var result := Execute(work, plan, a, tick);
    if result.None? { return Interrupted; }
    outcome := Conclude(work, plan, a, tick, result.value);
  }

  /** The attempt a session makes of a run: the one it found its place at, or the first of a later run. */
  function SetupOf(run: nat, first: nat, setup: nat): nat {
    if run == first then setup else 1
  }

  predicate CleanRun(plan: Plan, tape: seq<Tick>, r: nat, first: nat, setup: nat) {
    Permitted(plan, TickAt(tape, r), SetupOf(r, first, setup)) && Clean(TickAt(tape, r))
  }

  /** Every run from the first one on, up to some other, may be launched and goes well. */
  predicate CleanRuns(plan: Plan, tape: seq<Tick>, first: nat, setup: nat, end: nat)
    decreases end
  {
    end <= first || (CleanRuns(plan, tape, first, setup, end - 1) && CleanRun(plan, tape, end - 1, first, setup))
  }

  predicate AllForeign(plan: Plan, tape: seq<Tick>) {
    forall r :: 0 <= r < plan.runs ==> Foreign(TickAt(tape, r).late, r)
  }

  lemma {:induction false} CleanRunsShorter(plan: Plan, tape: seq<Tick>, first: nat, setup: nat, run: nat, end: nat)
    requires run <= end
    ensures CleanRuns(plan, tape, first, setup, end) ==> CleanRuns(plan, tape, first, setup, run)
    decreases end
  {
    if run < end { CleanRunsShorter(plan, tape, first, setup, run, end - 1); }
  }

  /** The second loop of `drive`: launch run after run, stopping at anything but a verified model result. */
  method LaunchRuns(work: Work, plan: Plan, tape: seq<Tick>, first: nat, setup: nat) returns (outcome: Outcome)
    requires Inv(plan, work.s) && Position(plan, work.s, |work.s.journal|, first, setup)
    modifies work
    ensures Inv(plan, work.s) && Grows(old(work.s), work.s)
    ensures outcome == Done ==>
              && Position(plan, work.s, |work.s.journal|, plan.runs, SetupOf(plan.runs, first, setup))
              && work.budget == old(work.budget) - 5 * (plan.runs - first)
    ensures AllForeign(plan, tape) ==>
              (outcome == Done <==> CleanRuns(plan, tape, first, setup, plan.runs) && old(work.budget) >= 5 * (plan.runs - first))
  {
    var run: nat, attempt: nat := first, setup;
    outcome := Done;
    while run < plan.runs && outcome == Done
      invariant first <= run <= plan.runs && Inv(plan, work.s) && Grows(old(work.s), work.s)
      invariant outcome == Done ==> Position(plan, work.s, |work.s.journal|, run, attempt) && attempt == SetupOf(run, first, setup)
      invariant outcome == Done ==> work.budget == old(work.budget) - 5 * (run - first)
      invariant AllForeign(plan, tape) ==>
                  (outcome == Done <==> CleanRuns(plan, tape, first, setup, run) && old(work.budget) >= 5 * (run - first))
      decreases plan.runs - run
    {
      assert AllForeign(plan, tape) ==> Foreign(TickAt(tape, run).late, run);
      label before:
      outcome := LaunchRun(work, plan, TickAt(tape, run), run, attempt);
      GrowsTrans(old(work.s), old@before(work.s), work.s);
      run, attempt := run + 1, 1;
    }
    CleanRunsShorter(plan, tape, first, setup, run, plan.runs);
  }

  /** The loop, and the completed campaign once every run has its result. */
  method Launch(work: Work, plan: Plan, tape: seq<Tick>, first: nat, setup: nat) returns (outcome: Outcome)
    requires Inv(plan, work.s) && Position(plan, work.s, |work.s.journal|, first, setup)
    modifies work
    ensures Inv(plan, work.s) && Grows(old(work.s), work.s)
    ensures outcome == Done ==> work.s.progress == Completed
    ensures AllForeign(plan, tape) ==>
              (outcome == Done <==> CleanRuns(plan, tape, first, setup, plan.runs) && old(work.budget) >= 5 * (plan.runs - first) + 1)
  {
    outcome := LaunchRuns(work, plan, tape, first, setup);
    if outcome == Done {
      label launched:
      outcome := Complete(work, plan);
      GrowsTrans(old(work.s), old@launched(work.s), work.s);
    }
  }

  method Complete(work: Work, plan: Plan) returns (outcome: Outcome)
    requires Inv(plan, work.s) && forall r :: 0 <= r < plan.runs ==> HasModel(work.s, r)
    modifies work
    ensures Inv(plan, work.s) && Grows(old(work.s), work.s)
    ensures outcome == Done <==> old(work.budget) >= 1
    ensures outcome == Done ==> work.s.progress == Completed
  {
    RewriteKeepsInv(plan, work.s, work.s.(progress := Completed));
    var ok := work.Write(work.s.(progress := Completed));
    outcome := if ok then Done else Interrupted;
  }

  /**
   `drive`: as long as no left-over child interferes with a launch, a session completes the
   campaign if and only if the replay goes through, every run left may be launched and gives
   a verified model result, and nothing interrupts it.
  */
  method Drive(work: Work, plan: Plan, replay: seq<Tick>, launches: seq<Tick>) returns (outcome: Outcome)
    requires Inv(plan, work.s)
    modifies work
    ensures Inv(plan, work.s) && Grows(old(work.s), work.s)
    ensures outcome == Done ==> work.s.progress == Completed && Walk(plan, old(work.s), replay, 0, 0, 1).1.Some?
    ensures AllForeign(plan, launches) ==>
              (outcome == Done <==> Completes(plan, old(work.s), replay, launches, old(work.budget)))
  {
    var at := Replay(work, plan, replay);
    if at.None? { return Bailed; }
    outcome := Launch(work, plan, launches, at.value.0, at.value.1);
  }

  predicate Completes(plan: Plan, s: State, replay: seq<Tick>, launches: seq<Tick>, budget: nat) {
    var at := Walk(plan, s, replay, 0, 0, 1).1;
    && at.Some? && CleanRuns(plan, launches, at.value.0, at.value.1, plan.runs)
    && budget >= 5 * (plan.runs - at.value.0) + 1
  }

  /** One invocation of the campaign command, with everything the world decides in it. */
  datatype Session = Session(budget: nat, replay: seq<Tick>, launches: seq<Tick>)

  /** `run`: whatever ends the session early is recorded as a stop. */
  method RunSession(work: Work, plan: Plan, session: Session) returns (outcome: Outcome)
    requires Inv(plan, work.s)
    modifies work
    ensures Inv(plan, work.s) && Grows(old(work.s), work.s)
    ensures outcome == Done ==> work.s.progress == Completed && Walk(plan, old(work.s), session.replay, 0, 0, 1).1.Some?
    ensures outcome == Bailed ==> work.s.progress == Stopped
    ensures AllForeign(plan, session.launches) ==>
              (outcome == Done <==> Completes(plan, old(work.s), session.replay, session.launches, old(work.budget)))
  {
    outcome := Drive(work, plan, session.replay, session.launches);
    if outcome == Bailed { outcome := Stop(work, plan); }
  }

  /**
   At most once, over any sequence of sessions: no attempt is launched twice, no run is
   launched again after an attempt of it that started a model, no run has two such attempts,
   launches are bounded by the plan; the journal goes on to the next run only after a verified
   model result and to another setup only after a safe setup failure, and a completed campaign
   has a verified model result for every run.
  */
  method Resume(plan: Plan, sessions: seq<Session>) returns (s: State)
    requires ValidPlan(plan)
    ensures forall i, j :: 0 <= i < j < |s.launched| ==>
              s.launched[i] != s.launched[j] && (s.launched[i].run == s.launched[j].run ==> s.launched[i] !in s.started)
    ensures forall a, b :: a in s.started && b in s.started && a.run == b.run ==> a == b
    ensures s.results <= s.started && s.cleared !! s.started && forall a :: a in s.started ==> a in s.launched
    ensures forall a :: a in s.launched ==> a.run < plan.runs && 1 <= a.setup <= plan.maxSetupAttempts && InJournal(s.journal, a)
    ensures Ordered(plan, s.journal) && Justified(s)
    ensures |s.launched| <= plan.runs * plan.maxSetupAttempts
    ensures s.progress == Completed ==> forall r :: 0 <= r < plan.runs ==> HasModel(s, r)
  {
    s := Init();
    var i := 0;
    while i < |sessions|
      invariant i <= |sessions| && Inv(plan, s)
    {
      var work := new Work(s, sessions[i].budget);
      var outcome := RunSession(work, plan, sessions[i]);
      s := work.s;
      i := i + 1;
    }
    LaunchesAreBounded(plan, s);
    forall i, j | 0 <= i < j < |s.launched|
      ensures s.launched[i] != s.launched[j] && (s.launched[i].run == s.launched[j].run ==> s.launched[i] !in s.started)
    {
      assert Precedes(s.launched, i, j);
    }
    forall a | a in s.launched ensures a.run < plan.runs && 1 <= a.setup <= plan.maxSetupAttempts {
      assert InJournal(s.journal, a);
    }
    forall a, b | a in s.started && b in s.started && a.run == b.run ensures a == b {
      assert SameRun(a, b) && Live(s, a) && Live(s, b);
    }
  }
}
