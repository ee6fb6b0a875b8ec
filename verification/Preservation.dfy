/** Comparing two inventories of a machine's resources, with excluded lifecycle fields. */
module Preservation {
  import opened Wrappers
  import opened Json

  type Resources = map<string, Json>

  /** `other` holds the remaining sections, such as the configuration digests. */
  datatype Snapshot = Snapshot(format: nat, containers: Resources, networks: Resources, volumes: Resources, other: Resources)

  type Exclusions = map<string, seq<string>>

  datatype Error = Changed | CannotExclude | NotOwnershipAware | MaybeOwned | BadObservation | Deadline

  const LIFECYCLE_FIELDS: seq<string> := ["running", "restarting", "started", "restarts"]

  // ---------------------------------------------------------------- specification

  predicate Excluded(ex: Exclusions, id: string, field: string) {
    id in ex && field in ex[id]
  }

  predicate OnlyLifecycle(ex: Exclusions) {
    forall id :: id in ex ==> forall i :: 0 <= i < |ex[id]| ==> ex[id][i] in LIFECYCLE_FIELDS
  }

  /** Two resources agree up to the values of the excluded fields; which fields exist is still compared. */
  predicate SameResource(a: Json, b: Json, ex: Exclusions, id: string) {
    if a.Obj? && b.Obj? then
      && a.members.Keys == b.members.Keys
      && forall f :: f in a.members && !Excluded(ex, id, f) ==> a.members[f] == b.members[f]
    else a == b
  }

  predicate SameBut(a: Snapshot, b: Snapshot, ex: Exclusions) {
    && a.format == b.format && a.networks == b.networks && a.volumes == b.volumes && a.other == b.other
    && a.containers.Keys == b.containers.Keys
    && forall id :: id in a.containers ==> SameResource(a.containers[id], b.containers[id], ex, id)
  }

  // ---------------------------------------------------------------- verify_with_exclusions

  function Blank(v: Json, ex: Exclusions, id: string): Json {
    if v.Obj? then Obj(map f | f in v.members :: if Excluded(ex, id, f) then Null else v.members[f]) else v
  }

  function Normalized(s: Snapshot, ex: Exclusions): Snapshot {
    s.(containers := map id | id in s.containers :: Blank(s.containers[id], ex, id))
  }

  lemma BlankAgrees(a: Json, b: Json, ex: Exclusions, id: string)
    ensures Blank(a, ex, id) == Blank(b, ex, id) <==> SameResource(a, b, ex, id)
  {
    if a.Obj? && b.Obj? {
      var x, y := Blank(a, ex, id).members, Blank(b, ex, id).members;
      assert x.Keys == a.members.Keys && y.Keys == b.members.Keys;
      if x == y {
        forall f | f in a.members && !Excluded(ex, id, f) ensures a.members[f] == b.members[f] { assert x[f] == y[f]; }
      }
      if SameResource(a, b, ex, id) { assert x == y; }
    }
  }

  lemma NormalizedAgrees(a: Snapshot, b: Snapshot, ex: Exclusions)
    ensures Normalized(a, ex) == Normalized(b, ex) <==> SameBut(a, b, ex)
  {
    var x, y := Normalized(a, ex).containers, Normalized(b, ex).containers;
    assert x.Keys == a.containers.Keys && y.Keys == b.containers.Keys;
    forall id | id in a.containers && id in b.containers
      ensures x[id] == y[id] <==> SameResource(a.containers[id], b.containers[id], ex, id)
    {
      BlankAgrees(a.containers[id], b.containers[id], ex, id);
    }
    if x == y {
      forall id | id in a.containers ensures SameResource(a.containers[id], b.containers[id], ex, id) { assert x[id] == y[id]; }
    }
    if SameBut(a, b, ex) { assert x == y; }
  }

  lemma NothingBlanked(s: Snapshot, ex: Exclusions)
    requires ex == map[]
    ensures Normalized(s, ex) == s
  {
    forall id | id in s.containers ensures Blank(s.containers[id], ex, id) == s.containers[id] {
      if s.containers[id].Obj? { assert Blank(s.containers[id], ex, id).members == s.containers[id].members; }
    }
    assert Normalized(s, ex).containers == s.containers;
  }

  /** What the inner loop leaves for one container. */
  function BlankedIn(containers: Resources, id: string, fields: seq<string>): Resources {
    if id in containers then containers[id := Blank(containers[id], map[id := fields], id)] else containers
  }

  lemma BlankOne(s: Snapshot, ex: Exclusions, rest: set<string>, id: string, after: Resources)
    requires id in rest && rest <= ex.Keys && after == BlankedIn(Normalized(s, ex - rest).containers, id, ex[id])
    ensures s.(containers := after) == Normalized(s, ex - (rest - {id}))
  {
    var target := Normalized(s, ex - (rest - {id})).containers;
    assert after.Keys == target.Keys;
    forall k | k in target ensures after[k] == target[k] {
      var v := s.containers[k];
      if k == id {
        assert Blank(v, ex - rest, id) == v by { if v.Obj? { assert Blank(v, ex - rest, id).members == v.members; } }
        if v.Obj? { assert Blank(v, map[id := ex[id]], id).members == Blank(v, ex - (rest - {id}), id).members; }
      } else if v.Obj? {
        assert Blank(v, ex - rest, k).members == Blank(v, ex - (rest - {id}), k).members;
      }
    }
    assert after == target;
  }

  lemma BlankedNone(containers: Resources, id: string)
    ensures BlankedIn(containers, id, []) == containers
  {
    if id in containers && containers[id].Obj? {
      assert Blank(containers[id], map[id := []], id).members == containers[id].members;
    }
  }

  lemma BlankedSnoc(containers: Resources, id: string, fields: seq<string>, field: string)
    ensures var before, after := BlankedIn(containers, id, fields), BlankedIn(containers, id, fields + [field]);
            after == if id in before && before[id].Obj? && field in before[id].members
                     then before[id := Obj(before[id].members[field := Null])] else before
  {
    if id in containers && containers[id].Obj? {
      var v := containers[id];
      var x, y := Blank(v, map[id := fields], id).members, Blank(v, map[id := fields + [field]], id).members;
      assert y == if field in x then x[field := Null] else x;
    }
  }

  function Verified(before: Snapshot, after: Snapshot, ex: Exclusions): Result<(), Error> {
    if !OnlyLifecycle(ex) then Err(CannotExclude) else if SameBut(before, after, ex) then Ok(()) else Err(Changed)
  }

  // ---------------------------------------------------------------- the relation

  /** For fixed exclusions the comparison is an equivalence. */
  lemma SameButIsEquivalence(a: Snapshot, b: Snapshot, c: Snapshot, ex: Exclusions)
    ensures SameBut(a, a, ex)
    ensures SameBut(a, b, ex) ==> SameBut(b, a, ex)
    ensures SameBut(a, b, ex) && SameBut(b, c, ex) ==> SameBut(a, c, ex)
  {
    NormalizedAgrees(a, b, ex);
    NormalizedAgrees(b, a, ex);
    NormalizedAgrees(b, c, ex);
    NormalizedAgrees(a, c, ex);
  }

  predicate Within(small: Exclusions, large: Exclusions) {
    forall id :: id in small ==> forall i :: 0 <= i < |small[id]| ==> Excluded(large, id, small[id][i])
  }

  lemma WithinExcluded(small: Exclusions, large: Exclusions, id: string, field: string)
    requires Within(small, large) && Excluded(small, id, field)
    ensures Excluded(large, id, field)
  {
    var i :| 0 <= i < |small[id]| && small[id][i] == field;
  }

  /** Excluding more never makes the comparison stricter. */
  lemma SameButIsMonotone(a: Snapshot, b: Snapshot, small: Exclusions, large: Exclusions)
    requires Within(small, large) && SameBut(a, b, small)
    ensures SameBut(a, b, large)
  {
    forall id | id in a.containers ensures SameResource(a.containers[id], b.containers[id], large, id) {
      assert SameResource(a.containers[id], b.containers[id], small, id);
      var x, y := a.containers[id], b.containers[id];
      if x.Obj? && y.Obj? {
        forall f | f in x.members && !Excluded(large, id, f) ensures x.members[f] == y.members[f] {
          if Excluded(small, id, f) { WithinExcluded(small, large, id, f); }
        }
      }
    }
  }

  // ---------------------------------------------------------------- exclusions

  function FieldOf(v: Json, field: string): Option<Json> {
    if v.Obj? && field in v.members then Some(v.members[field]) else None
  }

  predicate Moved(a: Json, b: Json, field: string) {
    FieldOf(a, field).Some? && FieldOf(b, field).Some? && FieldOf(a, field) != FieldOf(b, field)
  }

  function MovedFields(a: Json, b: Json, fields: seq<string>): (moved: seq<string>)
    ensures forall f :: f in moved <==> f in fields && Moved(a, b, f)
  {
    if fields == [] then []
    else (if Moved(a, b, fields[0]) then [fields[0]] else []) + MovedFields(a, b, fields[1..])
  }

  predicate OwnedBy(v: Json, owner: string) {
    FieldOf(v, "owner") == Some(Str(owner))
  }

  /** A container whose moved lifecycle fields are excluded: it exists in both and is not the run's own. */
  predicate Considered(first: Snapshot, second: Snapshot, owner: Option<string>, id: string) {
    && id in first.containers && id in second.containers
    && !(owner.Some? && (OwnedBy(first.containers[id], owner.value) || OwnedBy(second.containers[id], owner.value)))
  }

  function Changes(first: Snapshot, second: Snapshot, owner: Option<string>): Exclusions {
    map id | id in first.containers && Considered(first, second, owner, id)
             && MovedFields(first.containers[id], second.containers[id], LIFECYCLE_FIELDS) != []
           :: MovedFields(first.containers[id], second.containers[id], LIFECYCLE_FIELDS)
  }

  function CollectExclusions(first: Snapshot, second: Snapshot, owner: Option<string>): Result<Exclusions, Error> {
    var ex := Changes(first, second, owner);
    if first.format == 2 || second.format == 2 then
      (match RunVerified(first, second, ex) case Ok(_) => Ok(ex) case Err(e) => Err(e))
    else
      (match Verified(first, second, ex) case Ok(_) => Ok(ex) case Err(e) => Err(e))
  }

  lemma ChangesOnlyLifecycle(first: Snapshot, second: Snapshot, owner: Option<string>)
    ensures OnlyLifecycle(Changes(first, second, owner))
  {
  }

  /** Every exclusion that makes two inventories agree contains each lifecycle field that moved. */
  lemma ChangesAreNeeded(first: Snapshot, second: Snapshot, owner: Option<string>, ex: Exclusions)
    requires forall id :: id in first.containers && id in second.containers ==>
                            SameResource(first.containers[id], second.containers[id], ex, id)
    ensures Within(Changes(first, second, owner), ex)
  {
    var changes := Changes(first, second, owner);
    forall id | id in changes
      ensures forall i :: 0 <= i < |changes[id]| ==> Excluded(ex, id, changes[id][i])
    {
      forall i | 0 <= i < |changes[id]| ensures Excluded(ex, id, changes[id][i]) {
        var f := changes[id][i];
        assert f in MovedFields(first.containers[id], second.containers[id], LIFECYCLE_FIELDS);
        assert SameResource(first.containers[id], second.containers[id], ex, id);
      }
    }
  }

  lemma MovedIsExcluded(first: Snapshot, second: Snapshot, id: string, f: string)
    requires id in first.containers && id in second.containers
    ensures Excluded(Changes(first, second, None), id, f)
       <==> f in LIFECYCLE_FIELDS && Moved(first.containers[id], second.containers[id], f)
  {
    var moved := MovedFields(first.containers[id], second.containers[id], LIFECYCLE_FIELDS);
    assert f in moved <==> f in LIFECYCLE_FIELDS && Moved(first.containers[id], second.containers[id], f);
    assert moved == [] ==> f !in moved;
  }

  /** What moved between the two is enough, if any set of lifecycle fields is. */
  lemma ChangesSuffice(first: Snapshot, second: Snapshot, ex: Exclusions)
    requires OnlyLifecycle(ex) && SameBut(first, second, ex)
    ensures SameBut(first, second, Changes(first, second, None))
  {
    var changes := Changes(first, second, None);
    forall id | id in first.containers
      ensures SameResource(first.containers[id], second.containers[id], changes, id)
    {
      var a, b := first.containers[id], second.containers[id];
      assert SameResource(a, b, ex, id);
      if a.Obj? && b.Obj? {
        forall f | f in a.members && !Excluded(changes, id, f) ensures a.members[f] == b.members[f] {
          MovedIsExcluded(first, second, id, f);
          if Excluded(ex, id, f) { assert f in LIFECYCLE_FIELDS; }
        }
      }
    }
  }

  // ---------------------------------------------------------------- ownership-aware comparison

  function TrimSlashes(s: string): string {
    if s != "" && s[0] == '/' then TrimSlashes(s[1..]) else s
  }

  predicate HasPrefix(s: string, prefix: string) {
    prefix <= s
  }

  function Label(v: Json, key: string): Option<string> {
    match FieldOf(v, key)
    case Some(Null) => Some("")
    case Some(Str(s)) => Some(s)
    case _ => None
  }

  function Unowned(v: Json): Result<bool, Error> {
    var owner, cluster := Label(v, "owner"), Label(v, "cluster");
    if owner.None? || cluster.None? || !(FieldOf(v, "name").Some? && FieldOf(v, "name").value.Str?) then Err(BadObservation)
    else
      var name := TrimSlashes(FieldOf(v, "name").value.s);
      Ok(&& owner.value == ""
         && !HasPrefix(cluster.value, "proofstorm-") && !HasPrefix(cluster.value, "pst-")
         && !HasPrefix(name, "k3d-proofstorm-") && !HasPrefix(name, "k3d-pst-"))
  }

  predicate IsUnowned(resources: Resources, id: string) {
    id in resources && Unowned(resources[id]) == Ok(true)
  }

  predicate AdditionsUnowned(before: Resources, after: Resources) {
    forall id :: id in after && id !in before ==> IsUnowned(after, id)
  }

  function Retain(before: Resources, after: Resources): Resources {
    map id | id in after && id in before :: after[id]
  }

  function Retained(before: Snapshot, after: Snapshot): Snapshot {
    after.(containers := Retain(before.containers, after.containers),
           networks := Retain(before.networks, after.networks),
           volumes := Retain(before.volumes, after.volumes))
  }

  predicate RunPasses(before: Snapshot, after: Snapshot, ex: Exclusions) {
    && before.format == 2 && after.format == 2
    && AdditionsUnowned(before.containers, after.containers)
    && AdditionsUnowned(before.networks, after.networks)
    && AdditionsUnowned(before.volumes, after.volumes)
    && OnlyLifecycle(ex) && SameBut(before, Retained(before, after), ex)
  }

  /** The verdict; an unreadable addition is reported like one that may be owned. */
  function RunVerified(before: Snapshot, after: Snapshot, ex: Exclusions): Result<(), Error> {
    if before.format != 2 || after.format != 2 then Err(NotOwnershipAware)
    else if !(AdditionsUnowned(before.containers, after.containers) && AdditionsUnowned(before.networks, after.networks)
              && AdditionsUnowned(before.volumes, after.volumes)) then Err(MaybeOwned)
    else Verified(before, Retained(before, after), ex)
  }

  function Additions(before: Snapshot, after: Snapshot): (nat, nat, nat) {
    (|after.containers.Keys - before.containers.Keys|, |after.networks.Keys - before.networks.Keys|,
     |after.volumes.Keys - before.volumes.Keys|)
  }

  /** No preexisting resource is exempt: it is still there, and the same but for excluded values. */
  lemma RunProtectsPreexisting(before: Snapshot, after: Snapshot, ex: Exclusions)
    ensures RunVerified(before, after, ex).Ok? <==> RunPasses(before, after, ex)
    ensures RunVerified(before, after, ex).Ok? <==>
            && before.format == 2 && after.format == 2 && OnlyLifecycle(ex)
            && (forall id :: id in before.containers ==>
                  id in after.containers && SameResource(before.containers[id], after.containers[id], ex, id))
            && (forall id :: id in before.networks ==> id in after.networks && before.networks[id] == after.networks[id])
            && (forall id :: id in before.volumes ==> id in after.volumes && before.volumes[id] == after.volumes[id])
            && before.other == after.other
            && AdditionsUnowned(before.containers, after.containers)
            && AdditionsUnowned(before.networks, after.networks)
            && AdditionsUnowned(before.volumes, after.volumes)
  {
    var kept := Retained(before, after);
    RetainAgrees(before.networks, after.networks);
    RetainAgrees(before.volumes, after.volumes);
    assert before.containers.Keys == kept.containers.Keys <==> forall id :: id in before.containers ==> id in after.containers;
    assert forall id :: id in kept.containers ==> kept.containers[id] == after.containers[id];
  }

  lemma RetainAgrees(before: Resources, after: Resources)
    ensures before == Retain(before, after) <==> forall id :: id in before ==> id in after && before[id] == after[id]
  {
    var kept := Retain(before, after);
    assert before.Keys == kept.Keys <==> forall id :: id in before ==> id in after;
    assert before == kept <==> before.Keys == kept.Keys && forall id :: id in before.Keys * kept.Keys ==> before[id] == kept[id];
  }

  /** Whatever the formats, a successful `exclusions` validates its own pair, and so does any larger set. */
  ghost predicate Validates(first: Snapshot, second: Snapshot, ex: Exclusions) {
    if first.format == 2 || second.format == 2 then RunPasses(first, second, ex)
    else OnlyLifecycle(ex) && SameBut(first, second, ex)
  }

  lemma RetainedChanges(first: Snapshot, second: Snapshot)
    ensures Changes(first, Retained(first, second), None) == Changes(first, second, None)
  {
    var kept := Retained(first, second);
    assert forall id :: id in first.containers ==> (id in kept.containers <==> id in second.containers);
    assert forall id :: id in kept.containers ==> kept.containers[id] == second.containers[id];
  }

  lemma ChangesValidate(first: Snapshot, second: Snapshot, ex: Exclusions)
    requires OnlyLifecycle(ex) && Validates(first, second, ex)
    ensures Validates(first, second, Changes(first, second, None)) && Within(Changes(first, second, None), ex)
  {
    ChangesOnlyLifecycle(first, second, None);
    if first.format == 2 || second.format == 2 {
      RetainedChanges(first, second);
      ChangesSuffice(first, Retained(first, second), ex);
      ChangesAreNeeded(first, Retained(first, second), None, ex);
    } else {
      ChangesSuffice(first, second, ex);
      ChangesAreNeeded(first, second, None, ex);
    }
  }

  /**
   Without a run owner, `exclusions` succeeds exactly when some set of lifecycle fields makes
   the pair pass, and it returns the least such set: a set passes if and only if it contains it.
  */
  lemma ExclusionsAreLeast(first: Snapshot, second: Snapshot, ex: Exclusions)
    requires OnlyLifecycle(ex)
    ensures Validates(first, second, ex) ==> CollectExclusions(first, second, None).Ok?
    ensures CollectExclusions(first, second, None).Ok? ==>
              && OnlyLifecycle(CollectExclusions(first, second, None).value)
              && (Validates(first, second, ex) <==> Within(CollectExclusions(first, second, None).value, ex))
  {
    var changes := Changes(first, second, None);
    ChangesOnlyLifecycle(first, second, None);
    if Validates(first, second, ex) { ChangesValidate(first, second, ex); }
    if Validates(first, second, changes) && Within(changes, ex) { LargerStillValidates(first, second, changes, ex); }
    if CollectExclusions(first, second, None).Ok? { FoundValidates(first, second); }
  }

  lemma LargerStillValidates(first: Snapshot, second: Snapshot, small: Exclusions, large: Exclusions)
    requires Validates(first, second, small) && Within(small, large) && OnlyLifecycle(large)
    ensures Validates(first, second, large)
  {
    if first.format == 2 || second.format == 2 { SameButIsMonotone(first, Retained(first, second), small, large); }
    else { SameButIsMonotone(first, second, small, large); }
  }

  // ---------------------------------------------------------------- baseline

  function IndexOf(v: Option<Json>, field: string): Json {
    if v.Some? then FieldOf(v.value, field).GetOr(Null) else Null
  }

  predicate Restarting(value: Json, next: Option<Json>) {
    var counted := IndexOf(Some(value), "restarts") != IndexOf(next, "restarts");
    var started := IndexOf(Some(value), "started") != IndexOf(next, "started");
    && (IndexOf(Some(value), "restarting") == Bool(true) || IndexOf(next, "restarting") == Bool(true) || counted || started)
    && !(counted && started)
  }

  predicate AwaitingRestart(first: Snapshot, current: Snapshot) {
    exists id :: id in first.containers &&
      Restarting(first.containers[id], if id in current.containers then Some(current.containers[id]) else None)
  }

  lemma UnionKeeps(a: Exclusions, b: Exclusions, all: Exclusions)
    requires forall id, f :: Excluded(all, id, f) <==> Excluded(a, id, f) || Excluded(b, id, f)
    ensures Within(a, all) && Within(b, all)
    ensures OnlyLifecycle(a) && OnlyLifecycle(b) ==> OnlyLifecycle(all)
  {
    forall id | id in a ensures forall i :: 0 <= i < |a[id]| ==> Excluded(all, id, a[id][i]) {
      forall i | 0 <= i < |a[id]| ensures Excluded(all, id, a[id][i]) { assert Excluded(a, id, a[id][i]); }
    }
    forall id | id in b ensures forall i :: 0 <= i < |b[id]| ==> Excluded(all, id, b[id][i]) {
      forall i | 0 <= i < |b[id]| ensures Excluded(all, id, b[id][i]) { assert Excluded(b, id, b[id][i]); }
    }
    if OnlyLifecycle(a) && OnlyLifecycle(b) {
      forall id | id in all ensures forall i :: 0 <= i < |all[id]| ==> all[id][i] in LIFECYCLE_FIELDS {
        forall i | 0 <= i < |all[id]| ensures all[id][i] in LIFECYCLE_FIELDS { assert Excluded(all, id, all[id][i]); }
      }
    }
  }

  ghost predicate SeenMoving(first: Snapshot, samples: seq<Snapshot>, id: string, f: string) {
    exists k :: 0 <= k < |samples| && Excluded(Changes(first, samples[k], None), id, f)
  }

  /** Exactly what was seen moving is excluded. */
  ghost predicate Accumulated(first: Snapshot, samples: seq<Snapshot>, ex: Exclusions) {
    forall id, f :: Excluded(ex, id, f) <==> SeenMoving(first, samples, id, f)
  }

  ghost predicate AllValidate(first: Snapshot, samples: seq<Snapshot>, ex: Exclusions) {
    forall k :: 0 <= k < |samples| ==> Validates(first, samples[k], ex)
  }

  lemma AccumulatedSnoc(first: Snapshot, samples: seq<Snapshot>, last: Snapshot, fewer: Exclusions, ex: Exclusions)
    requires Accumulated(first, samples, fewer)
    requires forall id, f :: Excluded(ex, id, f) <==> Excluded(fewer, id, f) || Excluded(Changes(first, last, None), id, f)
    ensures Accumulated(first, samples + [last], ex)
  {
    var longer := samples + [last];
    assert longer[|samples|] == last;
    forall id, f ensures Excluded(ex, id, f) <==> SeenMoving(first, longer, id, f) {
      if SeenMoving(first, samples, id, f) {
        var k :| 0 <= k < |samples| && Excluded(Changes(first, samples[k], None), id, f);
        assert longer[k] == samples[k];
      }
      if SeenMoving(first, longer, id, f) {
        var k :| 0 <= k < |longer| && Excluded(Changes(first, longer[k], None), id, f);
        if k < |samples| { assert longer[k] == samples[k]; }
      }
    }
  }

  lemma AllValidateSnoc(first: Snapshot, samples: seq<Snapshot>, last: Snapshot, fewer: Exclusions, ex: Exclusions)
    requires AllValidate(first, samples, fewer) && Within(fewer, ex) && OnlyLifecycle(ex)
    requires Validates(first, last, Changes(first, last, None)) && Within(Changes(first, last, None), ex)
    ensures AllValidate(first, samples + [last], ex)
  {
    var longer := samples + [last];
    forall k | 0 <= k < |longer| ensures Validates(first, longer[k], ex) {
      LargerStillValidates(first, longer[k], if k < |samples| then fewer else Changes(first, last, None), ex);
    }
  }

  /** The accumulated exclusions validate every observation and hold exactly what was seen moving. */
  ghost predicate Justified(first: Snapshot, samples: seq<Snapshot>, ex: Exclusions) {
    OnlyLifecycle(ex) && AllValidate(first, samples, ex) && Accumulated(first, samples, ex)
  }

  lemma JustifiedSnoc(first: Snapshot, samples: seq<Snapshot>, last: Snapshot, fewer: Exclusions, ex: Exclusions)
    requires Justified(first, samples, fewer) && CollectExclusions(first, last, None).Ok?
    requires forall id, f :: Excluded(ex, id, f) <==> Excluded(fewer, id, f) || Excluded(Changes(first, last, None), id, f)
    ensures Justified(first, samples + [last], ex)
  {
    FoundValidates(first, last);
    UnionKeeps(fewer, Changes(first, last, None), ex);
    ChangesOnlyLifecycle(first, last, None);
    AllValidateSnoc(first, samples, last, fewer, ex);
    AccumulatedSnoc(first, samples, last, fewer, ex);
  }

  lemma FoundValidates(first: Snapshot, second: Snapshot)
    requires CollectExclusions(first, second, None).Ok?
    ensures CollectExclusions(first, second, None).value == Changes(first, second, None)
    ensures Validates(first, second, Changes(first, second, None))
  {
  }

}

/** The program's loops over the same inventories. */
module PreservationCode {
  import opened Wrappers
  import opened Json
  import opened Preservation

  /** Overwrite one excluded field after another in a copy. */
  method Normalize(s: Snapshot, ex: Exclusions) returns (r: Result<Snapshot, Error>)
    ensures r == if OnlyLifecycle(ex) then Ok(Normalized(s, ex)) else Err(CannotExclude)
  {
    var result := s;
    var rest := ex.Keys;
    NothingBlanked(s, ex - rest);
    while rest != {}
      invariant rest <= ex.Keys
      invariant forall id :: id in ex && id !in rest ==> forall i :: 0 <= i < |ex[id]| ==> ex[id][i] in LIFECYCLE_FIELDS
      invariant result == Normalized(s, ex - rest)
    {
      var id :| id in rest;
      var container := BlankFields(result.containers, id, ex[id]);
      if container.Err? { return Err(CannotExclude); }
      ghost var before := result;
      result := result.(containers := container.value);
      assert result == Normalized(s, ex - (rest - {id})) by { BlankOne(s, ex, rest, id, container.value); }
      rest := rest - {id};
    }
    assert ex - {} == ex;
    return Ok(result);
  }

  method BlankFields(containers: Resources, id: string, fields: seq<string>) returns (r: Result<Resources, Error>)
    ensures r == if forall i :: 0 <= i < |fields| ==> fields[i] in LIFECYCLE_FIELDS then Ok(BlankedIn(containers, id, fields))
                 else Err(CannotExclude)
  {
    var result := containers;
    var i := 0;
    BlankedNone(containers, id);
    while i < |fields|
      invariant i <= |fields| && result == BlankedIn(containers, id, fields[..i])
      invariant forall k :: 0 <= k < i ==> fields[k] in LIFECYCLE_FIELDS
    {
      if fields[i] !in LIFECYCLE_FIELDS { return Err(CannotExclude); }
      BlankedSnoc(containers, id, fields[..i], fields[i]);
      assert fields[..i + 1] == fields[..i] + [fields[i]];
      if id in result && result[id].Obj? && fields[i] in result[id].members {
        result := result[id := Obj(result[id].members[fields[i] := Null])];
      }
      i := i + 1;
    }
    assert fields[..i] == fields;
    return Ok(result);
  }

  /** `verify_with_exclusions` passes exactly on inventories that agree but for the excluded lifecycle values. */
  method VerifyWithExclusions(before: Snapshot, after: Snapshot, ex: Exclusions) returns (r: Result<(), Error>)
    ensures r == Verified(before, after, ex)
  {
    NormalizedAgrees(before, after, ex);
    var x := Normalize(before, ex);
    if x.Err? { return Err(x.error); }
    var y := Normalize(after, ex);
    return if y == x then Ok(()) else Err(Changed);
  }

  method FindExclusions(first: Snapshot, second: Snapshot, owner: Option<string>) returns (r: Result<Exclusions, Error>)
    ensures r == CollectExclusions(first, second, owner)
  {
    var ex: Exclusions := map[];
    var rest := first.containers.Keys;
    while rest != {}
      invariant rest <= first.containers.Keys
      invariant forall id :: id in ex <==> id !in rest && id in Changes(first, second, owner)
      invariant forall id :: id in ex ==> ex[id] == Changes(first, second, owner)[id]
    {
      var id :| id in rest;
      rest := rest - {id};
      if id !in second.containers { continue; }
      var a, b := first.containers[id], second.containers[id];
      if owner.Some? && (OwnedBy(a, owner.value) || OwnedBy(b, owner.value)) { continue; }
      var fields := MovedFields(a, b, LIFECYCLE_FIELDS);
      if fields != [] { ex := ex[id := fields]; }
    }
    assert ex == Changes(first, second, owner);
    if first.format == 2 || second.format == 2 {
      var run := VerifyRun(first, second, ex);
      return if run.Ok? then Ok(ex) else Err(run.error);
    } else {
      var same := VerifyWithExclusions(first, second, ex);
      return if same.Ok? then Ok(ex) else Err(same.error);
    }
  }

  lemma DropOne(after: Resources, added: set<string>, id: string)
    ensures after - (added + {id}) == (after - added) - {id}
  {
  }

  lemma AllDropped(before: Resources, after: Resources, added: set<string>)
    requires forall id :: id in added <==> id in after && id !in before
    ensures added == after.Keys - before.Keys && after - added == Retain(before, after)
  {
  }

  /** One kind of resource: drop the additions, counting them. */
  method DropAdditions(before: Resources, after: Resources) returns (r: Option<(Resources, nat)>)
    ensures r.Some? <==> AdditionsUnowned(before, after)
    ensures r.Some? ==> r.value.0 == Retain(before, after) && r.value.1 == |after.Keys - before.Keys|
  {
    var retained, count := after, 0;
    var rest := after.Keys;
    ghost var added: set<string> := {};
    while rest != {}
      invariant rest <= after.Keys && count == |added|
      invariant forall id :: id in added <==> id in after && id !in before && id !in rest
      invariant forall id :: id in added ==> IsUnowned(after, id)
      invariant retained == after - added
    {
      var id :| id in rest;
      rest := rest - {id};
      if id in before { continue; }
      if !IsUnowned(after, id) { return None; }
      DropOne(after, added, id);
      retained := retained - {id};
      added := added + {id};
      count := count + 1;
    }
    AllDropped(before, after, added);
    return Some((retained, count));
  }

  /** `verify_run`: the number of additions of each kind, or why the run is not clean. */
  method VerifyRun(before: Snapshot, after: Snapshot, ex: Exclusions) returns (r: Result<(nat, nat, nat), Error>)
    ensures match r
            case Ok(counts) => RunVerified(before, after, ex) == Ok(()) && counts == Additions(before, after)
            case Err(e) => RunVerified(before, after, ex) == Err(e)
  {
    if before.format != 2 || after.format != 2 { return Err(NotOwnershipAware); }
    var containers := DropAdditions(before.containers, after.containers);
    var networks := DropAdditions(before.networks, after.networks);
    var volumes := DropAdditions(before.volumes, after.volumes);
    if containers.None? || networks.None? || volumes.None? { return Err(MaybeOwned); }
    var retained := after.(containers := containers.value.0, networks := networks.value.0, volumes := volumes.value.0);
    var same := VerifyWithExclusions(before, retained, ex);
    r := if same.Err? then Err(same.error) else Ok((containers.value.1, networks.value.1, volumes.value.1));
  }

  /** Add the fields that are not excluded yet. */
  method Union(kept: seq<string>, fields: seq<string>) returns (all: seq<string>)
    ensures forall f :: f in all <==> f in kept || f in fields
  {
    all := kept;
    for i := 0 to |fields|
      invariant forall f :: f in all <==> f in kept || f in fields[..i]
    {
      if fields[i] !in all { all := all + [fields[i]]; }
    }
  }

  method Accumulate(excluded: Exclusions, changes: Exclusions) returns (all: Exclusions)
    ensures forall id, f :: Excluded(all, id, f) <==> Excluded(excluded, id, f) || Excluded(changes, id, f)
  {
    all := excluded;
    var rest := changes.Keys;
    while rest != {}
      invariant rest <= changes.Keys
      invariant forall id, f :: Excluded(all, id, f) <==> Excluded(excluded, id, f) || (id !in rest && Excluded(changes, id, f))
    {
      var id :| id in rest;
      var fields := Union(if id in all then all[id] else [], changes[id]);
      all := all[id := fields];
      rest := rest - {id};
    }
  }

  /** One observation: what moved is added to what is excluded. */
  method Observe(first: Snapshot, current: Snapshot, excluded: Exclusions, ghost earlier: seq<Snapshot>)
    returns (r: Result<Exclusions, Error>)
    requires Justified(first, earlier, excluded)
    ensures r.Ok? ==> Justified(first, earlier + [current], r.value)
  {
    var changes := FindExclusions(first, current, None);
    if changes.Err? { return Err(changes.error); }
    var all := Accumulate(excluded, changes.value);
    JustifiedSnoc(first, earlier, current, excluded, all);
    return Ok(all);
  }

  /**
   `baseline` over the observations it makes until a container is no longer in restart
   backoff: the accumulated exclusions validate every observation, contain exactly what was
   seen moving, and the loop stops at the first observation that awaits no restart.
  */
  method Baseline(first: Snapshot, samples: seq<Snapshot>, deadline: nat)
    returns (r: Result<(Snapshot, Exclusions), Error>, used: nat)
    ensures used <= |samples|
    ensures forall k :: 0 <= k < used - 1 ==> AwaitingRestart(first, samples[k])
    ensures r.Ok? ==>
              && used > 0 && r.value.0 == samples[used - 1] && !AwaitingRestart(first, r.value.0)
              && Justified(first, samples[..used], r.value.1)
  {
    var excluded: Exclusions := map[];
    used := 0;
    while used < |samples|
      invariant used <= |samples| && Justified(first, samples[..used], excluded)
      invariant forall k :: 0 <= k < used ==> AwaitingRestart(first, samples[k])
    {
      var current := samples[used];
      var observed := Observe(first, current, excluded, samples[..used]);
      assert samples[..used + 1] == samples[..used] + [current];
      used := used + 1;
      if observed.Err? { return Err(observed.error), used; }
      excluded := observed.value;
      if !AwaitingRestart(first, current) { return Ok((current, excluded)), used; }
      if used >= deadline { break; }
    }
    return Err(Deadline), used;
  }
}
