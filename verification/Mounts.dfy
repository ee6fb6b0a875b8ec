/** Total orders and the one sorted arrangement of a multiset. */
module Ordering {
  ghost predicate Total<T(!new)>(leq: (T, T) -> bool) {
    && (forall a, b :: leq(a, b) || leq(b, a))
    && (forall a, b, c :: leq(a, b) && leq(b, c) ==> leq(a, c))
  }

  ghost predicate Antisymmetric<T(!new)>(leq: (T, T) -> bool) {
    forall a, b :: leq(a, b) && leq(b, a) ==> a == b
  }

  predicate Sorted<T>(s: seq<T>, leq: (T, T) -> bool) {
    forall i, j :: 0 <= i < j < |s| ==> leq(s[i], s[j])
  }

  function Insert<T>(s: seq<T>, x: T, leq: (T, T) -> bool): seq<T> {
    if s == [] || leq(x, s[0]) then [x] + s else [s[0]] + Insert(s[1..], x, leq)
  }

  /** A stable sort. */
  function Sort<T>(s: seq<T>, leq: (T, T) -> bool): seq<T> {
    if s == [] then [] else Insert(Sort(s[1..], leq), s[0], leq)
  }

  lemma {:induction false} InsertSorted<T(!new)>(s: seq<T>, x: T, leq: (T, T) -> bool)
    requires Total(leq) && Sorted(s, leq)
    ensures Sorted(Insert(s, x, leq), leq) && multiset(Insert(s, x, leq)) == multiset(s) + multiset{x}
  {
    if s == [] {
    } else if leq(x, s[0]) {
      assert multiset([x] + s) == multiset{x} + multiset(s);
    } else {
      var rest := Insert(s[1..], x, leq);
      InsertSorted(s[1..], x, leq);
      assert s == [s[0]] + s[1..];
      forall j | 0 <= j < |rest| ensures leq(s[0], rest[j]) {
        assert rest[j] in multiset(rest);
        assert rest[j] in s[1..] || rest[j] == x;
      }
    }
  }

  lemma {:induction false} SortSorts<T(!new)>(s: seq<T>, leq: (T, T) -> bool)
    requires Total(leq)
    ensures Sorted(Sort(s, leq), leq) && multiset(Sort(s, leq)) == multiset(s)
  {
    if s != [] {
      SortSorts(s[1..], leq);
      InsertSorted(Sort(s[1..], leq), s[0], leq);
      assert s == [s[0]] + s[1..];
    }
  }

  lemma SortedHead<T(!new)>(a: seq<T>, b: seq<T>, leq: (T, T) -> bool)
    requires Total(leq) && Antisymmetric(leq) && Sorted(a, leq) && Sorted(b, leq)
    requires multiset(a) == multiset(b) && a != [] && b != []
    ensures a[0] == b[0]
  {
    assert a[0] in multiset(b) && b[0] in multiset(a);
    var i :| 0 <= i < |b| && b[i] == a[0];
    var j :| 0 <= j < |a| && a[j] == b[0];
    assert leq(b[0], b[0]) && leq(a[0], a[0]);
    assert leq(b[0], b[i]) && leq(a[0], a[j]);
  }

  lemma TailMultiset<T>(a: seq<T>)
    requires a != []
    ensures multiset(a[1..]) == multiset(a) - multiset{a[0]}
  {
    assert a == [a[0]] + a[1..];
  }

  /** A multiset has only one sorted arrangement. */
  lemma {:induction false} SortedUnique<T(!new)>(a: seq<T>, b: seq<T>, leq: (T, T) -> bool)
    requires Total(leq) && Antisymmetric(leq) && Sorted(a, leq) && Sorted(b, leq) && multiset(a) == multiset(b)
    ensures a == b
  {
    assert |a| == |multiset(a)| == |multiset(b)| == |b|;
    if a != [] {
      SortedHead(a, b, leq);
      TailMultiset(a);
      TailMultiset(b);
      SortedUnique(a[1..], b[1..], leq);
      assert a == [a[0]] + a[1..] && b == [b[0]] + b[1..];
    }
  }
}

/** Execution mounts: templates of a backend resolved against the links of one component. */
module Mounts {
  import opened Wrappers
  import opened Ordering

  datatype LinkKind = ChainBackend | PaymentBackend | OtherLink(tag: nat)

  datatype Binding = Chain(tag: nat) | Payment(tag: nat) | OtherBinding(tag: nat)

  datatype Link = Link(id: string, kind: LinkKind, source: string, to: string, binding: Option<Binding>)

  datatype Target = Target(component: string, backend: string, processor: bool)

  datatype Requirement = Required | AtLeastOne(group: string)

  datatype TemplateSource =
    | StatefulTemplate
    | PersistentTemplate
    | ConfigTemplate
    | LinkedTemplate(kind: LinkKind, binding: Binding, implementation: string)

  datatype Template = Template(name: string, path: string, readOnly: bool, requirement: Requirement, source: TemplateSource)

  datatype Source = StatefulData | PersistentData | ComponentConfig | LinkedData(link: string)

  datatype Mount = Mount(name: string, path: string, readOnly: bool, source: Source)

  datatype Error =
    | TargetMissing(link: string)
    | TargetMismatch(link: string)
    | BindingMissing(mount: string)
    | BindingAmbiguous(mount: string, links: seq<string>)
    | GroupMissing
    | LinkStateMissing(link: string)
    | StorageCardinality(mount: string, found: nat)

  /** What resolution looks at; `links` is already sorted there. */
  datatype Context = Context(links: seq<Link>, targets: map<string, Target>, embedded: bool)

  // ---------------------------------------------------------------- one template

  predicate Matching(link: Link, source: TemplateSource, targets: map<string, Target>)
    requires source.LinkedTemplate?
  {
    && link.kind == source.kind && link.binding == Some(source.binding)
    && link.id in targets && targets[link.id].backend == source.implementation
  }

  function Matches(links: seq<Link>, source: TemplateSource, targets: map<string, Target>): (found: seq<Link>)
    requires source.LinkedTemplate?
  {
    if links == [] then []
    else
      var last := links[|links| - 1];
      Matches(links[..|links| - 1], source, targets) + if Matching(last, source, targets) then [last] else []
  }

  predicate PaymentGroup(t: Template) {
    t.requirement == AtLeastOne("payment-backend")
  }

  predicate ThroughProcessor(ctx: Context) {
    exists i :: 0 <= i < |ctx.links| && ctx.links[i].kind.PaymentBackend?
                && ctx.links[i].id in ctx.targets && ctx.targets[ctx.links[i].id].processor
  }

  predicate Inapplicable(t: Template, ctx: Context) {
    PaymentGroup(t) && ThroughProcessor(ctx)
  }

  /** The template makes its group one that has to be filled. */
  predicate Counts(t: Template, ctx: Context) {
    t.requirement.AtLeastOne? && !Inapplicable(t, ctx) && !(ctx.embedded && PaymentGroup(t))
  }

  datatype Choice = Skip | Use(source: Source) | Fail(error: Error)

  function LinkIds(links: seq<Link>): seq<string> {
    seq(|links|, i requires 0 <= i < |links| => links[i].id)
  }

  function Pick(t: Template, ctx: Context): Choice {
    if Inapplicable(t, ctx) then Skip
    else
      match t.source
      case StatefulTemplate => Use(StatefulData)
      case PersistentTemplate => Use(PersistentData)
      case ConfigTemplate => Use(ComponentConfig)
      case LinkedTemplate(_, _, _) =>
        var found := Matches(ctx.links, t.source, ctx.targets);
        if |found| == 1 then Use(LinkedData(found[0].id))
        else if |found| > 1 then Fail(BindingAmbiguous(t.name, LinkIds(found)))
        else if t.requirement.AtLeastOne? then Skip
        else Fail(BindingMissing(t.name))
  }

  // ---------------------------------------------------------------- all templates

  function Walk(ts: seq<Template>, ctx: Context): Result<seq<Mount>, Error> {
    if ts == [] then Ok([])
    else
      var last, before := ts[|ts| - 1], Walk(ts[..|ts| - 1], ctx);
      if before.Err? then before
      else
        match Pick(last, ctx)
        case Skip => before
        case Fail(e) => Err(e)
        case Use(source) => Ok(before.value + [Mount(last.name, last.path, last.readOnly, source)])
  }

  function Active(ts: seq<Template>, ctx: Context): set<string> {
    set i | 0 <= i < |ts| && Counts(ts[i], ctx) :: ts[i].requirement.group
  }

  function Filled(ts: seq<Template>, ctx: Context): set<string> {
    set i | 0 <= i < |ts| && Counts(ts[i], ctx) && Pick(ts[i], ctx).Use? :: ts[i].requirement.group
  }

  function Resolve(ts: seq<Template>, ctx: Context): Result<seq<Mount>, Error> {
    var walked := Walk(ts, ctx);
    if walked.Err? then walked else if Active(ts, ctx) <= Filled(ts, ctx) then walked else Err(GroupMissing)
  }

  lemma GroupsSnoc(ts: seq<Template>, t: Template, ctx: Context)
    ensures Active(ts + [t], ctx) == Active(ts, ctx) + if Counts(t, ctx) then {t.requirement.group} else {}
    ensures Filled(ts + [t], ctx) == Filled(ts, ctx) + if Counts(t, ctx) && Pick(t, ctx).Use? then {t.requirement.group} else {}
  {
    var longer := ts + [t];
    assert longer[|ts|] == t;
    assert forall i :: 0 <= i < |ts| ==> longer[i] == ts[i];
  }

  /** The filter of the linked case. */
  method FindLinks(links: seq<Link>, source: TemplateSource, targets: map<string, Target>) returns (found: seq<Link>)
    requires source.LinkedTemplate?
    ensures found == Matches(links, source, targets)
  {
    found := [];
    for i := 0 to |links|
      invariant found == Matches(links[..i], source, targets)
    {
      assert links[..i + 1][..i] == links[..i];
      if Matching(links[i], source, targets) { found := found + [links[i]]; }
    }
    assert links[..|links|] == links;
  }

  method PickSource(t: Template, ctx: Context) returns (choice: Choice)
    requires !Inapplicable(t, ctx)
    ensures choice == Pick(t, ctx)
  {
    match t.source {
      case StatefulTemplate => choice := Use(StatefulData);
      case PersistentTemplate => choice := Use(PersistentData);
      case ConfigTemplate => choice := Use(ComponentConfig);
      case LinkedTemplate(_, _, _) =>
        var found := FindLinks(ctx.links, t.source, ctx.targets);
        if |found| == 0 && t.requirement.AtLeastOne? { return Skip; }
        if |found| == 1 { return Use(LinkedData(found[0].id)); }
        if |found| == 0 { return Fail(BindingMissing(t.name)); }
        return Fail(BindingAmbiguous(t.name, LinkIds(found)));
    }
  }

  /** `resolve_execution_mounts`: one pass, counting the resolved mounts of each alternative group. */
  method ResolveExecutionMounts(ts: seq<Template>, ctx: Context) returns (r: Result<seq<Mount>, Error>)
    ensures r == Resolve(ts, ctx)
  {
    var resolved: seq<Mount> := [];
    var groups: map<string, nat> := map[];
    var i := 0;
    while i < |ts|
      invariant i <= |ts| && Walk(ts[..i], ctx) == Ok(resolved)
      invariant groups.Keys == Active(ts[..i], ctx)
      invariant forall g :: g in groups ==> (groups[g] > 0 <==> g in Filled(ts[..i], ctx))
    {
      var t := ts[i];
      assert ts[..i + 1] == ts[..i] + [t] && ts[..i + 1][..i] == ts[..i];
      GroupsSnoc(ts[..i], t, ctx);
      i := i + 1;
      if Inapplicable(t, ctx) { continue; }
      if Counts(t, ctx) && t.requirement.group !in groups { groups := groups[t.requirement.group := 0]; }
      var choice := PickSource(t, ctx);
      if choice.Skip? { continue; }
      if choice.Fail? {
        WalkStops(ts, ctx, i);
        return Err(choice.error);
      }
      if Counts(t, ctx) { groups := groups[t.requirement.group := groups[t.requirement.group] + 1]; }
      resolved := resolved + [Mount(t.name, t.path, t.readOnly, choice.source)];
    }
    assert ts[..i] == ts;
    if exists g :: g in groups && groups[g] == 0 { return Err(GroupMissing); }
    return Ok(resolved);
  }

  lemma {:induction false} WalkStops(ts: seq<Template>, ctx: Context, n: nat)
    requires n <= |ts| && Walk(ts[..n], ctx).Err?
    ensures Walk(ts, ctx) == Walk(ts[..n], ctx)
    decreases |ts|
  {
    if n == |ts| {
      assert ts[..n] == ts;
    } else {
      var shorter := ts[..|ts| - 1];
      assert shorter[..n] == ts[..n];
      WalkStops(shorter, ctx, n);
    }
  }

  // ---------------------------------------------------------------- what a successful resolution means

  /** Exactly one of the links carries this binding through the named implementation. */
  ghost predicate OnlyMatch(links: seq<Link>, i: int, source: TemplateSource, targets: map<string, Target>)
    requires source.LinkedTemplate?
  {
    && 0 <= i < |links| && Matching(links[i], source, targets)
    && forall j :: 0 <= j < |links| && j != i ==> !Matching(links[j], source, targets)
  }

  lemma {:induction false} MatchesCount(links: seq<Link>, source: TemplateSource, targets: map<string, Target>)
    requires source.LinkedTemplate?
    ensures var found := Matches(links, source, targets);
            && (found == [] <==> forall i :: 0 <= i < |links| ==> !Matching(links[i], source, targets))
            && (|found| == 1 <==> exists i :: OnlyMatch(links, i, source, targets))
            && (forall i :: OnlyMatch(links, i, source, targets) ==> found == [links[i]])
  {
    if links != [] {
      var rest, n := links[..|links| - 1], |links| - 1;
      MatchesCount(rest, source, targets);
      assert forall i :: 0 <= i < n ==> rest[i] == links[i];
      if Matching(links[n], source, targets) {
        if Matches(rest, source, targets) == [] { assert OnlyMatch(links, n, source, targets); }
        forall i | OnlyMatch(links, i, source, targets) ensures i == n {}
      } else {
        forall i | 0 <= i < n ensures OnlyMatch(links, i, source, targets) <==> OnlyMatch(rest, i, source, targets) {}
        if i :| OnlyMatch(rest, i, source, targets) { assert OnlyMatch(links, i, source, targets); }
      }
    }
  }

  /** A template fails exactly when its link is not unique: more than one, or none where one is required. */
  lemma FailsIff(t: Template, ctx: Context)
    ensures Pick(t, ctx).Fail? <==>
            && !Inapplicable(t, ctx) && t.source.LinkedTemplate?
            && !(exists i :: OnlyMatch(ctx.links, i, t.source, ctx.targets))
            && (t.requirement.Required? || exists i :: 0 <= i < |ctx.links| && Matching(ctx.links[i], t.source, ctx.targets))
  {
    if t.source.LinkedTemplate? { MatchesCount(ctx.links, t.source, ctx.targets); }
  }

  /** A template is left out exactly when a processor makes it inapplicable, or it is an alternative nothing links to. */
  lemma SkippedIff(t: Template, ctx: Context)
    ensures Pick(t, ctx).Skip? <==>
            Inapplicable(t, ctx)
            || (t.source.LinkedTemplate? && t.requirement.AtLeastOne?
                && forall i :: 0 <= i < |ctx.links| ==> !Matching(ctx.links[i], t.source, ctx.targets))
  {
    if t.source.LinkedTemplate? { MatchesCount(ctx.links, t.source, ctx.targets); }
  }

  /** Positions of the templates that are used. */
  function Used(ts: seq<Template>, ctx: Context): seq<nat> {
    if ts == [] then []
    else Used(ts[..|ts| - 1], ctx) + if Pick(ts[|ts| - 1], ctx).Use? then [|ts| - 1] else []
  }

  ghost predicate MadeFrom(m: Mount, t: Template, ctx: Context) {
    && m.name == t.name && m.path == t.path && m.readOnly == t.readOnly
    && match t.source
       case StatefulTemplate => m.source == StatefulData
       case PersistentTemplate => m.source == PersistentData
       case ConfigTemplate => m.source == ComponentConfig
       case LinkedTemplate(_, _, _) =>
         exists i :: OnlyMatch(ctx.links, i, t.source, ctx.targets) && m.source == LinkedData(ctx.links[i].id)
  }

  lemma UseMakes(t: Template, ctx: Context)
    requires Pick(t, ctx).Use?
    ensures MadeFrom(Mount(t.name, t.path, t.readOnly, Pick(t, ctx).source), t, ctx)
  {
    if t.source.LinkedTemplate? {
      MatchesCount(ctx.links, t.source, ctx.targets);
      var i :| OnlyMatch(ctx.links, i, t.source, ctx.targets);
    }
  }

  /** Resolved mounts are a subsequence of the templates: increasing positions, each mount made from its template. */
  ghost predicate Subsequence(mounts: seq<Mount>, ts: seq<Template>, at: seq<nat>, ctx: Context) {
    && |at| == |mounts|
    && (forall i :: 0 <= i < |at| ==> at[i] < |ts| && MadeFrom(mounts[i], ts[at[i]], ctx))
    && (forall i, j :: 0 <= i < j < |at| ==> at[i] < at[j])
    && (forall k :: 0 <= k < |ts| ==> (k in at <==> Pick(ts[k], ctx).Use?))
  }

  lemma SubsequenceSnoc(ms: seq<Mount>, ts: seq<Template>, at: seq<nat>, t: Template, ctx: Context)
    requires Subsequence(ms, ts, at, ctx)
    ensures match Pick(t, ctx)
            case Use(source) => Subsequence(ms + [Mount(t.name, t.path, t.readOnly, source)], ts + [t], at + [|ts|], ctx)
            case _ => Subsequence(ms, ts + [t], at, ctx)
  {
    var longer := ts + [t];
    assert longer[|ts|] == t && forall k :: 0 <= k < |ts| ==> longer[k] == ts[k];
    if Pick(t, ctx).Use? { UseMakes(t, ctx); }
  }

  predicate NoneFails(ts: seq<Template>, ctx: Context) {
    forall k :: 0 <= k < |ts| ==> !Pick(ts[k], ctx).Fail?
  }

  lemma {:induction false} WalkOkIff(ts: seq<Template>, ctx: Context)
    ensures Walk(ts, ctx).Ok? <==> NoneFails(ts, ctx)
  {
    if ts != [] {
      var rest, t := ts[..|ts| - 1], ts[|ts| - 1];
      WalkOkIff(rest, ctx);
      if NoneFails(rest, ctx) {
        if !Pick(t, ctx).Fail? {
          forall k | 0 <= k < |ts| ensures !Pick(ts[k], ctx).Fail? { if k < |rest| { assert ts[k] == rest[k]; } }
        }
      } else {
        var k :| 0 <= k < |rest| && Pick(rest[k], ctx).Fail?;
        assert ts[k] == rest[k];
      }
    }
  }

  lemma {:induction false} WalkIsSubsequence(ts: seq<Template>, ctx: Context)
    requires Walk(ts, ctx).Ok?
    ensures Subsequence(Walk(ts, ctx).value, ts, Used(ts, ctx), ctx)
  {
    if ts != [] {
      var rest, t := ts[..|ts| - 1], ts[|ts| - 1];
      WalkIsSubsequence(rest, ctx);
      SubsequenceSnoc(Walk(rest, ctx).value, rest, Used(rest, ctx), t, ctx);
      assert rest + [t] == ts;
    }
  }

  /**
   Resolution succeeds if and only if no template fails and every group that has to be
   filled has a used template; the result is then the subsequence of used templates.
  */
  lemma ResolveIff(ts: seq<Template>, ctx: Context)
    ensures Resolve(ts, ctx).Ok? <==>
            && NoneFails(ts, ctx)
            && (forall k :: 0 <= k < |ts| && Counts(ts[k], ctx) ==>
                  exists j :: 0 <= j < |ts| && ts[j].requirement == ts[k].requirement && Pick(ts[j], ctx).Use?)
    ensures Resolve(ts, ctx).Ok? ==> Subsequence(Resolve(ts, ctx).value, ts, Used(ts, ctx), ctx)
  {
    WalkOkIff(ts, ctx);
    if Walk(ts, ctx).Ok? { WalkIsSubsequence(ts, ctx); }
    if Active(ts, ctx) <= Filled(ts, ctx) {
      forall k | 0 <= k < |ts| && Counts(ts[k], ctx)
        ensures exists j :: 0 <= j < |ts| && ts[j].requirement == ts[k].requirement && Pick(ts[j], ctx).Use?
      {
        assert ts[k].requirement.group in Active(ts, ctx);
        var j :| 0 <= j < |ts| && Counts(ts[j], ctx) && Pick(ts[j], ctx).Use? && ts[j].requirement.group == ts[k].requirement.group;
        assert ts[j].requirement == ts[k].requirement;
      }
    } else {
      var g :| g in Active(ts, ctx) && g !in Filled(ts, ctx);
      var k :| 0 <= k < |ts| && Counts(ts[k], ctx) && ts[k].requirement.group == g;
      forall j | 0 <= j < |ts| && ts[j].requirement == ts[k].requirement ensures Counts(ts[j], ctx) && !Pick(ts[j], ctx).Use? {
      }
    }
  }

  // ---------------------------------------------------------------- validated contracts

  predicate ValidTemplate(t: Template) {
    && (t.requirement.AtLeastOne? ==> t.requirement.group != "" && t.source.LinkedTemplate?)
    && (t.source.LinkedTemplate? ==>
          && t.source.implementation != ""
          && ((t.source.kind.ChainBackend? && t.source.binding.Chain?) || (t.source.kind.PaymentBackend? && t.source.binding.Payment?)))
  }

  predicate ValidTemplates(ts: seq<Template>) {
    && (forall i :: 0 <= i < |ts| ==> ValidTemplate(ts[i]))
    && (forall i, j :: 0 <= i < j < |ts| ==> ts[i].name != ts[j].name && ts[i].path != ts[j].path)
  }

  /** The mount part of `validate_backend_config_contract`. */
  method ValidateMounts(ts: seq<Template>) returns (ok: bool)
    ensures ok <==> ValidTemplates(ts)
  {
    var names: set<string>, paths: set<string> := {}, {};
    var i := 0;
    while i < |ts|
      invariant i <= |ts| && ValidTemplates(ts[..i])
      invariant names == set k | 0 <= k < i :: ts[k].name
      invariant paths == set k | 0 <= k < i :: ts[k].path
    {
      var t := ts[i];
      if t.name in names || t.path in paths { return false; }
      names, paths := names + {t.name}, paths + {t.path};
      if !ValidTemplate(t) { return false; }
      i := i + 1;
    }
    assert ts[..i] == ts;
    return true;
  }

  /** Under a validated contract resolved mounts have distinct names and distinct paths. */
  lemma MountsAreDistinct(ts: seq<Template>, ctx: Context)
    requires ValidTemplates(ts) && Resolve(ts, ctx).Ok?
    ensures var ms := Resolve(ts, ctx).value;
            forall i, j :: 0 <= i < j < |ms| ==> ms[i].name != ms[j].name && ms[i].path != ms[j].path
  {
    ResolveIff(ts, ctx);
    var ms, at := Resolve(ts, ctx).value, Used(ts, ctx);
    forall i, j | 0 <= i < j < |ms| ensures ms[i].name != ms[j].name && ms[i].path != ms[j].path {
      assert at[i] < at[j] && MadeFrom(ms[i], ts[at[i]], ctx) && MadeFrom(ms[j], ts[at[j]], ctx);
    }
  }

  // ---------------------------------------------------------------- credentials

  datatype LinkedState = LinkedState(component: string, contract: string, claims: seq<string>)

  datatype Credential = Credential(identity: string, component: string, contract: string, claim: string,
                                   mountName: string, path: string, readOnly: bool)

  function CredentialOf(m: Mount, states: map<string, LinkedState>): Result<Credential, Error>
    requires m.source.LinkedData?
  {
    var link := m.source.link;
    if link !in states then Err(LinkStateMissing(link))
    else if |states[link].claims| != 1 then Err(StorageCardinality(m.name, |states[link].claims|))
    else
      var state := states[link];
      Ok(Credential(m.name + ":" + link + ":" + state.component + ":" + state.claims[0],
                    state.component, state.contract, state.claims[0], m.name, m.path, m.readOnly))
  }

  function Collect(ms: seq<Mount>, states: map<string, LinkedState>): Result<seq<Credential>, Error> {
    if ms == [] then Ok([])
    else
      var last, before := ms[|ms| - 1], Collect(ms[..|ms| - 1], states);
      if before.Err? || !last.source.LinkedData? then before
      else
        match CredentialOf(last, states)
        case Err(e) => Err(e)
        case Ok(credential) => Ok(before.value + [credential])
  }

  type StringOrder = (string, string) -> bool

  function Credentials(ms: seq<Mount>, states: map<string, LinkedState>, leq: StringOrder): Result<seq<Credential>, Error> {
    match Collect(ms, states)
    case Err(e) => Err(e)
    case Ok(all) => Ok(Sort(all, ByIdentity(leq)))
  }

  /** `compile_credential_observations`. */
  method CompileCredentials(ms: seq<Mount>, states: map<string, LinkedState>, leq: StringOrder)
    returns (r: Result<seq<Credential>, Error>)
    ensures r == Credentials(ms, states, leq)
  {
    var credentials: seq<Credential> := [];
    var i := 0;
    while i < |ms|
      invariant i <= |ms| && Collect(ms[..i], states) == Ok(credentials)
    {
      var m := ms[i];
      assert ms[..i + 1][..i] == ms[..i];
      i := i + 1;
      if !m.source.LinkedData? { continue; }
      var credential := CredentialOf(m, states);
      if credential.Err? {
        CollectStops(ms, states, i);
        return Err(credential.error);
      }
      credentials := credentials + [credential.value];
    }
    assert ms[..i] == ms;
    return Ok(Sort(credentials, ByIdentity(leq)));
  }

  lemma {:induction false} CollectStops(ms: seq<Mount>, states: map<string, LinkedState>, n: nat)
    requires n <= |ms| && Collect(ms[..n], states).Err?
    ensures Collect(ms, states) == Collect(ms[..n], states)
    decreases |ms|
  {
    if n == |ms| {
      assert ms[..n] == ms;
    } else {
      assert ms[..|ms| - 1][..n] == ms[..n];
      CollectStops(ms[..|ms| - 1], states, n);
    }
  }

  ghost predicate Backs(c: Credential, m: Mount, states: map<string, LinkedState>) {
    && m.source.LinkedData? && m.source.link in states
    && states[m.source.link].claims == [c.claim]
    && c.component == states[m.source.link].component && c.contract == states[m.source.link].contract
    && c.mountName == m.name && c.path == m.path && c.readOnly == m.readOnly
  }

  function LinkedMounts(ms: seq<Mount>): seq<Mount> {
    if ms == [] then []
    else LinkedMounts(ms[..|ms| - 1]) + if ms[|ms| - 1].source.LinkedData? then [ms[|ms| - 1]] else []
  }

  predicate Claimed(m: Mount, states: map<string, LinkedState>) {
    m.source.LinkedData? ==> m.source.link in states && |states[m.source.link].claims| == 1
  }

  lemma {:induction false} CollectBacks(ms: seq<Mount>, states: map<string, LinkedState>)
    ensures Collect(ms, states).Ok? <==> forall i :: 0 <= i < |ms| ==> Claimed(ms[i], states)
    ensures Collect(ms, states).Ok? ==>
              && |Collect(ms, states).value| == |LinkedMounts(ms)|
              && forall i :: 0 <= i < |LinkedMounts(ms)| ==> Backs(Collect(ms, states).value[i], LinkedMounts(ms)[i], states)
  {
    if ms != [] {
      var rest, last := ms[..|ms| - 1], ms[|ms| - 1];
      CollectBacks(rest, states);
      if forall i :: 0 <= i < |rest| ==> Claimed(rest[i], states) {
        if Claimed(last, states) {
          forall i | 0 <= i < |ms| ensures Claimed(ms[i], states) { if i < |rest| { assert ms[i] == rest[i]; } }
        }
      } else {
        var i :| 0 <= i < |rest| && !Claimed(rest[i], states);
        assert ms[i] == rest[i];
      }
    }
  }

  function ByIdentity(leq: StringOrder): (Credential, Credential) -> bool {
    (a: Credential, b: Credential) => leq(a.identity, b.identity)
  }

  lemma ByIdentityTotal(leq: StringOrder)
    requires Total(leq)
    ensures Total(ByIdentity(leq))
  {
    var order := ByIdentity(leq);
    forall a, b ensures order(a, b) || order(b, a) {
      assert leq(a.identity, b.identity) || leq(b.identity, a.identity);
    }
    forall a, b, c | order(a, b) && order(b, c) ensures order(a, c) {
      assert leq(a.identity, b.identity) && leq(b.identity, c.identity);
    }
  }

  /**
   Each linked mount has exactly one credential, backed by its one storage claim, and there
   are no others; they come sorted by identity.
  */
  lemma OneCredentialPerLinkedMount(ms: seq<Mount>, states: map<string, LinkedState>, leq: StringOrder)
    requires Total(leq)
    ensures Credentials(ms, states, leq).Ok? <==> forall i :: 0 <= i < |ms| ==> Claimed(ms[i], states)
    ensures Credentials(ms, states, leq).Ok? ==>
              var found, inOrder := Credentials(ms, states, leq).value, Collect(ms, states).value;
              && multiset(found) == multiset(inOrder) && |inOrder| == |LinkedMounts(ms)|
              && (forall i :: 0 <= i < |LinkedMounts(ms)| ==> Backs(inOrder[i], LinkedMounts(ms)[i], states))
              && (forall i, j :: 0 <= i < j < |found| ==> leq(found[i].identity, found[j].identity))
  {
    CollectBacks(ms, states);
    if Collect(ms, states).Ok? {
      ByIdentityTotal(leq);
      SortSorts(Collect(ms, states).value, ByIdentity(leq));
      var found := Credentials(ms, states, leq).value;
      forall i, j | 0 <= i < j < |found| ensures leq(found[i].identity, found[j].identity) {
        assert ByIdentity(leq)(found[i], found[j]);
      }
    }
  }

  // ---------------------------------------------------------------- compilation

  datatype Plan = Plan(links: seq<Link>, mounts: seq<Mount>, credentials: seq<Credential>)

  datatype Input = Input(component: string, links: seq<Link>, targets: map<string, Target>, states: map<string, LinkedState>,
                         embedded: bool)

  function CheckTargets(links: seq<Link>, targets: map<string, Target>): Result<(), Error> {
    if links == [] then Ok(())
    else if links[0].id !in targets then Err(TargetMissing(links[0].id))
    else if targets[links[0].id].component != links[0].to then Err(TargetMismatch(links[0].id))
    else CheckTargets(links[1..], targets)
  }

  /** The link-dependent part of `compile_contract`. */
  function Compile(ts: seq<Template>, input: Input, linkOrder: (Link, Link) -> bool, leq: StringOrder): Result<Plan, Error> {
    var links := Sort(input.links, linkOrder);
    var checked := CheckTargets(links, input.targets);
    if checked.Err? then Err(checked.error)
    else
      var mounts := Resolve(ts, Context(links, input.targets, input.embedded));
      if mounts.Err? then Err(mounts.error)
      else
        var credentials := Credentials(mounts.value, input.states, leq);
        if credentials.Err? then Err(credentials.error) else Ok(Plan(links, mounts.value, credentials.value))
  }

  /** Listing the links in another order changes nothing: not the plan, and not the error. */
  lemma CompileIgnoresLinkOrder(ts: seq<Template>, input: Input, links: seq<Link>,
                                linkOrder: (Link, Link) -> bool, leq: StringOrder)
    requires Total(linkOrder) && Antisymmetric(linkOrder) && multiset(links) == multiset(input.links)
    ensures Compile(ts, input.(links := links), linkOrder, leq) == Compile(ts, input, linkOrder, leq)
  {
    SortSorts(links, linkOrder);
    SortSorts(input.links, linkOrder);
    SortedUnique(Sort(links, linkOrder), Sort(input.links, linkOrder), linkOrder);
  }

  method CompileContract(ts: seq<Template>, input: Input, linkOrder: (Link, Link) -> bool, leq: StringOrder)
    returns (r: Result<Plan, Error>)
    ensures r == Compile(ts, input, linkOrder, leq)
  {
    var links := Sort(input.links, linkOrder);
    var i := 0;
    while i < |links|
      invariant i <= |links| && CheckTargets(links, input.targets) == CheckTargets(links[i..], input.targets)
    {
      if links[i].id !in input.targets { return Err(TargetMissing(links[i].id)); }
      if input.targets[links[i].id].component != links[i].to { return Err(TargetMismatch(links[i].id)); }
      i := i + 1;
    }
    var mounts := ResolveExecutionMounts(ts, Context(links, input.targets, input.embedded));
    if mounts.Err? { return Err(mounts.error); }
    var credentials := CompileCredentials(mounts.value, input.states, leq);
    if credentials.Err? { return Err(credentials.error); }
    return Ok(Plan(links, mounts.value, credentials.value));
  }
}
