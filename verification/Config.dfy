/** JSON values, with the two notions of equality in play. */
module Json {
  /** A number is an integer literal (i64 or u64) or a double. */
  datatype Json =
    | Null
    | Bool(b: bool)
    | Int(n: int)
    | Float(r: real)
    | Str(s: string)
    | Arr(items: seq<Json>)
    | Obj(members: map<string, Json>)

  predicate IsNumber(v: Json) {
    v.Int? || v.Float?
  }

  function Number(v: Json): real
    requires IsNumber(v)
  {
    if v.Int? then v.n as real else v.r
  }

  /** Equality of JSON Schema: numbers compare by mathematical value, at every depth. */
  predicate Same(a: Json, b: Json) {
    match (a, b)
    case (Arr(xs), Arr(ys)) => |xs| == |ys| && forall i :: 0 <= i < |xs| ==> Same(xs[i], ys[i])
    case (Obj(p), Obj(q)) => p.Keys == q.Keys && forall k :: k in p ==> Same(p[k], q[k])
    case _ => if IsNumber(a) && IsNumber(b) then Number(a) == Number(b) else a == b
  }

  predicate Integral(r: real) {
    r.Floor as real == r
  }

  /** No integer is written as a double, such as 1.0, at any depth. */
  predicate Plain(v: Json) {
    match v
    case Float(r) => !Integral(r)
    case Arr(items) => forall i :: 0 <= i < |items| ==> Plain(items[i])
    case Obj(members) => forall k :: k in members ==> Plain(members[k])
    case _ => true
  }

  /** Between plain values the schema's equality and the program's structural one coincide. */
  lemma {:induction false} PlainSame(a: Json, b: Json)
    requires Plain(a) && Plain(b)
    ensures Same(a, b) <==> a == b
    decreases a
  {
    if a.Arr? && b.Arr? && |a.items| == |b.items| {
      var xs, ys := a.items, b.items;
      forall i | 0 <= i < |xs| ensures Same(xs[i], ys[i]) <==> xs[i] == ys[i] { PlainSame(xs[i], ys[i]); }
      assert (forall i :: 0 <= i < |xs| ==> xs[i] == ys[i]) <==> xs == ys;
    } else if a.Obj? && b.Obj? && a.members.Keys == b.members.Keys {
      var p, q := a.members, b.members;
      forall k | k in p ensures Same(p[k], q[k]) <==> p[k] == q[k] { PlainSame(p[k], q[k]); }
      assert (forall k :: k in p ==> p[k] == q[k]) <==> p == q;
    } else if a.Int? {
      assert Integral(a.n as real);
    } else if b.Int? {
      assert Integral(b.n as real);
    }
  }

  predicate Contains(values: seq<Json>, v: Json) {
    exists i :: 0 <= i < |values| && Same(values[i], v)
  }

  lemma {:induction false} SameSelf(a: Json)
    ensures Same(a, a)
    decreases a
  {
    if a.Arr? {
      forall i | 0 <= i < |a.items| ensures Same(a.items[i], a.items[i]) { SameSelf(a.items[i]); }
    } else if a.Obj? {
      forall k | k in a.members ensures Same(a.members[k], a.members[k]) { SameSelf(a.members[k]); }
    }
  }

  lemma MemberContained(values: seq<Json>, v: Json)
    ensures v in values ==> Contains(values, v)
    ensures v.Str? && Contains(values, v) ==> v in values
  {
    SameSelf(v);
    if v in values {
      var i :| 0 <= i < |values| && values[i] == v;
      assert Same(values[i], v);
    }
  }

  predicate AllPlain(values: seq<Json>) {
    forall i :: 0 <= i < |values| ==> Plain(values[i])
  }

  lemma PlainContains(values: seq<Json>, v: Json)
    requires AllPlain(values) && Plain(v)
    ensures Contains(values, v) <==> v in values
  {
    forall i | 0 <= i < |values| ensures Same(values[i], v) <==> values[i] == v { PlainSame(values[i], v); }
  }
}

/** The assertion keywords of JSON Schema Validation 2020-12, section 6, and the applicators the compiler emits. */
module JsonSchema {
  import opened Json

  datatype JsonType = BooleanType | NumberType | IntegerType | StringType | ArrayType | ObjectType

  datatype Schema = Schema(keywords: seq<Keyword>)

  datatype Keyword =
    | Type(kind: JsonType)
    | Enum(values: seq<Json>)
    | Const(value: Json)
    | Minimum(least: real)
    | Maximum(most: real)
    | MinLength(short: nat)
    | MaxLength(long: nat)
    | MinItems(few: nat)
    | UniqueItems
    | Items(each: Schema)
    | Properties(properties: map<string, Schema>, additional: bool)
    | Required(names: set<string>)
    | AllOf(all: seq<Schema>)
    | Not(negated: Schema)
    | IfThen(premise: Schema, conclusion: Schema)
    | Annotation(name: string)

  predicate HasType(v: Json, kind: JsonType) {
    match kind
    case BooleanType => v.Bool?
    case NumberType => IsNumber(v)
    case IntegerType => v.Int? || (v.Float? && Integral(v.r))
    case StringType => v.Str?
    case ArrayType => v.Arr?
    case ObjectType => v.Obj?
  }

  predicate Satisfies(v: Json, s: Schema) {
    forall i :: 0 <= i < |s.keywords| ==> Holds(v, s.keywords[i])
  }

  /** A keyword about one type of value says nothing about the others. */
  predicate Holds(v: Json, k: Keyword) {
    match k
    case Type(kind) => HasType(v, kind)
    case Enum(values) => Contains(values, v)
    case Const(value) => Same(value, v)
    case Minimum(least) => IsNumber(v) ==> Number(v) >= least
    case Maximum(most) => IsNumber(v) ==> Number(v) <= most
    case MinLength(short) => v.Str? ==> |v.s| >= short
    case MaxLength(long) => v.Str? ==> |v.s| <= long
    case MinItems(few) => v.Arr? ==> |v.items| >= few
    case UniqueItems => v.Arr? ==> forall i, j :: 0 <= i < j < |v.items| ==> !Same(v.items[i], v.items[j])
    case Items(each) => v.Arr? ==> forall i :: 0 <= i < |v.items| ==> Satisfies(v.items[i], each)
    case Properties(properties, additional) =>
      v.Obj? ==> forall n :: n in v.members ==>
                   if n in properties then Satisfies(v.members[n], properties[n]) else additional
    case Required(names) => v.Obj? ==> names <= v.members.Keys
    case AllOf(all) => forall i :: 0 <= i < |all| ==> Satisfies(v, all[i])
    case Not(negated) => !Satisfies(v, negated)
    case IfThen(premise, conclusion) => Satisfies(v, premise) ==> Satisfies(v, conclusion)
    case Annotation(_) => true
  }

  lemma SatisfiesJoin(v: Json, a: seq<Keyword>, b: seq<Keyword>)
    ensures Satisfies(v, Schema(a + b)) <==> Satisfies(v, Schema(a)) && Satisfies(v, Schema(b))
  {
    if Satisfies(v, Schema(a + b)) {
      forall i | 0 <= i < |a| ensures Holds(v, a[i]) { assert (a + b)[i] == a[i]; }
      forall i | 0 <= i < |b| ensures Holds(v, b[i]) { assert (a + b)[|a| + i] == b[i]; }
    }
  }

  lemma SatisfiesFour(v: Json, a: Keyword, b: Keyword, c: Keyword, d: Keyword)
    ensures Satisfies(v, Schema([a, b, c, d])) <==> Holds(v, a) && Holds(v, b) && Holds(v, c) && Holds(v, d)
  {
    var ks := [a, b, c, d];
    assert ks[0] == a && ks[1] == b && ks[2] == c && ks[3] == d;
  }

  lemma SatisfiesOne(v: Json, k: Keyword)
    ensures Satisfies(v, Schema([k])) <==> Holds(v, k)
  {
    assert [k][0] == k;
  }
}

/** One declarative contract per backend: its schema, its validator and its default resolution. */
module Config {
  import opened Wrappers
  import opened Lexicographic
  import opened Json
  import opened JsonSchema

  datatype ValueKind = BooleanKind | NumberKind | IntegerKind | StringKind | StringSetKind | ObjectKind

  datatype Class = AgentAuthorable | TopologyDerived | GeneratedInstanceSecret | ImportedSecretReference | RuntimePolicy

  datatype Default = Literal(value: Json) | ComponentId

  datatype Field = Field(kind: ValueKind, origin: Class, default: Option<Default>, enumValues: seq<Json>,
                         minimum: Option<real>, maximum: Option<real>, minLength: Option<nat>, maxLength: Option<nat>,
                         required: bool)

  /** `fields` of an exclusion is a set, listed in its iteration order. */
  datatype Rule =
    | MutuallyExclusive(fields: seq<string>)
    | RequiredWhen(field: string, equals: Json, requiredField: string)
    | LessThanOrEqual(minimumField: string, maximumField: string)

  datatype Contract = Contract(id: string, kind: nat, fields: map<string, Field>, rules: seq<Rule>)

  type Values = map<string, Json>

  datatype Component = Component(id: string, kind: nat, implementation: string, config: Values)

  datatype Code =
    | RegistryMissing | KindMismatch
    | UnknownField | ManagedField | WrongType | StringSetViolation | EnumViolation | NumericBound | StringLength
    | ImageDigestRequired | DiscoveryUrlInvalid | RequiredMissing | RulesViolated

  /** How an integer literal is converted to a double. */
  type Rounding = int -> real

  predicate Authorable(o: Class) {
    o.AgentAuthorable? || o.ImportedSecretReference?
  }

  function JsonTypeOf(kind: ValueKind): JsonType {
    match kind
    case BooleanKind => BooleanType
    case NumberKind => NumberType
    case IntegerKind => IntegerType
    case StringKind => StringType
    case StringSetKind => ArrayType
    case ObjectKind => ObjectType
  }

  // ---------------------------------------------------------------- the schema compiler

  function EnumKeyword(values: seq<Json>): seq<Keyword> {
    if values == [] then [] else [Enum(values)]
  }

  function SetKeywords(field: Field): seq<Keyword> {
    if field.kind.StringSetKind?
    then [Items(Schema([Type(StringType)] + EnumKeyword(field.enumValues))), UniqueItems, MinItems(1)]
    else EnumKeyword(field.enumValues)
  }

  function BoundKeywords(field: Field): seq<Keyword> {
    (if field.minimum.Some? then [Minimum(field.minimum.value)] else [])
    + (if field.maximum.Some? then [Maximum(field.maximum.value)] else [])
  }

  function LengthKeywords(field: Field): seq<Keyword> {
    (if field.minLength.Some? then [MinLength(field.minLength.value)] else [])
    + (if field.maxLength.Some? then [MaxLength(field.maxLength.value)] else [])
  }

  function FieldSchema(field: Field): Schema {
    Schema([Type(JsonTypeOf(field.kind))] + SetKeywords(field) + BoundKeywords(field) + LengthKeywords(field)
           + [Annotation("description"), Annotation("x-proofstorm-classification"), Annotation("default")])
  }

  function Pairs(fields: seq<string>): seq<Schema> {
    if fields == [] then []
    else
      seq(|fields| - 1, (j: nat) requires j < |fields| - 1 => Schema([Not(Schema([Required({fields[0], fields[j + 1]})]))]))
      + Pairs(fields[1..])
  }

  function RuleSchema(rule: Rule): seq<Schema> {
    match rule
    case MutuallyExclusive(fields) => Pairs(fields)
    case RequiredWhen(field, equals, requiredField) =>
      [Schema([IfThen(Schema([Properties(map[field := Schema([Const(equals)])], true), Required({field})]),
                      Schema([Required({requiredField})]))])]
    case LessThanOrEqual(_, _) => []
  }

  function RuleSchemas(rules: seq<Rule>): seq<Schema> {
    if rules == [] then [] else RuleSchema(rules[0]) + RuleSchemas(rules[1..])
  }

  predicate Offered(c: Contract, name: string) {
    name in c.fields && Authorable(c.fields[name].origin)
  }

  function MustAuthor(c: Contract): set<string> {
    set n | n in c.fields && Authorable(c.fields[n].origin) && c.fields[n].required && c.fields[n].default.None?
  }

  function OfferedFields(c: Contract): map<string, Schema> {
    map n | n in c.fields && Authorable(c.fields[n].origin) :: FieldSchema(c.fields[n])
  }

  function ConfigSchema(c: Contract): Schema {
    Schema([Type(ObjectType), Properties(OfferedFields(c), false), Required(MustAuthor(c)), Annotation("x-proofstorm-rules")]
           + if RuleSchemas(c.rules) == [] then [] else [AllOf(RuleSchemas(c.rules))])
  }

  // ---------------------------------------------------------------- the validator

  predicate TypeMatches(v: Json, kind: ValueKind) {
    match kind
    case BooleanKind => v.Bool?
    case NumberKind => IsNumber(v)
    case IntegerKind => v.Int?
    case StringKind => v.Str?
    case StringSetKind => v.Arr? && forall i :: 0 <= i < |v.items| ==> v.items[i].Str?
    case ObjectKind => v.Obj?
  }

  function AsF64(v: Json, f: Rounding): real
    requires IsNumber(v)
  {
    if v.Int? then f(v.n) else v.r
  }

  function Texts(items: seq<Json>): set<string> {
    set i | 0 <= i < |items| && items[i].Str? :: items[i].s
  }

  /** `validate_config_value`. */
  function CheckValue(v: Json, field: Field, f: Rounding): Result<(), Code> {
    if !TypeMatches(v, field.kind) then Err(WrongType)
    else if v.Arr? then
      if v.items == [] || |Texts(v.items)| != |v.items| then Err(StringSetViolation)
      else if field.enumValues != [] && exists i :: 0 <= i < |v.items| && v.items[i] !in field.enumValues then Err(EnumViolation)
      else Ok(())
    else if field.enumValues != [] && v !in field.enumValues then Err(EnumViolation)
    else if && IsNumber(v)
            && ((field.minimum.Some? && AsF64(v, f) < field.minimum.value)
                || (field.maximum.Some? && AsF64(v, f) > field.maximum.value)) then Err(NumericBound)
    else if && v.Str?
            && ((field.minLength.Some? && |v.s| < field.minLength.value)
                || (field.maxLength.Some? && |v.s| > field.maxLength.value)) then Err(StringLength)
    else Ok(())
  }

  function Present(fields: seq<string>, config: Values): seq<string> {
    if fields == [] then []
    else (if fields[0] in config then [fields[0]] else []) + Present(fields[1..], config)
  }

  predicate IsU64(config: Values, name: string) {
    name in config && config[name].Int? && 0 <= config[name].n < 0x1_0000_0000_0000_0000
  }

  predicate RuleHolds(rule: Rule, config: Values) {
    match rule
    case MutuallyExclusive(fields) => |Present(fields, config)| <= 1
    case RequiredWhen(field, equals, requiredField) =>
      field in config && config[field] == equals ==> requiredField in config
    case LessThanOrEqual(low, high) =>
      IsU64(config, low) && IsU64(config, high) ==> config[low].n <= config[high].n
  }

  predicate StartsWith(s: string, prefix: string) {
    prefix <= s
  }

  predicate EndsWith(s: string, suffix: string) {
    |suffix| <= |s| && s[|s| - |suffix|..] == suffix
  }

  /** `runtime_image` of the built-in workspace backend; `isImage` is the image-reference grammar. */
  predicate ImagePinned(c: Contract, config: Values, isImage: string -> bool) {
    c.id == "workspace" && "runtime_image" in config && config["runtime_image"].Str? ==>
      config["runtime_image"].s == "" || isImage(config["runtime_image"].s)
  }

  predicate DiscoveryUrlOk(c: Contract, config: Values) {
    c.id == "nutshell" && "oidc_discovery_url" in config && config["oidc_discovery_url"].Str? ==>
      var url := config["oidc_discovery_url"].s;
      url == "" || ((StartsWith(url, "http://") || StartsWith(url, "https://")) && EndsWith(url, "/.well-known/openid-configuration"))
  }

  /** What surrounds a contract: number conversion and the image-reference grammar. */
  datatype Env = Env(f: Rounding, isImage: string -> bool)

  predicate ValuesOk(c: Contract, config: Values, env: Env) {
    forall n :: n in config ==> Offered(c, n) && CheckValue(config[n], c.fields[n], env.f).Ok?
  }

  predicate HardChecks(c: Contract, config: Values, env: Env) {
    ImagePinned(c, config, env.isImage) && DiscoveryUrlOk(c, config)
  }

  predicate RequiredPresent(c: Contract, config: Values) {
    forall n :: n in c.fields && Authorable(c.fields[n].origin) && c.fields[n].required ==> n in config
  }

  predicate RulesHold(rules: seq<Rule>, config: Values) {
    forall i :: 0 <= i < |rules| ==> RuleHolds(rules[i], config)
  }

  /** What `validate_config` accepts. */
  predicate Valid(c: Contract, config: Values, effective: bool, env: Env) {
    && ValuesOk(c, config, env) && HardChecks(c, config, env)
    && (effective ==> RequiredPresent(c, config)) && RulesHold(c.rules, config)
  }

  function DefaultValue(d: Default, id: string): Json {
    match d
    case Literal(value) => value
    case ComponentId => Str(id)
  }

  predicate Defaulted(c: Contract, config: Values, name: string) {
    Offered(c, name) && c.fields[name].default.Some? && name !in config
  }

  function Effective(c: Contract, component: Component): Values {
    component.config
    + map n | n in c.fields && Defaulted(c, component.config, n) :: DefaultValue(c.fields[n].default.value, component.id)
  }

  predicate Accepts(c: Contract, component: Component, env: Env) {
    && c.kind == component.kind
    && Valid(c, component.config, false, env)
    && Valid(c, Effective(c, component), true, env)
  }

  // ---------------------------------------------------------------- schema and validator agree

  /** The validator converts an integer beyond a bound to exactly the bound. */
  predicate RoundedOnto(v: Json, field: Field, f: Rounding) {
    && v.Int?
    && ((field.minimum.Some? && v.n as real < field.minimum.value && f(v.n) >= field.minimum.value)
        || (field.maximum.Some? && v.n as real > field.maximum.value && f(v.n) <= field.maximum.value))
  }

  /** Rounding to nearest never moves an integer across a double, and the bounds are doubles. */
  ghost predicate Faithful(f: Rounding, field: Field) {
    && (field.minimum.Some? ==> forall n: int :: n as real >= field.minimum.value ==> f(n) >= field.minimum.value)
    && (field.maximum.Some? ==> forall n: int :: n as real <= field.maximum.value ==> f(n) <= field.maximum.value)
  }

  predicate Distinct(items: seq<Json>) {
    forall i, j :: 0 <= i < j < |items| ==> items[i] != items[j]
  }

  predicate AllStrings(items: seq<Json>) {
    forall i :: 0 <= i < |items| ==> items[i].Str?
  }

  lemma DistinctSnoc(items: seq<Json>, last: Json)
    ensures Distinct(items + [last]) <==> Distinct(items) && last !in items
  {
    var longer := items + [last];
    assert longer[|items|] == last && forall i :: 0 <= i < |items| ==> longer[i] == items[i];
  }

  lemma TextsSnoc(items: seq<Json>, last: Json)
    requires AllStrings(items) && last.Str?
    ensures Texts(items + [last]) == Texts(items) + {last.s} && (last.s in Texts(items) <==> last in items)
  {
    var longer := items + [last];
    assert longer[|items|] == last && forall i :: 0 <= i < |items| ==> longer[i] == items[i];
    if last.s in Texts(items) {
      var i :| 0 <= i < |items| && items[i].s == last.s;
      assert items[i] == last;
    }
  }

  lemma {:induction false} DistinctCount(items: seq<Json>)
    requires AllStrings(items)
    ensures |Texts(items)| <= |items| && (|Texts(items)| == |items| <==> Distinct(items))
  {
    if items != [] {
      var last, rest := items[|items| - 1], items[..|items| - 1];
      assert items == rest + [last];
      DistinctCount(rest);
      DistinctSnoc(rest, last);
      TextsSnoc(rest, last);
      if last.s in Texts(rest) { assert Texts(items) == Texts(rest); }
    }
  }

  /** The keyword groups, one at a time, against the validator's checks. */
  lemma BoundsAgree(v: Json, field: Field, f: Rounding)
    requires Faithful(f, field) && IsNumber(v)
    ensures Satisfies(v, Schema(BoundKeywords(field)))
       <==> && !((field.minimum.Some? && AsF64(v, f) < field.minimum.value) || (field.maximum.Some? && AsF64(v, f) > field.maximum.value))
            && !RoundedOnto(v, field, f)
  {
    var low := if field.minimum.Some? then [Minimum(field.minimum.value)] else [];
    var high := if field.maximum.Some? then [Maximum(field.maximum.value)] else [];
    SatisfiesJoin(v, low, high);
    if field.minimum.Some? { SatisfiesOne(v, low[0]); }
    if field.maximum.Some? { SatisfiesOne(v, high[0]); }
  }

  lemma LengthsAgree(v: Json, field: Field)
    ensures Satisfies(v, Schema(LengthKeywords(field)))
       <==> !(v.Str? && ((field.minLength.Some? && |v.s| < field.minLength.value)
                         || (field.maxLength.Some? && |v.s| > field.maxLength.value)))
  {
    var low := if field.minLength.Some? then [MinLength(field.minLength.value)] else [];
    var high := if field.maxLength.Some? then [MaxLength(field.maxLength.value)] else [];
    SatisfiesJoin(v, low, high);
    if field.minLength.Some? { SatisfiesOne(v, low[0]); }
    if field.maxLength.Some? { SatisfiesOne(v, high[0]); }
  }

  lemma NotNumberBounds(v: Json, field: Field)
    requires !IsNumber(v)
    ensures Satisfies(v, Schema(BoundKeywords(field)))
  {
  }

  lemma EnumAsks(v: Json, values: seq<Json>)
    ensures Satisfies(v, Schema(EnumKeyword(values))) <==> values == [] || Contains(values, v)
  {
    if values != [] { SatisfiesOne(v, Enum(values)); }
  }

  lemma StringSetAgrees(v: Json, field: Field, f: Rounding)
    requires field.kind.StringSetKind? && v.Arr?
    ensures Satisfies(v, Schema(SetKeywords(field))) <==> CheckValue(v, field, f).Ok?
  {
    var member := [Type(StringType)] + EnumKeyword(field.enumValues);
    forall i | 0 <= i < |v.items|
      ensures Satisfies(v.items[i], Schema(member))
         <==> v.items[i].Str? && (field.enumValues == [] || v.items[i] in field.enumValues)
    {
      SatisfiesJoin(v.items[i], [Type(StringType)], EnumKeyword(field.enumValues));
      SatisfiesOne(v.items[i], Type(StringType));
      EnumAsks(v.items[i], field.enumValues);
      MemberContained(field.enumValues, v.items[i]);
    }
    if AllStrings(v.items) {
      assert forall i, j :: 0 <= i < j < |v.items| ==> (Same(v.items[i], v.items[j]) <==> v.items[i] == v.items[j]);
      DistinctCount(v.items);
    }
    var ks := SetKeywords(field);
    assert Satisfies(v, Schema(ks)) <==> Holds(v, ks[0]) && Holds(v, ks[1]) && Holds(v, ks[2]);
  }

  lemma FieldSchemaParts(v: Json, field: Field)
    ensures Satisfies(v, FieldSchema(field))
       <==> && HasType(v, JsonTypeOf(field.kind)) && Satisfies(v, Schema(SetKeywords(field)))
            && Satisfies(v, Schema(BoundKeywords(field))) && Satisfies(v, Schema(LengthKeywords(field)))
  {
    var notes := [Annotation("description"), Annotation("x-proofstorm-classification"), Annotation("default")];
    var typed := [Type(JsonTypeOf(field.kind))];
    SatisfiesJoin(v, typed, SetKeywords(field));
    SatisfiesJoin(v, typed + SetKeywords(field), BoundKeywords(field));
    SatisfiesJoin(v, typed + SetKeywords(field) + BoundKeywords(field), LengthKeywords(field));
    SatisfiesJoin(v, typed + SetKeywords(field) + BoundKeywords(field) + LengthKeywords(field), notes);
    SatisfiesOne(v, typed[0]);
    assert Satisfies(v, Schema(notes));
  }

  predicate InBounds(v: Json, field: Field)
    requires IsNumber(v)
  {
    && (field.minimum.Some? ==> Number(v) >= field.minimum.value)
    && (field.maximum.Some? ==> Number(v) <= field.maximum.value)
  }

  /**
   What the schema lets through and the validator does not: an integral double in an integer
   field, or a member of the enumeration written differently, in either case within the bounds.
  */
  predicate Lenient(v: Json, field: Field) {
    && HasType(v, JsonTypeOf(field.kind)) && !field.kind.StringSetKind?
    && ((field.kind.IntegerKind? && v.Float?) || (field.enumValues != [] && v !in field.enumValues))
    && (field.enumValues == [] || Contains(field.enumValues, v))
    && (IsNumber(v) ==> InBounds(v, field))
  }

  /**
   For every field contract and every value: the emitted schema accepts it if and only if
   the validator does without rounding it onto a bound, or the schema is lenient about it.
  */
  lemma FieldSchemaAgrees(v: Json, field: Field, f: Rounding)
    requires Faithful(f, field)
    ensures Satisfies(v, FieldSchema(field)) <==> (CheckValue(v, field, f).Ok? && !RoundedOnto(v, field, f)) || Lenient(v, field)
    ensures Lenient(v, field) ==> CheckValue(v, field, f).Err?
  {
    FieldSchemaParts(v, field);
    LengthsAgree(v, field);
    if IsNumber(v) { BoundsAgree(v, field, f); BoundsAsk(v, field); } else { NotNumberBounds(v, field); }
    if field.kind.StringSetKind? {
      if v.Arr? { StringSetAgrees(v, field, f); }
    } else {
      EnumAsks(v, field.enumValues);
      MemberContained(field.enumValues, v);
    }
  }

  lemma BoundsAsk(v: Json, field: Field)
    requires IsNumber(v)
    ensures Satisfies(v, Schema(BoundKeywords(field))) <==> InBounds(v, field)
  {
    var low := if field.minimum.Some? then [Minimum(field.minimum.value)] else [];
    var high := if field.maximum.Some? then [Maximum(field.maximum.value)] else [];
    SatisfiesJoin(v, low, high);
    if field.minimum.Some? { SatisfiesOne(v, low[0]); }
    if field.maximum.Some? { SatisfiesOne(v, high[0]); }
  }

  /** In particular a value that is accepted and not rounded always satisfies the schema, whatever its numbers look like. */
  lemma AcceptedSatisfiesSchema(v: Json, field: Field, f: Rounding)
    requires Faithful(f, field) && CheckValue(v, field, f).Ok?
    ensures Satisfies(v, FieldSchema(field)) <==> !RoundedOnto(v, field, f)
  {
    FieldSchemaAgrees(v, field, f);
  }

  /** Number fields without an enumeration agree on every value, 1.0 included. */
  lemma NumberFieldsAgree(v: Json, field: Field, f: Rounding)
    requires Faithful(f, field) && field.kind.NumberKind? && field.enumValues == []
    ensures Satisfies(v, FieldSchema(field)) <==> CheckValue(v, field, f).Ok? && !RoundedOnto(v, field, f)
  {
    FieldSchemaAgrees(v, field, f);
  }

  /** Where no integer is written as a double the schema is never lenient. */
  lemma PlainIsNotLenient(v: Json, field: Field)
    requires Plain(v) && AllPlain(field.enumValues)
    ensures !Lenient(v, field)
  {
    PlainContains(field.enumValues, v);
  }

  /** 1.0 satisfies the schema of an integer field, but the validator calls it the wrong type. */
  lemma IntegralFloatsDisagree(field: Field, f: Rounding)
    requires field == Field(IntegerKind, AgentAuthorable, None, [], None, None, None, None, false)
    ensures Satisfies(Float(1.0), FieldSchema(field)) && CheckValue(Float(1.0), field, f) == Err(WrongType)
  {
    FieldSchemaParts(Float(1.0), field);
    assert Integral(1.0);
    assert Satisfies(Float(1.0), Schema(SetKeywords(field)));
  }

  /** A conversion that is exact up to 2^53 rounds only larger integers onto a bound. */
  lemma OnlyLargeIntegersAreRounded(v: Json, field: Field, f: Rounding)
    requires forall n :: -9007199254740992 <= n <= 9007199254740992 ==> f(n) == n as real
    ensures RoundedOnto(v, field, f) ==> v.n < -9007199254740992 || v.n > 9007199254740992
  {
  }

  /** 2^53 + 1 breaks a maximum of 2^53 by the schema; converted to a double it is 2^53, and the validator takes it. */
  lemma RoundedIntegersDisagree(field: Field, f: Rounding)
    requires field == Field(IntegerKind, AgentAuthorable, None, [], None, Some(9007199254740992.0), None, None, false)
    requires f(9007199254740993) == 9007199254740992.0
    ensures CheckValue(Int(9007199254740993), field, f).Ok? && !Satisfies(Int(9007199254740993), FieldSchema(field))
  {
    FieldSchemaParts(Int(9007199254740993), field);
    var ks := BoundKeywords(field);
    assert ks[0] == Maximum(9007199254740992.0);
    assert !Holds(Int(9007199254740993), ks[0]);
  }

  // ---------------------------------------------------------------- rules

  lemma {:induction false} PresentIndex(fields: seq<string>, config: Values)
    ensures Present(fields, config) == [] <==> forall i :: 0 <= i < |fields| ==> fields[i] !in config
  {
    if fields != [] {
      PresentIndex(fields[1..], config);
      assert forall i :: 0 <= i < |fields| - 1 ==> fields[1..][i] == fields[i + 1];
      if forall i :: 0 <= i < |fields| ==> fields[i] !in config { assert fields[0] !in config; }
      if fields[0] !in config && forall i :: 0 <= i < |fields| - 1 ==> fields[1..][i] !in config {
        forall i | 0 <= i < |fields| ensures fields[i] !in config {
          if i > 0 { assert fields[i] == fields[1..][i - 1]; }
        }
      }
    }
  }

  predicate All(v: Json, schemas: seq<Schema>) {
    forall i :: 0 <= i < |schemas| ==> Satisfies(v, schemas[i])
  }

  lemma AllJoin(v: Json, a: seq<Schema>, b: seq<Schema>)
    ensures All(v, a + b) <==> All(v, a) && All(v, b)
  {
    if All(v, a + b) {
      forall i | 0 <= i < |a| ensures Satisfies(v, a[i]) { assert (a + b)[i] == a[i]; }
      forall i | 0 <= i < |b| ensures Satisfies(v, b[i]) { assert (a + b)[|a| + i] == b[i]; }
    }
  }

  lemma ExcludesPair(config: Values, m: string, n: string)
    ensures Satisfies(Obj(config), Schema([Not(Schema([Required({m, n})]))])) <==> !(m in config && n in config)
  {
    SatisfiesOne(Obj(config), Not(Schema([Required({m, n})])));
    SatisfiesOne(Obj(config), Required({m, n}));
  }

  /** Forbidding every pair is forbidding more than one. */
  lemma {:induction false} PairsAgree(fields: seq<string>, config: Values)
    ensures All(Obj(config), Pairs(fields)) <==> |Present(fields, config)| <= 1
  {
    if fields != [] {
      var rest := fields[1..];
      var first := seq(|fields| - 1, (j: nat) requires j < |fields| - 1 => Schema([Not(Schema([Required({fields[0], fields[j + 1]})]))]));
      AllJoin(Obj(config), first, Pairs(rest));
      PairsAgree(rest, config);
      PresentIndex(rest, config);
      forall j | 0 <= j < |rest| ensures Satisfies(Obj(config), first[j]) <==> !(fields[0] in config && rest[j] in config) {
        ExcludesPair(config, fields[0], fields[j + 1]);
      }
    }
  }

  predicate PlainConfig(config: Values) {
    forall n :: n in config ==> Plain(config[n])
  }

  /** The condition of a rule is met for the schema, by an equal value written differently, but not for the validator. */
  predicate Stricter(rule: Rule, config: Values) {
    && rule.RequiredWhen? && rule.field in config && rule.requiredField !in config
    && Same(rule.equals, config[rule.field]) && config[rule.field] != rule.equals
  }

  lemma RequiredWhenAgrees(rule: Rule, config: Values)
    requires rule.RequiredWhen?
    ensures All(Obj(config), RuleSchema(rule)) <==> RuleHolds(rule, config) && !Stricter(rule, config)
  {
    var v := Obj(config);
    var when := [Properties(map[rule.field := Schema([Const(rule.equals)])], true), Required({rule.field})];
    var implication := IfThen(Schema(when), Schema([Required({rule.requiredField})]));
    assert RuleSchema(rule) == [Schema([implication])];
    assert All(v, RuleSchema(rule)) <==> Satisfies(v, RuleSchema(rule)[0]);
    SatisfiesOne(v, implication);
    SatisfiesJoin(v, [when[0]], [when[1]]);
    assert [when[0]] + [when[1]] == when;
    SatisfiesOne(v, when[0]);
    SatisfiesOne(v, when[1]);
    SatisfiesOne(v, Required({rule.requiredField}));
    SameSelf(rule.equals);
    if rule.field in config { SatisfiesOne(config[rule.field], Const(rule.equals)); }
  }

  /** For every configuration a rule's schemas hold exactly when the rule does and the schema is not stricter; order rules have none. */
  lemma RuleAgrees(rule: Rule, config: Values)
    ensures All(Obj(config), RuleSchema(rule)) <==> rule.LessThanOrEqual? || (RuleHolds(rule, config) && !Stricter(rule, config))
  {
    match rule {
      case MutuallyExclusive(fields) => PairsAgree(fields, config);
      case RequiredWhen(_, _, _) => RequiredWhenAgrees(rule, config);
      case LessThanOrEqual(_, _) =>
    }
  }

  lemma PlainIsNotStricter(rule: Rule, config: Values)
    requires PlainConfig(config) && (rule.RequiredWhen? ==> Plain(rule.equals))
    ensures !Stricter(rule, config)
  {
    if rule.RequiredWhen? && rule.field in config { PlainSame(rule.equals, config[rule.field]); }
  }

  /** The rules JSON Schema can express. */
  predicate Expressible(rules: seq<Rule>, config: Values) {
    forall i :: 0 <= i < |rules| && !rules[i].LessThanOrEqual? ==> RuleHolds(rules[i], config)
  }

  predicate NoneStricter(rules: seq<Rule>, config: Values) {
    forall i :: 0 <= i < |rules| ==> !Stricter(rules[i], config)
  }

  predicate OrdersHold(rules: seq<Rule>, config: Values) {
    forall i :: 0 <= i < |rules| && rules[i].LessThanOrEqual? ==> RuleHolds(rules[i], config)
  }

  lemma RulesStep(rules: seq<Rule>, config: Values)
    requires rules != []
    ensures Expressible(rules, config) <==> (rules[0].LessThanOrEqual? || RuleHolds(rules[0], config)) && Expressible(rules[1..], config)
    ensures NoneStricter(rules, config) <==> !Stricter(rules[0], config) && NoneStricter(rules[1..], config)
  {
    var rest := rules[1..];
    assert forall i :: 0 <= i < |rest| ==> rest[i] == rules[i + 1];
    assert forall i :: 0 < i < |rules| ==> rules[i] == rest[i - 1];
  }

  lemma {:induction false} RulesAgree(rules: seq<Rule>, config: Values)
    ensures All(Obj(config), RuleSchemas(rules)) <==> Expressible(rules, config) && NoneStricter(rules, config)
  {
    if rules != [] {
      RuleAgrees(rules[0], config);
      RulesAgree(rules[1..], config);
      AllJoin(Obj(config), RuleSchema(rules[0]), RuleSchemas(rules[1..]));
      RulesStep(rules, config);
    }
  }

  // ---------------------------------------------------------------- the emitted schema as a whole

  ghost predicate FaithfulTo(c: Contract, f: Rounding) {
    forall n :: n in c.fields ==> Faithful(f, c.fields[n])
  }

  /** No authored integer is rounded onto a bound. */
  predicate Exact(c: Contract, config: Values, f: Rounding) {
    forall n :: n in config && n in c.fields ==> !RoundedOnto(config[n], c.fields[n], f)
  }

  /** The schema is lenient about no authored value. */
  predicate NoneLenient(c: Contract, config: Values) {
    forall n :: n in config && n in c.fields ==> !Lenient(config[n], c.fields[n])
  }

  /** What the schema asks of the authored values. */
  predicate ValuesSatisfy(c: Contract, config: Values, f: Rounding) {
    forall n :: n in config ==>
      && Offered(c, n)
      && ((CheckValue(config[n], c.fields[n], f).Ok? && !RoundedOnto(config[n], c.fields[n], f)) || Lenient(config[n], c.fields[n]))
  }

  lemma PropertiesAgree(c: Contract, config: Values, env: Env)
    requires FaithfulTo(c, env.f)
    ensures Holds(Obj(config), Properties(OfferedFields(c), false)) <==> ValuesSatisfy(c, config, env.f)
  {
    forall n | n in config && n in c.fields
      ensures Satisfies(config[n], FieldSchema(c.fields[n]))
         <==> (CheckValue(config[n], c.fields[n], env.f).Ok? && !RoundedOnto(config[n], c.fields[n], env.f))
              || Lenient(config[n], c.fields[n])
    {
      FieldSchemaAgrees(config[n], c.fields[n], env.f);
    }
  }

  lemma FixedThenRules(v: Json, fixed: seq<Keyword>, rules: seq<Schema>)
    ensures Satisfies(v, Schema(fixed + if rules == [] then [] else [AllOf(rules)]))
       <==> Satisfies(v, Schema(fixed)) && All(v, rules)
  {
    SatisfiesJoin(v, fixed, if rules == [] then [] else [AllOf(rules)]);
    if rules != [] { SatisfiesOne(v, AllOf(rules)); }
  }

  lemma ObjectSchemaParts(config: Values, fields: map<string, Schema>, required: set<string>, note: Keyword, rules: seq<Schema>)
    requires note.Annotation?
    ensures Satisfies(Obj(config), Schema([Type(ObjectType), Properties(fields, false), Required(required), note]
                                          + if rules == [] then [] else [AllOf(rules)]))
       <==> Holds(Obj(config), Properties(fields, false)) && required <= config.Keys && All(Obj(config), rules)
  {
    FixedThenRules(Obj(config), [Type(ObjectType), Properties(fields, false), Required(required), note], rules);
    SatisfiesFour(Obj(config), Type(ObjectType), Properties(fields, false), Required(required), note);
  }

  /** Keyword by keyword, what the emitted schema asks of an object. */
  lemma ConfigSchemaParts(c: Contract, config: Values)
    ensures Satisfies(Obj(config), ConfigSchema(c)) <==>
            && Holds(Obj(config), Properties(OfferedFields(c), false)) && MustAuthor(c) <= config.Keys
            && All(Obj(config), RuleSchemas(c.rules))
  {
    ObjectSchemaParts(config, OfferedFields(c), MustAuthor(c), Annotation("x-proofstorm-rules"), RuleSchemas(c.rules));
  }

  /**
   For every contract and every authored configuration: the emitted schema accepts it if and
   only if each value is accepted without rounding or is one the schema is lenient about, every
   expressible rule holds without the schema being stricter, and every required field without
   a default is authored.
  */
  lemma SchemaAgrees(c: Contract, config: Values, env: Env)
    requires FaithfulTo(c, env.f)
    ensures Satisfies(Obj(config), ConfigSchema(c)) <==>
            && ValuesSatisfy(c, config, env.f)
            && Expressible(c.rules, config) && NoneStricter(c.rules, config)
            && MustAuthor(c) <= config.Keys
  {
    ConfigSchemaParts(c, config);
    PropertiesAgree(c, config, env);
    RulesAgree(c.rules, config);
  }

  lemma ValuesSplit(c: Contract, config: Values, env: Env)
    requires FaithfulTo(c, env.f)
    ensures ValuesSatisfy(c, config, env.f) && NoneLenient(c, config) <==> ValuesOk(c, config, env) && Exact(c, config, env.f)
  {
    forall n | n in config && n in c.fields ensures Lenient(config[n], c.fields[n]) ==> CheckValue(config[n], c.fields[n], env.f).Err? {
      FieldSchemaAgrees(config[n], c.fields[n], env.f);
    }
  }

  /** Where no integer is written as a double, schema and validator differ by rounding alone. */
  lemma PlainConfigurationsAgree(c: Contract, config: Values)
    requires PlainConfig(config)
    requires forall n :: n in c.fields ==> AllPlain(c.fields[n].enumValues)
    requires forall i :: 0 <= i < |c.rules| && c.rules[i].RequiredWhen? ==> Plain(c.rules[i].equals)
    ensures NoneLenient(c, config) && NoneStricter(c.rules, config)
  {
    forall n | n in config && n in c.fields ensures !Lenient(config[n], c.fields[n]) { PlainIsNotLenient(config[n], c.fields[n]); }
    forall i | 0 <= i < |c.rules| ensures !Stricter(c.rules[i], config) { PlainIsNotStricter(c.rules[i], config); }
  }

  // ---------------------------------------------------------------- default resolution

  lemma EffectiveLookup(c: Contract, component: Component, n: string)
    ensures var e := Effective(c, component);
            && (n in e <==> n in component.config || Defaulted(c, component.config, n))
            && (n in component.config ==> e[n] == component.config[n])
            && (Defaulted(c, component.config, n) ==> e[n] == DefaultValue(c.fields[n].default.value, component.id))
  {
  }

  /** Every default that resolution would add is a value its own field accepts. */
  predicate DefaultsFit(c: Contract, component: Component, env: Env) {
    forall n :: n in c.fields && Defaulted(c, component.config, n) ==>
                  CheckValue(DefaultValue(c.fields[n].default.value, component.id), c.fields[n], env.f).Ok?
  }

  /** What resolution checks beyond the schema: order rules and built-in checks, and that the defaults fit. */
  predicate BeyondSchema(c: Contract, component: Component, env: Env) {
    && c.kind == component.kind
    && OrdersHold(c.rules, component.config) && HardChecks(c, component.config, env)
    && DefaultsFit(c, component, env)
    && RulesHold(c.rules, Effective(c, component)) && HardChecks(c, Effective(c, component), env)
  }

  /**
   For every contract and component: it resolves, with nothing rounded and no rule stricter
   in the schema, if and only if the schema emitted from the same contract accepts its
   authored configuration without leniency, the order rules and built-in checks hold, and
   the defaults fit, each its own field and all of them the rules.
  */
  lemma AcceptsIffSchemaAccepts(c: Contract, component: Component, env: Env)
    requires FaithfulTo(c, env.f)
    ensures Accepts(c, component, env) && Exact(c, component.config, env.f) && NoneStricter(c.rules, component.config) <==>
            Satisfies(Obj(component.config), ConfigSchema(c)) && NoneLenient(c, component.config) && BeyondSchema(c, component, env)
  {
    SchemaAgrees(c, component.config, env);
    ValuesSplit(c, component.config, env);
    RulesSplit(c.rules, component.config);
    RequiredAfterDefaults(c, component);
    if ValuesOk(c, component.config, env) { EffectiveValues(c, component, env); }
  }

  /** Soundness, exactly: the schema accepts what resolved, unless a value was rounded or a rule is stricter there. */
  lemma ResolvedSatisfiesSchemaIff(c: Contract, component: Component, env: Env)
    requires FaithfulTo(c, env.f) && Accepts(c, component, env)
    ensures Satisfies(Obj(component.config), ConfigSchema(c)) <==>
            Exact(c, component.config, env.f) && NoneStricter(c.rules, component.config)
  {
    AcceptsIffSchemaAccepts(c, component, env);
    SchemaAgrees(c, component.config, env);
    ValuesSplit(c, component.config, env);
  }

  /**
   The other direction of disagreement: a rule that requires a path when the mode equals 1 is
   met by the schema, but not by the validator, when the mode is written 1.0.
  */
  lemma RequiredWhenDisagrees(env: Env)
    ensures Accepts(ModeContract(), ModeComponent(), env)
    ensures !Satisfies(Obj(ModeComponent().config), ConfigSchema(ModeContract()))
  {
    ModeAccepted(env);
    assert Stricter(ModeContract().rules[0], ModeComponent().config) by { assert Number(Int(1)) == Number(Float(1.0)); }
    ResolvedSatisfiesSchemaIff(ModeContract(), ModeComponent(), env);
  }

  lemma ModeAccepted(env: Env)
    ensures Accepts(ModeContract(), ModeComponent(), env)
  {
    assert Effective(ModeContract(), ModeComponent()) == ModeComponent().config;
  }

  function ModeComponent(): Component {
    Component("component", 0, "mode", map["mode" := Float(1.0)])
  }

  function ModeContract(): Contract {
    Contract("mode", 0,
             map["mode" := Field(NumberKind, AgentAuthorable, None, [], None, None, None, None, false),
                 "path" := Field(StringKind, AgentAuthorable, None, [], None, None, None, None, false)],
             [RequiredWhen("mode", Int(1), "path")])
  }

  lemma RulesSplit(rules: seq<Rule>, config: Values)
    ensures RulesHold(rules, config) <==> Expressible(rules, config) && OrdersHold(rules, config)
  {
  }

  /** Once defaults are in, the required fields are those the schema made the author write. */
  lemma RequiredAfterDefaults(c: Contract, component: Component)
    ensures RequiredPresent(c, Effective(c, component)) <==> MustAuthor(c) <= component.config.Keys
  {
    forall n | n in c.fields ensures n in Effective(c, component) <==> n in component.config || Defaulted(c, component.config, n) {
      EffectiveLookup(c, component, n);
    }
    if RequiredPresent(c, Effective(c, component)) {
      forall n | n in MustAuthor(c) ensures n in component.config { assert n in Effective(c, component); }
    }
  }

  lemma EffectiveValues(c: Contract, component: Component, env: Env)
    requires ValuesOk(c, component.config, env)
    ensures ValuesOk(c, Effective(c, component), env) <==> DefaultsFit(c, component, env)
  {
    var e := Effective(c, component);
    forall n ensures n in e <==> n in component.config || Defaulted(c, component.config, n) { EffectiveLookup(c, component, n); }
    if ValuesOk(c, e, env) {
      forall n | n in c.fields && Defaulted(c, component.config, n)
        ensures CheckValue(DefaultValue(c.fields[n].default.value, component.id), c.fields[n], env.f).Ok?
      {
        EffectiveLookup(c, component, n);
        assert n in e;
      }
    }
    if DefaultsFit(c, component, env) {
      forall n | n in e ensures Offered(c, n) && CheckValue(e[n], c.fields[n], env.f).Ok? {
        EffectiveLookup(c, component, n);
      }
    }
  }

  /**
   Resolution is a closure: it keeps what was authored, adds authorable defaults and nothing
   else, leaves a configuration that passes effective validation, and is idempotent.
  */
  lemma ResolutionIsClosure(c: Contract, component: Component, env: Env)
    requires Accepts(c, component, env)
    ensures var e := component.(config := Effective(c, component));
            && (forall n :: n in component.config ==> n in e.config && e.config[n] == component.config[n])
            && (forall n :: n in e.config && n !in component.config ==>
                              && Offered(c, n) && c.fields[n].default.Some?
                              && e.config[n] == DefaultValue(c.fields[n].default.value, component.id))
            && Valid(c, e.config, true, env) && RequiredPresent(c, e.config)
            && Accepts(c, e, env) && Effective(c, e) == e.config
  {
    var e := component.(config := Effective(c, component));
    forall n ensures !(n in c.fields && Defaulted(c, e.config, n)) {
      EffectiveLookup(c, component, n);
    }
    assert Effective(c, e) == e.config;
  }

  /** It is also the least: any accepted configuration that extends the authored one and needs no default extends the result. */
  lemma ResolutionIsLeast(c: Contract, component: Component, other: Component, env: Env)
    requires Accepts(c, component, env) && other.id == component.id && Effective(c, other) == other.config
    requires forall n :: n in component.config ==> n in other.config && other.config[n] == component.config[n]
    requires forall n :: n in c.fields && Defaulted(c, component.config, n) && n in other.config ==>
                           other.config[n] == DefaultValue(c.fields[n].default.value, component.id)
    ensures forall n :: n in Effective(c, component) ==>
                          n in other.config && other.config[n] == Effective(c, component)[n]
  {
    forall n | n in Effective(c, component)
      ensures n in other.config && other.config[n] == Effective(c, component)[n]
    {
      EffectiveLookup(c, component, n);
      EffectiveLookup(c, other, n);
    }
  }

  // ---------------------------------------------------------------- the code, in loops

  /** An error code and the field it is about, if it is about one. */
  datatype Diagnostic = Diagnostic(code: Code, field: string)

  /** Maps are iterated in the order of their keys. */
  ghost predicate FirstOf(names: set<string>, n: string) {
    n in names && forall m :: m in names && m != n ==> Before(n, m)
  }

  lemma {:induction false} HasFirst(names: set<string>)
    requires names != {}
    ensures exists n :: FirstOf(names, n)
    decreases |names|
  {
    var x :| x in names;
    if names == {x} {
      assert FirstOf(names, x);
    } else {
      var rest := names - {x};
      assert names == rest + {x};
      HasFirst(rest);
      var n :| FirstOf(rest, n);
      Trichotomy(x, n);
      if Before(n, x) {
        assert FirstOf(names, n);
      } else {
        forall m | m in names && m != x ensures Before(x, m) {
          if m != n { Transitive(x, n, m); }
        }
        assert FirstOf(names, x);
      }
    }
  }

  /** The least key left to iterate. */
  method Next(rest: set<string>) returns (n: string)
    requires rest != {}
    ensures FirstOf(rest, n)
  {
    HasFirst(rest);
    n :| n in rest && forall m :: m in rest && m != n ==> Before(n, m);
  }

  function ValueCode(c: Contract, config: Values, n: string, env: Env): Option<Code>
    requires n in config
  {
    if n !in c.fields then Some(UnknownField)
    else if !Authorable(c.fields[n].origin) then Some(ManagedField)
    else if CheckValue(config[n], c.fields[n], env.f).Err? then Some(CheckValue(config[n], c.fields[n], env.f).error)
    else None
  }

  function BadValues(c: Contract, config: Values, env: Env): set<string> {
    set n | n in config && ValueCode(c, config, n, env).Some?
  }

  function MissingFields(c: Contract, config: Values): set<string> {
    set n | n in c.fields && Authorable(c.fields[n].origin) && c.fields[n].required && n !in config
  }

  /** The one diagnostic that is reported about an invalid configuration, rule violations being reported together. */
  ghost predicate Diagnosed(d: Diagnostic, c: Contract, config: Values, effective: bool, env: Env) {
    if BadValues(c, config, env) != {} then
      FirstOf(BadValues(c, config, env), d.field) && Some(d.code) == ValueCode(c, config, d.field, env)
    else if !ImagePinned(c, config, env.isImage) then d == Diagnostic(ImageDigestRequired, "runtime_image")
    else if !DiscoveryUrlOk(c, config) then d == Diagnostic(DiscoveryUrlInvalid, "oidc_discovery_url")
    else if effective && MissingFields(c, config) != {} then
      FirstOf(MissingFields(c, config), d.field) && d.code == RequiredMissing
    else d == Diagnostic(RulesViolated, "") && !RulesHold(c.rules, config)
  }

  method CheckValues(c: Contract, config: Values, env: Env) returns (r: Result<(), Diagnostic>)
    ensures r.Ok? <==> ValuesOk(c, config, env)
    ensures r.Ok? <==> BadValues(c, config, env) == {}
    ensures r.Err? ==> FirstOf(BadValues(c, config, env), r.error.field)
                       && Some(r.error.code) == ValueCode(c, config, r.error.field, env)
  {
    var rest := config.Keys;
    while rest != {}
      invariant rest <= config.Keys && BadValues(c, config, env) <= rest
    {
      var n := Next(rest);
      var code := ValueCode(c, config, n, env);
      if code.Some? {
        assert n in BadValues(c, config, env);
        return Err(Diagnostic(code.value, n));
      }
      rest := rest - {n};
    }
    forall n | n in config ensures Offered(c, n) && CheckValue(config[n], c.fields[n], env.f).Ok? {
      assert n !in BadValues(c, config, env);
    }
    return Ok(());
  }

  method CheckRequired(c: Contract, config: Values) returns (missing: Option<string>)
    ensures missing.None? <==> RequiredPresent(c, config)
    ensures missing.None? <==> MissingFields(c, config) == {}
    ensures missing.Some? ==> FirstOf(MissingFields(c, config), missing.value)
  {
    var rest := c.fields.Keys;
    while rest != {}
      invariant rest <= c.fields.Keys && MissingFields(c, config) <= rest
    {
      var n := Next(rest);
      if Authorable(c.fields[n].origin) && c.fields[n].required && n !in config {
        assert n in MissingFields(c, config);
        return Some(n);
      }
      rest := rest - {n};
    }
    forall n | n in c.fields && Authorable(c.fields[n].origin) && c.fields[n].required ensures n in config {
      assert n !in MissingFields(c, config);
    }
    return None;
  }

  /** Every violated rule is reported, and nothing else. */
  method ViolatedRules(rules: seq<Rule>, config: Values) returns (violations: seq<Rule>)
    ensures violations == [] <==> RulesHold(rules, config)
    ensures forall rule :: rule in violations <==> rule in rules && !RuleHolds(rule, config)
  {
    violations := [];
    var i := 0;
    while i < |rules|
      invariant i <= |rules|
      invariant forall rule :: rule in violations <==> rule in rules[..i] && !RuleHolds(rule, config)
    {
      if !RuleHolds(rules[i], config) { violations := violations + [rules[i]]; }
      i := i + 1;
    }
    assert rules[..i] == rules;
    if violations == [] {
      forall j | 0 <= j < |rules| ensures RuleHolds(rules[j], config) { assert rules[j] in rules; }
    } else {
      assert violations[0] in rules;
    }
  }

  method ValidateConfig(c: Contract, config: Values, effective: bool, env: Env) returns (r: Result<(), Diagnostic>)
    ensures r.Ok? <==> Valid(c, config, effective, env)
    ensures r.Err? ==> Diagnosed(r.error, c, config, effective, env)
  {
    r := CheckValues(c, config, env);
    if r.Err? { return; }
    if !ImagePinned(c, config, env.isImage) { return Err(Diagnostic(ImageDigestRequired, "runtime_image")); }
    if !DiscoveryUrlOk(c, config) { return Err(Diagnostic(DiscoveryUrlInvalid, "oidc_discovery_url")); }
    if effective {
      var missing := CheckRequired(c, config);
      if missing.Some? { return Err(Diagnostic(RequiredMissing, missing.value)); }
    }
    var violations := ViolatedRules(c.rules, config);
    if violations != [] { return Err(Diagnostic(RulesViolated, "")); }
  }

  /** The `or_insert_with` loop. */
  method AddDefaults(c: Contract, component: Component) returns (config: Values)
    ensures config == Effective(c, component)
  {
    config := component.config;
    var rest := c.fields.Keys;
    while rest != {}
      invariant rest <= c.fields.Keys
      invariant forall n :: n in config <==> n in component.config || (Defaulted(c, component.config, n) && n !in rest)
      invariant forall n :: n in config ==>
                  config[n] == if n in component.config then component.config[n] else DefaultValue(c.fields[n].default.value, component.id)
    {
      var n := Next(rest);
      var field := c.fields[n];
      if Authorable(field.origin) && field.default.Some? && n !in config {
        config := config[n := DefaultValue(field.default.value, component.id)];
      }
      rest := rest - {n};
    }
    assert config.Keys == Effective(c, component).Keys;
  }

  method ResolveEffectiveComponent(registry: map<string, Contract>, component: Component, env: Env)
    returns (r: Result<Component, Diagnostic>)
    ensures r.Ok? <==> component.implementation in registry && Accepts(registry[component.implementation], component, env)
    ensures r.Ok? ==> r.value == component.(config := Effective(registry[component.implementation], component))
    ensures r.Err? ==>
              if component.implementation !in registry then r.error == Diagnostic(RegistryMissing, "")
              else
                var c := registry[component.implementation];
                if c.kind != component.kind then r.error == Diagnostic(KindMismatch, "")
                else if !Valid(c, component.config, false, env) then Diagnosed(r.error, c, component.config, false, env)
                else Diagnosed(r.error, c, Effective(c, component), true, env)
  {
    if component.implementation !in registry { return Err(Diagnostic(RegistryMissing, "")); }
    var c := registry[component.implementation];
    if c.kind != component.kind { return Err(Diagnostic(KindMismatch, "")); }
    var authored := ValidateConfig(c, component.config, false, env);
    if authored.Err? { return Err(authored.error); }
    var config := AddDefaults(c, component);
    var checked := ValidateConfig(c, config, true, env);
    if checked.Err? { return Err(checked.error); }
    return Ok(component.(config := config));
  }
}
