/**
 * Parameter contracts and the one generic validator shared by every operation.
 *
 * Each operation declares its parameters the way the tool files declare a zod
 * shape: per field a semantic type, its inclusive bounds, a minimum string or
 * array length, an enumerated value set, and whether the field is required,
 * optional (may be absent) or has a default (filled in when absent). `Parse`
 * checks a JSON value against such a schema and either reports every violated
 * constraint, each tagged with the path of the offending field, or returns the
 * normalised value: unknown object keys are stripped and defaults are filled.
 */
module Schema {
  import opened Wrappers
  import opened JsonValue

  /** One check chained onto `z.number()`, kept in the order it was chained. */
  datatype NumberCheck = IntCheck | MinCheck(min: real) | MaxCheck(max: real)

  datatype Schema =
    | SNumber(checks: seq<NumberCheck>)
    | SString(minLength: nat)
    | SBoolean
    | SEnum(choices: seq<string>)
    | SArray(element: Schema, minItems: nat)
    | SStringRecord                   // `z.record(z.string())`
    | SObject(fields: seq<Field>)

  datatype Presence = Required | Optional | Default(value: Json)

  datatype Field = Field(name: string, schema: Schema, presence: Presence)

  /** The parameter contract of one operation: the fields of its argument object. */
  type Contract = seq<Field>

  datatype Kind = NumberKind | StringKind | BooleanKind | ArrayKind | ObjectKind

  datatype Step = Key(key: string) | Index(index: nat)

  datatype Constraint =
    | Missing
    | WrongType(expected: Kind)
    | NotInteger
    | TooSmall(min: real)
    | TooBig(max: real)
    | TooShort(minLength: nat)
    | NotOneOf(choices: seq<string>)
    | TooFewItems(minItems: nat)

  /** A validation error: which field, and which constraint it violates. */
  datatype Issue = Issue(path: seq<Step>, constraint: Constraint)

  predicate Passes(c: NumberCheck, x: real) {
    match c
    case IntCheck => IsInt(x)
    case MinCheck(min) => x >= min
    case MaxCheck(max) => x <= max
  }

  function Violation(c: NumberCheck): Constraint {
    match c
    case IntCheck => NotInteger
    case MinCheck(min) => TooSmall(min)
    case MaxCheck(max) => TooBig(max)
  }

  function IssuesOf<T>(r: Result<T, seq<Issue>>): seq<Issue> {
    if r.Failure? then r.error else []
  }

  predicate Under(at: seq<Step>, issues: seq<Issue>) {
    forall i :: 0 <= i < |issues| ==> at <= issues[i].path
  }

  function NamesFrom(fs: seq<Field>, i: nat): set<string> {
    set k | i <= k < |fs| :: fs[k].name
  }

  predicate UniqueNames(fs: seq<Field>) {
    forall j, k :: 0 <= j < k < |fs| ==> fs[j].name != fs[k].name
  }

  /** Every object schema, at any depth, declares each field name once. */
  predicate WellFormed(s: Schema)
    decreases s, 1
  {
    match s
    case SArray(e, _) => WellFormed(e)
    case SObject(fs) => UniqueNames(fs) && forall k :: 0 <= k < |fs| ==> FieldWellFormed(fs[k])
    case _ => true
  }

  predicate FieldWellFormed(f: Field)
    decreases f.schema, 2
  {
    WellFormed(f.schema)
  }

  // ---------------------------------------------------------------------------
  // The declarative reading of a schema: which values it accepts.

  predicate Conforms(s: Schema, v: Json)
    decreases s, 1
  {
    match s
    case SNumber(checks) => v.JNum? && forall k :: 0 <= k < |checks| ==> Passes(checks[k], v.n)
    case SString(min) => v.JStr? && |v.s| >= min
    case SBoolean => v.JBool?
    case SEnum(choices) => v.JStr? && v.s in choices
    case SArray(e, min) =>
      v.JArr? && |v.items| >= min && forall k :: 0 <= k < |v.items| ==> Conforms(e, v.items[k])
    case SStringRecord => v.JObj? && forall key :: key in v.fields ==> v.fields[key].JStr?
    case SObject(fs) => v.JObj? && forall k :: 0 <= k < |fs| ==> FieldConforms(fs[k], v.fields)
  }

  /** A present field conforms to its schema; an absent one is not required, and its default conforms. */
  predicate FieldConforms(f: Field, m: map<string, Json>)
    decreases f.schema, 2
  {
    if f.name in m then Conforms(f.schema, m[f.name])
    else match f.presence
      case Required => false
      case Optional => true
      case Default(d) => Conforms(f.schema, d)
  }

  /**
   * The shape of a value the validator produced: it conforms, every object
   * holds only declared keys, and every field that is not merely optional is present.
   */
  predicate Normal(s: Schema, w: Json)
    decreases s, 1
  {
    match s
    case SArray(e, min) =>
      w.JArr? && |w.items| >= min && forall k :: 0 <= k < |w.items| ==> Normal(e, w.items[k])
    case SObject(fs) =>
      w.JObj? && w.fields.Keys <= NamesFrom(fs, 0) && forall k :: 0 <= k < |fs| ==> FieldNormal(fs[k], w.fields)
    case _ => Conforms(s, w)
  }

  predicate FieldNormal(f: Field, m: map<string, Json>)
    decreases f.schema, 2
  {
    (f.presence.Optional? || f.name in m) && (f.name in m ==> Normal(f.schema, m[f.name]))
  }

  /** A schema with no object inside: validation leaves such values as they are. */
  predicate Flat(s: Schema) {
    match s
    case SArray(e, _) => Flat(e)
    case SObject(_) => false
    case _ => true
  }

  // ---------------------------------------------------------------------------
  // The validator.

  /** Every chained number check is run; each failing one is reported. */
  function NumberIssues(checks: seq<NumberCheck>, x: real, at: seq<Step>): (r: seq<Issue>)
    ensures r == [] <==> forall k :: 0 <= k < |checks| ==> Passes(checks[k], x)
    ensures forall i :: 0 <= i < |r| ==> r[i].path == at
    ensures |r| <= |checks|
  {
    if checks == [] then []
    else
      (if Passes(checks[0], x) then [] else [Issue(at, Violation(checks[0]))])
      + NumberIssues(checks[1..], x, at)
  }

  function Parse(s: Schema, v: Json, at: seq<Step>): (r: Result<Json, seq<Issue>>)
    decreases s, 1, 0
    ensures r.Failure? ==> r.error != [] && Under(at, r.error)
  {
    match s
    case SNumber(checks) =>
      if !v.JNum? then Failure([Issue(at, WrongType(NumberKind))])
      else
        var bad := NumberIssues(checks, v.n, at);
        if bad == [] then Success(v) else Failure(bad)
    case SString(min) =>
      if !v.JStr? then Failure([Issue(at, WrongType(StringKind))])
      else if |v.s| < min then Failure([Issue(at, TooShort(min))])
      else Success(v)
    case SBoolean =>
      if v.JBool? then Success(v) else Failure([Issue(at, WrongType(BooleanKind))])
    case SEnum(choices) =>
      if !v.JStr? then Failure([Issue(at, WrongType(StringKind))])
      else if v.s !in choices then Failure([Issue(at, NotOneOf(choices))])
      else Success(v)
    case SArray(e, min) =>
      if !v.JArr? then Failure([Issue(at, WrongType(ArrayKind))])
      else
        var short := if |v.items| < min then [Issue(at, TooFewItems(min))] else [];
        var elems := ParseItems(e, v.items, 0, at);
        if short == [] && elems.Success? then Success(JArr(elems.value))
        else Failure(short + IssuesOf(elems))
    case SStringRecord =>
      if !v.JObj? then Failure([Issue(at, WrongType(ObjectKind))])
      else if forall key :: key in v.fields ==> v.fields[key].JStr? then Success(v)
      else Failure([Issue(at, WrongType(StringKind))])
    case SObject(fs) =>
      if !v.JObj? then Failure([Issue(at, WrongType(ObjectKind))])
      else
        var r := ParseFields(s, 0, v.fields, at);
        if r.Success? then Success(JObj(r.value)) else Failure(r.error)
  }

  /** Parses the elements `items`, the first of which sits at index `from` of the array at `at`. */
  function ParseItems(e: Schema, items: seq<Json>, from: nat, at: seq<Step>): (r: Result<seq<Json>, seq<Issue>>)
    decreases e, 2, |items|
    ensures r.Success? ==> |r.value| == |items|
    ensures r.Failure? ==> r.error != [] && Under(at, r.error)
  {
    if items == [] then Success([])
    else
      var head := Parse(e, items[0], at + [Index(from)]);
      var tail := ParseItems(e, items[1..], from + 1, at);
      if head.Success? && tail.Success? then Success([head.value] + tail.value)
      else Failure(IssuesOf(head) + IssuesOf(tail))
  }

  /** Parses one declared field of the object `m`: its value, its default, or nothing when optional. */
  function ParseField(f: Field, m: map<string, Json>, here: seq<Step>): (r: Result<Option<Json>, seq<Issue>>)
    decreases f.schema, 2, 0
    ensures r.Failure? ==> r.error != [] && Under(here, r.error)
  {
    if f.name in m then
      (var p := Parse(f.schema, m[f.name], here); if p.Success? then Success(Some(p.value)) else Failure(p.error))
    else match f.presence
      case Required => Failure([Issue(here, Missing)])
      case Optional => Success(None)
      case Default(d) =>
        (var p := Parse(f.schema, d, here); if p.Success? then Success(Some(p.value)) else Failure(p.error))
  }

  /** Parses the declared fields `obj.fields[i..]` of the object `m` found at `at`. */
  function ParseFields(obj: Schema, i: nat, m: map<string, Json>, at: seq<Step>): (r: Result<map<string, Json>, seq<Issue>>)
    requires obj.SObject? && i <= |obj.fields|
    decreases obj, 0, |obj.fields| - i
    ensures r.Success? ==> r.value.Keys <= NamesFrom(obj.fields, i)
    ensures r.Failure? ==> r.error != [] && Under(at, r.error)
  {
    if i == |obj.fields| then Success(map[])
    else
      var f := obj.fields[i];
      var head := ParseField(f, m, at + [Key(f.name)]);
      var tail := ParseFields(obj, i + 1, m, at);
      if head.Success? && tail.Success? then
        Success(if head.value.Some? then tail.value[f.name := head.value.value] else tail.value)
      else Failure(IssuesOf(head) + IssuesOf(tail))
  }

  /** One step of `ParseFields`: field `i` and the fields after it both parsed, and are combined. */
  lemma FieldsStep(obj: Schema, i: nat, m: map<string, Json>, at: seq<Step>)
    requires obj.SObject? && i < |obj.fields| && ParseFields(obj, i, m, at).Success?
    ensures var f := obj.fields[i];
      var head, tail := ParseField(f, m, at + [Key(f.name)]), ParseFields(obj, i + 1, m, at);
      && head.Success? && tail.Success?
      && ParseFields(obj, i, m, at).value ==
           if head.value.Some? then tail.value[f.name := head.value.value] else tail.value
  {
  }

  /** Validates the raw arguments of an operation against its contract. */
  function Validate(c: Contract, raw: map<string, Json>): (r: Result<map<string, Json>, seq<Issue>>)
    ensures r.Success? ==> r.value.Keys <= NamesFrom(c, 0)
    ensures r.Failure? ==> r.error != []
  {
    ParseFields(SObject(c), 0, raw, [])
  }

  // ---------------------------------------------------------------------------
  // What the validator guarantees.

  /** The validator accepts exactly the values the schema describes. */
  lemma {:induction false} ParseAccepts(s: Schema, v: Json, at: seq<Step>)
    decreases s, 1, 0
    ensures Parse(s, v, at).Success? <==> Conforms(s, v)
  {
    match s
    case SArray(e, _) =>
      if v.JArr? { ItemsAccept(e, v.items, 0, at); }
    case SObject(_) =>
      if v.JObj? { FieldsAccept(s, 0, v.fields, at); }
    case _ =>
  }

  lemma {:induction false} ItemsAccept(e: Schema, items: seq<Json>, from: nat, at: seq<Step>)
    decreases e, 2, |items|
    ensures ParseItems(e, items, from, at).Success? <==> forall k :: 0 <= k < |items| ==> Conforms(e, items[k])
  {
    if items != [] {
      ParseAccepts(e, items[0], at + [Index(from)]);
      ItemsAccept(e, items[1..], from + 1, at);
      assert forall k :: 0 < k < |items| ==> items[1..][k - 1] == items[k];
    }
  }

  lemma {:induction false} FieldsAccept(obj: Schema, i: nat, m: map<string, Json>, at: seq<Step>)
    requires obj.SObject? && i <= |obj.fields|
    decreases obj, 0, |obj.fields| - i
    ensures ParseFields(obj, i, m, at).Success? <==>
      forall k :: i <= k < |obj.fields| ==> FieldConforms(obj.fields[k], m)
  {
    if i < |obj.fields| {
      var f := obj.fields[i];
      var here := at + [Key(f.name)];
      if f.name in m {
        ParseAccepts(f.schema, m[f.name], here);
      } else if f.presence.Default? {
        ParseAccepts(f.schema, f.presence.value, here);
      }
      FieldsAccept(obj, i + 1, m, at);
    }
  }

  /** What the validator returns has the normal shape: declared keys only, defaults filled. */
  lemma {:induction false} ParseNormal(s: Schema, v: Json, at: seq<Step>)
    requires WellFormed(s) && Parse(s, v, at).Success?
    decreases s, 1, 0
    ensures Normal(s, Parse(s, v, at).value)
  {
    match s
    case SArray(e, _) =>
      ItemsNormal(e, v.items, 0, at);
    case SObject(fs) =>
      FieldsNormal(s, 0, v.fields, at);
    case SNumber(_) =>
    case SString(_) =>
    case SBoolean =>
    case SEnum(_) =>
    case SStringRecord =>
  }

  lemma {:induction false} ItemsNormal(e: Schema, items: seq<Json>, from: nat, at: seq<Step>)
    requires WellFormed(e) && ParseItems(e, items, from, at).Success?
    decreases e, 2, |items|
    ensures forall k :: 0 <= k < |items| ==> Normal(e, ParseItems(e, items, from, at).value[k])
  {
    if items != [] {
      ParseNormal(e, items[0], at + [Index(from)]);
      ItemsNormal(e, items[1..], from + 1, at);
    }
  }

  lemma {:induction false} FieldsNormal(obj: Schema, i: nat, m: map<string, Json>, at: seq<Step>)
    requires obj.SObject? && i <= |obj.fields| && WellFormed(obj)
    requires ParseFields(obj, i, m, at).Success?
    decreases obj, 0, |obj.fields| - i
    ensures forall k :: i <= k < |obj.fields| ==> FieldNormal(obj.fields[k], ParseFields(obj, i, m, at).value)
  {
    if i < |obj.fields| {
      var fs := obj.fields;
      var f := fs[i];
      var here := at + [Key(f.name)];
      FieldsStep(obj, i, m, at);
      var head := ParseField(f, m, here);
      var r := ParseFields(obj, i, m, at).value;
      assert FieldWellFormed(fs[i]);
      if f.name in m {
        ParseNormal(f.schema, m[f.name], here);
      } else if f.presence.Default? {
        ParseNormal(f.schema, f.presence.value, here);
      }
      assert FieldNormal(f, r);
      FieldsNormal(obj, i + 1, m, at);
      assert f.name !in NamesFrom(fs, i + 1);
      forall k | i < k < |fs|
        ensures FieldNormal(fs[k], r)
      {
        assert fs[k].name != f.name;
      }
    }
  }

  /** A value of normal shape is a fixed point of the validator, so validating twice changes nothing. */
  lemma {:induction false} NormalFixed(s: Schema, w: Json, at: seq<Step>)
    requires Normal(s, w)
    decreases s, 1, 0
    ensures Parse(s, w, at) == Success(w)
  {
    match s
    case SArray(e, _) =>
      ItemsFixed(e, w.items, 0, at);
    case SObject(fs) =>
      FieldsFixed(s, 0, w.fields, at);
      assert (map key | key in w.fields && key in NamesFrom(fs, 0) :: w.fields[key]) == w.fields;
    case SNumber(_) =>
    case SString(_) =>
    case SBoolean =>
    case SEnum(_) =>
    case SStringRecord =>
  }

  lemma {:induction false} ItemsFixed(e: Schema, items: seq<Json>, from: nat, at: seq<Step>)
    requires forall k :: 0 <= k < |items| ==> Normal(e, items[k])
    decreases e, 2, |items|
    ensures ParseItems(e, items, from, at) == Success(items)
  {
    if items != [] {
      NormalFixed(e, items[0], at + [Index(from)]);
      ItemsFixed(e, items[1..], from + 1, at);
      assert [items[0]] + items[1..] == items;
    }
  }

  lemma {:induction false} FieldsFixed(obj: Schema, i: nat, m: map<string, Json>, at: seq<Step>)
    requires obj.SObject? && i <= |obj.fields|
    requires forall k :: i <= k < |obj.fields| ==> FieldNormal(obj.fields[k], m)
    decreases obj, 0, |obj.fields| - i
    ensures ParseFields(obj, i, m, at) == Success(map key | key in m && key in NamesFrom(obj.fields, i) :: m[key])
  {
    var fs := obj.fields;
    if i == |fs| {
      assert NamesFrom(fs, i) == {};
    } else {
      var f := fs[i];
      if f.name in m {
        NormalFixed(f.schema, m[f.name], at + [Key(f.name)]);
      }
      FieldsFixed(obj, i + 1, m, at);
      assert NamesFrom(fs, i) == {f.name} + NamesFrom(fs, i + 1);
      var tail := map key | key in m && key in NamesFrom(fs, i + 1) :: m[key];
      var whole := map key | key in m && key in NamesFrom(fs, i) :: m[key];
      if f.name in m {
        assert whole == tail[f.name := m[f.name]];
      } else {
        assert whole == tail;
      }
    }
  }

  /** On a schema without objects inside, a value that validates comes back unchanged. */
  lemma {:induction false} ParseFlat(s: Schema, v: Json, at: seq<Step>)
    requires Flat(s) && Parse(s, v, at).Success?
    decreases s, 1, 0
    ensures Parse(s, v, at).value == v
  {
    match s
    case SArray(e, _) =>
      ItemsFlat(e, v.items, 0, at);
    case SNumber(_) =>
    case SString(_) =>
    case SBoolean =>
    case SEnum(_) =>
    case SStringRecord =>
  }

  lemma {:induction false} ItemsFlat(e: Schema, items: seq<Json>, from: nat, at: seq<Step>)
    requires Flat(e) && ParseItems(e, items, from, at).Success?
    decreases e, 2, |items|
    ensures ParseItems(e, items, from, at).value == items
  {
    if items != [] {
      ParseFlat(e, items[0], at + [Index(from)]);
      ItemsFlat(e, items[1..], from + 1, at);
      assert [items[0]] + items[1..] == items;
    }
  }

  /**
   * Field by field, the validated arguments are the parsed supplied value, the
   * parsed default when the field was omitted, and nothing for an omitted optional field.
   */
  lemma {:induction false} FieldsValue(obj: Schema, i: nat, m: map<string, Json>, at: seq<Step>, k: nat)
    requires obj.SObject? && i <= k < |obj.fields| && UniqueNames(obj.fields)
    requires ParseFields(obj, i, m, at).Success?
    decreases |obj.fields| - i
    ensures var f, r := obj.fields[k], ParseFields(obj, i, m, at).value;
      && (f.name in m ==> f.name in r && Parse(f.schema, m[f.name], at + [Key(f.name)]) == Success(r[f.name]))
      && (f.name !in m && f.presence.Default? ==>
            f.name in r && Parse(f.schema, f.presence.value, at + [Key(f.name)]) == Success(r[f.name]))
      && (f.name !in m && f.presence.Optional? ==> f.name !in r)
  {
    var fs := obj.fields;
    FieldsStep(obj, i, m, at);
    var r := ParseFields(obj, i, m, at).value;
    var tail := ParseFields(obj, i + 1, m, at).value;
    var head := ParseField(fs[i], m, at + [Key(fs[i].name)]);
    if k > i {
      FieldsValue(obj, i + 1, m, at, k);
      assert fs[i].name != fs[k].name;
      assert fs[k].name in r <==> fs[k].name in tail;
      assert fs[k].name in tail ==> r[fs[k].name] == tail[fs[k].name];
    } else {
      FieldValue(fs[i], m, at + [Key(fs[i].name)]);
      if i + 1 < |fs| {
        assert fs[i].name !in NamesFrom(fs, i + 1);
      }
      assert fs[i].name !in tail;
    }
  }

  /** What one parsed field yields: its parsed value, its parsed default, or nothing. */
  lemma FieldValue(f: Field, m: map<string, Json>, here: seq<Step>)
    requires ParseField(f, m, here).Success?
    ensures var h := ParseField(f, m, here).value;
      && (f.name in m ==> h.Some? && Parse(f.schema, m[f.name], here) == Success(h.value))
      && (f.name !in m && f.presence.Default? ==> h.Some? && Parse(f.schema, f.presence.value, here) == Success(h.value))
      && (f.name !in m && f.presence.Optional? ==> h.None?)
  {
  }

  /** Validation succeeds exactly when every declared field conforms. */
  lemma ValidateAccepts(c: Contract, raw: map<string, Json>)
    ensures Validate(c, raw).Success? <==> forall k :: 0 <= k < |c| ==> FieldConforms(c[k], raw)
  {
    FieldsAccept(SObject(c), 0, raw, []);
  }

  /** Validated arguments have the normal shape, and validating them again returns them unchanged. */
  lemma ValidateNormal(c: Contract, raw: map<string, Json>)
    requires WellFormed(SObject(c)) && Validate(c, raw).Success?
    ensures Normal(SObject(c), JObj(Validate(c, raw).value))
    ensures Validate(c, Validate(c, raw).value) == Validate(c, raw)
  {
    var args := Validate(c, raw).value;
    FieldsNormal(SObject(c), 0, raw, []);
    assert Parse(SObject(c), JObj(raw), []) == Success(JObj(args));
    NormalFixed(SObject(c), JObj(args), []);
  }

  /** For one field of the contract: what the validated arguments hold under its name. */
  lemma ValidatedField(c: Contract, raw: map<string, Json>, k: nat)
    requires UniqueNames(c) && k < |c| && Validate(c, raw).Success?
    ensures var f, args := c[k], Validate(c, raw).value;
      && (f.name in raw ==> f.name in args && Parse(f.schema, raw[f.name], [Key(f.name)]) == Success(args[f.name]))
      && (f.name !in raw && f.presence.Default? ==>
            f.name in args && Parse(f.schema, f.presence.value, [Key(f.name)]) == Success(args[f.name]))
      && (f.name !in raw && f.presence.Optional? ==> f.name !in args)
  {
    FieldsValue(SObject(c), 0, raw, [], k);
    assert [] + [Key(c[k].name)] == [Key(c[k].name)];
  }

  /**
   * What a flat field contributes to the validated arguments: the supplied
   * value as given, the default when omitted, nothing for an omitted optional field.
   */
  predicate Forwarded(f: Field, raw: map<string, Json>, args: map<string, Json>) {
    && (f.name in raw ==> f.name in args && args[f.name] == raw[f.name])
    && (f.name !in raw && f.presence.Default? ==> f.name in args && args[f.name] == f.presence.value)
    && (f.name !in raw && f.presence.Optional? ==> f.name !in args)
  }

  /**
   * A contract of flat fields forwards what it accepts unchanged: only unknown
   * keys are dropped and only defaults are added.
   */
  lemma ValidateForwards(c: Contract, raw: map<string, Json>)
    requires UniqueNames(c) && forall k :: 0 <= k < |c| ==> Flat(c[k].schema)
    requires Validate(c, raw).Success?
    ensures Validate(c, raw).value.Keys <= NamesFrom(c, 0)
    ensures forall k :: 0 <= k < |c| ==> Forwarded(c[k], raw, Validate(c, raw).value)
  {
    var args := Validate(c, raw).value;
    forall k | 0 <= k < |c| ensures Forwarded(c[k], raw, args) {
      var f := c[k];
      ValidatedField(c, raw, k);
      if f.name in raw {
        ParseFlat(f.schema, raw[f.name], [Key(f.name)]);
      } else if f.presence.Default? {
        ParseFlat(f.schema, f.presence.value, [Key(f.name)]);
      }
    }
  }

  /**
   * Without defaults, a contract of flat fields forwards exactly the supplied
   * values of its declared fields.
   */
  lemma ForwardsSupplied(c: Contract, raw: map<string, Json>)
    requires UniqueNames(c) && forall k :: 0 <= k < |c| ==> Flat(c[k].schema) && !c[k].presence.Default?
    requires Validate(c, raw).Success?
    ensures var args := Validate(c, raw).value;
      forall key :: (key in args <==> key in raw && key in NamesFrom(c, 0)) && (key in args ==> args[key] == raw[key])
    ensures forall k :: 0 <= k < |c| && c[k].presence.Required? ==> c[k].name in Validate(c, raw).value
  {
    var args := Validate(c, raw).value;
    ValidateForwards(c, raw);
    ValidateAccepts(c, raw);
    forall key | key in NamesFrom(c, 0)
      ensures (key in args <==> key in raw) && (key in args ==> args[key] == raw[key])
    {
      var k :| 0 <= k < |c| && c[k].name == key;
      assert Forwarded(c[k], raw, args) && FieldConforms(c[k], raw);
    }
  }

  /** A field of an object in normal shape: present unless optional, and itself in normal shape. */
  lemma FieldOf(fs: seq<Field>, w: Json, k: nat)
    requires Normal(SObject(fs), w) && k < |fs|
    ensures w.JObj? && FieldNormal(fs[k], w.fields)
  {
  }

  /** Element `k` of a parsed array is element `k` of the input, parsed at its index. */
  lemma {:induction false} ItemsValue(e: Schema, items: seq<Json>, from: nat, at: seq<Step>, k: nat)
    requires ParseItems(e, items, from, at).Success? && k < |items|
    decreases |items|
    ensures Parse(e, items[k], at + [Index(from + k)]) == Success(ParseItems(e, items, from, at).value[k])
  {
    ItemsStep(e, items, from, at);
    if k > 0 {
      ItemsValue(e, items[1..], from + 1, at, k - 1);
      assert items[1..][k - 1] == items[k];
    }
  }

  /** One step of `ParseItems`: the first element and the rest both parsed, and are joined. */
  lemma ItemsStep(e: Schema, items: seq<Json>, from: nat, at: seq<Step>)
    requires ParseItems(e, items, from, at).Success? && items != []
    ensures var head, tail := Parse(e, items[0], at + [Index(from)]), ParseItems(e, items[1..], from + 1, at);
      && head.Success? && tail.Success?
      && ParseItems(e, items, from, at).value == [head.value] + tail.value
  {
  }

  lemma ArrayValue(e: Schema, min: nat, items: seq<Json>, at: seq<Step>, k: nat)
    requires Parse(SArray(e, min), JArr(items), at).Success? && k < |items|
    ensures var w := Parse(SArray(e, min), JArr(items), at).value;
      w.JArr? && |w.items| == |items| && Parse(e, items[k], at + [Index(k)]) == Success(w.items[k])
  {
    ItemsValue(e, items, 0, at, k);
  }

  /** Field `k` of a parsed object: the parsed supplied value, the parsed default, or nothing. */
  lemma ObjectValue(fs: seq<Field>, v: Json, at: seq<Step>, k: nat)
    requires UniqueNames(fs) && k < |fs| && Parse(SObject(fs), v, at).Success?
    ensures var f, w := fs[k], Parse(SObject(fs), v, at).value;
      && v.JObj? && w.JObj?
      && (f.name in v.fields ==> f.name in w.fields && Parse(f.schema, v.fields[f.name], at + [Key(f.name)]) == Success(w.fields[f.name]))
      && (f.name !in v.fields && f.presence.Default? ==>
            f.name in w.fields && Parse(f.schema, f.presence.value, at + [Key(f.name)]) == Success(w.fields[f.name]))
      && (f.name !in v.fields && f.presence.Optional? ==> f.name !in w.fields)
  {
    FieldsValue(SObject(fs), 0, v.fields, at, k);
  }
}
