/** The part of pydantic's `BaseModel` the SDK relies on: a model class is a
    schema, a list of fields each with a name, an optional input alias, a
    JSON kind, whether `None` is accepted, and a default. `Validate` is
    `model_validate` over a decoded JSON value; `Dump` is `model_dump` of the
    instance it builds. Instances are `Record`s whose fields follow the
    schema's declaration order. Type coercion beyond int-to-float is left out. */
module Models {
  import opened Wrappers
  import opened PyValue
  import DataclassDict

  datatype Kind =
    | KStr | KBool | KInt | KFloat | KAny | KDict
    | KList(elem: Kind)
    /** A nested model, by class name; a registry maps names to schemas. */
    | KModel(model: string)
    /** A string constrained to one of the given spellings (a `pattern=` of
        alternatives anchored at both ends). */
    | KOneOf(options: seq<string>)

  /** A field; `default == None` makes it required. `alias` is the only input
      key the field is read from (the models never enable population by field
      name); for a field without an alias it is the name itself. */
  datatype FieldSpec = FieldSpec(name: string, alias: string, kind: Kind, nullable: bool, default: Option<Value>)

  datatype Schema = Schema(name: string, fields: seq<FieldSpec>)

  /** The model classes a schema may refer to, by name. */
  type Registry = string -> Schema

  datatype Failure = NotAnObject | Missing(field: string) | WrongType(field: string)

  /** A required field of kind k that accepts `None` only if `nullable`. */
  function Req(name: string, k: Kind): FieldSpec { FieldSpec(name, name, k, false, None) }
  /** `name: Optional[k] = None` */
  function Opt(name: string, k: Kind): FieldSpec { FieldSpec(name, name, k, true, Some(NoneV)) }
  /** `name: k = default` */
  function Def(name: string, k: Kind, d: Value): FieldSpec { FieldSpec(name, name, k, false, Some(d)) }
  /** `name: Optional[k] = default` */
  function OptDef(name: string, k: Kind, d: Value): FieldSpec { FieldSpec(name, name, k, true, Some(d)) }
  /** `name: List[k] = Field(default_factory=list)` */
  function EmptyList(name: string, k: Kind): FieldSpec { FieldSpec(name, name, KList(k), false, Some(ListV([]))) }

  /** A value found under a key of a dict is smaller than the dict. */
  lemma GetSize(es: seq<Entry>, k: string)
    requires HasKey(es, k)
    ensures DataclassDict.Size(Get(es, k).value) <= DataclassDict.SizeEntries(es)
  {
    var i :| 0 <= i < |es| && es[i] == Entry(k, Get(es, k).value);
    DataclassDict.SizeEntriesBound(es, i);
  }

  /** Validation of one value against a kind; the validated value (floats
      accept integers and convert them, models become instances). */
  function Check(reg: Registry, k: Kind, v: Value): Result<Value, Failure>
    decreases DataclassDict.Size(v), 3, 0
  {
    match k
    case KStr => if v.StrV? then Ok(v) else Err(WrongType(""))
    case KBool => if v.BoolV? then Ok(v) else Err(WrongType(""))
    case KInt => if v.IntV? then Ok(v) else Err(WrongType(""))
    case KFloat =>
      if v.RealV? then Ok(v) else if v.IntV? then Ok(RealV(v.i as real)) else Err(WrongType(""))
    case KAny => Ok(v)
    case KDict => if v.DictV? then Ok(v) else Err(WrongType(""))
    case KOneOf(options) => if v.StrV? && v.s in options then Ok(v) else Err(WrongType(""))
    case KList(e) =>
      if !v.ListV? then Err(WrongType(""))
      else
        var r := CheckAll(reg, e, v.items);
        if r.Ok? then Ok(ListV(r.value)) else Err(r.error)
    case KModel(name) => Validate(reg, reg(name), v)
  }

  function CheckAll(reg: Registry, e: Kind, items: seq<Value>): (r: Result<seq<Value>, Failure>)
    ensures r.Ok? ==> |r.value| == |items|
    decreases DataclassDict.SizeList(items), 4, |items|
  {
    if items == [] then Ok([])
    else
      var init := CheckAll(reg, e, items[..|items| - 1]);
      var last := Check(reg, e, items[|items| - 1]);
      if init.Err? then init
      else if last.Err? then Err(last.error)
      else Ok(init.value + [last.value])
  }

  /** `Schema.model_validate(v)` */
  function Validate(reg: Registry, sc: Schema, v: Value): Result<Value, Failure>
    decreases DataclassDict.Size(v), 2, 0
  {
    if !v.DictV? then Err(NotAnObject)
    else
      var r := ValidateFields(reg, sc.fields, v.entries);
      if r.Ok? then Ok(Record(r.value)) else Err(r.error)
  }

  /** The value one field takes from the input dict `es`. */
  function FieldResult(reg: Registry, f: FieldSpec, es: seq<Entry>): Result<Value, Failure>
    decreases 1 + DataclassDict.SizeEntries(es), 0, 0
  {
    match Get(es, f.alias)
    case None => if f.default.Some? then Ok(f.default.value) else Err(Missing(f.name))
    case Some(x) =>
      if x.NoneV? then (if f.nullable then Ok(NoneV) else Err(WrongType(f.name)))
      else
        GetSize(es, f.alias);
        var r := Check(reg, f.kind, x);
        if r.Ok? then r else Err(WrongType(f.name))
  }

  function ValidateFields(reg: Registry, specs: seq<FieldSpec>, es: seq<Entry>): Result<seq<Entry>, Failure>
    decreases 1 + DataclassDict.SizeEntries(es), 1, |specs|
  {
    if specs == [] then Ok([])
    else
      var head := FieldResult(reg, specs[0], es);
      if head.Err? then Err(head.error)
      else
        var rest := ValidateFields(reg, specs[1..], es);
        if rest.Err? then rest else Ok([Entry(specs[0].name, head.value)] + rest.value)
  }

  function Names(specs: seq<FieldSpec>): (ns: seq<string>)
    ensures |ns| == |specs| && forall i :: 0 <= i < |specs| ==> ns[i] == specs[i].name
  {
    seq(|specs|, i requires 0 <= i < |specs| => specs[i].name)
  }

  /** Validation succeeds exactly when every field takes a value, and then the
      instance holds, in declaration order, each field's value. */
  lemma {:induction false} ValidateFieldsAt(reg: Registry, specs: seq<FieldSpec>, es: seq<Entry>)
    ensures ValidateFields(reg, specs, es).Ok? <==> forall i :: 0 <= i < |specs| ==> FieldResult(reg, specs[i], es).Ok?
    ensures ValidateFields(reg, specs, es).Ok? ==>
      var r := ValidateFields(reg, specs, es).value;
      && |r| == |specs|
      && forall i :: 0 <= i < |specs| ==> r[i] == Entry(specs[i].name, FieldResult(reg, specs[i], es).value)
  {
    if specs != [] {
      ValidateFieldsAt(reg, specs[1..], es);
      assert forall i :: 1 <= i < |specs| ==> specs[1..][i - 1] == specs[i];
      if FieldResult(reg, specs[0], es).Ok? && ValidateFields(reg, specs[1..], es).Ok? {
        var r := ValidateFields(reg, specs, es).value;
        assert r == [Entry(specs[0].name, FieldResult(reg, specs[0], es).value)] + ValidateFields(reg, specs[1..], es).value;
      }
    }
  }

  /** Every required field's input key is present. */
  predicate RequiredPresent(sc: Schema, es: seq<Entry>) {
    forall i :: 0 <= i < |sc.fields| && sc.fields[i].default.None? ==> HasKey(es, sc.fields[i].alias)
  }

  /** A successful validation had an object with every required key, and
      builds an instance with the schema's field names in order. */
  lemma ValidateShape(reg: Registry, sc: Schema, v: Value)
    ensures Validate(reg, sc, v).Ok? ==>
      && v.DictV? && RequiredPresent(sc, v.entries)
      && Validate(reg, sc, v).value.Record? && Keys(Validate(reg, sc, v).value.fields) == Names(sc.fields)
  {
    if v.DictV? {
      ValidateFieldsAt(reg, sc.fields, v.entries);
      if Validate(reg, sc, v).Ok? {
        forall i | 0 <= i < |sc.fields| && sc.fields[i].default.None?
          ensures HasKey(v.entries, sc.fields[i].alias)
        {
          assert FieldResult(reg, sc.fields[i], v.entries).Ok?;
        }
      }
    }
  }

  /** Field i of a successful validation holds: the default when its key is
      absent; `None` when the key holds `None` and the field accepts it; the
      checked value otherwise. A missing required key fails validation. */
  lemma FieldRule(reg: Registry, sc: Schema, es: seq<Entry>, i: nat)
    requires i < |sc.fields|
    ensures var f := sc.fields[i];
      && (!HasKey(es, f.alias) && f.default.None? ==> Validate(reg, sc, DictV(es)).Err?)
      && (Validate(reg, sc, DictV(es)).Ok? ==>
            var inst := Validate(reg, sc, DictV(es)).value;
            && inst.Record? && |inst.fields| == |sc.fields| && FieldResult(reg, f, es).Ok?
            && inst.fields[i] == Entry(f.name, FieldResult(reg, f, es).value)
            && (!HasKey(es, f.alias) ==> FieldResult(reg, f, es).value == f.default.value))
  {
    ValidateFieldsAt(reg, sc.fields, es);
  }

  /** A missing key of a field without a default fails validation. */
  lemma RequiredMissing(reg: Registry, sc: Schema, es: seq<Entry>, i: nat)
    requires i < |sc.fields| && sc.fields[i].default.None? && !HasKey(es, sc.fields[i].alias)
    ensures Validate(reg, sc, DictV(es)).Err?
  {
    FieldRule(reg, sc, es, i);
  }

  /** An object whose first field takes a value and which holds none of the
      other keys validates, when all the other fields have defaults. */
  lemma FirstGivenRestDefaulted(reg: Registry, sc: Schema, es: seq<Entry>)
    requires sc.fields != [] && FieldResult(reg, sc.fields[0], es).Ok?
    requires forall i :: 1 <= i < |sc.fields| ==> sc.fields[i].default.Some? && !HasKey(es, sc.fields[i].alias)
    ensures Validate(reg, sc, DictV(es)).Ok?
  {
    ValidateFieldsAt(reg, sc.fields, es);
    forall i | 0 <= i < |sc.fields| ensures FieldResult(reg, sc.fields[i], es).Ok? {
    }
  }

  /** An object holding only the first field's key validates when every
      later field has a default and another key. */
  lemma OnlyFirstGiven(reg: Registry, sc: Schema, e: Entry)
    requires sc.fields != [] && FieldResult(reg, sc.fields[0], [e]).Ok?
    requires forall i :: 0 <= i < |sc.fields[1..]| ==> sc.fields[1..][i].default.Some? && sc.fields[1..][i].alias != e.key
    ensures Validate(reg, sc, DictV([e])).Ok?
  {
    assert Keys([e]) == [e.key];
    forall i | 1 <= i < |sc.fields| ensures sc.fields[i].default.Some? && !HasKey([e], sc.fields[i].alias) {
      assert sc.fields[1..][i - 1] == sc.fields[i];
    }
    FirstGivenRestDefaulted(reg, sc, [e]);
  }

  // ---------------------------------------------------------------- dumping

  /** `model_dump(exclude_none=…)` of a validated value: instances become
      dicts keyed by field name, fields holding `None` are dropped when
      `excludeNone`, lists are dumped item by item, anything else is copied. */
  function Dump(v: Value, excludeNone: bool): Value
    decreases DataclassDict.Size(v), 1
  {
    match v
    case Record(fs) => DictV(DumpFields(fs, excludeNone))
    case ListV(items) => ListV(DumpAll(items, excludeNone))
    case _ => v
  }

  function DumpFields(fs: seq<Entry>, excludeNone: bool): seq<Entry>
    decreases DataclassDict.SizeEntries(fs), 2
  {
    if fs == [] then []
    else
      var last := fs[|fs| - 1];
      DumpFields(fs[..|fs| - 1], excludeNone)
      + (if excludeNone && last.val.NoneV? then [] else [Entry(last.key, Dump(last.val, excludeNone))])
  }

  function DumpAll(items: seq<Value>, excludeNone: bool): (r: seq<Value>)
    ensures |r| == |items|
    decreases DataclassDict.SizeList(items), 2
  {
    if items == [] then []
    else DumpAll(items[..|items| - 1], excludeNone) + [Dump(items[|items| - 1], excludeNone)]
  }

  /** A dumped instance has only field names as keys, and a field is present
      exactly when it does not hold `None` (or `None`s are kept); present fields
      hold their dumped value. */
  lemma {:induction false} DumpedField(fs: seq<Entry>, excludeNone: bool, i: nat)
    requires UniqueKeys(fs) && i < |fs|
    ensures excludeNone && fs[i].val.NoneV? ==> !HasKey(DumpFields(fs, excludeNone), fs[i].key)
    ensures !(excludeNone && fs[i].val.NoneV?) ==>
              Get(DumpFields(fs, excludeNone), fs[i].key) == Some(Dump(fs[i].val, excludeNone))
    decreases |fs|
  {
    var init := fs[..|fs| - 1];
    var last := fs[|fs| - 1];
    var tail := if excludeNone && last.val.NoneV? then [] else [Entry(last.key, Dump(last.val, excludeNone))];
    assert DumpFields(fs, excludeNone) == DumpFields(init, excludeNone) + tail;
    GetAppend(DumpFields(init, excludeNone), tail, fs[i].key);
    assert Keys(tail) == if tail == [] then [] else [last.key];
    if i < |fs| - 1 {
      UniqueInit(fs);
      assert init[i] == fs[i];
      DumpedField(init, excludeNone, i);
      assert fs[i].key != last.key;
    } else {
      DumpKeysAmong(init, excludeNone, last.key);
      LastKeyFresh(fs);
    }
  }

  lemma UniqueInit(fs: seq<Entry>)
    requires fs != [] && UniqueKeys(fs)
    ensures UniqueKeys(fs[..|fs| - 1])
  {
    var init := fs[..|fs| - 1];
    forall a, b | 0 <= a < b < |init| ensures init[a].key != init[b].key {
      assert init[a] == fs[a] && init[b] == fs[b];
    }
  }

  /** Every key of a dump is a field name. */
  lemma {:induction false} DumpKeysAmong(fs: seq<Entry>, excludeNone: bool, k: string)
    ensures HasKey(DumpFields(fs, excludeNone), k) ==> HasKey(fs, k)
    decreases |fs|
  {
    if fs != [] {
      var init := fs[..|fs| - 1];
      var last := fs[|fs| - 1];
      var tail := if excludeNone && last.val.NoneV? then [] else [Entry(last.key, Dump(last.val, excludeNone))];
      GetAppend(DumpFields(init, excludeNone), tail, k);
      DumpKeysAmong(init, excludeNone, k);
      KeysAppend(init, [last]);
      assert fs == init + [last];
    }
  }
  /** A field that is not dropped appears in the dump, whether or not the
      field names are distinct. */
  lemma {:induction false} DumpHasField(fs: seq<Entry>, excludeNone: bool, i: nat)
    requires i < |fs| && !(excludeNone && fs[i].val.NoneV?)
    ensures HasKey(DumpFields(fs, excludeNone), fs[i].key)
    decreases |fs|
  {
    var init := fs[..|fs| - 1];
    var last := fs[|fs| - 1];
    var tail := if excludeNone && last.val.NoneV? then [] else [Entry(last.key, Dump(last.val, excludeNone))];
    assert DumpFields(fs, excludeNone) == DumpFields(init, excludeNone) + tail;
    GetAppend(DumpFields(init, excludeNone), tail, fs[i].key);
    if i < |fs| - 1 {
      assert init[i] == fs[i];
      DumpHasField(init, excludeNone, i);
    } else {
      assert tail[0].key == fs[i].key;
    }
  }
  /** The first field with a given name that is not dropped is what the dump
      holds under that name. */
  lemma {:induction false} DumpFirstField(fs: seq<Entry>, excludeNone: bool, i: nat)
    requires i < |fs| && !(excludeNone && fs[i].val.NoneV?)
    requires forall j :: 0 <= j < i ==> fs[j].key != fs[i].key
    ensures Get(DumpFields(fs, excludeNone), fs[i].key) == Some(Dump(fs[i].val, excludeNone))
    decreases |fs|
  {
    var init := fs[..|fs| - 1];
    var last := fs[|fs| - 1];
    var tail := if excludeNone && last.val.NoneV? then [] else [Entry(last.key, Dump(last.val, excludeNone))];
    assert DumpFields(fs, excludeNone) == DumpFields(init, excludeNone) + tail;
    GetAppend(DumpFields(init, excludeNone), tail, fs[i].key);
    if i < |fs| - 1 {
      assert init[i] == fs[i];
      DumpFirstField(init, excludeNone, i);
    } else {
      DumpKeysAmong(init, excludeNone, fs[i].key);
      assert !HasKey(init, fs[i].key) by {
        forall j | 0 <= j < |init| ensures Keys(init)[j] != fs[i].key {
          assert init[j] == fs[j];
        }
      }
    }
  }

  /** A nested model that is the first field of its name is dumped as an
      object under that name. */
  lemma DumpRecordField(fs: seq<Entry>, i: nat)
    requires i < |fs| && fs[i].val.Record?
    requires forall j :: 0 <= j < i ==> fs[j].key != fs[i].key
    ensures Dump(Record(fs), true).DictV?
    ensures HasKey(Dump(Record(fs), true).entries, fs[i].key)
    ensures Get(Dump(Record(fs), true).entries, fs[i].key).value.DictV?
  {
    DumpFirstField(fs, true, i);
  }

  /** An object without any of the keys validates when every field has a
      default, and the instance holds the defaults. */
  lemma AllDefaults(reg: Registry, sc: Schema, es: seq<Entry>)
    requires forall i :: 0 <= i < |sc.fields| ==> sc.fields[i].default.Some? && !HasKey(es, sc.fields[i].alias)
    ensures Validate(reg, sc, DictV(es)).Ok?
    ensures var fs := Validate(reg, sc, DictV(es)).value.fields;
      && |fs| == |sc.fields|
      && forall i :: 0 <= i < |sc.fields| ==> fs[i] == Entry(sc.fields[i].name, sc.fields[i].default.value)
  {
    ValidateFieldsAt(reg, sc.fields, es);
  }
  /** Dumping one more field appends that field's dump, unless it is dropped. */
  lemma DumpFieldsSnoc(fs: seq<Entry>, e: Entry, excludeNone: bool)
    ensures DumpFields(fs + [e], excludeNone)
            == DumpFields(fs, excludeNone) + (if excludeNone && e.val.NoneV? then [] else [Entry(e.key, Dump(e.val, excludeNone))])
  {
    assert (fs + [e])[..|fs|] == fs;
  }

  /** A schema of two fields validates exactly when both fields do. */
  lemma TwoFields(reg: Registry, sc: Schema, es: seq<Entry>)
    requires |sc.fields| == 2
    ensures Validate(reg, sc, DictV(es)).Ok? <==>
      FieldResult(reg, sc.fields[0], es).Ok? && FieldResult(reg, sc.fields[1], es).Ok?
  {
    ValidateFieldsAt(reg, sc.fields, es);
  }
  /** A required field without `None` of a scalar or pattern kind takes a
      value exactly when its key holds a value of that kind, and takes that
      value. */
  lemma ScalarField(reg: Registry, f: FieldSpec, es: seq<Entry>)
    requires f.default.None? && !f.nullable
    requires f.kind == KStr || f.kind == KInt || f.kind == KBool || f.kind.KOneOf?
    ensures FieldResult(reg, f, es).Ok? <==>
      && Get(es, f.alias).Some?
      && match f.kind
         case KStr => Get(es, f.alias).value.StrV?
         case KInt => Get(es, f.alias).value.IntV?
         case KBool => Get(es, f.alias).value.BoolV?
         case KOneOf(opts) => Get(es, f.alias).value.StrV? && Get(es, f.alias).value.s in opts
         case _ => false
    ensures FieldResult(reg, f, es).Ok? ==> FieldResult(reg, f, es).value == Get(es, f.alias).value
  {
  }

  /** When the first n fields take a value and the others have defaults and
      are absent, validation succeeds and the others hold their defaults. */
  lemma PresentThenDefaults(reg: Registry, sc: Schema, es: seq<Entry>, n: nat)
    requires n <= |sc.fields|
    requires forall i :: 0 <= i < n ==> FieldResult(reg, sc.fields[i], es).Ok?
    requires forall i :: n <= i < |sc.fields| ==> sc.fields[i].default.Some? && !HasKey(es, sc.fields[i].alias)
    ensures Validate(reg, sc, DictV(es)).Ok?
    ensures var fs := Validate(reg, sc, DictV(es)).value.fields;
      && |fs| == |sc.fields|
      && (forall i :: 0 <= i < n ==> fs[i] == Entry(sc.fields[i].name, FieldResult(reg, sc.fields[i], es).value))
      && forall i :: n <= i < |sc.fields| ==> fs[i] == Entry(sc.fields[i].name, sc.fields[i].default.value)
  {
    ValidateFieldsAt(reg, sc.fields, es);
  }
  /** A required string field whose key holds a string takes that string. */
  lemma StrFieldOk(reg: Registry, name: string, es: seq<Entry>)
    requires Get(es, name).Some? && Get(es, name).value.StrV?
    ensures FieldResult(reg, Req(name, KStr), es) == Ok(Get(es, name).value)
  {
  }

  /** A required integer field whose key holds an integer takes it. */
  lemma IntFieldOk(reg: Registry, name: string, es: seq<Entry>)
    requires Get(es, name).Some? && Get(es, name).value.IntV?
    ensures FieldResult(reg, Req(name, KInt), es) == Ok(Get(es, name).value)
  {
  }
  /** The instance fields an object without any of the keys gets: every
      default in order, or the first field that has none. */
  function DefaultsOf(specs: seq<FieldSpec>): Result<seq<Entry>, Failure> {
    if specs == [] then Ok([])
    else if specs[0].default.None? then Err(Missing(specs[0].name))
    else
      var rest := DefaultsOf(specs[1..]);
      if rest.Err? then rest else Ok([Entry(specs[0].name, specs[0].default.value)] + rest.value)
  }

  /** An object holding none of the fields' keys validates to the defaults. */
  lemma {:induction false} NoKeys(reg: Registry, specs: seq<FieldSpec>, es: seq<Entry>)
    requires forall i :: 0 <= i < |specs| ==> !HasKey(es, specs[i].alias)
    ensures ValidateFields(reg, specs, es) == DefaultsOf(specs)
  {
    if specs != [] {
      assert forall i :: 1 <= i < |specs| ==> specs[1..][i - 1] == specs[i];
      NoKeys(reg, specs[1..], es);
    }
  }
  /** A nested-model field that holds something other than `None` holds an
      instance. */
  lemma ModelFieldRecord(reg: Registry, f: FieldSpec, es: seq<Entry>)
    requires f.kind.KModel? && FieldResult(reg, f, es).Ok?
    requires HasKey(es, f.alias) && !Get(es, f.alias).value.NoneV?
    ensures FieldResult(reg, f, es).value.Record?
  {
    ValidateShape(reg, reg(f.kind.model), Get(es, f.alias).value);
  }
  /** A required boolean field: a missing key is rejected, and a validated
      object holds the input's boolean there. */
  lemma RequiredBoolField(reg: Registry, sc: Schema, es: seq<Entry>, i: nat)
    requires i < |sc.fields| && sc.fields[i] == Req(sc.fields[i].name, KBool)
    ensures !HasKey(es, sc.fields[i].name) ==> Validate(reg, sc, DictV(es)).Err?
    ensures Validate(reg, sc, DictV(es)).Ok? ==>
      var fs := Validate(reg, sc, DictV(es)).value.fields;
      && |fs| == |sc.fields| && HasKey(es, sc.fields[i].name)
      && fs[i] == Entry(sc.fields[i].name, Get(es, sc.fields[i].name).value) && fs[i].val.BoolV?
  {
    FieldRule(reg, sc, es, i);
  }

  /** A non-nullable model field with an instance as default: an explicit
      `None` is rejected, and a validated object holds an instance there,
      the default one when the key is absent. */
  lemma ModelFieldAt(reg: Registry, sc: Schema, es: seq<Entry>, i: nat)
    requires i < |sc.fields| && sc.fields[i].kind.KModel? && !sc.fields[i].nullable
    requires sc.fields[i].default.Some? && sc.fields[i].default.value.Record?
    ensures HasKey(es, sc.fields[i].alias) && Get(es, sc.fields[i].alias) == Some(NoneV) ==>
      Validate(reg, sc, DictV(es)).Err?
    ensures Validate(reg, sc, DictV(es)).Ok? ==>
      var fs := Validate(reg, sc, DictV(es)).value.fields;
      && |fs| == |sc.fields| && fs[i].key == sc.fields[i].name && fs[i].val.Record?
      && (!HasKey(es, sc.fields[i].alias) ==> fs[i].val == sc.fields[i].default.value)
  {
    var f := sc.fields[i];
    FieldRule(reg, sc, es, i);
    if FieldResult(reg, f, es).Ok? && HasKey(es, f.alias) && !Get(es, f.alias).value.NoneV? {
      ModelFieldRecord(reg, f, es);
    }
  }

  /** An empty object validates to the defaults, when every field has one. */
  lemma ValidateEmpty(reg: Registry, sc: Schema)
    requires DefaultsOf(sc.fields).Ok?
    ensures Validate(reg, sc, DictV([])) == Ok(Record(DefaultsOf(sc.fields).value))
  {
    NoKeys(reg, sc.fields, []);
  }

  lemma DefaultsOfCons(f: FieldSpec, rest: seq<FieldSpec>)
    requires f.default.Some? && DefaultsOf(rest).Ok?
    ensures DefaultsOf([f] + rest) == Ok([Entry(f.name, f.default.value)] + DefaultsOf(rest).value)
  {
    assert ([f] + rest)[1..] == rest;
  }
}
