/** `_dataclass_to_dict` (src/gladiapy/v2/ws.py:47-94): the recursive converter
    from a tree of dataclass instances to plain dicts and lists that the
    session request is serialised with. `Convert` is its specification;
    `DataclassToDict` is the looping procedure of the source, proved equal to it. */
module DataclassDict {
  import opened Wrappers
  import opened PyValue

  /** A size for every value, so that the mutually recursive definitions below
      terminate. Every value has size at least 1. */
  function Size(v: Value): (n: nat)
    ensures n >= 1
  {
    match v
    case ListV(items) => 1 + SizeList(items)
    case DictV(es) => 1 + SizeEntries(es)
    case Record(fs) => 1 + SizeEntries(fs)
    case _ => 1
  }

  function SizeList(items: seq<Value>): nat {
    if items == [] then 0 else SizeList(items[..|items| - 1]) + Size(items[|items| - 1])
  }

  function SizeEntries(es: seq<Entry>): nat {
    if es == [] then 0 else SizeEntries(es[..|es| - 1]) + Size(es[|es| - 1].val)
  }

  lemma {:induction false} SizeListBound(items: seq<Value>, i: nat)
    requires i < |items|
    ensures Size(items[i]) <= SizeList(items)
    ensures SizeList(items[..i]) + Size(items[i]) <= SizeList(items)
    decreases |items|
  {
    if i < |items| - 1 {
      SizeListBound(items[..|items| - 1], i);
      assert items[..|items| - 1][..i] == items[..i];
    } else {
      assert items[..|items| - 1] == items[..i];
    }
  }

  lemma {:induction false} SizeEntriesBound(es: seq<Entry>, i: nat)
    requires i < |es|
    ensures Size(es[i].val) <= SizeEntries(es)
    decreases |es|
  {
    if i < |es| - 1 {
      SizeEntriesBound(es[..|es| - 1], i);
    }
  }

  /** Whether a dataclass field survives: `None` values (when excluding
      `None`) and empty lists (likewise) are dropped, everything else is kept,
      including `False`, `0`, `""` and empty dicts. */
  predicate Kept(v: Value, excludeNone: bool) {
    !(excludeNone && (v.NoneV? || v == ListV([])))
  }

  /** `_dataclass_to_dict(obj, exclude_none)` */
  function Convert(obj: Value, excludeNone: bool): (r: Value)
    decreases Size(obj), 0
  {
    match obj
    case Record(fs) => DictV(Fill(fs, excludeNone))
    case ListV(items) => ListV(ConvertAll(items, excludeNone))
    case DictV(es) => DictV(ConvertEntries(es, excludeNone))
    case _ => obj
  }

  /** `[_dataclass_to_dict(item, exclude_none) for item in obj]` */
  function ConvertAll(items: seq<Value>, excludeNone: bool): (r: seq<Value>)
    decreases SizeList(items), 1
  {
    if items == [] then []
    else ConvertAll(items[..|items| - 1], excludeNone) + [Convert(items[|items| - 1], excludeNone)]
  }

  /** `{k: _dataclass_to_dict(v, exclude_none) for k, v in d.items()}` */
  function ConvertEntries(es: seq<Entry>, excludeNone: bool): (r: seq<Entry>)
    decreases SizeEntries(es), 1
  {
    if es == [] then []
    else
      var last := es[|es| - 1];
      ConvertEntries(es[..|es| - 1], excludeNone) + [Entry(last.key, Convert(last.val, excludeNone))]
  }

  /** The list built for a list-valued field: dataclass items are converted,
      every other item is copied unchanged (not converted). */
  function ShallowItems(items: seq<Value>, excludeNone: bool): (r: seq<Value>)
    decreases SizeList(items), 1
  {
    if items == [] then []
    else
      var last := items[|items| - 1];
      ShallowItems(items[..|items| - 1], excludeNone) + [if last.Record? then Convert(last, excludeNone) else last]
  }

  /** What one field of a dataclass contributes to the result: `None` when the
      field is skipped. */
  function FieldValue(v: Value, excludeNone: bool): (r: Option<Value>)
    decreases Size(v), 1
  {
    if excludeNone && v.NoneV? then None
    else match v
      case Record(_) => Some(Convert(v, excludeNone))
      case ListV(items) =>
        var converted := ShallowItems(items, excludeNone);
        if converted != [] || !excludeNone then Some(ListV(converted)) else None
      case DictV(es) => Some(DictV(ConvertEntries(es, excludeNone)))
      case _ => Some(v)
  }

  /** The result dict after the loop has visited the fields `fs`, in order. */
  function Fill(fs: seq<Entry>, excludeNone: bool): (r: seq<Entry>)
    decreases SizeEntries(fs), 2
  {
    if fs == [] then []
    else
      var acc := Fill(fs[..|fs| - 1], excludeNone);
      var f := fs[|fs| - 1];
      match FieldValue(f.val, excludeNone)
      case None => acc
      case Some(x) => Set(acc, f.key, x)
  }

  /** One more field visited by the fill loop. */
  lemma FillStep(fs: seq<Entry>, i: nat, excludeNone: bool)
    requires i < |fs|
    ensures Fill(fs[..i + 1], excludeNone) ==
      match FieldValue(fs[i].val, excludeNone)
      case None => Fill(fs[..i], excludeNone)
      case Some(x) => Set(Fill(fs[..i], excludeNone), fs[i].key, x)
  {
    assert fs[..i + 1][..i] == fs[..i];
  }

  // ---------------------------------------------------------------------------
  // The procedure, as the source writes it: a loop over the fields that fills
  // `result`, and an inner loop that builds `converted_list`.

  method DataclassToDict(obj: Value, excludeNone: bool) returns (r: Value)
    ensures r == Convert(obj, excludeNone)
    decreases Size(obj), 0
  {
    match obj {
      case Record(fs) =>
        var result := FieldsToDict(fs, excludeNone);
        r := DictV(result);
      case ListV(items) =>
        var out := ItemsToList(items, excludeNone);
        r := ListV(out);
      case DictV(es) =>
        var out := EntriesToDict(es, excludeNone);
        r := DictV(out);
      case _ =>
        r := obj;
    }
  }

  /** The body of the loop over `fields(obj)`. */
  method FieldsToDict(fs: seq<Entry>, excludeNone: bool) returns (result: seq<Entry>)
    ensures result == Fill(fs, excludeNone)
    decreases SizeEntries(fs), 2
  {
    result := [];
    var i := 0;
    while i < |fs|
      invariant 0 <= i <= |fs|
      invariant result == Fill(fs[..i], excludeNone)
    {
      var name, value := fs[i].key, fs[i].val;
      FillStep(fs, i, excludeNone);
      SizeEntriesBound(fs, i);
      if excludeNone && value.NoneV? {
        i := i + 1;
        continue;
      }
      if value.Record? {
        var d := DataclassToDict(value, excludeNone);
        result := Set(result, name, d);
      } else if value.ListV? {
        var convertedList := CopyListField(value.items, excludeNone);
        if convertedList != [] || !excludeNone {
          result := Set(result, name, ListV(convertedList));
        }
      } else if value.DictV? {
        var d := EntriesToDict(value.entries, excludeNone);
        result := Set(result, name, DictV(d));
      } else {
        result := Set(result, name, value);
      }
      i := i + 1;
    }
    assert fs[..i] == fs;
  }

  /** The loop that builds `converted_list` for a list-valued field. */
  method CopyListField(items: seq<Value>, excludeNone: bool) returns (convertedList: seq<Value>)
    ensures convertedList == ShallowItems(items, excludeNone)
    decreases SizeList(items), 1
  {
    convertedList := [];
    var j := 0;
    while j < |items|
      invariant 0 <= j <= |items|
      invariant convertedList == ShallowItems(items[..j], excludeNone)
    {
      assert items[..j + 1][..j] == items[..j];
      if items[j].Record? {
        SizeListBound(items, j);
        var d := DataclassToDict(items[j], excludeNone);
        convertedList := convertedList + [d];
      } else {
        convertedList := convertedList + [items[j]];
      }
      j := j + 1;
    }
    assert items[..j] == items;
  }

  /** `[_dataclass_to_dict(item, exclude_none) for item in obj]` */
  method ItemsToList(items: seq<Value>, excludeNone: bool) returns (out: seq<Value>)
    ensures out == ConvertAll(items, excludeNone)
    decreases SizeList(items), 1
  {
    out := [];
    var j := 0;
    while j < |items|
      invariant 0 <= j <= |items|
      invariant out == ConvertAll(items[..j], excludeNone)
    {
      assert items[..j + 1][..j] == items[..j];
      SizeListBound(items, j);
      var d := DataclassToDict(items[j], excludeNone);
      out := out + [d];
      j := j + 1;
    }
    assert items[..j] == items;
  }

  /** `{k: _dataclass_to_dict(v, exclude_none) for k, v in obj.items()}` */
  method EntriesToDict(es: seq<Entry>, excludeNone: bool) returns (out: seq<Entry>)
    ensures out == ConvertEntries(es, excludeNone)
    decreases SizeEntries(es), 1
  {
    out := [];
    var j := 0;
    while j < |es|
      invariant 0 <= j <= |es|
      invariant out == ConvertEntries(es[..j], excludeNone)
    {
      assert es[..j + 1][..j] == es[..j];
      SizeEntriesBound(es, j);
      var d := DataclassToDict(es[j].val, excludeNone);
      out := out + [Entry(es[j].key, d)];
      j := j + 1;
    }
    assert es[..j] == es;
  }
  // ---------------------------------------------------------------------------
  // What the output of a dataclass looks like.

  /** The entries a dataclass produces, when its field names are distinct (as
      Python guarantees): one per kept field, in declaration order. */
  function KeptEntries(fs: seq<Entry>, excludeNone: bool): seq<Entry> {
    if fs == [] then []
    else
      var f := fs[|fs| - 1];
      KeptEntries(fs[..|fs| - 1], excludeNone)
        + (match FieldValue(f.val, excludeNone) case Some(x) => [Entry(f.key, x)] case None => [])
  }

  /** The names of the kept fields, in declaration order. */
  function KeptNames(fs: seq<Entry>, excludeNone: bool): seq<string> {
    if fs == [] then []
    else
      var f := fs[|fs| - 1];
      KeptNames(fs[..|fs| - 1], excludeNone) + (if Kept(f.val, excludeNone) then [f.key] else [])
  }

  lemma KeptNamesStep(fs: seq<Entry>, n: nat)
    requires n < |fs|
    ensures KeptNames(fs[..n + 1], true) == KeptNames(fs[..n], true) + (if Kept(fs[n].val, true) then [fs[n].key] else [])
  {
    assert fs[..n + 1][..n] == fs[..n];
  }

  /** The kept names of a concatenation are the kept names of its parts. */
  lemma {:induction false} KeptNamesAppend(a: seq<Entry>, b: seq<Entry>, excludeNone: bool)
    ensures KeptNames(a + b, excludeNone) == KeptNames(a, excludeNone) + KeptNames(b, excludeNone)
    decreases |b|
  {
    if b == [] {
      assert a + b == a;
    } else {
      var b' := b[..|b| - 1];
      assert (a + b)[..|a + b| - 1] == a + b';
      assert (a + b)[|a + b| - 1] == b[|b| - 1];
      KeptNamesAppend(a, b', excludeNone);
    }
  }

  /** The positions of the kept fields, in increasing order. */
  function KeptIndices(fs: seq<Entry>, excludeNone: bool): seq<nat> {
    if fs == [] then []
    else KeptIndices(fs[..|fs| - 1], excludeNone) + (if Kept(fs[|fs| - 1].val, excludeNone) then [|fs| - 1] else [])
  }

  /** The kept names are a subsequence of the field names: the kept fields'
      positions increase, and each kept name is the name of the kept field at
      that position. */
  lemma {:induction false} KeptNamesInOrder(fs: seq<Entry>, excludeNone: bool)
    ensures var idx, names := KeptIndices(fs, excludeNone), KeptNames(fs, excludeNone);
      && |idx| == |names|
      && (forall p, q :: 0 <= p < q < |idx| ==> idx[p] < idx[q])
      && (forall p :: 0 <= p < |idx| ==> idx[p] < |fs| && fs[idx[p]].key == names[p] && Kept(fs[idx[p]].val, excludeNone))
  {
    if fs != [] {
      var pre := fs[..|fs| - 1];
      KeptNamesInOrder(pre, excludeNone);
      var idx := KeptIndices(pre, excludeNone);
      forall p | 0 <= p < |idx| ensures fs[idx[p]] == pre[idx[p]] { }
    }
  }

  lemma {:induction false} ShallowItemsAt(items: seq<Value>, excludeNone: bool)
    ensures |ShallowItems(items, excludeNone)| == |items|
    ensures forall j :: 0 <= j < |items| ==>
      ShallowItems(items, excludeNone)[j] == if items[j].Record? then Convert(items[j], excludeNone) else items[j]
  {
    if items != [] {
      ShallowItemsAt(items[..|items| - 1], excludeNone);
    }
  }

  /** A field is dropped exactly when `Kept` says so. */
  lemma FieldValueKept(v: Value, excludeNone: bool)
    ensures FieldValue(v, excludeNone).Some? <==> Kept(v, excludeNone)
  {
    if v.ListV? {
      ShallowItemsAt(v.items, excludeNone);
    }
  }

  lemma {:induction false} KeptEntriesKeys(fs: seq<Entry>, excludeNone: bool)
    ensures Keys(KeptEntries(fs, excludeNone)) == KeptNames(fs, excludeNone)
  {
    if fs != [] {
      var p, f := fs[..|fs| - 1], fs[|fs| - 1];
      KeptEntriesKeys(p, excludeNone);
      FieldValueKept(f.val, excludeNone);
      var tail := match FieldValue(f.val, excludeNone) case Some(x) => [Entry(f.key, x)] case None => [];
      KeysAppend(KeptEntries(p, excludeNone), tail);
    }
  }

  lemma {:induction false} KeptNamesAreNames(fs: seq<Entry>, excludeNone: bool)
    ensures forall k :: k in KeptNames(fs, excludeNone) ==> k in Keys(fs)
  {
    if fs != [] {
      var p := fs[..|fs| - 1];
      KeptNamesAreNames(p, excludeNone);
      forall k | k in Keys(p) ensures k in Keys(fs) {
        var j :| 0 <= j < |p| && Keys(p)[j] == k;
        assert Keys(fs)[j] == k;
      }
      assert Keys(fs)[|fs| - 1] == fs[|fs| - 1].key;
    }
  }

  lemma {:induction false} KeptEntriesGet(fs: seq<Entry>, excludeNone: bool)
    requires UniqueKeys(fs)
    ensures forall i :: 0 <= i < |fs| ==>
      Get(KeptEntries(fs, excludeNone), fs[i].key) == FieldValue(fs[i].val, excludeNone)
  {
    if fs != [] {
      var p := fs[..|fs| - 1];
      assert UniqueKeys(p);
      KeptEntriesGet(p, excludeNone);
      forall i | 0 <= i < |fs|
        ensures Get(KeptEntries(fs, excludeNone), fs[i].key) == FieldValue(fs[i].val, excludeNone)
      {
        if i < |fs| - 1 {
          assert p[i] == fs[i];
        }
        KeptEntriesGetAt(fs, excludeNone, i);
      }
    }
  }

  /** One step of `KeptEntriesGet`: the lookup of field i in the kept entries
      of all fields, given the lookup in the kept entries of all but the last. */
  lemma KeptEntriesGetAt(fs: seq<Entry>, excludeNone: bool, i: nat)
    requires UniqueKeys(fs) && i < |fs|
    requires i < |fs| - 1 ==>
      Get(KeptEntries(fs[..|fs| - 1], excludeNone), fs[i].key) == FieldValue(fs[i].val, excludeNone)
    ensures Get(KeptEntries(fs, excludeNone), fs[i].key) == FieldValue(fs[i].val, excludeNone)
  {
    var p, f := fs[..|fs| - 1], fs[|fs| - 1];
    var tail := match FieldValue(f.val, excludeNone) case Some(x) => [Entry(f.key, x)] case None => [];
    assert KeptEntries(fs, excludeNone) == KeptEntries(p, excludeNone) + tail;
    GetAppend(KeptEntries(p, excludeNone), tail, fs[i].key);
    if i == |fs| - 1 {
      KeptEntriesKeys(p, excludeNone);
      KeptNamesAreNames(p, excludeNone);
      LastKeyFresh(fs);
    } else {
      assert fs[i].key != f.key;
    }
  }

  /** With distinct field names, the fill loop only ever appends. */
  lemma {:induction false} FillIsKeptEntries(fs: seq<Entry>, excludeNone: bool)
    requires UniqueKeys(fs)
    ensures Fill(fs, excludeNone) == KeptEntries(fs, excludeNone)
  {
    if fs != [] {
      var p, f := fs[..|fs| - 1], fs[|fs| - 1];
      assert UniqueKeys(p);
      FillIsKeptEntries(p, excludeNone);
      KeptEntriesKeys(p, excludeNone);
      KeptNamesAreNames(p, excludeNone);
      LastKeyFresh(fs);
    }
  }

  lemma {:induction false} KeptNamesMembers(fs: seq<Entry>, excludeNone: bool, k: string)
    ensures k in KeptNames(fs, excludeNone) <==>
      exists i :: 0 <= i < |fs| && fs[i].key == k && Kept(fs[i].val, excludeNone)
  {
    if fs != [] {
      var p := fs[..|fs| - 1];
      KeptNamesMembers(p, excludeNone, k);
      if k in KeptNames(p, excludeNone) {
        var i :| 0 <= i < |p| && p[i].key == k && Kept(p[i].val, excludeNone);
        assert fs[i] == p[i];
      }
      if exists i :: 0 <= i < |fs| && fs[i].key == k && Kept(fs[i].val, excludeNone) {
        var i :| 0 <= i < |fs| && fs[i].key == k && Kept(fs[i].val, excludeNone);
        if i < |p| { assert p[i] == fs[i]; }
      }
    }
  }

  /** The conversion of a dataclass whose field names are distinct: a dict
      whose keys are the kept field names in declaration order (so a
      subsequence of the field names), where a key is present exactly when
      some field of that name is kept, and each kept field maps to its
      converted value. */
  lemma RecordToDict(fs: seq<Entry>, excludeNone: bool)
    requires UniqueKeys(fs)
    ensures Convert(Record(fs), excludeNone).DictV?
    ensures Keys(Convert(Record(fs), excludeNone).entries) == KeptNames(fs, excludeNone)
    ensures forall k :: HasKey(Convert(Record(fs), excludeNone).entries, k) <==>
      exists i :: 0 <= i < |fs| && fs[i].key == k && Kept(fs[i].val, excludeNone)
    ensures forall i :: 0 <= i < |fs| ==>
      Get(Convert(Record(fs), excludeNone).entries, fs[i].key) == FieldValue(fs[i].val, excludeNone)
  {
    FillIsKeptEntries(fs, excludeNone);
    assert Convert(Record(fs), excludeNone) == DictV(KeptEntries(fs, excludeNone));
    KeptEntriesDict(fs, excludeNone);
  }

  /** `RecordToDict` for the kept entries themselves. */
  lemma KeptEntriesDict(fs: seq<Entry>, excludeNone: bool)
    requires UniqueKeys(fs)
    ensures Keys(KeptEntries(fs, excludeNone)) == KeptNames(fs, excludeNone)
    ensures forall k :: HasKey(KeptEntries(fs, excludeNone), k) <==>
      exists i :: 0 <= i < |fs| && fs[i].key == k && Kept(fs[i].val, excludeNone)
    ensures forall i :: 0 <= i < |fs| ==>
      Get(KeptEntries(fs, excludeNone), fs[i].key) == FieldValue(fs[i].val, excludeNone)
  {
    KeptEntriesKeys(fs, excludeNone);
    KeptEntriesGet(fs, excludeNone);
    forall k ensures HasKey(KeptEntries(fs, excludeNone), k) <==>
      exists i :: 0 <= i < |fs| && fs[i].key == k && Kept(fs[i].val, excludeNone)
    {
      KeptNamesMembers(fs, excludeNone, k);
    }
  }

  /** The omission rules field by field: with `exclude_none`, a `None` field and
      an empty list field never appear; whatever the flag, `False`, an empty
      dict and any other primitive are emitted as they are, a nested dataclass
      is converted, and a non-empty list keeps its non-dataclass items
      unchanged. */
  lemma FieldRules(fs: seq<Entry>, excludeNone: bool, i: nat)
    requires UniqueKeys(fs) && i < |fs|
    ensures var out := Convert(Record(fs), excludeNone).entries;
      var k, v := fs[i].key, fs[i].val;
      && (excludeNone && v == NoneV ==> !HasKey(out, k))
      && (excludeNone && v == ListV([]) ==> !HasKey(out, k))
      && (v == DictV([]) ==> Get(out, k) == Some(DictV([])))
      && (v.BoolV? || v.IntV? || v.RealV? || v.StrV? ==> Get(out, k) == Some(v))
      && (v.Record? ==> Get(out, k) == Some(Convert(v, excludeNone)))
      && (v.ListV? && v.items != [] ==>
            Get(out, k).Some? && Get(out, k).value.ListV?
            && |Get(out, k).value.items| == |v.items|
            && forall j :: 0 <= j < |v.items| && !v.items[j].Record? ==> Get(out, k).value.items[j] == v.items[j])
  {
    RecordToDict(fs, excludeNone);
    if fs[i].val.ListV? {
      ShallowItemsAt(fs[i].val.items, excludeNone);
    }
  }

  /** Without `exclude_none` every field appears, in declaration order. */
  lemma {:induction false} KeepAllFields(fs: seq<Entry>)
    ensures KeptNames(fs, false) == Keys(fs)
  {
    if fs != [] {
      KeepAllFields(fs[..|fs| - 1]);
      assert Keys(fs) == Keys(fs[..|fs| - 1]) + [fs[|fs| - 1].key];
    }
  }
}
