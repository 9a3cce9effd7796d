/** Python objects as the SDK handles them: JSON values decoded by `json.loads`,
    dicts built by the client, and dataclass instances (records with their
    fields in declaration order). A dict is an insertion-ordered list of
    entries; lookups take the first entry with the key, and every dict the
    model builds keeps its keys unique. */
module PyValue {
  import opened Wrappers

  datatype Value =
    | NoneV
    | BoolV(b: bool)
    | IntV(i: int)
    | RealV(r: real)
    | StrV(s: string)
    | ListV(items: seq<Value>)
    | DictV(entries: seq<Entry>)
    /** A dataclass instance: its fields, in declaration order. */
    | Record(fields: seq<Entry>)

  datatype Entry = Entry(key: string, val: Value)

  /** Python's `bool(v)`. */
  predicate Truthy(v: Value) {
    match v
    case NoneV => false
    case BoolV(b) => b
    case IntV(i) => i != 0
    case RealV(r) => r != 0.0
    case StrV(s) => s != ""
    case ListV(items) => items != []
    case DictV(entries) => entries != []
    case Record(_) => true
  }

  function Keys(es: seq<Entry>): (ks: seq<string>)
    ensures |ks| == |es|
    ensures forall i :: 0 <= i < |es| ==> ks[i] == es[i].key
  {
    seq(|es|, i requires 0 <= i < |es| => es[i].key)
  }

  predicate HasKey(es: seq<Entry>, k: string) {
    k in Keys(es)
  }

  predicate UniqueKeys(es: seq<Entry>) {
    forall i, j :: 0 <= i < j < |es| ==> es[i].key != es[j].key
  }

  /** `d.get(k)`: the value of the first entry with key k. */
  function Get(es: seq<Entry>, k: string): (r: Option<Value>)
    ensures r.Some? <==> HasKey(es, k)
    ensures r.Some? ==> exists i :: 0 <= i < |es| && es[i] == Entry(k, r.value)
  {
    if es == [] then None else if es[0].key == k then Some(es[0].val) else Get(es[1..], k)
  }

  /** With distinct keys, every entry is what a lookup of its key finds. */
  lemma {:induction false} UniqueGet(es: seq<Entry>, i: nat)
    requires UniqueKeys(es) && i < |es|
    ensures Get(es, es[i].key) == Some(es[i].val)
  {
    if i > 0 {
      assert es[0].key != es[i].key;
      assert UniqueKeys(es[1..]) by {
        forall a, b | 0 <= a < b < |es[1..]| ensures es[1..][a].key != es[1..][b].key {
          assert es[1..][a] == es[a + 1] && es[1..][b] == es[b + 1];
        }
      }
      UniqueGet(es[1..], i - 1);
    }
  }

  /** Joining two dicts with distinct keys and no key in common keeps keys distinct. */
  lemma UniqueAppend(a: seq<Entry>, b: seq<Entry>)
    requires UniqueKeys(a) && UniqueKeys(b)
    requires forall k :: HasKey(a, k) ==> !HasKey(b, k)
    ensures UniqueKeys(a + b)
  {
    forall i, j | 0 <= i < j < |a + b| ensures (a + b)[i].key != (a + b)[j].key {
      if i < |a| && j >= |a| {
        assert HasKey(a, a[i].key) by { assert Keys(a)[i] == a[i].key; }
        assert HasKey(b, b[j - |a|].key) by { assert Keys(b)[j - |a|] == b[j - |a|].key; }
        assert (a + b)[i] == a[i] && (a + b)[j] == b[j - |a|];
      } else if i >= |a| {
        assert (a + b)[i] == b[i - |a|] && (a + b)[j] == b[j - |a|];
      } else {
        assert (a + b)[i] == a[i] && (a + b)[j] == a[j];
      }
    }
  }

  /** `d.get(k, default)` */
  function GetOr(es: seq<Entry>, k: string, default: Value): Value {
    Get(es, k).GetOr(default)
  }

  /** `d[k] = v`: overwrite the first entry with key k in place, or append. */
  function Set(es: seq<Entry>, k: string, v: Value): (r: seq<Entry>)
    ensures !HasKey(es, k) ==> r == es + [Entry(k, v)]
  {
    if es == [] then [Entry(k, v)]
    else if es[0].key == k then [Entry(k, v)] + es[1..]
    else [es[0]] + Set(es[1..], k, v)
  }

  /** After `d[k] = v`, k maps to v and every other key keeps its value. */
  lemma {:induction false} SetGet(es: seq<Entry>, k: string, v: Value, k': string)
    ensures Get(Set(es, k, v), k') == if k' == k then Some(v) else Get(es, k')
  {
    if es != [] && es[0].key != k {
      SetGet(es[1..], k, v, k');
      assert Set(es, k, v)[1..] == Set(es[1..], k, v);
    }
  }

  /** Overwriting an existing key keeps every key in its position. */
  lemma {:induction false} SetKeys(es: seq<Entry>, k: string, v: Value)
    requires HasKey(es, k)
    ensures Keys(Set(es, k, v)) == Keys(es)
  {
    KeysSplit(es);
    if es[0].key != k {
      SetKeys(es[1..], k, v);
      KeysCons(es[0], Set(es[1..], k, v));
    } else {
      KeysCons(Entry(k, v), es[1..]);
    }
  }

  lemma KeysCons(e: Entry, es: seq<Entry>)
    ensures Keys([e] + es) == [e.key] + Keys(es)
  {
  }

  lemma KeysSplit(es: seq<Entry>)
    requires es != []
    ensures Keys(es) == [es[0].key] + Keys(es[1..])
  {
  }

  /** `d.pop(k, None)`: every entry with key k is removed, the rest keep their order. */
  function Remove(es: seq<Entry>, k: string): (r: seq<Entry>)
    ensures !HasKey(r, k)
    ensures forall k' :: k' != k ==> Get(r, k') == Get(es, k')
    ensures |r| <= |es|
    ensures !HasKey(es, k) ==> r == es
  {
    if es == [] then []
    else if es[0].key == k then Remove(es[1..], k)
    else [es[0]] + Remove(es[1..], k)
  }

  /** The keys of `Remove(es, k)` are those of es without k, in order. */
  lemma {:induction false} RemoveKeys(es: seq<Entry>, k: string)
    ensures Keys(Remove(es, k)) == FilterOut(Keys(es), k)
  {
    if es != [] {
      RemoveKeys(es[1..], k);
      KeysSplit(es);
      if es[0].key != k {
        KeysCons(es[0], Remove(es[1..], k));
      }
    }
  }

  function FilterOut(ks: seq<string>, k: string): seq<string> {
    if ks == [] then [] else (if ks[0] == k then [] else [ks[0]]) + FilterOut(ks[1..], k)
  }

  lemma {:induction false} FilterOutAbsent(ks: seq<string>, k: string)
    requires k !in ks
    ensures FilterOut(ks, k) == ks
  {
    if ks != [] {
      FilterOutAbsent(ks[1..], k);
      assert ks == [ks[0]] + ks[1..];
    }
  }

  /** The string list a JSON `["a", "b"]` denotes, when every item is a string. */
  predicate IsStrList(v: Value) {
    v.ListV? && forall i :: 0 <= i < |v.items| ==> v.items[i].StrV?
  }

  function StrItems(v: Value): (r: seq<string>)
    requires IsStrList(v)
    ensures |r| == |v.items|
    ensures forall i :: 0 <= i < |r| ==> v.items[i] == StrV(r[i])
  {
    seq(|v.items|, i requires 0 <= i < |v.items| => v.items[i].s)
  }

  function StrList(ss: seq<string>): (v: Value)
    ensures IsStrList(v) && StrItems(v) == ss
  {
    ListV(seq(|ss|, i requires 0 <= i < |ss| => StrV(ss[i])))
  }
  /** Looking up in a concatenation: the left part wins. */
  lemma {:induction false} GetAppend(a: seq<Entry>, b: seq<Entry>, k: string)
    ensures Get(a + b, k) == if HasKey(a, k) then Get(a, k) else Get(b, k)
    ensures HasKey(a + b, k) <==> HasKey(a, k) || HasKey(b, k)
  {
    if a != [] {
      assert (a + b)[1..] == a[1..] + b;
      GetAppend(a[1..], b, k);
      assert Keys(a) == [a[0].key] + Keys(a[1..]);
    } else {
      assert a + b == b;
    }
  }

  lemma KeysAppend(a: seq<Entry>, b: seq<Entry>)
    ensures Keys(a + b) == Keys(a) + Keys(b)
  {
    assert Keys(a + b) == Keys(a) + Keys(b);
  }

  /** In a dict with unique keys, the last key does not occur earlier. */
  lemma LastKeyFresh(es: seq<Entry>)
    requires es != [] && UniqueKeys(es)
    ensures !HasKey(es[..|es| - 1], es[|es| - 1].key)
  {
    var p := es[..|es| - 1];
    forall j | 0 <= j < |p| ensures Keys(p)[j] != es[|es| - 1].key {
      assert p[j] == es[j];
    }
  }

  /** The strings `sep.join(v)` joins: a list's string items, a string's
      characters, a dict's keys; `None` when the join raises `TypeError`. */
  function JoinItems(v: Value): (r: Option<seq<string>>)
    ensures v.ListV? ==> (r.Some? <==> IsStrList(v))
    ensures r.Some? && v.StrV? ==> |r.value| == |v.s|
  {
    match v
    case ListV(_) => if IsStrList(v) then Some(StrItems(v)) else None
    case StrV(s) => Some(seq(|s|, i requires 0 <= i < |s| => [s[i]]))
    case DictV(es) => Some(Keys(es))
    case _ => None
  }
}
