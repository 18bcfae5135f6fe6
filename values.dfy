/**
 * Python values as the payload code handles them: `None`, scalars, lists, dictionaries with
 * string keys (kept in insertion order, as Python's `dict` is) and dataclass instances, which
 * are not dictionaries.
 */
module Values {
  import opened Wrappers
  import opened Ascii

  datatype Value =
    | Null
    | Bool(b: bool)
    | Int(i: int)
    | Real(r: real)
    | Str(s: string)
    | List(items: seq<Value>)
    | Dict(entries: seq<Entry>)
    | Object(className: string, fields: seq<Entry>)

  /** One `key: value` item of a dictionary, or one field of a dataclass instance. */
  datatype Entry = Entry(key: string, value: Value)

  /** The keys of a dictionary, in insertion order. */
  function Keys(es: seq<Entry>): (ks: seq<string>)
    ensures |ks| == |es|
    ensures forall i :: 0 <= i < |es| ==> ks[i] == es[i].key
    decreases |es|
  {
    if es == [] then [] else [es[0].key] + Keys(es[1..])
  }

  /** No key occurs twice, as in every Python `dict`. */
  predicate UniqueKeys(es: seq<Entry>) {
    forall i, j :: 0 <= i < j < |es| ==> es[i].key != es[j].key
  }

  /** `d.get(k)`: the value of the first entry with key `k`, or `None` when there is none. */
  function Lookup(es: seq<Entry>, k: string): (r: Option<Value>)
    ensures r.None? <==> k !in Keys(es)
    decreases |es|
  {
    if es == [] then None
    else if es[0].key == k then Some(es[0].value)
    else Lookup(es[1..], k)
  }

  /** In a dictionary with unique keys, the entry at position `i` is what its key looks up. */
  lemma {:induction false} LookupAt(es: seq<Entry>, i: int)
    requires UniqueKeys(es) && 0 <= i < |es|
    ensures Lookup(es, es[i].key) == Some(es[i].value)
    decreases |es|
  {
    if i > 0 {
      assert es[0].key != es[i].key;
      LookupAt(es[1..], i - 1);
    }
  }

  /** `d[k] = v`: an existing key keeps its position and takes the new value; a new key goes last. */
  function Put(es: seq<Entry>, k: string, v: Value): (r: seq<Entry>)
    ensures k !in Keys(es) ==> r == es + [Entry(k, v)]
    ensures k in Keys(es) ==> |r| == |es| && Keys(r) == Keys(es)
    decreases |es|
  {
    if es == [] then [Entry(k, v)]
    else if es[0].key == k then [Entry(k, v)] + es[1..]
    else [es[0]] + Put(es[1..], k, v)
  }

  /** A put changes exactly the value under `k`. */
  lemma {:induction false} PutLookup(es: seq<Entry>, k: string, v: Value)
    ensures forall x :: Lookup(Put(es, k, v), x) == if x == k then Some(v) else Lookup(es, x)
    decreases |es|
  {
    if es != [] && es[0].key != k {
      PutLookup(es[1..], k, v);
      assert ([es[0]] + Put(es[1..], k, v))[1..] == Put(es[1..], k, v);
    }
  }

  /** A put keeps the keys unique. */
  lemma PutUnique(es: seq<Entry>, k: string, v: Value)
    requires UniqueKeys(es)
    ensures UniqueKeys(Put(es, k, v))
  {
    var r := Put(es, k, v);
    forall i, j | 0 <= i < j < |r| ensures r[i].key != r[j].key {
      assert r[i].key == Keys(r)[i];
      assert r[j].key == Keys(r)[j];
      if k in Keys(es) {
        assert Keys(es)[i] == es[i].key && Keys(es)[j] == es[j].key;
      } else if j < |es| {
        assert r[i] == es[i] && r[j] == es[j];
      } else {
        assert r[i] == es[i] && Keys(es)[i] == es[i].key;
      }
    }
  }

  /** The dictionary a comprehension `{k: v for ...}` builds from its items: each item is put in
      turn, so a repeated key keeps its first position and the last value given for it. */
  function Collect(es: seq<Entry>): (r: seq<Entry>)
    decreases |es|
  {
    if es == [] then []
    else Put(Collect(es[..|es| - 1]), es[|es| - 1].key, es[|es| - 1].value)
  }

  /** The keys of a dictionary with one more item. */
  lemma KeysSnoc(es: seq<Entry>, e: Entry)
    ensures Keys(es + [e]) == Keys(es) + [e.key]
  {
  }

  /** A collected dictionary has unique keys, and they are the keys of its items. */
  lemma {:induction false} CollectKeys(es: seq<Entry>)
    ensures UniqueKeys(Collect(es))
    ensures forall x :: x in Keys(Collect(es)) <==> x in Keys(es)
    decreases |es|
  {
    if es != [] {
      var init := es[..|es| - 1];
      var last := es[|es| - 1];
      var c := Collect(init);
      CollectKeys(init);
      PutUnique(c, last.key, last.value);
      assert init + [last] == es;
      KeysSnoc(init, last);
      if last.key !in Keys(c) {
        KeysSnoc(c, Entry(last.key, last.value));
      }
    }
  }

  /** Collecting a dictionary that already has unique keys gives it back unchanged. */
  lemma {:induction false} CollectUnique(es: seq<Entry>)
    requires UniqueKeys(es)
    ensures Collect(es) == es
    decreases |es|
  {
    if es != [] {
      var init := es[..|es| - 1];
      var last := es[|es| - 1];
      assert UniqueKeys(init) by {
        forall i, j | 0 <= i < j < |init| ensures init[i].key != init[j].key {
          assert init[i] == es[i] && init[j] == es[j];
        }
      }
      CollectUnique(init);
      assert last.key !in Keys(init) by {
        forall i | 0 <= i < |init| ensures Keys(init)[i] != last.key {
          assert Keys(init)[i] == es[i].key;
        }
      }
      assert Collect(es) == init + [Entry(last.key, last.value)];
      assert init + [last] == es;
    }
  }

  /** In a collected dictionary a key holds the value of the last item that had that key. */
  lemma {:induction false} CollectLast(es: seq<Entry>, i: int)
    requires 0 <= i < |es|
    requires forall j :: i < j < |es| ==> es[j].key != es[i].key
    ensures Lookup(Collect(es), es[i].key) == Some(es[i].value)
    decreases |es|
  {
    var init := es[..|es| - 1];
    var last := es[|es| - 1];
    PutLookup(Collect(init), last.key, last.value);
    if i < |es| - 1 {
      CollectLast(init, i);
    }
  }

  /** Every dictionary, at every depth, has unique keys. */
  predicate WellFormed(v: Value)
    decreases v
  {
    match v
    case List(items) => forall i :: 0 <= i < |items| ==> WellFormed(items[i])
    case Dict(es) => UniqueKeys(es) && forall i :: 0 <= i < |es| ==> WellFormed(es[i].value)
    case _ => true
  }

  /** No dictionary key, at any depth, holds an upper-case letter; dataclass fields are not
      looked into. */
  predicate SnakeKeys(v: Value)
    decreases v
  {
    match v
    case List(items) => forall i :: 0 <= i < |items| ==> SnakeKeys(items[i])
    case Dict(es) => forall i :: 0 <= i < |es| ==> NoUpper(es[i].key) && SnakeKeys(es[i].value)
    case _ => true
  }
}
