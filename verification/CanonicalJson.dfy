/**
 * The canonical form of a JSON value that is hashed for an audit event: object keys are sorted,
 * at every depth. Keys are compared by a total preorder, `leq`: a locale's collation may put two
 * different keys in the same place.
 */
module CanonicalJson {

  datatype Json =
    | Null
    | Bool(b: bool)
    | Num(n: int)
    | Str(s: string)
    | Arr(items: seq<Json>)
    | Obj(entries: seq<Entry>)

  datatype Entry = Entry(key: string, value: Json)

  type Order = (string, string) -> bool

  ghost predicate IsPreorder(leq: Order) {
    && (forall a, b :: leq(a, b) || leq(b, a))
    && (forall a, b, c :: leq(a, b) && leq(b, c) ==> leq(a, c))
  }

  /** The two keys have no order of their own. */
  predicate Tied(leq: Order, a: string, b: string) {
    a != b && leq(a, b) && leq(b, a)
  }

  // ----- Sorting entries by key; equal keys keep their order -----

  function Insert(leq: Order, e: Entry, es: seq<Entry>): (r: seq<Entry>)
    ensures |r| == |es| + 1
  {
    if es == [] || leq(e.key, es[0].key) then [e] + es else [es[0]] + Insert(leq, e, es[1..])
  }

  function SortByKey(leq: Order, es: seq<Entry>): (r: seq<Entry>)
    ensures |r| == |es|
  {
    if es == [] then [] else Insert(leq, es[0], SortByKey(leq, es[1..]))
  }

  lemma {:induction false} InsertMembers(leq: Order, e: Entry, es: seq<Entry>)
    ensures multiset(Insert(leq, e, es)) == multiset(es) + multiset{e}
  {
    if es == [] || leq(e.key, es[0].key) {
    } else {
      InsertMembers(leq, e, es[1..]);
      assert es == [es[0]] + es[1..];
    }
  }

  lemma {:induction false} SortPermutes(leq: Order, es: seq<Entry>)
    ensures multiset(SortByKey(leq, es)) == multiset(es)
  {
    if es != [] {
      SortPermutes(leq, es[1..]);
      InsertMembers(leq, es[0], SortByKey(leq, es[1..]));
      assert es == [es[0]] + es[1..];
    }
  }

  lemma {:induction false} SortMembers(leq: Order, es: seq<Entry>)
    ensures forall e :: e in SortByKey(leq, es) <==> e in es
  {
    SortPermutes(leq, es);
    forall e ensures e in SortByKey(leq, es) <==> e in es {
      assert e in SortByKey(leq, es) <==> e in multiset(SortByKey(leq, es));
      assert e in es <==> e in multiset(es);
    }
  }

  predicate Ascending(leq: Order, es: seq<Entry>) {
    forall i, j :: 0 <= i < j < |es| ==> leq(es[i].key, es[j].key)
  }

  lemma {:induction false} InsertAscends(leq: Order, e: Entry, es: seq<Entry>)
    requires IsPreorder(leq) && Ascending(leq, es)
    ensures Ascending(leq, Insert(leq, e, es))
  {
    if es == [] || leq(e.key, es[0].key) {
    } else {
      var rest := Insert(leq, e, es[1..]);
      InsertAscends(leq, e, es[1..]);
      InsertMembers(leq, e, es[1..]);
      forall j | 0 <= j < |rest| ensures leq(es[0].key, rest[j].key) {
        assert rest[j] in multiset(rest);
        assert rest[j] in es[1..] || rest[j] == e;
      }
    }
  }

  lemma {:induction false} SortAscends(leq: Order, es: seq<Entry>)
    requires IsPreorder(leq)
    ensures Ascending(leq, SortByKey(leq, es))
  {
    if es != [] {
      SortAscends(leq, es[1..]);
      InsertAscends(leq, es[0], SortByKey(leq, es[1..]));
    }
  }

  // ----- The canonical form -----

  function Size(v: Json): (n: nat)
    ensures n >= 1
    decreases v
  {
    match v
    case Arr(items) => 1 + ItemsSize(items)
    case Obj(entries) => 1 + EntriesSize(entries)
    case _ => 1
  }

  function ItemsSize(items: seq<Json>): nat
    decreases items
  {
    if items == [] then 0 else Size(items[0]) + ItemsSize(items[1..])
  }

  function EntriesSize(es: seq<Entry>): nat
    decreases es
  {
    if es == [] then 0 else Size(es[0].value) + 1 + EntriesSize(es[1..])
  }

  lemma {:induction false} InsertSize(leq: Order, e: Entry, es: seq<Entry>)
    ensures EntriesSize(Insert(leq, e, es)) == Size(e.value) + 1 + EntriesSize(es)
  {
    if es == [] || leq(e.key, es[0].key) {
      assert ([e] + es)[1..] == es;
    } else {
      InsertSize(leq, e, es[1..]);
      assert ([es[0]] + Insert(leq, e, es[1..]))[1..] == Insert(leq, e, es[1..]);
    }
  }

  lemma {:induction false} SortSize(leq: Order, es: seq<Entry>)
    ensures EntriesSize(SortByKey(leq, es)) == EntriesSize(es)
  {
    if es != [] {
      SortSize(leq, es[1..]);
      InsertSize(leq, es[0], SortByKey(leq, es[1..]));
    }
  }

  /** Arrays keep their order; an object's entries are sorted and then each value in turn. */
  function SortValue(leq: Order, v: Json): Json
    decreases Size(v), 0
  {
    match v
    case Arr(items) => Arr(SortItems(leq, items))
    case Obj(entries) => SortSize(leq, entries); Obj(SortValues(leq, SortByKey(leq, entries)))
    case _ => v
  }

  function SortItems(leq: Order, items: seq<Json>): (r: seq<Json>)
    ensures |r| == |items|
    decreases ItemsSize(items), 1
  {
    if items == [] then [] else [SortValue(leq, items[0])] + SortItems(leq, items[1..])
  }

  function SortValues(leq: Order, es: seq<Entry>): (r: seq<Entry>)
    ensures |r| == |es|
    ensures forall i :: 0 <= i < |es| ==> r[i].key == es[i].key
    decreases EntriesSize(es), 1
  {
    if es == [] then [] else [Entry(es[0].key, SortValue(leq, es[0].value))] + SortValues(leq, es[1..])
  }

  lemma {:induction false} ItemAt(leq: Order, items: seq<Json>, i: nat)
    requires i < |items|
    ensures SortItems(leq, items)[i] == SortValue(leq, items[i])
  {
    if i > 0 {
      ItemAt(leq, items[1..], i - 1);
    }
  }

  lemma {:induction false} ValueAt(leq: Order, es: seq<Entry>, i: nat)
    requires i < |es|
    ensures SortValues(leq, es)[i].value == SortValue(leq, es[i].value)
  {
    if i > 0 {
      ValueAt(leq, es[1..], i - 1);
    }
  }

  // ----- Idempotence -----

  lemma {:induction false} SortedStays(leq: Order, es: seq<Entry>)
    requires Ascending(leq, es)
    ensures SortByKey(leq, es) == es
  {
    if es != [] {
      SortedStays(leq, es[1..]);
    }
  }

  /** Canonicalizing twice is canonicalizing once, ties or no ties. */
  lemma {:induction false} SortIsIdempotent(leq: Order, v: Json)
    requires IsPreorder(leq)
    ensures SortValue(leq, SortValue(leq, v)) == SortValue(leq, v)
    decreases Size(v), 0
  {
    match v
    case Arr(items) => ItemsIdempotent(leq, items);
    case Obj(entries) =>
      var sorted := SortByKey(leq, entries);
      SortSize(leq, entries);
      SortAscends(leq, entries);
      ValuesIdempotent(leq, sorted);
      var once := SortValues(leq, sorted);
      assert Ascending(leq, once);
      SortedStays(leq, once);
    case _ =>
  }

  lemma {:induction false} ItemsIdempotent(leq: Order, items: seq<Json>)
    requires IsPreorder(leq)
    ensures SortItems(leq, SortItems(leq, items)) == SortItems(leq, items)
    decreases ItemsSize(items), 1
  {
    if items != [] {
      SortIsIdempotent(leq, items[0]);
      ItemsIdempotent(leq, items[1..]);
    }
  }

  lemma {:induction false} ValuesIdempotent(leq: Order, es: seq<Entry>)
    requires IsPreorder(leq)
    ensures SortValues(leq, SortValues(leq, es)) == SortValues(leq, es)
    decreases EntriesSize(es), 1
  {
    if es != [] {
      SortIsIdempotent(leq, es[0].value);
      ValuesIdempotent(leq, es[1..]);
    }
  }

  // ----- Equality up to key order -----

  function Keys(es: seq<Entry>): set<string> {
    set e | e in es :: e.key
  }

  predicate KeysOnce(es: seq<Entry>) {
    forall i, j :: 0 <= i < j < |es| ==> es[i].key != es[j].key
  }

  /** No object, at any depth, has a key twice. */
  predicate WellFormed(v: Json) {
    match v
    case Arr(items) => forall i :: 0 <= i < |items| ==> WellFormed(items[i])
    case Obj(entries) => KeysOnce(entries) && forall i :: 0 <= i < |entries| ==> WellFormed(entries[i].value)
    case _ => true
  }

  /** The same value but for the order of object keys, at any depth. */
  predicate Same(v: Json, w: Json) {
    match (v, w)
    case (Arr(xs), Arr(ys)) => |xs| == |ys| && forall i :: 0 <= i < |xs| ==> Same(xs[i], ys[i])
    case (Obj(es), Obj(fs)) =>
      && |es| == |fs|
      && Keys(es) == Keys(fs)
      && forall i, j :: 0 <= i < |es| && 0 <= j < |fs| && es[i].key == fs[j].key ==> Same(es[i].value, fs[j].value)
    case _ => v == w
  }

  /** No object, at any depth, has two keys the order cannot tell apart. */
  predicate Separated(leq: Order, v: Json) {
    match v
    case Arr(items) => forall i :: 0 <= i < |items| ==> Separated(leq, items[i])
    case Obj(entries) =>
      && (forall i, j :: 0 <= i < |entries| && 0 <= j < |entries| ==> !Tied(leq, entries[i].key, entries[j].key))
      && forall i :: 0 <= i < |entries| ==> Separated(leq, entries[i].value)
    case _ => true
  }

  lemma {:induction false} HasKey(es: seq<Entry>, k: string) returns (i: nat)
    requires k in Keys(es)
    ensures i < |es| && es[i].key == k
  {
    var e :| e in es && e.key == k;
    i :| 0 <= i < |es| && es[i] == e;
  }

  lemma {:induction false} SameIsReflexive(v: Json)
    requires WellFormed(v)
    ensures Same(v, v)
    decreases v
  {
    match v
    case Arr(items) =>
      forall i | 0 <= i < |items| ensures Same(items[i], items[i]) {
        SameIsReflexive(items[i]);
      }
    case Obj(es) =>
      forall i, j | 0 <= i < |es| && 0 <= j < |es| && es[i].key == es[j].key ensures Same(es[i].value, es[j].value) {
        assert i == j;
        SameIsReflexive(es[i].value);
      }
    case _ =>
  }

  lemma {:induction false} SameIsSymmetric(v: Json, w: Json)
    requires Same(v, w)
    ensures Same(w, v)
    decreases v
  {
    match (v, w)
    case (Arr(xs), Arr(ys)) =>
      forall i | 0 <= i < |xs| ensures Same(ys[i], xs[i]) {
        SameIsSymmetric(xs[i], ys[i]);
      }
    case (Obj(es), Obj(fs)) =>
      forall i, j | 0 <= i < |fs| && 0 <= j < |es| && fs[i].key == es[j].key ensures Same(fs[i].value, es[j].value) {
        SameIsSymmetric(es[j].value, fs[i].value);
      }
    case _ =>
  }

  lemma {:induction false} SameIsTransitive(u: Json, v: Json, w: Json)
    requires Same(u, v) && Same(v, w)
    ensures Same(u, w)
    decreases u
  {
    match (u, v, w)
    case (Arr(xs), Arr(ys), Arr(zs)) =>
      forall i | 0 <= i < |xs| ensures Same(xs[i], zs[i]) {
        SameIsTransitive(xs[i], ys[i], zs[i]);
      }
    case (Obj(es), Obj(fs), Obj(gs)) =>
      forall i, j | 0 <= i < |es| && 0 <= j < |gs| && es[i].key == gs[j].key ensures Same(es[i].value, gs[j].value) {
        assert es[i].key in Keys(es);
        var k := HasKey(fs, es[i].key);
        SameIsTransitive(es[i].value, fs[k].value, gs[j].value);
      }
    case _ =>
  }

  lemma {:induction false} SortKeepsKeys(leq: Order, es: seq<Entry>)
    requires KeysOnce(es)
    ensures KeysOnce(SortByKey(leq, es)) && Keys(SortByKey(leq, es)) == Keys(es)
  {
    var r := SortByKey(leq, es);
    SortPermutes(leq, es);
    SortMembers(leq, es);
    forall i, j | 0 <= i < j < |r| ensures r[i].key != r[j].key {
      if r[i].key == r[j].key {
        assert r[i] in es && r[j] in es;
        assert r[i] == r[j];
        TwiceInMultiset(r, i, j);
        OnceInMultiset(es, r[i]);
        assert false;
      }
    }
  }

  lemma {:induction false} TwiceInMultiset(es: seq<Entry>, i: nat, j: nat)
    requires i < j < |es| && es[i] == es[j]
    ensures multiset(es)[es[i]] >= 2
  {
    var a, b := es[..j], es[j..];
    assert es == a + b && es[i] in a && es[i] in b;
    assert multiset(es) == multiset(a) + multiset(b);
  }

  lemma {:induction false} OnceInMultiset(es: seq<Entry>, e: Entry)
    requires KeysOnce(es)
    ensures multiset(es)[e] <= 1
  {
    if es != [] {
      OnceInMultiset(es[1..], e);
      assert es == [es[0]] + es[1..];
      if es[0] == e {
        assert e !in es[1..];
        assert multiset(es[1..])[e] == 0;
      }
    }
  }

  /** The canonical form is the same value up to key order. */
  lemma {:induction false} SortKeepsTheValue(leq: Order, v: Json)
    requires WellFormed(v)
    ensures Same(v, SortValue(leq, v)) && WellFormed(SortValue(leq, v))
    decreases Size(v), 0
  {
    match v
    case Arr(items) =>
      forall i | 0 <= i < |items|
        ensures Same(items[i], SortItems(leq, items)[i]) && WellFormed(SortItems(leq, items)[i])
      {
        ItemAt(leq, items, i);
        ItemIsSmaller(items, i);
        SortKeepsTheValue(leq, items[i]);
      }
    case Obj(es) =>
      var sorted := SortByKey(leq, es);
      var fs := SortValues(leq, sorted);
      SortKeepsKeys(leq, es);
      SortMembers(leq, es);
      assert Keys(fs) == Keys(sorted) by {
        forall k ensures k in Keys(fs) <==> k in Keys(sorted) {
          if k in Keys(fs) {
            var i := HasKey(fs, k);
            assert sorted[i] in sorted;
          }
          if k in Keys(sorted) {
            var i := HasKey(sorted, k);
            assert fs[i] in fs;
          }
        }
      }
      forall j | 0 <= j < |fs|
        ensures WellFormed(fs[j].value)
        ensures forall i :: 0 <= i < |es| && es[i].key == fs[j].key ==> Same(es[i].value, fs[j].value)
      {
        ValueAt(leq, sorted, j);
        assert sorted[j] in es;
        var m :| 0 <= m < |es| && es[m] == sorted[j];
        EntryIsSmaller(es, m);
        SortKeepsTheValue(leq, es[m].value);
      }
    case _ =>
  }

  lemma {:induction false} ItemIsSmaller(items: seq<Json>, i: nat)
    requires i < |items|
    ensures Size(items[i]) <= ItemsSize(items)
  {
    if i > 0 {
      ItemIsSmaller(items[1..], i - 1);
    }
  }

  lemma {:induction false} EntryIsSmaller(es: seq<Entry>, i: nat)
    requires i < |es|
    ensures Size(es[i].value) <= EntriesSize(es)
  {
    if i > 0 {
      EntryIsSmaller(es[1..], i - 1);
    }
  }

  // ----- Key order does not matter -----

  /** Strictly ordered keys. */
  predicate Strict(leq: Order, es: seq<Entry>) {
    forall i, j :: 0 <= i < j < |es| ==> leq(es[i].key, es[j].key) && !leq(es[j].key, es[i].key)
  }

  lemma {:induction false} StrictOrderIsUnique(leq: Order, es: seq<Entry>, fs: seq<Entry>)
    requires IsPreorder(leq) && Strict(leq, es) && Strict(leq, fs)
    requires Keys(es) == Keys(fs)
    ensures |es| == |fs| && forall i :: 0 <= i < |es| ==> es[i].key == fs[i].key
  {
    if es == [] {
      if fs != [] {
        SomeKeys(fs);
        assert false;
      }
    } else {
      assert es[0].key in Keys(es);
      var a := HasKey(fs, es[0].key);
      assert fs[0].key in Keys(fs);
      var b := HasKey(es, fs[0].key);
      assert a == 0 by {
        assert leq(fs[0].key, fs[a].key);
        assert leq(es[0].key, es[b].key);
      }
      assert Keys(es[1..]) == Keys(fs[1..]) by {
        TailKeys(leq, es);
        TailKeys(leq, fs);
      }
      StrictOrderIsUnique(leq, es[1..], fs[1..]);
    }
  }

  lemma {:induction false} SomeKeys(es: seq<Entry>)
    requires es != []
    ensures Keys(es) != {}
  {
    assert es[0].key in Keys(es);
  }

  lemma {:induction false} TailKeys(leq: Order, es: seq<Entry>)
    requires IsPreorder(leq) && Strict(leq, es) && es != []
    ensures Keys(es[1..]) == Keys(es) - {es[0].key}
  {
    assert es == [es[0]] + es[1..];
    forall k ensures k in Keys(es[1..]) <==> k in Keys(es) && k != es[0].key {
      if k in Keys(es[1..]) {
        var i := HasKey(es[1..], k);
        assert es[i + 1] in es;
        assert leq(es[0].key, es[i + 1].key) && !leq(es[i + 1].key, es[0].key);
      }
      if k in Keys(es) && k != es[0].key {
        var i := HasKey(es, k);
        assert es[1..][i - 1] in es[1..];
      }
    }
  }

  lemma {:induction false} SortedIsStrict(leq: Order, es: seq<Entry>)
    requires IsPreorder(leq) && KeysOnce(es)
    requires forall i, j :: 0 <= i < |es| && 0 <= j < |es| ==> !Tied(leq, es[i].key, es[j].key)
    ensures Strict(leq, SortByKey(leq, es))
  {
    var r := SortByKey(leq, es);
    SortAscends(leq, es);
    SortKeepsKeys(leq, es);
    SortMembers(leq, es);
    forall i, j | 0 <= i < j < |r| ensures !leq(r[j].key, r[i].key) {
      assert r[i] in es && r[j] in es;
      var a :| 0 <= a < |es| && es[a] == r[i];
      var b :| 0 <= b < |es| && es[b] == r[j];
      assert !Tied(leq, es[a].key, es[b].key);
    }
  }

  lemma {:induction false} SameSeparated(leq: Order, es: seq<Entry>, fs: seq<Entry>)
    requires Keys(es) == Keys(fs)
    requires forall i, j :: 0 <= i < |es| && 0 <= j < |es| ==> !Tied(leq, es[i].key, es[j].key)
    ensures forall i, j :: 0 <= i < |fs| && 0 <= j < |fs| ==> !Tied(leq, fs[i].key, fs[j].key)
  {
    forall i, j | 0 <= i < |fs| && 0 <= j < |fs| ensures !Tied(leq, fs[i].key, fs[j].key) {
      assert fs[i].key in Keys(fs) && fs[j].key in Keys(fs);
      var a := HasKey(es, fs[i].key);
      var b := HasKey(es, fs[j].key);
      assert !Tied(leq, es[a].key, es[b].key);
    }
  }

  lemma {:induction false} SortedKeysMatch(leq: Order, es: seq<Entry>, fs: seq<Entry>)
    requires IsPreorder(leq) && KeysOnce(es) && KeysOnce(fs) && Keys(es) == Keys(fs) && |es| == |fs|
    requires forall i, j :: 0 <= i < |es| && 0 <= j < |es| ==> !Tied(leq, es[i].key, es[j].key)
    ensures forall i :: 0 <= i < |es| ==> SortByKey(leq, es)[i].key == SortByKey(leq, fs)[i].key
  {
    SameSeparated(leq, es, fs);
    SortedIsStrict(leq, es);
    SortedIsStrict(leq, fs);
    SortKeepsKeys(leq, es);
    SortKeepsKeys(leq, fs);
    StrictOrderIsUnique(leq, SortByKey(leq, es), SortByKey(leq, fs));
  }

  /** Two values that differ only in key order have one canonical form, provided no two keys of an object tie. */
  lemma {:induction false} KeyOrderIsForgotten(leq: Order, v: Json, w: Json)
    requires IsPreorder(leq)
    requires WellFormed(v) && WellFormed(w) && Same(v, w) && Separated(leq, v)
    ensures SortValue(leq, v) == SortValue(leq, w)
    decreases Size(v), 0
  {
    match (v, w)
    case (Arr(xs), Arr(ys)) =>
      forall i | 0 <= i < |xs| ensures SortItems(leq, xs)[i] == SortItems(leq, ys)[i] {
        ItemAt(leq, xs, i);
        ItemAt(leq, ys, i);
        ItemIsSmaller(xs, i);
        KeyOrderIsForgotten(leq, xs[i], ys[i]);
      }
      assert SortItems(leq, xs) == SortItems(leq, ys);
    case (Obj(es), Obj(fs)) =>
      var a, b := SortByKey(leq, es), SortByKey(leq, fs);
      SortedKeysMatch(leq, es, fs);
      forall i | 0 <= i < |a| ensures SortValues(leq, a)[i] == SortValues(leq, b)[i] {
        ValueAt(leq, a, i);
        ValueAt(leq, b, i);
        var m := SortedCameFrom(leq, es, i);
        var n := SortedCameFrom(leq, fs, i);
        EntryIsSmaller(es, m);
        KeyOrderIsForgotten(leq, es[m].value, fs[n].value);
      }
      assert SortValues(leq, a) == SortValues(leq, b);
    case _ =>
  }

  /**
   * The canonical form identifies two values exactly when they differ in nothing but key order,
   * as long as no two keys of one object tie.
   */
  lemma {:induction false} CanonicalFormDecidesSameness(leq: Order, v: Json, w: Json)
    requires IsPreorder(leq)
    requires WellFormed(v) && WellFormed(w)
    ensures SortValue(leq, v) == SortValue(leq, w) ==> Same(v, w)
    ensures Separated(leq, v) ==> (Same(v, w) <==> SortValue(leq, v) == SortValue(leq, w))
  {
    if SortValue(leq, v) == SortValue(leq, w) {
      SortKeepsTheValue(leq, v);
      SortKeepsTheValue(leq, w);
      SameIsSymmetric(w, SortValue(leq, w));
      SameIsTransitive(v, SortValue(leq, v), w);
    }
    if Separated(leq, v) && Same(v, w) {
      KeyOrderIsForgotten(leq, v, w);
    }
  }

  // ----- When keys tie, key order does matter -----

  predicate Level(leq: Order, a: string, b: string) {
    leq(a, b) && leq(b, a)
  }

  /** The keys that the order puts level with `k`, in the order they come. */
  function LevelKeys(leq: Order, es: seq<Entry>, k: string): seq<string> {
    if es == [] then []
    else (if Level(leq, es[0].key, k) then [es[0].key] else []) + LevelKeys(leq, es[1..], k)
  }

  lemma {:induction false} LevelConcat(leq: Order, es: seq<Entry>, fs: seq<Entry>, k: string)
    ensures LevelKeys(leq, es + fs, k) == LevelKeys(leq, es, k) + LevelKeys(leq, fs, k)
  {
    if es == [] {
      assert es + fs == fs;
    } else {
      assert (es + fs)[1..] == es[1..] + fs;
      LevelConcat(leq, es[1..], fs, k);
    }
  }

  lemma {:induction false} InsertKeepsLevels(leq: Order, e: Entry, es: seq<Entry>, k: string)
    requires IsPreorder(leq)
    ensures LevelKeys(leq, Insert(leq, e, es), k) == (if Level(leq, e.key, k) then [e.key] else []) + LevelKeys(leq, es, k)
  {
    if es == [] || leq(e.key, es[0].key) {
      assert ([e] + es)[1..] == es;
    } else {
      InsertKeepsLevels(leq, e, es[1..], k);
      assert ([es[0]] + Insert(leq, e, es[1..]))[1..] == Insert(leq, e, es[1..]);
      if Level(leq, e.key, k) {
        assert !leq(k, es[0].key);
      }
    }
  }

  /** The sort is stable. */
  lemma {:induction false} SortKeepsLevels(leq: Order, es: seq<Entry>, k: string)
    requires IsPreorder(leq)
    ensures LevelKeys(leq, SortByKey(leq, es), k) == LevelKeys(leq, es, k)
  {
    if es != [] {
      SortKeepsLevels(leq, es[1..], k);
      InsertKeepsLevels(leq, es[0], SortByKey(leq, es[1..]), k);
    }
  }

  lemma {:induction false} LevelsSeeOnlyKeys(leq: Order, es: seq<Entry>, k: string)
    ensures LevelKeys(leq, SortValues(leq, es), k) == LevelKeys(leq, es, k)
  {
    if es != [] {
      LevelsSeeOnlyKeys(leq, es[1..], k);
    }
  }

  function Swap(es: seq<Entry>, i: nat, j: nat): seq<Entry>
    requires i < j < |es|
  {
    es[i := es[j]][j := es[i]]
  }

  lemma {:induction false} SwapShows(leq: Order, es: seq<Entry>, i: nat, j: nat)
    requires IsPreorder(leq) && i < j < |es| && Tied(leq, es[i].key, es[j].key)
    ensures LevelKeys(leq, Swap(es, i, j), es[i].key) != LevelKeys(leq, es, es[i].key)
  {
    var k := es[i].key;
    var a, x, b, y, c := es[..i], [es[i]], es[i + 1..j], [es[j]], es[j + 1..];
    assert es == a + (x + (b + (y + c)));
    assert Swap(es, i, j) == a + (y + (b + (x + c)));
    LevelConcat(leq, a, x + (b + (y + c)), k);
    LevelConcat(leq, x, b + (y + c), k);
    LevelConcat(leq, a, y + (b + (x + c)), k);
    LevelConcat(leq, y, b + (x + c), k);
    var n := |LevelKeys(leq, a, k)|;
    assert LevelKeys(leq, x, k) == [es[i].key] && LevelKeys(leq, y, k) == [es[j].key];
    assert LevelKeys(leq, es, k)[n] == es[i].key;
    assert LevelKeys(leq, Swap(es, i, j), k)[n] == es[j].key;
  }

  lemma {:induction false} SwapIsSame(es: seq<Entry>, i: nat, j: nat)
    requires WellFormed(Obj(es)) && i < j < |es|
    ensures WellFormed(Obj(Swap(es, i, j))) && Same(Obj(es), Obj(Swap(es, i, j)))
  {
    var fs := Swap(es, i, j);
    forall k ensures k in Keys(es) <==> k in Keys(fs) {
      if k in Keys(es) {
        var m := HasKey(es, k);
        assert es[m] == fs[if m == i then j else if m == j then i else m];
      }
      if k in Keys(fs) {
        var m := HasKey(fs, k);
        assert fs[m] == es[if m == i then j else if m == j then i else m];
      }
    }
    forall m, n | 0 <= m < |es| && 0 <= n < |fs| && es[m].key == fs[n].key ensures Same(es[m].value, fs[n].value) {
      assert m == if n == i then j else if n == j then i else n;
      SameIsReflexive(es[m].value);
    }
  }

  lemma {:induction false} ReplacedIsSame(es: seq<Entry>, i: nat, w: Json)
    requires WellFormed(Obj(es)) && i < |es| && WellFormed(w) && Same(es[i].value, w)
    ensures WellFormed(Obj(es[i := Entry(es[i].key, w)])) && Same(Obj(es), Obj(es[i := Entry(es[i].key, w)]))
  {
    var fs := es[i := Entry(es[i].key, w)];
    forall k ensures k in Keys(es) <==> k in Keys(fs) {
      if k in Keys(es) {
        var m := HasKey(es, k);
        assert fs[m].key == k && fs[m] in fs;
      }
      if k in Keys(fs) {
        var m := HasKey(fs, k);
        assert es[m].key == k && es[m] in es;
      }
    }
    forall m, n | 0 <= m < |es| && 0 <= n < |fs| && es[m].key == fs[n].key ensures Same(es[m].value, fs[n].value) {
      assert m == n;
      SameIsReflexive(es[m].value);
    }
  }

  /** In the canonical form of an object each key carries the canonical form of its value. */
  lemma {:induction false} CanonicalValueOf(leq: Order, es: seq<Entry>, i: nat)
    requires KeysOnce(es) && i < |es|
    ensures forall n :: 0 <= n < |es| && SortByKey(leq, es)[n].key == es[i].key ==>
              SortValues(leq, SortByKey(leq, es))[n] == Entry(es[i].key, SortValue(leq, es[i].value))
  {
    var sorted := SortByKey(leq, es);
    forall n | 0 <= n < |es| && sorted[n].key == es[i].key
      ensures SortValues(leq, sorted)[n] == Entry(es[i].key, SortValue(leq, es[i].value))
    {
      ValueAt(leq, sorted, n);
      var m := SortedCameFrom(leq, es, n);
    }
  }

  lemma {:induction false} SortedCameFrom(leq: Order, es: seq<Entry>, n: nat) returns (m: nat)
    requires n < |es|
    ensures m < |es| && es[m] == SortByKey(leq, es)[n]
  {
    SortMembers(leq, es);
    assert SortByKey(leq, es)[n] in es;
    m :| 0 <= m < |es| && es[m] == SortByKey(leq, es)[n];
  }

  lemma {:induction false} WentToSorted(leq: Order, es: seq<Entry>, m: nat) returns (n: nat)
    requires m < |es|
    ensures n < |es| && SortByKey(leq, es)[n] == es[m]
  {
    SortMembers(leq, es);
    assert es[m] in SortByKey(leq, es);
    n :| 0 <= n < |es| && SortByKey(leq, es)[n] == es[m];
  }

  lemma {:induction false} ReplacedShows(leq: Order, es: seq<Entry>, i: nat, w: Json)
    requires KeysOnce(es) && i < |es| && SortValue(leq, w) != SortValue(leq, es[i].value)
    ensures SortValue(leq, Obj(es[i := Entry(es[i].key, w)])) != SortValue(leq, Obj(es))
  {
    var fs := es[i := Entry(es[i].key, w)];
    CanonicalValueOf(leq, es, i);
    CanonicalValueOf(leq, fs, i);
    var n := WentToSorted(leq, es, i);
    assert SortByKey(leq, fs)[n].key == SortValues(leq, SortByKey(leq, fs))[n].key;
    assert SortValues(leq, SortByKey(leq, es))[n] != SortValues(leq, SortByKey(leq, fs))[n];
  }

  lemma {:induction false} SwapShowsSorted(leq: Order, es: seq<Entry>, i: nat, j: nat)
    requires IsPreorder(leq) && i < j < |es| && Tied(leq, es[i].key, es[j].key)
    ensures SortValue(leq, Obj(Swap(es, i, j))) != SortValue(leq, Obj(es))
  {
    var fs, k := Swap(es, i, j), es[i].key;
    SwapShows(leq, es, i, j);
    SortKeepsLevels(leq, es, k);
    SortKeepsLevels(leq, fs, k);
    LevelsSeeOnlyKeys(leq, SortByKey(leq, es), k);
    LevelsSeeOnlyKeys(leq, SortByKey(leq, fs), k);
  }

  lemma {:induction false} ReplacedItemShows(leq: Order, items: seq<Json>, i: nat, w: Json)
    requires WellFormed(Arr(items)) && i < |items| && WellFormed(w)
    requires Same(items[i], w) && SortValue(leq, w) != SortValue(leq, items[i])
    ensures WellFormed(Arr(items[i := w])) && Same(Arr(items), Arr(items[i := w]))
    ensures SortValue(leq, Arr(items[i := w])) != SortValue(leq, Arr(items))
  {
    forall m | 0 <= m < |items| ensures Same(items[m], items[i := w][m]) {
      SameIsReflexive(items[m]);
    }
    ItemAt(leq, items, i);
    ItemAt(leq, items[i := w], i);
  }

  /** Where keys tie, some other order of the same keys has another canonical form. */
  lemma {:induction false} TiesShow(leq: Order, v: Json) returns (w: Json)
    requires IsPreorder(leq) && WellFormed(v) && !Separated(leq, v)
    ensures WellFormed(w) && Same(v, w) && SortValue(leq, w) != SortValue(leq, v)
    decreases v
  {
    match v
    case Arr(items) =>
      var i :| 0 <= i < |items| && !Separated(leq, items[i]);
      var x := TiesShow(leq, items[i]);
      w := Arr(items[i := x]);
      ReplacedItemShows(leq, items, i, x);
    case Obj(es) =>
      if i, j :| 0 <= i < |es| && 0 <= j < |es| && Tied(leq, es[i].key, es[j].key) {
        var a, b := if i < j then i else j, if i < j then j else i;
        w := Obj(Swap(es, a, b));
        SwapIsSame(es, a, b);
        SwapShowsSorted(leq, es, a, b);
      } else {
        var i :| 0 <= i < |es| && !Separated(leq, es[i].value);
        var x := TiesShow(leq, es[i].value);
        w := Obj(es[i := Entry(es[i].key, x)]);
        ReplacedIsSame(es, i, x);
        ReplacedShows(leq, es, i, x);
      }
  }

  /** Canonicalization is blind to the key order of a value exactly when no object in it has tied keys. */
  lemma {:induction false} BlindExactlyWhenSeparated(leq: Order, v: Json)
    requires IsPreorder(leq) && WellFormed(v)
    ensures Separated(leq, v) <==>
            forall w :: WellFormed(w) && Same(v, w) ==> SortValue(leq, w) == SortValue(leq, v)
  {
    if Separated(leq, v) {
      forall w | WellFormed(w) && Same(v, w) ensures SortValue(leq, w) == SortValue(leq, v) {
        KeyOrderIsForgotten(leq, v, w);
      }
    } else {
      var w := TiesShow(leq, v);
    }
  }
}
