/**
 * The canonical form that is signed: objects with their keys in order
 * (webserver/src/utils/crypto_v2.js:45-63).
 *
 * A value is what JSON.parse gives; a `char` stands for one UTF-16 code unit.
 */
module StableJson {
  import opened Options
  import opened Sequences

  /** An object is its own properties in the order in which they are enumerated. */
  datatype Json =
    | Null
    | Bool(b: bool)
    | Number(n: real)
    | Text(s: string)
    | List(items: seq<Json>)
    | Obj(entries: seq<Entry>)

  datatype Entry = Entry(key: string, value: Json)

  // ============================================================ ordering of keys

  predicate Less(a: string, b: string) {
    b != "" && (a == "" || a[0] < b[0] || (a[0] == b[0] && Less(a[1..], b[1..])))
  }

  lemma {:induction false} LessIsStrict(a: string, b: string)
    ensures a == b || Less(a, b) || Less(b, a)
    ensures !(Less(a, b) && Less(b, a)) && !Less(a, a)
    decreases |a|
  {
    if a != "" {
      LessIsStrict(a[1..], a[1..]);
      if b != "" {
        LessIsStrict(a[1..], b[1..]);
        if a[0] == b[0] && a[1..] == b[1..] {
          assert a == [a[0]] + a[1..] && b == [b[0]] + b[1..];
        }
      }
    }
  }

  lemma {:induction false} LessChains(a: string, b: string, c: string)
    requires Less(a, b) && Less(b, c)
    ensures Less(a, c)
    decreases |a|
  {
    if a != "" && a[0] == b[0] && b[0] == c[0] {
      LessChains(a[1..], b[1..], c[1..]);
    }
  }

  predicate Ascending(keys: seq<string>) {
    forall i, j :: 0 <= i < j < |keys| ==> Less(keys[i], keys[j])
  }

  function Insert(key: string, keys: seq<string>): (r: seq<string>)
    ensures forall k :: k in r <==> k == key || k in keys
  {
    if keys == [] then [key]
    else if Less(key, keys[0]) then [key] + keys
    else
      assert keys == [keys[0]] + keys[1..];
      [keys[0]] + Insert(key, keys[1..])
  }

  function SortKeys(keys: seq<string>): (r: seq<string>)
    ensures forall k :: k in r <==> k in keys
  {
    if keys == [] then []
    else
      assert keys == [keys[0]] + keys[1..];
      Insert(keys[0], SortKeys(keys[1..]))
  }

  lemma {:induction false} InsertAscends(key: string, keys: seq<string>)
    requires Ascending(keys) && key !in keys
    ensures Ascending(Insert(key, keys))
  {
    if keys != [] {
      if Less(key, keys[0]) {
        forall i | 0 <= i < |keys| ensures Less(key, keys[i]) {
          if i > 0 {
            LessChains(key, keys[0], keys[i]);
          }
        }
      } else {
        LessIsStrict(key, keys[0]);
        InsertAscends(key, keys[1..]);
        var rest := Insert(key, keys[1..]);
        forall i | 0 <= i < |rest| ensures Less(keys[0], rest[i]) {
          assert rest[i] in rest;
        }
      }
    }
  }

  lemma {:induction false} SortAscends(keys: seq<string>)
    requires Distinct(keys)
    ensures Ascending(SortKeys(keys))
  {
    if keys != [] {
      SortAscends(keys[1..]);
      InsertAscends(keys[0], SortKeys(keys[1..]));
    }
  }

  lemma HeadIsNotInTail(keys: seq<string>)
    requires Ascending(keys) && keys != []
    ensures keys[0] !in keys[1..]
  {
    LessIsStrict(keys[0], keys[0]);
  }

  /** There is only one ascending list of given keys. */
  lemma {:induction false} AscendingIsUnique(a: seq<string>, b: seq<string>)
    requires Ascending(a) && Ascending(b) && forall k :: k in a <==> k in b
    ensures a == b
    decreases |a|
  {
    if a == [] {
      assert forall i :: 0 <= i < |b| ==> b[i] in b;
    } else {
      assert a[0] in b && b[0] in a;
      LessIsStrict(a[0], b[0]);
      assert a[0] == b[0];
      HeadIsNotInTail(a);
      HeadIsNotInTail(b);
      assert a == [a[0]] + a[1..] && b == [b[0]] + b[1..];
      forall k ensures k in a[1..] <==> k in b[1..] {
        assert k in a[1..] <==> k in a && k != a[0];
        assert k in b[1..] <==> k in b && k != b[0];
      }
      AscendingIsUnique(a[1..], b[1..]);
    }
  }

  // ================================================================== objects

  function KeysOf(entries: seq<Entry>): (keys: seq<string>)
    ensures |keys| == |entries| && forall i :: 0 <= i < |entries| ==> keys[i] == entries[i].key
  {
    seq(|entries|, i requires 0 <= i < |entries| => entries[i].key)
  }

  function Find(entries: seq<Entry>, key: string): (i: nat)
    ensures i <= |entries| && (i < |entries| ==> entries[i].key == key)
    ensures forall j :: 0 <= j < i ==> entries[j].key != key
  {
    if entries == [] || entries[0].key == key then 0 else 1 + Find(entries[1..], key)
  }

  predicate Has(entries: seq<Entry>, key: string) { Find(entries, key) < |entries| }

  function Lookup(entries: seq<Entry>, key: string): Option<Json> {
    if Has(entries, key) then Some(entries[Find(entries, key)].value) else None
  }

  lemma HasIsIn(entries: seq<Entry>, key: string)
    ensures Has(entries, key) <==> key in KeysOf(entries)
  {
    assert Has(entries, key) ==> KeysOf(entries)[Find(entries, key)] == key;
  }

  lemma LookupAt(entries: seq<Entry>, i: nat)
    requires i < |entries| && Distinct(KeysOf(entries))
    ensures Lookup(entries, entries[i].key) == Some(entries[i].value)
  {
    var keys, j := KeysOf(entries), Find(entries, entries[i].key);
    assert j < |entries| && keys[j] == keys[i];
  }

  /** Property names that are array indices are enumerated first, in numeric order. */
  function IndexOf(key: string): Option<nat> {
    if key == "" || (|key| > 1 && key[0] == '0') || |key| > 10 then None
    else if exists i :: 0 <= i < |key| && !('0' <= key[i] <= '9') then None
    else if Decimal(key) < 0xFFFF_FFFF then Some(Decimal(key)) else None
  }

  function Decimal(digits: string): nat
    requires forall i :: 0 <= i < |digits| ==> '0' <= digits[i] <= '9'
  {
    if digits == "" then 0 else 10 * Decimal(digits[..|digits| - 1]) + (digits[|digits| - 1] - '0') as nat
  }

  predicate EnumeratedAfter(key: string, index: nat) {
    IndexOf(key).None? || IndexOf(key).value > index
  }

  /** Where a new array-index property is enumerated. */
  function Place(entries: seq<Entry>, index: nat): (i: nat)
    ensures i <= |entries|
  {
    if entries == [] || EnumeratedAfter(entries[0].key, index) then 0 else 1 + Place(entries[1..], index)
  }

  /** `object[key] = value`; assigning to `__proto__` makes no property. */
  function Assign(entries: seq<Entry>, key: string, value: Json): seq<Entry> {
    if key == "__proto__" then entries
    else if Has(entries, key) then entries[Find(entries, key) := Entry(key, value)]
    else if IndexOf(key).Some? then
      var i := Place(entries, IndexOf(key).value);
      entries[..i] + [Entry(key, value)] + entries[i..]
    else entries + [Entry(key, value)]
  }

  /** Assigning `source`'s values for the given keys, one after another, to an empty object. */
  function Rebuild(source: seq<Entry>, keys: seq<string>): seq<Entry> {
    if keys == [] then []
    else
      var n := |keys| - 1;
      var before := Rebuild(source, keys[..n]);
      if Has(source, keys[n]) then Assign(before, keys[n], source[Find(source, keys[n])].value) else before
  }

  /** An object with an own `constructor` is not taken for a plain one and stays as it is. */
  function Sort(v: Json): Json {
    match v
    case List(items) => List(seq(|items|, i requires 0 <= i < |items| => Sort(items[i])))
    case Obj(entries) =>
      if Has(entries, "constructor") then v
      else
        Obj(Rebuild(seq(|entries|, i requires 0 <= i < |entries| => Entry(entries[i].key, Sort(entries[i].value))),
                    SortKeys(KeysOf(entries))))
    case _ => v
  }

  function SortedValues(entries: seq<Entry>): (r: seq<Entry>)
    ensures |r| == |entries|
    ensures forall i :: 0 <= i < |entries| ==> r[i] == Entry(entries[i].key, Sort(entries[i].value))
  {
    seq(|entries|, i requires 0 <= i < |entries| => Entry(entries[i].key, Sort(entries[i].value)))
  }

  lemma SortObj(entries: seq<Entry>)
    requires !Has(entries, "constructor")
    ensures Sort(Obj(entries)) == Obj(Rebuild(SortedValues(entries), SortKeys(KeysOf(entries))))
  {
    assert SortedValues(entries)
        == seq(|entries|, i requires 0 <= i < |entries| => Entry(entries[i].key, Sort(entries[i].value)));
  }

  // =========================================================== what is rebuilt

  lemma LookupIs(entries: seq<Entry>, key: string, i: nat)
    requires i < |entries| && entries[i].key == key && Distinct(KeysOf(entries))
    ensures Lookup(entries, key) == Some(entries[i].value)
  {
    LookupAt(entries, i);
  }

  lemma DistinctWithOneMore(keys: seq<string>, i: nat, key: string)
    requires Distinct(keys) && i <= |keys| && key !in keys
    ensures Distinct(keys[..i] + [key] + keys[i..])
  {
    var r := keys[..i] + [key] + keys[i..];
    forall m, n | 0 <= m < n < |r| ensures r[m] != r[n] {
      assert r[m] == if m < i then keys[m] else if m == i then key else keys[m - 1];
      assert r[n] == if n < i then keys[n] else if n == i then key else keys[n - 1];
    }
  }

  lemma LookupWithOneMore(entries: seq<Entry>, i: nat, e: Entry, k: string)
    requires i <= |entries| && k != e.key
    requires Distinct(KeysOf(entries[..i] + [e] + entries[i..]))
    ensures Lookup(entries[..i] + [e] + entries[i..], k) == Lookup(entries, k)
  {
    var r, j := entries[..i] + [e] + entries[i..], Find(entries, k);
    if j < |entries| {
      var at := if j < i then j else j + 1;
      assert r[at] == entries[j];
      LookupIs(r, k, at);
    } else {
      forall m | 0 <= m < |r| ensures KeysOf(r)[m] != k {
        assert r[m] == if m < i then entries[m] else if m == i then e else entries[m - 1];
      }
      HasIsIn(r, k);
    }
  }

  /** A new property is found, the others are found as before. */
  lemma AssignNew(entries: seq<Entry>, key: string, value: Json)
    requires Distinct(KeysOf(entries)) && !Has(entries, key) && key != "__proto__"
    ensures var r := Assign(entries, key, value);
            && Distinct(KeysOf(r)) && Lookup(r, key) == Some(value)
            && forall k :: k != key ==> Lookup(r, k) == Lookup(entries, k)
  {
    var i := if IndexOf(key).Some? then Place(entries, IndexOf(key).value) else |entries|;
    var r := entries[..i] + [Entry(key, value)] + entries[i..];
    assert r == Assign(entries, key, value);
    HasIsIn(entries, key);
    assert KeysOf(r) == KeysOf(entries)[..i] + [key] + KeysOf(entries)[i..];
    DistinctWithOneMore(KeysOf(entries), i, key);
    LookupIs(r, key, i);
    forall k | k != key ensures Lookup(r, k) == Lookup(entries, k) {
      LookupWithOneMore(entries, i, Entry(key, value), k);
    }
  }

  lemma {:induction false} RebuildLookup(source: seq<Entry>, keys: seq<string>)
    requires Distinct(keys)
    ensures var r := Rebuild(source, keys);
            && Distinct(KeysOf(r))
            && forall k :: Lookup(r, k) == if k in keys && k != "__proto__" then Lookup(source, k) else None
    decreases |keys|
  {
    if keys != [] {
      var n := |keys| - 1;
      var before, key := Rebuild(source, keys[..n]), keys[n];
      assert keys == keys[..n] + [key];
      RebuildLookup(source, keys[..n]);
      assert Lookup(before, key) == None;
      if Has(source, key) && key != "__proto__" {
        AssignNew(before, key, source[Find(source, key)].value);
      }
    }
  }

  /** Rebuilding looks at nothing but the values found, and skips `__proto__`. */
  lemma {:induction false} RebuildAgrees(a: seq<Entry>, b: seq<Entry>, keys: seq<string>)
    requires forall k :: k in keys ==> Lookup(a, k) == Lookup(b, k)
    ensures Rebuild(a, keys) == Rebuild(b, keys)
    decreases |keys|
  {
    if keys != [] {
      var n := |keys| - 1;
      assert keys == keys[..n] + [keys[n]];
      RebuildAgrees(a, b, keys[..n]);
      assert Lookup(a, keys[n]) == Lookup(b, keys[n]);
    }
  }

  function Without(keys: seq<string>, key: string): (r: seq<string>)
    ensures forall k :: k in r <==> k in keys && k != key
  {
    if keys == [] then []
    else
      var n := |keys| - 1;
      assert keys == keys[..n] + [keys[n]];
      Without(keys[..n], key) + if keys[n] == key then [] else [keys[n]]
  }

  lemma {:induction false} WithoutAscends(keys: seq<string>, key: string)
    requires Ascending(keys)
    ensures Ascending(Without(keys, key))
  {
    if keys != [] {
      var n := |keys| - 1;
      WithoutAscends(keys[..n], key);
      var before := Without(keys[..n], key);
      forall i | 0 <= i < |before| ensures Less(before[i], keys[n]) {
        assert before[i] in keys[..n];
      }
    }
  }

  lemma {:induction false} ProtoIsSkipped(source: seq<Entry>, keys: seq<string>)
    ensures Rebuild(source, keys) == Rebuild(source, Without(keys, "__proto__"))
    decreases |keys|
  {
    if keys != [] {
      var n := |keys| - 1;
      ProtoIsSkipped(source, keys[..n]);
      var before := Without(keys[..n], "__proto__");
      if keys[n] == "__proto__" {
        assert before + [] == before;
      } else {
        assert (before + [keys[n]])[..|before|] == before;
      }
    }
  }

  /** What a sorted object holds under each name. */
  lemma SortedLookup(entries: seq<Entry>)
    requires Distinct(KeysOf(entries)) && !Has(entries, "constructor")
    ensures Sort(Obj(entries)).Obj?
    ensures var r := Sort(Obj(entries)).entries;
            && Distinct(KeysOf(r))
            && forall k :: Lookup(r, k) == if k == "__proto__" || !Has(entries, k) then None
                                           else Some(Sort(Lookup(entries, k).value))
  {
    var source, keys := SortedValues(entries), SortKeys(KeysOf(entries));
    SortObj(entries);
    SortAscends(KeysOf(entries));
    AscendingIsDistinct(keys);
    RebuildLookup(source, keys);
    forall k ensures k in keys <==> Has(entries, k) {
      HasIsIn(entries, k);
    }
    forall k ensures Lookup(source, k) == if Has(entries, k) then Some(Sort(Lookup(entries, k).value)) else None {
      SortedValuesLookup(entries, k);
    }
  }

  lemma SortedValuesLookup(entries: seq<Entry>, key: string)
    ensures Lookup(SortedValues(entries), key)
         == if Has(entries, key) then Some(Sort(Lookup(entries, key).value)) else None
  {
    SameFind(entries, SortedValues(entries), key);
  }

  lemma AscendingIsDistinct(keys: seq<string>)
    requires Ascending(keys)
    ensures Distinct(keys)
  {
    forall i, j | 0 <= i < j < |keys| ensures keys[i] != keys[j] {
      LessIsStrict(keys[i], keys[j]);
    }
  }

  lemma SameFind(a: seq<Entry>, b: seq<Entry>, key: string)
    requires |a| == |b| && forall i :: 0 <= i < |a| ==> a[i].key == b[i].key
    ensures Find(a, key) == Find(b, key)
  {
    var i, j := Find(a, key), Find(b, key);
    assert i < |a| ==> b[i].key == key;
    assert j < |b| ==> a[j].key == key;
  }

  // ================================================= same value, sorted the same

  /** Names are distinct in every object. */
  predicate Proper(v: Json) {
    match v
    case List(items) => forall i :: 0 <= i < |items| ==> Proper(items[i])
    case Obj(entries) =>
      Distinct(KeysOf(entries)) && forall i :: 0 <= i < |entries| ==> Proper(entries[i].value)
    case _ => true
  }

  /** The same value, whatever the order of names. */
  ghost predicate Same(a: Json, b: Json) {
    match a
    case List(items) =>
      b.List? && |b.items| == |items| && forall i :: 0 <= i < |items| ==> Same(items[i], b.items[i])
    case Obj(entries) =>
      && b.Obj? && (forall k :: Has(entries, k) <==> Has(b.entries, k))
      && forall i :: 0 <= i < |entries| ==>
           Has(b.entries, entries[i].key) && Same(entries[i].value, Lookup(b.entries, entries[i].key).value)
    case _ => a == b
  }

  /** No plain object that the sort reaches has an own property of this name. */
  predicate Free(v: Json, name: string) {
    match v
    case List(items) => forall i :: 0 <= i < |items| ==> Free(items[i], name)
    case Obj(entries) =>
      if Has(entries, "constructor") then name != "constructor"
      else !Has(entries, name) && forall i :: 0 <= i < |entries| ==> Free(entries[i].value, name)
    case _ => true
  }

  lemma SameObjects(a: seq<Entry>, b: seq<Entry>)
    requires Distinct(KeysOf(a))
    requires forall k :: Has(a, k) <==> Has(b, k)
    requires forall k :: Has(a, k) ==> Same(Lookup(a, k).value, Lookup(b, k).value)
    ensures Same(Obj(a), Obj(b))
  {
    forall i | 0 <= i < |a|
      ensures Has(b, a[i].key) && Same(a[i].value, Lookup(b, a[i].key).value)
    {
      LookupAt(a, i);
    }
  }

  /** Values that differ only in the order of names have the same canonical form. */
  lemma {:induction false} OrderDoesNotMatter(a: Json, b: Json)
    requires Proper(a) && Proper(b) && Same(a, b) && Free(a, "constructor") && Free(b, "constructor")
    ensures Sort(a) == Sort(b)
    decreases a
  {
    match a {
      case List(items) =>
        forall i | 0 <= i < |items| ensures Sort(items[i]) == Sort(b.items[i]) {
          OrderDoesNotMatter(items[i], b.items[i]);
        }
      case Obj(entries) =>
        forall i | 0 <= i < |entries| ensures Sort(entries[i].value) == Sort(Lookup(b.entries, entries[i].key).value) {
          var j := Find(b.entries, entries[i].key);
          assert Free(b.entries[j].value, "constructor");
          OrderDoesNotMatter(entries[i].value, b.entries[j].value);
        }
        SortSameEntries(entries, b.entries);
      case _ =>
    }
  }

  lemma SortSameEntries(a: seq<Entry>, b: seq<Entry>)
    requires Distinct(KeysOf(a)) && Distinct(KeysOf(b)) && !Has(a, "constructor")
    requires forall k :: Has(a, k) <==> Has(b, k)
    requires forall i :: 0 <= i < |a| ==> Has(b, a[i].key) && Sort(a[i].value) == Sort(Lookup(b, a[i].key).value)
    ensures Sort(Obj(a)) == Sort(Obj(b))
  {
    var keys := SortKeys(KeysOf(a));
    SortAscends(KeysOf(a));
    SortAscends(KeysOf(b));
    forall k ensures k in keys <==> k in SortKeys(KeysOf(b)) {
      HasIsIn(a, k);
      HasIsIn(b, k);
    }
    AscendingIsUnique(keys, SortKeys(KeysOf(b)));
    forall k | k in keys ensures Lookup(SortedValues(a), k) == Lookup(SortedValues(b), k) {
      SortedValuesLookup(a, k);
      SortedValuesLookup(b, k);
    }
    RebuildAgrees(SortedValues(a), SortedValues(b), keys);
    SortObj(a);
    SortObj(b);
  }

  /** The canonical form of an object depends on nothing but the values found under its names, `__proto__` excepted. */
  lemma SortDependsOn(a: seq<Entry>, b: seq<Entry>)
    requires Distinct(KeysOf(a)) && Distinct(KeysOf(b)) && !Has(a, "constructor") && !Has(b, "constructor")
    requires forall k :: k != "__proto__" ==> Lookup(a, k) == Lookup(b, k)
    ensures Sort(Obj(a)) == Sort(Obj(b))
  {
    var left, right := Without(SortKeys(KeysOf(a)), "__proto__"), Without(SortKeys(KeysOf(b)), "__proto__");
    SortAscends(KeysOf(a));
    SortAscends(KeysOf(b));
    WithoutAscends(SortKeys(KeysOf(a)), "__proto__");
    WithoutAscends(SortKeys(KeysOf(b)), "__proto__");
    forall k ensures k in left <==> k in right {
      HasIsIn(a, k);
      HasIsIn(b, k);
      assert k != "__proto__" ==> Lookup(a, k) == Lookup(b, k);
    }
    AscendingIsUnique(left, right);
    forall k | k in left ensures Lookup(SortedValues(a), k) == Lookup(SortedValues(b), k) {
      SortedValuesLookup(a, k);
      SortedValuesLookup(b, k);
    }
    RebuildAgrees(SortedValues(a), SortedValues(b), left);
    ProtoIsSkipped(SortedValues(a), SortKeys(KeysOf(a)));
    ProtoIsSkipped(SortedValues(b), SortKeys(KeysOf(b)));
    SortObj(a);
    SortObj(b);
  }

  // ============================================================== idempotence

  /** Sorting twice is sorting once, whatever names occur. */
  lemma {:induction false} SortIsIdempotent(v: Json)
    requires Proper(v)
    ensures Sort(Sort(v)) == Sort(v)
  {
    match v {
      case List(items) =>
        forall i | 0 <= i < |items| ensures Sort(Sort(items[i])) == Sort(items[i]) {
          SortIsIdempotent(items[i]);
        }
      case Obj(entries) =>
        if !Has(entries, "constructor") {
          forall i | 0 <= i < |entries| ensures Sort(Sort(entries[i].value)) == Sort(entries[i].value) {
            SortIsIdempotent(entries[i].value);
          }
          SortTwice(entries);
        }
      case _ =>
    }
  }

  lemma SortTwice(entries: seq<Entry>)
    requires Distinct(KeysOf(entries)) && !Has(entries, "constructor")
    requires forall i :: 0 <= i < |entries| ==> Sort(Sort(entries[i].value)) == Sort(entries[i].value)
    ensures Sort(Sort(Obj(entries))) == Sort(Obj(entries))
  {
    SortedLookup(entries);
    var once, keys := Sort(Obj(entries)).entries, SortKeys(KeysOf(entries));
    var left := Without(keys, "__proto__");
    SortAscends(KeysOf(entries));
    SortAscends(KeysOf(once));
    WithoutAscends(keys, "__proto__");
    assert Lookup(once, "constructor") == None;
    forall k ensures k in left <==> k in SortKeys(KeysOf(once)) {
      HasIsIn(entries, k);
      HasIsIn(once, k);
      assert Has(once, k) <==> Lookup(once, k).Some?;
    }
    AscendingIsUnique(left, SortKeys(KeysOf(once)));
    forall k | k in left ensures Lookup(SortedValues(once), k) == Lookup(SortedValues(entries), k) {
      HasIsIn(entries, k);
      SortedValuesLookup(once, k);
      SortedValuesLookup(entries, k);
      assert Lookup(once, k) == Some(Sort(Lookup(entries, k).value));
    }
    RebuildAgrees(SortedValues(once), SortedValues(entries), left);
    ProtoIsSkipped(SortedValues(entries), keys);
    SortObj(entries);
    SortObj(once);
  }

  // ========================================================== the value is kept

  lemma {:induction false} SameAsItself(v: Json)
    requires Proper(v)
    ensures Same(v, v)
  {
    match v {
      case List(items) =>
        forall i | 0 <= i < |items| ensures Same(items[i], items[i]) { SameAsItself(items[i]); }
      case Obj(entries) =>
        forall i | 0 <= i < |entries|
          ensures Has(entries, entries[i].key) && Same(entries[i].value, Lookup(entries, entries[i].key).value)
        {
          LookupAt(entries, i);
          SameAsItself(entries[i].value);
        }
      case _ =>
    }
  }

  /**
   * The canonical form has the same value at every depth exactly when no object
   * that is sorted has an own property called `__proto__`.
   */
  lemma {:induction false} ValueIsKeptIff(v: Json)
    requires Proper(v)
    ensures Same(Sort(v), v) <==> Free(v, "__proto__")
  {
    match v {
      case List(items) =>
        forall i | 0 <= i < |items| ensures Same(Sort(items[i]), items[i]) <==> Free(items[i], "__proto__") {
          ValueIsKeptIff(items[i]);
        }
        assert forall i :: 0 <= i < |items| ==> Sort(v).items[i] == Sort(items[i]);
      case Obj(entries) =>
        if Has(entries, "constructor") {
          SameAsItself(v);
        } else {
          forall i | 0 <= i < |entries|
            ensures Same(Sort(entries[i].value), entries[i].value) <==> Free(entries[i].value, "__proto__")
          {
            ValueIsKeptIff(entries[i].value);
          }
          ObjectIsKeptIff(entries);
        }
      case _ =>
    }
  }

  lemma ObjectIsKeptIff(entries: seq<Entry>)
    requires Distinct(KeysOf(entries)) && !Has(entries, "constructor")
    requires forall i :: 0 <= i < |entries| ==>
      (Same(Sort(entries[i].value), entries[i].value) <==> Free(entries[i].value, "__proto__"))
    ensures Same(Sort(Obj(entries)), Obj(entries)) <==> Free(Obj(entries), "__proto__")
  {
    SortedLookup(entries);
    var sorted := Sort(Obj(entries)).entries;
    assert forall k :: Has(sorted, k) <==> Lookup(sorted, k).Some?;
    if Free(Obj(entries), "__proto__") {
      SameObjects(sorted, entries);
    } else if Has(entries, "__proto__") {
      assert Lookup(sorted, "__proto__") == None;
      assert !Has(sorted, "__proto__");
    } else {
      var i :| 0 <= i < |entries| && !Free(entries[i].value, "__proto__");
      LookupAt(entries, i);
      var j := Find(sorted, entries[i].key);
      assert Lookup(sorted, entries[i].key) == Some(Sort(entries[i].value));
      assert sorted[j].value == Sort(entries[i].value);
      assert !Same(sorted[j].value, Lookup(entries, sorted[j].key).value);
    }
  }

  // ================================================== where the order does matter

  /** Array indices come first, in numeric order; the other names come as they were put in. */
  predicate KeyBefore(a: string, b: string) {
    IndexOf(b).Some? ==> IndexOf(a).Some? && IndexOf(a).value < IndexOf(b).value
  }

  predicate InOrder(keys: seq<string>) {
    forall i, j :: 0 <= i < j < |keys| ==> KeyBefore(keys[i], keys[j])
  }

  /** A value as it can occur: in every object names are distinct and enumerated in that order. */
  predicate Real(v: Json) {
    match v
    case List(items) => forall i :: 0 <= i < |items| ==> Real(items[i])
    case Obj(entries) =>
      && Distinct(KeysOf(entries)) && InOrder(KeysOf(entries))
      && forall i :: 0 <= i < |entries| ==> Real(entries[i].value)
    case _ => true
  }

  /** At most the last name is not an array index, so there is only one order for these names. */
  predicate OneOrder(keys: seq<string>) {
    forall i :: 0 <= i < |keys| - 1 ==> IndexOf(keys[i]).Some?
  }

  /** Nothing in the value, at any depth, could be enumerated in another order. */
  predicate Rigid(v: Json) {
    match v
    case List(items) => forall i :: 0 <= i < |items| ==> Rigid(items[i])
    case Obj(entries) => OneOrder(KeysOf(entries)) && forall i :: 0 <= i < |entries| ==> Rigid(entries[i].value)
    case _ => true
  }

  /** Every object that is left unsorted is rigid; of the others, what they keep is settled. */
  predicate Settled(v: Json) {
    match v
    case List(items) => forall i :: 0 <= i < |items| ==> Settled(items[i])
    case Obj(entries) =>
      if Has(entries, "constructor") then Rigid(v)
      else forall i :: 0 <= i < |entries| ==> entries[i].key == "__proto__" || Settled(entries[i].value)
    case _ => true
  }

  lemma {:induction false} RealIsProper(v: Json)
    requires Real(v)
    ensures Proper(v)
  {
    match v {
      case List(items) => forall i | 0 <= i < |items| ensures Proper(items[i]) { RealIsProper(items[i]); }
      case Obj(entries) =>
        forall i | 0 <= i < |entries| ensures Proper(entries[i].value) { RealIsProper(entries[i].value); }
      case _ =>
    }
  }

  // ----------------------------------------------- what is rigid has no rearrangement

  lemma DistinctTail(keys: seq<string>, k: string)
    requires keys != [] && Distinct(keys)
    ensures k in keys[1..] <==> k in keys && k != keys[0]
  {
    assert keys == [keys[0]] + keys[1..];
  }

  lemma SameHead(a: seq<string>, b: seq<string>)
    requires a != [] && b != [] && InOrder(a) && InOrder(b) && a[0] in b && b[0] in a
    requires IndexOf(a[0]).Some?
    ensures a[0] == b[0]
  {
    var i :| 0 <= i < |a| && a[i] == b[0];
    var j :| 0 <= j < |b| && b[j] == a[0];
    assert forall n :: 0 < n < |b| ==> KeyBefore(b[0], b[n]);
    assert forall n :: 0 < n < |a| ==> KeyBefore(a[0], a[n]);
  }

  lemma {:induction false} OrderIsUnique(a: seq<string>, b: seq<string>)
    requires Distinct(a) && Distinct(b) && InOrder(a) && InOrder(b) && OneOrder(a)
    requires forall k :: k in a <==> k in b
    ensures a == b
    decreases |a|
  {
    if a == [] {
      assert forall i :: 0 <= i < |b| ==> b[i] in b;
    } else {
      assert a[0] in b;
      assert b[0] in a;
      if |a| > 1 {
        SameHead(a, b);
      }
      forall k ensures k in a[1..] <==> k in b[1..] {
        DistinctTail(a, k);
        DistinctTail(b, k);
      }
      OrderIsUnique(a[1..], b[1..]);
      assert a == [a[0]] + a[1..] && b == [b[0]] + b[1..];
    }
  }

  lemma {:induction false} RigidIsAlone(v: Json, w: Json)
    requires Real(v) && Real(w) && Rigid(v) && Same(v, w)
    ensures v == w
    decreases v
  {
    match v {
      case List(items) =>
        forall i | 0 <= i < |items| ensures items[i] == w.items[i] { RigidIsAlone(items[i], w.items[i]); }
        assert items == w.items;
      case Obj(entries) =>
        var a, b := KeysOf(entries), KeysOf(w.entries);
        forall k ensures k in a <==> k in b {
          HasIsIn(entries, k);
          HasIsIn(w.entries, k);
        }
        OrderIsUnique(a, b);
        forall i | 0 <= i < |entries| ensures entries[i] == w.entries[i] {
          assert a[i] == b[i];
          LookupIs(w.entries, entries[i].key, i);
          RigidIsAlone(entries[i].value, w.entries[i].value);
        }
        assert entries == w.entries;
      case _ =>
    }
  }

  // ------------------------------------------------------ what is settled sorts alike

  lemma SortKeptEntries(a: seq<Entry>, b: seq<Entry>)
    requires Distinct(KeysOf(a)) && Distinct(KeysOf(b)) && !Has(a, "constructor") && !Has(b, "constructor")
    requires forall k :: Has(a, k) <==> Has(b, k)
    requires forall i :: 0 <= i < |a| && a[i].key != "__proto__" ==>
      Has(b, a[i].key) && Sort(a[i].value) == Sort(Lookup(b, a[i].key).value)
    ensures Sort(Obj(a)) == Sort(Obj(b))
  {
    var keys := KeptNames(a, b);
    forall k | k in keys ensures Lookup(SortedValues(a), k) == Lookup(SortedValues(b), k) {
      SortedValuesLookup(a, k);
      SortedValuesLookup(b, k);
    }
    RebuildAgrees(SortedValues(a), SortedValues(b), keys);
  }

  /** Both are rebuilt from the same list of names. */
  lemma KeptNames(a: seq<Entry>, b: seq<Entry>) returns (keys: seq<string>)
    requires Distinct(KeysOf(a)) && Distinct(KeysOf(b)) && !Has(a, "constructor") && !Has(b, "constructor")
    requires forall k :: Has(a, k) <==> Has(b, k)
    ensures Sort(Obj(a)) == Obj(Rebuild(SortedValues(a), keys)) && Sort(Obj(b)) == Obj(Rebuild(SortedValues(b), keys))
    ensures forall k :: k in keys ==> k != "__proto__" && Has(a, k) && Has(b, k)
  {
    keys := Without(SortKeys(KeysOf(a)), "__proto__");
    var other := Without(SortKeys(KeysOf(b)), "__proto__");
    SortedWithout(a);
    SortedWithout(b);
    forall k ensures k in keys <==> k != "__proto__" && Has(a, k) { HasIsIn(a, k); }
    forall k ensures k in other <==> k != "__proto__" && Has(b, k) { HasIsIn(b, k); }
    AscendingIsUnique(keys, other);
  }

  /** `__proto__` could as well be left out of the names. */
  lemma SortedWithout(entries: seq<Entry>)
    requires Distinct(KeysOf(entries)) && !Has(entries, "constructor")
    ensures var keys := Without(SortKeys(KeysOf(entries)), "__proto__");
            Ascending(keys) && Sort(Obj(entries)) == Obj(Rebuild(SortedValues(entries), keys))
  {
    SortAscends(KeysOf(entries));
    WithoutAscends(SortKeys(KeysOf(entries)), "__proto__");
    ProtoIsSkipped(SortedValues(entries), SortKeys(KeysOf(entries)));
    SortObj(entries);
  }

  lemma {:induction false} SettledSortsAlike(v: Json, w: Json)
    requires Real(v) && Real(w) && Settled(v) && Same(v, w)
    ensures Sort(v) == Sort(w)
    decreases v
  {
    match v {
      case List(items) =>
        forall i | 0 <= i < |items| ensures Sort(items[i]) == Sort(w.items[i]) {
          SettledSortsAlike(items[i], w.items[i]);
        }
      case Obj(entries) =>
        if Has(entries, "constructor") {
          RigidIsAlone(v, w);
        } else {
          forall i | 0 <= i < |entries| && entries[i].key != "__proto__"
            ensures Sort(entries[i].value) == Sort(Lookup(w.entries, entries[i].key).value)
          {
            SettledSortsAlike(entries[i].value, w.entries[Find(w.entries, entries[i].key)].value);
          }
          SortKeptEntries(entries, w.entries);
        }
      case _ =>
    }
  }

  // ------------------------------------------- what is not can be sorted differently

  /** Another value for one name. */
  lemma PutValue(entries: seq<Entry>, i: nat, value: Json) returns (w: seq<Entry>)
    requires Real(Obj(entries)) && i < |entries| && Real(value) && Same(entries[i].value, value)
    ensures w == entries[i := Entry(entries[i].key, value)] && KeysOf(w) == KeysOf(entries)
    ensures Real(Obj(w)) && Same(Obj(entries), Obj(w))
    ensures forall k :: Has(w, k) <==> Has(entries, k)
  {
    w := entries[i := Entry(entries[i].key, value)];
    assert KeysOf(w) == KeysOf(entries);
    forall k ensures Has(w, k) <==> Has(entries, k) {
      HasIsIn(w, k);
      HasIsIn(entries, k);
    }
    forall j | 0 <= j < |entries|
      ensures Has(w, entries[j].key) && Same(entries[j].value, Lookup(w, entries[j].key).value)
    {
      LookupIs(w, entries[j].key, j);
      RealIsProper(entries[j].value);
      SameAsItself(entries[j].value);
    }
  }

  lemma PutItem(items: seq<Json>, i: nat, item: Json) returns (w: seq<Json>)
    requires Real(List(items)) && i < |items| && Real(item) && Same(items[i], item)
    ensures w == items[i := item] && Real(List(w)) && Same(List(items), List(w))
  {
    w := items[i := item];
    forall j | 0 <= j < |items| ensures Same(items[j], w[j]) {
      RealIsProper(items[j]);
      SameAsItself(items[j]);
    }
  }

  /** Two neighbouring names that are not array indices can change places. */
  function Swapped(entries: seq<Entry>, i: nat): (w: seq<Entry>)
    requires i + 1 < |entries|
    ensures |w| == |entries|
  {
    entries[i := entries[i + 1]][i + 1 := entries[i]]
  }

  lemma SwappedKeys(entries: seq<Entry>, i: nat)
    requires i + 1 < |entries| && Distinct(KeysOf(entries))
    ensures Distinct(KeysOf(Swapped(entries, i))) && Swapped(entries, i) != entries
  {
    assert KeysOf(Swapped(entries, i))[i] == KeysOf(entries)[i + 1];
    assert KeysOf(entries)[i] != KeysOf(entries)[i + 1];
  }

  lemma SwappedLookup(entries: seq<Entry>, i: nat, k: string)
    requires i + 1 < |entries| && Distinct(KeysOf(entries))
    ensures Lookup(Swapped(entries, i), k) == Lookup(entries, k)
  {
    var w, j := Swapped(entries, i), Find(entries, k);
    SwappedKeys(entries, i);
    if j < |entries| {
      LookupIs(w, k, if j == i then i + 1 else if j == i + 1 then i else j);
    } else {
      HasIsIn(w, k);
      assert forall m :: 0 <= m < |entries| ==> KeysOf(entries)[m] != k;
    }
  }

  lemma SwappedIsSame(entries: seq<Entry>, i: nat)
    requires Proper(Obj(entries)) && i + 1 < |entries|
    ensures Same(Obj(entries), Obj(Swapped(entries, i))) && Swapped(entries, i) != entries
    ensures forall k :: Has(Swapped(entries, i), k) <==> Has(entries, k)
  {
    var w := Swapped(entries, i);
    SwappedKeys(entries, i);
    forall k ensures Has(w, k) <==> Has(entries, k) {
      SwappedLookup(entries, i, k);
      assert Has(w, k) <==> Lookup(w, k).Some?;
    }
    forall j | 0 <= j < |entries|
      ensures Has(w, entries[j].key) && Same(entries[j].value, Lookup(w, entries[j].key).value)
    {
      SwappedLookup(entries, i, entries[j].key);
      LookupAt(entries, j);
      SameAsItself(entries[j].value);
    }
  }

  /** Beside an own `constructor`, exchanging two neighbouring names changes the canonical form though not the value. */
  lemma ConstructorKeepsOrder(entries: seq<Entry>, i: nat)
    requires Proper(Obj(entries)) && Has(entries, "constructor") && i + 1 < |entries|
    requires IndexOf(entries[i].key).None? && IndexOf(entries[i + 1].key).None?
    ensures Same(Obj(entries), Obj(Swapped(entries, i))) && Sort(Obj(entries)) != Sort(Obj(Swapped(entries, i)))
  {
    SwappedIsSame(entries, i);
  }

  /** If there is another order, the last two names are not array indices. */
  lemma LastTwo(keys: seq<string>)
    requires InOrder(keys) && !OneOrder(keys)
    ensures |keys| >= 2 && IndexOf(keys[|keys| - 2]).None? && IndexOf(keys[|keys| - 1]).None?
  {
    var n := |keys|;
    var i :| 0 <= i < n - 1 && IndexOf(keys[i]).None?;
    assert KeyBefore(keys[i], keys[n - 1]);
    assert i < n - 2 ==> KeyBefore(keys[i], keys[n - 2]);
  }

  lemma SwappedInOrder(entries: seq<Entry>, i: nat)
    requires i + 2 == |entries| && InOrder(KeysOf(entries))
    requires IndexOf(entries[i].key).None? && IndexOf(entries[i + 1].key).None?
    ensures InOrder(KeysOf(Swapped(entries, i)))
  {
    var keys, w := KeysOf(entries), KeysOf(Swapped(entries, i));
    forall p, q | 0 <= p < q < |w| ensures KeyBefore(w[p], w[q]) {
      if q < i {
        assert KeyBefore(keys[p], keys[q]);
      }
    }
  }

  lemma SwappedIsReal(entries: seq<Entry>, i: nat)
    requires Real(Obj(entries)) && i + 1 < |entries| && InOrder(KeysOf(Swapped(entries, i)))
    ensures Real(Obj(Swapped(entries, i)))
  {
    SwappedKeys(entries, i);
    var w := Swapped(entries, i);
    forall j | 0 <= j < |w| ensures Real(w[j].value) {
      assert w[j] == if j == i then entries[i + 1] else if j == i + 1 then entries[i] else entries[j];
    }
  }

  lemma NamesRearranged(entries: seq<Entry>) returns (w: Json)
    requires Real(Obj(entries)) && !OneOrder(KeysOf(entries))
    ensures Real(w) && Same(Obj(entries), w) && w != Obj(entries)
  {
    var i := |entries| - 2;
    LastTwo(KeysOf(entries));
    SwappedInOrder(entries, i);
    SwappedIsReal(entries, i);
    RealIsProper(Obj(entries));
    hide *;
    SwappedIsSame(entries, i);
    w := Obj(Swapped(entries, i));
  }

  /** What is not rigid has another order. */
  lemma {:induction false} Rearranged(v: Json) returns (w: Json)
    requires Real(v) && !Rigid(v)
    ensures Real(w) && Same(v, w) && w != v
    decreases v
  {
    if v.List? {
      var i :| 0 <= i < |v.items| && !Rigid(v.items[i]);
      var item := Rearranged(v.items[i]);
      var other := PutItem(v.items, i, item);
      w := List(other);
      assert other[i] == item;
    } else if OneOrder(KeysOf(v.entries)) {
      var i :| 0 <= i < |v.entries| && !Rigid(v.entries[i].value);
      var value := Rearranged(v.entries[i].value);
      var other := PutValue(v.entries, i, value);
      w := Obj(other);
      assert other[i].value == value;
    } else {
      w := NamesRearranged(v.entries);
    }
  }

  lemma SortShowsValue(a: seq<Entry>, b: seq<Entry>, i: nat)
    requires |a| == |b| && i < |a| && a[i].key == b[i].key && a[i].key != "__proto__"
    requires Distinct(KeysOf(a)) && Distinct(KeysOf(b)) && !Has(a, "constructor") && !Has(b, "constructor")
    requires Sort(a[i].value) != Sort(b[i].value)
    ensures Sort(Obj(a)) != Sort(Obj(b))
  {
    SortedLookup(a);
    SortedLookup(b);
    LookupAt(a, i);
    LookupAt(b, i);
    assert Lookup(Sort(Obj(a)).entries, a[i].key) == Some(Sort(a[i].value));
    assert Lookup(Sort(Obj(b)).entries, a[i].key) == Some(Sort(b[i].value));
  }

  lemma ItemShows(items: seq<Json>, i: nat, item: Json) returns (w: Json)
    requires Real(List(items)) && i < |items| && Real(item) && Same(items[i], item) && Sort(item) != Sort(items[i])
    ensures Real(w) && Same(List(items), w) && Sort(w) != Sort(List(items))
  {
    var other := PutItem(items, i, item);
    w := List(other);
    assert Sort(w).items[i] == Sort(item) && Sort(List(items)).items[i] == Sort(items[i]);
  }

  lemma ValueShows(entries: seq<Entry>, i: nat, value: Json) returns (w: Json)
    requires Real(Obj(entries)) && !Has(entries, "constructor") && i < |entries| && entries[i].key != "__proto__"
    requires Real(value) && Same(entries[i].value, value) && Sort(value) != Sort(entries[i].value)
    ensures Real(w) && Same(Obj(entries), w) && Sort(w) != Sort(Obj(entries))
  {
    var other := PutValue(entries, i, value);
    SortShowsValue(entries, other, i);
    w := Obj(other);
  }

  lemma UnsortedShows(entries: seq<Entry>) returns (w: Json)
    requires Real(Obj(entries)) && Has(entries, "constructor") && !Rigid(Obj(entries))
    ensures Real(w) && Same(Obj(entries), w) && Sort(w) != Sort(Obj(entries))
  {
    w := Rearranged(Obj(entries));
    assert Has(w.entries, "constructor");
  }

  /** What is not settled can be sorted differently. */
  lemma {:induction false} Unsettled(v: Json) returns (w: Json)
    requires Real(v) && !Settled(v)
    ensures Real(w) && Same(v, w) && Sort(w) != Sort(v)
    decreases v
  {
    if v.List? {
      var i :| 0 <= i < |v.items| && !Settled(v.items[i]);
      var item := Unsettled(v.items[i]);
      w := ItemShows(v.items, i, item);
    } else if Has(v.entries, "constructor") {
      w := UnsortedShows(v.entries);
    } else {
      var i :| 0 <= i < |v.entries| && v.entries[i].key != "__proto__" && !Settled(v.entries[i].value);
      var value := Unsettled(v.entries[i].value);
      w := ValueShows(v.entries, i, value);
    }
  }

  /**
   * The canonical form of a value is independent of the order of names, at every
   * depth, exactly when the value is settled: objects with an own `constructor`,
   * which are not sorted, hold nothing that could come in another order, except
   * where an own `__proto__` is dropped anyway.
   */
  lemma OrderDoesNotMatterIff(v: Json)
    requires Real(v)
    ensures (forall w :: Real(w) && Same(v, w) ==> Sort(v) == Sort(w)) <==> Settled(v)
  {
    if Settled(v) {
      forall w | Real(w) && Same(v, w) ensures Sort(v) == Sort(w) {
        SettledSortsAlike(v, w);
      }
    } else {
      var w := Unsettled(v);
    }
  }
}
