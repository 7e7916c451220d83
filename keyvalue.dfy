/**
 * getKeyValuePairs, shared by all three revisions: a table from field name to
 * the field's value is walked in the order of a key list, and each key whose
 * value is not zero is emitted followed by its value, giving the oscillating
 * ["key1", value1, "key2", value2, ...] list a structured logger takes.
 */
module KeyValue {

  import opened Wrappers

  /**
   * A field value as the Go type switch sees it. KvInterface is a value held
   * in an interface{} field (nil when None); KvSlice is a typed slice or map
   * (such as []Detail) stored into the interface{} table, None for a nil one.
   */
  datatype KvValue<V> =
    | KvString(s: string)
    | KvInt64(n: int)
    | KvInterface(iface: Option<V>)
    | KvSlice(slice: Option<V>)

  /** An element of the oscillating list: a key, or the value after it. */
  datatype KvItem<V> = Key(key: string) | Value(value: KvValue<V>)

  /** The intended test: "" and 0 and nil values are skipped. */
  predicate NonZero<V>(v: KvValue<V>)
  {
    match v
    case KvString(s) => s != ""
    case KvInt64(n) => n != 0
    case KvInterface(o) => o.Some?
    case KvSlice(o) => o.Some?
  }

  /**
   * The test as the Go code performs it: a typed slice boxed in an
   * interface{} compares unequal to nil even when the slice is nil, so it is
   * never skipped.
   */
  predicate NonZeroAsWritten<V>(v: KvValue<V>)
  {
    match v
    case KvString(s) => s != ""
    case KvInt64(n) => n != 0
    case KvInterface(o) => o.Some?
    case KvSlice(_) => true
  }

  predicate Kept<V>(v: KvValue<V>, asWritten: bool)
  {
    if asWritten then NonZeroAsWritten(v) else NonZero(v)
  }

  /** The keys that are emitted: those in the table whose value is kept, in key-list order. */
  function EmittedKeys<V>(table: map<string, KvValue<V>>, keys: seq<string>, asWritten: bool): (r: seq<string>)
    ensures forall k :: k in r <==> k in keys && k in table && Kept(table[k], asWritten)
  {
    if keys == [] then []
    else
      var k := keys[|keys| - 1];
      var r := EmittedKeys(table, keys[..|keys| - 1], asWritten) + (if k in table && Kept(table[k], asWritten) then [k] else []);
      assert forall x :: x in keys <==> x in keys[..|keys| - 1] || x == k by {
        assert keys == keys[..|keys| - 1] + [k];
      }
      r
  }

  /** The oscillating list getKeyValuePairs returns. */
  function Pairs<V>(table: map<string, KvValue<V>>, keys: seq<string>, asWritten: bool): (r: seq<KvItem<V>>)
    ensures |r| == 2 * |EmittedKeys(table, keys, asWritten)|
  {
    if keys == [] then []
    else
      var k := keys[|keys| - 1];
      Pairs(table, keys[..|keys| - 1], asWritten)
      + (if k in table && Kept(table[k], asWritten) then [Key(k), Value(table[k])] else [])
  }

  /** The list alternates keys and values, each value being its key's kept table entry. */
  ghost predicate Alternating<V>(r: seq<KvItem<V>>, table: map<string, KvValue<V>>, asWritten: bool)
  {
    && |r| % 2 == 0
    && (forall i :: 0 <= i < |r| ==> (r[i].Key? <==> i % 2 == 0))
    && (forall i :: 0 <= i < |r| && i % 2 == 1 ==>
          r[i - 1].Key? && r[i - 1].key in table && r[i].Value?
          && r[i].value == table[r[i - 1].key] && Kept(r[i].value, asWritten))
  }

  /** The keys of an alternating list, in order. */
  function KeysOf<V>(r: seq<KvItem<V>>): seq<string>
    requires |r| % 2 == 0
    requires forall i :: 0 <= i < |r| ==> (r[i].Key? <==> i % 2 == 0)
  {
    if r == [] then [] else KeysOf(r[..|r| - 2]) + [r[|r| - 2].key]
  }

  lemma AppendPair<V>(init: seq<KvItem<V>>, table: map<string, KvValue<V>>, asWritten: bool, k: string)
    requires Alternating(init, table, asWritten)
    requires k in table && Kept(table[k], asWritten)
    ensures Alternating(init + [Key(k), Value(table[k])], table, asWritten)
  {
    var r := init + [Key(k), Value(table[k])];
    forall i | 0 <= i < |r| ensures r[i].Key? <==> i % 2 == 0 {
      if i < |init| { assert r[i] == init[i]; }
    }
    forall i | 0 <= i < |r| && i % 2 == 1
      ensures r[i - 1].Key? && r[i - 1].key in table && r[i].Value?
        && r[i].value == table[r[i - 1].key] && Kept(r[i].value, asWritten)
    {
      if i < |init| {
        assert r[i] == init[i] && r[i - 1] == init[i - 1];
      }
    }
  }

  lemma {:induction false} PairsAlternate<V>(table: map<string, KvValue<V>>, keys: seq<string>, asWritten: bool)
    ensures Alternating(Pairs(table, keys, asWritten), table, asWritten)
  {
    if keys != [] {
      var k := keys[|keys| - 1];
      PairsAlternate(table, keys[..|keys| - 1], asWritten);
      if k in table && Kept(table[k], asWritten) {
        AppendPair(Pairs(table, keys[..|keys| - 1], asWritten), table, asWritten, k);
      } else {
        assert Pairs(table, keys, asWritten) == Pairs(table, keys[..|keys| - 1], asWritten) + [];
      }
    }
  }

  /** The emitted keys are the requested keys that are in the table with a kept value, in order. */
  lemma {:induction false} PairsKeys<V>(table: map<string, KvValue<V>>, keys: seq<string>, asWritten: bool)
    ensures Alternating(Pairs(table, keys, asWritten), table, asWritten)
    ensures KeysOf(Pairs(table, keys, asWritten)) == EmittedKeys(table, keys, asWritten)
  {
    PairsAlternate(table, keys, asWritten);
    if keys != [] {
      var k := keys[|keys| - 1];
      var init := Pairs(table, keys[..|keys| - 1], asWritten);
      PairsKeys(table, keys[..|keys| - 1], asWritten);
      var r := Pairs(table, keys, asWritten);
      var emitted := EmittedKeys(table, keys[..|keys| - 1], asWritten);
      if k in table && Kept(table[k], asWritten) {
        assert r == init + [Key(k), Value(table[k])];
        assert r[..|r| - 2] == init && r[|r| - 2] == Key(k);
        assert KeysOf(r) == KeysOf(init) + [k];
        assert EmittedKeys(table, keys, asWritten) == emitted + [k];
      } else {
        assert r == init;
        assert EmittedKeys(table, keys, asWritten) == emitted;
      }
    }
  }

  /** A key that is not in the table, such as "text", is never emitted. */
  lemma AbsentKeyNeverEmitted<V>(table: map<string, KvValue<V>>, keys: seq<string>, asWritten: bool, k: string)
    requires k !in table
    ensures Key(k) !in Pairs(table, keys, asWritten)
  {
    if Key(k) in Pairs(table, keys, asWritten) {
      KeyEmittedOnlyIfRequested(table, keys, asWritten, k);
    }
  }

  /** Only requested keys that are in the table with a kept value are emitted. */
  lemma {:induction false} KeyEmittedOnlyIfRequested<V>(table: map<string, KvValue<V>>, keys: seq<string>, asWritten: bool, k: string)
    requires Key(k) in Pairs(table, keys, asWritten)
    ensures k in keys && k in table && Kept(table[k], asWritten)
  {
    var last := keys[|keys| - 1];
    var init := keys[..|keys| - 1];
    assert keys == init + [last];
    if Key(k) in Pairs(table, init, asWritten) {
      KeyEmittedOnlyIfRequested(table, init, asWritten, k);
    }
  }

  /** getKeyValuePairs: the append loop over the key list. */
  method GetKeyValuePairs<V>(table: map<string, KvValue<V>>, keys: seq<string>) returns (result: seq<KvItem<V>>)
    ensures result == Pairs(table, keys, false)
  {
    result := [];
    var i := 0;
    while i < |keys|
      invariant 0 <= i <= |keys|
      invariant result == Pairs(table, keys[..i], false)
    {
      var key := keys[i];
      assert keys[..i + 1][..i] == keys[..i];
      if key in table {
        var value := table[key];
        match value {
          case KvString(s) =>
            if s != "" {
              result := result + [Key(key), Value(value)];
            }
          case KvInt64(n) =>
            if n != 0 {
              result := result + [Key(key), Value(value)];
            }
          case KvInterface(o) =>
            if o.Some? {
              result := result + [Key(key), Value(value)];
            }
          case KvSlice(o) =>
            if o.Some? {
              result := result + [Key(key), Value(value)];
            }
        }
      }
      i := i + 1;
    }
    assert keys[..|keys|] == keys;
  }

  /**
   * As written, a nil typed slice under a requested key is emitted, where the
   * intended test skips it: the pair ("details", nil []Detail) appears.
   */
  lemma NilSliceEmittedAsWritten<V>(key: string)
    ensures Pairs(map[key := KvValue<V>.KvSlice(None)], [key], true) == [Key(key), Value(KvSlice(None))]
    ensures Pairs(map[key := KvValue<V>.KvSlice(None)], [key], false) == []
  {
    assert [key][..0] == [];
  }

  /** Where no requested slice value is nil, the test as written and the intended test agree. */
  lemma {:induction false} NilTestIrrelevant<V>(table: map<string, KvValue<V>>, keys: seq<string>)
    requires forall k :: k in keys && k in table && table[k].KvSlice? ==> table[k].slice.Some?
    ensures Pairs(table, keys, true) == Pairs(table, keys, false)
  {
    if keys != [] {
      var init := keys[..|keys| - 1];
      var k := keys[|keys| - 1];
      assert keys == init + [k];
      NilTestIrrelevant(table, init);
      var last := if k in table && Kept(table[k], false) then [Key(k), Value(table[k])] else [];
      if k in table {
        assert Kept(table[k], true) == Kept(table[k], false);
      }
      assert Pairs(table, keys, false) == Pairs(table, init, false) + last;
      assert Pairs(table, keys, true) == Pairs(table, init, true) + last;
    }
  }
}
