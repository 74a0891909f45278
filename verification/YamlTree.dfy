/** The parsed form of `gateway.yaml`: a mapping keeps the order of its keys, as a
    Python dict does, because the writer promises not to reorder the file. */
module YamlTree {
  import opened Wrappers

  datatype Tree =
    | Null
    | Flag(flag: bool)
    | Number(number: int)
    | Text(text: string)
    | Items(items: seq<Tree>)
    | Mapping(fields: Fields)

  datatype Field = Field(key: string, value: Tree)

  type Fields = seq<Field>

  // ---- dict operations ------------------------------------------------------

  function Find(fs: Fields, key: string): Option<Tree> {
    if fs == [] then None
    else if fs[0].key == key then Some(fs[0].value)
    else Find(fs[1..], key)
  }

  /** `d[key] = value`: in place when the key exists, else at the end. */
  function Put(fs: Fields, key: string, value: Tree): Fields {
    if fs == [] then [Field(key, value)]
    else if fs[0].key == key then [Field(key, value)] + fs[1..]
    else [fs[0]] + Put(fs[1..], key, value)
  }

  /** The mapping without the given keys; `d.pop(key, None)` is `Without(d, {key})`. */
  function Without(fs: Fields, keys: set<string>): Fields {
    if fs == [] then []
    else (if fs[0].key in keys then [] else [fs[0]]) + Without(fs[1..], keys)
  }

  function Keys(fs: Fields): seq<string> {
    if fs == [] then [] else [fs[0].key] + Keys(fs[1..])
  }

  function Drop(fs: Fields, key: string): Fields {
    Without(fs, {key})
  }

  lemma {:induction false} FindAfterPut(fs: Fields, key: string, value: Tree, other: string)
    ensures Find(Put(fs, key, value), other) == if other == key then Some(value) else Find(fs, other)
  {
    if fs != [] && fs[0].key != key {
      FindAfterPut(fs[1..], key, value, other);
      assert Put(fs, key, value)[1..] == Put(fs[1..], key, value);
    } else if fs != [] {
      assert Put(fs, key, value)[1..] == fs[1..];
    }
  }

  lemma {:induction false} FindAfterWithout(fs: Fields, keys: set<string>, other: string)
    ensures Find(Without(fs, keys), other) == if other in keys then None else Find(fs, other)
  {
    if fs != [] {
      FindAfterWithout(fs[1..], keys, other);
      assert ([fs[0]] + Without(fs[1..], keys))[1..] == Without(fs[1..], keys);
      assert [] + Without(fs[1..], keys) == Without(fs[1..], keys);
    }
  }

  /** Assigning a key keeps the order of the keys and adds a new one at the end. */
  lemma {:induction false} KeysAfterPut(fs: Fields, key: string, value: Tree)
    ensures Keys(Put(fs, key, value)) == if Find(fs, key).Some? then Keys(fs) else Keys(fs) + [key]
  {
    if fs == [] {
    } else if fs[0].key == key {
      assert Put(fs, key, value)[1..] == fs[1..];
    } else {
      KeysAfterPut(fs[1..], key, value);
      assert Put(fs, key, value)[1..] == Put(fs[1..], key, value);
      assert Keys(fs) + [key] == [fs[0].key] + (Keys(fs[1..]) + [key]);
    }
  }

  /** What lies outside `keys` is untouched by an assignment inside `keys`. */
  lemma {:induction false} WithoutAfterPut(fs: Fields, key: string, value: Tree, keys: set<string>)
    requires key in keys
    ensures Without(Put(fs, key, value), keys) == Without(fs, keys)
  {
    if fs == [] {
      assert Put(fs, key, value)[1..] == [];
    } else if fs[0].key == key {
      assert Put(fs, key, value)[1..] == fs[1..];
    } else {
      WithoutAfterPut(fs[1..], key, value, keys);
      assert Put(fs, key, value)[1..] == Put(fs[1..], key, value);
    }
  }

  /** Dropping a key first makes no difference to what lies outside `keys`. */
  lemma {:induction false} WithoutAfterDrop(fs: Fields, key: string, keys: set<string>)
    requires key in keys
    ensures Without(Drop(fs, key), keys) == Without(fs, keys)
  {
    if fs != [] {
      WithoutAfterDrop(fs[1..], key, keys);
      if fs[0].key == key {
        assert Drop(fs, key) == Drop(fs[1..], key);
      } else {
        assert Drop(fs, key)[1..] == Drop(fs[1..], key);
      }
    }
  }

  lemma {:induction false} DropPutCommute(fs: Fields, key: string, value: Tree, gone: string)
    requires key != gone
    ensures Drop(Put(fs, key, value), gone) == Put(Drop(fs, gone), key, value)
  {
    if fs == [] {
      assert [Field(key, value)][1..] == [];
    } else if fs[0].key == key {
      assert Put(fs, key, value)[1..] == fs[1..];
      assert ([fs[0]] + Drop(fs[1..], gone))[1..] == Drop(fs[1..], gone);
    } else {
      DropPutCommute(fs[1..], key, value, gone);
      assert Put(fs, key, value)[1..] == Put(fs[1..], key, value);
      if fs[0].key == gone {
        assert Drop(fs, gone) == Drop(fs[1..], gone);
      } else {
        assert Drop(fs, gone)[1..] == Drop(fs[1..], gone);
      }
    }
  }

  // ---- placeholder expansion ------------------------------------------------

  type Environment = string -> Outcome<Tree>

  /** `${VAR}` expansion over a parsed tree: depth first, in document order; the
      first string that cannot be expanded ends it.  Keys are not expanded. */
  function Expand(env: Environment, t: Tree): Outcome<Tree>
    decreases t, 1
  {
    match t
    case Text(s) => env(s)
    case Mapping(fs) => var e :- ExpandFields(env, fs); Ok(Mapping(e))
    case Items(ts) => var e :- ExpandItems(env, ts); Ok(Items(e))
    case _ => Ok(t)
  }

  function ExpandFields(env: Environment, fs: Fields): Outcome<Fields>
    decreases fs, 0
  {
    if fs == [] then Ok([])
    else
      var v :- Expand(env, fs[0].value);
      var rest :- ExpandFields(env, fs[1..]);
      Ok([Field(fs[0].key, v)] + rest)
  }

  function ExpandItems(env: Environment, ts: seq<Tree>): Outcome<seq<Tree>>
    decreases ts, 0
  {
    if ts == [] then Ok([])
    else
      var v :- Expand(env, ts[0]);
      var rest :- ExpandItems(env, ts[1..]);
      Ok([v] + rest)
  }

  lemma {:induction false} FindAfterExpand(env: Environment, fs: Fields, key: string)
    requires ExpandFields(env, fs).Ok?
    ensures Find(fs, key).None? ==> Find(ExpandFields(env, fs).value, key).None?
    ensures Find(fs, key).Some? ==>
              Expand(env, Find(fs, key).value).Ok? &&
              Find(ExpandFields(env, fs).value, key) == Some(Expand(env, Find(fs, key).value).value)
  {
    if fs != [] {
      FindAfterExpand(env, fs[1..], key);
      assert ExpandFields(env, fs).value[1..] == ExpandFields(env, fs[1..]).value;
    }
  }

  /** Expanding after an assignment: every other field is expanded as before, so
      the result depends on the new value alone. */
  lemma {:induction false} ExpandAfterPut(env: Environment, fs: Fields, key: string, value: Tree)
    requires ExpandFields(env, fs).Ok?
    ensures ExpandFields(env, Put(fs, key, value)) ==
            Expand(env, value).Map(t => Put(ExpandFields(env, fs).value, key, t))
  {
    var put := Put(fs, key, value);
    if fs == [] {
      assert put[1..] == [];
      if Expand(env, value).Ok? {
        assert [Field(key, Expand(env, value).value)] + [] == Put([], key, Expand(env, value).value);
      }
    } else {
      var e := ExpandFields(env, fs).value;
      assert e[1..] == ExpandFields(env, fs[1..]).value;
      if fs[0].key == key {
        assert put[1..] == fs[1..];
      } else {
        ExpandAfterPut(env, fs[1..], key, value);
        assert put[1..] == Put(fs[1..], key, value);
        assert e[0] == Field(fs[0].key, Expand(env, fs[0].value).value);
      }
    }
  }

  lemma {:induction false} ExpandAfterWithout(env: Environment, fs: Fields, keys: set<string>)
    requires ExpandFields(env, fs).Ok?
    ensures ExpandFields(env, Without(fs, keys)) == Ok(Without(ExpandFields(env, fs).value, keys))
  {
    if fs != [] {
      ExpandAfterWithout(env, fs[1..], keys);
      var e := ExpandFields(env, fs).value;
      assert e[1..] == ExpandFields(env, fs[1..]).value;
      if fs[0].key in keys {
        assert Without(fs, keys) == Without(fs[1..], keys);
        assert Without(e, keys) == Without(e[1..], keys);
      } else {
        assert Without(fs, keys)[1..] == Without(fs[1..], keys);
        assert Without(e, keys) == [e[0]] + Without(e[1..], keys);
      }
    }
  }

  lemma {:induction false} ExpandItemAt(env: Environment, ts: seq<Tree>, i: nat)
    requires i < |ts| && ExpandItems(env, ts).Ok?
    ensures |ExpandItems(env, ts).value| == |ts|
    ensures Expand(env, ts[i]) == Ok(ExpandItems(env, ts).value[i])
  {
    if i > 0 {
      ExpandItemAt(env, ts[1..], i - 1);
    } else if |ts| > 1 {
      ExpandItemAt(env, ts[1..], 0);
    }
  }

  lemma {:induction false} ExpandAfterItemUpdate(env: Environment, ts: seq<Tree>, i: nat, value: Tree)
    requires i < |ts| && ExpandItems(env, ts).Ok?
    ensures |ExpandItems(env, ts).value| == |ts|
    ensures ExpandItems(env, ts[i := value]) ==
            Expand(env, value).Map(t => ExpandItems(env, ts).value[i := t])
  {
    ExpandItemAt(env, ts, i);
    var e := ExpandItems(env, ts).value;
    assert e[1..] == ExpandItems(env, ts[1..]).value;
    if i == 0 {
      assert ts[0 := value][1..] == ts[1..];
      if Expand(env, value).Ok? {
        assert e[0 := Expand(env, value).value] == [Expand(env, value).value] + e[1..];
      }
    } else {
      ExpandAfterItemUpdate(env, ts[1..], i - 1, value);
      assert ts[i := value][1..] == ts[1..][i - 1 := value];
      if Expand(env, value).Ok? {
        assert e[i := Expand(env, value).value] == [e[0]] + e[1..][i - 1 := Expand(env, value).value];
      }
    }
  }

  lemma {:induction false} ExpandAppend(env: Environment, ts: seq<Tree>, value: Tree)
    requires ExpandItems(env, ts).Ok?
    ensures ExpandItems(env, ts + [value]) ==
            Expand(env, value).Map(t => ExpandItems(env, ts).value + [t])
  {
    if ts == [] {
      assert ts + [value] == [value];
      assert [value][1..] == [];
      if Expand(env, value).Ok? {
        assert [Expand(env, value).value] + [] == [] + [Expand(env, value).value];
      }
    } else {
      ExpandAppend(env, ts[1..], value);
      assert (ts + [value])[1..] == ts[1..] + [value];
      var e, rest := ExpandItems(env, ts).value, ExpandItems(env, ts[1..]).value;
      if Expand(env, value).Ok? {
        var v := Expand(env, value).value;
        assert [e[0]] + (rest + [v]) == e + [v];
      }
    }
  }

  function RemoveAt<T>(ts: seq<T>, i: nat): seq<T>
    requires i < |ts|
  {
    ts[..i] + ts[i + 1..]
  }

  lemma {:induction false} ExpandAfterRemoval(env: Environment, ts: seq<Tree>, i: nat)
    requires i < |ts| && ExpandItems(env, ts).Ok?
    ensures |ExpandItems(env, ts).value| == |ts|
    ensures ExpandItems(env, RemoveAt(ts, i)) == Ok(RemoveAt(ExpandItems(env, ts).value, i))
  {
    ExpandItemAt(env, ts, i);
    var e := ExpandItems(env, ts).value;
    assert e == [e[0]] + ExpandItems(env, ts[1..]).value;
    if i == 0 {
      assert RemoveAt(ts, 0) == ts[1..];
      assert RemoveAt(e, 0) == e[1..];
    } else {
      ExpandAfterRemoval(env, ts[1..], i - 1);
      RemoveAtTail(ts, i);
      RemoveAtTail(e, i);
    }
  }

  lemma RemoveAtTail<T>(ts: seq<T>, i: nat)
    requires 0 < i < |ts|
    ensures RemoveAt(ts, i) == [ts[0]] + RemoveAt(ts[1..], i - 1)
  {
  }
}
