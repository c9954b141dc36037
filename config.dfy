/** The layered configuration of `biucingcli/config.py`: the recursive merge
    of a user override into the built-in defaults (`deep_merge`), reading the
    optional user file (`load_user_config`) and combining the two
    (`build_config`).

    `Merge` is the meaning of `deep_merge`, written as the same left-to-right
    walk over the override's keys; `MergeShape` characterises its result in
    closed form, and the lemmas after it state the merge rules one by one.
    `ConfigDict.DeepMerge` is the in-place procedure, proved to produce
    exactly `Merge`. */
module Config {
  import opened Values

  // ---------------------------------------------------------------------
  // The merge, as a function

  /** The value `deep_merge` leaves under `key` when the override holds
      `value` there: a mapping over a dictionary is merged into it, anything
      else replaces what was there. */
  function MergeAt(base: Obj, key: string, value: Value): (r: Value)
    ensures r.Dict? <==> value.Dict?
    ensures !value.Dict? ==> r == value
    ensures value.Dict? && key in base.entries && base.entries[key].Dict? ==>
              base.entries[key].obj.keys <= r.obj.keys
    decreases value, 0
  {
    if value.Dict? && key in base.entries && base.entries[key].Dict? then
      Dict(Merge(base.entries[key].obj, value.obj))
    else
      value
  }

  /** `deep_merge(base, over)`: the state of `base` after the merge. */
  function Merge(base: Obj, over: Obj): (r: Obj)
    ensures base.keys <= r.keys
    ensures base.entries.Keys <= r.entries.Keys
    ensures over.keys == [] ==> r == base
    decreases over, 2
  {
    MergeFrom(base, over, 0)
  }

  /** The merge loop from the override's `i`-th key on, applied to `base`.
      In a well-formed override every listed key has an entry; the guard only
      makes the function total on dictionaries that are not well-formed. */
  function MergeFrom(base: Obj, over: Obj, i: nat): (r: Obj)
    requires i <= |over.keys|
    ensures base.keys <= r.keys
    ensures base.entries.Keys <= r.entries.Keys
    decreases over, 1, |over.keys| - i
  {
    if i == |over.keys| then
      base
    else
      var key := over.keys[i];
      if key in over.entries then
        MergeFrom(Put(base, key, MergeAt(base, key, over.entries[key])), over, i + 1)
      else
        MergeFrom(base, over, i + 1)
  }

  /** The keys of `ks` that are not in `present`, in the order of `ks`. */
  function NewKeys(ks: seq<string>, present: set<string>): (r: seq<string>)
    ensures forall k {:trigger k in r} :: k in r <==> k in ks && k !in present
  {
    if ks == [] then []
    else if ks[0] in present then NewKeys(ks[1..], present)
    else [ks[0]] + NewKeys(ks[1..], present)
  }

  lemma {:induction false} NewKeysIgnores(ks: seq<string>, present: set<string>, key: string)
    requires key !in ks
    ensures NewKeys(ks, present + {key}) == NewKeys(ks, present)
  {
    if ks != [] {
      NewKeysIgnores(ks[1..], present, key);
    }
  }

  lemma {:induction false} NewKeysOfPresent(ks: seq<string>, present: set<string>)
    requires forall k :: k in ks ==> k in present
    ensures NewKeys(ks, present) == []
  {
    if ks != [] {
      NewKeysOfPresent(ks[1..], present);
    }
  }

  lemma {:induction false} NewKeysOfAbsent(ks: seq<string>)
    ensures NewKeys(ks, {}) == ks
  {
    if ks != [] {
      NewKeysOfAbsent(ks[1..]);
    }
  }

  /** Splitting off the first key, when it does not occur again. */
  lemma NewKeysStep(ks: seq<string>, present: set<string>)
    requires ks != [] && ks[0] !in ks[1..]
    ensures NewKeys(ks, present) == NewKeys([ks[0]], present) + NewKeys(ks[1..], present + {ks[0]})
  {
    NewKeysIgnores(ks[1..], present, ks[0]);
    assert [ks[0]][1..] == [];
  }

  /** One step of the merge loop. */
  lemma MergeFromStep(base: Obj, over: Obj, i: nat)
    requires KeysListed(over) && i < |over.keys|
    ensures var key := over.keys[i];
            MergeFrom(base, over, i) == MergeFrom(Put(base, key, MergeAt(base, key, over.entries[key])), over, i + 1)
  {
  }

  /** The keys after one assignment of the merge loop. */
  lemma PutKeys(o: Obj, key: string, v: Value)
    ensures Put(o, key, v).entries.Keys == o.entries.Keys + {key}
    ensures Put(o, key, v).keys == o.keys + NewKeys([key], o.entries.Keys)
  {
    assert [key][1..] == [];
  }

  /** The merge loop keeps the order of the keys it finds and appends the
      keys it adds, in the override's order. */
  lemma {:induction false} MergeFromKeys(base: Obj, over: Obj, i: nat)
    requires KeysListed(over) && i <= |over.keys|
    ensures MergeFrom(base, over, i).keys == base.keys + NewKeys(over.keys[i..], base.entries.Keys)
    decreases |over.keys| - i
  {
    if i < |over.keys| {
      var key := over.keys[i];
      var next := Put(base, key, MergeAt(base, key, over.entries[key]));
      MergeFromStep(base, over, i);
      MergeFromKeys(next, over, i + 1);
      PutKeys(base, key, MergeAt(base, key, over.entries[key]));
      KeyNotLater(over, i);
      assert over.keys[i..] == [key] + over.keys[i + 1..];
      NewKeysAfterPut(base, next, key, over.keys[i + 1..]);
    }
  }

  /** The key order after one assignment followed by the rest of the loop. */
  lemma NewKeysAfterPut(base: Obj, next: Obj, key: string, rest: seq<string>)
    requires next.keys == base.keys + NewKeys([key], base.entries.Keys)
    requires next.entries.Keys == base.entries.Keys + {key}
    requires key !in rest
    ensures next.keys + NewKeys(rest, next.entries.Keys) == base.keys + NewKeys([key] + rest, base.entries.Keys)
  {
    var present := base.entries.Keys;
    var ks := [key] + rest;
    assert ks[0] == key && ks[1..] == rest;
    NewKeysStep(ks, present);
    var first, later := NewKeys([key], present), NewKeys(rest, present + {key});
    assert NewKeys(ks, present) == first + later;
    JoinAfter(next.keys, base.keys, first, later, NewKeys(ks, present));
  }

  /** Appending the rest to a dictionary's keys grown by `first` is appending
      `first` and then the rest. */
  lemma JoinAfter(grown: seq<string>, keys: seq<string>, first: seq<string>, later: seq<string>, whole: seq<string>)
    requires grown == keys + first && whole == first + later
    ensures grown + later == keys + whole
  {
  }

  /** The `i`-th key of a well-formed dictionary does not occur after `i`. */
  lemma KeyNotLater(o: Obj, i: nat)
    requires Distinct(o.keys) && i < |o.keys|
    ensures o.keys[i] !in o.keys[i + 1..]
  {
    forall j | i + 1 <= j < |o.keys| ensures o.keys[j] != o.keys[i] { }
  }

  /** From the override's `i`-th key on, a key of the base that the rest of
      the loop does not visit keeps its value. */
  lemma {:induction false} MergeFromUntouched(base: Obj, over: Obj, i: nat, k: string)
    requires KeysListed(over) && i <= |over.keys|
    requires k in base.entries && k !in over.keys[i..]
    ensures k in MergeFrom(base, over, i).entries
    ensures MergeFrom(base, over, i).entries[k] == base.entries[k]
    decreases |over.keys| - i
  {
    if i < |over.keys| {
      var key := over.keys[i];
      var next := Put(base, key, MergeAt(base, key, over.entries[key]));
      assert over.keys[i..] == [key] + over.keys[i + 1..];
      MergeFromUntouched(next, over, i + 1, k);
      MergeFromStep(base, over, i);
    }
  }

  /** From the override's `i`-th key on, a key in neither the base nor the
      rest of the override is not added. */
  lemma {:induction false} MergeFromAbsent(base: Obj, over: Obj, i: nat, k: string)
    requires KeysListed(over) && i <= |over.keys|
    requires k !in base.entries && k !in over.keys[i..]
    ensures k !in MergeFrom(base, over, i).entries
    decreases |over.keys| - i
  {
    if i < |over.keys| {
      var key := over.keys[i];
      var next := Put(base, key, MergeAt(base, key, over.entries[key]));
      assert over.keys[i..] == [key] + over.keys[i + 1..];
      MergeFromAbsent(next, over, i + 1, k);
      MergeFromStep(base, over, i);
    }
  }

  /** From the override's `i`-th key on, a key the loop visits ends up
      holding `MergeAt` of the override's value over the base. */
  lemma {:induction false} MergeFromVisited(base: Obj, over: Obj, i: nat, k: string)
    requires KeysListed(over) && i <= |over.keys|
    requires k in over.keys[i..]
    ensures k in over.entries && k in MergeFrom(base, over, i).entries
    ensures MergeFrom(base, over, i).entries[k] == MergeAt(base, k, over.entries[k])
    decreases |over.keys| - i
  {
    var key := over.keys[i];
    var next := Put(base, key, MergeAt(base, key, over.entries[key]));
    assert over.keys[i..] == [key] + over.keys[i + 1..];
    MergeFromStep(base, over, i);
    if k == key {
      KeyNotLater(over, i);
      MergeFromUntouched(next, over, i + 1, k);
    } else {
      MergeFromVisited(next, over, i + 1, k);
      assert MergeAt(next, k, over.entries[k]) == MergeAt(base, k, over.entries[k]);
    }
  }

  /** The merge loop's values: every key it visits holds `MergeAt` of the
      override's value, every other key keeps its value. */
  lemma MergeFromValues(base: Obj, over: Obj, i: nat)
    requires KeysListed(over) && i <= |over.keys|
    ensures var r := MergeFrom(base, over, i);
            && (forall k :: k in r.entries <==> k in base.entries || k in over.keys[i..])
            && (forall k :: k in over.keys[i..] ==> r.entries[k] == MergeAt(base, k, over.entries[k]))
            && (forall k :: k in base.entries && k !in over.keys[i..] ==> r.entries[k] == base.entries[k])
  {
    var r := MergeFrom(base, over, i);
    forall k ensures k in r.entries <==> k in base.entries || k in over.keys[i..] {
      if k in over.keys[i..] {
        MergeFromVisited(base, over, i, k);
      } else if k in base.entries {
        MergeFromUntouched(base, over, i, k);
      } else {
        MergeFromAbsent(base, over, i, k);
      }
    }
    forall k | k in over.keys[i..] ensures r.entries[k] == MergeAt(base, k, over.entries[k]) {
      MergeFromVisited(base, over, i, k);
    }
    forall k | k in base.entries && k !in over.keys[i..] ensures r.entries[k] == base.entries[k] {
      MergeFromUntouched(base, over, i, k);
    }
  }

  /** The merge in closed form: the keys found keep their place, the new
      keys follow in the override's order, every override key holds `MergeAt`
      of its value, and every other key keeps its value. */
  lemma MergeShape(base: Obj, over: Obj)
    requires KeysListed(over)
    ensures var r := Merge(base, over);
            && r.keys == base.keys + NewKeys(over.keys, base.entries.Keys)
            && r.entries.Keys == base.entries.Keys + over.entries.Keys
            && (forall k :: k in over.entries ==> r.entries[k] == MergeAt(base, k, over.entries[k]))
            && (forall k :: k in base.entries && k !in over.entries ==> r.entries[k] == base.entries[k])
  {
    MergeFromKeys(base, over, 0);
    MergeFromValues(base, over, 0);
    assert over.keys[0..] == over.keys;
  }

  // ---------------------------------------------------------------------
  // The merge rules

  /** After the merge the keys are those of the base and of the override. */
  lemma MergeKeySet(base: Obj, over: Obj)
    requires WellFormedObj(over)
    ensures Merge(base, over).entries.Keys == base.entries.Keys + over.entries.Keys
  {
    MergeShape(base, over);
  }

  /** Keys already in the base keep their position; keys new to the base are
      appended in the override's order. */
  lemma MergeKeyOrder(base: Obj, over: Obj)
    requires WellFormedObj(over)
    ensures Merge(base, over).keys == base.keys + NewKeys(over.keys, base.entries.Keys)
  {
    MergeShape(base, over);
  }

  /** A key the override does not mention keeps its value. */
  lemma MergeKeepsUntouched(base: Obj, over: Obj, k: string)
    requires WellFormedObj(over)
    requires k in base.entries && k !in over.entries
    ensures k in Merge(base, over).entries
    ensures Merge(base, over).entries[k] == base.entries[k]
  {
    MergeShape(base, over);
  }

  /** A mapping over a dictionary is merged into it, recursively. */
  lemma MergeRecurses(base: Obj, over: Obj, k: string)
    requires WellFormedObj(over)
    requires k in over.entries && over.entries[k].Dict?
    requires k in base.entries && base.entries[k].Dict?
    ensures k in Merge(base, over).entries
    ensures WellFormedObj(over.entries[k].obj)
    ensures Merge(base, over).entries[k] == Dict(Merge(base.entries[k].obj, over.entries[k].obj))
  {
    MergeShape(base, over);
    NestedWellFormed(over, k);
  }

  /** A scalar or a list in the override replaces the base value wholesale:
      lists are never merged element by element. */
  lemma MergeReplacesNonMapping(base: Obj, over: Obj, k: string)
    requires WellFormedObj(over)
    requires k in over.entries && !over.entries[k].Dict?
    ensures k in Merge(base, over).entries
    ensures Merge(base, over).entries[k] == over.entries[k]
  {
    MergeShape(base, over);
  }

  /** Where the base holds no dictionary (the key is missing, or holds a
      scalar or a list), the override value is stored as it is, even when it
      is a mapping. */
  lemma MergeReplacesNonDictBase(base: Obj, over: Obj, k: string)
    requires WellFormedObj(over)
    requires k in over.entries
    requires k !in base.entries || !base.entries[k].Dict?
    ensures k in Merge(base, over).entries
    ensures Merge(base, over).entries[k] == over.entries[k]
  {
    MergeShape(base, over);
  }

  /** Merging into an empty dictionary yields the override itself. */
  lemma MergeIntoEmpty(over: Obj)
    requires WellFormedObj(over)
    ensures Merge(EmptyObj, over) == over
  {
    var r := Merge(EmptyObj, over);
    assert r.keys == over.keys by {
      MergeKeyOrder(EmptyObj, over);
      NewKeysOfAbsent(over.keys);
      assert EmptyObj.entries.Keys == {};
      assert EmptyObj.keys + over.keys == over.keys;
    }
    assert r.entries.Keys == over.entries.Keys by {
      MergeKeySet(EmptyObj, over);
    }
    forall k | k in over.entries ensures r.entries[k] == over.entries[k] {
      MergeReplacesNonDictBase(EmptyObj, over, k);
    }
    assert r.entries == over.entries;
  }

  /** Merging a dictionary into itself changes nothing. */
  lemma {:induction false} MergeSelf(o: Obj)
    requires WellFormedObj(o)
    ensures Merge(o, o) == o
    decreases o
  {
    var r := Merge(o, o);
    assert r.keys == o.keys by {
      MergeKeyOrder(o, o);
      NewKeysOfPresent(o.keys, o.entries.Keys);
      assert o.keys + [] == o.keys;
    }
    assert r.entries.Keys == o.entries.Keys by {
      MergeKeySet(o, o);
    }
    forall k | k in o.entries ensures r.entries[k] == o.entries[k] {
      if o.entries[k].Dict? {
        MergeRecurses(o, o, k);
        MergeSelf(o.entries[k].obj);
      } else {
        MergeReplacesNonMapping(o, o, k);
      }
    }
    assert r.entries == o.entries;
  }

  /** Applying the same override twice is the same as applying it once. */
  lemma {:induction false} MergeIdempotent(base: Obj, over: Obj)
    requires WellFormedObj(over)
    ensures Merge(Merge(base, over), over) == Merge(base, over)
    decreases over
  {
    var once := Merge(base, over);
    var twice := Merge(once, over);
    assert once.entries.Keys == base.entries.Keys + over.entries.Keys by {
      MergeKeySet(base, over);
    }
    assert twice.keys == once.keys by {
      MergeKeyOrder(once, over);
      NewKeysOfPresent(over.keys, once.entries.Keys);
      assert once.keys + [] == once.keys;
    }
    assert twice.entries.Keys == once.entries.Keys by {
      MergeKeySet(once, over);
    }
    forall k | k in twice.entries ensures twice.entries[k] == once.entries[k] {
      if k in over.entries {
        var v := over.entries[k];
        if v.Dict? {
          if k in base.entries && base.entries[k].Dict? {
            MergeRecurses(base, over, k);
            MergeRecurses(once, over, k);
            MergeIdempotent(base.entries[k].obj, v.obj);
          } else {
            MergeReplacesNonDictBase(base, over, k);
            MergeRecurses(once, over, k);
            MergeSelf(v.obj);
          }
        } else {
          MergeReplacesNonMapping(base, over, k);
          MergeReplacesNonMapping(once, over, k);
        }
      } else {
        MergeKeepsUntouched(once, over, k);
      }
    }
    assert twice.entries == once.entries;
  }

  lemma {:induction false} NewKeysDistinct(ks: seq<string>, present: set<string>)
    requires Distinct(ks)
    ensures Distinct(NewKeys(ks, present))
  {
    if ks != [] {
      NewKeysDistinct(ks[1..], present);
      assert ks[0] !in ks[1..];
      assert ks[0] !in NewKeys(ks[1..], present);
    }
  }

  /** Merging keeps a dictionary well-formed: every key is listed exactly
      once, at every depth. */
  lemma {:induction false} MergeWellFormed(base: Obj, over: Obj)
    requires WellFormedObj(base) && WellFormedObj(over)
    ensures WellFormedObj(Merge(base, over))
    decreases over
  {
    var r := Merge(base, over);
    var added := NewKeys(over.keys, base.entries.Keys);
    assert r.keys == base.keys + added by {
      MergeKeyOrder(base, over);
    }
    assert r.entries.Keys == base.entries.Keys + over.entries.Keys by {
      MergeKeySet(base, over);
    }
    NewKeysDistinct(over.keys, base.entries.Keys);
    assert Distinct(r.keys) by {
      forall i, j | 0 <= i < j < |r.keys| ensures r.keys[i] != r.keys[j] {
        if j >= |base.keys| {
          assert r.keys[j] in added;
          if i < |base.keys| {
            assert r.keys[i] in base.keys;
          } else {
            assert r.keys[i] == added[i - |base.keys|] && r.keys[j] == added[j - |base.keys|];
          }
        }
      }
    }
    forall k | k in r.entries ensures WellFormed(r.entries[k]) {
      if k in over.entries {
        var v := over.entries[k];
        assert WellFormed(v);
        if v.Dict? && k in base.entries && base.entries[k].Dict? {
          MergeRecurses(base, over, k);
          NestedWellFormed(base, k);
          MergeWellFormed(base.entries[k].obj, v.obj);
        } else if v.Dict? {
          MergeReplacesNonDictBase(base, over, k);
        } else {
          MergeReplacesNonMapping(base, over, k);
        }
      } else {
        MergeKeepsUntouched(base, over, k);
        assert WellFormed(base.entries[k]);
      }
    }
  }

  /** The one-key dictionary `{key: v}`. */
  function Single(key: string, v: Value): (r: Obj)
    ensures WellFormed(v) ==> WellFormedObj(r)
  {
    Obj([key], map[key := v])
  }

  /** A user file that sets only `frontend.stacks.react.description` changes
      that description and keeps the stack's tools and everything else. */
  lemma OverrideDescriptionKeepsTools(tools: Value, before: string, after: string)
    requires WellFormed(tools)
    ensures var react := Obj(["description", "tools"], map["description" := Str(before), "tools" := tools]);
            var base := Single("frontend", Dict(Single("stacks", Dict(Single("react", Dict(react))))));
            var over := Single("frontend", Dict(Single("stacks", Dict(Single("react", Dict(Single("description", Str(after))))))));
            var want := Obj(["description", "tools"], map["description" := Str(after), "tools" := tools]);
            && WellFormed(Dict(Single("description", Str(after))))
            && WellFormed(Dict(Single("react", Dict(Single("description", Str(after))))))
            && WellFormed(Dict(Single("stacks", Dict(Single("react", Dict(Single("description", Str(after))))))))
            && Merge(base, over) == Single("frontend", Dict(Single("stacks", Dict(Single("react", Dict(want))))))
  {
    var react := Obj(["description", "tools"], map["description" := Str(before), "tools" := tools]);
    var want := Obj(["description", "tools"], map["description" := Str(after), "tools" := tools]);
    var desc := Single("description", Str(after));
    assert Merge(react, desc) == want by {
      var r := Merge(react, desc);
      assert r.keys == want.keys by {
        MergeKeyOrder(react, desc);
      }
      assert r.entries.Keys == want.entries.Keys by {
        MergeKeySet(react, desc);
      }
      MergeReplacesNonMapping(react, desc, "description");
      MergeKeepsUntouched(react, desc, "tools");
      assert r.entries == want.entries;
    }
    MergeSingle("react", react, desc);
    var stacksBase := Single("react", Dict(react));
    var stacksOver := Single("react", Dict(desc));
    MergeSingle("stacks", stacksBase, stacksOver);
    MergeSingle("frontend", Single("stacks", Dict(stacksBase)), Single("stacks", Dict(stacksOver)));
  }

  /** Merging one nested mapping into a dictionary that holds only a
      dictionary under the same key merges the two. */
  lemma MergeSingle(key: string, base: Obj, over: Obj)
    requires WellFormedObj(over)
    ensures Merge(Single(key, Dict(base)), Single(key, Dict(over))) == Single(key, Dict(Merge(base, over)))
  {
    var b, o := Single(key, Dict(base)), Single(key, Dict(over));
    assert WellFormedObj(o);
    var r := Merge(b, o);
    assert r.keys == [key] by {
      MergeKeyOrder(b, o);
      NewKeysOfPresent(o.keys, b.entries.Keys);
    }
    assert r.entries.Keys == {key} by {
      MergeKeySet(b, o);
    }
    MergeRecurses(b, o, key);
    assert r.entries == Single(key, Dict(Merge(base, over))).entries;
  }

  // ---------------------------------------------------------------------
  // The merge, in place

  /** A Python dictionary that `deep_merge` updates in place. Nested
      dictionaries are held as values: merging into one builds a temporary
      `ConfigDict` for it and stores the result back under its key. */
  class ConfigDict {
    var keys: seq<string>
    var entries: map<string, Value>

    function Contents(): Obj
      reads this
    {
      Obj(keys, entries)
    }

    ghost predicate Valid()
      reads this
    {
      WellFormedObj(Contents())
    }

    constructor (init: Obj)
      requires WellFormedObj(init)
      ensures Valid() && Contents() == init
    {
      keys := init.keys;
      entries := init.entries;
    }

    /** `deep_merge(self, over)`: merges `over` into this dictionary and
        returns this same dictionary. */
    method DeepMerge(over: Obj) returns (r: ConfigDict)
      requires Valid() && WellFormedObj(over)
      modifies this
      ensures r == this && Valid()
      ensures Contents() == Merge(old(Contents()), over)
      decreases over, 1
    {
      var i := 0;
      while i < |over.keys|
        invariant 0 <= i <= |over.keys| && Valid()
        invariant MergeFrom(Contents(), over, i) == Merge(old(Contents()), over)
      {
        ghost var prev := Contents();
        var key := over.keys[i];
        assert WellFormed(over.entries[key]);
        MergeKey(key, over.entries[key]);
        MergeFromStep(prev, over, i);
        i := i + 1;
      }
      r := this;
    }

    /** One pass of the loop in `deep_merge`: a mapping over a dictionary
        is merged into that dictionary, any other value is stored as is. */
    method MergeKey(key: string, value: Value)
      requires Valid() && WellFormed(value)
      modifies this
      ensures Valid()
      ensures Contents() == Put(old(Contents()), key, MergeAt(old(Contents()), key, value))
      decreases value, 0
    {
      var existing := if key in entries then Some(entries[key]) else None;
      if value.Dict? && existing.Some? && existing.value.Dict? {
        NestedWellFormed(Contents(), key);
        var child := new ConfigDict(existing.value.obj);
        var _ := child.DeepMerge(value.obj);
        PutWellFormed(Contents(), key, Dict(child.Contents()));
        entries := entries[key := Dict(child.Contents())];
      } else {
        PutWellFormed(Contents(), key, value);
        if key !in entries {
          keys := keys + [key];
        }
        entries := entries[key := value];
      }
    }
  }

  // ---------------------------------------------------------------------
  // Loading the override and building the effective configuration

  /** What the filesystem holds at the resolved user configuration path:
      nothing, a file YAML cannot parse, or a file that parses to a value. */
  datatype ConfigFile = Missing | Unparsable | Present(parsed: Value)

  /** `Path.home() / ".config" / "biucingcli" / "config.yaml"`: the file
      `config.yaml` in the `.config/biucingcli` directory under the home
      directory. */
  function DefaultConfigPath(home: string): (r: string)
    ensures home <= r
    ensures r[|home|..] == "/.config/biucingcli/config.yaml"
  {
    home + "/.config/biucingcli/config.yaml"
  }

  /** `load_user_config(path, strict=strict)` when the file at the resolved
      path is `file`. */
  function LoadUserConfig(path: Option<string>, home: string, file: ConfigFile, strict: bool): (r: Result<Value>)
    ensures file.Missing? && !strict ==> r == Ok(Dict(EmptyObj))
    ensures file.Missing? && strict ==>
              r == Err(FileNotFound("Config file not found: " + (if path.Some? then path.value else DefaultConfigPath(home))))
    ensures file.Unparsable? ==> r == Err(ParseError)
    ensures file.Present? ==> r.Ok? && (Truthy(file.parsed) ==> r.value == file.parsed)
    ensures file.Present? && !Truthy(file.parsed) ==> r == Ok(Dict(EmptyObj))
    ensures r.Ok? ==> Truthy(r.value) || r.value == Dict(EmptyObj)
  {
    var target := if path.Some? then path.value else DefaultConfigPath(home);
    match file
    case Missing =>
      if strict then Err(FileNotFound("Config file not found: " + target)) else Ok(Dict(EmptyObj))
    case Unparsable => Err(ParseError)
    case Present(v) => Ok(if Truthy(v) then v else Dict(EmptyObj))
  }

  /** `build_config(path, strict=strict)`: a fresh copy of the defaults, with
      the user override merged in only when the override is non-empty. */
  method BuildConfig(defaults: Obj, path: Option<string>, home: string, file: ConfigFile, strict: bool)
    returns (r: Result<ConfigDict>)
    requires WellFormedObj(defaults)
    requires file.Present? ==> WellFormed(file.parsed)
    ensures r.Ok? ==> fresh(r.value) && r.value.Valid()
    ensures var loaded := LoadUserConfig(path, home, file, strict);
            && (loaded.Err? ==> r == Err(loaded.error))
            && (loaded.Ok? && !Truthy(loaded.value) ==> r.Ok? && r.value.Contents() == defaults)
            && (loaded.Ok? && Truthy(loaded.value) && loaded.value.Dict? ==>
                  r.Ok? && r.value.Contents() == Merge(defaults, loaded.value.obj))
            && (loaded.Ok? && Truthy(loaded.value) && !loaded.value.Dict? ==> r == Err(WrongShape))
  {
    var config := new ConfigDict(defaults);
    var loaded := LoadUserConfig(path, home, file, strict);
    if loaded.Err? {
      return Err(loaded.error);
    }
    var overrides := loaded.value;
    if Truthy(overrides) {
      if !overrides.Dict? {
        return Err(WrongShape);
      }
      var _ := config.DeepMerge(overrides.obj);
    }
    r := Ok(config);
  }

  /** The `if overrides:` guard of `build_config` never changes the result:
      merging the empty override would have left the defaults as they are. */
  lemma SkippingEmptyOverrideIsMerge(defaults: Obj, path: Option<string>, home: string, file: ConfigFile, strict: bool)
    requires WellFormedObj(defaults)
    requires file.Present? ==> WellFormed(file.parsed)
    requires LoadUserConfig(path, home, file, strict).Ok?
    requires !Truthy(LoadUserConfig(path, home, file, strict).value)
    ensures LoadUserConfig(path, home, file, strict).value == Dict(EmptyObj)
    ensures Merge(defaults, EmptyObj) == defaults
  {
  }
}
