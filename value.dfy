/** The values a parsed YAML configuration is made of, as the Python program
    sees them after `yaml.safe_load`: strings, integers, booleans, `None`,
    lists and dictionaries with string keys. A Python dictionary remembers the
    order in which its keys were first inserted, and that order decides the
    order of rendered table rows, so a dictionary is modelled as the sequence
    of its keys in insertion order beside the map from keys to values. */
module Values {

  datatype Value =
    | Str(s: string)
    | Int(n: int)
    | Bool(b: bool)
    | Null
    | List(items: seq<Value>)
    | Dict(obj: Obj)

  /** An insertion-ordered dictionary: `keys` lists every key once, oldest first. */
  datatype Obj = Obj(keys: seq<string>, entries: map<string, Value>)

  /** The failures the program reports. `BadParameter` and `FileNotFound` carry
      the message text the program builds; `ParseError` stands for a YAML file
      that does not parse; `WrongShape` stands for the AttributeError or
      TypeError Python raises when a value has a shape the code does not expect
      (for example a stack that is a list instead of a mapping). */
  datatype Failure =
    | BadParameter(message: string)
    | FileNotFound(message: string)
    | ParseError
    | WrongShape

  datatype Result<T> = Ok(value: T) | Err(error: Failure)

  datatype Option<T> = None | Some(value: T)

  /** The values of a sequence of results, in order, or the first failure:
      what a loop that stops at its first error collects. */
  function Collect<T>(rs: seq<Result<T>>): Result<seq<T>>
  {
    if rs == [] then Ok([])
    else
      match Collect(rs[..|rs| - 1])
      case Err(e) => Err(e)
      case Ok(xs) =>
        match rs[|rs| - 1]
        case Err(e) => Err(e)
        case Ok(x) => Ok(xs + [x])
  }

  /** Collecting succeeds exactly when every result does, and then yields
      one value per result, in order. */
  lemma {:induction false} CollectMeaning<T>(rs: seq<Result<T>>)
    ensures Collect(rs).Ok? <==> forall i :: 0 <= i < |rs| ==> rs[i].Ok?
    ensures Collect(rs).Ok? ==>
              && |Collect(rs).value| == |rs|
              && forall i :: 0 <= i < |rs| ==> rs[i] == Ok(Collect(rs).value[i])
  {
    if rs != [] {
      var init := rs[..|rs| - 1];
      CollectMeaning(init);
      assert forall i :: 0 <= i < |init| ==> init[i] == rs[i];
    }
  }

  /** Collecting fails with the first failure: the one after a prefix that
      collects. */
  lemma {:induction false} CollectFirstFailure<T>(rs: seq<Result<T>>, n: nat)
    requires n < |rs| && Collect(rs[..n]).Ok? && rs[n].Err?
    ensures Collect(rs) == Err(rs[n].error)
    decreases |rs|
  {
    var init := rs[..|rs| - 1];
    if n < |rs| - 1 {
      assert init[..n] == rs[..n];
      CollectFirstFailure(init, n);
    } else {
      assert init == rs[..n];
    }
  }

  predicate Distinct(s: seq<string>)
  {
    forall i, j :: 0 <= i < j < |s| ==> s[i] != s[j]
  }

  /** Every dictionary, at any depth, lists each of its keys exactly once. */
  ghost predicate WellFormed(v: Value)
    decreases v
  {
    match v
    case List(xs) => forall i {:trigger WellFormed(xs[i])} :: 0 <= i < |xs| ==> WellFormed(xs[i])
    case Dict(o) => WellFormedObj(o)
    case _ => true
  }

  ghost predicate WellFormedObj(o: Obj)
    decreases o
  {
    && KeysListed(o)
    && (forall k {:trigger WellFormed(o.entries[k])} :: k in o.entries ==> WellFormed(o.entries[k]))
  }

  /** The dictionary itself, not looking inside its values: each key is
      listed exactly once and every listed key has an entry. */
  ghost predicate KeysListed(o: Obj)
  {
    && Distinct(o.keys)
    && (forall k :: k in o.entries <==> k in o.keys)
  }

  /** A dictionary nested under a key of a well-formed dictionary is well-formed. */
  lemma NestedWellFormed(o: Obj, key: string)
    requires WellFormedObj(o) && key in o.entries && o.entries[key].Dict?
    ensures WellFormedObj(o.entries[key].obj)
  {
    assert WellFormed(o.entries[key]);
  }

  const EmptyObj: Obj := Obj([], map[])

  /** `d.get(key, default)` */
  function Get(o: Obj, key: string, default: Value): (r: Value)
    ensures key in o.entries ==> r == o.entries[key]
    ensures key !in o.entries ==> r == default
  {
    if key in o.entries then o.entries[key] else default
  }

  /** `d[key] = v`: an existing key keeps its place in the order, a new key
      goes last. */
  function Put(o: Obj, key: string, v: Value): (r: Obj)
    ensures r.entries == o.entries[key := v]
    ensures key in o.entries ==> r.keys == o.keys
    ensures key !in o.entries ==> r.keys == o.keys + [key]
  {
    if key in o.entries then Obj(o.keys, o.entries[key := v])
    else Obj(o.keys + [key], o.entries[key := v])
  }

  /** Assignment keeps a dictionary well-formed. */
  lemma PutWellFormed(o: Obj, key: string, v: Value)
    requires WellFormedObj(o) && WellFormed(v)
    ensures WellFormedObj(Put(o, key, v))
  {
    var r := Put(o, key, v);
    forall k | k in r.entries ensures WellFormed(r.entries[k]) {
      if k != key {
        assert WellFormed(o.entries[k]);
      }
    }
  }

  /** Python's truth value of a parsed YAML value (`if x:` and `x or y`):
      empty collections, the empty string, zero, `False` and `None` are
      false. */
  function Truthy(v: Value): (b: bool)
    ensures v.Dict? && KeysListed(v.obj) ==> (b <==> v.obj.entries != map[])
    ensures v.List? ==> (b <==> |v.items| > 0)
    ensures v.Str? ==> (b <==> |v.s| > 0)
    ensures v == Null ==> !b
  {
    match v
    case Str(s) => s != ""
    case Int(n) => n != 0
    case Bool(b) => b
    case Null => false
    case List(xs) => xs != []
    case Dict(o) =>
      assert KeysListed(o) && o.keys != [] ==> o.keys[0] in o.entries;
      assert KeysListed(o) && o.keys == [] ==> o.entries.Keys == {};
      o.keys != []
  }
}
