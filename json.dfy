/**
 * Decoded JSON documents and the handful of Python operations the census
 * code applies to them: `v[key]`, a chain of `[key]` lookups (as
 * `reduce(operator.getitem, keys, v)`), `for x in v`, `v.items()` and the
 * hashing a `set` or `dict` key needs.
 */
module Json {
  import opened Wrappers

  /**
   * A JSON document's value. An object keeps its members in document
   * order, repeated keys included. The dict Python's decoder builds from it
   * holds each key once, in the position of its first occurrence and with
   * its last value, so the model's dict operations agree with Python's only
   * on objects with `UniqueKeys`. Numbers are integers (floating-point
   * values are not modelled).
   */
  datatype Json =
    | Null
    | Bool(b: bool)
    | Number(n: int)
    | Str(s: string)
    | Array(items: seq<Json>)
    | Object(members: seq<(string, Json)>)

  /** The Python exceptions the census code raises or catches. */
  datatype Exception = KeyError | TypeError | AttributeError | ValueError(msg: string)

  /** The value stored under `key` in an object's members. */
  function Lookup(members: seq<(string, Json)>, key: string): (r: Option<Json>)
    ensures r.Some? <==> exists i :: 0 <= i < |members| && members[i].0 == key
    ensures r.Some? ==> (key, r.value) in members
  {
    if members == [] then None
    else if members[0].0 == key then Some(members[0].1)
    else Lookup(members[1..], key)
  }

  /** No key occurs twice among an object's members. */
  predicate UniqueKeys(members: seq<(string, Json)>) {
    forall i, j :: 0 <= i < j < |members| ==> members[i].0 != members[j].0
  }

  /** With distinct keys, the lookup finds the one member that carries the key. */
  lemma {:induction false} LookupUnique(members: seq<(string, Json)>, i: nat)
    requires UniqueKeys(members) && i < |members|
    ensures Lookup(members, members[i].0) == Some(members[i].1)
  {
    if i > 0 {
      assert members[0].0 != members[i].0;
      assert UniqueKeys(members[1..]) by {
        forall p, q | 0 <= p < q < |members[1..]|
          ensures members[1..][p].0 != members[1..][q].0
        {
          assert members[1..][p] == members[p + 1] && members[1..][q] == members[q + 1];
        }
      }
      LookupUnique(members[1..], i - 1);
      assert members[1..][i - 1] == members[i];
    }
  }

  /** `v[key]` for a string key: a dict without the key raises KeyError, anything that is not a dict raises TypeError. */
  function GetItem(v: Json, key: string): (r: Result<Json, Exception>)
    ensures r.Success? <==> v.Object? && Lookup(v.members, key).Some?
    ensures r.Success? ==> r.value == Lookup(v.members, key).value
    ensures r.Failure? ==> r.error == (if v.Object? then KeyError else TypeError)
  {
    match v
    case Object(ms) =>
      (match Lookup(ms, key)
       case Some(x) => Success(x)
       case None => Failure(KeyError))
    case _ => Failure(TypeError)
  }

  /** `reduce(operator.getitem, keys, v)`: the lookups run left to right and the first exception propagates. */
  function Walk(v: Json, keys: seq<string>): (r: Result<Json, Exception>)
    ensures r.Failure? ==> r.error == KeyError || r.error == TypeError
    decreases |keys|
  {
    if keys == [] then Success(v)
    else
      match GetItem(v, keys[0])
      case Failure(e) => Failure(e)
      case Success(x) => Walk(x, keys[1..])
  }

  /** A walk along `a + b` is a walk along `a` continued along `b`. */
  lemma {:induction false} WalkAppend(v: Json, a: seq<string>, b: seq<string>)
    ensures Walk(v, a + b) == (match Walk(v, a)
                               case Failure(e) => Failure(e)
                               case Success(x) => Walk(x, b))
    decreases |a|
  {
    if a != [] {
      assert (a + b)[0] == a[0];
      assert (a + b)[1..] == a[1..] + b;
      match GetItem(v, a[0])
      case Failure(e) =>
      case Success(x) => WalkAppend(x, a[1..], b);
    } else {
      assert a + b == b;
    }
  }

  /** After a successful first lookup, a walk along a prefix of the keys is a walk from its value along a prefix of the rest. */
  lemma WalkPrefixes(v: Json, keys: seq<string>, x: Json)
    requires keys != [] && GetItem(v, keys[0]) == Success(x)
    ensures forall i :: 1 <= i <= |keys| ==> Walk(v, keys[..i]) == Walk(x, keys[1..][..i - 1])
  {
    forall i | 1 <= i <= |keys|
      ensures Walk(v, keys[..i]) == Walk(x, keys[1..][..i - 1])
    {
      assert keys[..i][0] == keys[0];
      assert keys[..i][1..] == keys[1..][..i - 1];
    }
  }

  /**
   * A walk raises TypeError exactly when one of its lookups is applied to
   * something that is not a dict, every earlier lookup having succeeded.
   */
  lemma {:induction false} WalkTypeError(v: Json, keys: seq<string>)
    ensures Walk(v, keys) == Failure(TypeError) <==>
      exists i :: 0 <= i < |keys| && Walk(v, keys[..i]).Success? && !Walk(v, keys[..i]).value.Object?
    decreases |keys|
  {
    if keys != [] {
      assert keys[..0] == [];
      var tail := keys[1..];
      match GetItem(v, keys[0])
      case Failure(e) =>
      case Success(x) =>
        WalkTypeError(x, tail);
        WalkPrefixes(v, keys, x);
        if Walk(v, keys) == Failure(TypeError) {
          var j :| 0 <= j < |tail| && Walk(x, tail[..j]).Success? && !Walk(x, tail[..j]).value.Object?;
          assert Walk(v, keys[..j + 1]) == Walk(x, tail[..j]);
        }
    }
  }

  /** A walk raises KeyError exactly when a dict on the path lacks the next key. */
  lemma {:induction false} WalkKeyError(v: Json, keys: seq<string>)
    ensures Walk(v, keys) == Failure(KeyError) <==>
      exists i :: 0 <= i < |keys| && Walk(v, keys[..i]).Success? && Walk(v, keys[..i]).value.Object? &&
        Lookup(Walk(v, keys[..i]).value.members, keys[i]).None?
    decreases |keys|
  {
    if keys != [] {
      assert keys[..0] == [];
      var tail := keys[1..];
      match GetItem(v, keys[0])
      case Failure(e) =>
      case Success(x) =>
        WalkKeyError(x, tail);
        WalkPrefixes(v, keys, x);
        if Walk(v, keys) == Failure(KeyError) {
          var j :| 0 <= j < |tail| && Walk(x, tail[..j]).Success? && Walk(x, tail[..j]).value.Object? &&
            Lookup(Walk(x, tail[..j]).value.members, tail[j]).None?;
          assert Walk(v, keys[..j + 1]) == Walk(x, tail[..j]);
        }
    }
  }

  /** `for x in v`: a list yields its items, a dict its keys, a string its characters; anything else is not iterable. */
  function Iterate(v: Json): (r: Result<seq<Json>, Exception>)
    ensures r.Failure? <==> !(v.Array? || v.Object? || v.Str?)
    ensures r.Failure? ==> r.error == TypeError
    ensures v.Array? ==> r == Success(v.items)
    ensures v.Object? ==>
              && r.Success? && |r.value| == |v.members|
              && forall i :: 0 <= i < |v.members| ==> r.value[i] == Str(v.members[i].0)
    ensures v.Str? ==>
              && r.Success? && |r.value| == |v.s|
              && forall i :: 0 <= i < |v.s| ==> r.value[i] == Str([v.s[i]])
  {
    match v
    case Array(xs) => Success(xs)
    case Object(ms) => Success(seq(|ms|, i requires 0 <= i < |ms| => Str(ms[i].0)))
    case Str(s) => Success(seq(|s|, i requires 0 <= i < |s| => Str([s[i]])))
    case _ => Failure(TypeError)
  }

  /** `v.items()`: only a dict has it. */
  function Items(v: Json): (r: Result<seq<(string, Json)>, Exception>)
    ensures r.Success? <==> v.Object?
    ensures r.Success? ==> r.value == v.members
    ensures r.Failure? ==> r.error == AttributeError
  {
    if v.Object? then Success(v.members) else Failure(AttributeError)
  }

  /**
   * The element a Python set stores when `v` is added, or None when `v` is
   * unhashable (a list or a dict: `v in seen` raises TypeError). True and
   * False hash and compare equal to 1 and 0, so they share those elements.
   */
  function HashKey(v: Json): (k: Option<Json>)
    ensures k.None? <==> v.Array? || v.Object?
    ensures k.Some? ==> !k.value.Bool? && !k.value.Array? && !k.value.Object?
    ensures k.Some? && !v.Bool? ==> k.value == v
    ensures v.Bool? ==> k == Some(Number(if v.b then 1 else 0))
  {
    match v
    case Bool(b) => Some(Number(if b then 1 else 0))
    case Array(_) => None
    case Object(_) => None
    case _ => Some(v)
  }
}
