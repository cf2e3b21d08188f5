/**
  The closed set of identifiers (`Enum`): a frozen object whose own keys
  each map to themselves. Because the object is frozen after construction,
  it is modelled as an immutable value: its key list, in insertion order.
 */
module ClosedSets {
  import opened Wrappers
  import opened Seqs

  /** What the constructor is given: an array, a plain object (by its keys), or anything else. */
  datatype Source = ArraySource(elements: seq<string>) | ObjectSource(keys: seq<string>) | OtherSource

  datatype EnumError = NotArrayOrObject

  /** The own property keys of the frozen set, in insertion order. */
  datatype ClosedSet = ClosedSet(keys: seq<string>) {

    /** JavaScript objects never hold a key twice. */
    predicate Valid()
    {
      NoDup(keys)
    }

    /** Property access `set[key]`: the key itself for a member, `undefined` otherwise. */
    function Lookup(key: string): Option<string>
    {
      if key in keys then Some(key) else None
    }
  }

  /** The identifiers a source contributes: array elements or object keys. */
  function Values(source: Source): seq<string>
  {
    match source
    case ArraySource(elements) => elements
    case ObjectSource(keys) => keys
    case OtherSource => []
  }

  /** The closed set over the keys of an object literal of the configuration. */
  function Of(keys: seq<string>): (c: ClosedSet)
    ensures c.Valid()
    ensures forall k :: k in c.keys <==> k in keys
  {
    ClosedSet(Dedup(keys))
  }

  /**
    The constructor: refuses a source that is neither an array nor an
    object; otherwise assigns `this[key] = key` for every value in turn (a
    repeated key keeps its first position) and freezes the result.
   */
  method New(source: Source) returns (r: Result<ClosedSet, EnumError>)
    ensures r.Failure? <==> source.OtherSource?
    ensures r.Success? ==> r.value.Valid() && r.value.keys == Dedup(Values(source))
    ensures r.Success? ==> forall k :: r.value.Lookup(k) == (if k in Values(source) then Some(k) else None)
  {
    if source.OtherSource? {
      return Failure(NotArrayOrObject);
    }
    var values := Values(source);
    var keys: seq<string> := [];
    var i := 0;
    while i < |values|
      invariant 0 <= i <= |values|
      invariant keys == Dedup(values[..i])
    {
      assert values[..i + 1][..i] == values[..i];
      if values[i] !in keys {
        keys := keys + [values[i]];
      }
      i := i + 1;
    }
    assert values[..i] == values;
    r := Success(ClosedSet(keys));
  }

  /** `allValues`: the keys sorted ascending, each once. */
  function AllValues(c: ClosedSet): (r: seq<string>)
    requires c.Valid()
    ensures StrSorted(r) && NoDup(r)
    ensures forall k :: k in r <==> k in c.keys
    ensures |r| == |c.keys|
  {
    var r := StrSort(c.keys);
    NoDupPermutation(c.keys, r);
    assert forall k :: k in r <==> k in multiset(c.keys);
    r
  }

  /** `firstValue`: the first of `allValues`, which is the least member; `undefined` when empty. */
  function FirstValue(c: ClosedSet): (r: Option<string>)
    requires c.Valid()
    ensures r.None? <==> |c.keys| == 0
    ensures r.Some? ==> r.value in c.keys && r.value == AllValues(c)[0]
    ensures r.Some? ==> forall k :: k in c.keys ==> StrLe(r.value, k)
  {
    var all := AllValues(c);
    if |all| == 0 then None
    else
      forall k | k in c.keys ensures StrLe(all[0], k) {
        var j :| 0 <= j < |all| && all[j] == k;
        if j == 0 {
          StrLeRefl(k);
        }
      }
      Some(all[0])
  }

  /** The candidates of `randomValue`: all keys, less the excluded ones when any are given. */
  function Options(c: ClosedSet, exclude: seq<string>): seq<string>
  {
    if |exclude| > 0 then Filter(c.keys, k => k !in exclude) else c.keys
  }

  /** `(length * Math.random()) << 0` for a draw `u` in [0, 1): the index picked. */
  function PickIndex(length: nat, u: real): (i: int)
    requires 0.0 <= u < 1.0
    ensures length > 0 ==> 0 <= i < length
  {
    var x := length as real * u;
    assert length > 0 ==> x < length as real by {
      if length > 0 {
        assert length as real * u < length as real * 1.0;
      }
    }
    x.Floor
  }

  /**
    `randomValue(exclude)`, given the value `u` that `Math.random()`
    returned: a member that is not excluded, or `undefined` when every
    member is excluded.
   */
  function RandomValue(c: ClosedSet, exclude: seq<string>, u: real): (r: Option<string>)
    requires 0.0 <= u < 1.0
    ensures r.Some? ==> r.value in c.keys && r.value !in exclude
    ensures r.Some? <==> exists k :: k in c.keys && k !in exclude
  {
    var options := Options(c, exclude);
    assert forall k :: k in options <==> k in c.keys && k !in exclude;
    var i := PickIndex(|options|, u);
    if 0 <= i < |options| then Some(options[i]) else None
  }

  /** With nothing excluded, `randomValue()` yields a member whenever the set has one. */
  lemma RandomValueNoExclusions(c: ClosedSet, u: real)
    requires 0.0 <= u < 1.0
    ensures RandomValue(c, [], u).Some? <==> |c.keys| > 0
    ensures RandomValue(c, [], u).Some? ==> RandomValue(c, [], u).value in c.keys
  {
    if |c.keys| > 0 {
      assert c.keys[0] in c.keys;
    }
  }
}
