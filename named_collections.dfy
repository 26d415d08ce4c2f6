/**
 * The ordered, name-keyed collection that the descriptor classes of `scylla_cli`
 * expose as `options`, `commands` and `modules`. Its implementation is not part of
 * this model: only the contract that scylla.py relies on is modelled here, namely
 * items kept in insertion order, `add` appending at the end, `keys()` giving the
 * names in order, and lookup both by position (`[i]`) and by name (`[name]`).
 */
module NamedCollections {

  import opened Wrappers

  /** Position of the first occurrence of `key` in `keys`, if there is one. */
  function IndexOf(keys: seq<string>, key: string): (r: Option<nat>)
    ensures r.None? <==> key !in keys
    ensures r.Some? ==> r.value < |keys| && keys[r.value] == key && key !in keys[..r.value]
  {
    if keys == [] then None
    else if keys[0] == key then Some(0)
    else
      match IndexOf(keys[1..], key)
      case None => None
      case Some(j) =>
        assert keys[..j + 1] == [keys[0]] + keys[1..][..j];
        Some(j + 1)
  }

  /** No name occurs twice. */
  ghost predicate DistinctKeys(keys: seq<string>)
  {
    forall i, j :: 0 <= i < j < |keys| ==> keys[i] != keys[j]
  }

  /**
   * An ordered sequence of items, each added under a name: `keys[i]` is the name
   * of `items[i]`, both in insertion order. `Valid` says no two items share a name.
   */
  class NamedList<T> {
    var keys: seq<string>
    var items: seq<T>

    ghost predicate Valid()
      reads this
    {
      |keys| == |items| && DistinctKeys(keys)
    }

    constructor ()
      ensures keys == [] && items == [] && Valid()
    {
      keys, items := [], [];
    }

    /**
     * `add`: appends `item` under `key` at the end unless an item of that name is
     * already present, in which case nothing changes and `ok` is false.
     */
    method Add(key: string, item: T) returns (ok: bool)
      requires Valid()
      modifies this
      ensures Valid()
      ensures ok <==> key !in old(keys)
      ensures keys == if ok then old(keys) + [key] else old(keys)
      ensures items == if ok then old(items) + [item] else old(items)
    {
      ok := key !in keys;
      if ok {
        keys, items := keys + [key], items + [item];
      }
    }

    /** `[i]`: the item inserted `i`-th, or nothing when `i` is outside `[0, size)`. */
    function At(i: int): (r: Option<T>)
      reads this
      ensures r.Some? <==> 0 <= i < |items|
      ensures r.Some? ==> r.value == items[i]
    {
      if 0 <= i < |items| then Some(items[i]) else None
    }

    /** `[name]`: the item added under `key`, or nothing when no item has that name. */
    function Get(key: string): (r: Option<T>)
      reads this
      requires Valid()
      ensures r.None? <==> key !in keys
      ensures forall i :: 0 <= i < |keys| && keys[i] == key ==> r == Some(items[i])
    {
      match IndexOf(keys, key)
      case None => None
      case Some(i) => Some(items[i])
    }

    /**
     * Index lookup and name lookup agree: the item at position `i` is the very
     * item returned when looking up its own name. A corollary of the
     * contracts of `Get` and `At`.
     */
    lemma IndexAndNameAgree(i: nat)
      requires Valid() && i < |items|
      ensures Get(keys[i]) == At(i) == Some(items[i])
    {
    }
  }
}
