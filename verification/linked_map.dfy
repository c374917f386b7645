/** Kotlin's `mutableMapOf()` is a `LinkedHashMap`: iteration follows the order in
    which keys were first inserted, and writing an existing key replaces its value
    in place. The renderer replays its line and text caches in that order, so the
    model keeps the insertion order next to the key-value map.
 */
module LinkedMap {

  datatype LinkedMap<V> = LinkedMap(order: seq<int>, entries: map<int, V>) {

    /** Every key occurs exactly once in the iteration order, and nothing else does. */
    ghost predicate Valid() {
      && (forall i, j :: 0 <= i < j < |order| ==> order[i] != order[j])
      && (forall i :: 0 <= i < |order| ==> order[i] in entries)
      && (forall k :: k in entries ==> k in order)
    }

    /** `map[k] = v`: an existing key keeps its position and takes the new value;
        a new key goes to the end of the iteration order. */
    function Put(k: int, v: V): (r: LinkedMap<V>)
      requires Valid()
      ensures r.Valid()
      ensures k in r.entries && r.entries[k] == v
      ensures forall k' :: k' != k ==> (k' in r.entries <==> k' in entries)
      ensures forall k' :: k' != k && k' in entries ==> r.entries[k'] == entries[k']
      ensures k in entries ==> r.order == order
      ensures k !in entries ==> r.order == order + [k]
    {
      if k in entries then LinkedMap(order, entries[k := v])
      else LinkedMap(order + [k], entries[k := v])
    }

    /** The values in iteration order. */
    function Values(): (vs: seq<V>)
      requires Valid()
      ensures |vs| == |order|
      ensures forall i :: 0 <= i < |order| ==> vs[i] == entries[order[i]]
    {
      seq(|order|, i requires 0 <= i < |order| => entries[order[i]])
    }
  }

  /** `mutableMapOf()` and `clear()`. */
  function Empty<V>(): (m: LinkedMap<V>)
    ensures m.Valid() && |m.order| == 0 && |m.entries| == 0
  {
    LinkedMap([], map[])
  }
}
