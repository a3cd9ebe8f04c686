/** Vocabulary shared by every module: optional values and the insertion-ordered dictionary. */
module Base {

  datatype Option<+T> = None | Some(value: T)

  /** A Python dict with string keys: pairs in insertion order. */
  type Dict<V> = seq<(string, V)>

  predicate DistinctKeys<V>(d: Dict<V>)
  {
    forall i, j :: 0 <= i < j < |d| ==> d[i].0 != d[j].0
  }

  function Get<V>(d: Dict<V>, key: string): Option<V>
  {
    if d == [] then None
    else if d[0].0 == key then Some(d[0].1)
    else Get(d[1..], key)
  }

  /** Assignment to a key: an existing key keeps its position, a new one goes last. */
  function Put<V>(d: Dict<V>, key: string, value: V): Dict<V>
  {
    if d == [] then [(key, value)]
    else if d[0].0 == key then [(key, value)] + d[1..]
    else [d[0]] + Put(d[1..], key, value)
  }

  function Values<V>(d: Dict<V>): (vs: seq<V>)
    ensures |vs| == |d| && forall i :: 0 <= i < |d| ==> vs[i] == d[i].1
  {
    seq(|d|, i requires 0 <= i < |d| => d[i].1)
  }

  lemma {:induction false} GetPut<V>(d: Dict<V>, key: string, value: V, other: string)
    ensures Get(Put(d, key, value), other) == if other == key then Some(value) else Get(d, other)
  {
    if d != [] && d[0].0 != key {
      GetPut(d[1..], key, value, other);
      assert Put(d, key, value)[1..] == Put(d[1..], key, value);
    }
  }

  /** Where a key sits in a dictionary, or the length when it is absent. */
  function Slot<V>(d: Dict<V>, key: string): (i: nat)
    ensures i <= |d| && (i < |d| ==> d[i].0 == key)
    ensures forall j :: 0 <= j < i ==> d[j].0 != key
  {
    if d == [] || d[0].0 == key then 0 else Slot(d[1..], key) + 1
  }

  /** Assignment writes one slot and leaves the others and their order alone. */
  lemma {:induction false} PutAt<V>(d: Dict<V>, key: string, value: V)
    ensures Put(d, key, value) ==
            if Slot(d, key) < |d| then d[Slot(d, key) := (key, value)] else d + [(key, value)]
  {
    if d != [] && d[0].0 != key {
      PutAt(d[1..], key, value);
    }
  }

  lemma {:induction false} GetIsSlot<V>(d: Dict<V>, key: string)
    ensures Get(d, key) == if Slot(d, key) < |d| then Some(d[Slot(d, key)].1) else None
  {
    if d != [] && d[0].0 != key {
      GetIsSlot(d[1..], key);
    }
  }
}
