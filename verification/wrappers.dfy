// Small value wrappers shared by every module: a JavaScript value that may
// be null/undefined is an Option.
module Wrappers {

  datatype Option<T> = None | Some(value: T)
}

// A JavaScript object literal whose keys keep their declaration order
// (`Object.keys`, `Object.entries`), as an association list.
module Assoc {
  import opened Wrappers

  /** `Object.keys(m)`, in declaration order. */
  function Keys<V>(m: seq<(string, V)>): (r: seq<string>)
    ensures |r| == |m|
    ensures forall i :: 0 <= i < |m| ==> r[i] == m[i].0
  {
    seq(|m|, i requires 0 <= i < |m| => m[i].0)
  }

  /** `m[key]`: the value stored under the first entry with that key, or
    * `undefined` when the key is absent. */
  function Lookup<V>(m: seq<(string, V)>, key: string): Option<V>
  {
    if m == [] then None
    else if m[0].0 == key then Some(m[0].1)
    else Lookup(m[1..], key)
  }

  /** A lookup finds a value exactly when the key is one of the object's
    * keys, and the value it finds is stored under that key. */
  lemma {:induction false} LookupFindsKey<V>(m: seq<(string, V)>, key: string)
    ensures Lookup(m, key).Some? <==> key in Keys(m)
    ensures Lookup(m, key).Some? ==>
      exists i :: 0 <= i < |m| && m[i].0 == key && m[i].1 == Lookup(m, key).value
  {
    if m != [] {
      assert Keys(m) == [m[0].0] + Keys(m[1..]);
      if m[0].0 != key {
        LookupFindsKey(m[1..], key);
        if Lookup(m, key).Some? {
          var i :| 0 <= i < |m[1..]| && m[1..][i].0 == key && m[1..][i].1 == Lookup(m, key).value;
          assert m[i + 1] == m[1..][i];
        }
      }
    }
  }
}
