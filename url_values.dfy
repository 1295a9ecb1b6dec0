/**
 * Go's `url.Values`: a multi-map from parameter name to the list of values
 * given under it. The builders only ever append with `Add`; `Encode` is a
 * standard-library serialiser and stays a parameter of the functions that
 * use it (see module Address).
 */
module UrlValues {

  type Params = map<string, seq<string>>

  /** The values under `key`, oldest first; a missing key has none. */
  function Values(p: Params, key: string): seq<string>
  {
    if key in p then p[key] else []
  }

  /**
   * url.Values.Add: `value` goes to the end of the list under `key`; the values
   * already there keep their order and every other key keeps its list.
   */
  function Add(p: Params, key: string, value: string): (r: Params)
    ensures r.Keys == p.Keys + {key}
    ensures Values(r, key) == Values(p, key) + [value]
    ensures forall k | k in p && k != key :: k in r && r[k] == p[k]
  {
    p[key := Values(p, key) + [value]]
  }

  /** The first value under a key starts a one-element list. */
  lemma AddNewKey(p: Params, key: string, value: string)
    requires key !in p
    ensures Add(p, key, value) == p[key := [value]]
  {
    assert Values(p, key) + [value] == [value];
  }

  /** Adds each of `values` under `key`, in order (repeated Search or Where calls). */
  function AddAll(p: Params, key: string, values: seq<string>): Params
    decreases |values|
  {
    if values == [] then p else AddAll(Add(p, key, values[0]), key, values[1..])
  }

  /** Repeated adds under one key keep every value, in call order, and touch no other key. */
  lemma {:induction false} AddAllKeepsOrder(p: Params, key: string, values: seq<string>)
    ensures Values(AddAll(p, key, values), key) == Values(p, key) + values
    ensures forall k | k != key :: Values(AddAll(p, key, values), k) == Values(p, k)
    decreases |values|
  {
    if values != [] {
      var p' := Add(p, key, values[0]);
      AddAllKeepsOrder(p', key, values[1..]);
      assert Values(p, key) + [values[0]] + values[1..] == Values(p, key) + values;
      forall k | k != key
        ensures Values(AddAll(p, key, values), k) == Values(p, k)
      {
        assert Values(p', k) == Values(p, k);
      }
    }
  }

  /**
   * Adds under different keys commute, so the resulting value lists do not
   * depend on how calls to setters of different parameters are interleaved.
   */
  lemma AddCommutes(p: Params, k1: string, v1: string, k2: string, v2: string)
    requires k1 != k2
    ensures Add(Add(p, k1, v1), k2, v2) == Add(Add(p, k2, v2), k1, v1)
  {
  }
}
