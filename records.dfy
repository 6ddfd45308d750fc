/**
 * A JavaScript object with string values, such as the `ProjectData` rows the importer
 * builds: keys in insertion order (`Object.keys`), assigning an existing key replaces
 * its value in place, assigning a new key appends it.
 */
module Records {
  import opened Wrappers
  import Seqs

  type Record = seq<(string, string)>

  function Keys(r: Record): seq<string>
  {
    Seqs.Map((e: (string, string)) => e.0, r)
  }

  /** `r[k]`, `None` standing for `undefined`. */
  function Get(r: Record, k: string): (v: Option<string>)
    ensures v.Some? <==> k in Keys(r)
  {
    if r == [] then None
    else if r[0].0 == k then Some(r[0].1)
    else
      assert Keys(r) == [r[0].0] + Keys(r[1..]);
      Get(r[1..], k)
  }

  /** `r[k] = v`. */
  function Put(r: Record, k: string, v: string): Record
  {
    if r == [] then [(k, v)]
    else if r[0].0 == k then [(k, v)] + r[1..]
    else [r[0]] + Put(r[1..], k, v)
  }

  /** A read after a write of the same key sees the written value. */
  lemma {:induction false} GetPutSame(r: Record, k: string, v: string)
    ensures Get(Put(r, k, v), k) == Some(v)
  {
    if r != [] && r[0].0 != k {
      GetPutSame(r[1..], k, v);
    }
  }

  /** A write leaves every other key as it was. */
  lemma {:induction false} GetPutOther(r: Record, k: string, v: string, k': string)
    requires k' != k
    ensures Get(Put(r, k, v), k') == Get(r, k')
  {
    if r != [] && r[0].0 != k {
      GetPutOther(r[1..], k, v, k');
    }
  }

  /** A write keeps the key order and appends the key only when it is new. */
  lemma {:induction false} KeysPut(r: Record, k: string, v: string)
    ensures Keys(Put(r, k, v)) == if k in Keys(r) then Keys(r) else Keys(r) + [k]
  {
    if r != [] {
      assert Keys(r) == [r[0].0] + Keys(r[1..]);
      if r[0].0 != k {
        KeysPut(r[1..], k, v);
        assert Keys(Put(r, k, v)) == [r[0].0] + Keys(Put(r[1..], k, v));
      } else {
        assert Keys(Put(r, k, v)) == [k] + Keys(r[1..]);
      }
    }
  }

  /** Object keys are never duplicated. */
  lemma KeysPutDistinct(r: Record, k: string, v: string)
    requires Seqs.Distinct(Keys(r))
    ensures Seqs.Distinct(Keys(Put(r, k, v)))
  {
    KeysPut(r, k, v);
  }
}
