/**
 A Ruby `Hash` as the gateway uses it: an insertion-ordered collection of
 string keys with their values. Assignment overwrites the value of a key that
 is present and keeps its position, and appends a new key at the end, so the
 order in which a payload's keys were first assigned is the order in which
 they are serialised. The model does not distinguish Ruby symbols from
 strings.
 */
module RubyHash {
  import opened Wrappers

  /** The key order and the key-to-value mapping of a hash. */
  datatype Hash<V> = Hash(order: seq<string>, values: map<string, V>)

  /** No element occurs twice. */
  predicate Distinct(ks: seq<string>) {
    forall i, j :: 0 <= i < j < |ks| ==> ks[i] != ks[j]
  }

  /** Every hash Ruby builds: each key listed once, and the listed keys are exactly the mapped ones. */
  predicate Valid<V>(h: Hash<V>) {
    && Distinct(h.order)
    && (forall k :: k in h.values ==> k in h.order)
    && (forall i :: 0 <= i < |h.order| ==> h.order[i] in h.values)
  }

  /** `{}` */
  function Empty<V>(): (h: Hash<V>)
    ensures Valid(h) && |Keys(h)| == 0
  {
    Hash([], map[])
  }

  /** Hash#keys: the keys in insertion order. */
  function Keys<V>(h: Hash<V>): seq<string> {
    h.order
  }

  /** Hash#key? */
  predicate HasKey<V>(h: Hash<V>, k: string) {
    k in h.values
  }

  /** Hash#[] without a default: the value stored under `k`, if any. */
  function Get<V>(h: Hash<V>, k: string): Option<V> {
    if k in h.values then Some(h.values[k]) else None
  }

  /**
   Hash#[]=: afterwards `k` maps to `v` and every other key keeps its value;
   a key already present keeps its position, a new key is appended.
   */
  function Store<V>(h: Hash<V>, k: string, v: V): (r: Hash<V>)
    ensures Get(r, k) == Some(v)
    ensures Keys(r) == if HasKey(h, k) then Keys(h) else Keys(h) + [k]
  {
    var order := if k in h.values then h.order else h.order + [k];
    Hash(order, h.values[k := v])
  }

  /** Assignment leaves every other key's value alone. */
  lemma StoreKeepsOthers<V>(h: Hash<V>, k: string, v: V, k': string)
    requires k' != k
    ensures Get(Store(h, k, v), k') == Get(h, k')
  {
  }

  /** In a well-formed hash a key is present exactly when it is listed. */
  lemma HasKeyIffListed<V>(h: Hash<V>, k: string)
    requires Valid(h)
    ensures HasKey(h, k) <==> k in Keys(h)
  {
  }

  /** Assignment keeps a hash well formed. */
  lemma StorePreservesValid<V>(h: Hash<V>, k: string, v: V)
    requires Valid(h)
    ensures Valid(Store(h, k, v))
  {
    var r := Store(h, k, v);
    if k !in h.values {
      forall i, j | 0 <= i < j < |r.order|
        ensures r.order[i] != r.order[j]
      {
        if j == |h.order| {
          assert r.order[i] == h.order[i];
        }
      }
    }
  }

  /** Assigning the value a key already has changes nothing, not even the order. */
  lemma StoreSameValue<V>(h: Hash<V>, k: string, v: V)
    requires Get(h, k) == Some(v)
    ensures Store(h, k, v) == h
  {
  }
}
