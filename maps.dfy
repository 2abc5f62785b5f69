/** Facts about map sizes that the verifier does not find by itself. */
module Maps {
  lemma NoKeyIsEmpty<K, V>(m: map<K, V>)
    requires forall k :: k !in m
    ensures |m| == 0
  {
    assert forall k :: k !in m.Keys;
    assert m.Keys == {};
  }

  /** A map of positive size has a key. */
  lemma HasKey<K, V>(m: map<K, V>)
    requires |m| > 0
    ensures exists k :: k in m
  {
    if forall k :: k !in m {
      NoKeyIsEmpty(m);
      assert false;
    }
  }

  /** A map of size zero has no key. */
  lemma EmptyHasNoKey<K, V>(m: map<K, V>)
    requires |m| == 0
    ensures forall k :: k !in m
  {
    assert m == map[];
  }

  /** Some key of a non-empty map. */
  ghost function PickKey<K, V>(m: map<K, V>): (k: K)
    requires |m| > 0
    ensures k in m
  {
    HasKey(m);
    var k :| k in m; k
  }
}
