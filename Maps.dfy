/** Facts about map union (`+`, where the right operand wins) used to follow step-by-step updates. */
module Maps {

  lemma UnionEmpty<K, V>(a: map<K, V>)
    ensures a + map[] == a
  {
  }

  /** Updating the right operand of a union is updating the union. */
  lemma UnionUpdate<K, V>(a: map<K, V>, b: map<K, V>, k: K, v: V)
    ensures a + b[k := v] == (a + b)[k := v]
  {
  }

  lemma UnionIdempotent<K, V>(a: map<K, V>)
    ensures a + a == a
  {
  }

  lemma UnionAssociative<K, V>(a: map<K, V>, b: map<K, V>, c: map<K, V>)
    ensures a + b + c == a + (b + c)
  {
  }
}
