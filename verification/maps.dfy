/** Agreement of two lookup tables at one key: the form in which the model says that
    an outcome depends on a single entry of a table and on nothing else in it. */
module Maps {

  /** `m` and `m'` agree on `key`: both lack it, or both map it to the same value. */
  predicate AgreeOn<K, V(==)>(m: map<K, V>, m': map<K, V>, key: K) {
    (key !in m && key !in m') || (key in m && key in m' && m[key] == m'[key])
  }
}
