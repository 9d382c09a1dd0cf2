/** Facts about finite sets that several components count with. */
module Collections {
  lemma Smaller<T>(fewer: set<T>, keys: set<T>)
    requires fewer <= keys
    ensures |fewer| <= |keys|
  {
    assert keys == fewer + (keys - fewer);
  }
}
