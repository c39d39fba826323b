/** Optional values (a measurement that may be absent, a transform not yet
    computed) and the one fact about sets that the loops over dictionary keys need. */
module Wrappers {

  datatype Option<T> = None | Some(value: T)

  /** A non-empty set of keys has an element to pick. */
  lemma NonEmptyHasElement(s: set<int>)
    requires s != {}
    ensures exists k :: k in s
  {
    if forall k :: k !in s {
      assert false;
    }
  }
}
