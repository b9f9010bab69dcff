/** Iterating a set or the keys of a dictionary, in an order the code does not depend on. */
module Sets {

  method Pick<T(==)>(s: set<T>) returns (x: T)
    requires s != {}
    ensures x in s
  {
    assert (forall y :: y !in s) ==> s == {};
    x :| x in s;
  }
}
