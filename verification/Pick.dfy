/** Picking a member of a set. */
module Pick {

  method AnyOf<T>(s: set<T>) returns (x: T)
    requires s != {}
    ensures x in s
  {
    x :| x in s;
  }

  /** Taking away what was added leaves what was there. */
  lemma AddThenRemove<T>(a: set<T>, b: set<T>)
    requires a !! b
    ensures (a + b) - b == a
  {
  }

  lemma SomeMember<T>(s: set<T>) returns (x: T)
    requires |s| > 0
    ensures x in s
  {
    assert s != {};
    x :| x in s;
  }
}
