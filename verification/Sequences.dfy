/** Sequences without duplicates, and the sets of their elements. */
module Sequences {

  predicate NoDuplicates<T(==)>(s: seq<T>) {
    forall i, j :: 0 <= i < j < |s| ==> s[i] != s[j]
  }

  function Elements<T>(s: seq<T>): set<T> {
    set x | x in s
  }

  lemma {:induction false} CountsElements<T>(s: seq<T>)
    requires NoDuplicates(s)
    ensures |Elements(s)| == |s|
  {
    if s != [] {
      var init := s[..|s| - 1];
      CountsElements(init);
      assert s[|s| - 1] !in init;
      assert Elements(s) == Elements(init) + {s[|s| - 1]};
    }
  }

  lemma SameElementsSameLength<T>(s: seq<T>, t: seq<T>)
    requires NoDuplicates(s) && NoDuplicates(t) && Elements(s) == Elements(t)
    ensures |s| == |t|
  {
    CountsElements(s);
    CountsElements(t);
  }

  lemma ContainedIsNoLarger<T>(a: set<T>, b: set<T>)
    requires a <= b
    ensures |a| <= |b|
    ensures |a| == |b| ==> a == b
    decreases a
  {
    if a != {} {
      var x :| x in a;
      ContainedIsNoLarger(a - {x}, b - {x});
    }
  }

  lemma NoElements<T>(s: seq<T>)
    ensures s == [] <==> Elements(s) == {}
  {
    if s != [] {
      assert s[0] in Elements(s);
    }
  }
}
