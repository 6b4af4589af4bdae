/**
 * Attribute objects (string-to-string maps kept in insertion order, as a
 * JavaScript object is) and their canonical form, the key-sorted list of
 * key/value pairs that `objectToSortedKVArray` produces.
 */
module Attributes {

  type Entry = (string, string)

  /** The own properties of an object, in insertion order. */
  type Entries = seq<Entry>

  /** The key order the model sorts by: lexicographic on characters, a shorter prefix first. */
  predicate KeyLess(a: string, b: string)
    decreases |a|
  {
    if a == [] then b != []
    else if b == [] then false
    else if a[0] == b[0] then KeyLess(a[1..], b[1..])
    else a[0] < b[0]
  }

  lemma {:induction false} KeyLessIrreflexive(a: string)
    ensures !KeyLess(a, a)
    decreases |a|
  {
    if a != [] {
      KeyLessIrreflexive(a[1..]);
    }
  }

  lemma {:induction false} KeyLessTransitive(a: string, b: string, c: string)
    requires KeyLess(a, b) && KeyLess(b, c)
    ensures KeyLess(a, c)
    decreases |a|
  {
    if a != [] && b != [] && c != [] && a[0] == b[0] && b[0] == c[0] {
      KeyLessTransitive(a[1..], b[1..], c[1..]);
    }
  }

  lemma {:induction false} KeyLessTotal(a: string, b: string)
    requires a != b
    ensures KeyLess(a, b) || KeyLess(b, a)
    decreases |a|
  {
    if a != [] && b != [] && a[0] == b[0] {
      assert a == [a[0]] + a[1..] && b == [b[0]] + b[1..];
      KeyLessTotal(a[1..], b[1..]);
    }
  }

  /** No key is followed by a smaller key. */
  ghost predicate Sorted(s: Entries) {
    forall i, j :: 0 <= i < j < |s| ==> !KeyLess(s[j].0, s[i].0)
  }

  /** Keys strictly increase. */
  ghost predicate StrictlySorted(s: Entries) {
    forall i, j :: 0 <= i < j < |s| ==> KeyLess(s[i].0, s[j].0)
  }

  /** Every key occurs once, as in the own properties of an object. */
  ghost predicate DistinctKeys(s: Entries) {
    forall i, j :: 0 <= i < j < |s| ==> s[i].0 != s[j].0
  }

  /** Inserts `e` in front of the first entry whose key is greater than its own. */
  function Insert(e: Entry, s: Entries): Entries
    decreases |s|
  {
    if s == [] || KeyLess(e.0, s[0].0) then [e] + s
    else [s[0]] + Insert(e, s[1..])
  }

  /** Model of `objectToSortedKVArray`: the entries of an object, sorted by key. */
  function SortEntries(s: Entries): Entries
    decreases |s|
  {
    if s == [] then [] else Insert(s[0], SortEntries(s[1..]))
  }

  lemma {:induction false} InsertPermutes(e: Entry, s: Entries)
    ensures multiset(Insert(e, s)) == multiset(s) + multiset{e}
    decreases |s|
  {
    if s != [] && !KeyLess(e.0, s[0].0) {
      InsertPermutes(e, s[1..]);
      assert s == [s[0]] + s[1..];
    }
  }

  /** The sorted entries are a permutation of the object's entries. */
  lemma {:induction false} SortPermutes(s: Entries)
    ensures multiset(SortEntries(s)) == multiset(s)
    decreases |s|
  {
    if s != [] {
      SortPermutes(s[1..]);
      InsertPermutes(s[0], SortEntries(s[1..]));
      assert s == [s[0]] + s[1..];
    }
  }

  lemma {:induction false} InsertSorted(e: Entry, s: Entries)
    requires Sorted(s)
    ensures Sorted(Insert(e, s))
    decreases |s|
  {
    if s == [] {
    } else if KeyLess(e.0, s[0].0) {
      forall j | 0 <= j < |s|
        ensures !KeyLess(s[j].0, e.0)
      {
        if KeyLess(s[j].0, e.0) {
          KeyLessTransitive(s[j].0, e.0, s[0].0);
          if j == 0 { KeyLessIrreflexive(s[0].0); }
        }
      }
    } else {
      var t := s[1..];
      InsertSorted(e, t);
      InsertPermutes(e, t);
      var r := Insert(e, t);
      forall x | x in r
        ensures !KeyLess(x.0, s[0].0)
      {
        assert x in multiset(r);
        if x != e {
          assert x in multiset(t);
          var j :| 0 <= j < |t| && t[j] == x;
          assert s[j + 1] == x;
        }
      }
    }
  }

  /** The sorted entries are in key order. */
  lemma {:induction false} SortSorted(s: Entries)
    ensures Sorted(SortEntries(s))
    decreases |s|
  {
    if s != [] {
      SortSorted(s[1..]);
      InsertSorted(s[0], SortEntries(s[1..]));
    }
  }

  lemma {:induction false} InsertStrictlySorted(e: Entry, s: Entries)
    requires StrictlySorted(s)
    requires forall x :: x in s ==> x.0 != e.0
    ensures StrictlySorted(Insert(e, s))
    decreases |s|
  {
    if s == [] {
    } else if KeyLess(e.0, s[0].0) {
      forall j | 0 <= j < |s|
        ensures KeyLess(e.0, s[j].0)
      {
        if j > 0 { KeyLessTransitive(e.0, s[0].0, s[j].0); }
      }
    } else {
      var t := s[1..];
      KeyLessTotal(e.0, s[0].0);
      InsertStrictlySorted(e, t);
      InsertPermutes(e, t);
      var r := Insert(e, t);
      forall x | x in r
        ensures KeyLess(s[0].0, x.0)
      {
        assert x in multiset(r);
        if x != e {
          assert x in multiset(t);
          var j :| 0 <= j < |t| && t[j] == x;
          assert s[j + 1] == x;
        }
      }
    }
  }

  /** For an object (distinct keys), the sorted entries strictly increase. */
  lemma {:induction false} SortStrictlySorted(s: Entries)
    requires DistinctKeys(s)
    ensures StrictlySorted(SortEntries(s))
    decreases |s|
  {
    if s != [] {
      var t := s[1..];
      SortStrictlySorted(t);
      SortPermutes(t);
      forall x | x in SortEntries(t)
        ensures x.0 != s[0].0
      {
        assert x in multiset(SortEntries(t));
        var j :| 0 <= j < |t| && t[j] == x;
        assert s[j + 1] == x;
      }
      InsertStrictlySorted(s[0], SortEntries(t));
    }
  }

  /** Two strictly key-sorted entry lists with the same entries are the same list. */
  lemma {:induction false} StrictlySortedUnique(a: Entries, b: Entries)
    requires StrictlySorted(a) && StrictlySorted(b)
    requires forall e :: e in a <==> e in b
    ensures a == b
    decreases |a|
  {
    assert b != [] ==> b[0] in a;
    assert a != [] ==> a[0] in b;
    if a != [] {
      assert b[0] in b;
      var i :| 0 <= i < |a| && a[i] == b[0];
      var j :| 0 <= j < |b| && b[j] == a[0];
      if i > 0 {
        if j > 0 {
          KeyLessTransitive(a[0].0, a[i].0, a[0].0);
        }
        KeyLessIrreflexive(a[0].0);
        assert false;
      }
      forall e
        ensures e in a[1..] <==> e in b[1..]
      {
        KeyLessIrreflexive(a[0].0);
        if e in a[1..] {
          var k :| 1 <= k < |a| && a[k] == e;
          assert KeyLess(a[0].0, e.0);
          assert e in b && e != b[0];
          var l :| 0 <= l < |b| && b[l] == e;
          assert e in b[1..];
        }
        if e in b[1..] {
          var k :| 1 <= k < |b| && b[k] == e;
          assert KeyLess(b[0].0, e.0);
          assert e in a && e != a[0];
          var l :| 0 <= l < |a| && a[l] == e;
          assert e in a[1..];
        }
      }
      StrictlySortedUnique(a[1..], b[1..]);
      assert a == [a[0]] + a[1..] && b == [b[0]] + b[1..];
    }
  }

  /**
   * Attribute-order invariance: two objects with the same properties, built
   * in different orders, have the same sorted entry list.
   */
  lemma SortEntriesCanonical(a: Entries, b: Entries)
    requires DistinctKeys(a) && DistinctKeys(b)
    requires forall e :: e in a <==> e in b
    ensures SortEntries(a) == SortEntries(b)
  {
    SortStrictlySorted(a);
    SortStrictlySorted(b);
    SortPermutes(a);
    SortPermutes(b);
    forall e
      ensures e in SortEntries(a) <==> e in SortEntries(b)
    {
      calc {
        e in SortEntries(a);
        e in multiset(SortEntries(a));
        e in multiset(a);
        e in a;
        e in b;
        e in multiset(b);
        e in multiset(SortEntries(b));
        e in SortEntries(b);
      }
    }
    StrictlySortedUnique(SortEntries(a), SortEntries(b));
  }
}
