/** The order the dashboard's sort comparators impose, and `Array.prototype.sort` as a
    stable insertion sort over it (the language requires the built-in sort to be stable). */
module Sorting {

  /** A sort key: an integer (`a - b` comparators) or a text (`localeCompare` comparators). */
  datatype Key = NumKey(n: int) | TextKey(s: string)

  /** Code-unit lexicographic order on strings. */
  predicate TextLess(a: string, b: string)
    decreases |a|
  {
    if a == [] then b != []
    else if b == [] then false
    else if a[0] != b[0] then a[0] < b[0]
    else TextLess(a[1..], b[1..])
  }

  predicate KeyLess(a: Key, b: Key)
  {
    match (a, b)
    case (NumKey(x), NumKey(y)) => x < y
    case (TextKey(x), TextKey(y)) => TextLess(x, y)
    case (NumKey(_), TextKey(_)) => true
    case (TextKey(_), NumKey(_)) => false
  }

  /** The comparator's verdict "a goes strictly before b" for the requested direction. */
  predicate Precedes(a: Key, b: Key, ascending: bool)
  {
    if ascending then KeyLess(a, b) else KeyLess(b, a)
  }

  lemma {:induction false} TextLessIrreflexive(a: string)
    ensures !TextLess(a, a)
    decreases |a|
  {
    if a != [] {
      TextLessIrreflexive(a[1..]);
    }
  }

  lemma {:induction false} TextLessTransitive(a: string, b: string, c: string)
    requires TextLess(a, b) && TextLess(b, c)
    ensures TextLess(a, c)
    decreases |a|
  {
    if a != [] && b != [] && c != [] && a[0] == b[0] && b[0] == c[0] {
      TextLessTransitive(a[1..], b[1..], c[1..]);
    }
  }

  lemma {:induction false} TextLessTotal(a: string, b: string)
    requires a != b
    ensures TextLess(a, b) || TextLess(b, a)
    decreases |a|
  {
    if a != [] && b != [] && a[0] == b[0] {
      assert a == [a[0]] + a[1..] && b == [b[0]] + b[1..];
      TextLessTotal(a[1..], b[1..]);
    }
  }

  /** Precedes is a strict total order on keys, in either direction. */
  lemma PrecedesIrreflexive(a: Key, ascending: bool)
    ensures !Precedes(a, a, ascending)
  {
    if a.TextKey? {
      TextLessIrreflexive(a.s);
    }
  }

  lemma PrecedesTransitive(a: Key, b: Key, c: Key, ascending: bool)
    requires Precedes(a, b, ascending) && Precedes(b, c, ascending)
    ensures Precedes(a, c, ascending)
  {
    if a.TextKey? && b.TextKey? && c.TextKey? {
      if ascending {
        TextLessTransitive(a.s, b.s, c.s);
      } else {
        TextLessTransitive(c.s, b.s, a.s);
      }
    }
  }

  lemma PrecedesTotal(a: Key, b: Key, ascending: bool)
    requires a != b
    ensures Precedes(a, b, ascending) || Precedes(b, a, ascending)
  {
    if a.TextKey? && b.TextKey? {
      TextLessTotal(a.s, b.s);
    }
  }

  /** `key(s[j])` never goes strictly before `key(s[i])` for i < j. */
  ghost predicate SortedBy<T>(s: seq<T>, key: T -> Key, ascending: bool)
  {
    forall i, j :: 0 <= i < j < |s| ==> !Precedes(key(s[j]), key(s[i]), ascending)
  }

  /** Places `x` after every element that does not go strictly after it. */
  function Insert<T>(x: T, s: seq<T>, key: T -> Key, ascending: bool): seq<T>
    decreases |s|
  {
    if s == [] then [x]
    else if Precedes(key(x), key(s[0]), ascending) then [x] + s
    else [s[0]] + Insert(x, s[1..], key, ascending)
  }

  /** The built-in stable sort: insert the elements one by one, left to right. */
  function Sort<T>(s: seq<T>, key: T -> Key, ascending: bool): seq<T>
    decreases |s|
  {
    if s == [] then [] else Insert(s[|s| - 1], Sort(s[..|s| - 1], key, ascending), key, ascending)
  }

  /** The elements whose key is `k`, in their order. */
  function WithKey<T>(s: seq<T>, key: T -> Key, k: Key): seq<T>
    decreases |s|
  {
    if s == [] then [] else (if key(s[0]) == k then [s[0]] else []) + WithKey(s[1..], key, k)
  }

  lemma {:induction false} InsertPermutes<T>(x: T, s: seq<T>, key: T -> Key, ascending: bool)
    ensures multiset(Insert(x, s, key, ascending)) == multiset(s) + multiset{x}
    decreases |s|
  {
    if s != [] && !Precedes(key(x), key(s[0]), ascending) {
      InsertPermutes(x, s[1..], key, ascending);
      assert s == [s[0]] + s[1..];
    }
  }

  lemma {:induction false} InsertSorted<T>(x: T, s: seq<T>, key: T -> Key, ascending: bool)
    requires SortedBy(s, key, ascending)
    ensures SortedBy(Insert(x, s, key, ascending), key, ascending)
    decreases |s|
  {
    if s == [] {
    } else if Precedes(key(x), key(s[0]), ascending) {
      var r := [x] + s;
      forall i, j | 0 <= i < j < |r|
        ensures !Precedes(key(r[j]), key(r[i]), ascending)
      {
        if i == 0 {
          // r[j] is s[j-1], which does not go before s[0], while x goes before s[0].
          if key(s[j - 1]) != key(s[0]) {
            PrecedesTotal(key(s[j - 1]), key(s[0]), ascending);
            PrecedesTransitive(key(x), key(s[0]), key(s[j - 1]), ascending);
          }
          if Precedes(key(s[j - 1]), key(x), ascending) {
            PrecedesTransitive(key(s[j - 1]), key(x), key(s[j - 1]), ascending);
            PrecedesIrreflexive(key(s[j - 1]), ascending);
          }
        }
      }
    } else {
      var tail := s[1..];
      assert SortedBy(tail, key, ascending);
      InsertSorted(x, tail, key, ascending);
      var t := Insert(x, tail, key, ascending);
      InsertPermutes(x, tail, key, ascending);
      var r := [s[0]] + t;
      forall i, j | 0 <= i < j < |r|
        ensures !Precedes(key(r[j]), key(r[i]), ascending)
      {
        if i == 0 {
          assert r[j] in multiset(t);
          assert r[j] == x || r[j] in multiset(tail);
          if r[j] != x {
            var m :| 0 <= m < |tail| && tail[m] == r[j];
            assert s[m + 1] == r[j];
          }
        }
      }
    }
  }

  /** The sort keeps exactly the input's elements. */
  lemma {:induction false} SortPermutes<T>(s: seq<T>, key: T -> Key, ascending: bool)
    ensures multiset(Sort(s, key, ascending)) == multiset(s)
    decreases |s|
  {
    if s != [] {
      var init := s[..|s| - 1];
      SortPermutes(init, key, ascending);
      InsertPermutes(s[|s| - 1], Sort(init, key, ascending), key, ascending);
      assert s == init + [s[|s| - 1]];
    }
  }

  /** The sort orders the elements by key in the requested direction. */
  lemma {:induction false} SortSorts<T>(s: seq<T>, key: T -> Key, ascending: bool)
    ensures SortedBy(Sort(s, key, ascending), key, ascending)
    decreases |s|
  {
    if s != [] {
      var init := s[..|s| - 1];
      SortSorts(init, key, ascending);
      InsertSorted(s[|s| - 1], Sort(init, key, ascending), key, ascending);
    }
  }

  lemma {:induction false} WithKeyAppend<T>(a: seq<T>, b: seq<T>, key: T -> Key, k: Key)
    ensures WithKey(a + b, key, k) == WithKey(a, key, k) + WithKey(b, key, k)
    decreases |a|
  {
    if a == [] {
      assert a + b == b;
    } else {
      var head := if key(a[0]) == k then [a[0]] else [];
      assert (a + b)[0] == a[0] && (a + b)[1..] == a[1..] + b;
      assert WithKey(a + b, key, k) == head + WithKey(a[1..] + b, key, k);
      WithKeyAppend(a[1..], b, key, k);
    }
  }

  lemma {:induction false} WithKeyNone<T>(s: seq<T>, key: T -> Key, k: Key)
    requires forall i :: 0 <= i < |s| ==> key(s[i]) != k
    ensures WithKey(s, key, k) == []
    decreases |s|
  {
    if s != [] {
      WithKeyNone(s[1..], key, k);
    }
  }

  /** In a sorted sequence, nothing has the key of an element that goes before its head. */
  lemma KeysAfterHead<T>(x: T, s: seq<T>, key: T -> Key, ascending: bool)
    requires SortedBy(s, key, ascending) && s != [] && Precedes(key(x), key(s[0]), ascending)
    ensures forall i :: 0 <= i < |s| ==> key(s[i]) != key(x)
  {
    forall i | 0 <= i < |s|
      ensures key(s[i]) != key(x)
    {
      if key(s[i]) != key(s[0]) {
        PrecedesTotal(key(s[i]), key(s[0]), ascending);
        PrecedesTransitive(key(x), key(s[0]), key(s[i]), ascending);
      }
      if key(s[i]) == key(x) {
        PrecedesIrreflexive(key(x), ascending);
      }
    }
  }

  /** Inserting before the head: the new element comes after every element with its key,
      because there are none. */
  lemma InsertInFront<T>(x: T, s: seq<T>, key: T -> Key, k: Key, ascending: bool)
    requires SortedBy(s, key, ascending) && s != [] && Precedes(key(x), key(s[0]), ascending)
    ensures WithKey(Insert(x, s, key, ascending), key, k)
         == WithKey(s, key, k) + (if key(x) == k then [x] else [])
  {
    assert Insert(x, s, key, ascending) == [x] + s;
    assert ([x] + s)[1..] == s;
    if key(x) == k {
      KeysAfterHead(x, s, key, ascending);
      WithKeyNone(s, key, k);
    }
  }

  lemma {:induction false} InsertStable<T>(x: T, s: seq<T>, key: T -> Key, k: Key, ascending: bool)
    requires SortedBy(s, key, ascending)
    ensures WithKey(Insert(x, s, key, ascending), key, k)
         == WithKey(s, key, k) + (if key(x) == k then [x] else [])
    decreases |s|
  {
    var tail := if key(x) == k then [x] else [];
    if s == [] {
      assert [x][1..] == [];
    } else if Precedes(key(x), key(s[0]), ascending) {
      InsertInFront(x, s, key, k, ascending);
    } else {
      var rest := Insert(x, s[1..], key, ascending);
      var head := if key(s[0]) == k then [s[0]] else [];
      assert Insert(x, s, key, ascending) == [s[0]] + rest;
      assert ([s[0]] + rest)[1..] == rest;
      assert SortedBy(s[1..], key, ascending);
      InsertStable(x, s[1..], key, k, ascending);
      assert WithKey([s[0]] + rest, key, k) == head + WithKey(rest, key, k);
      assert WithKey(s, key, k) == head + WithKey(s[1..], key, k);
    }
  }

  /** Stability: rows with equal keys keep their relative order. */
  lemma {:induction false} SortStable<T>(s: seq<T>, key: T -> Key, k: Key, ascending: bool)
    ensures WithKey(Sort(s, key, ascending), key, k) == WithKey(s, key, k)
    decreases |s|
  {
    if s != [] {
      var init := s[..|s| - 1];
      var last := s[|s| - 1];
      SortStable(init, key, k, ascending);
      SortSorts(init, key, ascending);
      InsertStable(last, Sort(init, key, ascending), key, k, ascending);
      assert s == init + [last];
      WithKeyAppend(init, [last], key, k);
    }
  }
}
