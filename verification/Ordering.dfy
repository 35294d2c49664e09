/** Byte-wise string order and a stable sort: what Go's string comparison and
    `sort.Slice` / `sort.Strings` provide to the modelled code. */
module Ordering {

  /** Go's `a <= b` on strings. */
  predicate StringLe(a: string, b: string) {
    a == [] || (b != [] && (a[0] < b[0] || (a[0] == b[0] && StringLe(a[1..], b[1..]))))
  }

  lemma {:induction false} StringLeReflexive(a: string)
    ensures StringLe(a, a)
  {
    if a != [] { StringLeReflexive(a[1..]); }
  }

  lemma {:induction false} StringLeTotal(a: string, b: string)
    ensures StringLe(a, b) || StringLe(b, a)
  {
    if a != [] && b != [] { StringLeTotal(a[1..], b[1..]); }
  }

  lemma {:induction false} StringLeTransitive(a: string, b: string, c: string)
    requires StringLe(a, b) && StringLe(b, c)
    ensures StringLe(a, c)
  {
    if a != [] && a[0] == b[0] == c[0] { StringLeTransitive(a[1..], b[1..], c[1..]); }
  }

  lemma {:induction false} StringLeAntisymmetric(a: string, b: string)
    requires StringLe(a, b) && StringLe(b, a)
    ensures a == b
  {
    if a != [] {
      StringLeAntisymmetric(a[1..], b[1..]);
      assert a == [a[0]] + a[1..] && b == [b[0]] + b[1..];
    }
  }

  ghost predicate Preorder<T(!new)>(le: (T, T) -> bool) {
    && (forall x, y :: le(x, y) || le(y, x))
    && (forall x, y, z :: le(x, y) && le(y, z) ==> le(x, z))
  }

  ghost predicate SortedBy<T>(s: seq<T>, le: (T, T) -> bool) {
    forall i, j :: 0 <= i < j < |s| ==> le(s[i], s[j])
  }

  /** Puts x behind every element that may precede it. */
  function Insert<T(!new)>(s: seq<T>, x: T, le: (T, T) -> bool): (r: seq<T>)
    ensures multiset(r) == multiset(s) + multiset{x}
  {
    if s == [] || le(s[|s| - 1], x) then s + [x]
    else
      assert s == s[..|s| - 1] + [s[|s| - 1]];
      Insert(s[..|s| - 1], x, le) + [s[|s| - 1]]
  }

  /** Stable sort. */
  function Sort<T(!new)>(s: seq<T>, le: (T, T) -> bool): (r: seq<T>)
    ensures multiset(r) == multiset(s)
    ensures |r| == |s|
    ensures forall x :: x in r <==> x in s
  {
    if s == [] then []
    else
      assert s == s[..|s| - 1] + [s[|s| - 1]];
      var r := Insert(Sort(s[..|s| - 1], le), s[|s| - 1], le);
      assert |multiset(r)| == |multiset(s)|;
      assert forall x :: x in r <==> x in multiset(r);
      r
  }

  lemma {:induction false} InsertSorts<T(!new)>(s: seq<T>, x: T, le: (T, T) -> bool)
    requires Preorder(le) && SortedBy(s, le)
    ensures SortedBy(Insert(s, x, le), le)
  {
    if s == [] || le(s[|s| - 1], x) {
    } else {
      var init, last := s[..|s| - 1], s[|s| - 1];
      InsertSorts(init, x, le);
      var r := Insert(init, x, le);
      forall y | y in r ensures le(y, last) {
        assert y in multiset(r);
        assert y in multiset(init) || y == x;
      }
    }
  }

  lemma {:induction false} SortSorts<T(!new)>(s: seq<T>, le: (T, T) -> bool)
    requires Preorder(le)
    ensures SortedBy(Sort(s, le), le)
  {
    if s != [] {
      SortSorts(s[..|s| - 1], le);
      InsertSorts(Sort(s[..|s| - 1], le), s[|s| - 1], le);
    }
  }

  ghost predicate Reflexive<T(!new)>(le: (T, T) -> bool) {
    forall x :: le(x, x)
  }

  /** No two different elements are equivalent under le. */
  ghost predicate NoTies<T>(s: multiset<T>, le: (T, T) -> bool) {
    forall x, y :: x in s && y in s && le(x, y) && le(y, x) ==> x == y
  }

  lemma LastIsGreatest<T(!new)>(s: seq<T>, x: T, le: (T, T) -> bool)
    requires Reflexive(le) && SortedBy(s, le) && x in s
    ensures le(x, s[|s| - 1])
  {
    var i :| 0 <= i < |s| && s[i] == x;
    assert le(x, x);
  }

  lemma ButLast<T(!new)>(s: seq<T>, le: (T, T) -> bool)
    requires s != [] && SortedBy(s, le)
    ensures SortedBy(s[..|s| - 1], le)
    ensures multiset(s[..|s| - 1]) == multiset(s) - multiset{s[|s| - 1]}
  {
    assert s == s[..|s| - 1] + [s[|s| - 1]];
  }

  lemma LastsAgree<T(!new)>(a: seq<T>, b: seq<T>, le: (T, T) -> bool)
    requires Reflexive(le) && SortedBy(a, le) && SortedBy(b, le)
    requires multiset(a) == multiset(b) && NoTies(multiset(a), le)
    requires a != [] && b != []
    ensures a[|a| - 1] == b[|b| - 1]
  {
    var x, y := a[|a| - 1], b[|b| - 1];
    assert x in multiset(b) && y in multiset(a);
    LastIsGreatest(a, y, le);
    LastIsGreatest(b, x, le);
  }

  lemma NoTiesSubset<T(!new)>(s: multiset<T>, t: multiset<T>, le: (T, T) -> bool)
    requires NoTies(s, le) && t <= s
    ensures NoTies(t, le)
  {
  }

  lemma SameLength<T>(a: seq<T>, b: seq<T>)
    requires multiset(a) == multiset(b)
    ensures |a| == |b|
  {
    assert |a| == |multiset(a)| == |multiset(b)| == |b|;
  }

  lemma InitsAgree<T(!new)>(a: seq<T>, b: seq<T>, le: (T, T) -> bool)
    requires Reflexive(le) && SortedBy(a, le) && SortedBy(b, le)
    requires multiset(a) == multiset(b) && NoTies(multiset(a), le)
    requires |a| == |b| > 0
    ensures var n := |a| - 1;
            && SortedBy(a[..n], le) && SortedBy(b[..n], le) && a[n] == b[n]
            && multiset(a[..n]) == multiset(b[..n]) && NoTies(multiset(a[..n]), le)
  {
    hide SortedBy, NoTies, Reflexive;
    LastsAgree(a, b, le);
    ButLast(a, le);
    ButLast(b, le);
    NoTiesSubset(multiset(a), multiset(a[..|a| - 1]), le);
  }

  /** Two sorted arrangements of the same elements are equal when no two
      different elements tie. */
  lemma {:induction false} SortedUnique<T(!new)>(a: seq<T>, b: seq<T>, le: (T, T) -> bool)
    requires Reflexive(le) && SortedBy(a, le) && SortedBy(b, le)
    requires multiset(a) == multiset(b) && NoTies(multiset(a), le)
    ensures a == b
    decreases |a|
  {
    hide SortedBy, NoTies, Reflexive;
    SameLength(a, b);
    if a != [] {
      var n := |a| - 1;
      InitsAgree(a, b, le);
      SortedUnique(a[..n], b[..n], le);
      assert a == a[..n] + [a[n]] && b == b[..n] + [b[n]];
    }
  }

  /** The result of a sort does not depend on the order of its input. */
  lemma SortCanonical<T(!new)>(s: seq<T>, t: seq<T>, le: (T, T) -> bool)
    requires Preorder(le) && multiset(s) == multiset(t) && NoTies(multiset(s), le)
    ensures Sort(s, le) == Sort(t, le)
  {
    SortSorts(s, le);
    SortSorts(t, le);
    SortedUnique(Sort(s, le), Sort(t, le), le);
  }

  ghost predicate IsLeast(k: string, keys: set<string>) {
    k in keys && forall x :: x in keys ==> StringLe(k, x)
  }

  lemma {:induction false} LeastExists(keys: set<string>)
    requires keys != {}
    ensures exists k :: IsLeast(k, keys)
    decreases |keys|
  {
    var x :| x in keys;
    StringLeReflexive(x);
    if keys == {x} {
      assert IsLeast(x, keys);
    } else {
      var rest := keys - {x};
      LeastExists(rest);
      var m :| IsLeast(m, rest);
      StringLeTotal(x, m);
      if StringLe(x, m) {
        forall y | y in keys ensures StringLe(x, y) {
          if y != x { StringLeTransitive(x, m, y); }
        }
        assert IsLeast(x, keys);
      } else {
        assert IsLeast(m, keys);
      }
    }
  }

  /** The elements of a set in ascending order: the one result every sort of
      its elements has. */
  ghost function SortedKeys(keys: set<string>): (r: seq<string>)
    ensures multiset(r) == multiset(keys)
    ensures |r| == |keys|
    ensures forall k :: k in r <==> k in keys
    decreases |keys|
  {
    if keys == {} then []
    else
      LeastExists(keys);
      var k :| IsLeast(k, keys);
      var rest := SortedKeys(keys - {k});
      assert multiset([k] + rest) == multiset(keys);
      [k] + rest
  }

  lemma {:induction false} SortedKeysSorted(keys: set<string>)
    ensures SortedBy(SortedKeys(keys), StringLe)
    decreases |keys|
  {
    if keys != {} {
      var r := SortedKeys(keys);
      var k := r[0];
      assert r[1..] == SortedKeys(keys - {k});
      SortedKeysSorted(keys - {k});
      assert IsLeast(k, keys);
    }
  }

  lemma StringPreorder()
    ensures Preorder(StringLe)
  {
    forall x, y ensures StringLe(x, y) || StringLe(y, x) { StringLeTotal(x, y); }
    forall x, y, z | StringLe(x, y) && StringLe(y, z) ensures StringLe(x, z) { StringLeTransitive(x, y, z); }
  }

  /** Sorting any listing of a set gives SortedKeys. */
  lemma SortIsSortedKeys(listing: seq<string>, keys: set<string>)
    requires multiset(listing) == multiset(keys)
    ensures Sort(listing, StringLe) == SortedKeys(keys)
  {
    StringPreorder();
    SortSorts(listing, StringLe);
    SortedKeysSorted(keys);
    forall x, y | StringLe(x, y) && StringLe(y, x) ensures x == y { StringLeAntisymmetric(x, y); }
    SortedUnique(Sort(listing, StringLe), SortedKeys(keys), StringLe);
  }

  /** The keys of a Go map come in any order. */
  method Enumerate(keys: set<string>) returns (listing: seq<string>)
    ensures multiset(listing) == multiset(keys)
  {
    listing := [];
    var rest := keys;
    while rest != {}
      invariant rest <= keys && multiset(listing) == multiset(keys - rest)
    {
      var k :| k in rest;
      listing := listing + [k];
      assert keys - (rest - {k}) == (keys - rest) + {k};
      rest := rest - {k};
    }
    assert keys - rest == keys;
  }

  /** The keys of a Go map, collected in any order and then sorted. */
  method SortedListing(keys: set<string>) returns (listing: seq<string>)
    ensures listing == SortedKeys(keys)
  {
    listing := Enumerate(keys);
    SortIsSortedKeys(listing, keys);
    listing := Sort(listing, StringLe);
  }

  /** A listing of a set holds nothing twice. */
  lemma ListedOnce(s: seq<string>, keys: set<string>)
    requires multiset(s) == multiset(keys)
    ensures forall i, j :: 0 <= i < j < |s| ==> s[i] != s[j]
  {
    forall i, j | 0 <= i < j < |s| ensures s[i] != s[j] {
      var rest := s[..i] + s[i + 1..j] + s[j + 1..];
      assert s == s[..i] + [s[i]] + s[i + 1..j] + [s[j]] + s[j + 1..];
      assert multiset(s) == multiset(rest) + multiset{s[i], s[j]};
      assert multiset(keys)[s[i]] <= 1;
    }
  }

  /** A map's values in the order of their keys: what collecting a Go map and sorting by key gives. */
  ghost function ByKey<V>(m: map<string, V>): seq<V> {
    var keys := SortedKeys(m.Keys);
    seq(|keys|, i requires 0 <= i < |keys| => m[keys[i]])
  }

  lemma ByKeyExactly<V>(m: map<string, V>)
    ensures forall k :: k in m ==> m[k] in ByKey(m)
    ensures forall v :: v in ByKey(m) ==> exists k :: k in m && m[k] == v
  {
    hide SortedKeys;
    var keys := SortedKeys(m.Keys);
    forall k | k in m ensures m[k] in ByKey(m) {
      assert k in keys;
      var i :| 0 <= i < |keys| && keys[i] == k;
      assert ByKey(m)[i] == m[k];
    }
    forall v | v in ByKey(m) ensures exists k :: k in m && m[k] == v {
      var i :| 0 <= i < |keys| && ByKey(m)[i] == v;
      assert keys[i] in keys;
    }
  }

  /** When every value knows its key, no two of them share one, and they ascend. */
  lemma ByKeyDistinct<V>(m: map<string, V>, key: V -> string)
    requires forall k :: k in m ==> key(m[k]) == k
    ensures forall i, j :: 0 <= i < j < |ByKey(m)| ==> key(ByKey(m)[i]) != key(ByKey(m)[j])
    ensures forall i, j :: 0 <= i < j < |ByKey(m)| ==> StringLe(key(ByKey(m)[i]), key(ByKey(m)[j]))
  {
    hide SortedKeys, StringLe;
    var keys := SortedKeys(m.Keys);
    ListedOnce(keys, m.Keys);
    SortedKeysSorted(m.Keys);
    forall i | 0 <= i < |keys| ensures key(ByKey(m)[i]) == keys[i] { assert keys[i] in keys; }
  }
}
