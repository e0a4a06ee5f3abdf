/**
  The ordering and the stable sort behind every `sort_by_key` call of the
  conversion. Each key the source sorts by is encoded as a sequence of
  integers compared lexicographically:
  - a `usize` id `n` is `[n]`;
  - an `Option<usize>` is `[-1]` for `None` and `[n]` for `Some(n)`, so `None`
    sorts first, as Rust's derived `Ord` on `Option` does;
  - a `String` is the sequence of its code points, whose lexicographic order
    is the byte order of its UTF-8 encoding, the order of Rust's `String`.
*/
module Sorting {
  import opened Base

  type Key = seq<int>

  /** Lexicographic order on keys; a proper prefix comes first. */
  predicate KeyLe(a: Key, b: Key)
  {
    if a == [] then true
    else if b == [] then false
    else a[0] < b[0] || (a[0] == b[0] && KeyLe(a[1..], b[1..]))
  }

  lemma {:induction false} KeyLeReflexive(a: Key)
    ensures KeyLe(a, a)
  {
    if a != [] { KeyLeReflexive(a[1..]); }
  }

  lemma {:induction false} KeyLeTotal(a: Key, b: Key)
    ensures KeyLe(a, b) || KeyLe(b, a)
  {
    if a != [] && b != [] && a[0] == b[0] { KeyLeTotal(a[1..], b[1..]); }
  }

  lemma {:induction false} KeyLeTransitive(a: Key, b: Key, c: Key)
    requires KeyLe(a, b) && KeyLe(b, c)
    ensures KeyLe(a, c)
  {
    if a != [] && b != [] && c != [] && a[0] == b[0] == c[0] {
      KeyLeTransitive(a[1..], b[1..], c[1..]);
    }
  }

  lemma {:induction false} KeyLeAntisymmetric(a: Key, b: Key)
    requires KeyLe(a, b) && KeyLe(b, a)
    ensures a == b
  {
    if a != [] && b != [] {
      KeyLeAntisymmetric(a[1..], b[1..]);
      assert a == [a[0]] + a[1..] && b == [b[0]] + b[1..];
    }
  }

  function NatKey(n: nat): Key { [n] }

  function OptionKey(o: Option<nat>): Key
  {
    match o
    case None => [-1 as int]
    case Some(n) => [n as int]
  }

  function StringKey(s: string): (k: Key)
    ensures |k| == |s| && forall i :: 0 <= i < |s| ==> k[i] == s[i] as int
  {
    seq(|s|, i requires 0 <= i < |s| => s[i] as int)
  }

  /** Distinct strings have distinct keys. */
  lemma {:induction false} StringKeyInjective(s: string, t: string)
    requires StringKey(s) == StringKey(t)
    ensures s == t
  {
    assert |s| == |t|;
    forall i | 0 <= i < |s| ensures s[i] == t[i] {
      assert StringKey(s)[i] == StringKey(t)[i];
    }
  }

  ghost predicate Ascending(ks: seq<Key>)
  {
    forall i, j :: 0 <= i < j < |ks| ==> KeyLe(ks[i], ks[j])
  }

  ghost predicate SortedBy<T>(s: seq<T>, key: T -> Key)
  {
    forall i, j :: 0 <= i < j < |s| ==> KeyLe(key(s[i]), key(s[j]))
  }

  lemma {:induction false} ImageKeysCons<T>(x: T, s: seq<T>, key: T -> Key)
    ensures Image([x] + s, key) == [key(x)] + Image(s, key)
    ensures multiset(Image([x] + s, key)) == multiset(Image(s, key)) + multiset{key(x)}
  {
    assert Image([x] + s, key) == [key(x)] + Image(s, key);
  }

  /** Inserts `x` in front of the first element whose key is not below its
      own: behind every smaller key, ahead of every equal one. */
  function Insert<T>(x: T, s: seq<T>, key: T -> Key): (r: seq<T>)
    ensures multiset(r) == multiset(s) + multiset{x}
    ensures |r| == |s| + 1
  {
    if s == [] || KeyLe(key(x), key(s[0])) then [x] + s
    else
      assert s == [s[0]] + s[1..];
      [s[0]] + Insert(x, s[1..], key)
  }

  lemma {:induction false} InsertKeys<T>(x: T, s: seq<T>, key: T -> Key)
    ensures multiset(Image(Insert(x, s, key), key)) == multiset(Image(s, key)) + multiset{key(x)}
  {
    if s == [] || KeyLe(key(x), key(s[0])) {
      ImageKeysCons(x, s, key);
    } else {
      InsertKeys(x, s[1..], key);
      ImageKeysCons(s[0], Insert(x, s[1..], key), key);
      ImageKeysCons(s[0], s[1..], key);
      assert [s[0]] + s[1..] == s;
    }
  }

  lemma {:induction false} InsertSorted<T>(x: T, s: seq<T>, key: T -> Key)
    requires SortedBy(s, key)
    ensures SortedBy(Insert(x, s, key), key)
  {
    if s == [] || KeyLe(key(x), key(s[0])) {
      forall i, j | 0 <= i < j < |[x] + s|
        ensures KeyLe(key(([x] + s)[i]), key(([x] + s)[j]))
      {
        if i == 0 && j > 1 { KeyLeTransitive(key(x), key(s[0]), key(s[j - 1])); }
      }
    } else {
      KeyLeTotal(key(x), key(s[0]));
      InsertSorted(x, s[1..], key);
      var rest := Insert(x, s[1..], key);
      forall j | 0 <= j < |rest| ensures KeyLe(key(s[0]), key(rest[j])) {
        assert rest[j] in multiset(rest);
        if rest[j] != x {
          assert rest[j] in multiset(s[1..]);
          var m :| 0 <= m < |s[1..]| && s[1..][m] == rest[j];
          assert s[m + 1] == rest[j];
        }
      }
      forall i, j | 0 <= i < j < |[s[0]] + rest|
        ensures KeyLe(key(([s[0]] + rest)[i]), key(([s[0]] + rest)[j]))
      {
        if i == 0 {
          assert ([s[0]] + rest)[j] == rest[j - 1];
        } else {
          assert ([s[0]] + rest)[i] == rest[i - 1] && ([s[0]] + rest)[j] == rest[j - 1];
        }
      }
    }
  }

  /** The model of Rust's `sort_by_key`: a stable insertion sort. */
  function SortByKey<T>(s: seq<T>, key: T -> Key): (r: seq<T>)
    ensures SortedBy(r, key)
    ensures |r| == |s| && multiset(r) == multiset(s)
    ensures multiset(Image(r, key)) == multiset(Image(s, key))
  {
    if s == [] then []
    else
      var rest := SortByKey(s[1..], key);
      InsertStep(s, rest, key);
      Insert(s[0], rest, key)
  }

  /** Inserting the head into the sorted tail sorts the whole sequence. */
  lemma {:induction false} InsertStep<T>(s: seq<T>, rest: seq<T>, key: T -> Key)
    requires s != []
    requires SortedBy(rest, key) && multiset(rest) == multiset(s[1..])
    requires multiset(Image(rest, key)) == multiset(Image(s[1..], key))
    ensures var r := Insert(s[0], rest, key);
            && SortedBy(r, key)
            && multiset(r) == multiset(s)
            && multiset(Image(r, key)) == multiset(Image(s, key))
  {
    InsertSorted(s[0], rest, key);
    InsertKeys(s[0], rest, key);
    ImageKeysCons(s[0], s[1..], key);
    assert s == [s[0]] + s[1..];
  }

  /** The elements of `s` whose key is `k`, in order. */
  function WithKey<T>(s: seq<T>, key: T -> Key, k: Key): seq<T>
  {
    if s == [] then [] else (if key(s[0]) == k then [s[0]] else []) + WithKey(s[1..], key, k)
  }

  lemma {:induction false} InsertWithKey<T>(x: T, s: seq<T>, key: T -> Key, k: Key)
    requires SortedBy(s, key)
    ensures WithKey(Insert(x, s, key), key, k) == (if key(x) == k then [x] else []) + WithKey(s, key, k)
  {
    if s == [] || KeyLe(key(x), key(s[0])) {
      assert ([x] + s)[1..] == s;
    } else {
      InsertWithKey(x, s[1..], key, k);
      if key(x) == k {
        KeyLeReflexive(key(x));
        assert key(s[0]) != k;
      }
      assert ([s[0]] + Insert(x, s[1..], key))[1..] == Insert(x, s[1..], key);
    }
  }

  /** Stability: among elements with equal keys the input order survives. */
  lemma {:induction false} SortByKeyStable<T>(s: seq<T>, key: T -> Key, k: Key)
    ensures WithKey(SortByKey(s, key), key, k) == WithKey(s, key, k)
  {
    if s != [] {
      SortByKeyStable(s[1..], key, k);
      InsertWithKey(s[0], SortByKey(s[1..], key), key, k);
    }
  }

  /** Two ascending key sequences holding the same keys are equal. */
  lemma {:induction false} AscendingUnique(a: seq<Key>, b: seq<Key>)
    requires Ascending(a) && Ascending(b)
    requires multiset(a) == multiset(b)
    ensures a == b
  {
    if a == [] {
      assert |multiset(b)| == 0;
    } else {
      assert a[0] in multiset(b);
      assert b != [];
      assert b[0] in multiset(a);
      var i :| 0 <= i < |a| && a[i] == b[0];
      var j :| 0 <= j < |b| && b[j] == a[0];
      assert KeyLe(a[0], b[0]) by {
        if i == 0 { KeyLeReflexive(a[0]); } else { assert KeyLe(a[0], a[i]); }
      }
      assert KeyLe(b[0], a[0]) by {
        if j == 0 { KeyLeReflexive(b[0]); } else { assert KeyLe(b[0], b[j]); }
      }
      KeyLeAntisymmetric(a[0], b[0]);
      AscendingTail(a);
      AscendingTail(b);
      MultisetTail(a);
      MultisetTail(b);
      AscendingUnique(a[1..], b[1..]);
    }
  }

  lemma {:induction false} AscendingTail(a: seq<Key>)
    requires Ascending(a) && a != []
    ensures Ascending(a[1..])
  {
    forall i, j | 0 <= i < j < |a[1..]| ensures KeyLe(a[1..][i], a[1..][j]) {
      assert a[1..][i] == a[i + 1] && a[1..][j] == a[j + 1];
    }
  }

  lemma {:induction false} MultisetTail<T>(a: seq<T>)
    requires a != []
    ensures multiset(a[1..]) == multiset(a) - multiset{a[0]}
  {
    assert a == [a[0]] + a[1..];
  }

  /** Sorting two sequences whose keys agree as multisets lines them up: the
      i-th elements of the two sorted sequences carry equal keys. This is
      what makes sort-then-zip pair each value with the time of its id. */
  lemma {:induction false} SortedPairing<A, B>(a: seq<A>, ka: A -> Key, b: seq<B>, kb: B -> Key)
    requires multiset(Image(a, ka)) == multiset(Image(b, kb))
    ensures |SortByKey(a, ka)| == |SortByKey(b, kb)|
    ensures forall i :: 0 <= i < |SortByKey(a, ka)| ==> ka(SortByKey(a, ka)[i]) == kb(SortByKey(b, kb)[i])
  {
    var sa, sb := SortByKey(a, ka), SortByKey(b, kb);
    assert Ascending(Image(sa, ka)) && Ascending(Image(sb, kb));
    AscendingUnique(Image(sa, ka), Image(sb, kb));
    forall i | 0 <= i < |sa| ensures ka(sa[i]) == kb(sb[i]) {
      assert Image(sa, ka)[i] == Image(sb, kb)[i];
    }
  }
}
