/** Strict orders on sequences, and sorting by key. */
module Order {
  import opened Bytes

  ghost predicate StrictTotal<T(!new)>(less: (T, T) -> bool) {
    && (forall a :: !less(a, a))
    && (forall a, b :: a == b || less(a, b) || less(b, a))
    && (forall a, b, c :: less(a, b) && less(b, c) ==> less(a, c))
  }

  /** Lexicographic order, a proper prefix first. */
  predicate Lex<T(==)>(less: (T, T) -> bool, a: seq<T>, b: seq<T>) {
    b != [] && (a == [] || less(a[0], b[0]) || (a[0] == b[0] && Lex(less, a[1..], b[1..])))
  }

  lemma {:induction false} LexIrreflexive<T(!new)>(less: (T, T) -> bool, a: seq<T>)
    requires StrictTotal(less)
    ensures !Lex(less, a, a)
  {
    if a != [] { LexIrreflexive(less, a[1..]); }
  }

  lemma {:induction false} LexTotal<T(!new)>(less: (T, T) -> bool, a: seq<T>, b: seq<T>)
    requires StrictTotal(less)
    ensures a == b || Lex(less, a, b) || Lex(less, b, a)
  {
    if a != [] && b != [] && a[0] == b[0] {
      LexTotal(less, a[1..], b[1..]);
      assert a == [a[0]] + a[1..] && b == [b[0]] + b[1..];
    }
  }

  lemma {:induction false} LexTransitive<T(!new)>(less: (T, T) -> bool, a: seq<T>, b: seq<T>, c: seq<T>)
    requires StrictTotal(less) && Lex(less, a, b) && Lex(less, b, c)
    ensures Lex(less, a, c)
  {
    if a != [] && a[0] == b[0] && b[0] == c[0] { LexTransitive(less, a[1..], b[1..], c[1..]); }
  }

  predicate CharLess(a: char, b: char) { a < b }

  /** Rust's order on strings: byte-wise over UTF-8, which is code point by code point. */
  predicate StringLess(a: string, b: string) { Lex(CharLess, a, b) }

  lemma StringOrder()
    ensures StrictTotal(StringLess)
  {
    forall a ensures !StringLess(a, a) { LexIrreflexive(CharLess, a); }
    forall a, b ensures a == b || StringLess(a, b) || StringLess(b, a) { LexTotal(CharLess, a, b); }
    forall a, b, c | StringLess(a, b) && StringLess(b, c) ensures StringLess(a, c) { LexTransitive(CharLess, a, b, c); }
  }

  predicate ByteLess(a: byte, b: byte) { a < b }

  predicate NameLess(a: seq<byte>, b: seq<byte>) { Lex(ByteLess, a, b) }

  /** Paths compare component by component, not as text. */
  predicate PathLess(a: seq<seq<byte>>, b: seq<seq<byte>>) { Lex(NameLess, a, b) }

  lemma NameOrder()
    ensures StrictTotal(NameLess)
  {
    forall a ensures !NameLess(a, a) { LexIrreflexive(ByteLess, a); }
    forall a, b ensures a == b || NameLess(a, b) || NameLess(b, a) { LexTotal(ByteLess, a, b); }
    forall a, b, c | NameLess(a, b) && NameLess(b, c) ensures NameLess(a, c) { LexTransitive(ByteLess, a, b, c); }
  }

  lemma PathOrder()
    ensures StrictTotal(PathLess)
  {
    NameOrder();
    forall a ensures !PathLess(a, a) { LexIrreflexive(NameLess, a); }
    forall a, b ensures a == b || PathLess(a, b) || PathLess(b, a) { LexTotal(NameLess, a, b); }
    forall a, b, c | PathLess(a, b) && PathLess(b, c) ensures PathLess(a, c) { LexTransitive(NameLess, a, b, c); }
  }

  // ---- sorting ----

  datatype Entry<K, V> = Entry(key: K, value: V)

  predicate Distinct<K(==), V>(s: seq<Entry<K, V>>) { forall i, j :: 0 <= i < j < |s| ==> s[i].key != s[j].key }

  predicate Sorted<K, V>(less: (K, K) -> bool, s: seq<Entry<K, V>>) {
    forall i, j :: 0 <= i < j < |s| ==> less(s[i].key, s[j].key)
  }

  ghost predicate SameEntries<K(!new), V(!new)>(s: seq<Entry<K, V>>, t: seq<Entry<K, V>>) {
    forall e :: e in s <==> e in t
  }

  function Insert<K, V>(less: (K, K) -> bool, e: Entry<K, V>, s: seq<Entry<K, V>>): seq<Entry<K, V>> {
    if s == [] || less(e.key, s[0].key) then [e] + s else [s[0]] + Insert(less, e, s[1..])
  }

  function Sort<K, V>(less: (K, K) -> bool, s: seq<Entry<K, V>>): seq<Entry<K, V>> {
    if s == [] then [] else Insert(less, s[0], Sort(less, s[1..]))
  }

  lemma {:induction false} InsertKeeps<K, V(!new)>(less: (K, K) -> bool, e: Entry<K, V>, s: seq<Entry<K, V>>)
    ensures |Insert(less, e, s)| == |s| + 1
    ensures forall x :: x in Insert(less, e, s) <==> x == e || x in s
  {
    if s != [] && !less(e.key, s[0].key) {
      InsertKeeps(less, e, s[1..]);
      assert s == [s[0]] + s[1..];
    }
  }

  lemma {:induction false} InsertSorted<K(!new), V(!new)>(less: (K, K) -> bool, e: Entry<K, V>, s: seq<Entry<K, V>>)
    requires StrictTotal(less) && Sorted(less, s) && forall x :: x in s ==> x.key != e.key
    ensures Sorted(less, Insert(less, e, s))
  {
    if s != [] && !less(e.key, s[0].key) {
      var rest := Insert(less, e, s[1..]);
      InsertSorted(less, e, s[1..]);
      InsertKeeps(less, e, s[1..]);
      forall j | 0 <= j < |rest| ensures less(s[0].key, rest[j].key) {
        assert rest[j] in rest;
        assert less(s[0].key, e.key) by { assert s[0] in s; }
      }
    }
  }

  /** Sorting keeps the entries, and orders them when their keys are distinct. */
  lemma {:induction false} SortIs<K(!new), V(!new)>(less: (K, K) -> bool, s: seq<Entry<K, V>>)
    requires StrictTotal(less) && Distinct(s)
    ensures Sorted(less, Sort(less, s)) && SameEntries(s, Sort(less, s)) && |Sort(less, s)| == |s|
  {
    if s != [] {
      SortIs(less, s[1..]);
      InsertKeeps(less, s[0], Sort(less, s[1..]));
      forall x | x in Sort(less, s[1..]) ensures x.key != s[0].key {
        assert x in s[1..];
        var i :| 0 <= i < |s[1..]| && s[1..][i] == x;
        assert s[i + 1].key != s[0].key;
      }
      InsertSorted(less, s[0], Sort(less, s[1..]));
      assert s == [s[0]] + s[1..];
    }
  }

  /** There is only one sorted list of given entries. */
  lemma {:induction false} SortedUnique<K(!new), V(!new)>(less: (K, K) -> bool, s: seq<Entry<K, V>>, t: seq<Entry<K, V>>)
    requires StrictTotal(less) && Sorted(less, s) && Sorted(less, t) && SameEntries(s, t)
    ensures s == t
  {
    assert |t| > 0 ==> t[0] in s;
    if s != [] {
      assert s[0] in t;
      LeastFirst(less, s, t[0]);
      LeastFirst(less, t, s[0]);
      TailEntries(less, s, t);
      SortedUnique(less, s[1..], t[1..]);
      assert s == [s[0]] + s[1..] && t == [t[0]] + t[1..];
    }
  }

  lemma LeastFirst<K(!new), V(!new)>(less: (K, K) -> bool, s: seq<Entry<K, V>>, e: Entry<K, V>)
    requires Sorted(less, s) && e in s
    ensures s[0] == e || less(s[0].key, e.key)
  {
  }

  lemma TailEntries<K(!new), V(!new)>(less: (K, K) -> bool, s: seq<Entry<K, V>>, t: seq<Entry<K, V>>)
    requires StrictTotal(less) && Sorted(less, s) && Sorted(less, t) && SameEntries(s, t) && s != [] && t != [] && s[0] == t[0]
    ensures SameEntries(s[1..], t[1..])
  {
    forall e ensures e in s[1..] <==> e in s && e != s[0] { InTail(less, s, e); }
    forall e ensures e in t[1..] <==> e in t && e != t[0] { InTail(less, t, e); }
  }

  lemma InTail<K(!new), V(!new)>(less: (K, K) -> bool, s: seq<Entry<K, V>>, e: Entry<K, V>)
    requires StrictTotal(less) && Sorted(less, s) && s != []
    ensures e in s[1..] <==> e in s && e != s[0]
  {
    if e in s[1..] {
      var i :| 0 <= i < |s[1..]| && s[1..][i] == e;
      assert less(s[0].key, s[i + 1].key);
    }
    assert s == [s[0]] + s[1..];
  }

  lemma SortedIsDistinct<K(!new), V(!new)>(less: (K, K) -> bool, s: seq<Entry<K, V>>)
    requires StrictTotal(less) && Sorted(less, s)
    ensures Distinct(s)
  {
  }

  /** The order the entries come in does not matter. */
  lemma SortForgetsOrder<K(!new), V(!new)>(less: (K, K) -> bool, s: seq<Entry<K, V>>, t: seq<Entry<K, V>>)
    requires StrictTotal(less) && Distinct(s) && Distinct(t)
    ensures SameEntries(s, t) <==> Sort(less, s) == Sort(less, t)
  {
    SortIs(less, s);
    SortIs(less, t);
    if SameEntries(s, t) { SortedUnique(less, Sort(less, s), Sort(less, t)); }
  }

  lemma SortedIsFixed<K(!new), V(!new)>(less: (K, K) -> bool, s: seq<Entry<K, V>>)
    requires StrictTotal(less) && Sorted(less, s)
    ensures Sort(less, s) == s
  {
    SortedIsDistinct(less, s);
    SortIs(less, s);
    SortedUnique(less, Sort(less, s), s);
  }
}
