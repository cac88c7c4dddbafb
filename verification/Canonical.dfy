/** The canonical form of a server declaration: every object's keys sorted, at every depth. */
module Canonical {
  import opened Json
  import opened Optional
  import opened Order

  type MemberList = seq<Entry<string, Value>>

  /** `canonicalize`: sort the entries, then the same inside each of them. */
  function Canonicalize(v: Value): Value
    decreases v
  {
    match v
    case Obj(members) =>
      var entries := Sort(StringLess, members);
      SortKeeps(StringLess, members);
      Obj(seq(|entries|, i requires 0 <= i < |entries| =>
        assert entries[i] in members; Entry(entries[i].key, Canonicalize(entries[i].value))))
    case Arr(items) => Arr(seq(|items|, i requires 0 <= i < |items| => Canonicalize(items[i])))
    case _ => v
  }

  lemma {:induction false} SortKeeps(less: (string, string) -> bool, s: MemberList)
    ensures SameEntries(s, Sort(less, s)) && |Sort(less, s)| == |s|
  {
    if s != [] {
      SortKeeps(less, s[1..]);
      InsertKeeps(less, s[0], Sort(less, s[1..]));
      assert s == [s[0]] + s[1..];
    }
  }

  ghost predicate Keeps(members: MemberList, canon: MemberList) {
    && |canon| == |members| && Sorted(StringLess, canon)
    && (forall e :: e in members ==> Entry(e.key, Canonicalize(e.value)) in canon)
    && (forall c :: c in canon ==> exists e :: e in members && c == Entry(e.key, Canonicalize(e.value)))
  }

  /** Canonicalizing an object sorts it and canonicalizes each member under its own key, losing and adding none. */
  lemma ObjectKeeps(members: MemberList)
    requires Distinct(members)
    ensures Canonicalize(Obj(members)).Obj? && Keeps(members, Canonicalize(Obj(members)).members)
  {
    StringOrder();
    SortIs(StringLess, members);
    var entries := Sort(StringLess, members);
    var canon := Canonicalize(Obj(members)).members;
    assert forall i :: 0 <= i < |entries| ==> canon[i] == Entry(entries[i].key, Canonicalize(entries[i].value));
    forall e | e in members ensures Entry(e.key, Canonicalize(e.value)) in canon {
      assert e in entries;
      var i :| 0 <= i < |entries| && entries[i] == e;
      assert canon[i] == Entry(e.key, Canonicalize(e.value));
    }
    forall c | c in canon ensures exists e :: e in members && c == Entry(e.key, Canonicalize(e.value)) {
      var i :| 0 <= i < |canon| && canon[i] == c;
      assert entries[i] in members;
    }
  }

  // ---- canonical values, and idempotence ----

  /** Keys in order in every object, at every depth. */
  predicate InOrder(v: Value)
    decreases v
  {
    match v
    case Arr(items) => forall i :: 0 <= i < |items| ==> InOrder(items[i])
    case Obj(members) => Sorted(StringLess, members) && forall i :: 0 <= i < |members| ==> InOrder(members[i].value)
    case _ => true
  }

  lemma {:induction false} CanonicalizeOrders(v: Value)
    requires Ok(v)
    ensures Ok(Canonicalize(v)) && InOrder(Canonicalize(v))
    decreases v
  {
    match v
    case Arr(items) => forall i | 0 <= i < |items| { CanonicalizeOrders(items[i]); }
    case Obj(members) =>
      ObjectKeeps(members);
      StringOrder();
      var canon := Canonicalize(v).members;
      SortedIsDistinct(StringLess, canon);
      forall i | 0 <= i < |canon| ensures Ok(canon[i].value) && InOrder(canon[i].value) {
        assert canon[i] in canon;
        var e :| e in members && canon[i] == Entry(e.key, Canonicalize(e.value));
        CanonicalizeOrders(e.value);
      }
    case _ =>
  }

  lemma {:induction false} InOrderIsFixed(v: Value)
    requires InOrder(v)
    ensures Canonicalize(v) == v
    decreases v
  {
    match v
    case Arr(items) =>
      forall i | 0 <= i < |items| { InOrderIsFixed(items[i]); }
      assert Canonicalize(v).items == items;
    case Obj(members) =>
      StringOrder();
      SortedIsFixed(StringLess, members);
      forall i | 0 <= i < |members| { InOrderIsFixed(members[i].value); }
      assert Canonicalize(v).members == members;
    case _ =>
  }

  lemma Idempotent(v: Value)
    requires Ok(v)
    ensures Canonicalize(Canonicalize(v)) == Canonicalize(v)
  {
    CanonicalizeOrders(v);
    InOrderIsFixed(Canonicalize(v));
  }

  // ---- lookups ----

  function Lookup(members: MemberList, key: string): Option<Value> {
    if members == [] then None
    else if members[0].key == key then Some(members[0].value)
    else Lookup(members[1..], key)
  }

  lemma {:induction false} LookupIs(members: MemberList, key: string)
    requires Distinct(members)
    ensures Lookup(members, key).Some? ==> Entry(key, Lookup(members, key).value) in members
    ensures forall e :: e in members && e.key == key ==> Lookup(members, key) == Some(e.value)
  {
    if members != [] {
      LookupIs(members[1..], key);
      assert members == [members[0]] + members[1..];
      assert members[0].key == key ==> forall e :: e in members[1..] ==> e.key != key;
    }
  }

  datatype Step = Field(key: string) | At(i: nat)

  /** What a path of keys and indices leads to. */
  function Get(v: Value, path: seq<Step>): Option<Value>
    decreases |path|
  {
    if path == [] then Some(v)
    else match path[0]
      case Field(key) =>
        if v.Obj? && Lookup(v.members, key).Some? then Get(Lookup(v.members, key).value, path[1..]) else None
      case At(i) =>
        if v.Arr? && i < |v.items| then Get(v.items[i], path[1..]) else None
  }

  /** Every lookup is kept: a path leads to the canonical form of what it led to, or to nothing as before. */
  lemma {:induction false} LookupsKept(v: Value, path: seq<Step>)
    requires Ok(v)
    ensures Get(Canonicalize(v), path)
         == if Get(v, path).None? then None else Some(Canonicalize(Get(v, path).value))
    decreases |path|
  {
    if path != [] {
      match path[0]
      case Field(key) =>
        if v.Obj? {
          FieldKept(v.members, key);
          if Lookup(v.members, key).Some? {
            LookupIs(v.members, key);
            assert Ok(Lookup(v.members, key).value);
            LookupsKept(Lookup(v.members, key).value, path[1..]);
          }
        }
      case At(i) =>
        if v.Arr? && i < |v.items| {
          assert Canonicalize(v).items[i] == Canonicalize(v.items[i]);
          LookupsKept(v.items[i], path[1..]);
        }
    }
  }

  lemma FieldKept(members: MemberList, key: string)
    requires Distinct(members)
    ensures Lookup(Canonicalize(Obj(members)).members, key)
         == if Lookup(members, key).None? then None else Some(Canonicalize(Lookup(members, key).value))
  {
    ObjectKeeps(members);
    var canon := Canonicalize(Obj(members)).members;
    StringOrder();
    SortedIsDistinct(StringLess, canon);
    LookupIs(members, key);
    LookupIs(canon, key);
    if Lookup(members, key).Some? {
      assert Entry(key, Canonicalize(Lookup(members, key).value)) in canon;
    } else {
      assert forall e :: e in members ==> e.key != key;
      assert forall c :: c in canon ==> c.key != key;
    }
  }

  // ---- exactly the key-order variants are identified ----

  function Keys(members: MemberList): set<string> { set e | e in members :: e.key }

  /** The same value up to the order of object keys, at every depth. */
  predicate Variant(v: Value, w: Value)
    decreases v
  {
    match v
    case Arr(items) =>
      w.Arr? && |items| == |w.items| && forall i :: 0 <= i < |items| ==> Variant(items[i], w.items[i])
    case Obj(members) =>
      && w.Obj? && Keys(members) == Keys(w.members)
      && forall i, j :: 0 <= i < |members| && 0 <= j < |w.members| && members[i].key == w.members[j].key ==>
           Variant(members[i].value, w.members[j].value)
    case _ => v == w
  }

  /** Two values have the same canonical form exactly when they differ in nothing but key order. */
  lemma {:induction false} SameCanonicalIffVariant(v: Value, w: Value)
    requires Ok(v) && Ok(w)
    ensures Canonicalize(v) == Canonicalize(w) <==> Variant(v, w)
    decreases v
  {
    match v
    case Arr(items) =>
      if w.Arr? && |items| == |w.items| {
        forall i | 0 <= i < |items| { SameCanonicalIffVariant(items[i], w.items[i]); }
        ArraysEqual(items, w.items);
      }
    case Obj(members) =>
      if w.Obj? {
        forall i, j | 0 <= i < |members| && 0 <= j < |w.members| { SameCanonicalIffVariant(members[i].value, w.members[j].value); }
        ObjectsEqual(members, w.members);
      }
    case _ =>
  }

  lemma ArraysEqual(a: seq<Value>, b: seq<Value>)
    requires |a| == |b|
    ensures Canonicalize(Arr(a)) == Canonicalize(Arr(b)) <==> forall i :: 0 <= i < |a| ==> Canonicalize(a[i]) == Canonicalize(b[i])
  {
    var x, y := Canonicalize(Arr(a)).items, Canonicalize(Arr(b)).items;
    assert forall i :: 0 <= i < |a| ==> x[i] == Canonicalize(a[i]) && y[i] == Canonicalize(b[i]);
    if forall i :: 0 <= i < |a| ==> Canonicalize(a[i]) == Canonicalize(b[i]) { assert x == y; }
  }

  lemma ObjectsEqual(a: MemberList, b: MemberList)
    requires Distinct(a) && Distinct(b)
    ensures Canonicalize(Obj(a)) == Canonicalize(Obj(b)) <==> Keys(a) == Keys(b) && ValuesAgree(a, b)
  {
    ObjectKeeps(a);
    ObjectKeeps(b);
    var x, y := Canonicalize(Obj(a)).members, Canonicalize(Obj(b)).members;
    StringOrder();
    if x == y {
      KeysWithin(a, b, x);
      KeysWithin(b, a, x);
      SortedIsDistinct(StringLess, x);
      SameValues(a, b, x);
    }
    if Keys(a) == Keys(b) && ValuesAgree(a, b) {
      EntriesWithin(a, b, x, y);
      ValuesAgreeSym(a, b);
      EntriesWithin(b, a, y, x);
      SortedUnique(StringLess, x, y);
    }
  }

  ghost predicate ValuesAgree(a: MemberList, b: MemberList) {
    forall i, j :: 0 <= i < |a| && 0 <= j < |b| && a[i].key == b[j].key ==> Canonicalize(a[i].value) == Canonicalize(b[j].value)
  }

  lemma ValuesAgreeSym(a: MemberList, b: MemberList)
    requires ValuesAgree(a, b)
    ensures ValuesAgree(b, a)
  {
  }

  lemma KeysWithin(a: MemberList, b: MemberList, x: MemberList)
    requires Keeps(a, x) && Keeps(b, x)
    ensures Keys(a) <= Keys(b)
  {
    forall k | k in Keys(a) ensures k in Keys(b) {
      var e :| e in a && e.key == k;
      var c := Entry(e.key, Canonicalize(e.value));
      var f :| f in b && c == Entry(f.key, Canonicalize(f.value));
    }
  }

  lemma SameValues(a: MemberList, b: MemberList, x: MemberList)
    requires Keeps(a, x) && Keeps(b, x) && Distinct(x)
    ensures ValuesAgree(a, b)
  {
    forall i, j | 0 <= i < |a| && 0 <= j < |b| && a[i].key == b[j].key
      ensures Canonicalize(a[i].value) == Canonicalize(b[j].value)
    {
      assert a[i] in a && b[j] in b;
      var p :| 0 <= p < |x| && x[p] == Entry(a[i].key, Canonicalize(a[i].value));
      var q :| 0 <= q < |x| && x[q] == Entry(b[j].key, Canonicalize(b[j].value));
      assert p == q;
    }
  }

  lemma EntriesWithin(a: MemberList, b: MemberList, x: MemberList, y: MemberList)
    requires Keeps(a, x) && Keeps(b, y) && Keys(a) <= Keys(b) && ValuesAgree(a, b)
    ensures forall c :: c in x ==> c in y
  {
    forall c | c in x ensures c in y {
      var e :| e in a && c == Entry(e.key, Canonicalize(e.value));
      assert e.key in Keys(a);
      var f :| f in b && f.key == e.key;
      var i :| 0 <= i < |a| && a[i] == e;
      var j :| 0 <= j < |b| && b[j] == f;
      assert Canonicalize(a[i].value) == Canonicalize(b[j].value);
    }
  }
}
