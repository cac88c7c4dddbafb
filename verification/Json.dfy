/** JSON values, their compact text, and the key-sorted form the freeze hash covers. */
module Json {
  import opened Optional
  import opened Order
  import opened Sequences
  import Scanner

  /** A number is its printed token; an object is its members in iteration order. */
  datatype Value =
    | Null
    | Bool(b: bool)
    | Number(token: string)
    | Str(s: string)
    | Arr(items: seq<Value>)
    | Obj(members: seq<Entry<string, Value>>)

  predicate NumberChar(c: char) { '0' <= c <= '9' || c == '-' || c == '+' || c == '.' || c == 'e' || c == 'E' }

  /** Number tokens are number text, and an object holds a key once. */
  predicate Ok(v: Value)
    decreases v
  {
    match v
    case Number(token) => token != [] && forall i :: 0 <= i < |token| ==> NumberChar(token[i])
    case Arr(items) => forall i :: 0 <= i < |items| ==> Ok(items[i])
    case Obj(members) => Distinct(members) && forall i :: 0 <= i < |members| ==> Ok(members[i].value)
    case _ => true
  }

  // ---- the compact text ----

  function Hex(n: nat): char
    requires n < 16
  {
    if n < 10 then ('0' as int + n) as char else ('a' as int + n - 10) as char
  }

  /** What serde writes for a character of a string (section 7 of RFC 8259). */
  function Escape(c: char): (t: string)
    ensures t != []
  {
    var u := c as int;
    if c == '"' then "\\\""
    else if c == '\\' then "\\\\"
    else if u == 8 then "\\b"
    else if u == 9 then "\\t"
    else if u == 10 then "\\n"
    else if u == 12 then "\\f"
    else if u == 13 then "\\r"
    else if u < 32 then ['\\', 'u', '0', '0', Hex(u / 16), Hex(u % 16)]
    else [c]
  }

  /** The characters of a string literal and the quote that closes it. */
  function Quoted(s: string): string {
    if s == [] then "\"" else Escape(s[0]) + Quoted(s[1..])
  }

  function Print(v: Value): string
    decreases v
  {
    match v
    case Null => "null"
    case Bool(b) => if b then "true" else "false"
    case Number(token) => token
    case Str(s) => "\"" + Quoted(s)
    case Arr(items) => "[" + (Items(items) + "]")
    case Obj(members) => "{" + (Members(members) + "}")
  }

  function Items(items: seq<Value>): string
    decreases items
  {
    if items == [] then ""
    else Print(items[0]) + (if |items| == 1 then "" else "," + Items(items[1..]))
  }

  function Key(key: string): string { "\"" + Quoted(key) + ":" }

  function Member(m: Entry<string, Value>): string
    decreases m
  {
    Key(m.key) + Print(m.value)
  }

  function Members(members: seq<Entry<string, Value>>): string
    decreases members
  {
    if members == [] then ""
    else
      Member(members[0]) + (if |members| == 1 then "" else "," + Members(members[1..]))
  }

  // ---- the text determines the value ----

  /** What can follow a value: nothing that would lengthen a number. */
  predicate Ends(r: string) { r == [] || !NumberChar(r[0]) }

  /** What a value's text begins with tells its kind. */
  predicate Leads(v: Value, c: char) {
    match v
    case Null => c == 'n'
    case Bool(b) => c == if b then 't' else 'f'
    case Number(_) => NumberChar(c)
    case Str(_) => c == '"'
    case Arr(_) => c == '['
    case Obj(_) => c == '{'
  }

  lemma PrintLeads(v: Value)
    requires Ok(v)
    ensures Print(v) != [] && Leads(v, Print(v)[0])
  {
  }

  lemma EscapeUnique(c: char, d: char, x: string, y: string)
    requires Escape(c) + x == Escape(d) + y
    ensures c == d && x == y
  {
    var a, b := Escape(c), Escape(d);
    assert a[0] == (a + x)[0] == b[0];
    assert |a| > 1 && |b| > 1 ==> a[1] == (a + x)[1] == b[1];
    assert |a| > 5 && |b| > 5 ==> a[4] == (a + x)[4] == b[4] && a[5] == (a + x)[5] == b[5];
    SameEscape(c, d);
    Split(a, b, x, y);
  }

  lemma SameEscape(c: char, d: char)
    requires var a, b := Escape(c), Escape(d);
      a[0] == b[0] && (|a| > 1 && |b| > 1 ==> a[1] == b[1]) && (|a| > 5 && |b| > 5 ==> a[4] == b[4] && a[5] == b[5])
    ensures c == d
  {
    var u, w := c as int, d as int;
    assert u == u / 16 * 16 + u % 16 && w == w / 16 * 16 + w % 16;
  }

  lemma EscapeLeads(c: char)
    ensures Escape(c)[0] != '"'
  {
  }

  lemma {:induction false} QuotedUnique(s: string, t: string, x: string, y: string)
    requires Quoted(s) + x == Quoted(t) + y
    ensures s == t && x == y
    decreases |s|
  {
    QuotedLeads(s, x);
    QuotedLeads(t, y);
    if s == [] {
      Split("\"", "\"", x, y);
    } else {
      EscapeUnique(s[0], t[0], Quoted(s[1..]) + x, Quoted(t[1..]) + y);
      QuotedUnique(s[1..], t[1..], x, y);
      assert s == [s[0]] + s[1..] && t == [t[0]] + t[1..];
    }
  }

  lemma QuotedLeads(s: string, x: string)
    ensures Quoted(s) + x != [] && ((Quoted(s) + x)[0] == '"' <==> s == [])
    ensures s != [] ==> Quoted(s) + x == Escape(s[0]) + (Quoted(s[1..]) + x)
  {
    if s != [] {
      EscapeLeads(s[0]);
      Associative(Escape(s[0]), Quoted(s[1..]), x);
    }
  }

  /** How many number characters a text starts with. */
  function Run(t: string): nat { if t == [] || !NumberChar(t[0]) then 0 else 1 + Run(t[1..]) }

  /** A token ends where the number characters end. */
  lemma {:induction false} TokenRun(a: string, r: string)
    requires (forall i :: 0 <= i < |a| ==> NumberChar(a[i])) && Ends(r)
    ensures Run(a + r) == |a|
  {
    if a == [] {
      assert a + r == r;
    } else {
      assert (a + r)[1..] == a[1..] + r;
      TokenRun(a[1..], r);
    }
  }

  lemma TokenUnique(a: string, b: string, r: string, s: string)
    requires Ok(Number(a)) && Ok(Number(b)) && a + r == b + s && Ends(r) && Ends(s)
    ensures a == b && r == s
  {
    TokenRun(a, r);
    TokenRun(b, s);
    Split(a, b, r, s);
  }

  /** Two values that print the same print from equal values, whatever follows them. */
  lemma {:induction false} PrintUnique(v: Value, w: Value, r: string, s: string)
    requires Ok(v) && Ok(w) && Print(v) + r == Print(w) + s && Ends(r) && Ends(s)
    ensures v == w && r == s
    decreases v
  {
    PrintLeads(v);
    PrintLeads(w);
    assert (Print(v) + r)[0] == Print(v)[0] && (Print(w) + s)[0] == Print(w)[0];
    match v
    case Null => Split("null", "null", r, s);
    case Bool(b) => Split(Print(v), Print(w), r, s);
    case Number(token) => TokenUnique(token, w.token, r, s);
    case Str(x) =>
      Rest('"', Quoted(x), r, Quoted(w.s), s);
      QuotedUnique(x, w.s, r, s);
    case Arr(items) =>
      Rest('[', Items(items) + "]", r, Items(w.items) + "]", s);
      Associative(Items(items), "]", r);
      Associative(Items(w.items), "]", s);
      ItemsUnique(items, w.items, "]" + r, "]" + s);
      Split("]", "]", r, s);
    case Obj(members) =>
      Rest('{', Members(members) + "}", r, Members(w.members) + "}", s);
      Associative(Members(members), "}", r);
      Associative(Members(w.members), "}", s);
      MembersUnique(members, w.members, "}" + r, "}" + s);
      Split("}", "}", r, s);
  }

  lemma Rest(c: char, a: string, r: string, b: string, s: string)
    requires ([c] + a) + r == ([c] + b) + s
    ensures a + r == b + s
  {
    assert ([c] + a) + r == [c] + (a + r) && ([c] + b) + s == [c] + (b + s);
    assert ([c] + (a + r))[1..] == a + r && ([c] + (b + s))[1..] == b + s;
  }

  /** What follows the first of several: the others behind a comma, or the rest. */
  function ItemsAfter(items: seq<Value>, r: string): string
    requires items != []
  {
    if |items| == 1 then r else "," + (Items(items[1..]) + r)
  }

  lemma {:induction false} ItemsUnique(a: seq<Value>, b: seq<Value>, r: string, s: string)
    requires Ok(Arr(a)) && Ok(Arr(b)) && Items(a) + r == Items(b) + s
    requires r != [] && s != [] && r[0] == ']' && s[0] == ']'
    ensures a == b && r == s
    decreases a
  {
    ItemsLead(a, r);
    ItemsLead(b, s);
    if a != [] && b != [] {
      PrintUnique(a[0], b[0], ItemsAfter(a, r), ItemsAfter(b, s));
      assert a == [a[0]] + a[1..] && b == [b[0]] + b[1..];
      if |a| > 1 && |b| > 1 {
        Split(",", ",", Items(a[1..]) + r, Items(b[1..]) + s);
        ItemsUnique(a[1..], b[1..], r, s);
      }
    }
  }

  lemma ItemsLead(a: seq<Value>, r: string)
    requires Ok(Arr(a)) && r != [] && r[0] == ']'
    ensures Items(a) + r != [] && ((Items(a) + r)[0] == ']' <==> a == [])
    ensures a == [] ==> Items(a) + r == r
    ensures a != [] ==> Ok(a[0]) && Ok(Arr(a[1..]))
    ensures a != [] ==> Items(a) + r == Print(a[0]) + ItemsAfter(a, r)
  {
    if a == [] {
      assert Items(a) + r == r;
    } else {
      PrintLeads(a[0]);
      hide Print;
      Tail(Print(a[0]), if |a| == 1 then "" else Items(a[1..]), r, |a| == 1);
    }
  }

  lemma Tail(p: string, t: string, r: string, last: bool)
    ensures (p + (if last then "" else "," + t)) + r == p + if last then r else "," + (t + r)
  {
    if last { assert "" + r == r; } else { assert ("," + t) + r == "," + (t + r); }
  }

  function MembersAfter(members: seq<Entry<string, Value>>, r: string): string
    requires members != []
  {
    if |members| == 1 then r else "," + (Members(members[1..]) + r)
  }

  lemma {:induction false} MembersUnique(a: seq<Entry<string, Value>>, b: seq<Entry<string, Value>>, r: string, s: string)
    requires Ok(Obj(a)) && Ok(Obj(b)) && Members(a) + r == Members(b) + s
    requires r != [] && s != [] && r[0] == '}' && s[0] == '}'
    ensures a == b && r == s
    decreases a
  {
    MembersLead(a, r);
    MembersLead(b, s);
    if a != [] && b != [] {
      var x, y := Print(a[0].value) + MembersAfter(a, r), Print(b[0].value) + MembersAfter(b, s);
      KeyUnique(a[0].key, b[0].key, x, y);
      PrintUnique(a[0].value, b[0].value, MembersAfter(a, r), MembersAfter(b, s));
      assert a == [a[0]] + a[1..] && b == [b[0]] + b[1..];
      if |a| > 1 && |b| > 1 {
        Split(",", ",", Members(a[1..]) + r, Members(b[1..]) + s);
        MembersUnique(a[1..], b[1..], r, s);
      }
    }
  }

  lemma KeyUnique(k: string, l: string, x: string, y: string)
    requires Key(k) + x == Key(l) + y
    ensures k == l && x == y
  {
    assert Key(k) + x == ("\"" + Quoted(k)) + (":" + x) && Key(l) + y == ("\"" + Quoted(l)) + (":" + y);
    Rest('"', Quoted(k), ":" + x, Quoted(l), ":" + y);
    QuotedUnique(k, l, ":" + x, ":" + y);
    Split(":", ":", x, y);
  }

  lemma MembersLead(a: seq<Entry<string, Value>>, r: string)
    requires Ok(Obj(a)) && r != [] && r[0] == '}'
    ensures Members(a) + r != [] && ((Members(a) + r)[0] == '}' <==> a == [])
    ensures a == [] ==> Members(a) + r == r
    ensures a != [] ==> Ok(a[0].value) && Ok(Obj(a[1..]))
    ensures a != [] ==> Members(a) + r == Key(a[0].key) + (Print(a[0].value) + MembersAfter(a, r))
  {
    if a == [] {
      assert Members(a) + r == r;
    } else {
      assert Key(a[0].key)[0] == '"';
      hide Print, Key;
      var k, p := Key(a[0].key), Print(a[0].value);
      var rest := if |a| == 1 then "" else Members(a[1..]);
      Tail(k + p, rest, r, |a| == 1);
      Associative(k, p, MembersAfter(a, r));
    }
  }

  // ---- the scanner finds what was printed ----

  /** A value's compact text is a bracket tree: one group when the value is an array or an object. */
  lemma {:induction false} PartsOf(v: Value) returns (parts: seq<Scanner.Doc>)
    requires Ok(v)
    ensures Scanner.AllWellFormed(parts) && Scanner.RenderAll(parts) == Print(v)
    ensures v.Arr? || v.Obj? ==> |parts| == 1 && parts[0].Group?
    decreases v
  {
    match v
    case Null => parts := PlainParts("null");
    case Bool(b) => parts := PlainParts(Print(v));
    case Number(token) => parts := PlainParts(token);
    case Str(s) =>
      var units := UnitsOf(s);
      parts := [Scanner.Quoted(units)];
      OnePart(parts[0]);
    case Arr(items) =>
      var inner := ItemParts(items);
      parts := [Scanner.Group('[', inner, ']')];
      OnePart(parts[0]);
    case Obj(members) =>
      var inner := MemberParts(members);
      parts := [Scanner.Group('{', inner, '}')];
      OnePart(parts[0]);
  }

  lemma {:induction false} ItemParts(items: seq<Value>) returns (parts: seq<Scanner.Doc>)
    requires Ok(Arr(items))
    ensures Scanner.AllWellFormed(parts) && Scanner.RenderAll(parts) == Items(items)
    decreases items
  {
    if items == [] {
      parts := [];
    } else {
      var first := PartsOf(items[0]);
      if |items| == 1 {
        parts := first;
      } else {
        var comma := PlainParts(",");
        var more := ItemParts(items[1..]);
        Joined(comma, more);
        Joined(first, comma + more);
        parts := first + (comma + more);
      }
    }
  }

  lemma {:induction false} MemberParts(members: seq<Entry<string, Value>>) returns (parts: seq<Scanner.Doc>)
    requires Ok(Obj(members))
    ensures Scanner.AllWellFormed(parts) && Scanner.RenderAll(parts) == Members(members)
    decreases members
  {
    if members == [] {
      parts := [];
    } else {
      var first := MemberPart(members[0]);
      if |members| == 1 {
        parts := first;
      } else {
        var comma := PlainParts(",");
        var more := MemberParts(members[1..]);
        Joined(comma, more);
        Joined(first, comma + more);
        parts := first + (comma + more);
      }
    }
  }

  lemma {:induction false} MemberPart(m: Entry<string, Value>) returns (parts: seq<Scanner.Doc>)
    requires Ok(m.value)
    ensures Scanner.AllWellFormed(parts) && Scanner.RenderAll(parts) == Member(m)
    decreases m
  {
    var units := UnitsOf(m.key);
    var key := [Scanner.Quoted(units)];
    OnePart(key[0]);
    var colon := PlainParts(":");
    var value := PartsOf(m.value);
    Joined(key, colon);
    Joined(key + colon, value);
    parts := (key + colon) + value;
  }

  lemma OnePart(d: Scanner.Doc)
    ensures Scanner.RenderAll([d]) == Scanner.Render(d)
  {
    assert [d][1..] == [];
    assert Scanner.Render(d) + "" == Scanner.Render(d);
  }

  lemma {:induction false} Joined(a: seq<Scanner.Doc>, b: seq<Scanner.Doc>)
    requires Scanner.AllWellFormed(a) && Scanner.AllWellFormed(b)
    ensures Scanner.AllWellFormed(a + b) && Scanner.RenderAll(a + b) == Scanner.RenderAll(a) + Scanner.RenderAll(b)
  {
    if a == [] {
      assert a + b == b && "" + Scanner.RenderAll(b) == Scanner.RenderAll(b);
    } else {
      assert (a + b)[1..] == a[1..] + b;
      Joined(a[1..], b);
      Associative(Scanner.Render(a[0]), Scanner.RenderAll(a[1..]), Scanner.RenderAll(b));
    }
  }

  lemma {:induction false} PlainParts(t: string) returns (parts: seq<Scanner.Doc>)
    requires forall i :: 0 <= i < |t| ==> Scanner.WellFormed(Scanner.Plain(t[i]))
    ensures Scanner.AllWellFormed(parts) && Scanner.RenderAll(parts) == t
  {
    if t == [] {
      parts := [];
    } else {
      var more := PlainParts(t[1..]);
      parts := [Scanner.Plain(t[0])] + more;
      assert parts[1..] == more && t == [t[0]] + t[1..];
    }
  }

  lemma {:induction false} UnitsOf(s: string) returns (units: seq<Scanner.Unit>)
    ensures Scanner.WellFormed(Scanner.Quoted(units)) && Scanner.Literal(units) == Quoted(s)
  {
    if s == [] {
      units := [];
    } else {
      var more := UnitsOf(s[1..]);
      units := UnitsOfEscape(s[0], more);
    }
  }

  lemma UnitsOfEscape(c: char, more: seq<Scanner.Unit>) returns (units: seq<Scanner.Unit>)
    requires Scanner.WellFormed(Scanner.Quoted(more))
    ensures Scanner.WellFormed(Scanner.Quoted(units)) && Scanner.Literal(units) == Escape(c) + Scanner.Literal(more)
  {
    var e := Escape(c);
    if e[0] != '\\' {
      units := [Scanner.Char(c)] + more;
      UnitCons(Scanner.Char(c), more);
    } else if e[1] != 'u' {
      units := [Scanner.Escape(e[1])] + more;
      UnitCons(Scanner.Escape(e[1]), more);
    } else {
      units := HexUnits(e[4], e[5], more);
      assert e == ['\\', 'u', '0', '0', e[4], e[5]];
    }
  }

  lemma HexUnits(x: char, y: char, more: seq<Scanner.Unit>) returns (units: seq<Scanner.Unit>)
    requires Scanner.WellFormed(Scanner.Quoted(more)) && x != '"' && x != '\\' && y != '"' && y != '\\'
    ensures Scanner.WellFormed(Scanner.Quoted(units))
    ensures Scanner.Literal(units) == ['\\', 'u', '0', '0', x, y] + Scanner.Literal(more)
  {
    hide Scanner.WellFormed, Scanner.Literal;
    var u3 := [Scanner.Char(y)] + more;
    UnitCons(Scanner.Char(y), more);
    var u2 := [Scanner.Char(x)] + u3;
    UnitCons(Scanner.Char(x), u3);
    var u1 := [Scanner.Char('0')] + u2;
    UnitCons(Scanner.Char('0'), u2);
    var u0 := [Scanner.Char('0')] + u1;
    UnitCons(Scanner.Char('0'), u1);
    units := [Scanner.Escape('u')] + u0;
    UnitCons(Scanner.Escape('u'), u0);
  }

  lemma UnitCons(u: Scanner.Unit, more: seq<Scanner.Unit>)
    requires Scanner.WellFormed(Scanner.Quoted(more)) && (u.Char? ==> u.c != '"' && u.c != '\\')
    ensures Scanner.WellFormed(Scanner.Quoted([u] + more))
    ensures Scanner.Literal([u] + more) == Scanner.UnitText(u) + Scanner.Literal(more)
  {
    assert ([u] + more)[1..] == more;
  }

  /** Behind any prose that opens no bracket, and before anything at all, the scanner returns exactly the printed value. */
  lemma ScannerUndoesPrinter(p: string, v: Value, s: string)
    requires Ok(v) && (v.Arr? || v.Obj?) && forall i :: 0 <= i < |p| ==> !Scanner.Opens(p[i])
    ensures Scanner.Span(p + Print(v) + s) == Some(Print(v))
  {
    var parts := PartsOf(v);
    OnePart(parts[0]);
    assert parts == [parts[0]];
    Scanner.SpanOfRendering(p, parts[0], s);
  }
}
