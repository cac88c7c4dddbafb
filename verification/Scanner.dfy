/** Finding the JSON value in an agent's reply: the bracket scanner and the repair around it. */
module Scanner {
  import opened Optional

  // ---- what the scanner looks for: bracket trees whose strings are quoted ----

  /** A character of a string literal: itself, or anything behind a backslash (section 7 of RFC 8259). */
  datatype Unit = Char(c: char) | Escape(c: char)

  /** A text with its brackets and string literals told apart: the shape of every JSON text, however spaced. */
  datatype Doc =
    | Plain(c: char)
    | Quoted(units: seq<Unit>)
    | Group(open: char, parts: seq<Doc>, close: char)

  predicate Opens(c: char) { c == '{' || c == '[' }
  predicate Closes(c: char) { c == '}' || c == ']' }

  predicate WellFormed(d: Doc) {
    match d
    case Plain(c) => !Opens(c) && !Closes(c) && c != '"'
    case Quoted(units) => forall u :: u in units ==> u.Char? ==> u.c != '"' && u.c != '\\'
    case Group(open, parts, close) => Opens(open) && Closes(close) && forall p :: p in parts ==> WellFormed(p)
  }

  predicate AllWellFormed(parts: seq<Doc>) { forall p :: p in parts ==> WellFormed(p) }

  function Literal(units: seq<Unit>): string {
    if units == [] then "\""
    else UnitText(units[0]) + Literal(units[1..])
  }

  function Render(d: Doc): (t: string)
    ensures d.Group? ==> t != [] && t[0] == d.open && t[|t| - 1] == d.close
    decreases d
  {
    match d
    case Plain(c) => [c]
    case Quoted(units) => "\"" + Literal(units)
    case Group(open, parts, close) => [open] + (RenderAll(parts) + [close])
  }

  function RenderAll(parts: seq<Doc>): string
    decreases parts
  {
    if parts == [] then "" else Render(parts[0]) + RenderAll(parts[1..])
  }

  // ---- the scan ----

  /** Outside a string literal, inside one, or behind a backslash inside one. */
  datatype Quote = Outside | Inside | Escaped

  function Requoted(c: char, q: Quote): Quote {
    match q
    case Escaped => Inside
    case Inside => if c == '\\' then Escaped else if c == '"' then Outside else Inside
    case Outside => if c == '"' then Inside else Outside
  }

  function Deepened(c: char, q: Quote, depth: nat): nat {
    if q != Outside then depth
    else if Opens(c) then depth + 1
    else if Closes(c) && depth > 0 then depth - 1
    else depth
  }

  /** How many characters are read until a closing bracket brings the depth to zero. */
  function Scan(t: string, depth: nat, q: Quote): (n: Option<nat>)
    ensures n.Some? ==> 1 <= n.value <= |t|
  {
    if t == [] then None
    else if q == Outside && Closes(t[0]) && Deepened(t[0], q, depth) == 0 then Some(1)
    else
      var rest := Scan(t[1..], Deepened(t[0], q, depth), Requoted(t[0], q));
      if rest.None? then None else Some(rest.value + 1)
  }

  function FirstOpen(text: string): (start: nat)
    ensures start <= |text| && (forall i :: 0 <= i < start ==> !Opens(text[i]))
    ensures start < |text| ==> Opens(text[start])
  {
    if text == [] || Opens(text[0]) then 0 else 1 + FirstOpen(text[1..])
  }

  function Span(text: string): Option<string> {
    var tail := text[FirstOpen(text)..];
    var n := Scan(tail, 0, Outside);
    if n.None? then None else Some(tail[..n.value])
  }

  /** `balanced_span`: the loop over the characters from the first opening bracket. */
  method BalancedSpan(text: string) returns (r: Option<string>)
    ensures r == Span(text)
  {
    var start := 0;
    while start < |text| && !Opens(text[start])
      invariant start <= |text| && forall k :: 0 <= k < start ==> !Opens(text[k])
    {
      start := start + 1;
    }
    FirstOpenIs(text, start);
    if start == |text| { return None; }
    hide Scan, Resumes, FirstOpen;
    var depth: nat, inString, escaped := 0, false, false;
    var i := start;
    ghost var tail := text[start..];
    ResumesAtStart(Scan(tail, 0, Outside));
    while i < |text|
      invariant start <= i <= |text| && (escaped ==> inString)
      invariant Resumes(Scan(tail, 0, Outside), i - start, Scan(text[i..], depth, QuoteOf(inString, escaped)))
    {
      var b := text[i];
      ReadOne(Scan(tail, 0, Outside), i - start, text, i, depth, QuoteOf(inString, escaped));
      if inString {
        if escaped {
          escaped := false;
        } else if b == '\\' {
          escaped := true;
        } else if b == '"' {
          inString := false;
        }
      } else if b == '"' {
        inString := true;
      } else if Opens(b) {
        depth := depth + 1;
      } else if Closes(b) {
        depth := if depth == 0 then 0 else depth - 1;
        if depth == 0 {
          assert tail[..i + 1 - start] == text[start..i + 1];
          return Some(text[start..i + 1]);
        }
      }
      i := i + 1;
    }
    NothingLeft(Scan(tail, 0, Outside), i - start, text, depth, QuoteOf(inString, escaped));
    return None;
  }

  lemma ResumesAtStart(whole: Option<nat>)
    ensures Resumes(whole, 0, whole)
  {
  }

  lemma NothingLeft(whole: Option<nat>, read: nat, text: string, depth: nat, q: Quote)
    requires Resumes(whole, read, Scan(text[|text|..], depth, q))
    ensures whole.None?
  {
  }

  function QuoteOf(inString: bool, escaped: bool): Quote {
    if escaped then Escaped else if inString then Inside else Outside
  }

  /** The whole scan is what was read so far and the scan of what is left. */
  ghost predicate Resumes(whole: Option<nat>, read: nat, rest: Option<nat>) {
    whole == if rest.None? then None else Some(read + rest.value)
  }

  /** Reading one character either ends the scan or leaves the rest of it. */
  lemma ReadOne(whole: Option<nat>, read: nat, text: string, i: nat, depth: nat, q: Quote)
    requires i < |text| && Resumes(whole, read, Scan(text[i..], depth, q))
    ensures var b := text[i];
      if q == Outside && Closes(b) && Deepened(b, q, depth) == 0 then whole == Some(read + 1)
      else Resumes(whole, read + 1, Scan(text[i + 1..], Deepened(b, q, depth), Requoted(b, q)))
  {
    assert text[i..][1..] == text[i + 1..];
  }

  lemma {:induction false} FirstOpenIs(text: string, start: nat)
    requires start <= |text| && (forall k :: 0 <= k < start ==> !Opens(text[k])) && (start < |text| ==> Opens(text[start]))
    ensures FirstOpen(text) == start
  {
    if start > 0 { FirstOpenIs(text[1..], start - 1); }
  }

  // ---- scanning a rendering ----

  /** A string literal is passed over, whatever it holds. */
  lemma {:induction false} ScanLiteral(units: seq<Unit>, s: string, depth: nat)
    requires WellFormed(Quoted(units))
    ensures Resumes(Scan(Literal(units) + s, depth, Inside), |Literal(units)|, Scan(s, depth, Outside))
    decreases |units|
  {
    var t := Literal(units) + s;
    if units == [] {
      assert t[1..] == s;
    } else {
      var rest := Literal(units[1..]) + s;
      ScanLiteral(units[1..], s, depth);
      if units[0].Char? {
        assert t == [units[0].c] + rest && t[1..] == rest;
      } else {
        assert t == ['\\', units[0].c] + rest && t[1..] == [units[0].c] + rest && t[1..][1..] == rest;
      }
    }
  }

  /** Below the top level a rendered part leaves the scan where it was. */
  lemma {:induction false} ScanRendered(d: Doc, s: string, depth: nat)
    requires WellFormed(d) && depth >= 1
    ensures Resumes(Scan(Render(d) + s, depth, Outside), |Render(d)|, Scan(s, depth, Outside))
    decreases d
  {
    var t := Render(d) + s;
    match d
    case Plain(c) =>
      assert t[1..] == s;
    case Quoted(units) =>
      assert t[1..] == Literal(units) + s;
      ScanLiteral(units, s, depth);
    case Group(open, parts, close) =>
      assert t[1..] == RenderAll(parts) + ([close] + s);
      ScanAll(parts, [close] + s, depth + 1);
      assert ([close] + s)[1..] == s;
  }

  lemma {:induction false} ScanAll(parts: seq<Doc>, s: string, depth: nat)
    requires AllWellFormed(parts) && depth >= 1
    ensures Resumes(Scan(RenderAll(parts) + s, depth, Outside), |RenderAll(parts)|, Scan(s, depth, Outside))
    decreases parts
  {
    if parts == [] {
      assert RenderAll(parts) + s == s;
    } else {
      assert RenderAll(parts) + s == Render(parts[0]) + (RenderAll(parts[1..]) + s);
      ScanRendered(parts[0], RenderAll(parts[1..]) + s, depth);
      ScanAll(parts[1..], s, depth);
    }
  }

  lemma ScanGroup(d: Doc, s: string)
    requires d.Group? && WellFormed(d)
    ensures Scan(Render(d) + s, 0, Outside) == Some(|Render(d)|)
  {
    var t := Render(d) + s;
    var tail := [d.close] + s;
    assert t[1..] == RenderAll(d.parts) + tail;
    ScanAll(d.parts, tail, 1);
    assert Scan(tail, 1, Outside) == Some(1);
  }

  /** The scanner undoes the printer: behind any prose without an opening bracket, and before anything at all. */
  lemma SpanOfRendering(p: string, d: Doc, s: string)
    requires (forall i :: 0 <= i < |p| ==> !Opens(p[i])) && d.Group? && WellFormed(d)
    ensures Span(p + Render(d) + s) == Some(Render(d))
  {
    var text := p + Render(d) + s;
    assert text[|p|] == d.open;
    FirstOpenIs(text, |p|);
    assert text[|p|..] == Render(d) + s;
    ScanGroup(d, s);
    assert (Render(d) + s)[..|Render(d)|] == Render(d);
  }

  // ---- what a span is ----

  /** Reading down to depth zero passes through every depth in between. */
  lemma {:induction false} ScanSplits(t: string, k: nat, depth: nat, q: Quote, n: nat) returns (m: nat)
    requires k >= 1 && depth >= 1 && Scan(t, k + depth, q) == Some(n)
    ensures m < n && Scan(t, k, q) == Some(m) && Scan(t[m..], depth, Outside) == Some(n - m)
    decreases |t|
  {
    DeepenedApart(t[0], q, k, depth);
    ScanNext(t, k + depth, q);
    ScanNext(t, k, q);
    if q == Outside && Closes(t[0]) && k == 1 {
      m := 1;
    } else {
      hide Scan, Deepened, Requoted;
      m := ScanSplits(t[1..], Deepened(t[0], q, k), depth, Requoted(t[0], q), n - 1);
      assert t[1..][m..] == t[m + 1..];
      m := m + 1;
    }
  }

  lemma ScanNext(t: string, depth: nat, q: Quote)
    requires t != []
    ensures if q == Outside && Closes(t[0]) && Deepened(t[0], q, depth) == 0 then Scan(t, depth, q) == Some(1)
            else var rest := Scan(t[1..], Deepened(t[0], q, depth), Requoted(t[0], q));
              Scan(t, depth, q) == if rest.None? then None else Some(rest.value + 1)
  {
    hide Deepened, Requoted;
  }

  lemma DeepenedApart(c: char, q: Quote, k: nat, depth: nat)
    requires k >= 1
    ensures Deepened(c, q, k + depth) == Deepened(c, q, k) + depth
    ensures Deepened(c, q, k) == 0 ==> q == Outside && Closes(c) && k == 1
    ensures q == Outside && Closes(c) && k == 1 ==> Deepened(c, q, k) == 0 && Requoted(c, q) == Outside
  {
  }

  /** A scan that gets out of a string literal has read one. */
  lemma {:induction false} LiteralRead(t: string, depth: nat, n: nat) returns (units: seq<Unit>)
    requires Scan(t, depth, Inside) == Some(n)
    ensures WellFormed(Quoted(units)) && |Literal(units)| < n && t[..|Literal(units)|] == Literal(units)
    ensures Scan(t[|Literal(units)|..], depth, Outside) == Some(n - |Literal(units)|)
    decreases |t|
  {
    if t[0] == '"' {
      units := [];
    } else if t[0] == '\\' {
      assert Scan(t[1..], depth, Escaped) == Some(n - 1);
      assert t[1..][1..] == t[2..];
      var more := LiteralRead(t[2..], depth, n - 2);
      hide Literal, WellFormed;
      units := [Escape(t[1])] + more;
      LiteralGrows(t, Escape(t[1]), more);
    } else {
      var more := LiteralRead(t[1..], depth, n - 1);
      hide Literal, WellFormed;
      units := [Char(t[0])] + more;
      LiteralGrows(t, Char(t[0]), more);
    }
  }

  function UnitText(u: Unit): string { if u.Char? then [u.c] else ['\\', u.c] }

  lemma LiteralGrows(t: string, u: Unit, more: seq<Unit>)
    requires WellFormed(Quoted(more)) && (u.Char? ==> u.c != '"' && u.c != '\\')
    requires UnitText(u) <= t && Literal(more) <= t[|UnitText(u)|..]
    ensures var units := [u] + more;
      WellFormed(Quoted(units)) && Literal(units) == UnitText(u) + Literal(more) && Literal(units) <= t &&
      t[|Literal(units)|..] == t[|UnitText(u)|..][|Literal(more)|..]
  {
    assert ([u] + more)[1..] == more;
    TakeAppend(t, UnitText(u), Literal(more));
  }

  lemma TakeAppend(t: string, a: string, b: string)
    requires |a| + |b| <= |t| && t[..|a|] == a && t[|a|..][..|b|] == b
    ensures t[..|a + b|] == a + b && t[|a + b|..] == t[|a|..][|b|..]
  {
    assert t[..|a + b|] == t[..|a|] + t[|a|..][..|b|];
  }

  /** What the scanner reads before it leaves the group it is in. */
  lemma {:induction false} PartsRead(t: string, n: nat) returns (parts: seq<Doc>, close: char)
    requires Scan(t, 1, Outside) == Some(n)
    ensures AllWellFormed(parts) && Closes(close) && t[..n] == RenderAll(parts) + [close]
    decreases n, 1
  {
    if Closes(t[0]) {
      parts, close := [], t[0];
    } else {
      var head := HeadRead(t, n);
      var size := |Render(head)|;
      var more, last := PartsRead(t[size..], n - size);
      parts, close := [head] + more, last;
      RenderCons(t, n, head, more, last);
    }
  }

  lemma {:induction false} HeadRead(t: string, n: nat) returns (head: Doc)
    requires Scan(t, 1, Outside) == Some(n) && !Closes(t[0])
    ensures WellFormed(head) && 0 < |Render(head)| < n && t[..|Render(head)|] == Render(head)
    ensures Scan(t[|Render(head)|..], 1, Outside) == Some(n - |Render(head)|)
    decreases n, 0
  {
    var rest := t[1..];
    if Opens(t[0]) {
      var m := ScanSplits(rest, 1, 1, Outside, n - 1);
      var inner, end := PartsRead(rest, m);
      head := Group(t[0], inner, end);
      hide Scan, Render, RenderAll, WellFormed;
      GroupHead(t, n, m, inner, end);
    } else if t[0] == '"' {
      var units := LiteralRead(rest, 1, n - 1);
      head := Quoted(units);
      hide Literal, Scan;
      HeadTaken(t, |Literal(units)|);
    } else {
      head := Plain(t[0]);
      HeadTaken(t, 0);
    }
  }

  lemma GroupHead(t: string, n: nat, m: nat, inner: seq<Doc>, end: char)
    requires 0 < m < n - 1 && m < |t| && Opens(t[0]) && AllWellFormed(inner) && Closes(end)
    requires t[1..][..m] == RenderAll(inner) + [end] && Scan(t[1..][m..], 1, Outside) == Some(n - 1 - m)
    ensures var head := Group(t[0], inner, end);
      && WellFormed(head) && 0 < |Render(head)| < n && t[..|Render(head)|] == Render(head)
      && Scan(t[|Render(head)|..], 1, Outside) == Some(n - |Render(head)|)
  {
    hide RenderAll, Scan;
    HeadTaken(t, m);
  }

  lemma HeadTaken(t: string, m: nat)
    requires m + 1 <= |t|
    ensures t[..m + 1] == [t[0]] + t[1..][..m] && t[1..][m..] == t[m + 1..]
  {
  }

  lemma RenderCons(t: string, n: nat, head: Doc, more: seq<Doc>, last: char)
    requires |Render(head)| <= n <= |t| && t[..|Render(head)|] == Render(head)
    requires t[|Render(head)|..][..n - |Render(head)|] == RenderAll(more) + [last]
    ensures t[..n] == RenderAll([head] + more) + [last]
  {
    var size := |Render(head)|;
    assert t[..n] == t[..size] + t[size..][..n - size];
    assert ([head] + more)[1..] == more;
    assert RenderAll([head] + more) == Render(head) + RenderAll(more);
  }

  /**
   * The scanner returns exactly the bracket tree that starts at the first opening bracket, and nothing when none does;
   * so no shorter text from that bracket is balanced.
   */
  lemma SpanExact(text: string, span: string)
    ensures Span(text) == Some(span) <==>
      exists d: Doc :: d.Group? && WellFormed(d) && Render(d) == span && span <= text[FirstOpen(text)..]
  {
    if Span(text) == Some(span) { var d := SpanRead(text, span); }
    if d: Doc :| d.Group? && WellFormed(d) && Render(d) == span && span <= text[FirstOpen(text)..] {
      var tail := text[FirstOpen(text)..];
      assert tail == Render(d) + tail[|span|..];
      ScanGroup(d, tail[|span|..]);
    }
  }

  lemma SpanRead(text: string, span: string) returns (d: Doc)
    requires Span(text) == Some(span)
    ensures d.Group? && WellFormed(d) && Render(d) == span && span <= text[FirstOpen(text)..]
  {
    var tail := text[FirstOpen(text)..];
    var n := |span|;
    assert Scan(tail[1..], 1, Outside) == Some(n - 1);
    var parts, close := PartsRead(tail[1..], n - 1);
    d := Group(tail[0], parts, close);
    HeadTaken(tail, n - 1);
  }

  lemma SpanIsBracketed(text: string)
    requires Span(text).Some?
    ensures Bracketed(Span(text).value) && Trimmed(Span(text).value)
  {
    SpanExact(text, Span(text).value);
  }

  // ---- the repair ----

  /** Unicode White_Space. */
  predicate Space(c: char) {
    var u := c as int;
    9 <= u <= 13 || u == 32 || u == 0x85 || u == 0xA0 || u == 0x1680 || 0x2000 <= u <= 0x200A ||
    u == 0x2028 || u == 0x2029 || u == 0x202F || u == 0x205F || u == 0x3000
  }

  function TrimStart(t: string): string {
    if t != [] && Space(t[0]) then TrimStart(t[1..]) else t
  }

  function TrimEnd(t: string): string {
    if t != [] && Space(t[|t| - 1]) then TrimEnd(t[..|t| - 1]) else t
  }

  function Trim(t: string): string { TrimEnd(TrimStart(t)) }

  /** On ASCII it is tab, the four line and page breaks, and blank; every printable character is kept. */
  lemma SpaceOnAscii(c: char)
    requires c as int < 128
    ensures Space(c) <==> c == ' ' || c == '\t' || c == '\n' || c == '\r' || c as int == 11 || c as int == 12
  {
  }

  const FENCE: string := "```"

  /** `strip_prefix(p).unwrap_or(t)` */
  function Without(t: string, p: string): string { if p <= t then t[|p|..] else t }

  predicate FenceAt(t: string, i: nat) { i + 3 <= |t| && t[i..i + 3] == FENCE }

  /** `rfind`: where the last fence starts. */
  function LastFence(t: string): (at: Option<nat>)
    ensures at.Some? ==> at.value + 3 <= |t|
  {
    if |t| < 3 then None
    else if t[|t| - 3..] == FENCE then Some(|t| - 3)
    else LastFence(t[..|t| - 1])
  }

  lemma {:induction false} LastFenceIsLast(t: string, i: nat)
    ensures LastFence(t).Some? ==> FenceAt(t, LastFence(t).value)
    ensures FenceAt(t, i) ==> LastFence(t).Some? && i <= LastFence(t).value
  {
    if |t| >= 3 && t[|t| - 3..] != FENCE {
      var shorter := t[..|t| - 1];
      LastFenceIsLast(shorter, i);
      assert i + 3 <= |shorter| ==> t[i..i + 3] == shorter[i..i + 3];
      if LastFence(shorter).Some? {
        var k := LastFence(shorter).value;
        assert t[k..k + 3] == shorter[k..k + 3];
      }
    }
  }

  /** What is inside an opening fence, `json` tag dropped. */
  function Body(t: string): string
    requires FENCE <= t
  {
    Without(t[3..], "json")
  }

  predicate Fenced(t: string) { FENCE <= t && LastFence(Body(t)).Some? }

  function Unfenced(t: string): string {
    if Fenced(t) then Trim(Body(t)[..LastFence(Body(t)).value]) else t
  }

  predicate Bracketed(t: string) { t != [] && Opens(t[0]) }

  /** `repair_text`: trim, strip one fence, and unless a bracket comes first take the first balanced span. */
  function Repair(raw: string): string {
    var text := Unfenced(Trim(raw));
    if Bracketed(text) then text
    else if Span(text).Some? then Span(text).value else text
  }

  method RepairText(raw: string) returns (r: string)
    ensures r == Repair(raw)
  {
    hide Trim, LastFence, Span;
    var text := Trim(raw);
    if FENCE <= text {
      var rest := Without(text[3..], "json");
      var end := LastFence(rest);
      if end.Some? { text := Trim(rest[..end.value]); }
    }
    if Bracketed(text) { return text; }
    var span := BalancedSpan(text);
    return if span.Some? then span.value else text;
  }

  /** Trimming removes white space in front and behind and nothing else. */
  lemma TrimExact(t: string) returns (a: string, b: string)
    ensures t == a + Trim(t) + b && AllSpace(a) && AllSpace(b) && Trimmed(Trim(t))
  {
    TrimIsTrimmed(t);
    a := StartBlank(t);
    b := EndBlank(TrimStart(t));
    assert t == a + (Trim(t) + b);
  }

  lemma {:induction false} StartBlank(t: string) returns (a: string)
    ensures t == a + TrimStart(t) && AllSpace(a)
  {
    a := [];
    if t != [] && Space(t[0]) {
      a := StartBlank(t[1..]);
      a := [t[0]] + a;
    }
  }

  lemma {:induction false} EndBlank(t: string) returns (b: string)
    ensures t == TrimEnd(t) + b && AllSpace(b)
  {
    b := [];
    if t != [] && Space(t[|t| - 1]) {
      b := EndBlank(t[..|t| - 1]);
      b := b + [t[|t| - 1]];
    }
  }

  /** A reply that begins and ends in a visible ASCII character, such as digits or a quoted word, is left whole. */
  lemma PrintableKept(t: string)
    requires t == [] || ('!' <= t[0] <= '~' && '!' <= t[|t| - 1] <= '~')
    ensures Trim(t) == t
  {
    if t != [] {
      SpaceOnAscii(t[0]);
      SpaceOnAscii(t[|t| - 1]);
    }
    TrimIsTrimmed(t);
  }

  predicate Trimmed(t: string) { t == [] || (!Space(t[0]) && !Space(t[|t| - 1])) }

  lemma {:induction false} TrimStartIs(t: string)
    ensures TrimStart(t) == [] || !Space(TrimStart(t)[0])
    ensures |TrimStart(t)| <= |t|
  {
    if t != [] && Space(t[0]) { TrimStartIs(t[1..]); }
  }

  lemma {:induction false} TrimEndIs(t: string)
    ensures TrimEnd(t) == [] || !Space(TrimEnd(t)[|TrimEnd(t)| - 1])
    ensures TrimEnd(t) <= t
  {
    if t != [] && Space(t[|t| - 1]) { TrimEndIs(t[..|t| - 1]); }
  }

  lemma TrimIsTrimmed(t: string)
    ensures Trimmed(Trim(t)) && |Trim(t)| <= |t|
    ensures Trimmed(t) ==> Trim(t) == t
  {
    TrimStartIs(t);
    TrimEndIs(TrimStart(t));
  }

  predicate AllSpace(t: string) { forall i :: 0 <= i < |t| ==> Space(t[i]) }

  lemma {:induction false} TrimStartDrops(a: string, t: string)
    requires AllSpace(a) && t != [] && !Space(t[0])
    ensures TrimStart(a + t) == t
    decreases |a|
  {
    if a == [] {
      assert a + t == t;
    } else {
      assert (a + t)[1..] == a[1..] + t;
      TrimStartDrops(a[1..], t);
    }
  }

  lemma {:induction false} TrimEndDrops(t: string, b: string)
    requires AllSpace(b) && t != [] && !Space(t[|t| - 1])
    ensures TrimEnd(t + b) == t
    decreases |b|
  {
    if b == [] {
      assert t + b == t;
    } else {
      assert (t + b)[..|t + b| - 1] == t + b[..|b| - 1];
      TrimEndDrops(t, b[..|b| - 1]);
    }
  }

  lemma TrimAround(a: string, t: string, b: string)
    requires t != [] && Trimmed(t) && AllSpace(a) && AllSpace(b)
    ensures Trim(a + t + b) == t
  {
    assert a + t + b == a + (t + b) && (t + b)[0] == t[0];
    TrimStartDrops(a, t + b);
    TrimEndDrops(t, b);
  }

  /** A repaired text needs no trimming. */
  lemma RepairIsTrimmed(raw: string)
    ensures Trimmed(Repair(raw)) && Trim(Repair(raw)) == Repair(raw)
  {
    hide Trim, LastFence, Space, FirstOpen, Scan;
    var t := Trim(raw);
    TrimIsTrimmed(raw);
    if Fenced(t) { TrimIsTrimmed(Body(t)[..LastFence(Body(t)).value]); }
    var text := Unfenced(t);
    if !Bracketed(text) && Span(text).Some? { SpanIsBracketed(text); }
    TrimIsTrimmed(Repair(raw));
  }

  lemma RepairShrinks(raw: string)
    ensures |Repair(raw)| <= |raw|
    ensures Fenced(Trim(raw)) ==> |Repair(raw)| < |raw|
  {
    var t := Trim(raw);
    TrimIsTrimmed(raw);
    UnfencedShrinks(t);
    var text := Unfenced(t);
    assert |Repair(raw)| <= |text|;
  }

  lemma UnfencedShrinks(t: string)
    ensures |Unfenced(t)| <= |t| && (Fenced(t) ==> |Unfenced(t)| < |t|)
  {
    hide Trim;
    if Fenced(t) {
      var inner := Body(t)[..LastFence(Body(t)).value];
      TrimIsTrimmed(inner);
      assert |inner| + 3 <= |Body(t)| <= |t| - 3;
    }
  }

  /** A second repair changes something exactly when the first one leaves a fence pair at the front. */
  lemma RepairTwiceUnfenced(raw: string)
    ensures Repair(Repair(raw)) == Repair(raw) <==> !Fenced(Repair(raw))
  {
    var out := Repair(raw);
    RepairIsTrimmed(raw);
    if Fenced(out) {
      RepairShrinks(out);
    } else if !Bracketed(out) {
      var text := Unfenced(Trim(raw));
      if Span(text).Some? { SpanIsBracketed(text); }
      assert out == text && Span(out).None?;
    }
  }

  /** The repair of a reply is not a fixed point exactly when the reply, trimmed and stripped of its fence,
      is a fence again and holds no balanced span. */
  lemma RepairTwice(raw: string)
    ensures Repair(Repair(raw)) != Repair(raw) <==> Fenced(Unfenced(Trim(raw))) && Span(Unfenced(Trim(raw))).None?
  {
    hide Trim, Span, LastFence;
    RepairTwiceUnfenced(raw);
    var text := Unfenced(Trim(raw));
    if Span(text).Some? { SpanIsBracketed(text); }
  }

  /** In particular the repair is idempotent on what starts with a bracket. */
  lemma RepairIdempotent(raw: string)
    requires Bracketed(Repair(raw))
    ensures Repair(Repair(raw)) == Repair(raw)
  {
    RepairTwiceUnfenced(raw);
  }

  /** Prose inside two fences loses them one at a time. */
  lemma NestedFencesRepairTwice()
    ensures Repair("``````a``````") == "```a```" && Repair("```a```") == "a"
  {
    hide Repair;
    FencedOnce("a", 1);
    assert FENCE + ("a" + FENCE) == "```a```";
    FencedOnce("```a```", 7);
    assert FENCE + ("```a```" + FENCE) == "``````a``````";
  }

  lemma FencedOnce(t: string, n: nat)
    requires n == |t| >= 1 && Trimmed(t) && t[0] != 'j' && forall i :: 0 <= i < n ==> !Opens(t[i])
    ensures Repair(FENCE + (t + FENCE)) == t
  {
    var text := FENCE + (t + FENCE);
    assert text[0] == '`' && text[|text| - 1] == '`';
    TrimIsTrimmed(text);
    TrimIsTrimmed(t);
    hide Trim;
    assert (t + FENCE)[0] == t[0] && text[3..] == t + FENCE;
    assert Body(text) == t + FENCE;
    LastFenceAtEnd(t);
    FirstOpenIs(t, n);
    assert t[n..] == [];
  }

  /** A fenced value, with or without the tag, is recovered whatever blank space is around it and around the fence. */
  lemma FencedValue(a: string, tag: string, b: string, d: Doc, c: string, e: string)
    requires AllSpace(a) && AllSpace(b) && AllSpace(c) && AllSpace(e) && (tag == "" || tag == "json")
    requires d.Group? && WellFormed(d)
    ensures Repair(a + (FENCE + (tag + (b + Render(d) + c) + FENCE)) + e) == Render(d)
  {
    hide Trim, Render, FirstOpen, Scan, Without;
    var value := b + Render(d) + c;
    var rest := tag + value + FENCE;
    var text := FENCE + rest;
    assert text[0] == '`' && text[|text| - 1] == '`';
    TrimAround(a, text, e);
    assert text[3..] == rest;
    TagDropped(tag, b, d, c);
    assert Body(text) == value + FENCE;
    LastFenceAtEnd(value);
    TrimAround(b, Render(d), c);
    assert Unfenced(text) == Render(d);
  }

  lemma LastFenceAtEnd(value: string)
    ensures LastFence(value + FENCE) == Some(|value|) && (value + FENCE)[..|value|] == value
  {
    var body := value + FENCE;
    assert body[|body| - 3..] == FENCE;
  }

  lemma TagDropped(tag: string, b: string, d: Doc, c: string)
    requires AllSpace(b) && d.Group? && WellFormed(d) && (tag == "" || tag == "json")
    ensures Without(tag + (b + Render(d) + c) + FENCE, "json") == b + Render(d) + c + FENCE
  {
    var value := b + Render(d) + c;
    var rest := tag + value + FENCE;
    if tag == "json" {
      assert rest[..4] == "json" && rest[4..] == value + FENCE;
    } else {
      assert rest == value + FENCE;
      assert rest[0] == value[0] == if b == [] then d.open else b[0];
      assert rest[0] != 'j';
    }
  }

  /** A value behind prose that opens no bracket and no fence is recovered, whatever blank space is before the prose and
      whatever follows the value. */
  lemma ValueInProse(p: string, d: Doc, s: string)
    requires d.Group? && WellFormed(d) && (forall i :: 0 <= i < |p| ==> !Opens(p[i]))
    requires !AllSpace(p) && !(FENCE <= TrimStart(p))
    ensures Repair(p + Render(d) + s) == Render(d)
  {
    hide Trim, TrimStart, TrimEnd, Render, Repair, WellFormed, AllSpace, Unfenced, Span, Scan, FirstOpen;
    var a, q := SplitBlank(p);
    assert forall i :: 0 <= i < |q| ==> !Opens(q[i]) by { assert forall i :: 0 <= i < |q| ==> q[i] == p[|a| + i]; }
    TrimStartDrops(a, q);
    FenceInProse(q, d, s);
    ValueInTrimmedProse(q, d, s);
    var text := q + Render(d) + s;
    assert text[0] == q[0] && p + Render(d) + s == a + text;
    TrimStartDrops(a, text);
    RepairTrimsStart(a, text);
  }

  lemma {:induction false} SplitBlank(p: string) returns (a: string, q: string)
    requires !AllSpace(p)
    ensures p == a + q && AllSpace(a) && q != [] && !Space(q[0])
  {
    if Space(p[0]) {
      a, q := SplitBlank(p[1..]);
      a := [p[0]] + a;
    } else {
      a, q := [], p;
    }
  }

  lemma RepairTrimsStart(a: string, t: string)
    requires TrimStart(a + t) == t == TrimStart(t)
    ensures Repair(a + t) == Repair(t)
  {
    hide TrimStart, TrimEnd, Unfenced, Span;
  }

  /** A fence at the front would lie within the prose. */
  lemma FenceInProse(q: string, d: Doc, s: string)
    requires d.Group? && WellFormed(d) && !(FENCE <= q)
    ensures !(FENCE <= q + Render(d) + s)
  {
    var text := q + Render(d) + s;
    assert text[..|q|] == q && text[|q|] == Render(d)[0] == d.open;
    if |q| < 3 { assert text[|q|] != FENCE[|q|]; } else { assert text[..3] == q[..3]; }
  }

  lemma ValueInTrimmedProse(p: string, d: Doc, s: string)
    requires d.Group? && WellFormed(d) && (forall i :: 0 <= i < |p| ==> !Opens(p[i]))
    requires p != [] && !Space(p[0]) && !(FENCE <= p + Render(d) + s)
    ensures Repair(p + Render(d) + s) == Render(d) && TrimStart(p + Render(d) + s) == p + Render(d) + s
  {
    var head := p + Render(d);
    var raw := head + s;
    assert raw[0] == p[0] && TrimStart(raw) == raw;
    TrimEndKeeps(head, s);
    TrimEndIs(raw);
    var text := Trim(raw);
    var tail := text[|head|..];
    assert text == head + tail && text[0] == p[0];
    assert !(FENCE <= text);
    SpanOfRendering(p, d, tail);
  }

  lemma {:induction false} TrimEndKeeps(t: string, s: string)
    requires t != [] && !Space(t[|t| - 1])
    ensures t <= TrimEnd(t + s)
    decreases |s|
  {
    if s == [] {
      assert t + s == t;
    } else {
      assert (t + s)[..|t + s| - 1] == t + s[..|s| - 1];
      TrimEndKeeps(t, s[..|s| - 1]);
    }
  }
}
