/** What the freeze hash is taken of: the file's bytes and, length-framed, everything it points to. */
module FreezeHash {
  import opened Bytes
  import opened Canonical
  import opened Json
  import opened Optional
  import opened Order
  import opened Sequences
  import opened Utf8

  type Blob = seq<byte>
  type Path = seq<seq<byte>>
  type Files = seq<Entry<Path, Blob>>

  /** A skill directory: its base name and its regular files, in the order the directory lists them. */
  datatype Skill = Skill(name: Blob, files: Files)
  datatype AgentSkills = AgentSkills(agent: Blob, skills: seq<Skill>)

  /** All a workflow load reads: the TOML, each schema file by flow, each agent's resolved servers, each agent's skills. */
  datatype Frozen = Frozen(toml: Blob, schemas: seq<Entry<Blob, Blob>>, servers: seq<Entry<Blob, MemberList>>,
                           skills: seq<AgentSkills>)

  /** How many of each the TOML asks for. */
  datatype Layout = Layout(schemas: nat, servers: nat, skills: seq<nat>)

  predicate Fits(x: Frozen, l: Layout) {
    && |x.schemas| == l.schemas && |x.servers| == l.servers && |x.skills| == |l.skills|
    && forall i :: 0 <= i < |x.skills| ==> |x.skills[i].skills| == l.skills[i]
  }

  // ---- frames ----

  /** The low k bytes of a number, most significant first. */
  function BigEndian(n: nat, k: nat): (b: Blob)
    ensures |b| == k
  {
    if k == 0 then [] else BigEndian(n / 256, k - 1) + [(n % 256) as byte]
  }

  function Power256(k: nat): nat { if k == 0 then 1 else 256 * Power256(k - 1) }

  /** `push_framed`: the blob behind its own length. */
  function Frame(blob: Blob): Blob { BigEndian(|blob|, 8) + blob }

  function Frames(blobs: seq<Blob>): Blob {
    if blobs == [] then [] else Frame(blobs[0]) + Frames(blobs[1..])
  }

  // ---- what is framed ----

  /** Compact JSON of the servers, by name and canonical below. */
  function CanonicalBytes(servers: MemberList): Blob {
    ToBytes(Print(Obj(seq(|servers|, i requires 0 <= i < |servers| =>
      Entry(servers[i].key, Canonicalize(servers[i].value))))))
  }

  function PathBytes(path: Path): Blob {
    if path == [] then [] else path[0] + (if |path| == 1 then [] else [47] + PathBytes(path[1..]))
  }

  function SchemaBlobs(schemas: seq<Entry<Blob, Blob>>): seq<Blob> {
    if schemas == [] then [] else [schemas[0].key, schemas[0].value] + SchemaBlobs(schemas[1..])
  }

  function ServerBlobs(servers: seq<Entry<Blob, MemberList>>): seq<Blob> {
    if servers == [] then [] else [servers[0].key, CanonicalBytes(servers[0].value)] + ServerBlobs(servers[1..])
  }

  function FileBlobs(files: Files): seq<Blob> {
    if files == [] then [] else [PathBytes(files[0].key), files[0].value] + FileBlobs(files[1..])
  }

  /** `hash_skill_dir`: the name, the file count, the files in path order. */
  function SkillBlobs(s: Skill): seq<Blob> {
    var files := Sort(PathLess, s.files);
    [s.name, BigEndian(|files|, 8)] + FileBlobs(files)
  }

  function SkillsBlobs(skills: seq<Skill>): seq<Blob> {
    if skills == [] then [] else SkillBlobs(skills[0]) + SkillsBlobs(skills[1..])
  }

  function AgentBlobs(agents: seq<AgentSkills>): seq<Blob> {
    if agents == [] then [] else [agents[0].agent] + (SkillsBlobs(agents[0].skills) + AgentBlobs(agents[1..]))
  }

  function Blobs(x: Frozen): seq<Blob> { SchemaBlobs(x.schemas) + (ServerBlobs(x.servers) + AgentBlobs(x.skills)) }

  function HashInput(x: Frozen): Blob { x.toml + Frames(Blobs(x)) }

  // ---- the same inputs ----

  predicate Component(c: Blob) { c != [] && forall i :: 0 <= i < |c| ==> c[i] != 47 }

  predicate FilesOk(files: Files) {
    Distinct(files) && forall i :: 0 <= i < |files| ==>
      files[i].key != [] && forall j :: 0 <= j < |files[i].key| ==> Component(files[i].key[j])
  }

  /**
   * What the sources guarantee: TOML text has no NUL (the Comment and String sections of TOML v1.0.0), no blob reaches
   * 2^56 bytes, servers come out of a BTreeMap and are JSON, and a directory lists a path once.
   */
  predicate InputOk(x: Frozen) {
    && (forall i :: 0 <= i < |x.toml| ==> x.toml[i] != 0)
    && (forall i :: 0 <= i < |Blobs(x)| ==> |Blobs(x)[i]| < Power256(7))
    && (forall i :: 0 <= i < |x.servers| ==> Sorted(StringLess, x.servers[i].value) && Ok(Obj(x.servers[i].value)))
    && (forall i, j :: 0 <= i < |x.skills| && 0 <= j < |x.skills[i].skills| ==>
          FilesOk(x.skills[i].skills[j].files) && |x.skills[i].skills[j].files| < Power256(8))
  }

  ghost predicate SameServers(a: seq<Entry<Blob, MemberList>>, b: seq<Entry<Blob, MemberList>>) {
    |a| == |b| && forall i :: 0 <= i < |a| ==> a[i].key == b[i].key && Variant(Obj(a[i].value), Obj(b[i].value))
  }

  ghost predicate SameSkill(s: Skill, t: Skill) { s.name == t.name && SameEntries(s.files, t.files) }

  ghost predicate SameSkills(a: seq<Skill>, b: seq<Skill>) {
    |a| == |b| && forall i :: 0 <= i < |a| ==> SameSkill(a[i], b[i])
  }

  ghost predicate SameAgents(a: seq<AgentSkills>, b: seq<AgentSkills>) {
    |a| == |b| && forall i :: 0 <= i < |a| ==> a[i].agent == b[i].agent && SameSkills(a[i].skills, b[i].skills)
  }

  /** The same TOML and schema files, the same servers up to key order, the same files in each skill. */
  ghost predicate Same(x: Frozen, y: Frozen) {
    x.toml == y.toml && x.schemas == y.schemas && SameServers(x.servers, y.servers) && SameAgents(x.skills, y.skills)
  }

  // ---- frames are unambiguous ----

  lemma {:induction false} BigEndianUnique(n: nat, m: nat, k: nat)
    requires n < Power256(k) && m < Power256(k) && BigEndian(n, k) == BigEndian(m, k)
    ensures n == m
  {
    if k > 0 {
      Split(BigEndian(n / 256, k - 1), BigEndian(m / 256, k - 1), [(n % 256) as byte], [(m % 256) as byte]);
      BigEndianUnique(n / 256, m / 256, k - 1);
      assert [(n % 256) as byte][0] == [(m % 256) as byte][0];
      assert n == n / 256 * 256 + n % 256 && m == m / 256 * 256 + m % 256;
    }
  }

  /** A length below 2^56 is written with a zero first. */
  lemma {:induction false} BigEndianLead(n: nat, k: nat)
    requires k >= 1 && n < Power256(k - 1)
    ensures BigEndian(n, k)[0] == 0
  {
    if k > 1 { BigEndianLead(n / 256, k - 1); }
  }

  predicate Small(blobs: seq<Blob>) { forall i :: 0 <= i < |blobs| ==> |blobs[i]| < Power256(7) }

  lemma {:induction false} FramesUnique(a: seq<Blob>, b: seq<Blob>)
    requires Small(a) && Small(b) && Frames(a) == Frames(b)
    ensures a == b
    decreases |a|
  {
    assert Power256(8) == 256 * Power256(7);
    assert a != [] ==> |Frames(a)| >= 8;
    assert b != [] ==> |Frames(b)| >= 8;
    if a != [] {
      FrameUnique(a[0], b[0], Frames(a[1..]), Frames(b[1..]));
      FramesUnique(a[1..], b[1..]);
      assert a == [a[0]] + a[1..] && b == [b[0]] + b[1..];
    }
  }

  lemma FrameUnique(x: Blob, y: Blob, r: Blob, s: Blob)
    requires |x| < Power256(8) && |y| < Power256(8) && Frame(x) + r == Frame(y) + s
    ensures x == y && r == s
  {
    hide BigEndian, Power256;
    Associative(BigEndian(|x|, 8), x, r);
    Associative(BigEndian(|y|, 8), y, s);
    Split(BigEndian(|x|, 8), BigEndian(|y|, 8), x + r, y + s);
    BigEndianUnique(|x|, |y|, 8);
    Split(x, y, r, s);
  }

  /** How many bytes come before the first NUL. */
  function TextLength(b: Blob): nat { if b == [] || b[0] == 0 then 0 else 1 + TextLength(b[1..]) }

  lemma {:induction false} TextEnds(t: Blob, r: Blob)
    requires (forall i :: 0 <= i < |t| ==> t[i] != 0) && (r == [] || r[0] == 0)
    ensures TextLength(t + r) == |t|
  {
    if t == [] {
      assert t + r == r;
    } else {
      assert (t + r)[1..] == t[1..] + r;
      TextEnds(t[1..], r);
    }
  }

  lemma FramesLead(blobs: seq<Blob>)
    requires Small(blobs)
    ensures Frames(blobs) == [] || Frames(blobs)[0] == 0
  {
    if blobs != [] { BigEndianLead(|blobs[0]|, 8); }
  }

  /** Equal inputs have equal TOML and equal lists of framed blobs. */
  lemma InputUnique(x: Frozen, y: Frozen)
    requires InputOk(x) && InputOk(y) && HashInput(x) == HashInput(y)
    ensures x.toml == y.toml && Blobs(x) == Blobs(y)
  {
    FramesLead(Blobs(x));
    FramesLead(Blobs(y));
    TextEnds(x.toml, Frames(Blobs(x)));
    TextEnds(y.toml, Frames(Blobs(y)));
    Split(x.toml, y.toml, Frames(Blobs(x)), Frames(Blobs(y)));
    FramesUnique(Blobs(x), Blobs(y));
  }

  // ---- the blobs determine what they were made from ----

  lemma {:induction false} SchemaBlobsUnique(a: seq<Entry<Blob, Blob>>, b: seq<Entry<Blob, Blob>>, r: seq<Blob>, s: seq<Blob>)
    requires |a| == |b| && SchemaBlobs(a) + r == SchemaBlobs(b) + s
    ensures a == b && r == s
  {
    if a == [] {
      assert SchemaBlobs(a) + r == r && SchemaBlobs(b) + s == s;
    } else {
      var x, y := [a[0].key, a[0].value], [b[0].key, b[0].value];
      assert SchemaBlobs(a) + r == x + (SchemaBlobs(a[1..]) + r) && SchemaBlobs(b) + s == y + (SchemaBlobs(b[1..]) + s);
      Split(x, y, SchemaBlobs(a[1..]) + r, SchemaBlobs(b[1..]) + s);
      assert x[0] == y[0] && x[1] == y[1];
      SchemaBlobsUnique(a[1..], b[1..], r, s);
      assert a == [a[0]] + a[1..] && b == [b[0]] + b[1..];
    }
  }

  lemma CanonicalBytesUnique(a: MemberList, b: MemberList)
    requires Sorted(StringLess, a) && Sorted(StringLess, b) && Ok(Obj(a)) && Ok(Obj(b))
    ensures CanonicalBytes(a) == CanonicalBytes(b) <==> Variant(Obj(a), Obj(b))
  {
    CanonicalBytesIs(a);
    CanonicalBytesIs(b);
    var v, w := Canonicalize(Obj(a)), Canonicalize(Obj(b));
    CanonicalizeOrders(Obj(a));
    CanonicalizeOrders(Obj(b));
    if CanonicalBytes(a) == CanonicalBytes(b) {
      ToBytesUnique(Print(v), Print(w));
      PrintUnique(v, w, "", "");
    }
    SameCanonicalIffVariant(Obj(a), Obj(b));
  }

  lemma CanonicalBytesIs(a: MemberList)
    requires Sorted(StringLess, a)
    ensures CanonicalBytes(a) == ToBytes(Print(Canonicalize(Obj(a))))
  {
    StringOrder();
    SortedIsFixed(StringLess, a);
    assert Canonicalize(Obj(a)).members == seq(|a|, i requires 0 <= i < |a| => Entry(a[i].key, Canonicalize(a[i].value)));
  }

  predicate ServersOk(a: seq<Entry<Blob, MemberList>>) {
    forall i :: 0 <= i < |a| ==> Sorted(StringLess, a[i].value) && Ok(Obj(a[i].value))
  }

  lemma {:induction false} ServerBlobsUnique(a: seq<Entry<Blob, MemberList>>, b: seq<Entry<Blob, MemberList>>, r: seq<Blob>, s: seq<Blob>)
    requires ServersOk(a) && ServersOk(b) && |a| == |b|
    ensures ServerBlobs(a) + r == ServerBlobs(b) + s <==> SameServers(a, b) && r == s
  {
    if a == [] {
      assert ServerBlobs(a) + r == r && ServerBlobs(b) + s == s;
    } else {
      var x, y := [a[0].key, CanonicalBytes(a[0].value)], [b[0].key, CanonicalBytes(b[0].value)];
      var rest, more := ServerBlobs(a[1..]) + r, ServerBlobs(b[1..]) + s;
      assert ServerBlobs(a) + r == x + rest && ServerBlobs(b) + s == y + more;
      if x + rest == y + more {
        Split(x, y, rest, more);
        assert x[0] == y[0] && x[1] == y[1];
      }
      CanonicalBytesUnique(a[0].value, b[0].value);
      ServerBlobsUnique(a[1..], b[1..], r, s);
      SameServersCons(a, b);
    }
  }

  lemma SameServersCons(a: seq<Entry<Blob, MemberList>>, b: seq<Entry<Blob, MemberList>>)
    requires |a| == |b| > 0
    ensures SameServers(a, b) <==>
      a[0].key == b[0].key && Variant(Obj(a[0].value), Obj(b[0].value)) && SameServers(a[1..], b[1..])
  {
    if a[0].key == b[0].key && Variant(Obj(a[0].value), Obj(b[0].value)) && SameServers(a[1..], b[1..]) {
      forall i | 0 <= i < |a| ensures a[i].key == b[i].key && Variant(Obj(a[i].value), Obj(b[i].value)) {
        if i > 0 { assert a[i] == a[1..][i - 1] && b[i] == b[1..][i - 1]; }
      }
    }
  }

  /** How many bytes come before the first slash. */
  function ComponentLength(b: Blob): nat { if b == [] || b[0] == 47 then 0 else 1 + ComponentLength(b[1..]) }

  lemma {:induction false} ComponentEnds(c: Blob, r: Blob)
    requires (forall i :: 0 <= i < |c| ==> c[i] != 47) && (r == [] || r[0] == 47)
    ensures ComponentLength(c + r) == |c|
  {
    if c == [] {
      assert c + r == r;
    } else {
      assert (c + r)[1..] == c[1..] + r;
      ComponentEnds(c[1..], r);
    }
  }

  predicate PathOk(p: Path) { p != [] && forall j :: 0 <= j < |p| ==> Component(p[j]) }

  lemma {:induction false} PathBytesUnique(p: Path, q: Path)
    requires PathOk(p) && PathOk(q) && PathBytes(p) == PathBytes(q)
    ensures p == q
    decreases |p|
  {
    var x := if |p| == 1 then [] else [47] + PathBytes(p[1..]);
    var y := if |q| == 1 then [] else [47] + PathBytes(q[1..]);
    ComponentEnds(p[0], x);
    ComponentEnds(q[0], y);
    Split(p[0], q[0], x, y);
    assert p == [p[0]] + p[1..] && q == [q[0]] + q[1..];
    if |p| > 1 && |q| > 1 {
      Split([47], [47], PathBytes(p[1..]), PathBytes(q[1..]));
      PathBytesUnique(p[1..], q[1..]);
    }
  }

  predicate PathsOk(files: Files) { forall i :: 0 <= i < |files| ==> PathOk(files[i].key) }

  lemma {:induction false} FileBlobsUnique(a: Files, b: Files, r: seq<Blob>, s: seq<Blob>)
    requires PathsOk(a) && PathsOk(b) && |a| == |b| && FileBlobs(a) + r == FileBlobs(b) + s
    ensures a == b && r == s
  {
    if a == [] {
      assert FileBlobs(a) + r == r && FileBlobs(b) + s == s;
    } else {
      var x, y := [PathBytes(a[0].key), a[0].value], [PathBytes(b[0].key), b[0].value];
      assert FileBlobs(a) + r == x + (FileBlobs(a[1..]) + r) && FileBlobs(b) + s == y + (FileBlobs(b[1..]) + s);
      Split(x, y, FileBlobs(a[1..]) + r, FileBlobs(b[1..]) + s);
      assert x[0] == y[0] && x[1] == y[1];
      PathBytesUnique(a[0].key, b[0].key);
      FileBlobsUnique(a[1..], b[1..], r, s);
      assert a == [a[0]] + a[1..] && b == [b[0]] + b[1..];
    }
  }

  predicate SkillOk(s: Skill) { FilesOk(s.files) && |s.files| < Power256(8) }

  lemma SortedFiles(files: Files)
    requires FilesOk(files)
    ensures PathsOk(Sort(PathLess, files)) && |Sort(PathLess, files)| == |files|
  {
    PathOrder();
    SortIs(PathLess, files);
    var sorted := Sort(PathLess, files);
    forall i | 0 <= i < |sorted| ensures PathOk(sorted[i].key) {
      assert sorted[i] in files;
      var j :| 0 <= j < |files| && files[j] == sorted[i];
    }
  }

  lemma SkillBlobsUnique(s: Skill, t: Skill, r: seq<Blob>, u: seq<Blob>)
    requires SkillOk(s) && SkillOk(t)
    ensures SkillBlobs(s) + r == SkillBlobs(t) + u <==> SameSkill(s, t) && r == u
  {
    PathOrder();
    SortedFiles(s.files);
    SortedFiles(t.files);
    SortForgetsOrder(PathLess, s.files, t.files);
    var a, b := Sort(PathLess, s.files), Sort(PathLess, t.files);
    var x, y := [s.name, BigEndian(|a|, 8)], [t.name, BigEndian(|b|, 8)];
    assert SkillBlobs(s) + r == x + (FileBlobs(a) + r) && SkillBlobs(t) + u == y + (FileBlobs(b) + u);
    if SkillBlobs(s) + r == SkillBlobs(t) + u {
      Split(x, y, FileBlobs(a) + r, FileBlobs(b) + u);
      assert x[0] == y[0] && x[1] == y[1];
      BigEndianUnique(|a|, |b|, 8);
      FileBlobsUnique(a, b, r, u);
    }
  }

  lemma {:induction false} SkillsBlobsUnique(a: seq<Skill>, b: seq<Skill>, r: seq<Blob>, s: seq<Blob>)
    requires |a| == |b| && (forall i :: 0 <= i < |a| ==> SkillOk(a[i]) && SkillOk(b[i]))
    ensures SkillsBlobs(a) + r == SkillsBlobs(b) + s <==> SameSkills(a, b) && r == s
  {
    if a == [] {
      assert SkillsBlobs(a) + r == r && SkillsBlobs(b) + s == s;
    } else {
      var rest, more := SkillsBlobs(a[1..]) + r, SkillsBlobs(b[1..]) + s;
      assert SkillsBlobs(a) + r == SkillBlobs(a[0]) + rest && SkillsBlobs(b) + s == SkillBlobs(b[0]) + more;
      SkillBlobsUnique(a[0], b[0], rest, more);
      SkillsBlobsUnique(a[1..], b[1..], r, s);
      SameSkillsCons(a, b);
    }
  }

  lemma SameSkillsCons(a: seq<Skill>, b: seq<Skill>)
    requires |a| == |b| > 0
    ensures SameSkills(a, b) <==> SameSkill(a[0], b[0]) && SameSkills(a[1..], b[1..])
  {
    if SameSkill(a[0], b[0]) && SameSkills(a[1..], b[1..]) {
      forall i | 0 <= i < |a| ensures SameSkill(a[i], b[i]) {
        if i > 0 { assert a[i] == a[1..][i - 1] && b[i] == b[1..][i - 1]; }
      }
    }
  }

  predicate AgentsOk(a: seq<AgentSkills>) {
    forall i, j :: 0 <= i < |a| && 0 <= j < |a[i].skills| ==> SkillOk(a[i].skills[j])
  }

  lemma {:induction false} AgentBlobsUnique(a: seq<AgentSkills>, b: seq<AgentSkills>)
    requires AgentsOk(a) && AgentsOk(b) && |a| == |b| && forall i :: 0 <= i < |a| ==> |a[i].skills| == |b[i].skills|
    ensures AgentBlobs(a) == AgentBlobs(b) <==> SameAgents(a, b)
  {
    if a != [] {
      var rest, more := SkillsBlobs(a[0].skills) + AgentBlobs(a[1..]), SkillsBlobs(b[0].skills) + AgentBlobs(b[1..]);
      if AgentBlobs(a) == AgentBlobs(b) { Split([a[0].agent], [b[0].agent], rest, more); }
      SkillsBlobsUnique(a[0].skills, b[0].skills, AgentBlobs(a[1..]), AgentBlobs(b[1..]));
      AgentBlobsUnique(a[1..], b[1..]);
      SameAgentsCons(a, b);
    }
  }

  lemma SameAgentsCons(a: seq<AgentSkills>, b: seq<AgentSkills>)
    requires |a| == |b| > 0
    ensures SameAgents(a, b) <==>
      a[0].agent == b[0].agent && SameSkills(a[0].skills, b[0].skills) && SameAgents(a[1..], b[1..])
  {
    if a[0].agent == b[0].agent && SameSkills(a[0].skills, b[0].skills) && SameAgents(a[1..], b[1..]) {
      forall i | 0 <= i < |a| ensures a[i].agent == b[i].agent && SameSkills(a[i].skills, b[i].skills) {
        if i > 0 { assert a[i] == a[1..][i - 1] && b[i] == b[1..][i - 1]; }
      }
    }
  }

  /**
   * The hash input is unambiguous, and covers nothing else: for any way of reading the layout off the TOML,
   * two loads build the same bytes exactly when they read the same things.
   */
  lemma HashInputExact(x: Frozen, y: Frozen, layoutOf: Blob -> Layout)
    requires InputOk(x) && InputOk(y) && Fits(x, layoutOf(x.toml)) && Fits(y, layoutOf(y.toml))
    ensures HashInput(x) == HashInput(y) <==> Same(x, y)
  {
    if HashInput(x) == HashInput(y) { InputUnique(x, y); }
    if x.toml == y.toml {
      var p, q := ServerBlobs(x.servers) + AgentBlobs(x.skills), ServerBlobs(y.servers) + AgentBlobs(y.skills);
      if Blobs(x) == Blobs(y) { SchemaBlobsUnique(x.schemas, y.schemas, p, q); }
      ServerBlobsUnique(x.servers, y.servers, AgentBlobs(x.skills), AgentBlobs(y.skills));
      AgentBlobsUnique(x.skills, y.skills);
    }
  }

  // ---- the load, which pushes onto one buffer ----

  function WithSchema(flows: seq<Entry<Blob, Option<Blob>>>): seq<Entry<Blob, Blob>> {
    if flows == [] then []
    else (if flows[0].value.Some? then [Entry(flows[0].key, flows[0].value.value)] else []) + WithSchema(flows[1..])
  }

  function WithSkills(agents: seq<AgentSkills>): seq<AgentSkills> {
    if agents == [] then [] else (if agents[0].skills == [] then [] else [agents[0]]) + WithSkills(agents[1..])
  }

  lemma {:induction false} FramesAppend(a: seq<Blob>, b: seq<Blob>)
    ensures Frames(a + b) == Frames(a) + Frames(b)
    decreases |a|
  {
    if a == [] {
      assert a + b == b;
    } else {
      assert (a + b)[1..] == a[1..] + b;
      FramesAppend(a[1..], b);
      Associative(Frame(a[0]), Frames(a[1..]), Frames(b));
    }
  }

  lemma FramesOne(b: Blob)
    ensures Frames([b]) == Frame(b)
  {
    assert [b][1..] == [] && Frame(b) + [] == Frame(b);
  }

  /** The bytes to be hashed, as `load_workflow` builds them up. */
  class Builder {
    var bytes: Blob

    constructor (toml: Blob)
      ensures bytes == toml
    {
      bytes := toml;
    }

    method PushFramed(blob: Blob)
      modifies this
      ensures bytes == old(bytes) + Frames([blob])
    {
      FramesOne(blob);
      Associative(bytes, BigEndian(|blob|, 8), blob);
      bytes := bytes + BigEndian(|blob|, 8);
      bytes := bytes + blob;
    }

    method PushTwo(a: Blob, b: Blob)
      modifies this
      ensures bytes == old(bytes) + Frames([a, b])
    {
      FramesAppend([a], [b]);
      assert [a] + [b] == [a, b];
      Associative(bytes, Frames([a]), Frames([b]));
      PushFramed(a);
      PushFramed(b);
    }

    /** `freeze_flows`: each flow's schema file behind its name, in flow-name order; flows without one add nothing. */
    method FreezeFlows(flows: seq<Entry<Blob, Option<Blob>>>)
      modifies this
      ensures bytes == old(bytes) + Frames(SchemaBlobs(WithSchema(flows)))
    {
      for i := 0 to |flows|
        invariant bytes + Frames(SchemaBlobs(WithSchema(flows[i..]))) == old(bytes) + Frames(SchemaBlobs(WithSchema(flows)))
      {
        ghost var rest := flows[i..];
        assert rest[1..] == flows[i + 1..];
        SchemaStep(bytes, rest);
        if flows[i].value.Some? { PushTwo(flows[i].key, flows[i].value.value); }
      }
      Drained(bytes);
    }

    method PushServers(servers: seq<Entry<Blob, MemberList>>)
      modifies this
      ensures bytes == old(bytes) + Frames(ServerBlobs(servers))
    {
      for i := 0 to |servers|
        invariant bytes + Frames(ServerBlobs(servers[i..])) == old(bytes) + Frames(ServerBlobs(servers))
      {
        ghost var rest := servers[i..];
        assert rest[1..] == servers[i + 1..];
        ServerStep(bytes, rest);
        PushTwo(servers[i].key, CanonicalBytes(servers[i].value));
      }
      Drained(bytes);
    }

    method HashSkillDir(s: Skill)
      modifies this
      ensures bytes == old(bytes) + Frames(SkillBlobs(s))
    {
      var files := Sort(PathLess, s.files);
      FramesAppend([s.name, BigEndian(|files|, 8)], FileBlobs(files));
      Associative(bytes, Frames([s.name, BigEndian(|files|, 8)]), Frames(FileBlobs(files)));
      PushTwo(s.name, BigEndian(|files|, 8));
      for i := 0 to |files|
        invariant bytes + Frames(FileBlobs(files[i..])) == old(bytes) + Frames(SkillBlobs(s))
      {
        ghost var rest := files[i..];
        assert rest[1..] == files[i + 1..];
        FileStep(bytes, rest);
        PushTwo(PathBytes(files[i].key), files[i].value);
      }
      Drained(bytes);
    }

    method PushSkills(skills: seq<Skill>)
      modifies this
      ensures bytes == old(bytes) + Frames(SkillsBlobs(skills))
    {
      for i := 0 to |skills|
        invariant bytes + Frames(SkillsBlobs(skills[i..])) == old(bytes) + Frames(SkillsBlobs(skills))
      {
        ghost var rest := skills[i..];
        assert rest[1..] == skills[i + 1..];
        FramesAppend(SkillBlobs(rest[0]), SkillsBlobs(rest[1..]));
        Associative(bytes, Frames(SkillBlobs(rest[0])), Frames(SkillsBlobs(rest[1..])));
        HashSkillDir(skills[i]);
      }
      Drained(bytes);
    }

    method PushAgents(agents: seq<AgentSkills>)
      modifies this
      ensures bytes == old(bytes) + Frames(AgentBlobs(WithSkills(agents)))
    {
      for i := 0 to |agents|
        invariant bytes + Frames(AgentBlobs(WithSkills(agents[i..]))) == old(bytes) + Frames(AgentBlobs(WithSkills(agents)))
      {
        ghost var rest := agents[i..];
        assert rest[1..] == agents[i + 1..];
        AgentStep(bytes, rest);
        if agents[i].skills != [] {
          PushFramed(agents[i].agent);
          PushSkills(agents[i].skills);
        }
      }
      Drained(bytes);
    }
  }

  lemma Drained(bytes: Blob)
    ensures bytes + Frames([]) == bytes
  {
  }

  lemma SchemaStep(bytes: Blob, rest: seq<Entry<Blob, Option<Blob>>>)
    requires rest != []
    ensures bytes + Frames(SchemaBlobs(WithSchema(rest)))
         == (if rest[0].value.Some? then bytes + Frames([rest[0].key, rest[0].value.value]) else bytes)
          + Frames(SchemaBlobs(WithSchema(rest[1..])))
  {
    var more := WithSchema(rest[1..]);
    if rest[0].value.Some? {
      var e := Entry(rest[0].key, rest[0].value.value);
      assert ([e] + more)[1..] == more;
      FramesAppend([e.key, e.value], SchemaBlobs(more));
      Associative(bytes, Frames([e.key, e.value]), Frames(SchemaBlobs(more)));
    } else {
      assert [] + more == more;
    }
  }

  lemma ServerStep(bytes: Blob, rest: seq<Entry<Blob, MemberList>>)
    requires rest != []
    ensures bytes + Frames(ServerBlobs(rest))
         == bytes + Frames([rest[0].key, CanonicalBytes(rest[0].value)]) + Frames(ServerBlobs(rest[1..]))
  {
    var head := [rest[0].key, CanonicalBytes(rest[0].value)];
    FramesAppend(head, ServerBlobs(rest[1..]));
    Associative(bytes, Frames(head), Frames(ServerBlobs(rest[1..])));
  }

  lemma FileStep(bytes: Blob, rest: Files)
    requires rest != []
    ensures bytes + Frames(FileBlobs(rest))
         == bytes + Frames([PathBytes(rest[0].key), rest[0].value]) + Frames(FileBlobs(rest[1..]))
  {
    var head := [PathBytes(rest[0].key), rest[0].value];
    FramesAppend(head, FileBlobs(rest[1..]));
    Associative(bytes, Frames(head), Frames(FileBlobs(rest[1..])));
  }

  lemma AgentStep(bytes: Blob, rest: seq<AgentSkills>)
    requires rest != []
    ensures bytes + Frames(AgentBlobs(WithSkills(rest)))
         == (if rest[0].skills == [] then bytes else bytes + Frames([rest[0].agent]) + Frames(SkillsBlobs(rest[0].skills)))
          + Frames(AgentBlobs(WithSkills(rest[1..])))
  {
    var a, more := rest[0], WithSkills(rest[1..]);
    if a.skills == [] {
      assert [] + more == more;
    } else {
      assert ([a] + more)[1..] == more;
      var x, y, z := Frames([a.agent]), Frames(SkillsBlobs(a.skills)), Frames(AgentBlobs(more));
      FramesAppend([a.agent], SkillsBlobs(a.skills) + AgentBlobs(more));
      FramesAppend(SkillsBlobs(a.skills), AgentBlobs(more));
      Associative(bytes, x, y + z);
      Associative(bytes + x, y, z);
    }
  }

  /** The preimage of `load_workflow`: the file, then schemas, servers and skills. */
  method Load(toml: Blob, flows: seq<Entry<Blob, Option<Blob>>>, servers: seq<Entry<Blob, MemberList>>, agents: seq<AgentSkills>)
    returns (input: Blob)
    ensures input == HashInput(Frozen(toml, WithSchema(flows), servers, WithSkills(agents)))
  {
    ghost var x := Frozen(toml, WithSchema(flows), servers, WithSkills(agents));
    ghost var a, b, c := SchemaBlobs(x.schemas), ServerBlobs(servers), AgentBlobs(x.skills);
    FramesAppend(a, b + c);
    FramesAppend(b, c);
    Associative(toml, Frames(a), Frames(b) + Frames(c));
    Associative(toml + Frames(a), Frames(b), Frames(c));
    var builder := new Builder(toml);
    builder.FreezeFlows(flows);
    builder.PushServers(servers);
    builder.PushAgents(agents);
    return builder.bytes;
  }
}
