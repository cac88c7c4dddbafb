/** What the injection queue worker may do, as a rule book over the log of its observable actions. */
module InjectionLog {
  import opened AgentStates
  import opened Optional

  datatype Error = AgentExited | AgentRestarted | Blocked
  datatype Outcome = Delivered | Failed(error: Error)
  datatype Decision = AllowClear | Nudge | HoldQuiet
  datatype GateEntry = Transition | Poke

  /** Milliseconds, as the source's constants. */
  const BLOCKED_GRACE: nat := 90_000
  const SUBMIT_DELAY: nat := 400
  const SUBMIT_VERIFY: nat := 2_000
  const UNBLOCK_SETTLE: nat := 250
  const MAX_ENTER_RESENDS: nat := 2

  type Id = nat

  /** Reads and writes in the order the worker makes them.
      Saw is a read that marks the debounced state seen, Peek one that does not; Moved, that a change of it was noticed;
      ReadDialog, a read of the dialog flag with the time the dialog was raised; Timed, the clock read right after it
      while an injection waits; Parked, that the wait goes to sleep; Lowered, the queue depth going down by one;
      Quiet, that the timer of the submit's confirmation went off. */
  datatype Entry =
    | Saw(state: AgentState)
    | Peek(state: AgentState)
    | Moved
    | ReadDialog(raised: Option<nat>)
    | Timed(now: nat)
    | Parked
    | Took(id: Id)
    | Lowered
    | Answer(id: Id, outcome: Outcome)
    | Consult(entry: GateEntry, decision: Decision)
    | Typed(id: Id)
    | Nudged
    | Enter(now: nat)
    | Quiet(now: nat)
    | Resend(now: nat)
    | Clear

  /** Whose text was typed last. */
  datatype Author = Injection(id: Id) | Gate

  /** Where the write log stands: between blocks, after a text, or after its Enter and n resends. */
  datatype Block = Rest | AfterText(author: Author) | AfterEnter(author: Author, resends: nat)

  /** What the last entry obliges or allows the next one to be. */
  datatype Due =
    | Nothing
    | MustLower
    | MayAnswer(overdue: bool)
    | Peeked(state: AgentState)
    | Read(raised: Option<nat>, idle: bool)
    | InGrace
    | WasQuiet
    | Asked(entry: GateEntry, decision: Decision)

  /** The rule book's running state: whether every rule held so far, the last two states seen,
      whether an injection was taken or the gate asked since, the write block, whether the last dialog read
      was clear with nothing written since, whether a delivery still waits for Working or for any change,
      when Enter was last pressed, and how many consults and injections there were. */
  datatype Verdict = Verdict(
    ok: bool, before: AgentState, last: AgentState, busy: bool, consulted: bool,
    block: Block, clear: bool, awaiting: bool, held: bool, pressed: nat, asks: nat, takes: nat, due: Due)

  function Start(): Verdict {
    Verdict(true, Starting, Starting, false, false, Rest, false, false, false, 0, 0, 0, Nothing)
  }

  predicate GraceOver(raised: Option<nat>, now: nat) { raised.Some? && now >= raised.value + BLOCKED_GRACE }

  /** Whether the next entry is allowed where the log stands. */
  predicate Lawful(auto: bool, v: Verdict, e: Entry) {
    && (v.due.MustLower? ==> e.Lowered?)
    && (v.due.MayAnswer? ==> e.Answer?)
    && match e
       case Timed(_) => v.due.Read? && v.due.raised.Some?
       case Parked => v.due.InGrace? || (v.due.Read? && v.due.raised.None?)
       case Answer(id, r) =>
         && v.due.MayAnswer?
         && (v.due.overdue ==> r == Failed(Blocked))
         && (r.Delivered? ==> v.block == AfterEnter(Injection(id), 0))
       case Consult(t, _) =>
         && v.clear && v.due == Read(None, true)
         && (t.Transition? ==> v.before == Working && v.last == Idle && !v.busy && !v.consulted)
         && (t.Poke? ==> !v.held)
       case Typed(_) => v.clear && v.last == Idle
       case Nudged => v.clear && v.due.Asked? && v.due.decision.Nudge?
       case Enter(_) => v.clear && v.due.Read? && v.block.AfterText?
       case Quiet(now) => v.block.AfterEnter? && now >= v.pressed + SUBMIT_VERIFY
       case Resend(_) => v.due.WasQuiet? && v.block.AfterEnter? && v.block.resends < MAX_ENTER_RESENDS
       case Clear => v.clear && v.due == Asked(Transition, AllowClear) && auto && !v.awaiting
       case _ => true
  }

  predicate Delivery(e: Entry) { e.Answer? && e.outcome.Delivered? }

  function BlockAfter(b: Block, e: Entry): Block {
    match e
    case Typed(id) => AfterText(Injection(id))
    case Nudged => AfterText(Gate)
    case Enter(_) => if b.AfterText? then AfterEnter(b.author, 0) else b
    case Resend(_) => if b.AfterEnter? then AfterEnter(b.author, b.resends + 1) else b
    case Clear => Rest
    case _ => b
  }

  function DueAfter(due: Due, e: Entry): Due {
    match e
    case Peek(s) => Peeked(s)
    case ReadDialog(raised) => Read(raised, due == Peeked(Idle))
    case Timed(now) => if due.Read? && GraceOver(due.raised, now) then MustLower else InGrace
    case Quiet(_) => WasQuiet
    case Lowered => MayAnswer(due.MustLower?)
    case Consult(t, d) => Asked(t, d)
    case _ => Nothing
  }

  predicate Writes(e: Entry) { e.Typed? || e.Nudged? || e.Enter? || e.Resend? || e.Clear? }

  function Rule(auto: bool, v: Verdict, e: Entry): Verdict {
    Verdict(
      v.ok && Lawful(auto, v, e),
      if e.Saw? then v.last else v.before,
      if e.Saw? then e.state else v.last,
      !e.Saw? && (v.busy || e.Took? || Delivery(e)),
      !e.Saw? && (v.consulted || e.Consult?),
      BlockAfter(v.block, e),
      if e.ReadDialog? then e.raised.None? else v.clear && !Writes(e),
      Delivery(e) || (v.awaiting && e != Saw(Working)),
      Delivery(e) || (v.held && !e.Moved?),
      if e.Enter? || e.Resend? then e.now else v.pressed,
      if e.Consult? then v.asks + 1 else v.asks,
      if e.Took? then v.takes + 1 else v.takes,
      DueAfter(v.due, e))
  }

  function Judge(auto: bool, log: seq<Entry>): Verdict {
    if log == [] then Start() else Rule(auto, Judge(auto, log[..|log| - 1]), log[|log| - 1])
  }

  lemma JudgeAppend(auto: bool, log: seq<Entry>, e: Entry)
    ensures Judge(auto, log + [e]) == Rule(auto, Judge(auto, log), e)
  {
    assert (log + [e])[..|log|] == log;
  }

  function Answered(log: seq<Entry>): seq<Id> {
    if log == [] then []
    else
      var e := log[|log| - 1];
      Answered(log[..|log| - 1]) + (if e.Answer? then [e.id] else [])
  }

  // ---- what keeping the rules means, in terms of positions in the log ----

  lemma {:induction false} OkPrefix(auto: bool, log: seq<Entry>, n: nat)
    requires Judge(auto, log).ok && n <= |log|
    ensures Judge(auto, log[..n]).ok
  {
    if n < |log| {
      OkPrefix(auto, log[..|log| - 1], n);
      assert log[..|log| - 1][..n] == log[..n];
    } else {
      assert log[..n] == log;
    }
  }

  lemma RuleAt(auto: bool, log: seq<Entry>, k: nat)
    requires Judge(auto, log).ok && k < |log|
    ensures Judge(auto, log[..k]).ok && Judge(auto, log[..k + 1]).ok
    ensures Judge(auto, log[..k + 1]) == Rule(auto, Judge(auto, log[..k]), log[k])
  {
    OkPrefix(auto, log, k);
    OkPrefix(auto, log, k + 1);
    assert log[..k + 1][..k] == log[..k];
  }

  lemma LawfulAt(auto: bool, log: seq<Entry>, k: nat)
    requires Judge(auto, log).ok && k < |log|
    ensures Lawful(auto, Judge(auto, log[..k]), log[k])
  {
    RuleAt(auto, log, k);
    hide Judge, Lawful;
  }

  /** What the last entries were when something is due. */
  predicate DueFrom(due: Due, log: seq<Entry>) {
    var k := |log|;
    match due
    case Nothing => true
    case MustLower => k > 1 && log[k - 1].Timed? && log[k - 2].ReadDialog? && GraceOver(log[k - 2].raised, log[k - 1].now)
    case InGrace =>
      && k > 1 && log[k - 1].Timed? && log[k - 2].ReadDialog? && log[k - 2].raised.Some?
      && !GraceOver(log[k - 2].raised, log[k - 1].now)
    case MayAnswer(_) => k > 0 && log[k - 1].Lowered?
    case Peeked(s) => k > 0 && log[k - 1] == Peek(s)
    case Read(raised, idle) => k > 0 && log[k - 1] == ReadDialog(raised) && (idle ==> k > 1 && log[k - 2] == Peek(Idle))
    case WasQuiet => k > 0 && log[k - 1].Quiet?
    case Asked(t, d) => k > 0 && log[k - 1] == Consult(t, d)
  }

  lemma DueFromStep(auto: bool, log: seq<Entry>, v: Verdict, e: Entry)
    requires DueFrom(v.due, log) && Lawful(auto, v, e)
    ensures DueFrom(DueAfter(v.due, e), log + [e])
  {
  }

  lemma {:induction false} DueAt(auto: bool, log: seq<Entry>, k: nat)
    requires Judge(auto, log).ok && k <= |log|
    ensures DueFrom(Judge(auto, log[..k]).due, log[..k])
  {
    if k > 0 {
      DueAt(auto, log, k - 1);
      RuleAt(auto, log, k - 1);
      DueFromStep(auto, log[..k - 1], Judge(auto, log[..k - 1]), log[k - 1]);
      assert log[..k - 1] + [log[k - 1]] == log[..k];
      hide Judge, Lawful, DueFrom, DueAfter;
    }
  }

  lemma {:induction false} StillAwaiting(auto: bool, log: seq<Entry>, i: nat, k: nat)
    requires Judge(auto, log).ok && i < k <= |log| && log[i].Answer? && log[i].outcome.Delivered?
    requires forall m :: i < m < k ==> log[m] != Saw(Working)
    ensures Judge(auto, log[..k]).awaiting
    decreases k
  {
    RuleAt(auto, log, k - 1);
    if k - 1 > i { StillAwaiting(auto, log, i, k - 1); }
  }

  /** After a delivered injection no /clear is typed until the agent was seen working again. */
  lemma ClearWaitsForWorking(auto: bool, log: seq<Entry>, i: nat, k: nat)
    requires Judge(auto, log).ok && i < k < |log| && log[i].Answer? && log[i].outcome.Delivered? && log[k].Clear?
    ensures exists m :: i < m < k && log[m] == Saw(Working)
  {
    RuleAt(auto, log, k);
    if forall m :: i < m < k ==> log[m] != Saw(Working) { StillAwaiting(auto, log, i, k); }
  }

  lemma {:induction false} LastSaw(auto: bool, log: seq<Entry>) returns (j: nat)
    requires Judge(auto, log).last != Starting
    ensures j < |log| && log[j] == Saw(Judge(auto, log).last) && Judge(auto, log[..j]).last == Judge(auto, log).before
    ensures forall m :: j < m < |log| ==> !log[m].Saw?
    ensures !Judge(auto, log).busy ==> forall m :: j < m < |log| ==> !log[m].Took?
    ensures !Judge(auto, log).consulted ==> forall m :: j < m < |log| ==> !log[m].Consult?
  {
    var n := |log| - 1;
    if log[n].Saw? { j := n; } else { j := LastSaw(auto, log[..n]); assert log[..n][..j] == log[..j]; }
  }

  /** A /clear is typed only right after the gate allowed it on a working→idle change that no injection,
      no later change and no other consult followed, with auto_clear on and the dialog last read clear. */
  lemma ClearNeedsTurnEnd(auto: bool, log: seq<Entry>, k: nat) returns (i: nat, j: nat)
    requires Judge(auto, log).ok && k < |log| && log[k].Clear?
    ensures auto && i < j < k && log[i] == Saw(Working) && log[j] == Saw(Idle)
    ensures forall m :: i < m < j || j < m < k ==> !log[m].Saw?
    ensures forall m :: j < m < k - 1 ==> !log[m].Took? && !log[m].Consult?
    ensures log[k - 1] == Consult(Transition, AllowClear)
    ensures DialogClear(log[..k - 1])
  {
    ConsultBeforeClear(auto, log, k);
    var pre := log[..k - 1];
    j := LastSaw(auto, pre);
    assert pre[..j] == log[..j];
    i := LastSaw(auto, log[..j]);
    ClearRead(auto, pre);
  }

  lemma ConsultBeforeClear(auto: bool, log: seq<Entry>, k: nat)
    requires Judge(auto, log).ok && k < |log| && log[k].Clear?
    ensures auto && k > 0 && log[k - 1] == Consult(Transition, AllowClear)
    ensures var v := Judge(auto, log[..k - 1]);
      v.clear && v.before == Working && v.last == Idle && !v.busy && !v.consulted
  {
    LawfulAt(auto, log, k);
    DueAt(auto, log, k);
    LawfulAt(auto, log, k - 1);
    hide Judge;
  }

  /** The last dialog read was clear and nothing was written since. */
  predicate DialogClear(log: seq<Entry>) {
    log != [] && var e := log[|log| - 1];
    e == ReadDialog(None) || (!e.ReadDialog? && !Writes(e) && DialogClear(log[..|log| - 1]))
  }

  lemma {:induction false} ClearRead(auto: bool, log: seq<Entry>)
    ensures Judge(auto, log).clear <==> DialogClear(log)
  {
    if log != [] { ClearRead(auto, log[..|log| - 1]); }
  }

  /** Injection text, a first Enter, a nudge and /clear are only ever written on a clear read of the dialog flag. */
  lemma TypedOnClearDialog(auto: bool, log: seq<Entry>, k: nat)
    requires Judge(auto, log).ok && k < |log| && Writes(log[k]) && !log[k].Resend?
    ensures DialogClear(log[..k])
  {
    RuleAt(auto, log, k);
    ClearRead(auto, log[..k]);
  }

  /** Injections are only typed at a state last seen idle. */
  lemma TypedWhenIdle(auto: bool, log: seq<Entry>, k: nat) returns (j: nat)
    requires Judge(auto, log).ok && k < |log| && log[k].Typed?
    ensures j < k && log[j] == Saw(Idle) && forall m :: j < m < k ==> !log[m].Saw?
  {
    RuleAt(auto, log, k);
    j := LastSaw(auto, log[..k]);
  }

  /** When the clock, read right after a dialog, finds its grace over, the next thing that happens is that the injection
      fails with Blocked. */
  lemma OverdueFails(auto: bool, log: seq<Entry>, k: nat, raised: nat, now: nat)
    requires Judge(auto, log).ok && k + 3 < |log| && log[k] == ReadDialog(Some(raised)) && log[k + 1] == Timed(now)
    requires now >= raised + BLOCKED_GRACE
    ensures log[k + 2].Lowered? && log[k + 3].Answer? && log[k + 3].outcome == Failed(Blocked)
  {
    RuleAt(auto, log, k);
    RuleAt(auto, log, k + 1);
    RuleAt(auto, log, k + 2);
    RuleAt(auto, log, k + 3);
    hide Judge;
  }

  /** The wait goes to sleep only right after it read that no dialog is up, or one whose grace the clock,
      read in between, said was not over. */
  lemma NeverParkedOverdue(auto: bool, log: seq<Entry>, k: nat)
    requires Judge(auto, log).ok && k < |log| && log[k].Parked?
    ensures k > 0
    ensures log[k - 1] == ReadDialog(None)
         || (k > 1 && log[k - 1].Timed? && log[k - 2].ReadDialog? && log[k - 2].raised.Some?
             && log[k - 1].now < log[k - 2].raised.value + BLOCKED_GRACE)
  {
    LawfulAt(auto, log, k);
    DueAt(auto, log, k);
    hide Judge;
  }

  /** The gate is only asked right after a look that found the agent idle and a read that found no dialog. */
  lemma ConsultAtIdle(auto: bool, log: seq<Entry>, k: nat)
    requires Judge(auto, log).ok && k < |log| && log[k].Consult?
    ensures k > 1 && log[k - 2] == Peek(Idle) && log[k - 1] == ReadDialog(None)
  {
    LawfulAt(auto, log, k);
    DueAt(auto, log, k);
    hide Judge;
  }

  lemma {:induction false} LastPress(auto: bool, log: seq<Entry>) returns (j: nat)
    requires Judge(auto, log).ok && Judge(auto, log).block.AfterEnter?
    ensures j < |log| && (log[j].Enter? || log[j].Resend?) && log[j].now == Judge(auto, log).pressed
    ensures forall m :: j < m < |log| ==> !Writes(log[m])
  {
    var n := |log| - 1;
    RuleAt(auto, log, n);
    assert log[..n + 1] == log;
    if Writes(log[n]) {
      j := n;
    } else {
      j := LastPress(auto, log[..n]);
    }
  }

  lemma QuietAt(auto: bool, log: seq<Entry>, k: nat)
    requires Judge(auto, log).ok && k < |log| && log[k].Quiet?
    ensures var v := Judge(auto, log[..k]); v.ok && v.block.AfterEnter? && log[k].now >= v.pressed + SUBMIT_VERIFY
  {
    RuleAt(auto, log, k);
    hide Judge;
  }

  /** Enter is only pressed again right after the confirmation's timer went off, and that is a full SUBMIT_VERIFY after
      the press before, with nothing written in between. */
  lemma ResendAfterQuiet(auto: bool, log: seq<Entry>, k: nat) returns (j: nat)
    requires Judge(auto, log).ok && k < |log| && log[k].Resend?
    ensures j < k - 1 && log[k - 1].Quiet? && (log[j].Enter? || log[j].Resend?)
    ensures log[k - 1].now >= log[j].now + SUBMIT_VERIFY && forall m :: j < m < k ==> !Writes(log[m])
  {
    LawfulAt(auto, log, k);
    DueAt(auto, log, k);
    QuietAt(auto, log, k - 1);
    j := LastPress(auto, log[..k - 1]);
    hide Judge;
  }

  /** The depth is lowered right before each answer, and only for it. */
  lemma LoweredBeforeAnswer(auto: bool, log: seq<Entry>, k: nat)
    requires Judge(auto, log).ok && k < |log|
    ensures log[k].Answer? ==> k > 0 && log[k - 1].Lowered?
    ensures log[k].Lowered? && k + 1 < |log| ==> log[k + 1].Answer?
  {
    LawfulAt(auto, log, k);
    DueAt(auto, log, k);
    if log[k].Lowered? && k + 1 < |log| {
      RuleAt(auto, log, k);
      LawfulAt(auto, log, k + 1);
    }
    hide Judge;
  }

  // ---- the write log ----

  datatype Write = Text(author: Author) | Submit | ClearLine

  function Written(e: Entry): seq<Write> {
    match e
    case Typed(id) => [Text(Injection(id))]
    case Nudged => [Text(Gate)]
    case Enter(_) => [Submit]
    case Resend(_) => [Submit]
    case Clear => [ClearLine]
    case _ => []
  }

  function WriteLog(log: seq<Entry>): seq<Write> {
    if log == [] then [] else WriteLog(log[..|log| - 1]) + Written(log[|log| - 1])
  }

  /** Blocks of a text, its Enter and up to two resent Enters, or a /clear; a text may be left without its Enter. */
  ghost predicate Grammatical(ws: seq<Write>)
    decreases |ws|, 1
  {
    ws == []
    || (ws[|ws| - 1].ClearLine? && Grammatical(ws[..|ws| - 1]))
    || exists n: nat :: n <= 1 + MAX_ENTER_RESENDS && EndsInBlock(ws, n)
  }

  ghost predicate EndsInBlock(ws: seq<Write>, n: nat)
    decreases |ws|, 0
  {
    n < |ws| && ws[|ws| - 1 - n].Text? && (forall i :: |ws| - n <= i < |ws| ==> ws[i].Submit?) && Grammatical(ws[..|ws| - 1 - n])
  }

  /** The write log parses, and ends in the block the rule book says it is in. */
  ghost predicate Stands(ws: seq<Write>, b: Block) {
    && Grammatical(ws)
    && match b
       case Rest => true
       case AfterText(a) => EndsInBlock(ws, 0) && ws[|ws| - 1] == Text(a)
       case AfterEnter(a, n) => n <= MAX_ENTER_RESENDS && EndsInBlock(ws, n + 1) && ws[|ws| - 2 - n] == Text(a)
  }

  lemma StandsText(ws: seq<Write>, b: Block, a: Author)
    requires Stands(ws, b)
    ensures Stands(ws + [Text(a)], AfterText(a))
  {
    assert (ws + [Text(a)])[..|ws|] == ws;
    assert EndsInBlock(ws + [Text(a)], 0);
  }

  lemma StandsSubmit(ws: seq<Write>, n: nat, a: Author)
    requires EndsInBlock(ws, n) && n <= MAX_ENTER_RESENDS && ws[|ws| - 1 - n] == Text(a)
    ensures Stands(ws + [Submit], AfterEnter(a, n))
  {
    var to := ws + [Submit];
    assert to[..|to| - 2 - n] == ws[..|ws| - 1 - n];
    assert EndsInBlock(to, n + 1);
  }

  lemma StandsStep(auto: bool, ws: seq<Write>, v: Verdict, e: Entry)
    requires Stands(ws, v.block) && Lawful(auto, v, e)
    ensures Stands(ws + Written(e), BlockAfter(v.block, e))
  {
    match e
    case Typed(id) => StandsText(ws, v.block, Injection(id));
    case Nudged => StandsText(ws, v.block, Gate);
    case Enter(_) => StandsSubmit(ws, 0, v.block.author);
    case Resend(_) => StandsSubmit(ws, v.block.resends + 1, v.block.author);
    case Clear => assert (ws + [ClearLine])[..|ws|] == ws;
    case _ => assert ws + [] == ws;
  }

  /** Everything the worker writes is in the grammar. */
  lemma {:induction false} WritesAreGrammatical(auto: bool, log: seq<Entry>)
    requires Judge(auto, log).ok
    ensures Stands(WriteLog(log), Judge(auto, log).block)
  {
    if log != [] {
      WritesAreGrammatical(auto, log[..|log| - 1]);
      StandsStep(auto, WriteLog(log[..|log| - 1]), Judge(auto, log[..|log| - 1]), log[|log| - 1]);
    }
  }

  /** Each delivery answers for the text and Enter that were just written, with nothing typed in between. */
  lemma DeliveredMeansTyped(auto: bool, log: seq<Entry>, k: nat)
    requires Judge(auto, log).ok && k < |log| && log[k].Answer? && log[k].outcome.Delivered?
    ensures var ws := WriteLog(log[..k]); |ws| >= 2 && ws[|ws| - 2] == Text(Injection(log[k].id)) && ws[|ws| - 1] == Submit
  {
    RuleAt(auto, log, k);
    WritesAreGrammatical(auto, log[..k]);
  }
}
