/** What the queue worker does with an injection, with the gate and in one pass of its run loop, on a given script. */
module InjectionRun {
  import opened AgentStates
  import opened InjectionEnv
  import opened InjectionLog
  import opened InjectionWait
  import opened Optional

  /** What became of an injection that was taken; Unfinished when the script ended first. */
  datatype Fate = WaitFailed(error: Error) | PumpGone | EnterFailed(error: Error) | Submitted | Unfinished

  /** What came of consulting the gate. */
  datatype GateAnswer = GateGone | NotIdle | DialogUp | JustServed | Ruled(decision: Decision)

  /** Why the run loop returns. */
  datatype Leave = NoSenders | WatchClosed(branch: Branch)

  /** Where a stretch of the worker's code leaves things: the shared state, the rest of the script, the entries it added
      to the log, and whether the script ended in it. */
  datatype Out = Out(env: Env, script: seq<Turn>, log: seq<Entry>, cut: bool)

  // ---- typing ----

  function SleepUntil(e: Env, until: nat, ts: seq<Turn>): (out: Out)
    ensures |out.script| <= |ts| && out.log == [] && (out.cut ==> out.script == []) && (!out.cut ==> out.env.now >= until)
    decreases |ts|
  {
    if e.now >= until then Out(e, ts, [], false)
    else if ts == [] then Out(e, ts, [], true)
    else SleepUntil(ApplyAll(e, ts[0].events), until, ts[1..])
  }

  function Slept(e: Env, ts: seq<Turn>, ms: nat): Out {
    var d := Drifted(e, ts);
    SleepUntil(d, d.now + ms, Later(ts))
  }

  /** Enter is withheld if a dialog is up, and fails if the pump is gone. */
  function Pressed(e: Env, ts: seq<Turn>): (Option<Error>, Out) {
    var d, rest := Drifted(e, ts), Later(ts);
    var read := [ReadDialog(d.dialog.value)];
    if d.dialog.value.Some? then (Some(Blocked), Out(d, rest, read, false))
    else if rest == [] then (None, Out(d, rest, read, true))
    else
      var f := ApplyAll(d, rest[0].events);
      if f.writerUp then (None, Out(f, rest[1..], read + [Enter(f.now)], false))
      else (Some(AgentExited), Out(f, rest[1..], read, false))
  }

  /** How typing a text and pressing Enter ends. */
  datatype Typing = Gone | Cut | Withheld(error: Error) | Entered

  /** A text, then Enter as a later write. */
  function TypedOut(e: Env, ts: seq<Turn>, text: Entry): (Typing, Out) {
    if ts == [] then (Cut, Out(e, ts, [], true))
    else
      var f := ApplyAll(e, ts[0].events);
      if !f.writerUp then (Gone, Out(f, ts[1..], [], false))
      else
        var slept := Slept(f, ts[1..], SUBMIT_DELAY);
        if slept.cut then (Cut, slept.(log := [text]))
        else
          var (err, out) := Pressed(slept.env, slept.script);
          (if out.cut then Cut else if err.Some? then Withheld(err.value) else Entered, out.(log := [text] + out.log))
  }

  /** The confirmation of a submit after n resent Enters. */
  function Confirmed(e: Env, ts: seq<Turn>, n: nat): Out
    requires n <= MAX_ENTER_RESENDS
    decreases MAX_ENTER_RESENDS - n
  {
    var d := Drifted(e, ts);
    var (f, b, rest) := Hush(d, d.now + SUBMIT_VERIFY, Later(ts));
    if b != Some(Timer) then Out(f, rest, [], b.None?)
    else if n == MAX_ENTER_RESENDS || rest == [] then Out(f, rest, [Quiet(f.now)], n < MAX_ENTER_RESENDS)
    else
      var g := ApplyAll(f, rest[0].events);
      if !g.writerUp then Out(g, rest[1..], [Quiet(f.now)], false)
      else
        var out := Confirmed(g, rest[1..], n + 1);
        out.(log := [Quiet(f.now), Resend(g.now)] + out.log)
  }

  /** From where the log has got to, `out` is what is left of `whole`. */
  predicate Goes(added: seq<Entry>, out: Out, whole: Out) { whole == out.(log := added + out.log) }

  /** One select of the confirmation, and the Enter it leads to. */
  lemma ConfirmedStep(e: Env, ts: seq<Turn>, n: nat)
    requires n <= MAX_ENTER_RESENDS
    ensures var d := Drifted(e, ts); var (f, b, rest) := Hush(d, d.now + SUBMIT_VERIFY, Later(ts)); var out := Confirmed(e, ts, n);
      && (b != Some(Timer) ==> out == Out(f, rest, [], b.None?))
      && (b == Some(Timer) && n == MAX_ENTER_RESENDS ==> out == Out(f, rest, [Quiet(f.now)], false))
      && (b == Some(Timer) && n < MAX_ENTER_RESENDS && rest == [] ==> out == Out(f, rest, [Quiet(f.now)], true))
      && (b == Some(Timer) && n < MAX_ENTER_RESENDS && rest != [] ==>
            var g := ApplyAll(f, rest[0].events);
            if g.writerUp then Goes([Quiet(f.now), Resend(g.now)], Confirmed(g, rest[1..], n + 1), out)
            else out == Out(g, rest[1..], [Quiet(f.now)], false))
  {
  }

  // ---- answers ----

  /** The depth goes down, others act, the caller is told. */
  function Lowering(e: Env, ts: seq<Turn>): (Env, seq<Turn>) {
    var d := Drifted(e, ts);
    (Drifted(d.(depth := if d.depth == 0 then 0 else d.depth - 1), Later(ts)), Later(Later(ts)))
  }

  /** Everything on the queue is answered with err, in order; the others act before each look at it, which ends it when it
      finds the queue empty. */
  function Failing(e: Env, ts: seq<Turn>, err: Error): Out
    decreases |ts|, |e.cmds|
  {
    if e.cmds == [] then Out(e, ts, [], false)
    else
      var popped := e.(cmds := e.cmds[1..]);
      match e.cmds[0]
      case Inject(id) =>
        var (g, rest) := Lowering(popped, ts);
        Behind([Lowered, Answer(id, Failed(err))], Failing(Drifted(g, rest), Later(rest), err))
      case Reconsider => Failing(Drifted(popped, ts), Later(ts), err)
  }

  function FailedOut(e: Env, ts: seq<Turn>, err: Error): Out { Failing(Drifted(e, ts), Later(ts), err) }

  /** The injection is answered with err, and everything that was queued right behind it. */
  function FailedAllOut(e: Env, ts: seq<Turn>, id: Id, err: Error): Out {
    var (g, rest) := Lowering(e, ts);
    Behind([Lowered, Answer(id, Failed(err))], FailedOut(g, rest, err))
  }

  /** A stretch with something logged before it. */
  function Behind(log: seq<Entry>, out: Out): Out { out.(log := log + out.log) }

  /** From where the log has got to, `out` leads to what `whole` did from `before`. */
  predicate LeadsOn(before: seq<Entry>, whole: Out, log: seq<Entry>, out: Out) { Behind(before, whole) == Behind(log, out) }

  lemma FailingStep(e: Env, ts: seq<Turn>, err: Error, log: seq<Entry>)
    requires e.cmds != []
    ensures var popped := e.(cmds := e.cmds[1..]);
      match e.cmds[0]
      case Inject(id) =>
        var (g, rest) := Lowering(popped, ts);
        LeadsOn(log, Failing(e, ts, err), log + [Lowered, Answer(id, Failed(err))], Failing(Drifted(g, rest), Later(rest), err))
      case Reconsider => LeadsOn(log, Failing(e, ts, err), log, Failing(Drifted(popped, ts), Later(ts), err))
  {
    hide Lowering, Drifted, Later;
    if e.cmds[0].Inject? {
      var (g, rest) := Lowering(e.(cmds := e.cmds[1..]), ts);
      BehindTwice(log, [Lowered, Answer(e.cmds[0].id, Failed(err))], Failing(Drifted(g, rest), Later(rest), err));
    }
  }

  lemma BehindTwice(a: seq<Entry>, b: seq<Entry>, out: Out)
    ensures Behind(a, Behind(b, out)) == Behind(a + b, out)
  {
    assert a + (b + out.log) == (a + b) + out.log;
  }

  lemma FailingOver(e: Env, ts: seq<Turn>, err: Error, log: seq<Entry>)
    requires e.cmds == []
    ensures Failing(e, ts, err) == Out(e, ts, [], false) && Behind(log, Failing(e, ts, err)).log == log
  {
  }

  /** Answers with err, each behind its lowering of the depth. */
  predicate Failures(log: seq<Entry>, err: Error) {
    forall m :: 0 <= m < |log| ==> if m % 2 == 0 then log[m].Lowered? else log[m].Answer? && log[m].outcome == Failed(err)
  }

  lemma OneMoreFails(log: seq<Entry>, id: Id, err: Error)
    requires Failures(log, err)
    ensures Failures([Lowered, Answer(id, Failed(err))] + log, err)
  {
    var all := [Lowered, Answer(id, Failed(err))] + log;
    forall m | 2 <= m < |all| ensures if m % 2 == 0 then all[m].Lowered? else all[m].Answer? && all[m].outcome == Failed(err) {
      assert all[m] == log[m - 2] && m % 2 == (m - 2) % 2;
    }
  }

  lemma LoweringKeeps(e: Env, ts: seq<Turn>)
    ensures var (g, rest) := Lowering(e, ts); var (f, later) := (Drifted(g, rest), Later(rest));
      |later| <= |ts| && (|later| == |ts| ==> f.cmds == e.cmds)
  {
    hide ApplyAll;
  }

  /** It leaves the queue empty and logs nothing else. */
  lemma {:induction false} FailsAll(e: Env, ts: seq<Turn>, err: Error)
    ensures var out := Failing(e, ts, err); out.env.cmds == [] && !out.cut && Failures(out.log, err)
    decreases |ts|, |e.cmds|
  {
    if e.cmds != [] {
      var popped := e.(cmds := e.cmds[1..]);
      LoweringKeeps(popped, ts);
      hide ApplyAll, Lowering, Failures;
      match e.cmds[0]
      case Inject(id) =>
        var (g, rest) := Lowering(popped, ts);
        FailsAll(Drifted(g, rest), Later(rest), err);
        OneMoreFails(Failing(Drifted(g, rest), Later(rest), err).log, id, err);
      case Reconsider => FailsAll(Drifted(popped, ts), Later(ts), err);
    }
  }

  // ---- an injection ----

  function FateFor(end: Typing): Fate {
    match end
    case Gone => PumpGone
    case Cut => Unfinished
    case Withheld(err) => EnterFailed(err)
    case Entered => Submitted
  }

  /** What the worker makes of an injection it takes up at e. */
  function FateOf(e: Env, ts: seq<Turn>, id: Id): Fate {
    var (w, rest) := Waited(Wait(Looking, e), ts);
    if !w.pc.Over? then Unfinished
    else if w.pc.end.Fails? then WaitFailed(w.pc.end.error)
    else
      FateFor(TypedOut(w.env, rest, Typed(id)).0)
  }

  /** The injections answered once it is over: one more, or with those failed behind it every one there is. */
  function DoneAfter(fate: Fate, id: Id, f: Env): nat {
    match fate
    case Unfinished => id
    case WaitFailed(_) => f.issued
    case EnterFailed(_) => f.issued
    case PumpGone => id + 1
    case Submitted => id + 1
  }

  /** What is left of an injection whose wait was over at e. */
  function SubmitOut(e: Env, ts: seq<Turn>, id: Id): Out {
    var (end, out) := TypedOut(e, ts, Typed(id));
    Behind(out.log, EndOut(end, out, id))
  }

  function EndOut(end: Typing, typed: Out, id: Id): Out {
    var (g, rest) := Lowering(typed.env, typed.script);
    match end
    case Cut => typed.(log := [])
    case Gone => Out(g, rest, [Lowered, Answer(id, Failed(AgentExited))], false)
    case Withheld(err) => FailedAllOut(typed.env, typed.script, id, err)
    case Entered => Behind([Lowered, Answer(id, Delivered)], Confirmed(g, rest, 0))
  }

  /** The same from the moment it is taken. */
  function InjectOut(e: Env, ts: seq<Turn>, id: Id): Out {
    var (w, rest) := Waited(Wait(Looking, e), ts);
    Behind(WaitLog(Wait(Looking, e), ts), WaitedOut(w, rest, id))
  }

  function WaitedOut(w: Wait, ts: seq<Turn>, id: Id): Out {
    if !w.pc.Over? then Out(w.env, [], [], true)
    else if w.pc.end.Fails? then FailedAllOut(w.env, ts, id, w.pc.end.error)
    else SubmitOut(w.env, ts, id)
  }

  // ---- the gate ----

  /** What is done on the gate's verdict: only a transition, with auto_clear on, types /clear. */
  function ActedOut(auto: bool, entry: GateEntry, d: Decision, e: Env, ts: seq<Turn>): Out {
    match d
    case HoldQuiet => Out(e, ts, [], false)
    case AllowClear =>
      if entry.Poke? || !auto then Out(e, ts, [], false)
      else if ts == [] then Out(e, ts, [], true)
      else
        var f := ApplyAll(e, ts[0].events);
        Out(f, ts[1..], if f.writerUp then [Clear] else [], false)
    case Nudge =>
      var (end, out) := TypedOut(e, ts, Nudged);
      if end.Entered? then
        var c := Confirmed(out.env, out.script, 0);
        c.(log := out.log + c.log)
      else out
  }

  /** The looks of `consult_gate` before it asks: at the gate, the state and the dialog; and what held it back, if anything. */
  function LookedOut(entry: GateEntry, served: bool, e: Env, ts: seq<Turn>): (Option<GateAnswer>, Out) {
    var d := Drifted(e, ts);
    if d.gateUp then LookedIdle(entry, served, d, Later(ts)) else (Some(GateGone), Out(d, Later(ts), [], false))
  }

  function LookedIdle(entry: GateEntry, served: bool, e: Env, ts: seq<Turn>): (Option<GateAnswer>, Out) {
    var (d, rest) := (Drifted(e, ts), Later(ts));
    if !d.state.value.Idle? then (Some(NotIdle), Out(d, rest, [Peek(d.state.value)], false))
    else
      var f := Drifted(d, rest);
      (if f.dialog.value.Some? then Some(DialogUp) else if entry.Poke? && served then Some(JustServed) else None,
       Out(f, Later(rest), [Peek(Idle), ReadDialog(f.dialog.value)], false))
  }

  /** `consult_gate`: nothing held it back, so the gate is asked and its verdict acted on. */
  function GateOut(auto: bool, entry: GateEntry, served: bool, e: Env, ts: seq<Turn>): (GateAnswer, Out) {
    var (hold, looked) := LookedOut(entry, served, e, ts);
    if hold.Some? then (hold.value, looked)
    else
      var (e4, t4) := (Drifted(looked.env, looked.script), Later(looked.script));
      var out := ActedOut(auto, entry, e4.decision, e4, t4);
      (Ruled(e4.decision), out.(log := looked.log + ([Consult(entry, e4.decision)] + out.log)))
  }

  // ---- the run loop ----

  /** Where the worker stands between two commands. */
  datatype Mark = Mark(env: Env, script: seq<Turn>, log: seq<Entry>, done: nat, halted: bool)

  /** One command of a drain: an injection is taken and handled, a poke dropped. */
  ghost predicate DrainStep(a: Mark, b: Mark) {
    var e, ts := Drifted(a.env, a.script), Later(a.script);
    && !a.halted && e.cmds != []
    && var popped := e.(cmds := e.cmds[1..]);
       if e.cmds[0].Inject? then TakenUp(popped, ts, a, b) else b == Mark(popped, ts, a.log, a.done, false)
  }

  /** The oldest unanswered injection is taken up at e. */
  predicate TakenUp(e: Env, ts: seq<Turn>, a: Mark, b: Mark) {
    var out := InjectOut(e, ts, a.done);
    b == Mark(out.env, out.script, a.log + ([Took(a.done)] + out.log), DoneAfter(FateOf(e, ts, a.done), a.done, out.env), out.cut)
  }

  ghost predicate DrainCourse(marks: seq<Mark>) {
    marks != [] && forall i :: 0 <= i < |marks| - 1 ==> DrainStep(marks[i], marks[i + 1])
  }

  /** `drain_then_consult`: the queue is drained until it is found empty; only if no injection was in it is the gate asked. */
  ghost predicate DrainEnds(auto: bool, entry: GateEntry, a: Mark, z: Mark, b: Mark) {
    if z.halted then b == z
    else
      var e, ts := Drifted(z.env, z.script), Later(z.script);
      && e.cmds == []
      && if z.log != a.log then b == Mark(e, ts, z.log, z.done, false) else GateLeft(auto, entry, e, ts, z, b)
  }

  ghost predicate GateLeft(auto: bool, entry: GateEntry, e: Env, ts: seq<Turn>, a: Mark, b: Mark) {
    var out := GateOut(auto, entry, Judge(auto, a.log).held, e, ts).1;
    b == Mark(out.env, out.script, a.log + out.log, a.done, out.cut)
  }

  ghost predicate DrainedThrough(auto: bool, entry: GateEntry, a: Mark, marks: seq<Mark>, b: Mark) {
    DrainCourse(marks) && marks[0] == a && DrainEnds(auto, entry, a, marks[|marks| - 1], b)
  }

  ghost predicate Drained(auto: bool, entry: GateEntry, a: Mark, b: Mark) {
    exists marks :: DrainedThrough(auto, entry, a, marks, b)
  }

  /** Everything queued is failed. */
  predicate QueueFailed(err: Error, a: Mark, b: Mark) {
    var out := FailedOut(a.env, a.script, err);
    b == Mark(out.env, out.script, a.log + out.log, out.env.issued, false)
  }

  /** What follows when the state just seen follows `was`: an agent that is gone or restarting fails what is queued, the
      end of a turn drains the queue and asks the gate, and nothing else does anything. */
  ghost predicate Reacted(auto: bool, was: AgentState, now: AgentState, a: Mark, b: Mark) {
    match now
    case Exited => QueueFailed(AgentExited, a, b)
    case Restarting => QueueFailed(AgentRestarted, a, b)
    case Idle => if was.Working? then Drained(auto, Transition, a, b) else b == a
    case _ => b == a
  }

  /** After a dialog has gone: unless the state moves while the flag settles, the queue is drained and the gate poked. */
  ghost predicate Reconsidered(auto: bool, a: Mark, b: Mark) {
    var slept := Slept(a.env, a.script, UNBLOCK_SETTLE);
    if slept.cut then b == Mark(slept.env, slept.script, a.log, a.done, true)
    else
      var m := Mark(Drifted(slept.env, slept.script), Later(slept.script), a.log, a.done, false);
      if Changed(m.env, Debounced) then b == m else Drained(auto, Poke, m, b)
  }

  /** What a change of a watch leads to, its change having been taken at a. */
  ghost predicate Turned(auto: bool, w: Branch, a: Mark, b: Mark) {
    var e, ts := MarkedSeen(Drifted(a.env, a.script), w), Later(a.script);
    match w
    case Debounced =>
      Reacted(auto, Judge(auto, a.log).last, e.state.value, Mark(e, ts, a.log + [Moved, Saw(e.state.value)], a.done, false), b)
    case Epoch => QueueFailed(AgentRestarted, Mark(e, ts, a.log, a.done, false), b)
    case Dialogs =>
      var m := Mark(e, ts, a.log + [ReadDialog(e.dialog.value)], a.done, false);
      if e.dialog.value.Some? then b == m else Reconsidered(auto, m, b)
    case _ => false
  }

  /** What the branch taken leads to: m is where the select was polled. */
  ghost predicate Took1(auto: bool, w: Branch, m: Mark, b: Mark, leave: Option<Leave>) {
    if w.Commands? then
      if m.env.cmds == [] then leave == Some(NoSenders) && b == m
      else
        var popped := m.env.(cmds := m.env.cmds[1..]);
        leave == None && if m.env.cmds[0].Inject? then TakenUp(popped, m.script, m, b) else GateLeft(auto, Poke, popped, m.script, m, b)
    else if !Unseen(m.env, w) then leave == Some(WatchClosed(w)) && b == m
    else leave == None && Turned(auto, w, m.(env := MarkedSeen(m.env, w)), b)
  }

  /** One pass of the run loop leads from a to b: a poll and what it leads to, or the end of the script. */
  ghost predicate Passes(auto: bool, a: Mark, b: Mark, leave: Option<Leave>) {
    && !a.halted
    && if a.script == [] then b == a.(halted := true) && leave.None?
       else
         var m := a.(env := Drifted(a.env, a.script), script := Later(a.script));
         var w := Polled(m.env, Commands, m.env.cmds != [] || m.env.sendersGone, a.script[0].pick);
         if w.None? then b == m && leave.None? else Took1(auto, w.value, m, b, leave)
  }

  /** The run is a sequence of passes, none of which but the last leaves. */
  ghost predicate Course(auto: bool, marks: seq<Mark>, leave: Option<Leave>) {
    && marks != []
    && forall i :: 0 <= i < |marks| - 1 ==> Passes(auto, marks[i], marks[i + 1], if i == |marks| - 2 then leave else None)
  }

  lemma CourseNext(auto: bool, marks: seq<Mark>, b: Mark, leave: Option<Leave>)
    requires Course(auto, marks, None) && Passes(auto, marks[|marks| - 1], b, leave)
    ensures Course(auto, marks + [b], leave)
  {
    hide Passes;
    var all := marks + [b];
    forall i | 0 <= i < |all| - 1 ensures Passes(auto, all[i], all[i + 1], if i == |all| - 2 then leave else None) {
      if i < |marks| - 1 {
        assert Passes(auto, marks[i], marks[i + 1], if i == |marks| - 2 then None else None);
      } else {
        assert all[i] == marks[i] && all[i + 1] == b;
      }
    }
  }

  /** A step of the drain, once the others have acted. */
  lemma DrainStepFrom(z: Mark, a: Mark, b: Mark)
    requires !z.halted && a == z.(env := Drifted(z.env, z.script), script := Later(z.script)) && a.env.cmds != []
    requires var popped := a.env.(cmds := a.env.cmds[1..]);
      if a.env.cmds[0].Inject? then TakenUp(popped, a.script, a, b) else b == a.(env := popped)
    ensures DrainStep(z, b) && (a.env.cmds[0].Inject? ==> |b.log| > |z.log|)
  {
    hide InjectOut, FateOf, Drifted;
  }

  lemma DrainNext(marks: seq<Mark>, b: Mark)
    requires DrainCourse(marks) && DrainStep(marks[|marks| - 1], b)
    ensures DrainCourse(marks + [b])
  {
    hide DrainStep;
    var all := marks + [b];
    forall i | 0 <= i < |all| - 1 ensures DrainStep(all[i], all[i + 1]) {
      if i < |marks| - 1 {
        assert DrainStep(marks[i], marks[i + 1]);
      } else {
        assert all[i] == marks[i] && all[i + 1] == b;
      }
    }
  }

  /** Why the loop may be left. */
  predicate MayLeave(leave: Leave, e: Env) {
    match leave
    case NoSenders => e.sendersGone && e.cmds == []
    case WatchClosed(b) => Closed(e, b) && !Unseen(e, b)
  }

  // ---- what an injection's fate depends on ----

  /** Events that keep an idle agent idle and its terminal writable: no state but Idle, no exit or restart, nothing hung up,
      no dialog, no pump gone. */
  predicate Calm(evs: seq<Event>) {
    forall i :: 0 <= i < |evs| ==>
      !Detaches(evs[i]) && !evs[i].RaiseDialog? && !evs[i].DropWriter? && (evs[i].SetState? ==> evs[i].state == Idle)
  }

  /** An idle agent without a dialog, with its pump. */
  predicate AtRest(e: Env) { Attached(e) && e.state.value.Idle? && e.dialog.value.None? && e.writerUp }

  lemma {:induction false} StaysAtRest(e: Env, evs: seq<Event>)
    requires AtRest(e) && Calm(evs)
    ensures AtRest(ApplyAll(e, evs))
  {
    if evs != [] {
      StaysAtRest(e, evs[..|evs| - 1]);
      var f := ApplyAll(e, evs[..|evs| - 1]);
      assert AtRest(Apply(f, evs[|evs| - 1]));
    }
  }

  predicate CalmScript(ts: seq<Turn>) { forall i :: 0 <= i < |ts| ==> Calm(ts[i].events) }

  /** An injection to an agent that is and stays idle, undisturbed, is typed, submitted and answered Delivered,
      if the script is long enough to tell. */
  lemma RestDelivers(e: Env, ts: seq<Turn>, id: Id)
    requires AtRest(e) && CalmScript(ts)
    ensures FateOf(e, ts, id).Submitted? || FateOf(e, ts, id).Unfinished?
  {
    RestWaits(Wait(Looking, e), ts);
    var (w, rest) := Waited(Wait(Looking, e), ts);
    if w.pc.Over? { RestTypes(w.env, rest, Typed(id)); }
  }

  lemma {:induction false} RestWaits(w: Wait, ts: seq<Turn>)
    requires AtRest(w.env) && CalmScript(ts)
    requires match w.pc case Looking => true case Reading(idle) => idle case Timing(idle, read) => idle && read.None?
      case Over(end) => end.MayType? case _ => false
    ensures var (x, rest) := Waited(w, ts); AtRest(x.env) && CalmScript(rest) && (x.pc.Over? ==> x.pc.end.MayType?)
    decreases |ts|
  {
    if !w.pc.Over? && ts != [] {
      StaysAtRest(w.env, ts[0].events);
      var n := Step(w, ts[0]);
      assert CalmScript(ts[1..]);
      hide Calm, ApplyAll;
      RestWaits(n, ts[1..]);
    }
  }

  lemma {:induction false} RestSleeps(e: Env, until: nat, ts: seq<Turn>)
    requires AtRest(e) && CalmScript(ts)
    ensures var out := SleepUntil(e, until, ts); AtRest(out.env) && CalmScript(out.script)
    decreases |ts|
  {
    if e.now < until && ts != [] {
      StaysAtRest(e, ts[0].events);
      RestSleeps(ApplyAll(e, ts[0].events), until, ts[1..]);
    }
  }

  lemma RestDrifts(e: Env, ts: seq<Turn>)
    requires AtRest(e) && CalmScript(ts)
    ensures AtRest(Drifted(e, ts)) && CalmScript(Later(ts))
  {
    if ts != [] { StaysAtRest(e, ts[0].events); }
  }

  lemma RestTypes(e: Env, ts: seq<Turn>, text: Entry)
    requires AtRest(e) && CalmScript(ts)
    ensures var end := TypedOut(e, ts, text).0; end.Entered? || end.Cut?
  {
    if ts != [] {
      RestDrifts(e, ts);
      var f := Drifted(e, ts);
      RestDrifts(f, ts[1..]);
      var d := Drifted(f, ts[1..]);
      RestSleeps(d, d.now + SUBMIT_DELAY, Later(ts[1..]));
      var slept := Slept(f, ts[1..], SUBMIT_DELAY);
      hide AtRest, CalmScript;
      RestPresses(slept.env, slept.script);
    }
  }

  lemma RestPresses(e: Env, ts: seq<Turn>)
    requires AtRest(e) && CalmScript(ts)
    ensures Pressed(e, ts).0.None?
  {
    RestDrifts(e, ts);
    if Later(ts) != [] { RestDrifts(Drifted(e, ts), Later(ts)); }
  }

  predicate Stands(log: seq<Entry>, i: nat, part: seq<Entry>) { i + |part| <= |log| && log[i..i + |part|] == part }

  /** From some place on the log has the text, Enter pressed on a clear dialog, and the answer, in one stretch. */
  ghost predicate SubmittedIn(log: seq<Entry>, from: nat, id: Id) {
    exists i: nat, now: nat :: from <= i && Stands(log, i, Submission(id, now))
  }

  function Submission(id: Id, now: nat): seq<Entry> { [Typed(id), ReadDialog(None), Enter(now), Lowered, Answer(id, Delivered)] }

  ghost predicate FailedIn(log: seq<Entry>, from: nat, id: Id, err: Error) {
    exists i: nat :: from <= i && Stands(log, i, [Lowered, Answer(id, Failed(err))])
  }

  /** An injection that a pass or a drain takes up is answered as its fate says: if it is submitted, its text, its Enter and
      its answer stand in the log; if it fails after a wait or a withheld Enter, so does everything queued. */
  lemma AnsweredAsDecided(e: Env, ts: seq<Turn>, a: Mark, b: Mark)
    requires TakenUp(e, ts, a, b)
    ensures match FateOf(e, ts, a.done)
      case Unfinished => b.halted && b.done == a.done
      case WaitFailed(err) => FailedIn(b.log, |a.log|, a.done, err) && b.env.cmds == [] && b.done == b.env.issued
      case EnterFailed(err) => FailedIn(b.log, |a.log|, a.done, err) && b.env.cmds == [] && b.done == b.env.issued
      case PumpGone => FailedIn(b.log, |a.log|, a.done, AgentExited) && b.done == a.done + 1
      case Submitted => SubmittedIn(b.log, |a.log|, a.done) && b.done == a.done + 1
  {
    var (w, rest) := Waited(Wait(Looking, e), ts);
    var waited := WaitLog(Wait(Looking, e), ts);
    var pre := a.log + ([Took(a.done)] + waited);
    assert b.log == pre + WaitedOut(w, rest, a.done).log;
    hide Waited, WaitLog;
    if w.pc.Over? && w.pc.end.Fails? {
      FailedAllIs(w.env, rest, a.done, w.pc.end.error, pre);
    } else if w.pc.Over? {
      SubmitIs(w.env, rest, a.done, pre);
    }
  }

  lemma FailedAllIs(e: Env, ts: seq<Turn>, id: Id, err: Error, pre: seq<Entry>)
    ensures var out := FailedAllOut(e, ts, id, err);
      out.env.cmds == [] && !out.cut && FailedIn(pre + out.log, |pre|, id, err)
  {
    var (g, rest) := Lowering(e, ts);
    FailsAll(Drifted(g, rest), Later(rest), err);
    var all := pre + FailedAllOut(e, ts, id, err).log;
    assert Stands(all, |pre|, [Lowered, Answer(id, Failed(err))]);
    hide Lowering, Failing, Drifted;
  }

  lemma SubmitIs(e: Env, ts: seq<Turn>, id: Id, pre: seq<Entry>)
    ensures var all := pre + SubmitOut(e, ts, id).log;
      match TypedOut(e, ts, Typed(id)).0
      case Cut => SubmitOut(e, ts, id).cut
      case Gone => FailedIn(all, |pre|, id, AgentExited)
      case Withheld(err) => FailedIn(all, |pre|, id, err) && SubmitOut(e, ts, id).env.cmds == []
      case Entered => SubmittedIn(all, |pre|, id)
  {
    var (end, out) := TypedOut(e, ts, Typed(id));
    var whole := SubmitOut(e, ts, id);
    var all := pre + whole.log;
    TypedIs(e, ts, id);
    hide TypedOut, Lowering, FailedAllOut, Confirmed;
    match end
    case Cut =>
    case Gone => assert Stands(all, |pre|, [Lowered, Answer(id, Failed(AgentExited))]);
    case Withheld(err) =>
      FailedAllIs(out.env, out.script, id, err, pre + out.log);
      assert all == (pre + out.log) + FailedAllOut(out.env, out.script, id, err).log;
    case Entered => assert Stands(all, |pre|, Submission(id, out.log[2].now));
  }

  lemma TypedIs(e: Env, ts: seq<Turn>, id: Id)
    ensures var (end, out) := TypedOut(e, ts, Typed(id));
      && (end.Gone? ==> out.log == []) && (end.Cut? <==> out.cut)
      && (end.Entered? ==> |out.log| == 3 && out.log[2].Enter? && out.log == [Typed(id), ReadDialog(None), out.log[2]])
  {
    hide SleepUntil, ApplyAll;
  }

  /** So one taken up at an agent that is and stays idle, undisturbed, is typed, submitted and answered Delivered. */
  lemma RestSubmits(e: Env, ts: seq<Turn>, a: Mark, b: Mark)
    requires AtRest(e) && CalmScript(ts) && TakenUp(e, ts, a, b)
    ensures SubmittedIn(b.log, |a.log|, a.done) || b.halted
  {
    RestDelivers(e, ts, a.done);
    AnsweredAsDecided(e, ts, a, b);
    hide *;
  }

  /** And conversely an injection only fails for a cause: its wait ended with that error, the pump is gone, or Enter was
      withheld from a dialog or a pump that went away meanwhile. */
  lemma FailsForACause(e: Env, ts: seq<Turn>, id: Id)
    ensures var (w, rest) := Waited(Wait(Looking, e), ts);
      match FateOf(e, ts, id)
      case WaitFailed(err) => w.pc == Over(Fails(err))
      case PumpGone => w.pc == Over(MayType) && rest != [] && !ApplyAll(w.env, rest[0].events).writerUp
      case EnterFailed(err) =>
        w.pc == Over(MayType) &&
        var out := TypedOut(w.env, rest, Typed(id)).1;
        if err.Blocked? then out.env.dialog.value.Some? else err.AgentExited? && !out.env.writerUp
      case Submitted => w.pc == Over(MayType) && TypedOut(w.env, rest, Typed(id)).1.env.writerUp
      case Unfinished => !w.pc.Over? || TypedOut(w.env, rest, Typed(id)).1.script == []
  {
    var (w, rest) := Waited(Wait(Looking, e), ts);
    TypingEnds(w.env, rest, Typed(id));
    hide TypedOut, Waited;
  }

  lemma TypingEnds(e: Env, ts: seq<Turn>, text: Entry)
    ensures var (end, out) := TypedOut(e, ts, text);
      match end
      case Gone => ts != [] && !ApplyAll(e, ts[0].events).writerUp
      case Withheld(err) => if err.Blocked? then out.env.dialog.value.Some? else err.AgentExited? && !out.env.writerUp
      case Entered => out.env.writerUp
      case Cut => out.cut && out.script == []
  {
    if ts != [] {
      var slept := Slept(ApplyAll(e, ts[0].events), ts[1..], SUBMIT_DELAY);
      PressEnds(slept.env, slept.script);
      hide Pressed, SleepUntil, ApplyAll;
    }
  }

  lemma PressEnds(e: Env, ts: seq<Turn>)
    ensures var (err, out) := Pressed(e, ts);
      if out.cut then out.script == [] && err.None?
      else if err.None? then out.env.writerUp
      else if err.value.Blocked? then out.env.dialog.value.Some? else err.value.AgentExited? && !out.env.writerUp
  {
  }
}
