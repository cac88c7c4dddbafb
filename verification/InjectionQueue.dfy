/** The per-agent injection queue worker, run against an arbitrary environment on other threads.
    The environment may act before every access the worker makes of anything shared. Its acts, and which ready branch of
    a select is taken, are read from a script, so a contract that holds for every script holds for every schedule. */
module InjectionQueue {
  import opened AgentStates
  import opened InjectionEnv
  import opened InjectionLog
  import opened InjectionRun
  import opened InjectionWait
  import opened Optional

  /** A delivery still waiting for Working has seen only other states since. */
  predicate Patient(v: Verdict) { v.awaiting ==> v.last != Working && (v.busy || v.before != Working) }

  function AfterAnswer(auto: bool, v: Verdict, id: Id, outcome: Outcome): Verdict {
    Rule(auto, Rule(auto, v, Lowered), Answer(id, outcome))
  }

  function EndOf(err: Option<Error>): WaitEnd { if err.Some? then Fails(err.value) else MayType }

  predicate SameCounts(v: Verdict, w: Verdict) { v.asks == w.asks && v.takes == w.takes }

  lemma SawVerdict(auto: bool, v: Verdict, s: AgentState)
    requires v.ok && Patient(v) && !v.due.MustLower? && !v.due.MayAnswer?
    ensures var w := Rule(auto, v, Saw(s));
      w.ok && Patient(w) && w.due.Nothing? && w.last == s && w.before == v.last && !w.busy && !w.consulted && w.pressed == v.pressed && w.held == v.held && SameCounts(v, w)
  {
  }

  lemma SawLog(auto: bool, log: seq<Entry>, s: AgentState)
    ensures Judge(auto, log + [Saw(s)]) == Rule(auto, Judge(auto, log), Saw(s)) && Answered(log + [Saw(s)]) == Answered(log)
  {
    assert (log + [Saw(s)])[..|log|] == log;
  }

  lemma AnswerVerdict(auto: bool, v: Verdict, id: Id, outcome: Outcome)
    requires v.ok && Patient(v) && !v.due.MayAnswer? && (v.due.MustLower? ==> outcome == Failed(Blocked))
    requires outcome.Delivered? ==> v.block == AfterEnter(Injection(id), 0) && v.last != Working
    ensures var w := AfterAnswer(auto, v, id, outcome);
      && w.ok && Patient(w) && w.due.Nothing? && w.last == v.last && w.block == v.block && w.pressed == v.pressed
      && SameCounts(v, w) && w.held == (v.held || outcome.Delivered?)
  {
  }

  lemma AnswerLog(auto: bool, log: seq<Entry>, id: Id, outcome: Outcome)
    ensures Judge(auto, log + [Lowered, Answer(id, outcome)]) == AfterAnswer(auto, Judge(auto, log), id, outcome)
    ensures Answered(log + [Lowered, Answer(id, outcome)]) == Answered(log) + [id]
  {
    var mid := log + [Lowered];
    var all := log + [Lowered, Answer(id, outcome)];
    assert all[..|log| + 1] == mid && mid[..|log|] == log;
  }

  class QueueWorker {
    const auto: bool
    var env: Env
    var script: seq<Turn>
    var halted: bool
    var prev: AgentState
    var served: bool
    ghost var holding: bool
    ghost var done: nat
    ghost var log: seq<Entry>
    ghost var v: Verdict

    /** The log keeps the rules, and the worker's own fields agree with it. */
    ghost predicate Book()
      reads `log, `v, `done, `prev, `served
    {
      v == Judge(auto, log) && Answered(log) == Range(0, done) && v.ok && prev == v.last && v.held == served && Patient(v)
    }

    /** What the others cannot break. Only the end of the script stops a run from being observed. */
    ghost predicate Sound()
      reads this
    {
      Accounts(env, done, holding) && Timely(env) && v.pressed <= env.now && (halted ==> script == [])
    }

    ghost predicate Core()
      reads this
    {
      Book() && Sound()
    }

    ghost predicate Valid()
      reads this
    {
      Core() && !v.due.MustLower? && !v.due.MayAnswer?
    }

    ghost function Here(): Mark
      reads `env, `script, `log, `done, `halted
    {
      Mark(env, script, log, done, halted)
    }

    /** The state is what a stretch of the worker's code is said to leave. */
    twostate predicate Lands(out: Out)
      reads this
    {
      env == out.env && script == out.script && log == old(log) + out.log && halted == out.cut
    }

    /** Time passed, the log grew. */
    twostate predicate Went()
      reads this
    {
      |script| <= |old(script)| && Onward(old(env), env) && old(log) <= log
    }

    /** A worker over an environment nobody has enqueued into yet. */
    constructor (auto: bool, env: Env, script: seq<Turn>)
      requires env.cmds == [] && env.depth == env.coming == env.issued == 0 && Timely(env)
      ensures Valid() && this.env == env && this.script == script && this.auto == auto && log == [] && !holding && done == 0
      ensures !halted
    {
      this.auto := auto;
      this.env := env;
      this.script := script;
      halted, prev, served := false, Starting, false;
      holding, done, log, v := false, 0, [], Start();
    }

    /** Adds an entry that is true of what is there now. */
    ghost method Note(e: Entry)
      requires Core() && Lawful(auto, v, e) && !e.Answer? && !e.Saw? && !e.Moved? && Honest(e, env)
      modifies `log, `v
      ensures Core() && log == old(log) + [e] && v == Rule(auto, old(v), e)
    {
      hide Accounts, Range, Judge;
      JudgeAppend(auto, log, e);
      assert (log + [e])[..|log|] == log;
      log := log + [e];
      v := Rule(auto, v, e);
    }

    /** A change of the debounced state was noticed: the agent is no longer served. */
    method NoticeMove()
      requires Valid()
      modifies `served, `log, `v
      ensures Valid() && log == old(log) + [Moved] && v == Rule(auto, old(v), Moved) && !served
    {
      hide Accounts, Range, Judge;
      JudgeAppend(auto, log, Moved);
      assert (log + [Moved])[..|log|] == log;
      log := log + [Moved];
      v := Rule(auto, v, Moved);
      served := false;
    }

    ghost method NoteTook(id: Id)
      requires Valid()
      modifies `log, `v
      ensures Valid() && log == old(log) + [Took(id)] && v.takes == old(v.takes) + 1 && v.asks == old(v.asks)
    {
      Note(Took(id));
    }

    lemma Settled()
      requires Sound() && !holding && env.cmds == []
      ensures done == env.issued
    {
    }

    /** What the others do before the worker's next access. */
    method Drift()
      requires Sound()
      modifies `env, `script
      ensures Sound() && env == Drifted(old(env), old(script)) && script == Later(old(script)) && Onward(old(env), env)
    {
      if script != [] {
        AccountsApplyAll(env, script[0].events, done, holding);
        OnwardAll(env, script[0].events);
        env := ApplyAll(env, script[0].events);
        script := script[1..];
      }
    }

    /** One await: the others act and some branch is picked; at the end of the script the run stops being observed. */
    method Yield() returns (pick: Branch)
      requires Sound() && !halted
      modifies `env, `script, `halted
      ensures Sound() && Onward(old(env), env) && (halted <==> old(script) == [])
      ensures halted ==> env == old(env) && script == []
      ensures !halted ==> script == old(script)[1..] && env == ApplyAll(old(env), old(script)[0].events) && pick == old(script)[0].pick
    {
      pick := Timer;
      if script == [] {
        halted := true;
      } else {
        pick := script[0].pick;
        Drift();
      }
    }

    /** `tokio::time::sleep`. */
    method Sleep(ms: nat)
      requires Sound() && !halted
      modifies `env, `script, `halted
      ensures Sound() && |script| <= |old(script)| && Onward(old(env), env)
      ensures Slept(old(env), old(script), ms) == Out(env, script, [], halted)
    {
      hide Accounts, ApplyAll;
      Drift();
      var until := env.now + ms;
      ghost var e, ts := env, script;
      while env.now < until && !halted
        invariant Sound() && |script| <= |old(script)| && Onward(old(env), env)
        invariant if halted then env.now < until && script == [] && SleepUntil(e, until, ts) == Out(env, [], [], true)
                  else SleepUntil(env, until, script) == SleepUntil(e, until, ts)
        decreases |script|, !halted
      {
        var _ := Yield();
      }
    }

    /** `writer.send`: waits for its turn, and fails when the pump is gone. What is written is noted right after. */
    method Send() returns (ok: bool)
      requires Sound() && !halted
      modifies `env, `script, `halted
      ensures Sound() && |script| <= |old(script)| && Onward(old(env), env) && (!halted ==> |script| < |old(script)|)
      ensures ok <==> !halted && env.writerUp
      ensures if old(script) == [] then halted && env == old(env) && script == []
              else !halted && env == ApplyAll(old(env), old(script)[0].events) && script == old(script)[1..]
    {
      var _ := Yield();
      ok := !halted && env.writerUp;
    }

    /** Notes both. */
    ghost method Record(outcome: Outcome)
      requires done > 0 && v == Judge(auto, log) && Answered(log) == Range(0, done - 1) && v.ok && prev == v.last && served == (v.held || outcome.Delivered?)
      requires Patient(v) && !v.due.MayAnswer? && (v.due.MustLower? ==> outcome == Failed(Blocked))
      requires outcome.Delivered? ==> v.block == AfterEnter(Injection(done - 1), 0) && v.last != Working
      modifies `log, `v
      ensures Book() && v.due.Nothing? && log == old(log) + [Lowered, Answer(done - 1, outcome)]
      ensures v.last == old(v.last) && v.block == old(v.block) && v.pressed == old(v.pressed) && SameCounts(old(v), v)
    {
      AnswerVerdict(auto, v, done - 1, outcome);
      AnswerLog(auto, log, done - 1, outcome);
      hide Judge, Patient, AfterAnswer, Rule, Lawful;
      v := AfterAnswer(auto, v, done - 1, outcome);
      log := log + [Lowered, Answer(done - 1, outcome)];
    }

    /** Lowers the depth, then answers the injection in hand. */
    method Resolve(outcome: Outcome)
      requires Core() && holding && !v.due.MayAnswer?
      requires v.due.MustLower? ==> outcome == Failed(Blocked)
      requires outcome.Delivered? ==> v.block == AfterEnter(Injection(done), 0) && v.last != Working
      modifies `env, `script, `served, `log, `v, `holding, `done
      ensures Valid() && !holding && done == old(done) + 1
      ensures |script| <= |old(script)| && Onward(old(env), env) && (|script| == |old(script)| ==> env.cmds == old(env.cmds))
      ensures (env, script) == Lowering(old(env), old(script))
      ensures log == old(log) + [Lowered, Answer(old(done), outcome)]
      ensures v.last == old(v.last) && v.block == old(v.block) && SameCounts(old(v), v)
    {
      hide Accounts, Judge, Patient, ApplyAll, Answered, Range, Rule;
      Drift();
      AccountsLower(env, done);
      env := env.(depth := env.depth - 1);
      holding, done := false, done + 1;
      if outcome.Delivered? { served := true; }
      Drift();
      Record(outcome);
    }

    /** Takes the next command off the queue; an injection is then in hand, and it is the oldest unanswered one. */
    method Pop() returns (cmd: Cmd)
      requires Valid() && !holding && env.cmds != []
      modifies `env, `holding
      ensures Valid() && cmd == old(env.cmds[0]) && env == old(env).(cmds := old(env.cmds[1..]))
      ensures holding == cmd.Inject? && (holding ==> cmd.id == done)
    {
      IdsPop(env.cmds);
      cmd := env.cmds[0];
      if cmd.Inject? {
        RangeHead(done, env.issued);
        assert Ids(env.cmds)[0] == cmd.id;
        assert Ids(env.cmds[1..]) == Ids(env.cmds)[1..] == Range(done + 1, env.issued);
      }
      holding := cmd.Inject?;
      env := env.(cmds := env.cmds[1..]);
    }

    /** `fail_queued`: everything on the queue is answered with the same error, in order, until it is found empty;
        every injection issued so far is then answered. */
    method FailQueued(err: Error)
      requires Valid() && !holding && !halted
      modifies `env, `script, `served, `log, `v, `holding, `done
      ensures Valid() && !holding && Went() && env.cmds == [] && done == env.issued && done >= old(done)
      ensures Lands(FailedOut(old(env), old(script), err)) && v.last == old(v.last) && SameCounts(old(v), v)
    {
      hide Accounts, Timely, Judge, Patient, ApplyAll, Answered, Range, Rule, Failing, Lowering;
      Drift();
      while env.cmds != []
        invariant Valid() && !holding && Went() && v.last == old(v.last) && SameCounts(old(v), v) && done >= old(done)
        invariant LeadsOn(old(log), FailedOut(old(env), old(script), err), log, Failing(env, script, err))
        decreases |script|, |env.cmds|
      {
        FailingStep(env, script, err, log);
        var cmd := Pop();
        if cmd.Inject? { Resolve(Failed(err)); }
        Drift();
      }
      FailingOver(env, script, err, log);
      AllAnswered(env, done);
    }

    // ---- handling one injection ----

    ghost method RecordLook()
      requires v == Judge(auto, log) && Answered(log) == Range(0, done) && v.ok && v.held == served && Patient(v)
      requires !v.due.MustLower? && !v.due.MayAnswer?
      modifies `log, `v
      ensures Book() && log == old(log) + [Saw(prev)] && v == Rule(auto, old(v), Saw(prev)) && v.due.Nothing? && v.pressed == old(v.pressed)
      ensures v.last == prev && v.before == old(v.last) && !v.busy && !v.consulted && SameCounts(old(v), v)
    {
      SawVerdict(auto, v, prev);
      SawLog(auto, log, prev);
      hide Judge, Range, Rule, Patient, Answered;
      log := log + [Saw(prev)];
      v := Rule(auto, v, Saw(prev));
    }

    /** Reads the debounced state and marks it seen. */
    method LookAtState()
      requires Valid()
      modifies `env, `prev, `log, `v
      ensures Valid() && env == MarkedSeen(old(env), Debounced) && prev == env.state.value && log == old(log) + [Saw(prev)]
      ensures v == Rule(auto, old(v), Saw(prev)) && v.last == prev && SameCounts(old(v), v)
      ensures v.before == old(v.last) && !v.busy && !v.consulted
    {
      hide Accounts, Judge, Range;
      prev := env.state.value;
      RecordLook();
      hide Rule, Patient;
      SeenAccounts(env, Debounced, done, holding);
      env := MarkedSeen(env, Debounced);
    }

    /** `dialog_grace`: reads the dialog, then the clock. Some(Blocked) exactly when the dialog's grace has run out by then. */
    method DialogGrace(idle: bool) returns (err: Option<Error>, dialog: Option<nat>)
      requires Valid() && !halted
      modifies `env, `script, `halted, `log, `v
      ensures Core() && Went() && !v.due.MayAnswer? && SameCounts(old(v), v) && v.last == old(v.last)
      ensures !halted ==> |script| < |old(script)|
      ensures halted ==> Valid() && script == [] && CutShort(old(log), Wait(Reading(idle), old(env)), old(script), log, env)
      ensures !halted ==> |log| > |old(log)| && log[|old(log)|] == ReadDialog(dialog) && (err.Some? <==> GraceOver(dialog, env.now))
      ensures !halted ==> Tells(old(log), Wait(Reading(idle), old(env)), old(script),
        log + (if Weighed(env, idle, dialog).Marking? then [Parked] else []), Wait(Weighed(env, idle, dialog), env), script)
      ensures !halted && err.None? ==> Valid() && v.clear == dialog.None? && (v.due.InGrace? || (v.due.Read? && v.due.raised.None?))
      ensures err.Some? ==> err.value == Blocked && v.due.MustLower? && !halted
    {
      hide Book, Sound, ApplyAll, Waited, WaitLog, MarkedSeen, Looked, Woken;
      err, dialog := None, None;
      ghost var e, ts := env, script;
      var _ := Yield();
      WaitedStep(Wait(Reading(idle), e), ts, env, log);
      if halted { return; }
      dialog := env.dialog.value;
      Note(ReadDialog(dialog));
      e, ts := env, script;
      var _ := Yield();
      WaitedStep(Wait(Timing(idle, dialog), e), ts, env, log);
      if halted || dialog.None? { return; }
      Note(Timed(env.now));
      if env.now >= dialog.value + BLOCKED_GRACE { err := Some(Blocked); }
    }

    /** `wait_debounced_idle`: the error to fail the injection with, or None once it may be typed. On every schedule it
        ends where, how and when the machine of the wait does, which is what bounds it behind a dialog. */
    method WaitDebouncedIdle() returns (err: Option<Error>)
      requires Valid() && !halted
      modifies `env, `script, `halted, `prev, `served, `log, `v
      ensures Core() && Went() && !v.due.MayAnswer? && SameCounts(old(v), v)
      ensures if halted then Valid() && script == [] && CutShort(old(log), Wait(Looking, old(env)), old(script), log, env)
              else Waited(Wait(Looking, old(env)), old(script)) == (Wait(Over(EndOf(err)), env), script) && |script| < |old(script)|
      ensures log == old(log) + WaitLog(Wait(Looking, old(env)), old(script))
      ensures v.due.MustLower? ==> err == Some(Blocked) && !halted
      ensures !halted && err.None? ==> Valid() && v.clear && v.last == Idle
    {
      hide Book, Sound, ApplyAll, Waited, Rule;
      var over := false;
      err := None;
      while !over && !halted
        invariant Core() && Went() && SameCounts(old(v), v) && (!over ==> Valid())
        invariant halted || Tells(old(log), Wait(Looking, old(env)), old(script), log, Wait(if over then Over(EndOf(err)) else Looking, env), script)
        invariant halted ==> !over && script == [] && CutShort(old(log), Wait(Looking, old(env)), old(script), log, env)
        invariant over ==> !v.due.MayAnswer? && |script| < |old(script)| && (v.due.MustLower? ==> err == Some(Blocked))
        invariant over && err.None? ==> Valid() && v.clear && v.last == Idle
        decreases |script|, !over, !halted
      {
        over, err := Round();
      }
      if over { WaitedOver(Wait(Over(EndOf(err)), env), script); }
    }

    /** One round of its loop. */
    method Round() returns (over: bool, err: Option<Error>)
      requires Valid() && !halted
      modifies `env, `script, `halted, `prev, `served, `log, `v
      ensures Core() && Went() && SameCounts(old(v), v)
      ensures !halted ==> |script| < |old(script)|
      ensures halted ==> !over && Valid() && script == [] && CutShort(old(log), Wait(Looking, old(env)), old(script), log, env)
      ensures !halted ==>
        Tells(old(log), Wait(Looking, old(env)), old(script), log, Wait(if over then Over(EndOf(err)) else Looking, env), script)
      ensures !over ==> Valid()
      ensures over ==> !v.due.MayAnswer? && (v.due.MustLower? ==> err == Some(Blocked))
      ensures over && err.None? ==> Valid() && v.clear && v.last == Idle
    {
      hide Book, Sound, ApplyAll, Waited, Rule;
      over, err := false, None;
      ghost var e, ts := env, script;
      var _ := Yield();
      WaitedStep(Wait(Looking, e), ts, env, log);
      if halted { return; }
      LookAtState();
      hide SameCounts;
      if prev == Exited { return true, Some(AgentExited); }
      if prev == Restarting { return true, Some(AgentRestarted); }
      var dialog: Option<nat>;
      err, dialog := DialogGrace(prev == Idle);
      if halted { return; }
      if err.Some? || (prev == Idle && dialog.None?) { return true, err; }
      err := Park(dialog);
      over := err.Some?;
    }

    /** Marks the dialog for seen and goes to sleep. */
    method Park(dialog: Option<nat>) returns (err: Option<Error>)
      requires Valid() && !halted && (v.due.InGrace? || (v.due.Read? && v.due.raised.None?))
      modifies `env, `script, `halted, `served, `log, `v
      ensures Valid() && Went() && SameCounts(old(v), v) && (!halted ==> |script| < |old(script)|)
      ensures halted ==> err.None? && script == [] && CutShort(old(log) + [Parked], Wait(Marking(dialog), old(env)), old(script), log, env)
      ensures !halted ==> Tells(old(log) + [Parked], Wait(Marking(dialog), old(env)), old(script),
        log, Wait(if err.Some? then Over(EndOf(err)) else Looking, env), script)
    {
      hide Book, Accounts, ApplyAll, Waited;
      Note(Parked);
      assert SameCounts(old(v), v) && v.due.Nothing? && v.pressed == old(v.pressed);
      hide Rule, SameCounts;
      ghost var e, ts := env, script;
      var _ := Yield();
      WaitedStep(Wait(Marking(dialog), e), ts, env, log);
      if halted { return None; }
      SeenAccounts(env, Dialogs, done, holding);
      env := MarkedSeen(env, Dialogs);
      err := Doze(dialog);
    }

    /** The select inside the wait: returns when some branch is ready and taken. Its timer goes off when the grace ends. */
    method Doze(dialog: Option<nat>) returns (err: Option<Error>)
      requires Valid() && !halted
      modifies `env, `script, `halted, `served, `log, `v
      ensures Valid() && Went() && SameCounts(old(v), v)
      ensures halted ==> err.None? && script == [] && CutShort(old(log), Wait(Asleep(dialog), old(env)), old(script), log, env)
      ensures !halted ==> Tells(old(log), Wait(Asleep(dialog), old(env)), old(script),
        log, Wait(if err.Some? then Over(EndOf(err)) else Looking, env), script)
    {
      hide Book, Sound, ApplyAll, Waited, Rule, Polled, GraceOver, Woken;
      while true
        invariant Valid() && !halted && Went() && log == old(log) && v == old(v)
        invariant Tells(log, Wait(Asleep(dialog), old(env)), old(script), log, Wait(Asleep(dialog), env), script)
        decreases |script|
      {
        ghost var e, ts := env, script;
        var pick := Yield();
        WaitedStep(Wait(Asleep(dialog), e), ts, env, log);
        if halted { return None; }
        var b := Polled(env, Timer, GraceOver(dialog, env.now), pick);
        if b.Some? {
          err := Wake(b.value);
          return;
        }
      }
    }

    /** What the branch taken leads to. */
    method Wake(b: Branch) returns (err: Option<Error>)
      requires Valid() && (b.Timer? || Changed(env, b))
      modifies `env, `served, `log, `v
      ensures Valid() && Went() && SameCounts(old(v), v) && log == old(log) + WakeNoted(old(env), Some(b))
      ensures Woken(old(env), b) == Wait(if err.Some? then Over(EndOf(err)) else Looking, env)
    {
      hide Accounts, Judge, Range, Answered;
      if b.Timer? { return None; }
      if !Unseen(env, b) { return Some(AgentExited); }
      SeenAccounts(env, b, done, holding);
      env := MarkedSeen(env, b);
      if b.Debounced? {
        NoticeMove();
      }
      return if b.Epoch? then Some(AgentRestarted) else None;
    }

    /** `press_enter`: withheld while a dialog is up. */
    method PressEnter() returns (err: Option<Error>)
      requires Valid() && !halted && v.block.AfterText?
      modifies `env, `script, `halted, `log, `v
      ensures Valid() && Went() && SameCounts(old(v), v) && v.last == old(v.last) && v.held == old(v.held)
      ensures var (e, out) := Pressed(old(env), old(script)); err == e && Lands(out)
      ensures !halted && err.None? ==> v.block == AfterEnter(old(v.block.author), 0)
    {
      hide Book, Accounts, ApplyAll;
      Drift();
      Note(ReadDialog(env.dialog.value));
      if env.dialog.value.Some? { return Some(Blocked); }
      var ok := Send();
      if ok { Note(Enter(env.now)); }
      return if ok || halted then None else Some(AgentExited);
    }

    /** A text is sent, and Enter pressed a moment later. */
    method TypeText(text: Entry) returns (end: Typing)
      requires Valid() && !halted && (text.Typed? || text.Nudged?) && Lawful(auto, v, text)
      modifies `env, `script, `halted, `log, `v
      ensures Valid() && Went() && SameCounts(old(v), v) && v.last == old(v.last) && v.held == old(v.held)
      ensures var (t, out) := TypedOut(old(env), old(script), text); end == t && Lands(out)
      ensures (halted <==> end.Cut?) && (!halted ==> |script| < |old(script)|) && (end.Gone? ==> v == old(v) && log == old(log))
      ensures end.Entered? ==> v.block == AfterEnter(if text.Typed? then Injection(text.id) else Gate, 0)
    {
      hide Book, Sound, ApplyAll, Pressed, Slept, Drifted;
      var ok := Send();
      if halted { return Cut; }
      if !ok { return Gone; }
      Note(text);
      assert SameCounts(old(v), v) && v.last == old(v.last) && v.held == old(v.held) && v.block == BlockAfter(old(v).block, text);
      assert v.due.Nothing?;
      hide Rule, Lawful;
      Sleep(SUBMIT_DELAY);
      if halted { return Cut; }
      var err := PressEnter();
      return if halted then Cut else if err.Some? then Withheld(err.value) else Entered;
    }

    /** `confirm_submission`: up to two more Enters, each after the timer went off. It stops short only because something
        moved or the pump is gone. The cloned receivers start from the worker's own unseen marks and neither marks
        anything, so they agree throughout. */
    method ConfirmSubmission() returns (resends: nat)
      requires Valid() && !halted && v.block.AfterEnter? && v.block.resends == 0
      modifies `env, `script, `halted, `log, `v
      ensures Valid() && Went() && SameCounts(old(v), v) && v.held == old(v.held) && v.last == old(v.last)
      ensures v.block == AfterEnter(old(v.block.author), resends) && resends <= MAX_ENTER_RESENDS
      ensures Lands(Confirmed(old(env), old(script), 0))
      ensures !halted && resends < MAX_ENTER_RESENDS ==> AnyChanged(env) || !env.writerUp
    {
      hide Book, Sound, ApplyAll, AnyChanged, Confirmed;
      resends := 0;
      ghost var added: seq<Entry> := [];
      while true
        invariant Valid() && !halted && Went() && SameCounts(old(v), v) && v.held == old(v.held) && v.last == old(v.last)
        invariant v.block == AfterEnter(old(v.block.author), resends) && resends <= MAX_ENTER_RESENDS
        invariant log == old(log) + added && Goes(added, Confirmed(env, script, resends), Confirmed(old(env), old(script), 0))
        decreases MAX_ENTER_RESENDS - resends
      {
        ghost var e, ts, n, was := env, script, resends, log;
        var again := ConfirmOnce(resends);
        if !again { return; }
        resends := resends + 1;
        added := added + log[|was|..];
      }
    }

    /** One select of the confirmation and, if its timer went off, one more Enter. */
    method ConfirmOnce(n: nat) returns (again: bool)
      requires Valid() && !halted && v.block.AfterEnter? && v.block.resends == n <= MAX_ENTER_RESENDS
      modifies `env, `script, `halted, `log, `v
      ensures Valid() && Went() && SameCounts(old(v), v) && v.held == old(v.held) && v.last == old(v.last)
      ensures again ==> !halted && n < MAX_ENTER_RESENDS && v.block == AfterEnter(old(v.block.author), n + 1)
      ensures again ==> Goes(log[|old(log)|..], Confirmed(env, script, n + 1), Confirmed(old(env), old(script), n))
      ensures !again ==> v.block == old(v.block) && Lands(Confirmed(old(env), old(script), n))
      ensures !again && !halted && n < MAX_ENTER_RESENDS ==> AnyChanged(env) || !env.writerUp
    {
      hide Book, Accounts, ApplyAll, AnyChanged, Confirmed, Hush;
      ConfirmedStep(env, script, n);
      var expired := AwaitQuiet();
      if halted || !expired || n == MAX_ENTER_RESENDS { return false; }
      again := Send();
      if again {
        Note(Resend(env.now));
        assert log[|old(log)|..] == [log[|old(log)|], Resend(env.now)];
      }
    }

    /** One select of the confirmation: true when its timer branch is taken, false when anything moved. */
    method AwaitQuiet() returns (expired: bool)
      requires Valid() && !halted && v.block.AfterEnter?
      modifies `env, `script, `halted, `log, `v
      ensures Valid() && Went() && SameCounts(old(v), v) && v.block == old(v.block) && v.last == old(v.last)
        && v.held == old(v.held)
      ensures var e := Drifted(old(env), old(script)); var (f, b, rest) := Hush(e, e.now + SUBMIT_VERIFY, Later(old(script)));
        env == f && script == rest && (halted <==> b.None?) && (expired <==> b == Some(Timer)) && (b.Some? && !expired ==> AnyChanged(f))
      ensures if expired then log == old(log) + [Quiet(env.now)] && v.due.WasQuiet? && !halted else log == old(log)
    {
      hide Book, Accounts, ApplyAll, Hush, Polled, AnyChanged, Drifted;
      Drift();
      var until := env.now + SUBMIT_VERIFY;
      ghost var from, left := env, script;
      while true
        invariant Valid() && !halted && Onward(from, env) && |script| <= |left| && log == old(log) && v == old(v)
        invariant Hush(env, until, script) == Hush(from, until, left)
        decreases |script|
      {
        ghost var e, ts := env, script;
        var pick := Yield();
        HushStep(e, until, ts, env);
        if halted { return false; }
        var b := Polled(env, Timer, env.now >= until, pick);
        if b == Some(Timer) {
          Note(Quiet(env.now));
          return true;
        }
        if b.Some? {
          SomethingChanged(env, b.value);
          return false;
        }
      }
    }

    /** `handle_inject` for the injection in hand: its fate is the one the wait and the typing decide from where it is taken
        up, and the log and everything shared are left as that says. */
    method HandleInject(id: Id) returns (fate: Fate)
      requires Valid() && holding && id == done && !halted
      modifies `env, `script, `halted, `prev, `served, `holding, `done, `log, `v
      ensures Valid() && Went() && SameCounts(old(v), v) && (halted || |script| < |old(script)|)
      ensures fate == FateOf(old(env), old(script), id) && Lands(InjectOut(old(env), old(script), id))
      ensures (fate.Unfinished? <==> holding) && (holding ==> halted) && done == DoneAfter(fate, id, env) && done >= old(done)
    {
      hide Book, Sound, ApplyAll, Waited, WaitLog, TypedOut, SubmitOut, FailedAllOut;
      var err := WaitDebouncedIdle();
      if halted { return Unfinished; }
      if err.Some? {
        FailAll(err.value);
        return WaitFailed(err.value);
      }
      fate := TypeAndSubmit(id);
    }

    /** Types the text, presses Enter as a later write, answers the caller, and watches for the submit. */
    method TypeAndSubmit(id: Id) returns (fate: Fate)
      requires Valid() && holding && id == done && !halted && v.clear && v.last == Idle
      modifies `env, `script, `halted, `served, `holding, `done, `log, `v
      ensures Valid() && Went() && SameCounts(old(v), v) && (halted || |script| < |old(script)|)
      ensures fate == FateFor(TypedOut(old(env), old(script), Typed(id)).0) && Lands(SubmitOut(old(env), old(script), id))
      ensures (fate.Unfinished? <==> holding) && (holding ==> halted) && done == DoneAfter(fate, id, env) && done >= old(done)
    {
      hide Book, Sound, ApplyAll, TypedOut, Confirmed, Lowering, FailedAllOut;
      var end := TypeText(Typed(id));
      fate := FateFor(end);
      match end
      case Cut =>
      case Gone => Resolve(Failed(AgentExited));
      case Withheld(err) => FailAll(err);
      case Entered => DeliverAndConfirm(id);
    }

    /** The caller is answered before the submit is watched. */
    method DeliverAndConfirm(id: Id)
      requires Valid() && holding && id == done && !halted && v.last == Idle
      requires v.block.AfterEnter? && v.block.author == Injection(id) && v.block.resends == 0
      modifies `env, `script, `halted, `served, `holding, `done, `log, `v
      ensures Valid() && Went() && SameCounts(old(v), v) && !holding && done == id + 1
      ensures var (g, rest) := Lowering(old(env), old(script)); var c := Confirmed(g, rest, 0);
        Lands(Behind([Lowered, Answer(id, Delivered)], c))
    {
      hide Book, Sound, ApplyAll, Confirmed, Lowering;
      Resolve(Delivered);
      var _ := ConfirmSubmission();
    }

    /** Fails the injection in hand and everything queued. */
    method FailAll(err: Error)
      requires Core() && holding && !halted && !v.due.MayAnswer? && (v.due.MustLower? ==> err == Blocked)
      modifies `env, `script, `served, `log, `v, `holding, `done
      ensures Valid() && Went() && SameCounts(old(v), v) && !holding && done > old(done) && done == env.issued
      ensures Lands(FailedAllOut(old(env), old(script), old(done), err))
    {
      hide Book, Accounts, ApplyAll, Lowering, FailedOut;
      Resolve(Failed(err));
      FailQueued(err);
    }

    // ---- the gate ----

    /** `consult_gate`: asks the gate at a debounced idle with no dialog up, and acts on its verdict. */
    method ConsultGate(entry: GateEntry) returns (answer: GateAnswer)
      requires Valid() && !holding && !halted
      requires entry.Transition? ==> v.before == Working && v.last == Idle && !v.busy && !v.consulted
      modifies `env, `script, `halted, `log, `v
      ensures Valid() && Went() && v.takes == old(v.takes) && v.asks == old(v.asks) + (if answer.Ruled? then 1 else 0)
      ensures var (a, out) := GateOut(auto, entry, served, old(env), old(script)); answer == a && Lands(out)
    {
      hide Book, Sound, ApplyAll, Rule, ActedOut, LookedOut, Drifted;
      var hold := LookFirst(entry);
      if hold.Some? { return hold.value; }
      var decision := Decide(entry);
      return Ruled(decision);
    }

    /** What holds the gate back, if anything. */
    method LookFirst(entry: GateEntry) returns (hold: Option<GateAnswer>)
      requires Valid() && !halted
      modifies `env, `script, `log, `v
      ensures Valid() && Went() && v == old(v).(due := v.due, clear := v.clear) && (hold.Some? ==> !hold.value.Ruled?)
      ensures var (h, out) := LookedOut(entry, served, old(env), old(script)); hold == h && Lands(out)
      ensures hold.None? ==> v.clear && v.due == Read(None, true) && (entry.Poke? ==> !served)
    {
      hide Book, Sound, ApplyAll, Rule, Drifted, LookedIdle;
      Drift();
      if !env.gateUp { return Some(GateGone); }
      hold := LookIdle(entry);
    }

    method LookIdle(entry: GateEntry) returns (hold: Option<GateAnswer>)
      requires Valid() && !halted
      modifies `env, `script, `log, `v
      ensures Valid() && Went() && v == old(v).(due := v.due, clear := v.clear) && (hold.Some? ==> !hold.value.Ruled?)
      ensures var (h, out) := LookedIdle(entry, served, old(env), old(script)); hold == h && Lands(out)
      ensures hold.None? ==> v.clear && v.due == Read(None, true) && (entry.Poke? ==> !served)
    {
      hide Book, Sound, ApplyAll, Rule, Drifted;
      var idle := PeekState();
      if !idle { return Some(NotIdle); }
      var up := PeekDialog();
      if up { return Some(DialogUp); }
      return if entry.Poke? && served then Some(JustServed) else None;
    }

    /** Asks, and acts on the verdict. */
    method Decide(entry: GateEntry) returns (decision: Decision)
      requires Valid() && !holding && !halted && v.clear && v.due == Read(None, true) && (entry.Poke? ==> !served)
      requires entry.Transition? ==> v.before == Working && v.last == Idle && !v.busy && !v.consulted
      modifies `env, `script, `halted, `log, `v
      ensures Valid() && Went() && v.asks == old(v.asks) + 1 && v.takes == old(v.takes)
      ensures var e, ts := Drifted(old(env), old(script)), Later(old(script));
        var out := ActedOut(auto, entry, e.decision, e, ts);
        decision == e.decision && Lands(out.(log := [Consult(entry, e.decision)] + out.log))
    {
      hide Book, Sound, ApplyAll, ActedOut, Drifted;
      decision := Ask(entry);
      ActOn(entry, decision);
    }

    method PeekState() returns (idle: bool)
      requires Valid()
      modifies `env, `script, `log, `v
      ensures Valid() && Went() && env == Drifted(old(env), old(script)) && script == Later(old(script))
      ensures log == old(log) + [Peek(env.state.value)] && idle == env.state.value.Idle?
      ensures v == old(v).(due := Peeked(env.state.value))
    {
      hide Book, Accounts, ApplyAll, Drifted;
      Drift();
      Note(Peek(env.state.value));
      return env.state.value.Idle?;
    }

    method PeekDialog() returns (up: bool)
      requires Valid()
      modifies `env, `script, `log, `v
      ensures Valid() && Went() && env == Drifted(old(env), old(script)) && script == Later(old(script))
      ensures log == old(log) + [ReadDialog(env.dialog.value)] && up == env.dialog.value.Some?
      ensures v == old(v).(due := Read(env.dialog.value, old(v).due == Peeked(Idle)), clear := !up)
    {
      hide Book, Accounts, ApplyAll, Drifted;
      Drift();
      Note(ReadDialog(env.dialog.value));
      return env.dialog.value.Some?;
    }

    /** `on_stable_idle`. */
    method Ask(entry: GateEntry) returns (decision: Decision)
      requires Valid() && v.clear && v.due == Read(None, true) && (entry.Poke? ==> !served)
      requires entry.Transition? ==> v.before == Working && v.last == Idle && !v.busy && !v.consulted
      modifies `env, `script, `log, `v
      ensures Valid() && Went() && env == Drifted(old(env), old(script)) && script == Later(old(script))
      ensures decision == env.decision && log == old(log) + [Consult(entry, decision)]
      ensures v.asks == old(v.asks) + 1 && v.takes == old(v.takes) && v.clear && v.due == Asked(entry, decision)
      ensures entry.Transition? ==> !v.awaiting
    {
      hide Accounts, ApplyAll, Judge, Range, Answered, Drifted;
      Drift();
      Note(Consult(entry, env.decision));
      return env.decision;
    }

    /** What the gate's verdict leads to: only a transition, with auto_clear on, types /clear. A nudge is typed like an
        injection. */
    method ActOn(entry: GateEntry, decision: Decision)
      requires Valid() && !holding && !halted && v.clear && v.due == Asked(entry, decision) && (entry.Transition? ==> !v.awaiting)
      modifies `env, `script, `halted, `log, `v
      ensures Valid() && Went() && SameCounts(old(v), v)
      ensures Lands(ActedOut(auto, entry, decision, old(env), old(script)))
    {
      hide Book, Accounts, ApplyAll, TypedOut, Confirmed;
      match decision
      case Nudge =>
        var end := TypeText(Nudged);
        if end.Entered? { var _ := ConfirmSubmission(); }
      case AllowClear =>
        if entry.Poke? || !auto { return; }
        var ok := Send();
        if ok { Note(Clear); }
      case HoldQuiet =>
    }

    // ---- draining ----

    /** Takes one command off the queue while draining: an injection is handled, a poke dropped. */
    method DrainOne() returns (took: bool)
      requires Valid() && !holding && !halted && env.cmds != []
      modifies `env, `script, `halted, `prev, `served, `holding, `done, `log, `v
      ensures Valid() && Went() && (!halted ==> !holding) && done >= old(done) && v.asks == old(v.asks)
      ensures took == old(env.cmds[0]).Inject?
      ensures v.takes == old(v.takes) + (if took then 1 else 0) && (!took ==> v == old(v))
      ensures var popped := old(env).(cmds := old(env.cmds[1..]));
        if took then TakenUp(popped, old(script), old(Here()), Here()) else Here() == old(Here()).(env := popped)
      ensures !took ==> served == old(served)
      ensures took && !halted ==> |script| < |old(script)|
    {
      hide Book, Sound, ApplyAll, Rule, InjectOut, FateOf;
      var cmd := Pop();
      took := cmd.Inject?;
      if took {
        NoteTook(cmd.id);
        var _ := HandleInject(cmd.id);
      }
    }

    /** `drain_then_consult`: injects everything queued, until the queue is found empty; only if there was nothing is the
        gate asked. */
    method DrainThenConsult(entry: GateEntry) returns (drained: bool, answer: Option<GateAnswer>)
      requires Valid() && !holding && !halted
      requires entry.Transition? ==> v.before == Working && v.last == Idle && !v.busy && !v.consulted
      modifies `env, `script, `halted, `prev, `served, `holding, `done, `log, `v
      ensures Valid() && Went() && (!halted ==> !holding && done >= old(env.issued)) && done >= old(done)
      ensures drained <==> v.takes > old(v.takes)
      ensures v.asks == old(v.asks) + (if answer.Some? && answer.value.Ruled? then 1 else 0)
      ensures (drained ==> answer.None?) && (!drained && !halted ==> answer.Some?)
      ensures Drained(auto, entry, old(Here()), Here())
    {
      hide Book, Sound, ApplyAll, Rule, GateOut, DrainCourse, Drifted, Judge;
      ghost var marks: seq<Mark>;
      drained, marks := DrainAll();
      ghost var z := marks[|marks| - 1];
      HeldIsServed();
      answer := None;
      if !halted && !drained {
        var a := ConsultGate(entry);
        answer := Some(a);
      }
      assert DrainEnds(auto, entry, old(Here()), z, Here());
      assert DrainedThrough(auto, entry, old(Here()), marks, Here());
    }

    lemma HeldIsServed()
      requires Book()
      ensures Judge(auto, log).held == served && Judge(auto, log).last == prev == v.last
    {
    }

    /** The loop of it, a mark at each of its rounds. */
    method DrainAll() returns (drained: bool, ghost marks: seq<Mark>)
      requires Valid() && !holding && !halted
      modifies `env, `script, `halted, `prev, `served, `holding, `done, `log, `v
      ensures Valid() && Went() && (!halted ==> !holding && done >= old(env.issued)) && done >= old(done)
      ensures (drained <==> v.takes > old(v.takes)) && v.asks == old(v.asks)
      ensures !drained ==> v == old(v) && served == old(served) && log == old(log) && !halted
      ensures drained ==> |log| > |old(log)|
      ensures marks != [] && DrainCourse(marks) && marks[0] == old(Here())
      ensures var z := marks[|marks| - 1];
        if halted then Here() == z
        else env.cmds == [] && !z.halted && Here() == z.(env := Drifted(z.env, z.script), script := Later(z.script))
    {
      hide Book, Sound, ApplyAll, Rule, DrainStep, TakenUp;
      drained, marks := false, [Here()];
      Drift();
      while env.cmds != []
        invariant Valid() && Went() && !halted && !holding && done >= old(done) && v.asks == old(v.asks)
        invariant drained <==> v.takes > old(v.takes)
        invariant if drained then |log| > |old(log)| else v == old(v) && served == old(served) && log == old(log)
        invariant DrainCourse(marks) && marks[0] == old(Here())
        invariant var z := marks[|marks| - 1];
          !z.halted && Here() == z.(env := Drifted(z.env, z.script), script := Later(z.script))
        decreases |script|, |env.cmds|
      {
        ghost var z, a := marks[|marks| - 1], Here();
        var took := DrainOne();
        DrainStepFrom(z, a, Here());
        DrainNext(marks, Here());
        drained, marks := drained || took, marks + [Here()];
        if halted { return; }
        Drift();
      }
      Settled();
    }

    // ---- the run loop ----

    /** `reconsider_after_unblock`: poke-style, unless the agent's state moved while the flag settled. */
    method ReconsiderAfterUnblock()
      requires Valid() && !holding && !halted
      modifies `env, `script, `halted, `prev, `served, `holding, `done, `log, `v
      ensures Valid() && Went() && (!halted ==> !holding) && done >= old(done)
      ensures Reconsidered(auto, old(Here()), Here())
    {
      hide Book, Sound, ApplyAll, Drained, Drifted, Slept;
      Sleep(UNBLOCK_SETTLE);
      if halted { return; }
      Drift();
      if env.state.unseen || env.state.closed { return; }
      var _, _ := DrainThenConsult(Poke);
    }

    /** The debounced-state branch of the run loop: an exit or a restart answers everything queued with its error, the end
        of a turn answers everything issued before it. */
    method OnStateChange()
      requires Valid() && !holding && !halted
      modifies `env, `script, `halted, `prev, `served, `holding, `done, `log, `v
      ensures Valid() && Went() && (!halted ==> !holding) && done >= old(done)
      ensures Turned(auto, Debounced, old(Here()), Here())
      ensures var s := Drifted(old(env), old(script)).state.value;
        && (s.Exited? || s.Restarting? ==> !halted && env.cmds == [] && done == env.issued)
        && (s.Idle? && old(prev).Working? && !halted ==> done >= old(env.issued))
    {
      hide Book, Accounts, ApplyAll, Reacted, Drifted, Judge;
      HeldIsServed();
      var was := prev;
      NoticeMove();
      Drift();
      LookAtState();
      hide Rule;
      assert log == old(log) + [Moved, Saw(prev)];
      React(was);
    }

    method React(was: AgentState)
      requires Valid() && !holding && !halted && v.before == was && v.last == prev && !v.busy && !v.consulted
      modifies `env, `script, `halted, `prev, `served, `holding, `done, `log, `v
      ensures Valid() && Went() && (!halted ==> !holding) && done >= old(done)
      ensures Reacted(auto, was, old(prev), old(Here()), Here())
      ensures old(prev).Exited? || old(prev).Restarting? ==> !halted && env.cmds == [] && done == env.issued
      ensures old(prev).Idle? && was.Working? && !halted ==> done >= old(env.issued)
    {
      hide Book, Sound, Rule, Drained, FailedOut;
      match prev
      case Idle => if was.Working? { var _, _ := DrainThenConsult(Transition); }
      case Exited => FailQueued(AgentExited);
      case Restarting => FailQueued(AgentRestarted);
      case Starting =>
      case Working =>
    }

    /** The restart branch: everything queued fails. */
    method OnEpoch()
      requires Valid() && !holding && !halted
      modifies `env, `script, `served, `log, `v, `holding, `done
      ensures Valid() && Went() && !holding && done >= old(done) && Turned(auto, Epoch, old(Here()), Here())
    {
      hide Book, Accounts, ApplyAll, FailedOut, Drifted;
      Drift();
      SeenAccounts(env, Epoch, done, holding);
      env := MarkedSeen(env, Epoch);
      FailQueued(AgentRestarted);
    }

    /** The dialog branch: a dialog that went away is reason to look again. */
    method OnDialog()
      requires Valid() && !holding && !halted
      modifies `env, `script, `halted, `prev, `served, `holding, `done, `log, `v
      ensures Valid() && Went() && (!halted ==> !holding) && done >= old(done)
      ensures Turned(auto, Dialogs, old(Here()), Here())
    {
      hide Book, Accounts, ApplyAll, Reconsidered, Drifted;
      Drift();
      Note(ReadDialog(env.dialog.value));
      hide Rule;
      var up := env.dialog.value.Some?;
      SeenAccounts(env, Dialogs, done, holding);
      env := MarkedSeen(env, Dialogs);
      if !up { ReconsiderAfterUnblock(); }
    }

    /** The command branch of the run loop: an injection is taken up and handled, a poke consults the gate. */
    method OnCommand()
      requires Valid() && !holding && !halted && env.cmds != []
      modifies `env, `script, `halted, `prev, `served, `holding, `done, `log, `v
      ensures Valid() && Went() && (!halted ==> !holding) && done >= old(done)
      ensures var popped := old(env).(cmds := old(env.cmds[1..]));
        if old(env.cmds[0]).Inject? then TakenUp(popped, old(script), old(Here()), Here())
        else GateLeft(auto, Poke, popped, old(script), old(Here()), Here())
    {
      hide Book, Sound, ApplyAll, Rule, InjectOut, FateOf, GateOut, Judge;
      HeldIsServed();
      var cmd := Pop();
      match cmd
      case Inject(id) =>
        NoteTook(id);
        var _ := HandleInject(id);
      case Reconsider =>
        var _ := ConsultGate(Poke);
    }

    /** One pass of the run loop: one poll of its select, and what the branch taken leads to. */
    method Pass() returns (leave: Option<Leave>)
      requires Valid() && !holding && !halted
      modifies `env, `script, `halted, `prev, `served, `holding, `done, `log, `v
      ensures Valid() && Went() && (!halted ==> !holding && |script| < |old(script)|) && done >= old(done)
      ensures leave.Some? ==> !halted && MayLeave(leave.value, env)
      ensures Passes(auto, old(Here()), Here(), leave)
    {
      hide Book, Accounts, ApplyAll, Rule, TakenUp, GateLeft, Turned;
      leave := None;
      var pick := Yield();
      if halted { return; }
      var b := Polled(env, Commands, env.cmds != [] || env.sendersGone, pick);
      if b.None? { return; }
      if b.value.Commands? {
        if env.cmds == [] { return Some(NoSenders); }
        OnCommand();
      } else if !Unseen(env, b.value) {
        return Some(WatchClosed(b.value));
      } else {
        OnChange(b.value);
      }
    }

    /** The watch branches of the run loop. */
    method OnChange(b: Branch)
      requires Valid() && !holding && !halted && Unseen(env, b)
      modifies `env, `script, `halted, `prev, `served, `holding, `done, `log, `v
      ensures Valid() && Went() && (!halted ==> !holding) && done >= old(done)
      ensures Turned(auto, b, old(Here()).(env := MarkedSeen(old(env), b)), Here())
    {
      hide Book, Accounts, Reacted, Reconsidered, QueueFailed, Drifted;
      SeenAccounts(env, b, done, holding);
      env := MarkedSeen(env, b);
      if b.Debounced? { OnStateChange(); } else if b.Epoch? { OnEpoch(); } else { OnDialog(); }
    }

    /** `run`: every schedule leaves a log that keeps all the rules, answers in order, and a depth equal to what is
        unanswered. The loop leaves only when every sender is gone, and then every injection there ever was is answered
        exactly once and the depth is zero; or when a watch is closed, and then exactly those still queued are unanswered.
        Else the script is used up. Up to there the run is one pass after another. */
    method Run() returns (leave: Option<Leave>, ghost marks: seq<Mark>)
      requires Valid() && !holding && !halted
      modifies `env, `script, `halted, `prev, `served, `holding, `done, `log, `v
      ensures Went() && Judge(auto, log).ok && Answered(log) == Range(0, done) && done <= env.issued
      ensures env.depth == env.issued - done + env.coming
      ensures Ids(env.cmds) == Range(if holding then done + 1 else done, env.issued)
      ensures (leave.None? <==> halted) && (halted ==> script == []) && (holding ==> halted)
      ensures leave == Some(NoSenders) ==> env.sendersGone && env.cmds == [] && done == env.issued && env.depth == 0
      ensures leave.Some? && leave.value.WatchClosed? ==>
        Closed(env, leave.value.branch) && !Unseen(env, leave.value.branch) && Ids(env.cmds) == Range(done, env.issued)
      ensures Course(auto, marks, leave) && marks[0] == old(Here()) && marks[|marks| - 1] == Here()
    {
      leave, marks := None, [Here()];
      while !halted && leave.None?
        invariant Valid() && Went() && (!halted ==> !holding)
        invariant Course(auto, marks, leave) && marks[0] == old(Here()) && marks[|marks| - 1] == Here()
        invariant leave.Some? ==> !halted && MayLeave(leave.value, env)
        decreases |script|, !halted
      {
        hide Book, Sound, Passes, Course, MayLeave;
        ghost var was := log;
        leave := Pass();
        CourseNext(auto, marks, Here(), leave);
        marks := marks + [Here()];
        assert was <= log;
      }
    }
  }
}
