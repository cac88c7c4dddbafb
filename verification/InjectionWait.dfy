/** The worker's wait for an idle agent without a dialog, one access of the shared state at a time,
    and how long a dialog can hold an injection up. */
module InjectionWait {
  import opened AgentStates
  import opened InjectionEnv
  import opened InjectionLog
  import opened Optional

  datatype WaitEnd = MayType | Fails(error: Error)

  /** The next access: the debounced state, the dialog, the clock, the mark that takes the dialog for seen,
      or a poll of the select that sleeps with the timer the dialog read set. */
  datatype Pc =
    | Looking
    | Reading(idle: bool)
    | Timing(idle: bool, read: Option<nat>)
    | Marking(read: Option<nat>)
    | Asleep(read: Option<nat>)
    | Over(end: WaitEnd)

  datatype Wait = Wait(pc: Pc, env: Env)

  /** What a branch of the select leads to. */
  function Woken(e: Env, b: Branch): Wait {
    if b.Timer? then Wait(Looking, e)
    else if Unseen(e, b) then Wait(if b.Epoch? then Over(Fails(AgentRestarted)) else Looking, MarkedSeen(e, b))
    else Wait(Over(Fails(AgentExited)), e)
  }

  function Looked(e: Env): Wait {
    var s := e.state.value;
    Wait(if s.Exited? then Over(Fails(AgentExited)) else if s.Restarting? then Over(Fails(AgentRestarted)) else Reading(s.Idle?),
         MarkedSeen(e, Debounced))
  }

  function Weighed(e: Env, idle: bool, read: Option<nat>): Pc {
    if GraceOver(read, e.now) then Over(Fails(Blocked)) else if idle && read.None? then Over(MayType) else Marking(read)
  }

  /** `wait_debounced_idle`, an access at a time. */
  function Act(w: Wait, pick: Branch): Wait {
    var e := w.env;
    match w.pc
    case Looking => Looked(e)
    case Reading(idle) => Wait(Timing(idle, e.dialog.value), e)
    case Timing(idle, read) => Wait(Weighed(e, idle, read), e)
    case Marking(read) => Wait(Asleep(read), MarkedSeen(e, Dialogs))
    case Asleep(read) =>
      var b := Polled(e, Timer, GraceOver(read, e.now), pick);
      if b.None? then w else Woken(e, b.value)
    case Over(_) => w
  }

  /** The others act, then the worker makes its access. */
  function Step(w: Wait, t: Turn): Wait { Act(w.(env := ApplyAll(w.env, t.events)), t.pick) }

  function Steps(w: Wait, ts: seq<Turn>): Wait {
    if ts == [] then w else Step(Steps(w, ts[..|ts| - 1]), ts[|ts| - 1])
  }

  lemma {:induction false} StepsAppend(w: Wait, a: seq<Turn>, b: seq<Turn>)
    ensures Steps(w, a + b) == Steps(Steps(w, a), b)
    decreases |b|
  {
    if b == [] {
      assert a + b == a;
    } else {
      assert (a + b)[..|a + b| - 1] == a + b[..|b| - 1];
      StepsAppend(w, a, b[..|b| - 1]);
    }
  }

  lemma StepsHead(w: Wait, ts: seq<Turn>, j: nat)
    requires 0 < j <= |ts|
    ensures Steps(w, ts[..j]) == Steps(Step(w, ts[0]), ts[1..][..j - 1])
  {
    assert ts[..j] == [ts[0]] + ts[1..][..j - 1] && [ts[0]][..0] == [] && Steps(w, []) == w;
    StepsAppend(w, [ts[0]], ts[1..][..j - 1]);
    hide Step;
  }

  // ---- the bound ----

  /** Dialogs are raised at the clock's time, so what was read is no younger than what is up. */
  predicate Sane(w: Wait) {
    && (w.env.dialog.value.Some? ==> w.env.dialog.value.value <= w.env.now)
    && ((w.pc.Timing? || w.pc.Marking? || w.pc.Asleep?) && w.pc.read.Some? ==>
          && w.pc.read.value <= w.env.now
          && (w.env.dialog.value.Some? ==> w.pc.read.value <= w.env.dialog.value.value))
  }

  /** What the events of a turn do to the clock and the dialog. */
  predicate DialogMoved(e: Env, f: Env) {
    && e.now <= f.now
    && (f.dialog.value.Some? ==> f.dialog.value == e.dialog.value || f.dialog.value.value >= e.now)
    && (f.dialog.value.Some? ==> f.dialog.value == e.dialog.value || f.dialog.value.value <= f.now)
    && (AnyChanged(e) ==> AnyChanged(f)) && (f.dialog.value != e.dialog.value ==> f.dialog.unseen)
  }

  lemma EventMovesDialog(e: Env, f: Env, ev: Event)
    requires DialogMoved(e, f)
    ensures DialogMoved(e, Apply(f, ev))
  {
  }

  lemma {:induction false} EventsMoveDialog(e: Env, evs: seq<Event>)
    ensures DialogMoved(e, ApplyAll(e, evs))
  {
    if evs != [] {
      EventsMoveDialog(e, evs[..|evs| - 1]);
      EventMovesDialog(e, ApplyAll(e, evs[..|evs| - 1]), evs[|evs| - 1]);
    }
  }

  lemma {:induction false} NoRaiseNoDialog(e: Env, evs: seq<Event>)
    requires e.dialog.value.None? && RaiseDialog !in evs
    ensures ApplyAll(e, evs).dialog.value.None?
  {
    if evs != [] {
      NoRaiseNoDialog(e, evs[..|evs| - 1]);
      assert evs[|evs| - 1] != RaiseDialog;
    }
  }

  /** The wait has read that no dialog is up and has not yet taken the channel for seen. */
  predicate InWindow(w: Wait) { (w.pc.Timing? || w.pc.Marking?) && w.pc.read.None? }

  /** A dialog is up that this round's read missed, and nothing is there to wake the worker. */
  predicate Raced(w: Wait) {
    w.env.dialog.value.Some? && (InWindow(w) || (w.pc.Asleep? && w.pc.read.None? && !AnyChanged(w.env)))
  }

  /** No dialog is raised between a read that found none and the mark. */
  predicate Clean(w: Wait, ts: seq<Turn>)
    decreases |ts|
  {
    ts == [] ||
    (Clean(w, ts[..|ts| - 1]) && (InWindow(Steps(w, ts[..|ts| - 1])) ==> RaiseDialog !in ts[|ts| - 1].events))
  }

  lemma SaneMoved(w: Wait, f: Env)
    requires Sane(w) && DialogMoved(w.env, f)
    ensures Sane(w.(env := f))
  {
  }

  lemma SaneAct(w: Wait, pick: Branch)
    requires Sane(w)
    ensures Sane(Act(w, pick))
  {
  }

  lemma UnracedAct(w: Wait, f: Env, pick: Branch)
    requires !Raced(w) && DialogMoved(w.env, f) && (InWindow(w) ==> f.dialog.value.None?)
    ensures !Raced(Act(w.(env := f), pick))
  {
  }

  lemma SaneStep(w: Wait, t: Turn)
    requires Sane(w)
    ensures Sane(Step(w, t))
    ensures !Raced(w) && (InWindow(w) ==> RaiseDialog !in t.events) ==> !Raced(Step(w, t))
  {
    EventsMoveDialog(w.env, t.events);
    var f := ApplyAll(w.env, t.events);
    SaneMoved(w, f);
    SaneAct(w.(env := f), t.pick);
    if !Raced(w) && (InWindow(w) ==> RaiseDialog !in t.events) {
      if InWindow(w) { NoRaiseNoDialog(w.env, t.events); }
      UnracedAct(w, f, t.pick);
    }
    hide ApplyAll, DialogMoved, Act, Sane, Raced;
  }

  lemma {:induction false} SaneSteps(w: Wait, ts: seq<Turn>)
    requires Sane(w)
    ensures Sane(Steps(w, ts))
    ensures !Raced(w) && Clean(w, ts) ==> !Raced(Steps(w, ts))
  {
    if ts != [] {
      SaneSteps(w, ts[..|ts| - 1]);
      SaneStep(Steps(w, ts[..|ts| - 1]), ts[|ts| - 1]);
    }
  }

  /** A dialog raised at `since` is up and its grace is over. */
  predicate Overdue(e: Env, since: nat) { e.dialog.value == Some(since) && e.now >= since + BLOCKED_GRACE }

  /** How many accesses a wait behind such a dialog has left. */
  function Left(pc: Pc): nat {
    match pc
    case Over(_) => 0
    case Timing(_, _) => 1
    case Reading(_) => 2
    case Looking => 3
    case Asleep(_) => 4
    case Marking(_) => 5
  }

  lemma OverdueStep(w: Wait, t: Turn, since: nat)
    requires Sane(w) && !Raced(w) && !w.pc.Over? && Overdue(w.env, since)
    requires Step(w, t).env.dialog.value == Some(since)
    ensures var n := Step(w, t);
      && Overdue(n.env, since) && !Raced(n) && Sane(n) && Left(n.pc) < Left(w.pc) && (n.pc.Over? ==> n.pc.end.Fails?)
  {
    SaneStep(w, t);
    EventsMoveDialog(w.env, t.events);
    hide ApplyAll;
  }

  /** The dialog is up throughout. */
  predicate StaysUp(w: Wait, ts: seq<Turn>, since: nat) {
    forall j :: 0 <= j <= |ts| ==> Steps(w, ts[..j]).env.dialog.value == Some(since)
  }

  lemma StaysUpTail(w: Wait, ts: seq<Turn>, since: nat)
    requires StaysUp(w, ts, since) && ts != []
    ensures StaysUp(Step(w, ts[0]), ts[1..], since) && Step(w, ts[0]).env.dialog.value == Some(since)
  {
    var n, rest := Step(w, ts[0]), ts[1..];
    forall j | 0 <= j <= |rest| ensures Steps(n, rest[..j]).env.dialog.value == Some(since) { StepsHead(w, ts, j + 1); }
    assert Steps(n, rest[..0]) == n;
    hide Step, Steps;
  }

  lemma {:induction false} OverdueEnds(w: Wait, ts: seq<Turn>, since: nat)
    requires Sane(w) && !Raced(w) && !w.pc.Over? && Overdue(w.env, since) && StaysUp(w, ts, since) && |ts| >= Left(w.pc)
    ensures Steps(w, ts).pc.Over? && Steps(w, ts).pc.end.Fails?
    decreases |ts|
  {
    var n := Step(w, ts[0]);
    StaysUpTail(w, ts, since);
    OverdueStep(w, ts[0], since);
    StepsHead(w, ts, |ts|);
    assert ts[..|ts|] == ts && ts[1..][..|ts| - 1] == ts[1..];
    hide Step, Steps, StaysUp, Sane, Raced;
    if n.pc.Over? { OverStays(n, ts[1..]); } else { OverdueEnds(n, ts[1..], since); }
  }

  lemma {:induction false} OverStays(w: Wait, ts: seq<Turn>)
    requires w.pc.Over?
    ensures Steps(w, ts).pc == w.pc
  {
    if ts != [] { OverStays(w, ts[..|ts| - 1]); }
  }

  /** From the moment a dialog's grace is over, an injection waiting behind it fails within the accesses of one round,
      at any agent state and on every schedule in which no dialog is raised between the round's read and its mark. */
  lemma DialogBound(w: Wait, ts: seq<Turn>, n: nat, since: nat)
    requires Sane(w) && w.pc.Looking? && n + 5 <= |ts| && Clean(w, ts[..n])
    requires !Steps(w, ts[..n]).pc.Over? && Overdue(Steps(w, ts[..n]).env, since)
    requires StaysUp(Steps(w, ts[..n]), ts[n..n + 5], since)
    ensures var end := Steps(w, ts[..n + 5]).pc; end.Over? && end.end.Fails?
  {
    SaneSteps(w, ts[..n]);
    OverdueEnds(Steps(w, ts[..n]), ts[n..n + 5], since);
    assert ts[..n + 5] == ts[..n] + ts[n..n + 5];
    StepsAppend(w, ts[..n], ts[n..n + 5]);
  }

  /** The wait run to its end, or as far as the script goes, with what is left of the script. */
  function Waited(w: Wait, ts: seq<Turn>): (Wait, seq<Turn>)
    decreases |ts|
  {
    if w.pc.Over? || ts == [] then (w, ts) else Waited(Step(w, ts[0]), ts[1..])
  }

  /** What the worker notes at an access of its wait. */
  function Noted(w: Wait, t: Turn): seq<Entry> {
    var e := ApplyAll(w.env, t.events);
    match w.pc
    case Looking => [Saw(e.state.value)]
    case Reading(_) => [ReadDialog(e.dialog.value)]
    case Timing(idle, read) => TimeNoted(e, idle, read)
    case Marking(_) => []
    case Asleep(read) => WakeNoted(e, Polled(e, Timer, GraceOver(read, e.now), t.pick))
    case Over(_) => []
  }

  /** The clock is only read behind a dialog; what is not decided then goes to sleep. */
  function TimeNoted(e: Env, idle: bool, read: Option<nat>): seq<Entry> {
    (if read.Some? then [Timed(e.now)] else []) + (if Weighed(e, idle, read).Marking? then [Parked] else [])
  }

  /** A change of the debounced state is noticed when it wakes the worker. */
  function WakeNoted(e: Env, b: Option<Branch>): seq<Entry> { if b == Some(Debounced) && Unseen(e, Debounced) then [Moved] else [] }

  /** What the worker notes during the wait. */
  function WaitLog(w: Wait, ts: seq<Turn>): seq<Entry>
    decreases |ts|
  {
    if w.pc.Over? || ts == [] then [] else Noted(w, ts[0]) + WaitLog(Step(w, ts[0]), ts[1..])
  }

  /** A wait types nothing. */
  lemma {:induction false} WaitWritesNothing(w: Wait, ts: seq<Turn>)
    ensures forall i :: 0 <= i < |WaitLog(w, ts)| ==> !Writes(WaitLog(w, ts)[i]) && !WaitLog(w, ts)[i].Answer?
    decreases |ts|
  {
    if !w.pc.Over? && ts != [] {
      WaitWritesNothing(Step(w, ts[0]), ts[1..]);
      hide Step, Polled, Weighed, ApplyAll;
    }
  }

  /** From one point of the wait to a later one: the log has grown by what is noted in between. */
  ghost predicate Tells(before: seq<Entry>, w: Wait, ts: seq<Turn>, after: seq<Entry>, x: Wait, rest: seq<Turn>) {
    Waited(w, ts) == Waited(x, rest) && before + WaitLog(w, ts) == after + WaitLog(x, rest)
  }

  /** The script ended the wait at e, before anything else did. */
  ghost predicate CutShort(before: seq<Entry>, w: Wait, ts: seq<Turn>, after: seq<Entry>, e: Env) {
    var x := Waited(w, ts).0;
    !x.pc.Over? && x.env == e && after == before + WaitLog(w, ts)
  }

  /** One access further, at each point of the wait. */
  lemma WaitedStep(w: Wait, ts: seq<Turn>, e: Env, l: seq<Entry>)
    requires ts != [] ==> e == ApplyAll(w.env, ts[0].events)
    ensures ts == [] && !w.pc.Over? ==> CutShort(l, w, ts, l, w.env)
    ensures ts != [] && w.pc.Looking? ==> Tells(l, w, ts, l + [Saw(e.state.value)], Looked(e), ts[1..])
    ensures ts != [] && w.pc.Reading? ==> Tells(l, w, ts, l + [ReadDialog(e.dialog.value)], Wait(Timing(w.pc.idle, e.dialog.value), e), ts[1..])
    ensures ts != [] && w.pc.Timing? ==>
      Tells(l, w, ts, l + TimeNoted(e, w.pc.idle, w.pc.read), Wait(Weighed(e, w.pc.idle, w.pc.read), e), ts[1..])
    ensures ts != [] && w.pc.Marking? ==> Tells(l, w, ts, l, Wait(Asleep(w.pc.read), MarkedSeen(e, Dialogs)), ts[1..])
    ensures ts != [] && w.pc.Asleep? ==>
      var b := Polled(e, Timer, GraceOver(w.pc.read, e.now), ts[0].pick);
      Tells(l, w, ts, l + WakeNoted(e, b), if b.None? then w.(env := e) else Woken(e, b.value), ts[1..])
  {
    if ts != [] && !w.pc.Over? {
      assert l + (Noted(w, ts[0]) + WaitLog(Step(w, ts[0]), ts[1..])) == (l + Noted(w, ts[0])) + WaitLog(Step(w, ts[0]), ts[1..]);
      assert l + [] == l;
    }
    hide ApplyAll, Polled, Woken, Looked, Weighed, MarkedSeen, WakeNoted, TimeNoted;
  }

  lemma WaitedOver(w: Wait, ts: seq<Turn>)
    requires w.pc.Over?
    ensures Waited(w, ts) == (w, ts) && WaitLog(w, ts) == []
  {
  }

  lemma {:induction false} WaitedIsSteps(w: Wait, ts: seq<Turn>)
    ensures var (x, rest) := Waited(w, ts);
      && |rest| <= |ts| && Steps(w, ts[..|ts| - |rest|]) == x && (x.pc.Over? || rest == [])
      && forall j :: 0 <= j < |ts| - |rest| ==> !Steps(w, ts[..j]).pc.Over?
    decreases |ts|
  {
    if !w.pc.Over? && ts != [] {
      var n := Step(w, ts[0]);
      WaitedIsSteps(n, ts[1..]);
      forall j | 0 < j <= |ts| ensures Steps(w, ts[..j]) == Steps(n, ts[1..][..j - 1]) { StepsHead(w, ts, j); }
      assert Steps(w, ts[..0]) == w;
      hide Step, Steps;
    }
  }

  /** The agent neither exited nor restarted, and nothing hung up. */
  predicate Attached(e: Env) {
    && !e.state.value.Exited? && !e.state.value.Restarting? && !e.epoch.unseen
    && !e.state.closed && !e.epoch.closed && !e.dialog.closed
  }

  predicate Detaches(ev: Event) {
    ev == SetState(Exited) || ev == SetState(Restarting) || ev.BumpEpoch? || ev.CloseState? || ev.CloseEpoch? || ev.CloseDialog?
  }

  predicate Steady(evs: seq<Event>) { forall i :: 0 <= i < |evs| ==> !Detaches(evs[i]) }

  lemma {:induction false} StaysAttached(e: Env, evs: seq<Event>)
    requires Attached(e) && Steady(evs)
    ensures Attached(ApplyAll(e, evs))
  {
    if evs != [] {
      StaysAttached(e, evs[..|evs| - 1]);
      var f := ApplyAll(e, evs[..|evs| - 1]);
      assert Attached(Apply(f, evs[|evs| - 1]));
    }
  }

  /** While the agent stays, Blocked is the only error a wait ends with. */
  lemma {:induction false} OnlyBlocked(w: Wait, ts: seq<Turn>)
    requires Attached(w.env) && (w.pc.Over? && w.pc.end.Fails? ==> w.pc.end == Fails(Blocked))
    requires forall i :: 0 <= i < |ts| ==> Steady(ts[i].events)
    ensures var x := Steps(w, ts); Attached(x.env) && (x.pc.Over? && x.pc.end.Fails? ==> x.pc.end == Fails(Blocked))
  {
    if ts != [] {
      OnlyBlocked(w, ts[..|ts| - 1]);
      StaysAttached(Steps(w, ts[..|ts| - 1]).env, ts[|ts| - 1].events);
      hide Steady, ApplyAll;
    }
  }

  lemma WaitedBy(w: Wait, ts: seq<Turn>, m: nat)
    requires m <= |ts| && Steps(w, ts[..m]).pc.Over?
    ensures var (x, rest) := Waited(w, ts); x.pc == Steps(w, ts[..m]).pc && |ts| - |rest| <= m
  {
    WaitedIsSteps(w, ts);
    var (x, rest) := Waited(w, ts);
    var n := |ts| - |rest|;
    hide Waited, Steps;
    assert !(n > m);
    assert ts[..n] + ts[n..m] == ts[..m];
    StepsAppend(w, ts[..n], ts[n..m]);
    if x.pc.Over? { OverStays(x, ts[n..m]); }
  }

  /** So the wait of an injection is over at most five accesses after the grace, with an error, and with Blocked if the agent
      neither exited nor restarted. */
  lemma OverdueWaitFails(e: Env, ts: seq<Turn>, n: nat, since: nat)
    requires Timely(e) && n + 5 <= |ts| && Clean(Wait(Looking, e), ts[..n])
    requires var x := Steps(Wait(Looking, e), ts[..n]); !x.pc.Over? && Overdue(x.env, since) && StaysUp(x, ts[n..n + 5], since)
    ensures var (x, rest) := Waited(Wait(Looking, e), ts);
      && x.pc.Over? && x.pc.end.Fails? && |ts| - |rest| <= n + 5
      && (Attached(e) && (forall i :: 0 <= i < n + 5 ==> Steady(ts[i].events)) ==> x.pc.end == Fails(Blocked))
  {
    var w := Wait(Looking, e);
    DialogBound(w, ts, n, since);
    WaitedBy(w, ts, n + 5);
    if Attached(e) && forall i :: 0 <= i < n + 5 ==> Steady(ts[i].events) { OnlyBlocked(w, ts[..n + 5]); }
    hide *;
  }

  // ---- exactly when it holds ----

  /** However the schedule goes on, a dialog that is up past its grace ends the wait, as long as no later round is raced. */
  ghost predicate Bounded(w: Wait) {
    forall ts: seq<Turn>, n: nat, since: nat :: EndsBy(w, ts, n, since)
  }

  ghost predicate EndsBy(w: Wait, ts: seq<Turn>, n: nat, since: nat) {
    (n + 5 == |ts| && Clean(w, ts[..n]) && !Steps(w, ts[..n]).pc.Over? && Overdue(Steps(w, ts[..n]).env, since)
     && StaysUp(Steps(w, ts[..n]), ts[n..], since)) ==> Steps(w, ts).pc.Over? && Steps(w, ts).pc.end.Fails?
  }

  /** The worker asleep: bounded exactly when it did not miss the dialog that is up. */
  lemma BoundedIffNotRaced(w: Wait)
    requires Sane(w) && w.pc.Asleep?
    ensures Bounded(w) <==> !Raced(w)
  {
    if Raced(w) {
      var ts := Sleepless(BLOCKED_GRACE);
      StaysAsleep(w, BLOCKED_GRACE);
      assert !EndsBy(w, ts, 1, w.env.dialog.value.value);
    } else {
      forall ts: seq<Turn>, n: nat, since: nat ensures EndsBy(w, ts, n, since) {
        if n + 5 == |ts| && Clean(w, ts[..n]) && !Steps(w, ts[..n]).pc.Over? && Overdue(Steps(w, ts[..n]).env, since)
           && StaysUp(Steps(w, ts[..n]), ts[n..], since) {
          SaneSteps(w, ts[..n]);
          OverdueEnds(Steps(w, ts[..n]), ts[n..], since);
          assert ts == ts[..n] + ts[n..];
          StepsAppend(w, ts[..n], ts[n..]);
        }
      }
    }
  }

  /** Time passes once, then the worker is polled five times more. */
  function Sleepless(ms: nat): seq<Turn> {
    [Turn([Tick(ms)], Timer), Turn([], Timer), Turn([], Timer), Turn([], Timer), Turn([], Timer), Turn([], Timer)]
  }

  lemma TickOnly(w: Wait, ms: nat)
    requires Raced(w) && w.pc.Asleep?
    ensures Step(w, Turn([Tick(ms)], Timer)) == w.(env := w.env.(now := w.env.now + ms))
  {
    assert [Tick(ms)][..0] == [];
    assert ApplyAll(w.env, [Tick(ms)]) == w.env.(now := w.env.now + ms);
  }

  lemma {:induction false} IdlePolls(w: Wait, ts: seq<Turn>)
    requires Raced(w) && w.pc.Asleep? && forall i :: 0 <= i < |ts| ==> ts[i] == Turn([], Timer)
    ensures Steps(w, ts) == w
  {
    if ts != [] { IdlePolls(w, ts[..|ts| - 1]); }
  }

  lemma IdleStaysUp(w: Wait, ts: seq<Turn>)
    requires Raced(w) && w.pc.Asleep? && forall i :: 0 <= i < |ts| ==> ts[i] == Turn([], Timer)
    ensures StaysUp(w, ts, w.env.dialog.value.value)
  {
    forall j | 0 <= j <= |ts| ensures Steps(w, ts[..j]) == w { IdlePolls(w, ts[..j]); }
    hide Steps;
  }

  /** A raced worker does not notice how long it sleeps. */
  lemma StaysAsleep(w: Wait, ms: nat)
    requires Raced(w) && w.pc.Asleep?
    ensures var m, ts := w.(env := w.env.(now := w.env.now + ms)), Sleepless(ms);
      Steps(w, ts) == m == Steps(w, ts[..1]) && StaysUp(m, ts[1..], w.env.dialog.value.value) && Clean(w, ts[..1])
  {
    var m, ts := w.(env := w.env.(now := w.env.now + ms)), Sleepless(ms);
    TickOnly(w, ms);
    assert ts[..1] == [ts[0]] && [ts[0]][..0] == [];
    assert Steps(w, ts[..1]) == m;
    IdlePolls(m, ts[1..]);
    StepsAppend(w, ts[..1], ts[1..]);
    assert ts == ts[..1] + ts[1..];
    IdleStaysUp(m, ts[1..]);
    hide Step, ApplyAll, StaysUp;
  }

  /** The condition, in terms of the two turns between the read that finds no dialog and the mark: the dialog must not be
      up by then, unless another watch has something to say anyway. */
  lemma BoundExact(w: Wait, a: Turn, b: Turn)
    requires Sane(w) && w.pc == Timing(false, None)
    ensures var m, f := Steps(w, [a, b]), ApplyAll(ApplyAll(w.env, a.events), b.events);
      && m.pc == Asleep(None)
      && (Bounded(m) <==> f.dialog.value.None? || Changed(f, Debounced) || Changed(f, Epoch) || Closed(f, Dialogs))
  {
    var m := Steps(w, [a, b]);
    assert [a, b][..1] == [a] && [a][..0] == [];
    assert [a][0] == a && [a, b][1] == b && Steps(w, []) == w;
    assert Steps(w, [a]) == Step(w, a);
    assert m == Step(Step(w, a), b);
    SaneStep(w, a);
    SaneStep(Step(w, a), b);
    BoundedIffNotRaced(m);
  }

  /** So with no raise in those two turns, and none up before, it holds. */
  lemma NoRaiseNoRace(w: Wait, a: Turn, b: Turn)
    requires Sane(w) && w.pc == Timing(false, None) && w.env.dialog.value.None?
    requires RaiseDialog !in a.events && RaiseDialog !in b.events
    ensures Bounded(Steps(w, [a, b]))
  {
    BoundExact(w, a, b);
    NoRaiseNoDialog(w.env, a.events);
    NoRaiseNoDialog(ApplyAll(w.env, a.events), b.events);
  }

  /** An agent at work, nothing queued, no dialog. */
  const AT_WORK: Env := Env(0, [], false, Watch(Working, false, false), Watch(0, false, false), Watch(None, false, false),
                            true, true, HoldQuiet, 0, 0, 0)

  /** The hook raises the dialog after the read and before the mark. */
  const RACE: seq<Turn> := [Turn([], Timer), Turn([], Timer), Turn([RaiseDialog], Timer), Turn([], Timer)]

  /** The race, step by step: an injection parked behind a dialog for as long as you like. */
  lemma RacedDialogHoldsForever(ms: nat)
    ensures var w := Steps(Wait(Looking, AT_WORK), RACE + Sleepless(ms));
      w.pc == Asleep(None) && w.env.dialog.value == Some(0) && w.env.now == ms
  {
    var w := Wait(Looking, AT_WORK);
    assert RACE[..3][..2] == RACE[..2] && RACE[..2][..1] == RACE[..1] && RACE[..1][..0] == [];
    var raised := ApplyAll(AT_WORK, [RaiseDialog]);
    assert [RaiseDialog][..0] == [];
    assert raised == AT_WORK.(dialog := Watch(Some(0), true, false));
    assert Steps(w, RACE[..1]) == Wait(Reading(false), AT_WORK);
    assert Steps(w, RACE[..2]) == Wait(Timing(false, None), AT_WORK);
    assert Steps(w, RACE[..3]) == Wait(Marking(None), raised);
    var m := Steps(w, RACE);
    assert m == Wait(Asleep(None), raised.(dialog := Watch(Some(0), false, false)));
    StaysAsleep(m, ms);
    StepsAppend(w, RACE, Sleepless(ms));
  }

  // ---- the confirmation of a submit ----

  /** One select of the confirmation: polled until its timer or one of the three watches is ready,
      with the branch taken and what is left of the script. */
  function Hush(e: Env, until: nat, ts: seq<Turn>): (Env, Option<Branch>, seq<Turn>)
    decreases |ts|
  {
    if ts == [] then (e, None, ts)
    else
      var f := ApplyAll(e, ts[0].events);
      var b := Polled(f, Timer, f.now >= until, ts[0].pick);
      if b.Some? then (f, b, ts[1..]) else Hush(f, until, ts[1..])
  }

  lemma HushStep(e: Env, until: nat, ts: seq<Turn>, f: Env)
    requires ts != [] ==> f == ApplyAll(e, ts[0].events)
    ensures ts == [] ==> Hush(e, until, ts) == (e, None, ts)
    ensures ts != [] ==> var b := Polled(f, Timer, f.now >= until, ts[0].pick);
      Hush(e, until, ts) == if b.Some? then (f, b, ts[1..]) else Hush(f, until, ts[1..])
  {
  }

  lemma SomethingChanged(e: Env, b: Branch)
    requires Changed(e, b)
    ensures AnyChanged(e)
  {
  }

  /** The state of things after some turns in which the worker only looks. */
  function After(e: Env, ts: seq<Turn>): Env
    decreases |ts|
  {
    if ts == [] then e else After(ApplyAll(e, ts[0].events), ts[1..])
  }

  /** It ends at the first poll that finds the time up or anything changed; Enter is due again only if the time is up,
      and nothing had changed at any poll before. */
  lemma {:induction false} HushEndsAtOnce(e: Env, until: nat, ts: seq<Turn>)
    ensures var (f, b, rest) := Hush(e, until, ts); var n := |ts| - |rest|;
      && 0 <= n && rest == ts[n..] && f == After(e, ts[..n]) && (b.None? ==> n == |ts|)
      && (b == Some(Timer) ==> f.now >= until) && (b.Some? && b != Some(Timer) ==> Changed(f, b.value))
      && forall j :: 0 < j < n ==> !AnyChanged(After(e, ts[..j])) && After(e, ts[..j]).now < until
    decreases |ts|
  {
    if ts != [] {
      var f := ApplyAll(e, ts[0].events);
      forall j | 0 < j <= |ts| ensures After(e, ts[..j]) == After(f, ts[1..][..j - 1]) {
        assert ts[..j][0] == ts[0] && ts[..j][1..] == ts[1..][..j - 1];
      }
      if Polled(f, Timer, f.now >= until, ts[0].pick).None? {
        HushEndsAtOnce(f, until, ts[1..]);
        assert After(f, ts[1..][..0]) == f;
      }
      hide ApplyAll, AnyChanged, After;
    }
  }
}
