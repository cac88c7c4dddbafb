/** What the injection queue worker shares with the rest of the program, and how the rest of the program moves it. */
module InjectionEnv {
  import opened AgentStates
  import opened InjectionLog
  import opened Optional

  datatype Cmd = Inject(id: Id) | Reconsider

  /** A watch channel as its receiver sees it: the value, whether a change is unseen, whether the sender is gone. */
  datatype Watch<T> = Watch(value: T, unseen: bool, closed: bool)

  /** coming counts injections whose depth is already raised but which are not on the queue yet;
      issued counts those that are or were. dialog holds when the dialog that is up was raised. */
  datatype Env = Env(
    now: nat, cmds: seq<Cmd>, sendersGone: bool,
    state: Watch<AgentState>, epoch: Watch<nat>, dialog: Watch<Option<nat>>,
    writerUp: bool, gateUp: bool, decision: Decision,
    depth: nat, coming: nat, issued: nat)

  datatype Event =
    | Tick(ms: nat) | SetState(state: AgentState) | BumpEpoch | RaiseDialog | ClearDialog
    | RaiseDepth | Push | Sweep | SetDecision(decision: Decision)
    | DropSenders | CloseState | CloseEpoch | CloseDialog | DropWriter | DropGate

  datatype Branch = Commands | Debounced | Epoch | Dialogs | Timer

  /** What happens before the worker's next access of anything shared, and which ready branch a select then takes. */
  datatype Turn = Turn(events: seq<Event>, pick: Branch)

  function Apply(e: Env, ev: Event): Env {
    match ev
    case Tick(ms) => e.(now := e.now + ms)
    case SetState(s) => e.(state := Watch(s, true, e.state.closed))
    case BumpEpoch => e.(epoch := Watch(e.epoch.value + 1, true, e.epoch.closed))
    case RaiseDialog => if e.dialog.value.Some? then e else e.(dialog := Watch(Some(e.now), true, e.dialog.closed))
    case ClearDialog => if e.dialog.value.None? then e else e.(dialog := Watch(None, true, e.dialog.closed))
    case RaiseDepth => if e.sendersGone then e else e.(depth := e.depth + 1, coming := e.coming + 1)
    case Push => if e.coming == 0 then e else e.(cmds := e.cmds + [Inject(e.issued)], issued := e.issued + 1, coming := e.coming - 1)
    case Sweep => if e.sendersGone then e else e.(cmds := e.cmds + [Reconsider])
    case SetDecision(d) => e.(decision := d)
    case DropSenders => if e.coming > 0 then e else e.(sendersGone := true)
    case CloseState => e.(state := e.state.(closed := true))
    case CloseEpoch => e.(epoch := e.epoch.(closed := true))
    case CloseDialog => e.(dialog := e.dialog.(closed := true))
    case DropWriter => e.(writerUp := false)
    case DropGate => e.(gateUp := false)
  }

  function ApplyAll(e: Env, evs: seq<Event>): Env {
    if evs == [] then e else Apply(ApplyAll(e, evs[..|evs| - 1]), evs[|evs| - 1])
  }

  /** What the others do before an access that is not an await: the next turn's events, if the script has one. */
  function Drifted(e: Env, ts: seq<Turn>): Env { if ts == [] then e else ApplyAll(e, ts[0].events) }

  function Later(ts: seq<Turn>): seq<Turn> { if ts == [] then [] else ts[1..] }

  /** A dialog was raised at the clock's time. */
  predicate Timely(e: Env) { e.dialog.value.Some? ==> e.dialog.value.value <= e.now }

  /** What only ever moves one way, whoever acts. */
  predicate Onward(e: Env, f: Env) {
    e.now <= f.now && e.issued <= f.issued && (f.writerUp ==> e.writerUp) && (Timely(e) ==> Timely(f))
  }

  lemma {:induction false} OnwardAll(e: Env, evs: seq<Event>)
    ensures Onward(e, ApplyAll(e, evs))
  {
    if evs != [] {
      OnwardAll(e, evs[..|evs| - 1]);
      var f := ApplyAll(e, evs[..|evs| - 1]);
      assert Onward(f, Apply(f, evs[|evs| - 1]));
    }
  }

  /** An entry of the log that reports a read agrees with what was there to read. */
  predicate Honest(entry: Entry, e: Env) {
    match entry
    case Saw(s) => s == e.state.value
    case Peek(s) => s == e.state.value
    case ReadDialog(raised) => raised == e.dialog.value
    case Timed(now) => now == e.now
    case Enter(now) => now == e.now
    case Quiet(now) => now == e.now
    case Resend(now) => now == e.now
    case Consult(_, d) => d == e.decision
    case _ => true
  }

  // ---- selects ----

  function Unseen(e: Env, b: Branch): bool {
    match b case Debounced => e.state.unseen case Epoch => e.epoch.unseen case Dialogs => e.dialog.unseen case _ => false
  }

  function Closed(e: Env, b: Branch): bool {
    match b case Debounced => e.state.closed case Epoch => e.epoch.closed case Dialogs => e.dialog.closed case _ => false
  }

  /** `changed()` returns for an unseen change, and for a sender that is gone. */
  predicate Changed(e: Env, b: Branch) { Unseen(e, b) || Closed(e, b) }

  function MarkedSeen(e: Env, b: Branch): Env {
    match b
    case Debounced => e.(state := e.state.(unseen := false))
    case Epoch => e.(epoch := e.epoch.(unseen := false))
    case Dialogs => e.(dialog := e.dialog.(unseen := false))
    case _ => e
  }

  /** A dialog that comes up and goes leaves none, but a change to notice, and so does a restart; the senders are gone only
      once nothing is on its way from them. */
  lemma EventsTell(e: Env)
    ensures var f := Apply(Apply(e, RaiseDialog), ClearDialog); f.dialog.value.None? && f.dialog.unseen
    ensures var f := Apply(e, BumpEpoch); f.epoch.unseen && f.epoch.value > e.epoch.value
    ensures Apply(e, DropSenders).sendersGone <==> e.sendersGone || e.coming == 0
    ensures !Apply(e, DropGate).gateUp && !Apply(e, DropWriter).writerUp
  {
    hide Unseen, MarkedSeen;
  }

  /** Taking one watch's change takes no other's, and closes none. */
  lemma MarkedIsSeen(e: Env, b: Branch, c: Branch)
    ensures var f := MarkedSeen(e, b); !Unseen(f, b) && Closed(f, c) == Closed(e, c) && (c != b ==> Unseen(f, c) == Unseen(e, c))
  {
    hide Apply;
  }

  predicate AnyChanged(e: Env) { Changed(e, Debounced) || Changed(e, Epoch) || Changed(e, Dialogs) }

  /** One poll of a select over the three watches and one more branch: nothing when no branch is ready, else the one
      picked if it is ready, else another that is. */
  function Polled(e: Env, other: Branch, otherReady: bool, pick: Branch): (b: Option<Branch>)
    requires other.Commands? || other.Timer?
    ensures b.None? <==> !AnyChanged(e) && !otherReady
    ensures b.Some? ==> if b.value == other then otherReady else Changed(e, b.value)
    ensures (pick == other && otherReady) || Changed(e, pick) ==> b == Some(pick)
  {
    if (pick == other && otherReady) || Changed(e, pick) then Some(pick)
    else if otherReady then Some(other)
    else if Changed(e, Debounced) then Some(Debounced)
    else if Changed(e, Epoch) then Some(Epoch)
    else if Changed(e, Dialogs) then Some(Dialogs)
    else None
  }

  // ---- the queue and its depth ----

  function Ids(cmds: seq<Cmd>): seq<Id> {
    if cmds == [] then []
    else
      var c := cmds[|cmds| - 1];
      if c.Inject? then Ids(cmds[..|cmds| - 1]) + [c.id] else Ids(cmds[..|cmds| - 1])
  }

  /** The ids lo, lo + 1, ... below hi. */
  function Range(lo: nat, hi: nat): seq<Id> { if hi <= lo then [] else Range(lo, hi - 1) + [hi - 1] }

  lemma {:induction false} RangeHead(lo: nat, hi: nat)
    requires lo < hi
    ensures Range(lo, hi) == [lo] + Range(lo + 1, hi) && |Range(lo, hi)| == hi - lo
  {
    if lo + 1 < hi { RangeHead(lo, hi - 1); }
  }

  lemma IdsAppend(cmds: seq<Cmd>, c: Cmd)
    ensures Ids(cmds + [c]) == if c.Inject? then Ids(cmds) + [c.id] else Ids(cmds)
  {
    assert (cmds + [c])[..|cmds|] == cmds;
  }

  lemma {:induction false} IdsPop(cmds: seq<Cmd>)
    requires cmds != []
    ensures Ids(cmds) == if cmds[0].Inject? then [cmds[0].id] + Ids(cmds[1..]) else Ids(cmds[1..])
  {
    if |cmds| > 1 {
      IdsPop(cmds[..|cmds| - 1]);
      assert cmds[1..][..|cmds| - 2] == cmds[..|cmds| - 1][1..];
    }
  }

  /** The first `done` injections are answered, the next is in hand if one is, the rest wait in order,
      depth counts the unanswered, and nothing is on its way once the senders are gone. */
  ghost predicate Accounts(e: Env, done: nat, holding: bool) {
    var lo := if holding then done + 1 else done;
    && lo <= e.issued
    && Ids(e.cmds) == Range(lo, e.issued)
    && e.depth == e.issued - done + e.coming
    && (e.sendersGone ==> e.coming == 0)
  }

  /** Only Push and Sweep touch the queue; each raise of the depth is matched by an injection on its way. */
  lemma QueueApply(e: Env, ev: Event)
    ensures var f := Apply(e, ev);
      && f.issued == e.issued + (if ev.Push? && e.coming > 0 then 1 else 0)
      && f.depth + e.issued + e.coming == e.depth + f.issued + f.coming
      && ((e.sendersGone ==> e.coming == 0) ==> (f.sendersGone ==> f.coming == 0))
      && f.cmds == if ev.Push? && e.coming > 0 then e.cmds + [Inject(e.issued)]
                   else if ev.Sweep? && !e.sendersGone then e.cmds + [Reconsider] else e.cmds
  {
  }

  lemma AccountsApply(e: Env, ev: Event, done: nat, holding: bool)
    requires Accounts(e, done, holding)
    ensures Accounts(Apply(e, ev), done, holding)
  {
    QueueApply(e, ev);
    QueueGrows(e, Apply(e, ev), done, holding);
  }

  lemma QueueGrows(e: Env, f: Env, done: nat, holding: bool)
    requires Accounts(e, done, holding) && (f.sendersGone ==> f.coming == 0)
    requires f.depth + e.issued + e.coming == e.depth + f.issued + f.coming
    requires (f.cmds == e.cmds + [Inject(e.issued)] && f.issued == e.issued + 1)
          || (f.cmds == e.cmds + [Reconsider] && f.issued == e.issued) || (f.cmds == e.cmds && f.issued == e.issued)
    ensures Accounts(f, done, holding)
  {
    IdsAppend(e.cmds, Inject(e.issued));
    IdsAppend(e.cmds, Reconsider);
  }

  /** Taking the depth down settles the injection in hand. */
  lemma AccountsLower(e: Env, done: nat)
    requires Accounts(e, done, true)
    ensures e.depth > 0 && Accounts(e.(depth := e.depth - 1), done + 1, false)
  {
  }

  lemma SeenAccounts(e: Env, b: Branch, done: nat, holding: bool)
    requires Accounts(e, done, holding)
    ensures Accounts(MarkedSeen(e, b), done, holding)
  {
  }

  lemma AllAnswered(e: Env, done: nat)
    requires Accounts(e, done, false) && e.cmds == []
    ensures done == e.issued
  {
  }

  lemma {:induction false} AccountsApplyAll(e: Env, evs: seq<Event>, done: nat, holding: bool)
    requires Accounts(e, done, holding)
    ensures Accounts(ApplyAll(e, evs), done, holding)
  {
    if evs != [] {
      AccountsApplyAll(e, evs[..|evs| - 1], done, holding);
      AccountsApply(ApplyAll(e, evs[..|evs| - 1]), evs[|evs| - 1], done, holding);
    }
  }
}
