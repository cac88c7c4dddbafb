/** One agent's session: lifecycle calls one at a time, reaper threads and hook reports at any moment between their lock regions. */
module Session {
  import opened AgentStates
  import opened Optional

  datatype Exit = Code(code: int) | Signal(name: string)

  /** A permission dialog and the (sub)agent it belongs to; None is the main session. */
  datatype Dialog = Dialog(since: nat, owner: Option<string>)

  /** A process with its reaper: the epoch it was spawned in, and whether its exit has been handled. */
  datatype Child = Child(epoch: nat, reaped: bool)

  /** Where the lifecycle call in progress stands: between its lock regions, or waiting for a reaper. */
  datatype Phase = Free | Spawning(restart: bool) | Reaping(child: nat, restart: bool)

  datatype StopResult = NothingToStop | Stopping

  /** Everything about the handle that its invariant is about. */
  datatype View = View(raw: AgentState, epoch: nat, session: Option<nat>, exit: Option<Exit>, dialog: Option<Dialog>,
                       phase: Phase, children: seq<Child>)

  /** Events alternate, a raised dialog first. */
  predicate Alternating(events: seq<bool>) { forall i :: 0 <= i < |events| ==> events[i] == (i % 2 == 0) }

  /** They alternate and end at the flag. */
  predicate Tells(events: seq<bool>, flag: bool) { Alternating(events) && flag == (events != [] && events[|events| - 1]) }

  function Without(pending: seq<bool>, k: nat): seq<bool>
    requires k < |pending|
  {
    pending[..k] + pending[k + 1..]
  }

  /** An order of publishing everything that is pending: which one each time, counted among those left. */
  predicate IsOrder(pending: seq<bool>, picks: seq<nat>)
    decreases |pending|
  {
    if pending == [] then picks == []
    else picks != [] && picks[0] < |pending| && IsOrder(Without(pending, picks[0]), picks[1..])
  }

  function Published(pending: seq<bool>, picks: seq<nat>): seq<bool>
    requires IsOrder(pending, picks)
    decreases |pending|
  {
    if pending == [] then [] else [pending[picks[0]]] + Published(Without(pending, picks[0]), picks[1..])
  }

  lemma OnlyOrder(pending: seq<bool>, picks: seq<nat>)
    requires |pending| <= 1 && IsOrder(pending, picks)
    ensures Published(pending, picks) == pending
  {
  }

  lemma {:induction false} OldestFirst(pending: seq<bool>) returns (picks: seq<nat>)
    ensures IsOrder(pending, picks)
    decreases |pending|
  {
    if pending == [] { return []; }
    var rest := OldestFirst(Without(pending, 0));
    picks := [0] + rest;
  }

  /** The second oldest overtakes the oldest. */
  lemma SecondFirst(pending: seq<bool>) returns (picks: seq<nat>)
    requires |pending| > 1
    ensures IsOrder(pending, picks) && Published(pending, picks) != [] && Published(pending, picks)[0] == pending[1]
  {
    var rest := OldestFirst(Without(pending, 1));
    picks := [1] + rest;
  }

  lemma TellsAlternates(events: seq<bool>, flag: bool)
    ensures Tells(events, flag) ==> Alternating(events)
  {
  }

  lemma AlternatingTells(flips: seq<bool>)
    requires Alternating(flips)
    ensures Tells(flips, |flips| % 2 == 1)
  {
  }

  lemma OvertakenDoesNot(events: seq<bool>, pending: seq<bool>, out: seq<bool>)
    requires Alternating(events + pending) && |pending| > 1 && |out| > |events| && out[|events|] == pending[1]
    ensures !Alternating(out)
  {
    assert (events + pending)[|events| + 1] == pending[1];
  }

  /** A recorded exit means raw Exited and no session; so a live session has no recorded exit. */
  predicate ExitSound(v: View) { v.exit.Some? ==> v.raw.Exited? && v.session.None? }

  /** The only unreaped child of this epoch is the live session, or the one being stopped. */
  ghost predicate ChildrenSound(v: View) {
    && (forall c :: 0 <= c < |v.children| ==> v.children[c].epoch <= v.epoch)
    && (forall c :: 0 <= c < |v.children| && !v.children[c].reaped && v.children[c].epoch == v.epoch ==>
          v.session == Some(c) || v.phase == Reaping(c, false))
    && (v.session.Some? ==>
          var c := v.session.value;
          c < |v.children| && v.children[c] == Child(v.epoch, false) && v.phase.Free?)
  }

  predicate PhaseSound(v: View) {
    match v.phase
    case Free => true
    case Spawning(_) => v.session.None?
    case Reaping(c, restart) =>
      && v.session.None? && c < |v.children|
      && if restart then v.exit.None? && v.children[c].epoch < v.epoch
         else v.raw.Exited? && v.children[c].epoch == v.epoch && (v.children[c].reaped <==> v.exit.Some?)
  }

  ghost predicate Sound(v: View) { ExitSound(v) && ChildrenSound(v) && PhaseSound(v) }

  class AgentHandle {
    var raw: AgentState
    var epoch: nat
    var session: Option<nat>
    var exit: Option<Exit>
    var dialog: Option<Dialog>
    /** Dialog flips whose event is not published yet, oldest first, and the events published. */
    var pending: seq<bool>
    var events: seq<bool>
    /** The lifecycle call in progress, and every child ever spawned. */
    var phase: Phase
    var children: seq<Child>
    ghost var flips: seq<bool>
    /** Whether every event published so far was the oldest one pending. */
    ghost var inOrder: bool

    constructor ()
      ensures Valid() && session.None? && exit.None? && dialog.None? && phase.Free? && events == pending == flips == [] && inOrder
    {
      raw, epoch, session, exit, dialog := Starting, 0, None, None, None;
      pending, events, phase, children, flips, inOrder := [], [], Free, [], [], true;
    }

    ghost function Now(): View
      reads this
    {
      View(raw, epoch, session, exit, dialog, phase, children)
    }

    ghost predicate Valid()
      reads this
    {
      Sound(Now()) && FlipsSound()
    }

    /** The flag is the last flip; what is pending or published is every flip, and in their order if published so. */
    ghost predicate FlipsSound()
      reads this
    {
      && Alternating(flips) && dialog.Some? == (|flips| % 2 == 1) && |flips| == |pending| + |events|
      && (inOrder ==> events + pending == flips)
    }

    /** `take_blocked`: clears the flag and says whether it was set. */
    method TakeBlocked()
      requires FlipsSound()
      modifies this`dialog, this`pending, this`flips
      ensures FlipsSound() && dialog == None
      ensures pending == old(pending) + (if old(dialog).Some? then [false] else [])
    {
      if dialog.Some? {
        assert events + (pending + [false]) == (events + pending) + [false];
        dialog, pending, flips := None, pending + [false], flips + [false];
      }
    }

    // ---- lifecycle calls, a lock region at a time ----

    /** `spawn`, first region: a live session makes it a no-op. */
    method BeginSpawn()
      requires Valid() && phase.Free?
      modifies this`phase
      ensures Valid()
      ensures Now() == old(Now()).(phase := if old(session).Some? then Free else Spawning(false))
    {
      if session.None? { phase := Spawning(false); }
    }

    /** The gate refused, or the pty could not be opened; a restart then marks the agent exited. */
    method SpawnFailed()
      requires Valid() && phase.Spawning?
      modifies this`phase, this`raw
      ensures Valid()
      ensures Now() == old(Now()).(phase := Free, raw := if old(phase).restart then Exited else old(raw))
    {
      if phase.restart { raw := Exited; }
      phase := Free;
    }

    /** `spawn`, second region: the session lands under the epoch of the moment. */
    method SpawnLands()
      requires Valid() && phase.Spawning?
      modifies this`phase, this`raw, this`exit, this`session, this`children
      ensures Valid()
      ensures Now() == old(Now()).(phase := Free, raw := Starting, exit := None, session := Some(|old(children)|),
                                   children := old(children) + [Child(old(epoch), false)])
    {
      ghost var was := Now();
      session := Some(|children|);
      children := children + [Child(epoch, false)];
      exit, raw, phase := None, Starting, Free;
      LandsSound(was);
    }

    /** `restart`, first region: a new epoch, the old session taken. */
    method BeginRestart()
      requires Valid() && phase.Free?
      modifies this
      ensures Valid()
      ensures Now() == old(Now()).(epoch := old(epoch) + 1, raw := Restarting, exit := None, session := None, dialog := None,
        phase := if old(session).Some? then Reaping(old(session).value, true) else Spawning(true))
      ensures pending == old(pending) + (if old(dialog).Some? then [false] else []) && events == old(events)
    {
      epoch := epoch + 1;
      raw, exit := Restarting, None;
      phase := if session.Some? then Reaping(session.value, true) else Spawning(true);
      session := None;
      TakeBlocked();
    }

    /** `stop`, first region. */
    method BeginStop() returns (r: StopResult)
      requires Valid() && phase.Free?
      modifies this
      ensures Valid() && (r.NothingToStop? <==> old(session).None?)
      ensures r.NothingToStop? ==> Now() == old(Now()) && pending == old(pending)
      ensures r.Stopping? ==>
        Now() == old(Now()).(raw := Exited, session := None, dialog := None, phase := Reaping(old(session).value, false))
      ensures r.Stopping? ==> pending == old(pending) + (if old(dialog).Some? then [false] else [])
      ensures events == old(events)
    {
      if session.None? { return NothingToStop; }
      raw, phase, session := Exited, Reaping(session.value, false), None;
      TakeBlocked();
      return Stopping;
    }

    /** `reap` returns once the reaper has reported: a restart goes on to spawn, a stop is over and its exit recorded. */
    method ReapReturns() returns (stopped: bool)
      requires Valid() && phase.Reaping? && children[phase.child].reaped
      modifies this`phase
      ensures Valid() && stopped == !old(phase).restart
      ensures Now() == old(Now()).(phase := if stopped then Free else Spawning(true))
      ensures stopped ==> exit.Some? && raw.Exited? && session.None?
    {
      stopped := !phase.restart;
      phase := if stopped then Free else Spawning(true);
    }

    // ---- the reaper thread ----

    /** `on_child_exit`, then the reaper's oneshot; a reaper of an older epoch records nothing. */
    method ChildExits(c: nat, how: Exit)
      requires Valid() && c < |children| && !children[c].reaped
      modifies this
      ensures Valid() && events == old(events)
      ensures old(children[c].epoch) != old(epoch) ==>
        Now() == old(Now()).(children := old(children)[c := Child(old(children[c].epoch), true)]) && pending == old(pending)
      ensures old(children[c].epoch) == old(epoch) ==>
        Now() == old(Now()).(children := old(children)[c := Child(old(epoch), true)],
                             session := None, exit := Some(how), raw := Exited, dialog := None)
        && pending == old(pending) + (if old(dialog).Some? then [false] else [])
    {
      ghost var was := Now();
      if children[c].epoch == epoch {
        session, exit, raw := None, Some(how), Exited;
        TakeBlocked();
      }
      children := children[c := Child(children[c].epoch, true)];
      ExitsSound(was, c, how);
    }

    // ---- hook reports ----

    /** `report_state`: a change of raw state ends any dialog; nothing revives an exited agent. */
    method ReportState(state: AgentState)
      requires Valid()
      modifies this
      ensures Valid() && events == old(events)
      ensures (old(raw) == state || old(raw).Exited?) ==> Now() == old(Now()) && pending == old(pending)
      ensures !(old(raw) == state || old(raw).Exited?) ==>
        Now() == old(Now()).(raw := state, dialog := None)
        && pending == old(pending) + (if old(dialog).Some? then [false] else [])
    {
      if raw == state || raw.Exited? { return; }
      TakeBlocked();
      raw := state;
    }

    /** `report_blocked`: taken at Working or Idle, and a repeat keeps the dialog already up. */
    method ReportBlocked(now: nat, owner: Option<string>)
      requires Valid()
      modifies this`dialog, this`pending, this`flips
      ensures Valid() && events == old(events)
      ensures var raised := (old(raw).Working? || old(raw).Idle?) && old(dialog).None?;
        Now() == old(Now()).(dialog := if raised then Some(Dialog(now, owner)) else old(dialog))
        && pending == old(pending) + if raised then [true] else []
    {
      if !raw.Working? && !raw.Idle? { return; }
      if dialog.Some? { return; }
      assert events + (pending + [true]) == (events + pending) + [true];
      dialog, pending, flips := Some(Dialog(now, owner)), pending + [true], flips + [true];
    }

    /** `report_unblocked`: only the (sub)agent whose dialog is up clears it. */
    method ReportUnblocked(owner: Option<string>)
      requires Valid()
      modifies this`dialog, this`pending, this`flips
      ensures Valid() && events == old(events)
      ensures var cleared := old(dialog).Some? && old(dialog).value.owner == owner;
        Now() == old(Now()).(dialog := if cleared then None else old(dialog))
        && pending == old(pending) + if cleared then [false] else []
    {
      if dialog.Some? && dialog.value.owner == owner {
        TakeBlocked();
      }
    }

    /** A flip's event reaches the bus, outside the lock and so not necessarily the oldest first. */
    method Publish(k: nat)
      requires Valid() && k < |pending|
      modifies this`pending, this`events, this`inOrder
      ensures Valid() && Now() == old(Now()) && inOrder == (old(inOrder) && k == 0)
      ensures events == old(events) + [old(pending)[k]] && pending == old(pending)[..k] + old(pending)[k + 1..]
    {
      assert k == 0 ==> (events + [pending[0]]) + pending[1..] == events + pending;
      events := events + [pending[k]];
      pending := pending[..k] + pending[k + 1..];
      inOrder := inOrder && k == 0;
    }

    /** Published in order, the events alternate, and once nothing is pending the last one is the flag. */
    lemma EventsTellTheFlag()
      requires Valid() && inOrder
      ensures Alternating(events)
      ensures pending == [] ==> dialog.Some? == (events != [] && events[|events| - 1])
    {
      assert forall i :: 0 <= i < |events| ==> events[i] == flips[i];
    }

    /** From a state published in order so far, every order of publishing what is pending alternates and ends at the flag
        if and only if no more than one flip is pending: the guarantee holds as long as nothing flips the flag while
        another flip's event is unpublished, and only then. */
    lemma TellsIffOnePending()
      requires Valid() && inOrder
      ensures (forall picks :: IsOrder(pending, picks) ==> Tells(events + Published(pending, picks), dialog.Some?)) <==> |pending| <= 1
    {
      hide Sound, IsOrder, Published, Alternating, Tells;
      assert events + pending == flips;
      if |pending| <= 1 {
        forall picks | IsOrder(pending, picks) ensures Tells(events + Published(pending, picks), dialog.Some?) {
          OnlyOrder(pending, picks);
          AlternatingTells(flips);
        }
      } else {
        var picks := SecondFirst(pending);
        OvertakenDoesNot(events, pending, events + Published(pending, picks));
        TellsAlternates(events + Published(pending, picks), dialog.Some?);
      }
    }
  }

  /** A dialog raised and answered at once: the two events may reach the bus the wrong way round and leave it saying blocked. */
  method LateRaise() returns (h: AgentHandle)
    ensures fresh(h) && h.Valid() && h.dialog.None? && h.pending == [] && h.events == [false, true]
  {
    h := new AgentHandle();
    h.BeginSpawn();
    h.SpawnLands();
    h.ReportState(Idle);
    h.ReportBlocked(0, None);
    h.ReportUnblocked(None);
    assert h.pending == [true, false];
    h.Publish(1);
    assert h.pending == [true];
    h.Publish(0);
  }

  lemma LandsSound(v: View)
    requires Sound(v) && v.phase.Spawning?
    ensures Sound(v.(phase := Free, raw := Starting, exit := None, session := Some(|v.children|),
                     children := v.children + [Child(v.epoch, false)]))
  {
  }

  lemma ExitsSound(v: View, c: nat, how: Exit)
    requires Sound(v) && c < |v.children| && !v.children[c].reaped
    ensures var gone := v.(children := v.children[c := Child(v.children[c].epoch, true)]);
      Sound(if v.children[c].epoch == v.epoch then gone.(session := None, exit := Some(how), raw := Exited, dialog := None) else gone)
  {
  }

  /** At most one child of the current epoch is still to be reaped. */
  lemma OneLiveChild(v: View, c: nat, d: nat)
    requires Sound(v) && c < |v.children| && d < |v.children|
    requires v.children[c] == Child(v.epoch, false) && v.children[d] == Child(v.epoch, false)
    ensures c == d
  {
  }
}
