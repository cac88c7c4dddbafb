/** When a send kickoff counts as finished: the watcher of trigger.rs against a world that moves on its own. */
module Quiescence {
  import opened AgentStates
  import opened Optional

  type Agent = string

  /** An agent's debounced channel and its queue: version counts the sends, depth is None when it cannot be read. */
  datatype View = View(state: AgentState, version: nat, closed: bool, depth: Option<nat>)

  datatype MessageStatus = Queued | Injected | Working | Done | Replied | Failed

  /** Everything the watcher can read at one moment; the record is None when the store cannot be read. */
  datatype Snapshot = Snapshot(clock: nat, agents: Agent -> View, asks: nat, turns: nat, kickoff: Option<MessageStatus>)

  /** The world, moment by moment. */
  type World = nat -> Snapshot

  /** The clock reads c or more at some moment from s on. */
  ghost predicate Reaches(w: World, s: nat, c: nat) { exists u: nat :: s <= u && w(u).clock >= c }

  /** Time does not go back and does not stop; a channel's value only changes with a send, sends are never
      undone, and a channel once closed stays closed. */
  ghost predicate Lawful(w: World, roster: seq<Agent>) {
    && (forall s: nat, t: nat :: s <= t ==> w(s).clock <= w(t).clock)
    && (forall s: nat, c: nat :: Reaches(w, s, c))
    && (forall a, s: nat, t: nat :: a in roster && s <= t ==> w(s).agents(a).version <= w(t).agents(a).version)
    && (forall a, s: nat, t: nat :: a in roster && s <= t && w(s).agents(a).version == w(t).agents(a).version ==>
          w(s).agents(a).state == w(t).agents(a).state)
    && (forall a, s: nat, t: nat :: a in roster && s <= t && w(s).agents(a).closed ==> w(t).agents(a).closed)
  }

  /** How long the watcher waits before it looks again, in milliseconds. */
  const QUIESCENCE_POLL := 250

  datatype Reason = AgentExited(agent: Agent) | ChannelClosed(agent: Agent) | KickoffFailed | StoreFailed | BusClosed
  datatype Completion = Quiesced | Failure(reason: Reason) | Timeout

  datatype Verdict = Quiescent | Blocked | ExitedAgent(agent: Agent)

  // ---- what the verdict promises ----

  ghost predicate DepthZero(w: World, a: Agent, from: nat, upTo: nat)
  {
    exists u: nat :: from <= u <= upTo && w(u).agents(a).depth == Some(0)
  }

  /** Between two moments every queue, the pending asks and the open turns were each read as zero. */
  ghost predicate Empty(w: World, roster: seq<Agent>, from: nat, upTo: nat)
    requires Lawful(w, roster)
  {
    && (forall a :: a in roster ==> DepthZero(w, a, from, upTo))
    && (exists u: nat :: from <= u <= upTo && w(u).asks == 0)
    && (exists u: nat :: from <= u <= upTo && w(u).turns == 0)
  }

  /** Every agent's channel stays Idle and nothing is sent on it. */
  ghost predicate Still(w: World, roster: seq<Agent>, from: nat, upTo: nat)
    requires Lawful(w, roster)
  {
    forall a, u: nat :: a in roster && from <= u <= upTo ==>
      w(u).agents(a).state.Idle? && w(u).agents(a).version == w(from).agents(a).version
  }

  /** The deadline is not reached yet. */
  ghost predicate InTime(w: World, deadline: Option<nat>, m: nat) { deadline.None? || w(m).clock < deadline.value }

  /** A dwell of the debounce time without movement and before the deadline, everything empty on either side of it. */
  ghost predicate Dwell(w: World, roster: seq<Agent>, debounce: nat, deadline: Option<nat>, first: nat, begin: nat, end: nat, last: nat)
    requires Lawful(w, roster)
  {
    && first <= begin <= end <= last && w(end).clock >= w(begin).clock + debounce && InTime(w, deadline, end)
    && Still(w, roster, begin, end) && Empty(w, roster, first, begin) && Empty(w, roster, end, last)
  }

  /** A record that says neither that the agent saw the kickoff nor that it never will. */
  predicate Undecided(s: Option<MessageStatus>) { s == Some(Queued) || s == Some(Injected) }

  predicate Observed(s: Option<MessageStatus>) { s.Some? && (s.value.Working? || s.value.Done? || s.value.Replied?) }

  ghost predicate SettledDwell(w: World, roster: seq<Agent>, debounce: nat, deadline: Option<nat>, since: nat, last: nat)
    requires Lawful(w, roster)
  {
    exists first: nat, begin: nat, end: nat :: since <= first && Dwell(w, roster, debounce, deadline, first, begin, end, last)
  }

  /** The kickoff had reached the agent before the dwell. */
  ghost predicate JustlyQuiesced(w: World, roster: seq<Agent>, debounce: nat, deadline: Option<nat>, upTo: nat)
    requires Lawful(w, roster)
  {
    exists m: nat, last: nat :: last <= upTo && Observed(w(m).kickoff) && SettledDwell(w, roster, debounce, deadline, m, last)
  }

  /** From a moment on nothing moves and nothing is pending. */
  ghost predicate CalmFrom(w: World, roster: seq<Agent>, from: nat)
    requires Lawful(w, roster)
  {
    forall t: nat :: from <= t ==>
      && w(t).asks == 0 && w(t).turns == 0
      && forall a :: a in roster ==>
           var v := w(t).agents(a);
           v.state.Idle? && v.version == w(from).agents(a).version && !v.closed && v.depth == Some(0)
  }

  // ---- the watcher ----

  /** A bus event as the watcher sees it: the kickoff's status as of some moment, an agent's exit, anything else; or a lag, or the end. */
  datatype BusEvent = StatusChanged(m: nat) | AgentGone(agent: Agent) | Other | Lag | BusEnd

  /** The moments at which the kickoff's record was read: first on entry, then as each event that carries it or a lag had it. */
  ghost predicate ReadsOf(w: World, roster: seq<Agent>, events: seq<BusEvent>, looks: seq<nat>)
    decreases |events|
  {
    if events == [] then |looks| == 1
    else
      var init, n := events[..|events| - 1], |looks|;
      match events[|events| - 1]
      case StatusChanged(m) =>
        if w(m).kickoff.Some? then n > 1 && looks[n - 1] == m && ReadsOf(w, roster, init, looks[..n - 1]) else ReadsOf(w, roster, init, looks)
      case Lag => n > 1 && ReadsOf(w, roster, init, looks[..n - 1])
      case AgentGone(a) => a !in roster && ReadsOf(w, roster, init, looks)
      case Other => ReadsOf(w, roster, init, looks)
      case BusEnd => false
  }

  /** How the arming ends, from what it read and the event it stopped at. */
  ghost predicate ArmingTold(w: World, roster: seq<Agent>, events: seq<BusEvent>, looks: seq<nat>, used: nat, c: Option<Completion>)
    requires looks != [] && used <= |events|
  {
    var last := w(looks[|looks| - 1]).kickoff;
    && (forall k :: 0 <= k < |looks| - 1 ==> Undecided(w(looks[k]).kickoff))
    && match c
       case None => ReadsOf(w, roster, events[..used], looks) && Observed(last)
       case Some(Failure(KickoffFailed)) => ReadsOf(w, roster, events[..used], looks) && last == Some(Failed)
       case Some(Failure(StoreFailed)) => ReadsOf(w, roster, events[..used], looks) && last == None
       case Some(Failure(AgentExited(a))) =>
         a in roster && used < |events| && events[used] == AgentGone(a) && ReadsOf(w, roster, events[..used], looks) && Undecided(last)
       case Some(Failure(BusClosed)) =>
         used < |events| && events[used] == BusEnd && ReadsOf(w, roster, events[..used], looks) && Undecided(last)
       case Some(Timeout) => ReadsOf(w, roster, events, looks) && Undecided(last)
       case _ => false
  }

  lemma {:induction false} ReadNothing(w: World, roster: seq<Agent>, events: seq<BusEvent>, i: nat, looks: seq<nat>)
    requires i < |events| && ReadsOf(w, roster, events[..i], looks)
    requires var e := events[i];
      e.Other? || (e.AgentGone? && e.agent !in roster) || (e.StatusChanged? && w(e.m).kickoff.None?)
    ensures ReadsOf(w, roster, events[..i + 1], looks)
  {
    assert events[..i + 1][..i] == events[..i];
  }

  lemma {:induction false} ReadOnce(w: World, roster: seq<Agent>, events: seq<BusEvent>, i: nat, looks: seq<nat>, m: nat)
    requires i < |events| && looks != [] && ReadsOf(w, roster, events[..i], looks)
    requires events[i].Lag? || (events[i] == StatusChanged(m) && w(m).kickoff.Some?)
    ensures ReadsOf(w, roster, events[..i + 1], looks + [m])
  {
    assert events[..i + 1][..i] == events[..i] && (looks + [m])[..|looks|] == looks;
  }

  /** The first exit of an agent of the roster, or the end of the bus. */
  predicate FirstExit(roster: seq<Agent>, events: seq<BusEvent>, k: nat) {
    && k < |events| && Exits(roster, events[k]) && forall j :: 0 <= j < k ==> !Exits(roster, events[j])
  }

  ghost predicate ExitedFor(roster: seq<Agent>, events: seq<BusEvent>, reason: Reason) {
    exists k: nat :: FirstExit(roster, events, k) && reason == if events[k].BusEnd? then BusClosed else AgentExited(events[k].agent)
  }

  predicate NoExit(roster: seq<Agent>, events: seq<BusEvent>) { forall k :: 0 <= k < |events| ==> !Exits(roster, events[k]) }

  predicate Exits(roster: seq<Agent>, e: BusEvent) { e.BusEnd? || (e.AgentGone? && e.agent in roster) }

  /** A state of the agent that was read in between. */
  ghost predicate SeenExited(w: World, roster: seq<Agent>, a: Agent, from: nat, upTo: nat) {
    a in roster && exists u: nat :: from <= u <= upTo && w(u).agents(a).state.Exited?
  }

  ghost predicate SeenClosed(w: World, roster: seq<Agent>, a: Agent, from: nat, upTo: nat) {
    a in roster && exists u: nat :: from <= u <= upTo && w(u).agents(a).closed
  }

  /** A moment at which some agent was not idle or had something queued, or an ask or a turn was open. */
  ghost predicate BusyAt(w: World, roster: seq<Agent>, u: nat) {
    w(u).asks > 0 || w(u).turns > 0 || exists a :: a in roster && !(w(u).agents(a).state.Idle? && w(u).agents(a).depth == Some(0))
  }

  ghost predicate SawBusy(w: World, roster: seq<Agent>, from: nat, upTo: nat) { exists u: nat :: from <= u <= upTo && BusyAt(w, roster, u) }

  ghost predicate NoneClosed(w: World, roster: seq<Agent>, m: nat) { forall a :: a in roster ==> !w(m).agents(a).closed }

  /** The k-th receiver has something to report: a send since it was last looked at, or its channel's end. */
  predicate Awake(w: World, roster: seq<Agent>, seen: seq<nat>, m: nat, k: nat)
    requires |seen| == |roster| && k < |roster|
  {
    w(m).agents(roster[k]).version != seen[k] || w(m).agents(roster[k]).closed
  }

  /** The k-th is the first that has, in roster order. */
  ghost predicate FirstAwake(w: World, roster: seq<Agent>, seen: seq<nat>, m: nat, k: nat)
    requires |seen| == |roster|
  {
    k < |roster| && Awake(w, roster, seen, m, k) && forall j: nat :: j < k ==> !Awake(w, roster, seen, m, j)
  }

  ghost predicate WokenBySend(w: World, roster: seq<Agent>, seen: seq<nat>, m: nat)
    requires |seen| == |roster|
  {
    exists k: nat :: FirstAwake(w, roster, seen, m, k) && w(m).agents(roster[k]).version != seen[k]
  }

  ghost predicate WokenByEnd(w: World, roster: seq<Agent>, seen: seq<nat>, m: nat, a: Agent)
    requires |seen| == |roster|
  {
    exists k: nat :: FirstAwake(w, roster, seen, m, k) && w(m).agents(a).version == seen[k] && roster[k] == a
  }

  /** How the wait for a change ends, polled at m: with the first receiver awake then, or with the poll timer, which can only
      come first if it is due. */
  ghost predicate WaitTold(w: World, roster: seq<Agent>, seen: seq<nat>, from: nat, m: nat, upTo: nat, closed: Option<Agent>)
    requires |seen| == |roster|
  {
    var due := w(from).clock + QUIESCENCE_POLL;
    && from <= m <= upTo
    && match closed
       case Some(a) => WokenByEnd(w, roster, seen, m, a)
       case None =>
         || WokenBySend(w, roster, seen, m)
         || (w(upTo).clock >= due && (w(m).clock < due ==> forall k: nat :: k < |roster| ==> !Awake(w, roster, seen, m, k)))
  }

  /** Why a pass of the quiescence loop is tried again: something was busy, and after it the wait ended; something moved in
      the dwell; or something was busy after it. */
  datatype Retry = Busy(from: nat, m: nat) | Moved(begin: nat, end: nat) | BusyAgain(begin: nat, end: nat)

  ghost predicate RetryTold(w: World, roster: seq<Agent>, seen: seq<nat>, debounce: nat, deadline: Option<nat>, why: Retry, since: nat, upTo: nat)
    requires Lawful(w, roster) && |seen| == |roster|
  {
    match why
    case Busy(from, m) => since <= from && SawBusy(w, roster, since, from) && WaitTold(w, roster, seen, from, m, upTo, None) && InTime(w, deadline, upTo)
    case Moved(begin, end) =>
      since <= begin <= end <= upTo && w(end).clock >= w(begin).clock + debounce && InTime(w, deadline, end) && !Unmoved(w, roster, seen, upTo)
    case BusyAgain(begin, end) =>
      since <= begin <= end <= upTo && w(end).clock >= w(begin).clock + debounce && InTime(w, deadline, end) && SawBusy(w, roster, end, upTo)
  }

  lemma ClosedStays(w: World, roster: seq<Agent>, k: nat, m: nat, later: nat)
    requires Lawful(w, roster) && k < |roster| && m <= later && w(m).agents(roster[k]).closed
    ensures w(later).agents(roster[k]).closed
  {
    assert roster[k] in roster;
  }

  /** Why the quiescence phase ended, if not with Quiesced. */
  ghost predicate SettledFor(w: World, roster: seq<Agent>, deadline: Option<nat>, c: Completion, from: nat, upTo: nat) {
    match c
    case Quiesced => true
    case Failure(AgentExited(a)) => SeenExited(w, roster, a, from, upTo)
    case Failure(ChannelClosed(a)) => SeenClosed(w, roster, a, from, upTo)
    case Failure(_) => false
    case Timeout => deadline.Some? && w(upTo).clock >= deadline.value
  }

  lemma SettledForSince(w: World, roster: seq<Agent>, deadline: Option<nat>, c: Completion, earlier: nat, from: nat, upTo: nat)
    requires SettledFor(w, roster, deadline, c, from, upTo) && earlier <= from
    ensures SettledFor(w, roster, deadline, c, earlier, upTo)
  {
  }

  /** The receivers have been looked at by a moment, and remember the version they saw. */
  ghost predicate LookedBy(w: World, roster: seq<Agent>, looked: seq<nat>, seen: seq<nat>, upTo: nat)
    requires Lawful(w, roster)
  {
    && |looked| == |seen| == |roster|
    && forall k :: 0 <= k < |roster| ==> looked[k] <= upTo && seen[k] == w(looked[k]).agents(roster[k]).version
  }

  ghost predicate SawIdle(w: World, roster: seq<Agent>, looked: seq<nat>)
    requires Lawful(w, roster) && |looked| == |roster|
  {
    forall k :: 0 <= k < |roster| ==> w(looked[k]).agents(roster[k]).state.Idle?
  }

  /** Nothing was sent on any channel since it was last looked at. */
  ghost predicate Unmoved(w: World, roster: seq<Agent>, seen: seq<nat>, upTo: nat)
    requires Lawful(w, roster) && |seen| == |roster|
  {
    forall k :: 0 <= k < |roster| ==> w(upTo).agents(roster[k]).version == seen[k]
  }

  /** A look at Idle and an unchanged version later leave no room for anything in between. */
  lemma UnmovedIsStill(w: World, roster: seq<Agent>, looked: seq<nat>, seen: seq<nat>, begin: nat, end: nat)
    requires Lawful(w, roster) && LookedBy(w, roster, looked, seen, begin) && SawIdle(w, roster, looked)
    requires begin <= end && Unmoved(w, roster, seen, end)
    ensures Still(w, roster, begin, end)
  {
    forall a, u: nat | a in roster && begin <= u <= end
      ensures w(u).agents(a).state.Idle? && w(u).agents(a).version == w(begin).agents(a).version
    {
      var k :| 0 <= k < |roster| && roster[k] == a;
      var b := looked[k];
      assert w(b).agents(a).version <= w(begin).agents(a).version <= w(u).agents(a).version <= w(end).agents(a).version;
      assert w(b).agents(a).version == w(end).agents(a).version;
    }
  }

  lemma VersionsGrow(w: World, roster: seq<Agent>, k: nat, s: nat, t: nat, u: nat)
    requires Lawful(w, roster) && k < |roster| && s <= t <= u
    ensures w(s).agents(roster[k]).version <= w(t).agents(roster[k]).version <= w(u).agents(roster[k]).version
  {
    assert roster[k] in roster;
  }

  lemma CalmIsIdle(w: World, roster: seq<Agent>, from: nat, looked: seq<nat>, observed: seq<AgentState>)
    requires Lawful(w, roster) && |looked| == |observed| == |roster|
    requires forall k :: 0 <= k < |roster| ==> looked[k] >= from && observed[k] == w(looked[k]).agents(roster[k]).state
    ensures CalmFrom(w, roster, from) ==> forall k :: 0 <= k < |observed| ==> observed[k].Idle?
    ensures (forall k :: 0 <= k < |observed| ==> observed[k].Idle?) ==> SawIdle(w, roster, looked)
  {
    if CalmFrom(w, roster, from) {
      forall k | 0 <= k < |observed| ensures observed[k].Idle? { assert roster[k] in roster; }
    }
  }

  /** Calm since before the receivers were looked at. */
  ghost predicate CalmLooked(w: World, roster: seq<Agent>, looked: seq<nat>, upTo: nat)
    requires Lawful(w, roster) && |looked| == |roster|
  {
    exists from: nat :: from <= upTo && CalmFrom(w, roster, from) && forall k :: 0 <= k < |looked| ==> looked[k] >= from
  }

  lemma CalmNoMove(w: World, roster: seq<Agent>, looked: seq<nat>, k: nat, upTo: nat, t: nat)
    requires Lawful(w, roster) && |looked| == |roster| && k < |roster| && upTo <= t
    ensures CalmLooked(w, roster, looked, upTo) ==>
      w(t).agents(roster[k]).version == w(looked[k]).agents(roster[k]).version && !w(t).agents(roster[k]).closed
  {
    hide Lawful;
    assert roster[k] in roster;
  }

  lemma SawNotIdle(w: World, roster: seq<Agent>, from: nat, looked: seq<nat>, observed: seq<AgentState>, upTo: nat)
    requires |looked| == |observed| == |roster| && exists k :: 0 <= k < |observed| && !observed[k].Idle?
    requires forall k :: 0 <= k < |roster| ==> from <= looked[k] <= upTo && observed[k] == w(looked[k]).agents(roster[k]).state
    ensures SawBusy(w, roster, from, upTo)
  {
    var k :| 0 <= k < |observed| && !observed[k].Idle?;
    assert roster[k] in roster && BusyAt(w, roster, looked[k]);
  }

  lemma CalmNotBusy(w: World, roster: seq<Agent>, from: nat)
    requires Lawful(w, roster)
    ensures CalmFrom(w, roster, from) ==> forall s: nat, t: nat :: from <= s ==> !SawBusy(w, roster, s, t)
  {
  }

  lemma CalmLater(w: World, roster: seq<Agent>, from: nat, later: nat)
    requires Lawful(w, roster) && from <= later
    ensures CalmFrom(w, roster, from) ==> CalmFrom(w, roster, later)
    ensures CalmFrom(w, roster, from) ==> forall t: nat :: t >= from ==> w(t).asks == 0 && w(t).turns == 0
  {
  }

  lemma EmptyFrom(w: World, roster: seq<Agent>, start: nat, mid: nat, queues: nat, asked: nat, end: nat)
    requires Lawful(w, roster) && start <= mid <= queues <= asked <= end && w(asked).asks == 0 && w(end).turns == 0
    requires forall a :: a in roster ==> DepthZero(w, a, mid, queues)
    ensures Empty(w, roster, start, end)
  {
    forall a | a in roster ensures DepthZero(w, a, start, end) {
      assert DepthZero(w, a, mid, queues);
    }
  }

  lemma LookedLater(w: World, roster: seq<Agent>, looked: seq<nat>, seen: seq<nat>, from: nat, later: nat)
    requires Lawful(w, roster) && LookedBy(w, roster, looked, seen, from) && from <= later
    ensures LookedBy(w, roster, looked, seen, later)
  {
  }

  class Watcher {
    const world: World
    const roster: seq<Agent>
    const debounce: nat
    /** The clock's reading at which the watch is called off, if ever. */
    const deadline: Option<nat>
    var now: nat
    /** Per roster entry, the version its receiver last saw. */
    var seen: seq<nat>
    /** The moment it was last looked at. */
    ghost var looked: seq<nat>

    constructor (world: World, roster: seq<Agent>, debounce: nat, deadline: Option<nat>, start: nat)
      requires Lawful(world, roster)
      ensures this.world == world && this.roster == roster && this.debounce == debounce && this.deadline == deadline && now == start
    {
      this.world, this.roster, this.debounce, this.deadline := world, roster, debounce, deadline;
      now, seen, looked := start, [], [];
    }

    /** Some time passes. */
    method Tick()
      modifies this`now
      ensures now >= old(now)
    {
      var d: int := *;
      if d > 0 { now := now + d; }
    }

    /** A sleep that runs its time, unless the deadline is reached by then. */
    method Sleep(d: nat) returns (woke: bool)
      requires Lawful(world, roster)
      modifies this`now
      ensures now >= old(now) && world(now).clock >= world(old(now)).clock + d
      ensures woke <==> deadline.None? || world(now).clock < deadline.value
    {
      var start: nat := now;
      Tick();
      var until := world(start).clock + d;
      assert Reaches(world, now, until);
      var wake: nat :| now <= wake && world(wake).clock >= until;
      now := wake;
      woke := deadline.None? || world(now).clock < deadline.value;
    }

    /** The first part of `check`: mark every receiver seen before judging any of them. */
    method Observe() returns (observed: seq<AgentState>)
      requires Lawful(world, roster)
      modifies this`now, this`seen, this`looked
      ensures now >= old(now) && LookedBy(world, roster, looked, seen, now) && |observed| == |roster|
      ensures forall k :: 0 <= k < |roster| ==> looked[k] >= old(now) && observed[k] == world(looked[k]).agents(roster[k]).state
    {
      ghost var start: nat := now;
      observed, seen, looked := [], [], [];
      for i := 0 to |roster|
        invariant now >= start && |observed| == |seen| == |looked| == i
        invariant forall k :: 0 <= k < i ==> start <= looked[k] <= now
        invariant forall k :: 0 <= k < i ==> seen[k] == world(looked[k]).agents(roster[k]).version
        invariant forall k :: 0 <= k < i ==> observed[k] == world(looked[k]).agents(roster[k]).state
      {
        Tick();
        var view := world(now).agents(roster[i]);
        seen, looked, observed := seen + [view.version], looked + [now], observed + [view.state];
      }
    }

    /** The states: an exit first, then anything that is not idle. */
    method JudgeStates(observed: seq<AgentState>) returns (v: Verdict)
      requires |observed| == |roster|
      ensures v.Quiescent? <==> forall k :: 0 <= k < |observed| ==> observed[k].Idle?
      ensures v.ExitedAgent? <==> exists k :: 0 <= k < |observed| && observed[k].Exited?
      ensures v.ExitedAgent? ==> exists k :: 0 <= k < |observed| && observed[k].Exited? && roster[k] == v.agent
    {
      for i := 0 to |observed|
        invariant forall k :: 0 <= k < i ==> !observed[k].Exited?
      {
        if observed[i].Exited? { return ExitedAgent(roster[i]); }
      }
      for i := 0 to |observed|
        invariant forall k :: 0 <= k < i ==> observed[k].Idle?
      {
        if !observed[i].Idle? { return Blocked; }
      }
      return Quiescent;
    }

    /** The queues, read one after another. */
    method QueuesEmpty() returns (empty: bool)
      requires Lawful(world, roster)
      modifies this`now
      ensures now >= old(now)
      ensures empty ==> forall a :: a in roster ==> DepthZero(world, a, old(now), now)
      ensures !empty ==> SawBusy(world, roster, old(now), now)
    {
      ghost var start: nat := now;
      for i := 0 to |roster|
        invariant now >= start
        invariant forall k :: 0 <= k < i ==> DepthZero(world, roster[k], start, now)
      {
        Tick();
        assert roster[i] in roster;
        if world(now).agents(roster[i]).depth != Some(0) {
          assert BusyAt(world, roster, now);
          return false;
        }
        assert DepthZero(world, roster[i], start, now);
      }
      forall a | a in roster ensures DepthZero(world, a, start, now) {
        var k :| 0 <= k < |roster| && roster[k] == a;
      }
      return true;
    }

    /** `check`: every receiver is marked seen before any is judged; then queues, asks and turns. */
    method Check() returns (v: Verdict)
      requires Lawful(world, roster)
      modifies this`now, this`seen, this`looked
      ensures now >= old(now) && LookedBy(world, roster, looked, seen, now)
      ensures forall k :: 0 <= k < |roster| ==> looked[k] >= old(now)
      ensures v.Quiescent? ==> Empty(world, roster, old(now), now) && SawIdle(world, roster, looked)
      ensures CalmFrom(world, roster, old(now)) ==> v.Quiescent?
      ensures v.ExitedAgent? ==> SeenExited(world, roster, v.agent, old(now), now)
      ensures v.Blocked? ==> SawBusy(world, roster, old(now), now)
    {
      hide Lawful;
      ghost var start: nat := now;
      var observed := Observe();
      CalmIsIdle(world, roster, start, looked, observed);
      v := JudgeStates(observed);
      if !v.Quiescent? {
        if v.Blocked? { SawNotIdle(world, roster, start, looked, observed, now); }
        return;
      }
      ghost var mid: nat := now;
      CalmNotBusy(world, roster, start);
      var empty := QueuesEmpty();
      if !empty { return Blocked; }
      ghost var queues: nat := now;
      Tick();
      ghost var asked: nat := now;
      assert world(asked).asks > 0 ==> BusyAt(world, roster, asked);
      if world(now).asks > 0 { return Blocked; }
      Tick();
      assert world(now).turns > 0 ==> BusyAt(world, roster, now);
      if world(now).turns > 0 { return Blocked; }
      EmptyFrom(world, roster, start, mid, queues, asked, now);
      LookedLater(world, roster, looked, seen, mid, now);
    }

    /** `moved_during_dwell`: Failure if a channel is closed, else whether anything was sent since it was last seen. */
    method MovedDuringDwell() returns (closed: Option<Agent>, moved: bool)
      requires Lawful(world, roster) && LookedBy(world, roster, looked, seen, now)
      modifies this`now
      ensures now >= old(now)
      ensures closed.None? && !moved ==> Unmoved(world, roster, seen, old(now))
      ensures closed.None? && moved ==> !Unmoved(world, roster, seen, now)
      ensures closed.Some? ==> SeenClosed(world, roster, closed.value, old(now), now)
      ensures closed.None? ==> NoneClosed(world, roster, old(now))
      ensures CalmLooked(world, roster, looked, old(now)) ==> closed.None? && !moved
    {
      hide Lawful, CalmLooked;
      ghost var start: nat := now;
      moved := false;
      ghost var which: nat := 0;
      for i := 0 to |roster|
        invariant now >= start
        invariant !moved ==> forall k :: 0 <= k < i ==> world(start).agents(roster[k]).version == seen[k]
        invariant moved ==> which < i && world(now).agents(roster[which]).version > seen[which]
        invariant CalmLooked(world, roster, looked, start) ==> !moved
        invariant forall k :: 0 <= k < i ==> !world(start).agents(roster[k]).closed
      {
        ghost var before: nat := now;
        Tick();
        if moved { VersionsGrow(world, roster, which, looked[which], before, now); }
        CalmNoMove(world, roster, looked, i, start, now);
        var view := world(now).agents(roster[i]);
        if view.closed { return Some(roster[i]), moved; }
        if world(start).agents(roster[i]).closed { ClosedStays(world, roster, i, start, now); }
        VersionsGrow(world, roster, i, looked[i], start, now);
        if !moved && view.version != seen[i] { which := i; }
        moved := moved || view.version != seen[i];
      }
      return None, moved;
    }

    /** `wait_any_change`, raced against the poll timer: the channels are polled in order, and the first that has changed or
        closed ends the wait, else the timer does; unless the deadline is reached by then. */
    method WaitAnyChange() returns (closed: Option<Agent>, woke: bool, ghost m: nat)
      requires Lawful(world, roster) && |seen| == |roster|
      modifies this`now
      ensures WaitTold(world, roster, seen, old(now), m, now, closed) && (woke <==> InTime(world, deadline, now))
      ensures closed.Some? ==> SeenClosed(world, roster, closed.value, old(now), now)
    {
      var due := world(now).clock + QUIESCENCE_POLL;
      Tick();
      m, closed := now, None;
      for i := 0 to |roster|
        invariant now == m && forall k: nat :: k < i ==> !Awake(world, roster, seen, m, k)
      {
        var view := world(now).agents(roster[i]);
        if view.version != seen[i] {
          assert FirstAwake(world, roster, seen, m, i);
          return None, deadline.None? || world(now).clock < deadline.value, m;
        }
        if view.closed {
          assert FirstAwake(world, roster, seen, m, i);
          return Some(roster[i]), deadline.None? || world(now).clock < deadline.value, m;
        }
      }
      assert Reaches(world, now, due);
      var wake: nat :| now <= wake && world(wake).clock >= due;
      now := wake;
      woke := deadline.None? || world(now).clock < deadline.value;
    }

    /** `settle_once`: None means try again, for the reason told; when the deadline cancels a wait, Timeout. */
    method SettleOnce() returns (r: Option<Completion>, ghost why: Retry)
      requires Lawful(world, roster)
      modifies this`now, this`seen, this`looked
      ensures now >= old(now) && |seen| == |roster|
      ensures r == Some(Quiesced) ==> SettledDwell(world, roster, debounce, deadline, old(now), now) && NoneClosed(world, roster, old(now))
      ensures r.Some? ==> SettledFor(world, roster, deadline, r.value, old(now), now)
      ensures r.None? ==> RetryTold(world, roster, seen, debounce, deadline, why, old(now), now)
      ensures CalmFrom(world, roster, old(now)) ==> r == Some(Quiesced) || r == Some(Timeout)
    {
      hide Lawful, CalmFrom, Unmoved, SawIdle, Empty, Still, WaitTold, SawBusy;
      ghost var first: nat := now;
      why := Busy(now, now);
      var v := Check();
      if v.ExitedAgent? { return Some(Failure(AgentExited(v.agent))), why; }
      if v.Blocked? {
        ghost var blocked: nat := now;
        var gone, woke;
        ghost var m;
        gone, woke, m := WaitAnyChange();
        assert blocked <= now by { WaitPasses(world, roster, seen, blocked, m, now, gone); }
        if !woke { return Some(Timeout), why; }
        if gone.Some? {
          SeenClosedWidens(world, roster, gone.value, blocked, now, first);
          return Some(Failure(ChannelClosed(gone.value))), why;
        }
        return None, Busy(blocked, m);
      }
      ghost var begin: nat := now;
      LookedLater(world, roster, looked, seen, begin, begin);
      var woke := Sleep(debounce);
      if !woke { return Some(Timeout), why; }
      ghost var end: nat := now;
      LookedLater(world, roster, looked, seen, begin, end);
      var closed, moved := MovedDuringDwell();
      if closed.Some? {
        SeenClosedWidens(world, roster, closed.value, end, now, first);
        return Some(Failure(ChannelClosed(closed.value))), why;
      }
      if moved { return None, Moved(begin, end); }
      UnmovedIsStill(world, roster, looked, seen, begin, end);
      NoneClosedBefore(world, roster, first, end);
      ghost var again: nat := now;
      CalmLater(world, roster, first, again);
      v := Check();
      if v.ExitedAgent? {
        SeenExitedWidens(world, roster, v.agent, again, now, first);
        return Some(Failure(AgentExited(v.agent))), why;
      }
      if v.Blocked? {
        SawBusyWidens(world, roster, again, now, end);
        return None, BusyAgain(begin, end);
      }
      EmptyWidens(world, roster, again, now, end, now);
      assert Dwell(world, roster, debounce, deadline, first, begin, end, now);
      return Some(Quiesced), why;
    }

    /** `await_quiescence`, for as many rounds as the deadline leaves room for: Timeout only if a sleep met the deadline, or
        they are used up. */
    method AwaitQuiescence(rounds: nat) returns (c: Completion)
      requires Lawful(world, roster)
      modifies this`now, this`seen, this`looked
      ensures now >= old(now)
      ensures c == Quiesced ==> SettledDwell(world, roster, debounce, deadline, old(now), now) && NoneClosed(world, roster, old(now))
      ensures SettledFor(world, roster, deadline, c, old(now), now) || (c == Timeout && !(rounds > 0 && CalmFrom(world, roster, old(now))))
    {
      hide Lawful, CalmFrom;
      ghost var start: nat := now;
      for i := 0 to rounds
        invariant now >= start && (i > 0 ==> !CalmFrom(world, roster, start))
      {
        ghost var began: nat := now;
        CalmLater(world, roster, start, began);
        var r, _ := SettleOnce();
        if r.Some? {
          if r.value == Quiesced {
            SettledSince(world, roster, debounce, deadline, start, began, now);
            NoneClosedBefore(world, roster, start, began);
          }
          SettledForSince(world, roster, deadline, r.value, start, began, now);
          return r.value;
        }
      }
      return Timeout;
    }

    /** `arming` of a status: whether the kickoff has been seen, can never be, or neither. */
    function Arming(s: MessageStatus): Option<Option<Completion>> {
      match s
      case Working => Some(None)
      case Done => Some(None)
      case Replied => Some(None)
      case Failed => Some(Some(Failure(KickoffFailed)))
      case _ => None
    }

    /** A read of the record; a store error ends the watch. */
    method Refetch() returns (verdict: Option<Option<Completion>>)
      modifies this`now
      ensures now >= old(now) && Judged(world(now).kickoff, verdict)
    {
      Tick();
      var s := world(now).kickoff;
      verdict := if s.None? then Some(Some(Failure(StoreFailed))) else Arming(s.value);
    }

    /** `await_arming`: None once the kickoff has been observed by the agent. The records read, in order, are on entry and as
        the events used had it; all but the last were undecided, and the last, or the event it stopped at, is its answer. */
    method AwaitArming(events: seq<BusEvent>) returns (c: Option<Completion>, ghost looks: seq<nat>, ghost used: nat)
      modifies this`now
      ensures now >= old(now) && looks != [] && used <= |events| && looks[0] >= old(now)
      ensures forall k :: 0 <= k < |looks| ==> looks[k] <= now
      ensures ArmingTold(world, roster, events, looks, used, c)
    {
      used := 0;
      var verdict := Refetch();
      looks := [now];
      if verdict.Some? { return verdict.value, looks, used; }
      for i := 0 to |events|
        invariant now >= old(now) && looks != [] && looks[0] >= old(now) && forall k :: 0 <= k < |looks| ==> looks[k] <= now
        invariant ReadsOf(world, roster, events[..i], looks) && forall k :: 0 <= k < |looks| ==> Undecided(world(looks[k]).kickoff)
      {
        hide ReadsOf;
        used := i;
        Tick();
        match events[i]
        case StatusChanged(at) =>
          if now < at { now := at; }
          if world(at).kickoff.Some? {
            ReadOnce(world, roster, events, i, looks, at);
            looks, used := looks + [at], i + 1;
            verdict := Arming(world(at).kickoff.value);
            if verdict.Some? { return verdict.value, looks, used; }
          } else {
            ReadNothing(world, roster, events, i, looks);
          }
        case AgentGone(agent) =>
          if agent in roster { return Some(Failure(AgentExited(agent))), looks, used; }
          ReadNothing(world, roster, events, i, looks);
        case Other =>
          ReadNothing(world, roster, events, i, looks);
        case Lag =>
          verdict := Refetch();
          ReadOnce(world, roster, events, i, looks, now);
          looks, used := looks + [now], i + 1;
          if verdict.Some? { return verdict.value, looks, used; }
        case BusEnd =>
          return Some(Failure(BusClosed)), looks, used;
      }
      assert events[..|events|] == events;
      return Some(Timeout), looks, |events|;
    }

    /** `await_exit`: the first exit of an agent of the roster, or the end of the bus; nothing else ends it. */
    method AwaitExit(events: seq<BusEvent>) returns (r: Option<Reason>)
      ensures r.None? <==> NoExit(roster, events)
      ensures r.Some? ==> ExitedFor(roster, events, r.value)
    {
      for i := 0 to |events|
        invariant forall k :: 0 <= k < i ==> !Exits(roster, events[k])
      {
        match events[i]
        case AgentGone(agent) =>
          if agent in roster {
            assert FirstExit(roster, events, i);
            return Some(AgentExited(agent));
          }
        case BusEnd =>
          assert FirstExit(roster, events, i);
          return Some(BusClosed);
        case _ =>
      }
      return None;
    }

    /** `drive` for a send kickoff: arming, then whichever of quiescence and an exit event comes first. */
    method Drive(events: seq<BusEvent>, rounds: nat, later: seq<BusEvent>, exitFirst: bool)
      returns (c: Completion, ghost armed: Option<Completion>, ghost looks: seq<nat>, ghost used: nat, ghost start: nat)
      requires Lawful(world, roster)
      modifies this`now, this`seen, this`looked
      ensures looks != [] && used <= |events| && looks[0] >= old(now) && ArmingTold(world, roster, events, looks, used, armed)
      ensures armed.Some? ==> c == armed.value
      ensures c == Quiesced ==> JustlyQuiesced(world, roster, debounce, deadline, now) && NoneClosed(world, roster, start)
      ensures armed.None? ==> old(now) <= start <= now
      ensures armed.None? ==>
        || SettledFor(world, roster, deadline, c, start, now)
        || (c == Timeout && !(rounds > 0 && CalmFrom(world, roster, start)))
        || (exitFirst && c.Failure? && ExitedFor(roster, later, c.reason))
      ensures armed.None? && exitFirst && !NoExit(roster, later) ==> c.Failure? && ExitedFor(roster, later, c.reason)
      ensures armed.None? && CalmFrom(world, roster, start) && rounds > 0 && deadline.None? && NoExit(roster, later) ==> c == Quiesced
    {
      hide Lawful, CalmFrom;
      var verdict;
      verdict, looks, used := AwaitArming(events);
      armed, start := verdict, now;
      if verdict.Some? {
        NeverArmsQuiesced(world, roster, events, looks, used, armed);
        return verdict.value, armed, looks, used, start;
      }
      ghost var m := looks[|looks| - 1];
      if exitFirst {
        var exit := AwaitExit(later);
        if exit.Some? { return Failure(exit.value), armed, looks, used, start; }
      }
      c := AwaitQuiescence(rounds);
      if c == Quiesced { SettledSince(world, roster, debounce, deadline, m, start, now); }
      CalmSettles(world, roster, deadline, c, start, now);
    }
  }

  /** What a read of the record says. */
  predicate Judged(s: Option<MessageStatus>, verdict: Option<Option<Completion>>) {
    match verdict
    case None => Undecided(s)
    case Some(None) => Observed(s)
    case Some(Some(c)) => (c == Failure(KickoffFailed) && s == Some(Failed)) || (c == Failure(StoreFailed) && s == None)
  }

  lemma NeverArmsQuiesced(w: World, roster: seq<Agent>, events: seq<BusEvent>, looks: seq<nat>, used: nat, c: Option<Completion>)
    requires looks != [] && used <= |events| && ArmingTold(w, roster, events, looks, used, c)
    ensures c != Some(Quiesced)
  {
  }

  /** A calm world exits no agent and closes no channel. */
  lemma CalmSettles(w: World, roster: seq<Agent>, deadline: Option<nat>, c: Completion, from: nat, upTo: nat)
    requires Lawful(w, roster)
    ensures CalmFrom(w, roster, from) && SettledFor(w, roster, deadline, c, from, upTo) && deadline.None? ==> c == Quiesced
  {
    hide Lawful;
  }

  lemma SeenClosedWidens(w: World, roster: seq<Agent>, a: Agent, from: nat, upTo: nat, earlier: nat)
    requires SeenClosed(w, roster, a, from, upTo) && earlier <= from
    ensures SeenClosed(w, roster, a, earlier, upTo)
  {
  }

  lemma SeenExitedWidens(w: World, roster: seq<Agent>, a: Agent, from: nat, upTo: nat, earlier: nat)
    requires SeenExited(w, roster, a, from, upTo) && earlier <= from
    ensures SeenExited(w, roster, a, earlier, upTo)
  {
  }

  lemma SawBusyWidens(w: World, roster: seq<Agent>, from: nat, upTo: nat, earlier: nat)
    requires SawBusy(w, roster, from, upTo) && earlier <= from
    ensures SawBusy(w, roster, earlier, upTo)
  {
  }

  lemma NoneClosedBefore(w: World, roster: seq<Agent>, earlier: nat, m: nat)
    requires Lawful(w, roster) && NoneClosed(w, roster, m) && earlier <= m
    ensures NoneClosed(w, roster, earlier)
  {
  }

  lemma WaitPasses(w: World, roster: seq<Agent>, seen: seq<nat>, from: nat, m: nat, upTo: nat, closed: Option<Agent>)
    requires |seen| == |roster| && WaitTold(w, roster, seen, from, m, upTo, closed)
    ensures from <= upTo
  {
  }

  lemma EmptyWidens(w: World, roster: seq<Agent>, from: nat, upTo: nat, earlier: nat, later: nat)
    requires Lawful(w, roster) && Empty(w, roster, from, upTo) && earlier <= from && upTo <= later
    ensures Empty(w, roster, earlier, later)
  {
    forall a | a in roster ensures DepthZero(w, a, earlier, later) {
      assert DepthZero(w, a, from, upTo);
    }
  }

  lemma SettledSince(w: World, roster: seq<Agent>, debounce: nat, deadline: Option<nat>, earlier: nat, since: nat, last: nat)
    requires Lawful(w, roster) && SettledDwell(w, roster, debounce, deadline, since, last) && earlier <= since
    ensures SettledDwell(w, roster, debounce, deadline, earlier, last)
  {
    var first, begin, end :| since <= first && Dwell(w, roster, debounce, deadline, first, begin, end, last);
    assert earlier <= first;
  }
}
