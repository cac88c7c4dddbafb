/** Trigger bookkeeping: capped history, the kickoff in flight per flow, and the long-poll that must not miss a settlement. */
module TriggerHub {
  import opened Broadcast
  import opened Optional

  type Id = string
  type Flow = string

  const HISTORY_CAP: nat := 100
  const UPDATE_BUFFER: nat := 64

  datatype Status = Queued(position: nat) | Running | Completed(result: string) | Failed(reasonCode: string)
  datatype Record = Record(id: Id, status: Status)

  /** `is_terminal`. */
  predicate Terminal(s: Status) {
    match s
    case Completed(_) => true
    case Failed(_) => true
    case _ => false
  }

  /** What the promises below call settled: neither queued nor running. */
  predicate Over(s: Status) { !s.Queued? && !s.Running? }

  lemma TerminalIsOver(s: Status)
    ensures Terminal(s) <==> Over(s)
  {
  }

  /** The hub between two steps; `pending` are the updates stored whose notification is not sent yet. */
  datatype Hub = Hub(records: seq<Record>, pending: seq<Record>, sent: seq<Record>)

  /** The position of an id, or the number of records. */
  function Find(records: seq<Record>, id: Id): (k: nat)
    ensures k <= |records| && (k < |records| ==> records[k].id == id)
    ensures forall i :: 0 <= i < k ==> records[i].id != id
  {
    if records == [] || records[0].id == id then 0 else 1 + Find(records[1..], id)
  }

  function Get(records: seq<Record>, id: Id): Option<Status> {
    var k := Find(records, id);
    if k < |records| then Some(records[k].status) else None
  }

  /** The newest HISTORY_CAP records. */
  function Capped(records: seq<Record>): seq<Record> {
    if |records| <= HISTORY_CAP then records else records[|records| - HISTORY_CAP..]
  }

  function Stored(records: seq<Record>, id: Id, s: Status): seq<Record> {
    var k := Find(records, id);
    if k < |records| then records[k := Record(id, s)] else records
  }

  // ---- steps of the callers, one lock region or one send at a time ----

  datatype Act = Register(id: Id, status: Status) | Store(id: Id, status: Status) | Notify(k: nat)

  function Step(h: Hub, a: Act): Hub {
    match a
    case Register(id, s) => h.(records := Capped(h.records + [Record(id, s)]))
    case Store(id, s) =>
      if Find(h.records, id) == |h.records| then h
      else h.(records := Stored(h.records, id, s), pending := h.pending + [Record(id, s)])
    case Notify(k) =>
      if k >= |h.pending| then h
      else h.(pending := h.pending[..k] + h.pending[k + 1..], sent := h.sent + [h.pending[k]])
  }

  function Steps(h: Hub, acts: seq<Act>): Hub
    decreases |acts|
  {
    if acts == [] then h else Steps(Step(h, acts[0]), acts[1..])
  }

  // ---- the long-poll ----

  /** What happens before a poll of the receiver, and whether the deadline has passed by then. */
  datatype Turn = Turn(acts: seq<Act>, expired: bool)

  datatype Outcome = Ended(status: Status) | TimedOut(hub: Hub) | StillWaiting

  /** The receive loop, from a position in the updates. */
  function Wait(h: Hub, id: Id, at: nat, turns: seq<Turn>): Outcome
    requires at <= |h.sent|
    decreases |turns|
  {
    if turns == [] then StillWaiting
    else
      var now := Steps(h, turns[0].acts);
      StepsGrow(h, turns[0].acts);
      var next := Position(now.sent, UPDATE_BUFFER, at);
      match Receive(now.sent, UPDATE_BUFFER, at)
      case Next(u) => if u.id == id && Terminal(u.status) then Ended(u.status) else Wait(now, id, next, turns[1..])
      case Lagged(_) => if ReadsTerminal(now, id) then Ended(Get(now.records, id).value) else Wait(now, id, next, turns[1..])
      case Empty => if turns[0].expired then TimedOut(now) else Wait(now, id, at, turns[1..])
  }

  /** What the waiter reads of the record. */
  predicate ReadsTerminal(h: Hub, id: Id) {
    var s := Get(h.records, id);
    s.Some? && Terminal(s.value)
  }

  /** `await_terminal`: subscribe, then read, then receive. */
  function Await(h: Hub, id: Id, between: seq<Act>, turns: seq<Turn>): Outcome {
    var now := Steps(h, between);
    StepsGrow(h, between);
    if ReadsTerminal(now, id) then Ended(Get(now.records, id).value) else Wait(now, id, |h.sent|, turns)
  }

  lemma {:induction false} StepsGrow(h: Hub, acts: seq<Act>)
    ensures h.sent <= Steps(h, acts).sent
    decreases |acts|
  {
    if acts != [] { StepsGrow(Step(h, acts[0]), acts[1..]); }
  }

  // ---- no lost wakeup ----

  predicate TerminalNow(h: Hub, id: Id) {
    var s := Get(h.records, id);
    s.Some? && Over(s.value)
  }

  /** An id is issued once, and a status that is terminal is not taken back (which the scheduler guarantees). */
  predicate Respects(h: Hub, id: Id, a: Act) {
    && (a.Register? ==> a.id != id)
    && (a.Store? && a.id == id && TerminalNow(h, id) ==> Over(a.status))
  }

  predicate RespectsAll(h: Hub, id: Id, acts: seq<Act>)
    decreases |acts|
  {
    acts == [] || (Respects(h, id, acts[0]) && RespectsAll(Step(h, acts[0]), id, acts[1..]))
  }

  predicate RespectsTurns(h: Hub, id: Id, turns: seq<Turn>)
    decreases |turns|
  {
    turns == [] || (RespectsAll(h, id, turns[0].acts) && RespectsTurns(Steps(h, turns[0].acts), id, turns[1..]))
  }

  predicate Ends(u: Record, id: Id) { u.id == id && Over(u.status) }

  /** A terminal update of the id is stored and its notification is still to be sent. */
  predicate Unsent(h: Hub, id: Id) { exists k :: 0 <= k < |h.pending| && Ends(h.pending[k], id) }

  /** One is sent and the receiver has not come to it. */
  predicate Unread(h: Hub, id: Id, at: nat) { exists k :: at <= k < |h.sent| && Ends(h.sent[k], id) }

  predicate Known(h: Hub, id: Id) { Find(h.records, id) < |h.records| }

  /** What a waiter that saw no terminal status can rely on: a settlement it missed is on its way to it. */
  predicate Coming(h: Hub, id: Id, at: nat) {
    && (TerminalNow(h, id) ==> Unsent(h, id) || Unread(h, id, at))
    && (Unsent(h, id) && Known(h, id) ==> TerminalNow(h, id))
  }

  lemma FindAppend(records: seq<Record>, r: Record, id: Id)
    requires r.id != id
    ensures Get(records + [r], id) == Get(records, id)
  {
    FindIs(records + [r], id, if Find(records, id) < |records| then Find(records, id) else |records| + 1);
  }

  lemma {:induction false} FindIs(records: seq<Record>, id: Id, k: nat)
    requires k <= |records| && (k < |records| ==> records[k].id == id) && forall i :: 0 <= i < k ==> records[i].id != id
    ensures Find(records, id) == k
  {
    if k > 0 { FindIs(records[1..], id, k - 1); }
  }

  lemma FindTail(records: seq<Record>, id: Id, n: nat)
    requires n <= |records| && Unique(records, id)
    ensures Get(records[n..], id).None? || Get(records[n..], id) == Get(records, id)
    ensures Unique(records[n..], id)
  {
    var k := Find(records, id);
    var tail := records[n..];
    if n <= k { FindIs(tail, id, k - n); } else { FindIs(tail, id, |tail|); }
  }

  /** The id occurs once at most. */
  predicate Unique(records: seq<Record>, id: Id) {
    forall i, j :: 0 <= i < j < |records| ==> !(records[i].id == id && records[j].id == id)
  }

  lemma GetStored(records: seq<Record>, id: Id, other: Id, s: Status)
    ensures Get(Stored(records, other, s), id) == if id == other && Find(records, id) < |records| then Some(s) else Get(records, id)
  {
    FindIs(Stored(records, other, s), id, Find(records, id));
  }

  lemma ComingStep(h: Hub, id: Id, at: nat, a: Act)
    requires Coming(h, id, at) && Unique(h.records, id) && Respects(h, id, a) && at <= |h.sent|
    ensures Coming(Step(h, a), id, at) && Unique(Step(h, a).records, id)
  {
    match a
    case Register(other, s) => ComingRegister(h, id, at, Record(other, s));
    case Store(other, s) => if Find(h.records, other) < |h.records| { ComingStore(h, id, at, other, s); }
    case Notify(k) => if k < |h.pending| { ComingNotify(h, id, at, k); }
  }

  lemma ComingRegister(h: Hub, id: Id, at: nat, r: Record)
    requires Coming(h, id, at) && Unique(h.records, id) && r.id != id
    ensures var next := h.(records := Capped(h.records + [r])); Coming(next, id, at) && Unique(next.records, id)
  {
    var next := h.(records := Capped(h.records + [r]));
    RegisterKeeps(h.records, id, r);
    assert Unsent(next, id) == Unsent(h, id) && Unread(next, id, at) == Unread(h, id, at);
  }

  /** Registering another trigger leaves this one as it was, or evicts it. */
  lemma RegisterKeeps(records: seq<Record>, id: Id, r: Record)
    requires Unique(records, id) && r.id != id
    ensures var next := Capped(records + [r]);
      Unique(next, id) && (Get(next, id) == Get(records, id) || Get(next, id) == None)
  {
    var more := records + [r];
    FindAppend(records, r, id);
    UniqueAppend(records, r, id);
    FindTail(more, id, if |more| <= HISTORY_CAP then 0 else |more| - HISTORY_CAP);
    assert more[0..] == more;
    hide Find, Unique, Get;
  }

  lemma UniqueAppend(records: seq<Record>, r: Record, id: Id)
    requires Unique(records, id) && r.id != id
    ensures Unique(records + [r], id)
  {
  }

  lemma ComingStore(h: Hub, id: Id, at: nat, other: Id, s: Status)
    requires Coming(h, id, at) && Unique(h.records, id) && Respects(h, id, Store(other, s)) && Find(h.records, other) < |h.records|
    ensures Coming(Step(h, Store(other, s)), id, at) && Unique(Step(h, Store(other, s)).records, id)
  {
    var next := Step(h, Store(other, s));
    GetStored(h.records, id, other, s);
    assert next.pending[|h.pending|] == Record(other, s);
    assert Unsent(next, id) <==> Unsent(h, id) || Ends(Record(other, s), id) by {
      if Unsent(h, id) {
        var k :| 0 <= k < |h.pending| && Ends(h.pending[k], id);
        assert next.pending[k] == h.pending[k];
      }
    }
    assert Unread(next, id, at) == Unread(h, id, at);
    assert Known(next, id) == Known(h, id) by { FindIs(next.records, id, Find(h.records, id)); }
  }

  lemma ComingNotify(h: Hub, id: Id, at: nat, k: nat)
    requires Coming(h, id, at) && k < |h.pending| && at <= |h.sent|
    ensures Coming(Step(h, Notify(k)), id, at)
  {
    var next := Step(h, Notify(k));
    if j :| 0 <= j < |h.pending| && Ends(h.pending[j], id) {
      if j < k { assert next.pending[j] == h.pending[j]; }
      else if j > k { assert next.pending[j - 1] == h.pending[j]; }
      else { assert next.sent[|h.sent|] == h.pending[k]; }
    }
    if j :| at <= j < |h.sent| && Ends(h.sent[j], id) { assert next.sent[j] == h.sent[j]; }
    if j :| 0 <= j < |next.pending| && Ends(next.pending[j], id) {
      assert next.pending[j] == if j < k then h.pending[j] else h.pending[j + 1];
    }
  }

  lemma {:induction false} ComingSteps(h: Hub, id: Id, at: nat, acts: seq<Act>)
    requires Coming(h, id, at) && Unique(h.records, id) && RespectsAll(h, id, acts) && at <= |h.sent|
    ensures Coming(Steps(h, acts), id, at) && Unique(Steps(h, acts).records, id)
    decreases |acts|
  {
    hide Coming, Respects, Unique;
    if acts != [] {
      ComingStep(h, id, at, acts[0]);
      ComingSteps(Step(h, acts[0]), id, at, acts[1..]);
    }
  }

  /** A waiter that times out missed a stored settlement only if its notification had not been sent by the deadline. */
  lemma {:induction false} WaitMisses(h: Hub, id: Id, at: nat, turns: seq<Turn>)
    requires at <= |h.sent| && Coming(h, id, at) && Unique(h.records, id) && RespectsTurns(h, id, turns)
    ensures var o := Wait(h, id, at, turns);
      o.TimedOut? ==> (TerminalNow(o.hub, id) <==> Unsent(o.hub, id) && Known(o.hub, id))
    decreases |turns|
  {
    if turns != [] {
      var now := Steps(h, turns[0].acts);
      StepsGrow(h, turns[0].acts);
      ComingSteps(h, id, at, turns[0].acts);
      hide Steps, Unique, RespectsAll;
      match Receive(now.sent, UPDATE_BUFFER, at)
      case Next(u) => if !Ends(u, id) { WaitMisses(now, id, at + 1, turns[1..]); }
      case Lagged(_) =>
        if !TerminalNow(now, id) { WaitMisses(now, id, Position(now.sent, UPDATE_BUFFER, at), turns[1..]); }
      case Empty => if !turns[0].expired { WaitMisses(now, id, at, turns[1..]); }
    }
  }

  /** No lost wakeup: `await_terminal` misses a terminal status exactly when it is stored but not yet notified at the deadline. */
  lemma NoLostWakeup(h: Hub, id: Id, between: seq<Act>, turns: seq<Turn>)
    requires Unique(h.records, id) && (Unsent(h, id) && Known(h, id) ==> TerminalNow(h, id))
    requires RespectsAll(h, id, between) && RespectsTurns(Steps(h, between), id, turns)
    ensures var o := Await(h, id, between, turns);
      o.TimedOut? ==> (TerminalNow(o.hub, id) <==> Unsent(o.hub, id) && Known(o.hub, id))
  {
    var now := Steps(h, between);
    StepsGrow(h, between);
    if !TerminalNow(h, id) {
      assert Coming(h, id, |h.sent|);
      ComingSteps(h, id, |h.sent|, between);
      if !TerminalNow(now, id) { WaitMisses(now, id, |h.sent|, turns); }
    } else {
      StaysTerminal(h, id, between);
      if !TerminalNow(now, id) { WaitMisses(now, id, |h.sent|, turns); }
    }
  }

  /** Nothing can come for an id that was settled and has been evicted. */
  lemma {:induction false} StaysTerminal(h: Hub, id: Id, acts: seq<Act>)
    requires Unique(h.records, id) && RespectsAll(h, id, acts) && (TerminalNow(h, id) || !Known(h, id))
    ensures Unique(Steps(h, acts).records, id)
    ensures TerminalNow(Steps(h, acts), id) || !Known(Steps(h, acts), id)
    ensures !TerminalNow(Steps(h, acts), id) ==> Coming(Steps(h, acts), id, |h.sent|)
    decreases |acts|
  {
    if acts != [] {
      StaysTerminalStep(h, id, acts[0]);
      StaysTerminal(Step(h, acts[0]), id, acts[1..]);
    }
  }

  lemma StaysTerminalStep(h: Hub, id: Id, a: Act)
    requires Unique(h.records, id) && Respects(h, id, a) && (TerminalNow(h, id) || !Known(h, id))
    ensures var n := Step(h, a); Unique(n.records, id) && (TerminalNow(n, id) || !Known(n, id))
  {
    match a
    case Register(other, s) => RegisterKeeps(h.records, id, Record(other, s));
    case Store(other, s) => GetStored(h.records, id, other, s);
    case Notify(k) =>
  }

  // ---- nothing that was sent is missed, and what is returned is what was stored ----

  /** Wherever a settlement of the id that was sent from position b on, or is still to be sent, came from, the record has it. */
  predicate Noted(h: Hub, id: Id, b: nat) {
    Known(h, id) && (Unsent(h, id) || Unread(h, id, b)) ==> TerminalNow(h, id)
  }

  lemma NotedStep(h: Hub, id: Id, b: nat, a: Act)
    requires Noted(h, id, b) && Unique(h.records, id) && Respects(h, id, a)
    ensures var n := Step(h, a); Noted(n, id, b) && Unique(n.records, id) && (Known(n, id) ==> Known(h, id))
  {
    match a
    case Register(other, s) =>
      RegisterKeeps(h.records, id, Record(other, s));
      assert Unsent(Step(h, a), id) == Unsent(h, id) && Unread(Step(h, a), id, b) == Unread(h, id, b);
    case Store(other, s) =>
      if Find(h.records, other) < |h.records| {
        GetStored(h.records, id, other, s);
        assert Unread(Step(h, a), id, b) == Unread(h, id, b);
        StoreUnsent(h, id, other, s);
      }
    case Notify(k) =>
      if k < |h.pending| { NotifyUnread(h, id, b, k); }
  }

  lemma StoreUnsent(h: Hub, id: Id, other: Id, s: Status)
    requires Find(h.records, other) < |h.records|
    ensures Unsent(Step(h, Store(other, s)), id) ==> Unsent(h, id) || (other == id && Over(s))
  {
    var n := Step(h, Store(other, s));
    if k :| 0 <= k < |n.pending| && Ends(n.pending[k], id) {
      if k < |h.pending| { assert n.pending[k] == h.pending[k]; }
    }
  }

  lemma NotifyUnread(h: Hub, id: Id, b: nat, k: nat)
    requires k < |h.pending|
    ensures var n := Step(h, Notify(k)); Unsent(n, id) || Unread(n, id, b) ==> Unsent(h, id) || Unread(h, id, b)
  {
    var n := Step(h, Notify(k));
    if j :| 0 <= j < |n.pending| && Ends(n.pending[j], id) {
      assert n.pending[j] == if j < k then h.pending[j] else h.pending[j + 1];
    }
    if j :| b <= j < |n.sent| && Ends(n.sent[j], id) {
      assert n.sent[j] == if j < |h.sent| then h.sent[j] else h.pending[k];
    }
  }

  lemma {:induction false} NotedSteps(h: Hub, id: Id, b: nat, acts: seq<Act>)
    requires Noted(h, id, b) && Unique(h.records, id) && RespectsAll(h, id, acts)
    ensures var n := Steps(h, acts); Noted(n, id, b) && Unique(n.records, id) && (Known(n, id) ==> Known(h, id))
    decreases |acts|
  {
    hide Noted, Respects, Unique, Known;
    if acts != [] {
      NotedStep(h, id, b, acts[0]);
      NotedSteps(Step(h, acts[0]), id, b, acts[1..]);
    }
  }

  /** No settlement of the id was sent from position b up to `at`. */
  predicate NoneSent(h: Hub, id: Id, b: nat, at: nat)
    requires at <= |h.sent|
  {
    forall k :: b <= k < at ==> !Ends(h.sent[k], id)
  }

  lemma {:induction false} WaitMissesNone(h: Hub, id: Id, b: nat, at: nat, turns: seq<Turn>)
    requires b <= at <= |h.sent| && Noted(h, id, b) && Unique(h.records, id) && RespectsTurns(h, id, turns)
    requires Known(h, id) ==> NoneSent(h, id, b, at)
    ensures var o := Wait(h, id, at, turns);
      o.TimedOut? && Known(o.hub, id) ==> NoneSent(o.hub, id, b, |o.hub.sent|) && Known(h, id)
    decreases |turns|
  {
    if turns != [] {
      var now := Steps(h, turns[0].acts);
      StepsGrow(h, turns[0].acts);
      NotedSteps(h, id, b, turns[0].acts);
      assert Known(now, id) ==> NoneSent(now, id, b, at);
      hide Steps, Unique, RespectsAll, Known;
      match Receive(now.sent, UPDATE_BUFFER, at)
      case Next(u) => if !Ends(u, id) { WaitMissesNone(now, id, b, at + 1, turns[1..]); }
      case Lagged(_) =>
        if !ReadsTerminal(now, id) { WaitMissesNone(now, id, b, Position(now.sent, UPDATE_BUFFER, at), turns[1..]); }
      case Empty => if !turns[0].expired { WaitMissesNone(now, id, b, at, turns[1..]); }
    }
  }

  /** A waiter on a known trigger that times out was sent nothing but Queued and Running of it since it subscribed,
      and found it so when it read it. */
  lemma SentIsNotMissed(h: Hub, id: Id, between: seq<Act>, turns: seq<Turn>)
    requires Unique(h.records, id) && (Unsent(h, id) && Known(h, id) ==> TerminalNow(h, id))
    requires RespectsAll(h, id, between) && RespectsTurns(Steps(h, between), id, turns)
    ensures var o := Await(h, id, between, turns);
      o.TimedOut? && Known(o.hub, id) ==>
        && (forall k :: |h.sent| <= k < |o.hub.sent| && o.hub.sent[k].id == id ==> o.hub.sent[k].status.Queued? || o.hub.sent[k].status.Running?)
        && (var s := Get(Steps(h, between).records, id); s.Some? && (s.value.Queued? || s.value.Running?))
  {
    var now := Steps(h, between);
    StepsGrow(h, between);
    assert Noted(h, id, |h.sent|);
    NotedSteps(h, id, |h.sent|, between);
    if !ReadsTerminal(now, id) {
      WaitMissesNone(now, id, |h.sent|, |h.sent|, turns);
      var o := Wait(now, id, |h.sent|, turns);
      if o.TimedOut? && Known(o.hub, id) {
        forall k | |h.sent| <= k < |o.hub.sent| && o.hub.sent[k].id == id
          ensures o.hub.sent[k].status.Queued? || o.hub.sent[k].status.Running?
        {
          assert !Ends(o.hub.sent[k], id);
        }
      }
    }
  }

  /** Every settlement of the id anywhere in the hub is s. */
  predicate OnlyEver(h: Hub, id: Id, s: Status) { OnlyIn(h.records, id, s) && OnlyIn(h.pending, id, s) && OnlyIn(h.sent, id, s) }

  predicate OnlyIn(records: seq<Record>, id: Id, s: Status) {
    forall k :: 0 <= k < |records| && Ends(records[k], id) ==> records[k].status == s
  }

  lemma OnlyJoin(a: seq<Record>, b: seq<Record>, id: Id, s: Status)
    requires OnlyIn(a, id, s) && OnlyIn(b, id, s)
    ensures OnlyIn(a + b, id, s)
  {
  }

  lemma OnlySlice(a: seq<Record>, from: nat, upTo: nat, id: Id, s: Status)
    requires OnlyIn(a, id, s) && from <= upTo <= |a|
    ensures OnlyIn(a[from..upTo], id, s)
  {
  }

  /** Whoever settles the id, settles it with s. */
  predicate SettlesWith(id: Id, s: Status, acts: seq<Act>) {
    forall i :: 0 <= i < |acts| && !acts[i].Notify? && acts[i].id == id && Over(acts[i].status) ==> acts[i].status == s
  }

  predicate TurnsSettleWith(id: Id, s: Status, turns: seq<Turn>) {
    forall i :: 0 <= i < |turns| ==> SettlesWith(id, s, turns[i].acts)
  }

  lemma OnlyStep(h: Hub, id: Id, s: Status, a: Act)
    requires OnlyEver(h, id, s) && (!a.Notify? && a.id == id && Over(a.status) ==> a.status == s)
    ensures OnlyEver(Step(h, a), id, s)
  {
    if !a.Notify? { assert OnlyIn([Record(a.id, a.status)], id, s); }
    hide Find, Ends;
    match a
    case Register(other, t) =>
      var all := h.records + [Record(other, t)];
      OnlyJoin(h.records, [Record(other, t)], id, s);
      OnlySlice(all, |all| - |Capped(all)|, |all|, id, s);
      hide OnlyIn;
    case Store(other, t) =>
      OnlyJoin(h.pending, [Record(other, t)], id, s);
      var k := Find(h.records, other);
      if k < |h.records| { assert OnlyIn(h.records[k := Record(other, t)], id, s); }
      hide OnlyIn;
    case Notify(k) =>
      hide OnlyIn;
      if k < |h.pending| {
        OnlySlice(h.pending, 0, k, id, s);
        OnlySlice(h.pending, k + 1, |h.pending|, id, s);
        OnlySlice(h.pending, k, k + 1, id, s);
        assert h.pending[0..k] == h.pending[..k] && h.pending[k + 1..|h.pending|] == h.pending[k + 1..];
        assert h.pending[k..k + 1] == [h.pending[k]];
        OnlyJoin(h.pending[..k], h.pending[k + 1..], id, s);
        OnlyJoin(h.sent, [h.pending[k]], id, s);
      }
  }

  lemma {:induction false} OnlySteps(h: Hub, id: Id, s: Status, acts: seq<Act>)
    requires OnlyEver(h, id, s) && SettlesWith(id, s, acts)
    ensures OnlyEver(Steps(h, acts), id, s)
    decreases |acts|
  {
    if acts != [] {
      OnlyStep(h, id, s, acts[0]);
      hide OnlyEver;
      OnlySteps(Step(h, acts[0]), id, s, acts[1..]);
    }
  }

  lemma {:induction false} WaitEnds(h: Hub, id: Id, at: nat, turns: seq<Turn>, s: Status)
    requires at <= |h.sent| && OnlyEver(h, id, s) && TurnsSettleWith(id, s, turns)
    ensures var o := Wait(h, id, at, turns); o.Ended? ==> o.status == s && Over(s)
    decreases |turns|
  {
    if turns != [] {
      var now := Steps(h, turns[0].acts);
      StepsGrow(h, turns[0].acts);
      OnlySteps(h, id, s, turns[0].acts);
      assert TurnsSettleWith(id, s, turns[1..]);
      hide Steps, SettlesWith, TurnsSettleWith;
      match Receive(now.sent, UPDATE_BUFFER, at)
      case Next(u) => if !(u.id == id && Terminal(u.status)) { WaitEnds(now, id, at + 1, turns[1..], s); }
      case Lagged(_) =>
        if ReadsTerminal(now, id) { assert Ends(now.records[Find(now.records, id)], id); }
        else { WaitEnds(now, id, Position(now.sent, UPDATE_BUFFER, at), turns[1..], s); }
      case Empty => if !turns[0].expired { WaitEnds(now, id, at, turns[1..], s); }
    }
  }

  /** What a waiter is told is the status its trigger was settled with, and that is neither Queued nor Running. */
  lemma ToldIsStored(h: Hub, id: Id, between: seq<Act>, turns: seq<Turn>, s: Status)
    requires OnlyEver(h, id, s) && SettlesWith(id, s, between) && TurnsSettleWith(id, s, turns)
    ensures var o := Await(h, id, between, turns); o.Ended? ==> o.status == s && !s.Queued? && !s.Running?
  {
    var now := Steps(h, between);
    StepsGrow(h, between);
    OnlySteps(h, id, s, between);
    if ReadsTerminal(now, id) {
      assert Ends(now.records[Find(now.records, id)], id);
    } else {
      WaitEnds(now, id, |h.sent|, turns, s);
    }
  }

  predicate Quiet(turns: seq<Turn>) { forall i :: 0 <= i < |turns| ==> turns[i].acts == [] }

  /** Once the notification is sent, polling brings it in before any deadline can fire, lagging or not. */
  lemma {:induction false} NotifiedWakes(h: Hub, id: Id, at: nat, turns: seq<Turn>)
    requires at <= |h.sent| && Unread(h, id, at) && TerminalNow(h, id) && Quiet(turns) && |turns| >= |h.sent| - at
    ensures Wait(h, id, at, turns).Ended?
    decreases |turns|
  {
    var k :| at <= k < |h.sent| && Ends(h.sent[k], id);
    assert Steps(h, turns[0].acts) == h;
    if Receive(h.sent, UPDATE_BUFFER, at).Next? && !Ends(h.sent[at], id) {
      assert Unread(h, id, at + 1);
      NotifiedWakes(h, id, at + 1, turns[1..]);
    }
  }

  /** The gap is real: stored before the deadline, notified after it, and the caller is told nothing. */
  lemma StoredButUnsentIsMissed(id: Id)
    ensures var h := Hub([Record(id, Running)], [], []);
      var o := Await(h, id, [], [Turn([Store(id, Completed("replied"))], true)]);
      o.TimedOut? && Get(o.hub.records, id) == Some(Completed("replied"))
  {
    var h := Hub([Record(id, Running)], [], []);
    var a := Store(id, Completed("replied"));
    assert Steps(h, []) == h;
    assert Steps(h, [a]) == Step(h, a) by { assert [a][1..] == []; }
    GetStored(h.records, id, id, Completed("replied"));
  }

  // ---- the history ----

  predicate DistinctIds(records: seq<Record>) { forall i, j :: 0 <= i < j < |records| ==> records[i].id != records[j].id }

  /** A record registered under a fresh id can be found, and ids stay distinct. */
  lemma FreshIsKnown(records: seq<Record>, r: Record)
    requires forall k :: 0 <= k < |records| ==> records[k].id != r.id
    ensures Unique(records + [r], r.id) && Get(records + [r], r.id) == Some(r.status)
    ensures DistinctIds(records) ==> DistinctIds(records + [r])
  {
    FindIs(records + [r], r.id, |records|);
  }

  /** The capped history is the newest part of an uncapped one: an update of an evicted record is ignored. */
  lemma HistoryIsNewest(all: seq<Record>, id: Id, s: Status)
    requires DistinctIds(all)
    ensures Capped(Stored(all, id, s)) == Stored(Capped(all), id, s)
    ensures Capped(all + [Record(id, s)]) == Capped(Capped(all) + [Record(id, s)])
  {
    var cut := if |all| <= HISTORY_CAP then 0 else |all| - HISTORY_CAP;
    assert Capped(all) == all[cut..];
    StoredTail(all, id, s, cut);
    CappedAppend(all, Record(id, s));
  }

  lemma StoredTail(all: seq<Record>, id: Id, s: Status, cut: nat)
    requires DistinctIds(all) && cut <= |all|
    ensures |Stored(all, id, s)| == |all| && Stored(all, id, s)[cut..] == Stored(all[cut..], id, s)
  {
    var k := Find(all, id);
    FindIs(all[cut..], id, if k < cut then |all| - cut else k - cut);
  }

  lemma CappedAppend(all: seq<Record>, r: Record)
    ensures Capped(all + [r]) == Capped(Capped(all) + [r])
  {
    if |all| > HISTORY_CAP {
      var tail := all[|all| - HISTORY_CAP..];
      assert (all + [r])[|all| + 1 - HISTORY_CAP..] == (tail + [r])[1..];
    }
  }

  datatype Begun = Began(id: Id) | Busy(active: Id)

  class TriggerHub {
    var records: seq<Record>
    var inFlight: map<Flow, Id>
    /** Updates stored under the lock whose send is still to come, and everything sent. */
    var pending: seq<Record>
    var sent: seq<Record>

    constructor ()
      ensures records == [] && inFlight == map[] && pending == [] && sent == []
    {
      records, inFlight, pending, sent := [], map[], [], [];
    }

    function View(): Hub
      reads this
    {
      Hub(records, pending, sent)
    }

    /** `push_record`: append, then evict from the front while over the cap. */
    method PushRecord(id: Id, status: Status)
      requires |records| <= HISTORY_CAP
      modifies this`records
      ensures records == Capped(old(records) + [Record(id, status)]) && |records| <= HISTORY_CAP
    {
      records := records + [Record(id, status)];
      ghost var pushed := records;
      ghost var dropped := 0;
      while |records| > HISTORY_CAP
        invariant dropped <= |pushed| && records == pushed[dropped..] && (dropped > 0 ==> |pushed| - dropped >= HISTORY_CAP)
        decreases |records|
      {
        records := records[1..];
        dropped := dropped + 1;
      }
    }

    /** Claims a free flow and registers, or names the trigger that holds it and changes nothing. */
    method TryBegin(flow: Flow, id: Id) returns (r: Begun)
      requires |records| <= HISTORY_CAP
      modifies this`records, this`inFlight
      ensures |records| <= HISTORY_CAP
      ensures flow in old(inFlight) ==> r == Busy(old(inFlight)[flow]) && records == old(records) && inFlight == old(inFlight)
      ensures flow !in old(inFlight) ==> r == Began(id) && inFlight == old(inFlight)[flow := id]
      ensures flow !in old(inFlight) ==> records == Capped(old(records) + [Record(id, Running)])
    {
      if flow in inFlight { return Busy(inFlight[flow]); }
      PushRecord(id, Running);
      inFlight := inFlight[flow := id];
      return Began(id);
    }

    method Begin(flow: Flow, id: Id)
      modifies this
      ensures inFlight == old(inFlight)[flow := id]
      ensures View() == Updated(old(View()), id, Running)
    {
      inFlight := inFlight[flow := id];
      SetStatus(id, Running);
    }

    /** Releases the flows the trigger holds and no others. */
    method Finish(id: Id, status: Status)
      modifies this
      ensures inFlight == map f | f in old(inFlight) && old(inFlight)[f] != id :: old(inFlight)[f]
      ensures View() == Updated(old(View()), id, status)
    {
      inFlight := map f | f in inFlight && inFlight[f] != id :: inFlight[f];
      SetStatus(id, status);
    }

    /** `set_status`: the store under the lock, then the send outside it. */
    method SetStatus(id: Id, status: Status)
      modifies this`records, this`pending, this`sent
      ensures View() == Updated(old(View()), id, status)
    {
      var k := 0;
      while k < |records| && records[k].id != id
        invariant k <= |records| && forall i :: 0 <= i < k ==> records[i].id != id
      {
        k := k + 1;
      }
      FindIs(records, id, k);
      if k == |records| { return; }
      records := records[k := Record(id, status)];
      pending := pending + [Record(id, status)];
      SendPending(|pending| - 1);
    }

    method SendPending(k: nat)
      requires k < |pending|
      modifies this`pending, this`sent
      ensures View() == Step(old(View()), Notify(k))
    {
      sent := sent + [pending[k]];
      pending := pending[..k] + pending[k + 1..];
    }

    /** What the other callers do meanwhile. */
    method Apply(acts: seq<Act>)
      requires |records| <= HISTORY_CAP
      modifies this`records, this`pending, this`sent
      ensures View() == Steps(old(View()), acts) && |records| <= HISTORY_CAP
    {
      ghost var start := View();
      for i := 0 to |acts|
        invariant |records| <= HISTORY_CAP && Steps(start, acts) == Steps(View(), acts[i..])
      {
        ghost var now := View();
        assert acts[i..][1..] == acts[i + 1..];
        match acts[i]
        case Register(id, s) => PushRecord(id, s);
        case Store(id, s) =>
          var k := Find(records, id);
          if k < |records| {
            records := records[k := Record(id, s)];
            pending := pending + [Record(id, s)];
          }
        case Notify(k) => if k < |pending| { SendPending(k); }
        assert View() == Step(now, acts[i]);
      }
      assert acts[|acts|..] == [];
    }

    /** `await_terminal` against any schedule of the other callers. */
    method AwaitTerminal(id: Id, between: seq<Act>, turns: seq<Turn>) returns (r: Option<Status>, finished: bool)
      requires |records| <= HISTORY_CAP
      modifies this`records, this`pending, this`sent
      ensures var o := Await(old(View()), id, between, turns);
        && (finished <==> !o.StillWaiting?)
        && (r.Some? <==> o.Ended?) && (o.Ended? ==> r == Some(o.status))
        && (o.TimedOut? ==> o.hub == View())
    {
      hide Steps, Find, Capped, Terminal;
      var at: nat := |sent|;
      ghost var before := View();
      StepsGrow(before, between);
      Apply(between);
      assert View().sent == Steps(before, between).sent;
      var status := Get(records, id);
      if status.Some? && Terminal(status.value) { return status, true; }
      ghost var o := Wait(View(), id, at, turns);
      for i := 0 to |turns|
        invariant |records| <= HISTORY_CAP && at <= |sent| && o == Wait(View(), id, at, turns[i..])
      {
        assert turns[i..][1..] == turns[i + 1..] && turns[i..][0] == turns[i];
        ghost var before := View();
        StepsGrow(before, turns[i].acts);
        Apply(turns[i].acts);
        assert View().sent == Steps(before, turns[i].acts).sent;
        var received := Receive(sent, UPDATE_BUFFER, at);
        at := Position(sent, UPDATE_BUFFER, at);
        match received
        case Next(update) =>
          if update.id == id && Terminal(update.status) { return Some(update.status), true; }
        case Lagged(_) =>
          status := Get(records, id);
          if status.Some? && Terminal(status.value) { return status, true; }
        case Empty =>
          if turns[i].expired { return None, true; }
      }
      assert turns[|turns|..] == [];
      return None, false;
    }
  }

  function Updated(h: Hub, id: Id, s: Status): Hub {
    var stored := Step(h, Store(id, s));
    if Find(h.records, id) < |h.records| then Step(stored, Notify(|stored.pending| - 1)) else h
  }
}
