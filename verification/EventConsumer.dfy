/** A consumer of the bus, a receive at a time: what it emits, where it stands, and how it catches up. */
module EventConsumer {
  import opened Broadcast
  import opened Bus
  import opened Optional

  // ---- filters ----

  /** `?types=` patterns, a trailing '*' matching any ending, and `?agent=`. */
  datatype Filter = Filter(types: Option<seq<string>>, agent: Option<string>)

  const EVERYTHING := Filter(None, None)

  predicate TypeMatches(pattern: string, kind: string) {
    if pattern != [] && pattern[|pattern| - 1] == '*' then pattern[..|pattern| - 1] <= kind else kind == pattern
  }

  predicate AgentMatches(want: string, payload: Payload) {
    match payload
    case Global(_) => true
    case AboutAgent(_, agent) => agent == want
    case Message(_, to, from) => to == want || from == Agent(want)
  }

  predicate Matches(f: Filter, e: Event) {
    e.payload.Global? ||
    ((f.types.None? || exists i :: 0 <= i < |f.types.value| && TypeMatches(f.types.value[i], e.payload.kind)) &&
     (f.agent.None? || AgentMatches(f.agent.value, e.payload)))
  }

  /** By example: a starred pattern takes every kind it begins, a plain one only itself, and an agent's filter takes what is
      about it and messages it sends or gets; what is global passes every filter. */
  lemma FilterExamples()
    ensures var f := Filter(Some(["agent.*", "message.sent"]), Some("ada"));
      && Matches(f, Event(1, AboutAgent("agent.exited", "ada"))) && !Matches(f, Event(1, AboutAgent("agent.exited", "bob")))
      && !Matches(f, Event(1, AboutAgent("turn.ended", "ada")))
      && Matches(f, Event(1, AboutAgent("agent.", "ada"))) && Matches(Filter(Some(["*"]), None), Event(1, AboutAgent("turn.ended", "bob")))
      && Matches(f, Event(1, Message("message.sent", "ada", Elsewhere))) && Matches(f, Event(1, Message("message.sent", "bob", Agent("ada"))))
      && !Matches(f, Event(1, Message("message.sent", "bob", Elsewhere))) && !Matches(f, Event(1, Message("message.sent.x", "ada", Elsewhere)))
      && Matches(f, Event(1, Global("run.started")))
  {
    var types := ["agent.*", "message.sent"];
    assert types[0][|types[0]| - 1] == '*' && types[0][..|types[0]| - 1] == "agent.";
    assert "agent.exited"[..6] == "agent." == "agent."[..6];
    assert TypeMatches(["*"][0], "turn.ended") && TypeMatches(types[0], "agent.");
    assert TypeMatches(types[0], "agent.exited") && TypeMatches(types[1], "message.sent");
    assert "turn.ended"[0] != 'a' && "message.sent.x"[0] != 'a';
    assert !TypeMatches(types[0], "turn.ended") && !TypeMatches(types[0], "message.sent.x");
    assert |"turn.ended"| != |"message.sent"| && |"message.sent.x"| != |"message.sent"|;
    assert !TypeMatches(types[1], "turn.ended") && !TypeMatches(types[1], "message.sent.x");
    assert "ada"[0] != "bob"[0];
  }

  lemma MatchesEverything(e: Event)
    ensures Matches(EVERYTHING, e)
  {
  }

  // ---- the consumer ----

  /** An event of the bus, or a reset made up for this consumer, which takes a new snapshot on it. */
  datatype Emission = Live(event: Event) | Reset(number: nat)

  /** What it has been sent, its last number, its place in the channel, and whether the client is gone: a client with room
      takes that many more frames and is gone at the one after. */
  datatype Consumer = Consumer(out: seq<Emission>, last: nat, at: nat, room: Option<nat>, gone: bool)

  /** What publishers do before a receive, and between a lag and the reset that reports it. */
  datatype Turn = Turn(before: seq<Act>, between: seq<Act>)

  function Framed(c: Consumer, e: Emission): Consumer {
    if c.room == Some(0) then c.(gone := true)
    else c.(out := c.out + [e], room := if c.room.Some? then Some(c.room.value - 1) else None)
  }

  /** An event not had before: its number is remembered whether or not the filter wants it. */
  function Offered(f: Filter, c: Consumer, e: Event): Consumer {
    var d := c.(last := e.number);
    if Matches(f, e) then Framed(d, Live(e)) else d
  }

  function OfferedAll(f: Filter, c: Consumer, events: seq<Event>): Consumer {
    if events == [] then c
    else
      var d := OfferedAll(f, c, events[..|events| - 1]);
      if d.gone then d else Offered(f, d, events[|events| - 1])
  }

  function Max(a: nat, b: nat): nat { if a < b then b else a }

  /** One receive. After a lag the consumer is sent a reset; one that keeps the reset's number counts it as had. */
  function Received1(v: View, f: Filter, keeps: bool, t: Turn, c: Consumer): (View, Consumer)
    requires c.at <= v.sent <= |v.log|
  {
    ViewGrows(v, t.before);
    var now := ActedAll(v, t.before);
    var sent := now.log[..now.sent];
    var next := Position(sent, CAPACITY, c.at);
    match Receive(sent, CAPACITY, c.at)
    case Empty => (now, c)
    case Next(e) => (now, (if e.number <= c.last then c else Offered(f, c, e)).(at := next))
    case Lagged(_) =>
      var later := ActedAll(now, t.between);
      var number := |later.log|;
      (later, Framed(c.(last := if keeps then Max(c.last, number) else c.last), Reset(number)).(at := next))
  }

  /** The live loop. */
  function Pumped(v: View, f: Filter, keeps: bool, turns: seq<Turn>, c: Consumer): (View, Consumer)
    requires c.at <= v.sent <= |v.log|
    decreases |turns|
  {
    if turns == [] || c.gone then (v, c)
    else
      var (w, d) := Received1(v, f, keeps, turns[0], c);
      StaysBehind(v, f, keeps, turns[0], c);
      Pumped(w, f, keeps, turns[1..], d)
  }

  lemma {:induction false} ViewGrows(v: View, acts: seq<Act>)
    requires v.sent <= |v.log|
    ensures var w := ActedAll(v, acts); v.log <= w.log && v.sent <= w.sent <= |w.log|
  {
    if acts != [] { ViewGrows(v, acts[..|acts| - 1]); }
  }

  lemma StaysBehind(v: View, f: Filter, keeps: bool, t: Turn, c: Consumer)
    requires c.at <= v.sent <= |v.log|
    ensures var (w, d) := Received1(v, f, keeps, t, c); d.at <= w.sent <= |w.log| && v.log <= w.log && v.sent <= w.sent
  {
    ViewGrows(v, t.before);
    ViewGrows(ActedAll(v, t.before), t.between);
    hide Matches, ActedAll;
  }

  // ---- it moves ----

  /** A receive with anything to receive moves the consumer: by one, past the next event, which it is sent if it is wanted
      and new, with no reset as long as the channel has kept it; or past everything the channel dropped. */
  lemma ReceiveMoves(v: View, f: Filter, keeps: bool, t: Turn, c: Consumer)
    requires c.at <= v.sent <= |v.log|
    ensures var now := ActedAll(v, t.before); v.sent <= now.sent <= |now.log|
    ensures var sent := ActedAll(v, t.before).sent; var d := Received1(v, f, keeps, t, c).1;
      && (c.at == sent ==> d == c)
      && (c.at < sent <= c.at + CAPACITY ==>
            var e := ActedAll(v, t.before).log[c.at];
            d.at == c.at + 1 && d.out == if c.last < e.number && Matches(f, e) && c.room != Some(0) then c.out + [Live(e)] else c.out)
      && (c.at + CAPACITY < sent ==> d.at == sent - CAPACITY)
  {
    ViewGrows(v, t.before);
    hide Matches, ActedAll;
  }

  /** A turn in which nothing is published. */
  predicate Still(turns: seq<Turn>) { forall i :: 0 <= i < |turns| ==> turns[i] == Turn([], []) }

  /** How far behind the consumer is. */
  function Behind(v: View, c: Consumer): nat
    requires c.at <= v.sent
  {
    v.sent - c.at
  }

  /** Once nothing is published any more, the consumer has had everything after as many turns as it is behind, and after
      CAPACITY + 1 however far that is. */
  lemma {:induction false} CatchesUp(v: View, f: Filter, keeps: bool, turns: seq<Turn>, c: Consumer)
    requires c.at <= v.sent <= |v.log| && Still(turns)
    requires |turns| >= Behind(v, c) || |turns| > CAPACITY
    ensures var (w, d) := Pumped(v, f, keeps, turns, c); w == v && (d.gone || d.at == v.sent)
    decreases |turns|
  {
    if turns != [] && !c.gone {
      assert turns[0] == Turn([], []);
      ReceiveMoves(v, f, keeps, turns[0], c);
      StaysBehind(v, f, keeps, turns[0], c);
      StillReceive(v, f, keeps, c);
      var (w, d) := Received1(v, f, keeps, turns[0], c);
      hide Received1, Matches;
      CatchesUp(w, f, keeps, turns[1..], d);
    }
  }

  lemma StillReceive(v: View, f: Filter, keeps: bool, c: Consumer)
    requires c.at <= v.sent <= |v.log|
    ensures Received1(v, f, keeps, Turn([], []), c).0 == v
  {
    hide Matches;
  }

  /** At most one event is sent before each receive. */
  predicate OneAtATime(v: View, turns: seq<Turn>)
    requires v.sent <= |v.log|
    decreases |turns|
  {
    turns == [] || (ActedAll(v, turns[0].before).sent <= v.sent + 1 && (ViewGrows(v, turns[0].before); OneAtATime(ActedAll(v, turns[0].before), turns[1..])))
  }

  /** A consumer that is level with a bus that sends one event at a time stays level. */
  lemma {:induction false} KeepsUp(v: View, f: Filter, keeps: bool, turns: seq<Turn>, c: Consumer)
    requires c.at == v.sent <= |v.log| && OneAtATime(v, turns)
    ensures var (w, d) := Pumped(v, f, keeps, turns, c); d.gone || d.at == w.sent
    decreases |turns|
  {
    if turns != [] && !c.gone {
      ReceiveMoves(v, f, keeps, turns[0], c);
      StaysBehind(v, f, keeps, turns[0], c);
      LevelReceive(v, f, keeps, turns[0], c);
      var (w, d) := Received1(v, f, keeps, turns[0], c);
      hide Received1, Matches, ActedAll;
      if !d.gone { KeepsUp(w, f, keeps, turns[1..], d); }
    }
  }

  lemma LevelReceive(v: View, f: Filter, keeps: bool, t: Turn, c: Consumer)
    requires c.at == v.sent <= |v.log| && ActedAll(v, t.before).sent <= v.sent + 1
    ensures Received1(v, f, keeps, t, c).0 == ActedAll(v, t.before)
  {
    ViewGrows(v, t.before);
    hide Matches, ActedAll;
  }

  // ---- when a client is gone ----

  /** From c to d the client took a frame for each emission, and is gone only if it had no room left. */
  predicate RoomKept(c: Consumer, d: Consumer) {
    && c.out <= d.out
    && (c.room.None? ==> d.room.None? && d.gone == c.gone)
    && (c.room.Some? ==>
          && d.room.Some? && |d.out| - |c.out| == c.room.value - d.room.value
          && (d.gone && !c.gone ==> d.room == Some(0)))
  }

  lemma RoomTrans(a: Consumer, b: Consumer, c: Consumer)
    requires RoomKept(a, b) && RoomKept(b, c) && (b.gone ==> c == b)
    ensures RoomKept(a, c)
  {
  }

  lemma {:induction false} OfferedRoom(f: Filter, c: Consumer, events: seq<Event>)
    ensures RoomKept(c, OfferedAll(f, c, events))
  {
    if events != [] {
      OfferedRoom(f, c, events[..|events| - 1]);
      var d := OfferedAll(f, c, events[..|events| - 1]);
      hide Matches;
      if !d.gone { RoomTrans(c, d, Offered(f, d, events[|events| - 1])); }
    }
  }

  lemma {:induction false} PumpedRoom(v: View, f: Filter, keeps: bool, turns: seq<Turn>, c: Consumer)
    requires c.at <= v.sent <= |v.log|
    ensures RoomKept(c, Pumped(v, f, keeps, turns, c).1)
    decreases |turns|
  {
    if turns != [] && !c.gone {
      StaysBehind(v, f, keeps, turns[0], c);
      ReceivedRoom(v, f, keeps, turns[0], c);
      var (w, d) := Received1(v, f, keeps, turns[0], c);
      hide Received1, Matches;
      PumpedRoom(w, f, keeps, turns[1..], d);
      RoomTrans(c, d, Pumped(w, f, keeps, turns[1..], d).1);
    }
  }

  lemma ReceivedRoom(v: View, f: Filter, keeps: bool, t: Turn, c: Consumer)
    requires c.at <= v.sent <= |v.log|
    ensures RoomKept(c, Received1(v, f, keeps, t, c).1)
  {
    ViewGrows(v, t.before);
    hide Matches, ActedAll;
  }

  // ---- runs in two parts ----

  lemma {:induction false} PumpedAppend(v: View, f: Filter, keeps: bool, a: seq<Turn>, b: seq<Turn>, c: Consumer)
    requires c.at <= v.sent <= |v.log|
    ensures var (w, d) := Pumped(v, f, keeps, a, c); d.at <= w.sent <= |w.log| && Pumped(v, f, keeps, a + b, c) == Pumped(w, f, keeps, b, d)
    decreases |a|
  {
    if a == [] || c.gone {
      assert a == [] ==> a + b == b;
    } else {
      StaysBehind(v, f, keeps, a[0], c);
      var (w, d) := Received1(v, f, keeps, a[0], c);
      hide Received1, Matches;
      assert (a + b)[0] == a[0] && (a + b)[1..] == a[1..] + b;
      PumpedAppend(w, f, keeps, a[1..], b, d);
    }
  }

  /** The schedule ends in more than CAPACITY turns in which nothing is published. */
  predicate EndsStill(turns: seq<Turn>) { |turns| > CAPACITY && Still(turns[|turns| - CAPACITY - 1..]) }

  /** Whatever was published before, such a schedule leaves a client that is still there level with the bus. */
  lemma EndsLevel(v: View, f: Filter, keeps: bool, turns: seq<Turn>, c: Consumer)
    requires c.at <= v.sent <= |v.log| && EndsStill(turns)
    ensures var (w, d) := Pumped(v, f, keeps, turns, c); d.gone || d.at == w.sent
  {
    var n := |turns| - CAPACITY - 1;
    assert turns == turns[..n] + turns[n..];
    PumpedAppend(v, f, keeps, turns[..n], turns[n..], c);
    var (w, d) := Pumped(v, f, keeps, turns[..n], c);
    CatchesUp(w, f, keeps, turns[n..], d);
    hide Pumped;
  }
}
