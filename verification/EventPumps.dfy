/** The two consumers of the bus: the SSE pump and the desktop bridge, each across the replay/live seam. */
module EventPumps {
  import opened Arithmetic
  import opened Broadcast
  import opened Bus
  import opened EventConsumer
  import opened Optional

  // ---- what a consumer gets ----

  /** Events come in strictly increasing order of number. */
  ghost predicate Increasing(out: seq<Emission>) {
    forall i, j :: 0 <= i < j < |out| && out[i].Live? && out[j].Live? ==> out[i].event.number < out[j].event.number
  }

  /** Every event emitted is one that was published, passes the filter and lies within the bounds. */
  ghost predicate Genuine(log: seq<Event>, f: Filter, out: seq<Emission>, above: nat, upTo: nat) {
    forall i :: 0 <= i < |out| && out[i].Live? ==>
      var e := out[i].event;
      above < e.number <= upTo && e.number <= |log| && log[e.number - 1] == e && Matches(f, e)
  }

  ghost predicate ResetOver(out: seq<Emission>, n: nat) {
    exists i :: 0 <= i < |out| && out[i].Reset? && out[i].number >= n
  }

  /** The event numbered n was emitted, filtered out, or lies under a reset. */
  ghost predicate Covered(log: seq<Event>, f: Filter, out: seq<Emission>, n: nat) {
    1 <= n <= |log| && (Live(log[n - 1]) in out || !Matches(f, log[n - 1]) || ResetOver(out, n))
  }

  ghost predicate CoveredRange(log: seq<Event>, f: Filter, out: seq<Emission>, from: nat, to: nat) {
    forall n :: from < n <= to ==> Covered(log, f, out, n)
  }

  /** A consumer's state between two receives: its last number, and its place in the channel. */
  ghost predicate Sound(log: seq<Event>, sent: nat, f: Filter, out: seq<Emission>, from: nat, above: nat, last: nat, at: nat) {
    && at <= sent <= |log| && last <= |log| && above <= at
    && Increasing(out) && Genuine(log, f, out, above, last)
    && CoveredRange(log, f, out, from, Max(last, at))
  }

  lemma SoundGrows(log: seq<Event>, more: seq<Event>, sent: nat, later: nat, f: Filter, out: seq<Emission>,
                   from: nat, above: nat, last: nat, at: nat)
    requires Sound(log, sent, f, out, from, above, last, at) && log <= more && sent <= later <= |more|
    ensures Sound(more, later, f, out, from, above, last, at)
  {
    hide Increasing;
    forall n | from < n <= Max(last, at) ensures Covered(more, f, out, n) {
      assert Covered(log, f, out, n);
      assert more[n - 1] == log[n - 1];
    }
    forall i | 0 <= i < |out| && out[i].Live? ensures more[out[i].event.number - 1] == log[out[i].event.number - 1] {
    }
  }

  /** The next event of the channel, when it is not a duplicate across the seam. */
  lemma SoundNext(log: seq<Event>, sent: nat, f: Filter, out: seq<Emission>, from: nat, above: nat, last: nat, at: nat)
    requires Sound(log, sent, f, out, from, above, last, at) && at < sent && last < at + 1
    requires log[at].number == at + 1
    ensures Sound(log, sent, f, if Matches(f, log[at]) then out + [Live(log[at])] else out, from, above, at + 1, at + 1)
  {
    hide Matches, Covered, Increasing, Genuine;
    if Matches(f, log[at]) {
      OutAppend(log, f, out, above, last, log[at]);
      OutGrows(log, f, out, out + [Live(log[at])], from, at);
    } else {
      GenuineTo(log, f, out, above, last, at + 1);
    }
    CoverNext(log, f, out, at);
  }

  lemma OutAppend(log: seq<Event>, f: Filter, out: seq<Emission>, above: nat, last: nat, e: Event)
    requires Increasing(out) && Genuine(log, f, out, above, last) && Matches(f, e)
    requires last < e.number <= |log| && above < e.number && log[e.number - 1] == e
    ensures Increasing(out + [Live(e)]) && Genuine(log, f, out + [Live(e)], above, e.number)
  {
    hide Matches;
  }

  lemma CoverNext(log: seq<Event>, f: Filter, out: seq<Emission>, at: nat)
    requires at < |log|
    ensures Covered(log, f, if Matches(f, log[at]) then out + [Live(log[at])] else out, at + 1)
  {
    hide Matches;
    if Matches(f, log[at]) { assert (out + [Live(log[at])])[|out|] == Live(log[at]); }
  }

  lemma GenuineTo(log: seq<Event>, f: Filter, out: seq<Emission>, above: nat, last: nat, later: nat)
    requires Genuine(log, f, out, above, last) && last <= later
    ensures Genuine(log, f, out, above, later)
  {
    hide Matches;
  }

  lemma SoundSkip(log: seq<Event>, sent: nat, f: Filter, out: seq<Emission>, from: nat, above: nat, last: nat, at: nat)
    requires Sound(log, sent, f, out, from, above, last, at) && at < sent && at + 1 <= last
    ensures Sound(log, sent, f, out, from, above, last, at + 1)
  {
    hide Matches, Covered, Genuine, Increasing;
  }

  /** A reset numbered at the counter covers everything numbered, however much of it the channel dropped. */
  lemma SoundReset(log: seq<Event>, sent: nat, f: Filter, out: seq<Emission>, from: nat, above: nat, last: nat, at: nat,
                   number: nat, later: nat, next: nat)
    requires Sound(log, sent, f, out, from, above, last, at)
    requires number <= |log| && last <= later <= Max(last, number) && at <= next <= sent <= number
    ensures Sound(log, sent, f, out + [Reset(number)], from, above, later, next)
  {
    hide Matches;
    var grown := out + [Reset(number)];
    OutGrows(log, f, out, grown, from, Max(last, at));
    forall n | from < n <= Max(later, next) ensures Covered(log, f, grown, n) {
      if n > Max(last, at) || n <= number { assert grown[|out|] == Reset(number); }
    }
  }

  lemma OutGrows(log: seq<Event>, f: Filter, out: seq<Emission>, more: seq<Emission>, from: nat, to: nat)
    requires CoveredRange(log, f, out, from, to) && out <= more
    ensures CoveredRange(log, f, more, from, to)
  {
    hide Matches;
    forall n | from < n <= to ensures Covered(log, f, more, n) {
      assert Covered(log, f, out, n);
      if ResetOver(out, n) {
        var i :| 0 <= i < |out| && out[i].Reset? && out[i].number >= n;
        assert more[i] == out[i];
      }
    }
  }

  // ---- the consumers ----

  /** The replay, or the reset in its place; the bridge does not remember that reset's number. */
  function StartOut(v: View, since: Option<nat>, f: Filter, keeps: bool, room: Option<nat>, during: seq<Act>, settling: seq<Act>)
    : (out: (View, Consumer))
    requires v.ringed <= |v.log| && v.sent <= |v.log|
    ensures out.1.at == v.sent <= out.0.sent <= |out.0.log|
  {
    ViewGrows(v, during);
    RingWithin(v, during);
    var now := ActedAll(v, during);
    var c := Consumer([], 0, v.sent, room, false);
    var replay := if since.Some? then ReplayOf(now, since.value) else Some([]);
    if replay.Some? then (OfferedStays(f, c, replay.value); (now, OfferedAll(f, c, replay.value)))
    else
      ViewGrows(now, settling);
      var later := ActedAll(now, settling);
      var number := |later.log|;
      (later, Framed(if keeps then c.(last := number) else c, Reset(number)))
  }

  /** `events` and `pump_events` on a bus, a receive at a time. */
  function StreamOut(v: View, since: Option<nat>, f: Filter, during: seq<Act>, settling: seq<Act>, turns: seq<Turn>, open: nat)
    : (View, Consumer)
    requires v.ringed <= |v.log| && v.sent <= |v.log|
  {
    var (now, c) := StartOut(v, since, f, true, Some(open), during, settling);
    Pumped(now, f, true, turns, c)
  }

  /** `forward_events`, whose client never goes away and whose resets do not move its last number. */
  function BridgeOut(v: View, during: seq<Act>, settling: seq<Act>, turns: seq<Turn>): (View, Consumer)
    requires v.ringed <= |v.log| && v.sent <= |v.log|
  {
    var (now, c) := StartOut(v, Some(0), EVERYTHING, false, None, during, settling);
    Pumped(now, EVERYTHING, false, turns, c)
  }

  lemma {:induction false} RingWithin(v: View, acts: seq<Act>)
    requires v.ringed <= |v.log|
    ensures ActedAll(v, acts).ringed <= |ActedAll(v, acts).log|
  {
    if acts != [] { RingWithin(v, acts[..|acts| - 1]); }
  }

  lemma {:induction false} OfferedStays(f: Filter, c: Consumer, events: seq<Event>)
    ensures OfferedAll(f, c, events).at == c.at
  {
    hide Matches;
    if events != [] { OfferedStays(f, c, events[..|events| - 1]); }
  }

  /**
   * `events` and `pump_events`. `during` is published between subscribing and replaying, `settling` between a failed
   * replay and its reset; the client takes `open` frames and is gone at the next one. After a schedule that ends still,
   * every event ever sent is at or below the consumer's place, and so emitted, filtered or under a reset.
   */
  method StreamEvents(bus: EventBus, since: Option<nat>, filter: Filter, during: seq<Act>, settling: seq<Act>,
                      turns: seq<Turn>, open: nat)
    returns (c: Consumer, ghost from: nat, ghost above: nat)
    requires bus.Valid() && (since.Some? ==> since.value < U64)
    modifies bus
    ensures bus.Valid() && old(bus.log) <= bus.log
    ensures from == if since.Some? then since.value else |old(bus.sent)|
    ensures above == if from < |old(bus.sent)| then from else |old(bus.sent)|
    ensures !c.gone ==> Sound(bus.log, |bus.sent|, filter, c.out, from, above, c.last, c.at)
    ensures Increasing(c.out) && Genuine(bus.log, filter, c.out, above, c.last)
    ensures (bus.Now(), c) == StreamOut(old(bus.Now()), since, filter, during, settling, turns, open)
    ensures if c.gone then |c.out| == open else |c.out| <= open
    ensures !c.gone && EndsStill(turns) ==> c.at == |bus.sent|
  {
    hide Sound, Matches, Covered, Increasing, Genuine, Pumped, StartOut, ActedAll;
    from := if since.Some? then since.value else |bus.sent|;
    above := if from < |bus.sent| then from else |bus.sent|;
    ghost var c0 := Consumer([], 0, |bus.sent|, Some(open), false);
    c := Catchup(bus, since, filter, during, settling, open, from, above);
    ghost var v, c1 := bus.Now(), c;
    PumpedRoom(v, filter, true, turns, c1);
    if EndsStill(turns) { EndsLevel(v, filter, true, turns, c1); }
    if c.gone {
      PumpedGone(v, filter, true, turns, c1);
      return;
    }
    c := Pump(bus, filter, turns, c, from, above);
    RoomTrans(c0, c1, c);
  }

  /** The replay, or the reset in its place. */
  method Catchup(bus: EventBus, since: Option<nat>, filter: Filter, during: seq<Act>, settling: seq<Act>, open: nat,
                 ghost from: nat, ghost above: nat)
    returns (c: Consumer)
    requires bus.Valid() && (since.Some? ==> since.value < U64)
    requires from == if since.Some? then since.value else |bus.sent|
    requires above == if from < |bus.sent| then from else |bus.sent|
    modifies bus
    ensures bus.Valid() && old(bus.log) <= bus.log
    ensures !c.gone ==> Sound(bus.log, |bus.sent|, filter, c.out, from, above, c.last, c.at)
    ensures Increasing(c.out) && Genuine(bus.log, filter, c.out, above, c.last)
    ensures (bus.Now(), c) == StartOut(old(bus.Now()), since, filter, true, Some(open), during, settling)
    ensures RoomKept(Consumer([], 0, |old(bus.sent)|, Some(open), false), c)
  {
    hide Sound, Matches, Covered, Increasing, Genuine, ReplayOf, ActedAll, OfferedAll;
    c := Consumer([], 0, |bus.sent|, Some(open), false);
    ghost var c0 := c;
    bus.Interleave(during);
    var replay: Option<seq<Event>> := Some([]);
    if since.Some? { replay := bus.ReplaySince(since.value); }
    if replay.Some? {
      c := Forward(bus, replay.value, filter, c, from, above);
      OfferedRoom(filter, c0, replay.value);
    } else {
      bus.Interleave(settling);
      NothingOut(bus.log, filter, above, bus.counter);
      OnlyReset(bus.log, |bus.sent|, filter, from, above, bus.counter, c.at);
      c := Framed(c.(last := bus.counter), Reset(bus.counter));
      assert !c.gone ==> c.out == [Reset(|bus.log|)];
      SoundIs(bus.log, |bus.sent|, filter, [Reset(|bus.log|)], from, above, bus.counter, c.at);
    }
  }

  lemma SoundIs(log: seq<Event>, sent: nat, f: Filter, out: seq<Emission>, from: nat, above: nat, last: nat, at: nat)
    requires Sound(log, sent, f, out, from, above, last, at)
    ensures Increasing(out) && Genuine(log, f, out, above, last)
  {
  }

  lemma PumpedGone(v: View, f: Filter, keeps: bool, turns: seq<Turn>, c: Consumer)
    requires c.at <= v.sent <= |v.log| && c.gone
    ensures Pumped(v, f, keeps, turns, c) == (v, c)
  {
  }

  lemma NothingOut(log: seq<Event>, f: Filter, above: nat, last: nat)
    ensures Increasing([]) && Genuine(log, f, [], above, last)
  {
  }

  lemma OnlyReset(log: seq<Event>, sent: nat, f: Filter, from: nat, above: nat, last: nat, at: nat)
    requires above <= at <= sent <= |log| && last <= |log|
    ensures Sound(log, sent, f, [Reset(|log|)], from, above, last, at)
  {
    hide Matches;
    forall n | from < n <= Max(last, at) ensures Covered(log, f, [Reset(|log|)], n) {
      assert [Reset(|log|)][0] == Reset(|log|);
    }
  }

  /** The replayed events, as far as the client takes them. */
  method Forward(bus: EventBus, events: seq<Event>, filter: Filter, c0: Consumer, ghost from: nat, ghost above: nat)
    returns (c: Consumer)
    requires bus.Valid() && above <= from && above <= c0.at <= |bus.sent| && (c0.at <= from || c0.at <= bus.ringed)
    requires events == After(bus.log, from, bus.ringed) || (events == [] && c0.at <= from)
    requires c0.out == [] && c0.last == 0 && !c0.gone
    ensures c == OfferedAll(filter, c0, events) && c.at == c0.at
    ensures !c.gone ==> Sound(bus.log, |bus.sent|, filter, c.out, from, above, c.last, c.at)
    ensures Increasing(c.out) && Genuine(bus.log, filter, c.out, above, c.last)
  {
    hide Matches, Covered, Increasing, Genuine, Offered, OfferedAll;
    c := c0;
    NothingOut(bus.log, filter, above, 0);
    OfferedNone(filter, c0);
    for i := 0 to |events|
      invariant c == OfferedAll(filter, c0, events[..i]) && !c.gone && c.at == c0.at
      invariant c.last == if i == 0 then 0 else from + i
      invariant Increasing(c.out) && Genuine(bus.log, filter, c.out, above, c.last)
      invariant CoveredRange(bus.log, filter, c.out, from, from + i)
    {
      var e := events[i];
      assert e == bus.log[from + i] && e.number == from + i + 1;
      OfferedNext(filter, c0, events, i);
      OfferSound(bus.log, filter, c, from, above, from + i);
      c := Offered(filter, c, e);
      if c.gone {
        OfferedGone(filter, c0, events, i + 1);
        return;
      }
    }
    assert events[..|events|] == events;
  }

  lemma OfferSound(log: seq<Event>, f: Filter, c: Consumer, from: nat, above: nat, at: nat)
    requires Increasing(c.out) && Genuine(log, f, c.out, above, c.last) && CoveredRange(log, f, c.out, from, at) && !c.gone
    requires above <= from <= at < |log| && log[at].number == at + 1 && c.last <= at
    ensures var d := Offered(f, c, log[at]);
      && Increasing(d.out) && Genuine(log, f, d.out, above, d.last) && (!d.gone ==> CoveredRange(log, f, d.out, from, at + 1))
      && d.last == at + 1 && d.at == c.at
  {
    hide Matches, Covered, Increasing, Genuine;
    var e := log[at];
    CoverNext(log, f, c.out, at);
    GenuineTo(log, f, c.out, above, c.last, e.number);
    if Matches(f, e) {
      OutAppend(log, f, c.out, above, c.last, e);
      OutGrows(log, f, c.out, c.out + [Live(e)], from, at);
    }
  }

  lemma OfferedNone(f: Filter, c: Consumer)
    ensures OfferedAll(f, c, []) == c
  {
  }

  lemma OfferedNext(f: Filter, c: Consumer, events: seq<Event>, i: nat)
    requires i < |events| && !OfferedAll(f, c, events[..i]).gone
    ensures OfferedAll(f, c, events[..i + 1]) == Offered(f, OfferedAll(f, c, events[..i]), events[i])
  {
    assert events[..i + 1][..i] == events[..i];
    hide Offered;
  }

  lemma {:induction false} OfferedGone(f: Filter, c: Consumer, events: seq<Event>, n: nat)
    requires n <= |events| && OfferedAll(f, c, events[..n]).gone
    ensures OfferedAll(f, c, events) == OfferedAll(f, c, events[..n])
    decreases |events|
  {
    hide Matches;
    if n == |events| {
      assert events[..n] == events;
    } else {
      var shorter := events[..|events| - 1];
      assert shorter[..n] == events[..n];
      OfferedGone(f, c, shorter, n);
    }
  }

  /** The live loop of `pump_events`. */
  method Pump(bus: EventBus, filter: Filter, turns: seq<Turn>, c0: Consumer, ghost from: nat, ghost above: nat)
    returns (c: Consumer)
    requires bus.Valid() && !c0.gone && Sound(bus.log, |bus.sent|, filter, c0.out, from, above, c0.last, c0.at)
    modifies bus
    ensures bus.Valid() && old(bus.log) <= bus.log && c0.at <= |old(bus.sent)|
    ensures !c.gone ==> Sound(bus.log, |bus.sent|, filter, c.out, from, above, c.last, c.at)
    ensures Increasing(c.out) && Genuine(bus.log, filter, c.out, above, c.last)
    ensures (bus.Now(), c) == Pumped(old(bus.Now()), filter, true, turns, c0)
  {
    hide Matches, Covered, Increasing, Genuine, CoveredRange, Received1;
    c := c0;
    for i := 0 to |turns|
      invariant bus.Valid() && old(bus.log) <= bus.log && !c.gone
      invariant Sound(bus.log, |bus.sent|, filter, c.out, from, above, c.last, c.at)
      invariant Pumped(bus.Now(), filter, true, turns[i..], c) == Pumped(old(bus.Now()), filter, true, turns, c0)
    {
      assert turns[i..][0] == turns[i] && turns[i..][1..] == turns[i + 1..];
      c := PumpOnce(bus, filter, turns[i], c, from, above);
      if c.gone { return; }
    }
  }

  /** One receive of it: a duplicate across the replay/live seam is passed over, a lag is reported once and its number
      remembered. */
  method PumpOnce(bus: EventBus, filter: Filter, t: Turn, c0: Consumer, ghost from: nat, ghost above: nat)
    returns (c: Consumer)
    requires bus.Valid() && !c0.gone && Sound(bus.log, |bus.sent|, filter, c0.out, from, above, c0.last, c0.at)
    modifies bus
    ensures bus.Valid() && old(bus.log) <= bus.log && c0.at <= |old(bus.sent)|
    ensures !c.gone ==> Sound(bus.log, |bus.sent|, filter, c.out, from, above, c.last, c.at)
    ensures Increasing(c.out) && Genuine(bus.log, filter, c.out, above, c.last)
    ensures (bus.Now(), c) == Received1(old(bus.Now()), filter, true, t, c0)
  {
    hide Matches, Covered, Increasing, Genuine, CoveredRange, ActedAll;
    c := c0;
    ghost var log, sent := bus.log, |bus.sent|;
    bus.Interleave(t.before);
    SoundGrows(log, bus.log, sent, |bus.sent|, filter, c.out, from, above, c.last, c.at);
    assert bus.sent == bus.log[..|bus.sent|];
    var received, next := bus.Recv(c.at);
    match received
    case Empty =>
    case Next(event) =>
      if event.number <= c.last {
        SoundSkip(bus.log, |bus.sent|, filter, c.out, from, above, c.last, c.at);
        c := c.(at := next);
      } else {
        SoundNext(bus.log, |bus.sent|, filter, c.out, from, above, c.last, c.at);
        GenuineTo(bus.log, filter, c.out, above, c.last, event.number);
        c := Offered(filter, c, event).(at := next);
      }
    case Lagged(_) =>
      log, sent := bus.log, |bus.sent|;
      bus.Interleave(t.between);
      SoundGrows(log, bus.log, sent, |bus.sent|, filter, c.out, from, above, c.last, c.at);
      var number := bus.counter;
      var later := Max(c.last, number);
      GenuineTo(bus.log, filter, c.out, above, c.last, later);
      SoundReset(bus.log, |bus.sent|, filter, c.out, from, above, c.last, c.at, number, later, next);
      c := Framed(c.(last := later, at := next), Reset(number));
  }

  /** `forward_events`: replays the whole ring, then follows; a reset does not move its last number. */
  method Bridge(bus: EventBus, during: seq<Act>, settling: seq<Act>, turns: seq<Turn>) returns (c: Consumer)
    requires bus.Valid()
    modifies bus
    ensures bus.Valid() && old(bus.log) <= bus.log && !c.gone
    ensures Sound(bus.log, |bus.sent|, EVERYTHING, c.out, 0, 0, c.last, c.at)
    ensures (bus.Now(), c) == BridgeOut(old(bus.Now()), during, settling, turns)
    ensures EndsStill(turns) ==> c.at == |bus.sent|
  {
    hide Sound, Matches, Covered, Increasing, Genuine, CoveredRange, Pumped, ReplayOf, ActedAll, OfferedAll;
    c := Consumer([], 0, |bus.sent|, None, false);
    ghost var c0 := c;
    bus.Interleave(during);
    var backlog := bus.ReplaySince(0);
    if backlog.Some? {
      c := Forward(bus, backlog.value, EVERYTHING, c, 0, 0);
      OfferedRoom(EVERYTHING, c0, backlog.value);
    } else {
      bus.Interleave(settling);
      c := Framed(c, Reset(bus.counter));
      assert c.out == [Reset(|bus.log|)];
      OnlyReset(bus.log, |bus.sent|, EVERYTHING, 0, 0, 0, c.at);
    }
    ghost var v := bus.Now();
    if EndsStill(turns) { EndsLevel(v, EVERYTHING, false, turns, c); }
    c := Follow(bus, turns, c);
  }

  /** The live loop of `forward_events`. */
  method Follow(bus: EventBus, turns: seq<Turn>, c0: Consumer) returns (c: Consumer)
    requires bus.Valid() && !c0.gone && c0.room.None? && Sound(bus.log, |bus.sent|, EVERYTHING, c0.out, 0, 0, c0.last, c0.at)
    modifies bus
    ensures bus.Valid() && old(bus.log) <= bus.log && !c.gone && c0.at <= |old(bus.sent)|
    ensures Sound(bus.log, |bus.sent|, EVERYTHING, c.out, 0, 0, c.last, c.at)
    ensures (bus.Now(), c) == Pumped(old(bus.Now()), EVERYTHING, false, turns, c0)
  {
    hide Matches, Covered, Increasing, Genuine, CoveredRange, Received1;
    c := c0;
    for i := 0 to |turns|
      invariant bus.Valid() && old(bus.log) <= bus.log && !c.gone && c.room.None?
      invariant Sound(bus.log, |bus.sent|, EVERYTHING, c.out, 0, 0, c.last, c.at)
      invariant Pumped(bus.Now(), EVERYTHING, false, turns[i..], c) == Pumped(old(bus.Now()), EVERYTHING, false, turns, c0)
    {
      assert turns[i..][0] == turns[i] && turns[i..][1..] == turns[i + 1..];
      c := FollowOnce(bus, turns[i], c);
    }
  }

  method FollowOnce(bus: EventBus, t: Turn, c0: Consumer) returns (c: Consumer)
    requires bus.Valid() && !c0.gone && c0.room.None? && Sound(bus.log, |bus.sent|, EVERYTHING, c0.out, 0, 0, c0.last, c0.at)
    modifies bus
    ensures bus.Valid() && old(bus.log) <= bus.log && !c.gone && c.room.None? && c0.at <= |old(bus.sent)|
    ensures Sound(bus.log, |bus.sent|, EVERYTHING, c.out, 0, 0, c.last, c.at)
    ensures (bus.Now(), c) == Received1(old(bus.Now()), EVERYTHING, false, t, c0)
  {
    hide Matches, Covered, Increasing, Genuine, CoveredRange, ActedAll;
    c := c0;
    ghost var log, sent := bus.log, |bus.sent|;
    bus.Interleave(t.before);
    SoundGrows(log, bus.log, sent, |bus.sent|, EVERYTHING, c.out, 0, 0, c.last, c.at);
    assert bus.sent == bus.log[..|bus.sent|];
    var received, next := bus.Recv(c.at);
    match received
    case Empty =>
    case Next(event) =>
      if event.number <= c.last {
        SoundSkip(bus.log, |bus.sent|, EVERYTHING, c.out, 0, 0, c.last, c.at);
      } else {
        SoundNext(bus.log, |bus.sent|, EVERYTHING, c.out, 0, 0, c.last, c.at);
        MatchesEverything(event);
        c := c.(last := event.number, out := c.out + [Live(event)]);
      }
      c := c.(at := next);
    case Lagged(_) =>
      log, sent := bus.log, |bus.sent|;
      bus.Interleave(t.between);
      SoundGrows(log, bus.log, sent, |bus.sent|, EVERYTHING, c.out, 0, 0, c.last, c.at);
      SoundReset(bus.log, |bus.sent|, EVERYTHING, c.out, 0, 0, c.last, c.at, bus.counter, c.last, next);
      c := c.(out := c.out + [Reset(bus.counter)], at := next);
  }

  // ---- without a reset nothing is missing ----

  /** The events in a range of numbers that pass a filter, in order. */
  ghost function Wanted(log: seq<Event>, f: Filter, from: nat, upTo: nat): seq<Emission>
    requires upTo <= |log|
  {
    if upTo <= from then []
    else Wanted(log, f, from, upTo - 1) + if Matches(f, log[upTo - 1]) then [Live(log[upTo - 1])] else []
  }

  ghost predicate NoReset(out: seq<Emission>) { forall i :: 0 <= i < |out| ==> out[i].Live? }

  ghost predicate Delivered(log: seq<Event>, f: Filter, out: seq<Emission>, n: nat) {
    1 <= n <= |log| && (Matches(f, log[n - 1]) ==> Live(log[n - 1]) in out)
  }

  /** A consumer that was sent no reset got exactly the wanted events, each once, in order. */
  lemma WithoutResetExact(log: seq<Event>, sent: nat, f: Filter, out: seq<Emission>, from: nat, last: nat, at: nat)
    requires Numbered(log) && Sound(log, sent, f, out, from, from, last, at) && NoReset(out)
    ensures out == Wanted(log, f, from, Max(last, at))
  {
    hide Matches;
    GenuineTo(log, f, out, from, last, Max(last, at));
    forall n | from < n <= Max(last, at) ensures Delivered(log, f, out, n) {
      assert Covered(log, f, out, n);
    }
    ExactlyWanted(log, f, out, from, Max(last, at));
  }

  lemma {:induction false} ExactlyWanted(log: seq<Event>, f: Filter, out: seq<Emission>, from: nat, upTo: nat)
    requires upTo <= |log| && Numbered(log) && NoReset(out) && Increasing(out) && Genuine(log, f, out, from, upTo)
    requires forall n :: from < n <= upTo ==> Delivered(log, f, out, n)
    ensures out == Wanted(log, f, from, upTo)
    decreases upTo
  {
    hide Matches;
    if out != [] { NonEmptyRange(log, f, out, from, upTo); }
    if upTo > from {
      assert Delivered(log, f, out, upTo);
      if Matches(f, log[upTo - 1]) {
        var shorter := LastDelivered(log, f, out, from, upTo);
        ExactlyWanted(log, f, shorter, from, upTo - 1);
      } else {
        NoneAt(log, f, out, from, upTo);
        ExactlyWanted(log, f, out, from, upTo - 1);
      }
    }
  }

  lemma LastDelivered(log: seq<Event>, f: Filter, out: seq<Emission>, from: nat, upTo: nat) returns (shorter: seq<Emission>)
    requires from < upTo <= |log| && Numbered(log) && NoReset(out) && Increasing(out) && Genuine(log, f, out, from, upTo)
    requires forall n :: from < n <= upTo ==> Delivered(log, f, out, n)
    requires Live(log[upTo - 1]) in out
    ensures out == shorter + [Live(log[upTo - 1])] && Genuine(log, f, shorter, from, upTo - 1)
    ensures Increasing(shorter) && NoReset(shorter) && forall n :: from < n < upTo ==> Delivered(log, f, shorter, n)
  {
    hide Matches;
    var k :| 0 <= k < |out| && out[k] == Live(log[upTo - 1]);
    var last := |out| - 1;
    assert out[last].Live? && out[last].event.number <= upTo;
    assert k == last;
    shorter := out[..last];
    forall n | from < n < upTo ensures Delivered(log, f, shorter, n) {
      assert Delivered(log, f, out, n);
      assert log[n - 1].number == n && log[upTo - 1].number == upTo;
      if Matches(f, log[n - 1]) {
        var j :| 0 <= j < |out| && out[j] == Live(log[n - 1]);
        assert shorter[j] == out[j];
      }
    }
    assert out == shorter + [out[last]];
    forall i | 0 <= i < |shorter| ensures out[i].event.number < upTo { assert out[i].Live? && out[last].Live?; }
  }

  lemma NonEmptyRange(log: seq<Event>, f: Filter, out: seq<Emission>, from: nat, upTo: nat)
    requires Genuine(log, f, out, from, upTo) && out != [] && out[0].Live?
    ensures from < upTo
  {
    hide Matches;
  }

  lemma NoneAt(log: seq<Event>, f: Filter, out: seq<Emission>, from: nat, upTo: nat)
    requires 1 <= upTo <= |log| && Genuine(log, f, out, from, upTo) && !Matches(f, log[upTo - 1])
    ensures Genuine(log, f, out, from, upTo - 1)
  {
    hide Matches;
  }
}
