/** The output fan-out: one ring, many subscribers, each of which sees a hole-free run of the byte history. */
module OutputHub {
  import opened Bytes
  import opened Optional
  import opened ReplayRing

  const CHANNEL_CAP: nat := 256

  /** start is the cursor of the first byte. */
  datatype PtyChunk = PtyChunk(start: nat, bytes: seq<byte>)

  /** One subscriber: where its stream begins, everything ever put on its channel, how much of that
      the consumer has taken, and whether the consumer still holds its end. */
  datatype Channel = Channel(from: nat, sent: seq<PtyChunk>, taken: nat, open: bool)

  function EndOf(from: nat, chunks: seq<PtyChunk>): nat {
    if chunks == [] then from else chunks[|chunks| - 1].start + |chunks[|chunks| - 1].bytes|
  }

  /** The chunks are adjacent slices of the history, beginning at `from`. */
  predicate Contiguous(h: seq<byte>, from: nat, chunks: seq<PtyChunk>) {
    chunks == [] ||
    (var c := chunks[|chunks| - 1];
     && Contiguous(h, from, chunks[..|chunks| - 1])
     && c.start == EndOf(from, chunks[..|chunks| - 1])
     && c.start + |c.bytes| <= |h|
     && h[c.start..c.start + |c.bytes|] == c.bytes)
  }

  lemma {:induction false} ContiguousGrows(h: seq<byte>, more: seq<byte>, from: nat, chunks: seq<PtyChunk>)
    requires Contiguous(h, from, chunks)
    ensures Contiguous(h + more, from, chunks)
  {
    if chunks != [] {
      ContiguousGrows(h, more, from, chunks[..|chunks| - 1]);
      var c := chunks[|chunks| - 1];
      assert (h + more)[c.start..c.start + |c.bytes|] == h[c.start..c.start + |c.bytes|];
    }
  }

  lemma ContiguousAppend(h: seq<byte>, from: nat, chunks: seq<PtyChunk>, c: PtyChunk)
    requires Contiguous(h, from, chunks) && c.start == EndOf(from, chunks)
    requires c.start + |c.bytes| <= |h| && h[c.start..c.start + |c.bytes|] == c.bytes
    ensures Contiguous(h, from, chunks + [c]) && EndOf(from, chunks + [c]) == c.start + |c.bytes|
  {
    assert (chunks + [c])[..|chunks|] == chunks;
  }

  /** A flush being handed round: which subscribers are still to be served, and which could not be. */
  datatype Flight = NoFlight | Flight(chunk: PtyChunk, todo: seq<nat>, dropped: set<nat>)

  predicate Distinct(q: seq<nat>) { forall i, j :: 0 <= i < j < |q| ==> q[i] != q[j] }

  /** Where a subscriber stands: about to be sent the chunk in flight, given up on, or up to date. */
  ghost predicate Current(h: seq<byte>, channel: Channel, flight: Flight, id: nat) {
    var end := EndOf(channel.from, channel.sent);
    if flight.Flight? && id in flight.todo then end == flight.chunk.start
    else (flight.Flight? && id in flight.dropped) || end == |h|
  }

  ghost predicate ChannelSound(h: seq<byte>, c: Channel) { Contiguous(h, c.from, c.sent) && c.taken <= |c.sent| }

  ghost predicate FlightSound(h: seq<byte>, subscribers: seq<nat>, flight: Flight) {
    flight.Flight? ==>
      && Distinct(flight.todo) && (forall id :: id in flight.todo ==> id in subscribers && id !in flight.dropped)
      && flight.chunk.start <= |h| && h[flight.chunk.start..] == flight.chunk.bytes
  }

  ghost predicate Sound(h: seq<byte>, subscribers: seq<nat>, channels: map<nat, Channel>, flight: Flight) {
    && Distinct(subscribers)
    && (forall id :: id in subscribers ==> id in channels && Current(h, channels[id], flight, id))
    && (forall id :: id in channels ==> ChannelSound(h, channels[id]))
    && FlightSound(h, subscribers, flight)
  }

  /** One connection of a client: the cursor it asked for, how many bytes had been written and the ring held
      when it subscribed, and the chunks it received before the stream ended. */
  datatype Connection = Connection(since: nat, written: nat, capacity: nat, chunks: seq<PtyChunk>)

  function RingStart(c: Connection): nat { if c.written <= c.capacity then 0 else c.written - c.capacity }

  function From(c: Connection): nat { Clamp(Some(c.since), RingStart(c), c.written) }

  /** What a subscriber asked for, and how many bytes had been written then. */
  datatype Asked = Asked(since: nat, written: nat)

  /** The connection a subscriber's consumer has seen so far. */
  function Seen(c: Channel, a: Asked, capacity: nat): Connection
    requires c.taken <= |c.sent|
  {
    Connection(a.since, a.written, capacity, c.sent[..c.taken])
  }

  /** Every channel begins where its subscriber's cursor landed in the ring of the moment. */
  ghost predicate Remembered(h: seq<byte>, channels: map<nat, Channel>, asked: map<nat, Asked>, capacity: nat) {
    forall id :: id in channels ==>
      && id in asked && asked[id].written <= |h|
      && channels[id].from == From(Connection(asked[id].since, asked[id].written, capacity, []))
  }

  lemma RememberedJoin(h: seq<byte>, channels: map<nat, Channel>, asked: map<nat, Asked>, capacity: nat, id: nat, c: Channel, a: Asked)
    requires Remembered(h, channels, asked, capacity)
    requires a.written <= |h| && c.from == From(Connection(a.since, a.written, capacity, []))
    ensures Remembered(h, channels[id := c], asked[id := a], capacity)
  {
    hide From;
  }

  lemma LandsWhereAsked(since: Option<nat>, start: nat, written: nat, capacity: nat)
    requires start <= written <= start + capacity && (start > 0 ==> start == written - capacity)
    ensures Clamp(since, start, written) == From(Connection(if since.Some? then since.value else start, written, capacity, []))
  {
  }

  lemma {:induction false} ContiguousPrefix(h: seq<byte>, from: nat, chunks: seq<PtyChunk>, n: nat)
    requires Contiguous(h, from, chunks) && n <= |chunks|
    ensures Contiguous(h, from, chunks[..n])
  {
    if n < |chunks| {
      ContiguousPrefix(h, from, chunks[..|chunks| - 1], n);
      assert chunks[..|chunks| - 1][..n] == chunks[..n];
    } else {
      assert chunks[..n] == chunks;
    }
  }

  lemma SoundAppend(h: seq<byte>, bytes: seq<byte>, subscribers: seq<nat>, channels: map<nat, Channel>)
    requires Sound(h, subscribers, channels, NoFlight)
    ensures Sound(h + bytes, subscribers, channels, Flight(PtyChunk(|h|, bytes), subscribers, {}))
  {
    hide Contiguous, EndOf;
    assert (h + bytes)[|h|..] == bytes;
    forall id | id in channels ensures ChannelSound(h + bytes, channels[id]) {
      assert ChannelSound(h, channels[id]);
      ContiguousGrows(h, bytes, channels[id].from, channels[id].sent);
    }
  }

  /** The first subscriber to be served gets the chunk. */
  lemma SoundDeliver(h: seq<byte>, subscribers: seq<nat>, channels: map<nat, Channel>, flight: Flight)
    requires Sound(h, subscribers, channels, flight) && flight.Flight? && flight.todo != []
    ensures var id := flight.todo[0];
      id in channels && Sound(h, subscribers, channels[id := channels[id].(sent := channels[id].sent + [flight.chunk])],
                              flight.(todo := flight.todo[1..]))
  {
    hide Contiguous, EndOf;
    var id := flight.todo[0];
    var c := channels[id];
    assert Current(h, c, flight, id) && ChannelSound(h, c);
    ContiguousAppend(h, c.from, c.sent, flight.chunk);
    Rest(flight.todo);
  }

  lemma SoundGiveUp(h: seq<byte>, subscribers: seq<nat>, channels: map<nat, Channel>, flight: Flight)
    requires Sound(h, subscribers, channels, flight) && flight.Flight? && flight.todo != []
    ensures Sound(h, subscribers, channels, flight.(todo := flight.todo[1..], dropped := flight.dropped + {flight.todo[0]}))
  {
    hide Contiguous, EndOf;
    Rest(flight.todo);
  }

  lemma Rest(q: seq<nat>)
    requires q != [] && Distinct(q)
    ensures Distinct(q[1..]) && forall x :: x in q[1..] <==> x in q && x != q[0]
  {
    assert q == [q[0]] + q[1..];
  }

  lemma SoundPrune(h: seq<byte>, subscribers: seq<nat>, channels: map<nat, Channel>, flight: Flight, kept: seq<nat>)
    requires Sound(h, subscribers, channels, flight) && flight.Flight? && flight.todo == []
    requires Distinct(kept) && forall id :: id in kept ==> id in subscribers && id !in flight.dropped
    ensures Sound(h, kept, channels, NoFlight)
  {
    hide Contiguous, EndOf;
  }

  lemma SoundJoin(h: seq<byte>, subscribers: seq<nat>, channels: map<nat, Channel>, flight: Flight, id: nat, c: Channel)
    requires Sound(h, subscribers, channels, flight) && id !in channels && ChannelSound(h, c) && EndOf(c.from, c.sent) == |h|
    ensures Sound(h, subscribers + [id], channels[id := c], flight)
  {
    hide Contiguous, EndOf;
    assert id !in subscribers;
    assert flight.Flight? ==> id !in flight.todo;
  }

  /** What the consumer does at its end is nothing to the fan-out. */
  lemma SoundConsumer(h: seq<byte>, subscribers: seq<nat>, channels: map<nat, Channel>, flight: Flight, id: nat, taken: nat, open: bool)
    requires Sound(h, subscribers, channels, flight) && id in channels && taken <= |channels[id].sent|
    ensures Sound(h, subscribers, channels[id := channels[id].(taken := taken, open := open)], flight)
  {
    hide Contiguous, EndOf;
    assert ChannelSound(h, channels[id]);
  }

  /** The fan-out under the hub's lock. Every method is one uninterrupted step, so any interleaving of the pipeline,
      of new subscribers and of consumers is a sequence of calls. */
  class Hub {
    const ring: ReplayRing
    var subscribers: seq<nat>
    var channels: map<nat, Channel>
    var flight: Flight
    ghost var asked: map<nat, Asked>

    ghost predicate Valid()
      reads this, ring
    {
      && ring.Valid() && Sound(ring.history, subscribers, channels, flight)
      && Remembered(ring.history, channels, asked, ring.capacity)
    }

    /** What a consumer has received is a hole-free run of the history from where its cursor landed. */
    lemma SeenIsContiguous(id: nat)
      requires Valid() && id in channels
      ensures id in asked && channels[id].taken <= |channels[id].sent|
      ensures var c := Seen(channels[id], asked[id], ring.capacity); c.written <= |ring.history| && Contiguous(ring.history, From(c), c.chunks)
    {
      hide Contiguous, Clamp;
      assert ChannelSound(ring.history, channels[id]);
      ContiguousPrefix(ring.history, channels[id].from, channels[id].sent, channels[id].taken);
    }

    constructor (capacity: nat)
      ensures Valid() && fresh(ring) && ring.history == [] && ring.capacity == capacity && channels == map[] && flight.NoFlight?
    {
      ring := new ReplayRing(capacity);
      subscribers, channels, flight, asked := [], map[], NoFlight, map[];
    }

    /** First half of a flush, under the lock: append to the ring and note who is subscribed. */
    method Append(bytes: seq<byte>)
      requires Valid() && flight.NoFlight?
      modifies this, ring
      ensures Valid() && ring.history == old(ring.history) + bytes
      ensures channels == old(channels) && subscribers == old(subscribers) && asked == old(asked)
      ensures flight == Flight(PtyChunk(old(|ring.history|), bytes), subscribers, {})
    {
      hide Sound;
      SoundAppend(ring.history, bytes, subscribers, channels);
      var start := ring.written;
      ring.Push(bytes);
      flight := Flight(PtyChunk(start, bytes), subscribers, {});
    }

    /** Hands the chunk in flight to the next subscriber; one whose channel is full or closed is given up on instead. */
    method Deliver()
      requires Valid() && flight.Flight? && flight.todo != []
      modifies this
      ensures Valid() && flight.Flight? && flight.todo == old(flight.todo)[1..] && flight.chunk == old(flight.chunk)
      ensures subscribers == old(subscribers) && asked == old(asked) && old(flight.todo)[0] in old(channels)
      ensures var id, c := old(flight.todo)[0], old(channels)[old(flight.todo)[0]];
        if c.open && |c.sent| - c.taken < CHANNEL_CAP
        then channels == old(channels)[id := c.(sent := c.sent + [flight.chunk])] && flight.dropped == old(flight.dropped)
        else channels == old(channels) && flight.dropped == old(flight.dropped) + {id}
    {
      hide Sound;
      SoundDeliver(ring.history, subscribers, channels, flight);
      SoundGiveUp(ring.history, subscribers, channels, flight);
      var id := flight.todo[0];
      var c := channels[id];
      if c.open && |c.sent| - c.taken < CHANNEL_CAP {
        channels := channels[id := c.(sent := c.sent + [flight.chunk])];
        flight := flight.(todo := flight.todo[1..]);
      } else {
        flight := flight.(todo := flight.todo[1..], dropped := flight.dropped + {id});
      }
    }

    /** Second half of a flush: subscribers that were given up on, or that hung up, leave the list and their channels close. */
    method Prune()
      requires Valid() && flight.Flight? && flight.todo == []
      modifies this
      ensures Valid() && flight.NoFlight? && channels == old(channels) && asked == old(asked)
      ensures forall id :: id in subscribers ==> id in old(subscribers) && id !in old(flight.dropped)
      ensures forall id :: id in old(subscribers) && id !in subscribers ==>
        id in old(flight.dropped) || (id in channels && !channels[id].open)
    {
      hide Contiguous, EndOf;
      var kept := if flight.dropped != {} then Kept(subscribers, channels, flight.dropped) else subscribers;
      SoundPrune(ring.history, subscribers, channels, flight, kept);
      subscribers, flight := kept, NoFlight;
    }

    /** `subscribe_output`: a fresh channel primed with the ring's tail from the clamped cursor. */
    method Subscribe(since: Option<nat>) returns (id: nat)
      requires Valid()
      modifies this
      ensures Valid() && id !in old(channels) && subscribers == old(subscribers) + [id] && flight == old(flight)
      ensures id in channels && channels == old(channels)[id := channels[id]]
      ensures channels[id].from == Clamp(since, ring.Start(), ring.written) && channels[id].taken == 0 && channels[id].open
      ensures asked == old(asked)[id := Asked(if since.Some? then since.value else ring.Start(), ring.written)]
      ensures EndOf(channels[id].from, channels[id].sent) == |ring.history|
    {
      hide Sound, EndOf, Clamp, From, Remembered;
      var c := Prime(since);
      ghost var a := Asked(if since.Some? then since.value else ring.Start(), ring.written);
      LandsWhereAsked(since, ring.Start(), ring.written, ring.capacity);
      id := Fresh(channels.Keys);
      SoundJoin(ring.history, subscribers, channels, flight, id, c);
      RememberedJoin(ring.history, channels, asked, ring.capacity, id, c, a);
      asked := asked[id := a];
      channels := channels[id := c];
      subscribers := subscribers + [id];
    }

    /** The ring's tail from the cursor, as the first chunk of a channel. */
    method Prime(since: Option<nat>) returns (c: Channel)
      requires ring.Valid()
      ensures ChannelSound(ring.history, c) && EndOf(c.from, c.sent) == |ring.history|
      ensures c.from == Clamp(since, ring.Start(), ring.written) && c.taken == 0 && c.open
    {
      hide ChannelSound, EndOf;
      var end, tail := ring.ReadSince(since);
      var start := end - |tail|;
      Primed(ring.history, start, tail);
      return Channel(start, if tail == [] then [] else [PtyChunk(start, tail)], 0, true);
    }

    /** A consumer takes its next chunk: the oldest not taken. */
    method Receive(id: nat) returns (c: PtyChunk)
      requires Valid() && id in channels && channels[id].taken < |channels[id].sent|
      modifies this
      ensures Valid() && c == old(channels[id]).sent[old(channels[id]).taken]
      ensures channels == old(channels)[id := old(channels[id]).(taken := old(channels[id]).taken + 1)]
      ensures subscribers == old(subscribers) && flight == old(flight) && asked == old(asked)
    {
      hide Sound;
      SoundConsumer(ring.history, subscribers, channels, flight, id, channels[id].taken + 1, channels[id].open);
      c := channels[id].sent[channels[id].taken];
      channels := channels[id := channels[id].(taken := channels[id].taken + 1)];
    }

    /** A consumer drops its receiver. */
    method HangUp(id: nat)
      requires Valid() && id in channels
      modifies this
      ensures Valid() && channels == old(channels)[id := old(channels[id]).(open := false)]
      ensures subscribers == old(subscribers) && flight == old(flight) && asked == old(asked)
    {
      assert ChannelSound(ring.history, channels[id]);
      hide Sound;
      SoundConsumer(ring.history, subscribers, channels, flight, id, channels[id].taken, false);
      channels := channels[id := channels[id].(open := false)];
    }
  }

  /** The tail of the history as a channel's first chunk, or no chunk when there is none. */
  lemma Primed(h: seq<byte>, start: nat, tail: seq<byte>)
    requires start + |tail| == |h| && h[start..] == tail
    ensures ChannelSound(h, Channel(start, if tail == [] then [] else [PtyChunk(start, tail)], 0, true))
    ensures EndOf(start, if tail == [] then [] else [PtyChunk(start, tail)]) == |h|
  {
    if tail != [] {
      var c := PtyChunk(start, tail);
      assert h[start..start + |tail|] == tail;
      ContiguousAppend(h, start, [], c);
      assert [] + [c] == [c];
    }
  }

  function Kept(subs: seq<nat>, channels: map<nat, Channel>, dropped: set<nat>): (r: seq<nat>)
    requires forall id :: id in subs ==> id in channels
    ensures forall id :: id in r <==> id in subs && channels[id].open && id !in dropped
    ensures Distinct(subs) ==> Distinct(r)
  {
    if subs == [] then []
    else
      var last := subs[|subs| - 1];
      var r := Kept(subs[..|subs| - 1], channels, dropped);
      if channels[last].open && last !in dropped then r + [last] else r
  }

  /** Some id not in use. */
  function Fresh(used: set<nat>): (id: nat)
    ensures id !in used
  {
    FreshAbove(used, 0)
  }

  function FreshAbove(used: set<nat>, n: nat): (id: nat)
    ensures id !in used
    decreases |set x | x in used && x >= n|
  {
    if n !in used then n
    else
      assert (set x | x in used && x >= n) == (set x | x in used && x >= n + 1) + {n};
      FreshAbove(used, n + 1)
  }

  // ---- what a client can rebuild ----

  function Joined(chunks: seq<PtyChunk>): seq<byte> {
    if chunks == [] then [] else Joined(chunks[..|chunks| - 1]) + chunks[|chunks| - 1].bytes
  }

  /** A contiguous run of chunks, joined, is the history from its start to its end. */
  lemma {:induction false} JoinedIsHistory(h: seq<byte>, from: nat, chunks: seq<PtyChunk>)
    requires Contiguous(h, from, chunks) && from <= |h|
    ensures from <= EndOf(from, chunks) <= |h| && Joined(chunks) == h[from..EndOf(from, chunks)]
  {
    if chunks != [] {
      JoinedIsHistory(h, from, chunks[..|chunks| - 1]);
      var c := chunks[|chunks| - 1];
      assert h[from..c.start] + h[c.start..c.start + |c.bytes|] == h[from..c.start + |c.bytes|];
    }
  }

  /** A client that reconnects where its last chunk ended, as `pump_pty`'s `id:` tells it to. */
  predicate Reconnecting(h: seq<byte>, first: nat, cs: seq<Connection>) {
    cs == [] ||
    (var c := cs[|cs| - 1];
     && Reconnecting(h, first, cs[..|cs| - 1])
     && c.since == Resume(first, cs[..|cs| - 1])
     && c.written <= |h|
     && Contiguous(h, From(c), c.chunks))
  }

  /** The cursor after the last byte received: `start + len` of the last chunk, or the first `since`. */
  function Resume(first: nat, cs: seq<Connection>): nat {
    if cs == [] then first
    else if cs[|cs| - 1].chunks == [] then cs[|cs| - 1].since
    else EndOf(0, cs[|cs| - 1].chunks)
  }

  function Everything(cs: seq<Connection>): seq<byte> {
    if cs == [] then [] else Everything(cs[..|cs| - 1]) + Joined(cs[|cs| - 1].chunks)
  }

  /** A connection's first chunk starts past the cursor asked for exactly when bytes after it had already aged out,
      and before it exactly when the cursor was past the end of what had been written. */
  lemma GapIffAgedOut(h: seq<byte>, c: Connection)
    requires Contiguous(h, From(c), c.chunks) && c.chunks != []
    ensures c.chunks[0].start == From(c)
    ensures c.chunks[0].start > c.since <==> c.written > c.since + c.capacity
    ensures c.chunks[0].start < c.since <==> c.since > c.written
  {
    FirstStart(h, From(c), c.chunks);
  }

  lemma {:induction false} FirstStart(h: seq<byte>, from: nat, chunks: seq<PtyChunk>)
    requires Contiguous(h, from, chunks) && chunks != []
    ensures chunks[0].start == from
  {
    if |chunks| > 1 { FirstStart(h, from, chunks[..|chunks| - 1]); }
  }

  /** Over any number of reconnections whose first chunks start where the client asked, its bytes are exactly the history
      from its first cursor. */
  lemma {:induction false} ReconnectRebuilds(h: seq<byte>, first: nat, cs: seq<Connection>)
    requires Reconnecting(h, first, cs) && first <= |h|
    requires forall i :: 0 <= i < |cs| && cs[i].chunks != [] ==> cs[i].chunks[0].start == cs[i].since
    ensures first <= Resume(first, cs) <= |h| && Everything(cs) == h[first..Resume(first, cs)]
  {
    if cs != [] {
      var c := cs[|cs| - 1];
      ReconnectRebuilds(h, first, cs[..|cs| - 1]);
      if c.chunks == [] {
        assert Everything(cs) == Everything(cs[..|cs| - 1]);
      } else {
        FirstStart(h, From(c), c.chunks);
        JoinedIsHistory(h, From(c), c.chunks);
        assert h[first..c.since] + h[c.since..Resume(first, cs)] == h[first..Resume(first, cs)];
      }
    }
  }
}
