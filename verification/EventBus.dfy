/** The control-plane bus: one counter, a bounded replay ring, and a lagging broadcast channel. */
module Bus {
  import opened Arithmetic
  import opened Broadcast
  import opened Optional

  const CAPACITY: nat := 1024
  const REPLAY_RING: nat := 1024

  datatype Origin = Agent(agent: string) | Elsewhere

  /** Payloads by how a filter sees them: always of interest, about one agent, or a message between two parties. */
  datatype Payload =
    | Global(kind: string)
    | AboutAgent(kind: string, agent: string)
    | Message(kind: string, to: string, from: Origin)

  datatype Event = Event(number: nat, payload: Payload)

  /** What a publisher does next, once it may: take a number, append to the ring, send. */
  datatype Act = Count(payload: Payload) | Append | Send

  /** The last events of a list. */
  function Last<T>(s: seq<T>, n: nat): seq<T> { if |s| <= n then s else s[|s| - n..] }

  /** Everything ever numbered; the k-th has sequence number k + 1. */
  ghost predicate Numbered(log: seq<Event>) { forall i :: 0 <= i < |log| ==> log[i].number == i + 1 }

  /** The events after a sequence number, up to a count. */
  function After(log: seq<Event>, since: nat, to: nat): seq<Event>
    requires to <= |log|
  {
    if since < to then log[since..to] else []
  }

  /** The bus as its publishers move it: everything numbered, and how much of that the ring and the channel have had. */
  datatype View = View(log: seq<Event>, ringed: nat, sent: nat)

  /** An act that is not the next one of a publish does nothing. */
  function Acted(v: View, act: Act): View {
    match act
    case Count(payload) => if v.sent == |v.log| then v.(log := v.log + [Event(|v.log| + 1, payload)]) else v
    case Append => if v.sent < |v.log| then v.(ringed := |v.log|) else v
    case Send => if v.sent < |v.log| && v.ringed == |v.log| then v.(sent := |v.log|) else v
  }

  function ActedAll(v: View, acts: seq<Act>): View {
    if acts == [] then v else Acted(ActedAll(v, acts[..|acts| - 1]), acts[|acts| - 1])
  }

  /** What a replay from a cursor gives: the ring's events after it, or nothing when some have aged out, or when the cursor
      is the largest there is and the ring is not empty. */
  function ReplayOf(v: View, since: nat): Option<seq<Event>>
    requires v.ringed <= |v.log|
  {
    if (since < |v.log| && (v.ringed == 0 || since + REPLAY_RING < v.ringed)) || (since == U64 - 1 && v.ringed > 0) then None
    else Some(After(v.log, since, v.ringed))
  }

  class EventBus {
    var counter: nat
    var ring: seq<Event>
    /** The event a publisher has numbered and not yet sent. */
    var pending: Option<Event>
    /** The broadcast channel: the events sent, of which it keeps the last CAPACITY. */
    var sent: seq<Event>
    ghost var log: seq<Event>
    ghost var ringed: nat

    ghost predicate Valid()
      reads this
    {
      && counter == |log| && Numbered(log)
      && |sent| <= ringed <= |log| <= |sent| + 1
      && sent == log[..|sent|]
      && ring == Last(log[..ringed], REPLAY_RING)
      && pending == if |sent| == |log| then None else Some(log[|sent|])
    }

    ghost function Now(): View
      reads this
    {
      View(log, ringed, |sent|)
    }

    constructor ()
      ensures Valid() && log == [] && ringed == 0
    {
      counter, ring, pending, sent, log, ringed := 0, [], None, [], [], 0;
    }

    /** Numbers an event: `fetch_add`, then the stamp. */
    method Number(payload: Payload)
      requires Valid() && pending == None
      modifies this`counter, this`pending, this`log
      ensures Valid() && log == old(log) + [Event(|old(log)| + 1, payload)]
      ensures sent == old(sent) && ringed == old(ringed)
    {
      counter := counter + 1;
      pending := Some(Event(counter, payload));
      log := log + [Event(counter, payload)];
      assert log[..|sent|] == old(log)[..|sent|];
      assert log[..ringed] == old(log)[..ringed];
    }

    method AppendToRing()
      requires Valid() && pending.Some? && ringed < |log|
      modifies this`ring, this`ringed
      ensures Valid() && ringed == |log| && log == old(log) && sent == old(sent)
    {
      LastAppend(log[..ringed], pending.value);
      assert log[..ringed] + [pending.value] == log[..|log|];
      if |ring| == REPLAY_RING { ring := ring[1..]; }
      ring := ring + [pending.value];
      ringed := |log|;
    }

    method SendOut()
      requires Valid() && pending.Some? && ringed == |log|
      modifies this`sent, this`pending
      ensures Valid() && |sent| == |log| && log == old(log) && ringed == old(ringed)
    {
      sent := sent + [pending.value];
      pending := None;
      assert sent == log;
    }

    /** `publish` without interruption returns the event's number. */
    method Publish(payload: Payload) returns (n: nat)
      requires Valid() && pending == None
      modifies this
      ensures Valid() && n == |log| == |sent| && log == old(log) + [Event(n, payload)]
    {
      Number(payload);
      n := counter;
      AppendToRing();
      SendOut();
    }

    /** Publishers run for a while: each act happens if it is the next one of a publish. */
    method Interleave(acts: seq<Act>)
      requires Valid()
      modifies this
      ensures Valid() && old(log) <= log && |old(sent)| <= |sent| && old(ringed) <= ringed
      ensures Now() == ActedAll(old(Now()), acts)
    {
      for i := 0 to |acts|
        invariant Valid() && old(log) <= log && |old(sent)| <= |sent| && old(ringed) <= ringed
        invariant Now() == ActedAll(old(Now()), acts[..i])
      {
        assert acts[..i + 1][..i] == acts[..i];
        hide Acted;
        Perform(acts[i]);
      }
      assert acts[..|acts|] == acts;
    }

    method Perform(act: Act)
      requires Valid()
      modifies this
      ensures Valid() && old(log) <= log && |old(sent)| <= |sent| && old(ringed) <= ringed
      ensures Now() == Acted(old(Now()), act)
    {
      match act
      case Count(payload) => if pending.None? { Number(payload); }
      case Append => if pending.Some? && RingEnd() < counter { AppendToRing(); }
      case Send => if pending.Some? && RingEnd() == counter { SendOut(); }
    }

    /** The number of the newest event in the ring. */
    function RingEnd(): (n: nat)
      requires Valid()
      reads this
      ensures n == ringed
    {
      if ring == [] then 0 else ring[|ring| - 1].number
    }

    /** `replay_since`: the ring's events after `since`; None when some have aged out, and at the largest cursor over a
        ring that is not empty, where `since + 1` wraps round to 0. */
    method ReplaySince(since: nat) returns (r: Option<seq<Event>>)
      requires Valid() && since < U64
      ensures r.Some? ==> r.value == After(log, since, ringed)
      ensures r.None? <==>
        (since < |log| && (ringed == 0 || since < ringed - REPLAY_RING)) || (since == U64 - 1 && ringed > 0)
      ensures r == ReplayOf(Now(), since)
    {
      if ring != [] {
        if ring[0].number > (since + 1) % U64 { return None; }
      } else if counter > since {
        return None;
      }
      var events := [];
      ghost var first := ringed - |ring|;
      for i := 0 to |ring|
        invariant events == if since < first + i then log[if since < first then first else since..first + i] else []
      {
        if ring[i].number > since { events := events + [ring[i]]; }
      }
      return Some(events);
    }

    /** A receiver's `recv`: lagging behind the channel moves it to the oldest event kept. */
    method Recv(at: nat) returns (r: Received<Event>, next: nat)
      requires Valid() && at <= |sent|
      ensures r == Receive(log[..|sent|], CAPACITY, at) && next == Position(sent, CAPACITY, at)
    {
      r, next := Receive(sent, CAPACITY, at), Position(sent, CAPACITY, at);
    }
  }

  /** One event on the bus, nothing aged out, and yet no replay for a client that asks from the largest cursor there is. */
  method LargestCursor(payload: Payload) returns (bus: EventBus, next: Option<seq<Event>>, largest: Option<seq<Event>>)
    ensures fresh(bus) && bus.Valid() && |bus.log| == |bus.ring| == 1 && next == Some([]) && largest == None
  {
    bus := new EventBus();
    var n := bus.Publish(payload);
    next := bus.ReplaySince(U64 - 2);
    largest := bus.ReplaySince(U64 - 1);
  }

  lemma LastAppend<T>(s: seq<T>, x: T)
    ensures Last(s + [x], REPLAY_RING)
         == (if |Last(s, REPLAY_RING)| == REPLAY_RING then Last(s, REPLAY_RING)[1..] else Last(s, REPLAY_RING)) + [x]
  {
  }
}
