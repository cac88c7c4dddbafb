/** The per-agent replay ring and the read coalescer. */
module ReplayRing {
  import opened Bytes
  import opened Optional
  import opened Sequences

  const FLUSH_BYTES: nat := 32 * 1024

  /** The newest n bytes of h. */
  function Newest(h: seq<byte>, n: nat): (r: seq<byte>)
    ensures |r| == if |h| <= n then |h| else n
    ensures |r| <= |h| && r == h[|h| - |r|..]
  {
    if |h| <= n then h else h[|h| - n..]
  }

  /** Where a cursor lands in a ring holding the bytes from start to end. */
  function Clamp(since: Option<nat>, start: nat, end: nat): nat {
    if since.None? || since.value < start then start else if since.value > end then end else since.value
  }

  /** history is every byte ever pushed; the ring itself keeps only the newest. */
  class ReplayRing {
    const capacity: nat
    var buf: seq<byte>
    var written: nat
    ghost var history: seq<byte>

    ghost predicate Valid()
      reads this
    {
      written == |history| && buf == Newest(history, capacity)
    }

    constructor (capacity: nat)
      ensures Valid() && history == [] && this.capacity == capacity
    {
      this.capacity := capacity;
      buf, written, history := [], 0, [];
    }

    method Push(bytes: seq<byte>)
      requires Valid()
      modifies this
      ensures Valid() && history == old(history) + bytes
    {
      if |bytes| >= capacity {
        buf := bytes[|bytes| - capacity..];
      } else {
        var overflow := if |buf| + |bytes| > capacity then |buf| + |bytes| - capacity else 0;
        buf := buf[overflow..] + bytes;
      }
      written := written + |bytes|;
      history := history + bytes;
    }

    /** Cursor of the oldest byte still held. */
    function Start(): (c: nat)
      requires Valid()
      reads this
      ensures c <= written && (c > 0 ==> c == |history| - capacity) && |history| <= c + capacity
    {
      written - |buf|
    }

    /** The end cursor and every held byte from the clamped cursor on. */
    method ReadSince(since: Option<nat>) returns (end: nat, bytes: seq<byte>)
      requires Valid()
      ensures end == |history| && bytes == history[Clamp(since, Start(), end)..]
    {
      var from := Clamp(since, Start(), written);
      end, bytes := written, buf[from - Start()..];
    }
  }

  /** What the coalescer's channel and timer hand it, in order; the channel is closed after the last. */
  datatype Input = Chunk(bytes: seq<byte>) | Deadline

  function Received(rx: seq<Input>): seq<byte> {
    if rx == [] then []
    else Received(rx[..|rx| - 1]) + (match rx[|rx| - 1] case Chunk(b) => b case Deadline => [])
  }

  lemma ReceivedNext(rx: seq<Input>, i: nat)
    requires i < |rx|
    ensures Received(rx[..i + 1]) == Received(rx[..i]) + (match rx[i] case Chunk(b) => b case Deadline => [])
  {
    assert rx[..i + 1][..i] == rx[..i];
  }

  /** A flush is sent before a chunk is added to a full batch. */
  ghost predicate Batched(flush: seq<byte>, rx: seq<Input>) {
    |flush| < FLUSH_BYTES || exists b, k :: 0 <= k < FLUSH_BYTES && Chunk(b) in rx && flush == flush[..k] + b && |flush| == k + |b|
  }

  /** A batch that began at i is still open at k: it is not full, and its timer did not just go off. */
  predicate Open(rx: seq<Input>, i: nat, k: nat)
    requires i < k <= |rx|
  {
    |Received(rx[i..k])| < FLUSH_BYTES && !rx[k - 1].Deadline?
  }

  /** Where it ends: the first place from k on at which it is not open, or the close of the channel. */
  function BatchEnd(rx: seq<Input>, i: nat, k: nat): (j: nat)
    requires i < k <= |rx|
    ensures k <= j <= |rx| && (j < |rx| ==> !Open(rx, i, j)) && forall m :: k <= m < j ==> Open(rx, i, m)
    decreases |rx| - k
  {
    if k == |rx| || !Open(rx, i, k) then k else BatchEnd(rx, i, k + 1)
  }

  /** The flushes from i on; a timer is only armed once a batch has its first read. */
  function Flushes(rx: seq<Input>, i: nat): seq<seq<byte>>
    requires i <= |rx|
    decreases |rx| - i
  {
    if i == |rx| then []
    else if rx[i].Deadline? then Flushes(rx, i + 1)
    else
      var j := BatchEnd(rx, i, i + 1);
      [Received(rx[i..j])] + Flushes(rx, j)
  }

  /** A timer that goes off in a batch ends its flush, however little is in it. */
  lemma DeadlineFlushes(a: seq<byte>, b: seq<byte>)
    requires |a| < FLUSH_BYTES
    ensures Flushes([Chunk(a), Deadline, Chunk(b)], 0) == [a, b]
    ensures Flushes([Chunk(a), Chunk(b)], 0) == [a + b]
  {
    var rx, ry := [Chunk(a), Deadline, Chunk(b)], [Chunk(a), Chunk(b)];
    assert rx[0..1][..0] == [] && rx[0..2][..1] == rx[0..1] && rx[2..3][..0] == [];
    assert Received(rx[0..1]) == a && Received(rx[0..2]) == a && Received(rx[2..3]) == b;
    assert BatchEnd(rx, 0, 1) == 2 && BatchEnd(rx, 2, 3) == 3;
    assert Flushes(rx, 2) == [b] + Flushes(rx, 3);
    assert ry[0..1] == [Chunk(a)] == rx[0..1] && ry[0..2][..1] == ry[0..1];
    assert Received(ry[0..2]) == a + b && BatchEnd(ry, 0, 1) == 2;
  }

  /** One batch: the first read and everything after it until the timer goes off, the batch is full or the channel closes. */
  method Gather(rx: seq<Input>, i: nat) returns (pending: seq<byte>, j: nat)
    requires i < |rx| && rx[i].Chunk?
    ensures i < j <= |rx| && Received(rx[..j]) == Received(rx[..i]) + pending
    ensures Batched(pending, rx)
    ensures j == BatchEnd(rx, i, i + 1) && pending == Received(rx[i..j])
  {
    hide Batched, Received, Flushes;
    pending, j := rx[i].bytes, i + 1;
    ReceivedNext(rx, i);
    FirstRead(rx, i);
    var expired := false;
    while j < |rx| && |pending| < FLUSH_BYTES && !expired
      invariant i < j <= |rx| && Received(rx[..j]) == Received(rx[..i]) + pending && pending == Received(rx[i..j])
      invariant Batched(pending, rx) && (expired <==> rx[j - 1].Deadline?)
      invariant BatchEnd(rx, i, j) == BatchEnd(rx, i, i + 1)
    {
      ReceivedNext(rx, j);
      SliceNext(rx, i, j);
      if rx[j].Deadline? {
        expired := true;
      } else {
        Associative(Received(rx[..i]), pending, rx[j].bytes);
        NextRead(rx, j, pending);
        pending := pending + rx[j].bytes;
      }
      j := j + 1;
    }
  }

  lemma SliceNext(rx: seq<Input>, i: nat, j: nat)
    requires i <= j < |rx|
    ensures Received(rx[i..j + 1]) == Received(rx[i..j]) + (match rx[j] case Chunk(b) => b case Deadline => [])
  {
    assert rx[i..j + 1][..j - i] == rx[i..j];
  }

  lemma FirstRead(rx: seq<Input>, i: nat)
    requires i < |rx| && rx[i].Chunk?
    ensures Batched(rx[i].bytes, rx) && Received(rx[i..i + 1]) == rx[i].bytes
  {
    var b := rx[i].bytes;
    assert rx[i..i + 1][..0] == [];
    assert rx[i] == Chunk(b) && b == b[..0] + b;
  }

  lemma NextRead(rx: seq<Input>, j: nat, pending: seq<byte>)
    requires j < |rx| && rx[j].Chunk? && |pending| < FLUSH_BYTES
    ensures Batched(pending + rx[j].bytes, rx)
  {
    var b, k := rx[j].bytes, |pending|;
    assert rx[j] == Chunk(b) && pending + b == (pending + b)[..k] + b;
  }

  /** `coalesce`: the flushes are the received bytes, none lost, none reordered, and a batch stops growing at FLUSH_BYTES. */
  method Coalesce(rx: seq<Input>) returns (flushes: seq<seq<byte>>)
    ensures Flat(flushes) == Received(rx) && flushes == Flushes(rx, 0)
    ensures forall f :: f in flushes ==> Batched(f, rx)
  {
    flushes := [];
    var i := 0;
    while i < |rx|
      invariant i <= |rx| && Flat(flushes) == Received(rx[..i])
      invariant flushes + Flushes(rx, i) == Flushes(rx, 0)
      invariant forall f :: f in flushes ==> Batched(f, rx)
      decreases |rx| - i
    {
      if rx[i].Chunk? {
        var batch, j := Gather(rx, i);
        FlatAppend(flushes, batch);
        Associative(flushes, [batch], Flushes(rx, j));
        flushes := flushes + [batch];
        i := j;
      } else {
        // The timer is only armed once a batch has its first read.
        ReceivedNext(rx, i);
        i := i + 1;
      }
    }
    assert rx[..i] == rx;
  }
}
