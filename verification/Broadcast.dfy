/** A tokio broadcast receiver: it keeps up with the last `capacity` values, or is told how many it lost. */
module Broadcast {
  datatype Received<T> = Next(value: T) | Lagged(skipped: nat) | Empty

  /** What `recv` finds at a position in everything sent so far. */
  function Receive<T>(sent: seq<T>, capacity: nat, at: nat): Received<T>
    requires at <= |sent|
  {
    if |sent| - at > capacity then Lagged(|sent| - capacity - at)
    else if at == |sent| then Empty
    else Next(sent[at])
  }

  /** The receiver's position after it: past the value, or at the oldest value kept. */
  function Position<T>(sent: seq<T>, capacity: nat, at: nat): (next: nat)
    requires at <= |sent|
    ensures at <= next <= |sent|
  {
    if |sent| - at > capacity then |sent| - capacity else if at == |sent| then at else at + 1
  }
}
