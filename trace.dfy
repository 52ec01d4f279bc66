/** What the bus records and reports: one event per bus action that
    completed, the error type of a bus transaction, and the fault plan a
    test scenario injects into the transport. */
module Trace {
  import opened Sd

  /** The requested duration of each busy-wait, in milliseconds. */
  const BUSY_WAIT_MS: nat := 250

  /** The level an idle data-out line reads as; also the filler byte. */
  const IDLE: Byte := 0xFF

  datatype Event =
    | Tx(bytes: seq<Byte>)   // bytes transmitted, in order
    | Select                 // chip-select asserted
    | Deselect               // chip-select released
    | Cmd(cmd: Command)      // a command framed and sent
    | Rx(byte: Byte)         // one byte received
    | Wait(ms: nat)          // a bounded wait of the given length

  /** `BUSError<E, F>`: `E` is the transport's error, `F` the chip-select
      pin's error. */
  datatype BusError<E, F> =
    | Spi(spi: E)
    | ChipSelect(pin: F)
    | Transfer(data: DataError)
    | Generic

  /** `Result<(), BUSError<E, F>>`. */
  datatype Status<E, F> = Ok | Err(error: BusError<E, F>)

  /** A transport or pin failure: the bus action that would have recorded
      event number `step` of the trace fails with `error` instead. */
  datatype Fault<E, F> = Fault(step: nat, error: BusError<E, F>)

  predicate Fires<E, F>(fault: Option<Fault<E, F>>, step: nat)
  {
    fault.Some? && fault.value.step == step
  }

  /** The kinds of event the write's bookkeeping counts. */
  datatype EventKind = Receive | Pause

  predicate IsKind(e: Event, k: EventKind)
  {
    match k
    case Receive => e.Rx?
    case Pause => e.Wait?
  }

  /** The number of events in `s` of kind `k`. */
  function Count(s: seq<Event>, k: EventKind): nat
  {
    if s == [] then 0
    else (if IsKind(s[0], k) then 1 else 0) + Count(s[1..], k)
  }

  lemma {:induction false} CountAppend(a: seq<Event>, b: seq<Event>, k: EventKind)
    ensures Count(a + b, k) == Count(a, k) + Count(b, k)
    decreases |a|
  {
    if a == [] {
      assert a + b == b;
    } else {
      assert (a + b)[1..] == a[1..] + b;
      CountAppend(a[1..], b, k);
    }
  }

  function CountRx(s: seq<Event>): nat
  {
    Count(s, Receive)
  }

  function CountWaits(s: seq<Event>): nat
  {
    Count(s, Pause)
  }

  /** What is left of a reply queue after `k` bytes were taken from it. */
  function Drop(q: seq<Byte>, k: nat): (r: seq<Byte>)
    ensures |r| == if k <= |q| then |q| - k else 0
  {
    if k <= |q| then q[k..] else []
  }

  /** The next byte the card sends: the queue's head, or the idle level. */
  function Head(q: seq<Byte>): Byte
  {
    if q == [] then IDLE else q[0]
  }

  function Tail(q: seq<Byte>): seq<Byte>
  {
    if q == [] then [] else q[1..]
  }

  /** The `i`-th byte the card sends from queue `q`. */
  function ReplyAt(q: seq<Byte>, i: nat): Byte
  {
    if i < |q| then q[i] else IDLE
  }

  /** The replies after the first are the queue's tail. */
  lemma ReplyAtTail(q: seq<Byte>, i: nat)
    ensures ReplyAt(Tail(q), i) == ReplyAt(q, i + 1)
    ensures ReplyAt(q, 0) == Head(q)
  {
  }
}
