/** The host side of the SPI bus and its block write, step by step.  The
    bus records every action that completes in an append-only trace, takes
    the card's bytes from a scripted queue, and suffers at most one
    injected transport or pin failure.  `Bus.Write` is proved to record
    exactly the events of `WriteSpec.WriteRun` and to return its result. */
module SpiBus {
  import opened Sd
  import opened Trace
  import opened WriteSpec

  class Bus<E, F> {
    /** Every bus action that completed, oldest first. */
    var trace: seq<Event>
    /** The bytes the card will send, in order. */
    var replies: seq<Byte>
    /** The one failure this bus suffers, if any. */
    const fault: Option<Fault<E, F>>

    constructor (replies: seq<Byte>, fault: Option<Fault<E, F>>)
      ensures trace == [] && this.replies == replies && this.fault == fault
    {
      trace := [];
      this.replies := replies;
      this.fault := fault;
    }

    /** A bus action: it fails when the fault is due now, and otherwise
        completes and is recorded. */
    method Perform(e: Event) returns (s: Status<E, F>)
      modifies this`trace
      ensures Fires(fault, old(|trace|)) ==> s == Err(fault.value.error) && trace == old(trace)
      ensures !Fires(fault, old(|trace|)) ==> s == Ok && trace == old(trace) + [e]
    {
      if fault.Some? && fault.value.step == |trace| {
        s := Err(fault.value.error);
      } else {
        trace := trace + [e];
        s := Ok;
      }
    }

    /** `tx`: transmit `bytes` in order. */
    method Transmit(bytes: seq<Byte>) returns (s: Status<E, F>)
      modifies this`trace
      ensures Fires(fault, old(|trace|)) ==> s == Err(fault.value.error) && trace == old(trace)
      ensures !Fires(fault, old(|trace|)) ==> s == Ok && trace == old(trace) + [Tx(bytes)]
    {
      s := Perform(Tx(bytes));
    }

    /** `select`: assert chip-select. */
    method SelectCard() returns (s: Status<E, F>)
      modifies this`trace
      ensures Fires(fault, old(|trace|)) ==> s == Err(fault.value.error) && trace == old(trace)
      ensures !Fires(fault, old(|trace|)) ==> s == Ok && trace == old(trace) + [Select]
    {
      s := Perform(Select);
    }

    /** `deselect`: release chip-select. */
    method DeselectCard() returns (s: Status<E, F>)
      modifies this`trace
      ensures Fires(fault, old(|trace|)) ==> s == Err(fault.value.error) && trace == old(trace)
      ensures !Fires(fault, old(|trace|)) ==> s == Ok && trace == old(trace) + [Deselect]
    {
      s := Perform(Deselect);
    }

    /** `send_command`: frame and send `cmd`. */
    method SendCommand(cmd: Command) returns (s: Status<E, F>)
      modifies this`trace
      ensures Fires(fault, old(|trace|)) ==> s == Err(fault.value.error) && trace == old(trace)
      ensures !Fires(fault, old(|trace|)) ==> s == Ok && trace == old(trace) + [Cmd(cmd)]
    {
      s := Perform(Cmd(cmd));
    }

    /** `wait`: a bounded wait of `ms` milliseconds. */
    method Sleep(ms: nat) returns (s: Status<E, F>)
      modifies this`trace
      ensures Fires(fault, old(|trace|)) ==> s == Err(fault.value.error) && trace == old(trace)
      ensures !Fires(fault, old(|trace|)) ==> s == Ok && trace == old(trace) + [Wait(ms)]
    {
      s := Perform(Wait(ms));
    }

    /** `rx` into a one-byte buffer: the card's next byte, taken from the
        queue; on failure the buffer keeps its initial zero. */
    method Receive() returns (s: Status<E, F>, b: Byte)
      modifies this`trace, this`replies
      ensures Fires(fault, old(|trace|)) ==>
        s == Err(fault.value.error) && b == 0 && trace == old(trace) && replies == old(replies)
      ensures !Fires(fault, old(|trace|)) ==>
        s == Ok && b == Head(old(replies)) && trace == old(trace) + [Rx(b)] && replies == Tail(old(replies))
    {
      b := 0;
      if fault.Some? && fault.value.step == |trace| {
        s := Err(fault.value.error);
      } else {
        b := Head(replies);
        s := Perform(Rx(b));
        replies := Tail(replies);
      }
    }

    /** `write(address, bytes)`: filler, select, the command; for each chunk
        the token, the chunk, the CRC placeholder, one response byte and a
        busy-wait; the stop sequence for a payload longer than one block;
        then deselect and the release byte.  Any failure returns at once. */
    method Write(address: U32, bytes: seq<Byte>) returns (s: Status<E, F>)
      modifies this`trace, this`replies
      ensures var run := WriteRun(address, bytes, old(replies), old(|trace|), fault);
        trace == old(trace) + run.events && s == run.status &&
        replies == Drop(old(replies), CountRx(run.events))
    {
      ghost var start, q0 := trace, replies;
      var framing := Framing(address, |bytes|);
      var cmd, token := framing.0, framing.1;
      ghost var full := Attempt<E, F>(address, bytes, q0);
      ghost var blocks := Blocks<E, F>(token, Chunks(bytes), q0, |bytes|);
      assert full.events == Opening(address, |bytes|) + blocks.events;
      assert WriteRun(address, bytes, q0, |start|, fault) == Cut(full, |start|, fault);
      assert OnTrack(trace, replies, fault, start, q0, full.events, full.events) by {
        assert trace[|start|..] == [];
      }

      s := Open(cmd, start, q0, full, full.events);
      if s.Err? { return; }
      ghost var todo := blocks.events;

      var rest := bytes;
      while rest != []
        invariant OnTrack(trace, replies, fault, start, q0, full.events, todo)
        invariant todo == Blocks<E, F>(token, Chunks(rest), replies, |bytes|).events
        invariant full.status == Blocks<E, F>(token, Chunks(rest), replies, |bytes|).status
        decreases |rest|
      {
        var k := ChunkLen(rest);
        NextBlock<E, F>(token, rest, replies, |bytes|);
        ghost var next := Blocks<E, F>(token, Chunks(rest[k..]), Tail(replies), |bytes|);
        s := TransferBlock(token, rest[..k], start, q0, full, todo, next.events);
        if s.Err? { return; }
        todo := next.events;
        rest := rest[k..];
      }

      s := Close(|bytes|, start, q0, full, todo);
    }

    /** The opening of a write: the filler bytes, chip-select, then the
        command. */
    method Open(cmd: Command, ghost start: seq<Event>, ghost q0: seq<Byte>,
                ghost full: Run<E, F>, ghost todo: seq<Event>)
      returns (s: Status<E, F>)
      requires OnTrack(trace, replies, fault, start, q0, full.events, todo)
      requires |todo| >= 3 && todo[..3] == [Tx(PREAMBLE), Select, Cmd(cmd)]
      modifies this`trace
      ensures s.Err? ==> Ended(trace, replies, s, fault, start, q0, full)
      ensures s.Ok? ==> OnTrack(trace, replies, fault, start, q0, full.events, todo[3..])
    {
      ghost var left := todo;
      ghost var t0, r0 := trace, replies;

      s := Transmit(PREAMBLE);
      Stepped(t0, r0, trace, replies, s, fault, start, q0, full, left);
      if s.Err? { return; }
      left, t0 := left[1..], trace;

      s := SelectCard();
      Stepped(t0, r0, trace, replies, s, fault, start, q0, full, left);
      if s.Err? { return; }
      left, t0 := left[1..], trace;

      s := SendCommand(cmd);
      Stepped(t0, r0, trace, replies, s, fault, start, q0, full, left);
      assert left[1..] == todo[3..];
    }

    /** One turn of the chunk loop: the data frame, one response byte, then
        the busy-wait if the card accepted the block.  It ends the write on
        a rejection, an undecodable response or a failure; otherwise the
        write goes on with `after`. */
    method TransferBlock(token: Token, chunk: seq<Byte>, ghost start: seq<Event>, ghost q0: seq<Byte>,
                         ghost full: Run<E, F>, ghost todo: seq<Event>, ghost after: seq<Event>)
      returns (s: Status<E, F>)
      requires OnTrack(trace, replies, fault, start, q0, full.events, todo)
      requires todo == BlockFrame(token, chunk, Head(replies)) +
        (if Verdict<E, F>(Head(replies)).None? then [Wait(BUSY_WAIT_MS)] + after else [])
      requires Verdict<E, F>(Head(replies)).Some? ==> full.status == Err(Verdict<E, F>(Head(replies)).value)
      modifies this`trace, this`replies
      ensures s.Err? ==> Ended(trace, replies, s, fault, start, q0, full)
      ensures s.Ok? ==>
        Verdict<E, F>(Head(old(replies))).None? && replies == Tail(old(replies)) &&
        OnTrack(trace, replies, fault, start, q0, full.events, after)
    {
      ghost var left := todo[3..];
      s := SendFrame(token, chunk, start, q0, full, todo);
      if s.Err? { return; }

      ghost var t0, r0 := trace, replies;
      var b;
      s, b := Receive();
      Stepped(t0, r0, trace, replies, s, fault, start, q0, full, left);
      if s.Err? { return; }
      left := left[1..];

      match ResponseTryFrom(b) {
        case Some(Accepted) =>
        case Some(_) =>
          s := Err(Transfer(DataError.Generic));
          Finished(trace, replies, fault, start, q0, full, left);
          return;
        case None =>
          s := Err(BusError.Generic);
          Finished(trace, replies, fault, start, q0, full, left);
          return;
      }

      t0, r0 := trace, replies;
      s := Sleep(BUSY_WAIT_MS);
      Stepped(t0, r0, trace, replies, s, fault, start, q0, full, left);
    }

    /** The data frame of one block: its start token, the chunk, then the
        placeholder CRC. */
    method SendFrame(token: Token, chunk: seq<Byte>, ghost start: seq<Event>, ghost q0: seq<Byte>,
                     ghost full: Run<E, F>, ghost todo: seq<Event>)
      returns (s: Status<E, F>)
      requires OnTrack(trace, replies, fault, start, q0, full.events, todo)
      requires |todo| >= 3 && todo[..3] == [Tx([TokenByte(token)]), Tx(chunk), Tx(CRC_PLACEHOLDER)]
      modifies this`trace
      ensures s.Err? ==> Ended(trace, replies, s, fault, start, q0, full)
      ensures s.Ok? ==> OnTrack(trace, replies, fault, start, q0, full.events, todo[3..])
    {
      ghost var left := todo;
      ghost var t0, r0 := trace, replies;

      s := Transmit([TokenByte(token)]);
      Stepped(t0, r0, trace, replies, s, fault, start, q0, full, left);
      if s.Err? { return; }
      left, t0 := left[1..], trace;

      s := Transmit(chunk);
      Stepped(t0, r0, trace, replies, s, fault, start, q0, full, left);
      if s.Err? { return; }
      left, t0 := left[1..], trace;

      s := Transmit(CRC_PLACEHOLDER);
      Stepped(t0, r0, trace, replies, s, fault, start, q0, full, left);
      assert left[1..] == todo[3..];
    }

    /** The end of a write of `len` bytes: the stop sequence when more than
        one block was sent, deselect, then the byte that releases MISO. */
    method Close(len: nat, ghost start: seq<Event>, ghost q0: seq<Byte>,
                 ghost full: Run<E, F>, ghost todo: seq<Event>)
      returns (s: Status<E, F>)
      requires OnTrack(trace, replies, fault, start, q0, full.events, todo)
      requires todo == Closing(len) && full.status == Ok
      modifies this`trace
      ensures Ended(trace, replies, s, fault, start, q0, full)
    {
      ghost var left := todo;
      ghost var t0, r0 := trace, replies;
      if len > BLOCK_SIZE {
        s := Transmit([TokenByte(Stop), IDLE]);
        Stepped(t0, r0, trace, replies, s, fault, start, q0, full, left);
        if s.Err? { return; }
        left, t0 := left[1..], trace;

        s := Sleep(BUSY_WAIT_MS);
        Stepped(t0, r0, trace, replies, s, fault, start, q0, full, left);
        if s.Err? { return; }
        left, t0 := left[1..], trace;
      }

      s := DeselectCard();
      Stepped(t0, r0, trace, replies, s, fault, start, q0, full, left);
      if s.Err? { return; }
      left, t0 := left[1..], trace;

      s := Transmit([IDLE]);
      Stepped(t0, r0, trace, replies, s, fault, start, q0, full, left);
      if s.Err? { return; }
      Finished(trace, replies, fault, start, q0, full, left[1..]);
    }
  }

  /** The first of the blocks still to send from `rest`, and what follows
      it once the card has answered. */
  lemma NextBlock<E, F>(t: Token, rest: seq<Byte>, q: seq<Byte>, len: nat)
    requires rest != []
    ensures var k, v := ChunkLen(rest), Verdict<E, F>(Head(q));
      var here, next := Blocks<E, F>(t, Chunks(rest), q, len), Blocks<E, F>(t, Chunks(rest[k..]), Tail(q), len);
      here.events == BlockFrame(t, rest[..k], Head(q)) + (if v.None? then [Wait(BUSY_WAIT_MS)] + next.events else []) &&
      here.status == (if v.None? then next.status else Err(v.value))
  {
    ChunksUnfold(rest);
  }

  /** The bus is part way through a write that started on trace `start`
      with reply queue `q0`: what it recorded since, followed by `todo`, is
      the faultless run `full`; the fault has not struck since the start;
      and the queue has lost one byte per byte received. */
  ghost predicate OnTrack<E, F>(trace: seq<Event>, replies: seq<Byte>, fault: Option<Fault<E, F>>,
                                start: seq<Event>, q0: seq<Byte>, full: seq<Event>, todo: seq<Event>)
  {
    |start| <= |trace| && trace[..|start|] == start &&
    trace[|start|..] + todo == full &&
    !(fault.Some? && |start| <= fault.value.step < |trace|) &&
    replies == Drop(q0, CountRx(trace[|start|..]))
  }

  /** The write has returned `s` on trace `trace` and queue `replies`: it
      recorded the run `full` cut at the fault, returned that run's result,
      and took one queued byte per byte received. */
  ghost predicate Ended<E, F>(trace: seq<Event>, replies: seq<Byte>, s: Status<E, F>,
                              fault: Option<Fault<E, F>>, start: seq<Event>, q0: seq<Byte>, full: Run<E, F>)
  {
    var run := Cut(full, |start|, fault);
    trace == start + run.events && s == run.status && replies == Drop(q0, CountRx(run.events))
  }

  /** One bus action of the write, from trace `t0` and queue `r0`: if it
      failed, the write's run ends here with the fault's error; if it
      completed, it was the next event of the faultless run and the write
      is still on track. */
  lemma Stepped<E, F>(t0: seq<Event>, r0: seq<Byte>, t1: seq<Event>, r1: seq<Byte>, s: Status<E, F>,
                      fault: Option<Fault<E, F>>, start: seq<Event>, q0: seq<Byte>,
                      full: Run<E, F>, todo: seq<Event>)
    requires OnTrack(t0, r0, fault, start, q0, full.events, todo) && todo != []
    requires Fires(fault, |t0|) ==> s == Err(fault.value.error) && t1 == t0 && r1 == r0
    requires !Fires(fault, |t0|) ==>
      s == Ok && t1 == t0 + [todo[0]] && r1 == (if todo[0].Rx? then Tail(r0) else r0) &&
      (todo[0].Rx? ==> todo[0].byte == Head(r0))
    ensures s.Err? ==> Ended(t1, r1, s, fault, start, q0, full)
    ensures s.Ok? ==> OnTrack(t1, r1, fault, start, q0, full.events, todo[1..])
  {
    var done := t0[|start|..];
    assert t0 == start + done;
    if Fires(fault, |t0|) {
      assert full.events[..|done|] == done;
    } else {
      var e := todo[0];
      assert t1[|start|..] == done + [e];
      assert done + [e] + todo[1..] == full.events;
      CountAppend(done, [e], Receive);
      assert CountRx([e]) == if e.Rx? then 1 else 0;
    }
  }

  /** The write returns having recorded the whole faultless run. */
  lemma Finished<E, F>(trace: seq<Event>, replies: seq<Byte>, fault: Option<Fault<E, F>>,
                       start: seq<Event>, q0: seq<Byte>, full: Run<E, F>, todo: seq<Event>)
    requires OnTrack(trace, replies, fault, start, q0, full.events, todo) && todo == []
    ensures Cut(full, |start|, fault) == full && Ended(trace, replies, full.status, fault, start, q0, full)
  {
    assert trace == start + trace[|start|..];
  }
}
