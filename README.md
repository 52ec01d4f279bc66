# SD-card block write over SPI, modelled in Dafny

This project models the host side of an SD-card block write in SPI mode:
`write(address, bytes)` of the SPI `Bus`. The write goes like this:

- Send five `0xFF` filler bytes, assert chip-select, and choose and send the command.
  - A payload of exactly `BLOCK_SIZE` bytes is announced as `WriteBlock(address)` and uses the `Start` data token.
  - Every other length uses `WriteMultipleBlock(address)` and `StartWriteMultipleBlock`.
- Cut the payload into `BLOCK_SIZE` chunks. For each chunk, send the token, the chunk and a two-byte CRC placeholder, then read one response byte.
  - An accepted block is followed by a 250 ms busy-wait.
  - A recognized rejection fails the write with a transfer error.
  - An unrecognized byte fails it with the generic error.
- A payload longer than one block then gets the stop token and a filler byte, plus one more busy-wait.
- Finally release chip-select and send one `0xFF` byte to free the card's data-out line.

Any failing bus action ends the write at once with that action's error.

The model has three parts:

- `Sd` and `Trace` hold the vocabulary:
  - the block size;
  - the commands, data tokens and data-response classes;
  - the bus events and errors.
- `WriteSpec` describes the write as a value:
  - `Attempt` (`src/bus/spi/write.rs:24-54`) is the run over a transport that never fails: the list of bus events plus the result. It is the opening (lines 25-32) followed by `Blocks`.
  - `Blocks` (`src/bus/spi/write.rs:33-50`) is the loop over the chunks: each block's frame, then, depending on the reply, the busy-wait and the remaining blocks, or the end of the run. After the last block comes the closing.
  - `Verdict` (`src/bus/spi/write.rs:40-44`) is the match on the decoded response byte: `None` to go on for `Accepted`, `Transfer(Generic)` for another recognized response, `Generic` for an unrecognized byte.
  - `WriteRun` is the same run cut short at an injected transport or chip-select fault.
  - The lemmas prove the protocol's framing, ordering, counting and failure rules about these runs.
- `SpiBus` has a `Bus` class with three parts:
  - an append-only `trace` of completed bus actions;
  - a `replies` queue of the bytes the card sends;
  - at most one injected `fault`.

  `Bus.Write` performs the write step by step: a `while` loop over the remaining payload, with early returns. It is proved to append exactly `WriteRun`'s events to the trace, to return `WriteRun`'s result, and to consume one queued reply per byte received.

Where this model and the usual description of the write differ, the model follows the code:

- `write` puts no demand on the payload length. It is not required to be a positive multiple of `BLOCK_SIZE`.
- An empty payload, or one shorter than a block, is announced as a multiple-block write (`EmptyWrite`, `Framing`).
- A single short chunk gets the multiple-block token, but no stop sequence: the stop depends on `bytes.len() > BLOCK_SIZE` alone (`StopIff`).
- No error path before the final release byte releases chip-select. A failure of that byte comes after the deselect (`ErrorLeavesSelected`).

## Model

| member | source | states |
|---|---|---|
| WriteSpec.Framing | src/bus/spi/write.rs:27-31 | The command is `WriteBlock(address)`, and the token `Start`, exactly when the length equals `BLOCK_SIZE`. Every other length, including 0, gets `WriteMultipleBlock(address)` and `StartWriteMultipleBlock`. |
| WriteSpec.Chunks | src/bus/spi/write.rs:33 | The chunks concatenated in order are the payload. There are none for an empty payload, one for a payload of at most one block, and more than one for a longer payload. |
| WriteSpec.ChunkSizes | src/bus/spi/write.rs:33 | Every chunk holds 1 to `BLOCK_SIZE` bytes, and every chunk but the last holds exactly `BLOCK_SIZE`. |
| WriteSpec.ChunkBounds | src/bus/spi/write.rs:33 | There are just enough chunks to hold the payload: n·BLOCK_SIZE covers it and (n−1)·BLOCK_SIZE does not. |
| WriteSpec.ChunkCount | src/bus/spi/write.rs:33 | The number of chunks is ceil(len / BLOCK_SIZE). |
| WriteSpec.ChunkAt | src/bus/spi/write.rs:33 | Chunk i is the payload slice starting at `BlockStart(i)`, which equals i·BLOCK_SIZE. It ends at the next block boundary or at the end of the payload, whichever comes first. This is left-to-right order. |
| WriteSpec.FirstRejected | src/bus/spi/write.rs:40-44 | The index of the first block the card does not accept, or the chunk count when it accepts them all. Every earlier block was accepted. |
| WriteSpec.AttemptShape | src/bus/spi/write.rs:24-53 | A faultless write is the opening, then every block up to the first rejected one, each followed by its busy-wait. If all blocks are accepted, the closing follows and the result is `Ok`. Otherwise the run stops right after the rejected block's response byte, with that byte's error. |
| WriteSpec.SucceedsIffAllAccepted | src/bus/spi/write.rs:40-45 | A faultless write succeeds exactly when the card accepts every block. |
| WriteSpec.RepliesConsumed | src/bus/spi/write.rs:38-44 | A faultless write receives exactly one byte per block it sends. That is the chunk count when all are accepted, and otherwise one more than the number accepted before the rejection. |
| WriteSpec.WaitCount | src/bus/spi/write.rs:45-49 | A successful faultless write waits once per chunk, plus once more when the payload is longer than one block. |
| WriteSpec.StopIff | src/bus/spi/write.rs:47-50 | A faultless run ends with the stop token and filler byte, the busy-wait, deselect and the release byte exactly when the payload is longer than one block and every block was accepted. |
| WriteSpec.BlockOnTheWire | src/bus/spi/write.rs:33-45 | Every block the write reaches goes out, in order, as the command's token, then its chunk verbatim, then the `[0, 0]` CRC placeholder, then exactly one received byte. An accepted block is followed by the 250 ms wait. A rejected block ends the run, with `Transfer(Generic)` for a recognized response and `Generic` for an unrecognized one. |
| WriteSpec.FailFast | src/bus/spi/write.rs:25-53 | A write with a fault records a prefix of the faultless run. It differs from that run only by stopping at the fault, and returns the fault's error unchanged. This lemma only spells out what `Cut` means. The proof that the early returns of the step-by-step write really produce this cut run is the contract of `SpiBus.Bus.Write`. |
| WriteSpec.OpeningOrder | src/bus/spi/write.rs:25-32 | Whatever fails, the first event is the five filler bytes, the second is the only select, and the third is the only command. |
| WriteSpec.ErrorLeavesSelected | src/bus/spi/write.rs:32-52 | A failed write records no deselect. The one exception is a fault on the final release byte, which comes after the deselect; the result is then that fault's error. |
| WriteSpec.SuccessIsComplete | src/bus/spi/write.rs:51-53 | A write that returns `Ok` is the whole faultless run, every block was accepted, and the run ends with deselect then a single `0xFF` byte. |
| WriteSpec.SingleBlockWrite | src/bus/spi/write.rs:24-54 | A one-block payload that the card accepts gives this exact trace: filler, select, `WriteBlock`, the `Start` token, the payload, the CRC, the reply, one wait, deselect, the release byte. The result is `Ok`. |
| WriteSpec.EmptyWrite | src/bus/spi/write.rs:24-54 | An empty payload gives this exact trace: filler, select, `WriteMultipleBlock`, deselect, release byte, with `Ok`. No block and no stop sequence. |
| WriteSpec.ThreeBlockWrite | src/bus/spi/write.rs:24-54 | A three-block payload the card accepts throughout gives this exact trace: three multiple-block cycles over the three blocks in order, each with its wait, then the stop token and filler, a wait, deselect and the release byte. |
| WriteSpec.SecondBlockRejected | src/bus/spi/write.rs:24-54 | In a three-block write whose second reply is a rejection, the trace ends at that reply. The third block is never sent, and the error is the second reply's rejection. |
| SpiBus.Bus.Write | src/bus/spi/write.rs:24-54 | The trace grows by exactly `WriteRun`'s events, and the result is `WriteRun`'s result: the faultless run, cut at the injected fault. The reply queue loses one byte per received byte. |
| SpiBus.Bus.Open | src/bus/spi/write.rs:25-32 | Filler, select and command are recorded as the next three events of the run, or the write ends at the first one that fails. |
| SpiBus.Bus.TransferBlock | src/bus/spi/write.rs:33-45 | One loop iteration. It records the block's frame as the run's next events and consumes one reply. It continues only when that reply is an acceptance and the wait completed, and otherwise ends the write with the run's error. |
| SpiBus.Bus.SendFrame | src/bus/spi/write.rs:34-37 | Token, chunk and CRC placeholder are recorded as the run's next three events, or the write ends at the first that fails. |
| SpiBus.Bus.Close | src/bus/spi/write.rs:47-53 | The stop sequence (only for a payload longer than one block), deselect and the release byte complete the run. |
| SpiBus.Bus.Transmit | src/bus/spi/write.rs:25 | `tx` records the bytes sent, unless the fault is due at this step; then it fails with the fault's error and records nothing. |
| SpiBus.Bus.SelectCard | src/bus/spi/write.rs:26 | `select` records the select, or fails with the due fault's error. |
| SpiBus.Bus.SendCommand | src/bus/spi/write.rs:32 | `send_command` records the command, or fails with the due fault's error. |
| SpiBus.Bus.Receive | src/bus/spi/write.rs:38-39 | `rx` takes the card's next byte from the queue and records it. On failure, nothing is recorded, nothing is consumed, and the buffer keeps its initial 0. |
| SpiBus.Bus.Sleep | src/bus/spi/write.rs:45 | `wait` records the requested duration, or fails with the due fault's error. |
| SpiBus.Bus.DeselectCard | src/bus/spi/write.rs:51 | `deselect` records the release, or fails with the due fault's error. |

## Left out

- Async execution, `async_trait`, `Box` and the generic bounds on the transport, pin and timer: the bus actions are sequential steps on one object.
- Real time: a busy-wait records only its requested duration, 250 ms. There is no clock.
- The wire format of commands: `send_command` is one bus action. The command encoding and any response handling inside it are in files that are not part of this model.
- The numeric values of the data tokens and of `BLOCK_SIZE`, and how `data::Response::try_from` decodes a byte: these are uninterpreted constants. The only fact used is that `BLOCK_SIZE` is positive.
- CRC-16: the code sends a fixed `[0, 0]` placeholder, and so does the model.
- The concrete transport and pin error types `E` and `F`: they are type parameters and are carried through unchanged.
- How the transport reports failures: the model has at most one injected fault (the action that would record a given trace position fails with a given error). `Spi` and `ChipSelect` are assumed as variants of the bus error; `src/bus/spi/bus.rs` is not part of this model.
- Card behaviour: replies come from a scripted queue, and an exhausted queue reads as the idle level `0xFF`.
- The variants of `data::Response` (`Accepted`, `CrcError`, `WriteError`) are assumed, because the file defining them is not part of this model. The write only distinguishes `Accepted` from any other recognized response and from an unrecognized byte, and so does every proof here.
