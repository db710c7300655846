# DMX512 receiver for the ESP32: a verified model

This project models the receive side of the ESP32 DMX512 driver
(`drivers/esp32_dmx/dmx.c`). A dedicated task takes UART driver events one at a
time: data available (with a reported size), line break, receive buffer full, or
anything else. For each event it decides what the DMX frame state machine does.
The machine has three states (`WAIT_BREAK`, `WAIT_START_CODE`,
`RECEIVING_CHANNELS`), a `current_channel` cursor and the 512-slot
`channel_data` table. It drains the UART receive buffer into that table. A data
event that opens a frame is decoded only when its first byte is the NULL START
Code of ANSI E1.11 (DMX512-A), section 8.5. A data event whose first byte is
any other start code is dropped. The state stays `WAIT_START_CODE`, so the
first byte of the next data event is read as a new start code
(`DmxSpec.AlternateFrameContinues`).

Two modules:

- `DmxSpec` (`dmx_spec.dfy`) is the state machine as values. A `Snapshot` holds
  the decode state, the cursor, the table, the UART receive buffer and the UART
  event queue. `Next` is one pass through the body of the event loop. Lemmas
  state what each event kind does and what a whole frame does. `size_t` is
  32 bits on the ESP32, so the cursor and the reported size are `SizeT` values,
  and the source's unsigned wrap-around is written out (`Wrap`).
- `Dmx` (`dmx.dfy`) is the receiver object as a class. Its fields are updated in
  place, and the table is an `array<bv8>` of 512 slots. `Handle` and `Step` are
  proved to leave the object in exactly the state `DmxSpec.Next` gives. The
  UART calls the loop makes are methods on the same object:
  - `FlushInput` is `uart_flush_input`;
  - `ResetQueue` is `xQueueReset`;
  - `ReadBytes` and `ReadInto` are `uart_read_bytes`, which removes and returns
    the first min(k, buffered) bytes.

  `Deliver` stands for the UART driver's interrupt side. It appends bytes to
  the receive buffer and queues an event. The size an event reports is
  independent of how many bytes are buffered. `ReceiveFrame` drives a break
  and a frame through `Deliver` and `Step`.

The bound: every table write is below slot 512. `ReadInto` requires it, and
`Written` in the value model requires it too. Each requires is the
memory-safety obligation of the copy. Every call site discharges it, including
the oversize path. There the `cursor >= 512` branch has no `else`, and
`512 - current_channel` wraps, so the read still happens. It is safe only
because the buffer was flushed just before, so the read copies nothing.

Two behaviours of the code are followed exactly:

- The cursor is never reset. A break leaves it alone. The start-code branch
  adds `size - 1` to it. Only `calloc` zeroes it.
- The reported size is used unclamped. Size 0 in `WAIT_START_CODE` makes
  `size - 1` wrap: up to 512 bytes are read, and the cursor goes down by one
  modulo 2^32.

When the buffer is empty at the start-code read, `startCode` keeps whatever the
uninitialised local held. The model takes that byte as the parameter `junk`.

In DMX512 (ANSI E1.11) the START Code is slot 0 of a packet and the data
slots are 1 to 512. So every frame should be decoded into the table from
channel 1, whatever came before it. The code does not do that:

- `current_channel` is only ever added to: by `size - 1` on a NULL START Code
  (`drivers/esp32_dmx/dmx.c:67`) and by `size` on channel data (`dmx.c:82`).
- A break does not reset it (`dmx.c:86-91`).
- Dropping an oversize frame does not reset it either (`dmx.c:75-79`).

The first data event of a frame always goes to slot 0. Later data events of
the same frame go after the stale cursor. The model follows the code and shows
the consequence; see "## Findings".

## Model

| member | source | states |
|---|---|---|
| `DmxSpec.Init` | drivers/esp32_dmx/dmx.c:107-108 | The zeroed object from `calloc`: state `WAIT_BREAK` (the enum's zero), cursor 0, all 512 channels 0, nothing buffered or queued. |
| `DmxSpec.Written` | drivers/esp32_dmx/dmx.c:80-81 | Copying bytes into the table from slot `at` changes exactly slots `at .. at+len-1`, each to its byte, and keeps the length. Its requires is the bound: a non-empty copy must end at or below slot 512. |
| `DmxSpec.Next` | drivers/esp32_dmx/dmx.c:54-100 | One event of the loop, total over all states and event kinds. The table keeps exactly 512 slots, and every write it makes meets the bound of `Written`, on every path including the oversize fall-through. |
| `DmxSpec.BreakResynchronises` | drivers/esp32_dmx/dmx.c:86-91 | A break in any state moves to `WAIT_START_CODE`. It empties the receive buffer and the event queue. It keeps the cursor and the table. |
| `DmxSpec.BufferFullDropsInput` | drivers/esp32_dmx/dmx.c:92-96 | A full buffer empties the receive buffer and the event queue. It keeps state, cursor and table. |
| `DmxSpec.OtherEventIgnored` | drivers/esp32_dmx/dmx.c:97-99 | Any other event type changes nothing. |
| `DmxSpec.DataBeforeBreakDropped` | drivers/esp32_dmx/dmx.c:57-60 | Data while in `WAIT_BREAK` empties the receive buffer and changes nothing else. |
| `DmxSpec.AlternateStartCodeDropped` | drivers/esp32_dmx/dmx.c:61-72 | A data event with a non-zero start code empties the buffer. Table, cursor, state and queue are unchanged. Only that one event is dropped. |
| `DmxSpec.AlternateFrameContinues` | drivers/esp32_dmx/dmx.c:61-72 | As written, an alternate-protocol frame is not dropped as a whole. Its first data event changes nothing. The next data event's first byte is read as a new start code. If it is 0, the rest of that event lands in slots 0 onwards and the state becomes `RECEIVING_CHANNELS`. |
| `DmxSpec.NullStartCodeLoads` | drivers/esp32_dmx/dmx.c:61-68 | Start code 0 with `Data(n)` behaves as follows. The next min(n-1, 512) buffered bytes after the start code, fewer if fewer are buffered, go to slots 0 onwards. Every other slot is unchanged. Exactly those bytes leave the buffer. The cursor grows by n-1 modulo 2^32 (size 0 wraps). The state becomes `RECEIVING_CHANNELS`. |
| `DmxSpec.ChannelsStayInTable` | drivers/esp32_dmx/dmx.c:74-83 | `Data(n)` with cursor < 512 writes only slots cursor .. cursor+min(n, 512-cursor, buffered)-1, each to the matching buffered byte. It consumes exactly those bytes. The cursor advances by the unclamped n, and the state is kept. |
| `DmxSpec.OversizeFrameDropped` | drivers/esp32_dmx/dmx.c:74-83 | `Data(n)` with cursor >= 512 empties the buffer and moves to `WAIT_BREAK`. No slot is written, because the fall-through read finds nothing. The cursor still advances by n. |
| `DmxSpec.ChunksLand` | drivers/esp32_dmx/dmx.c:80-82 | Channel data delivered in any number of non-empty data events, while it fits, is laid down contiguously from the cursor. The cursor ends after it, and all other slots are unchanged. Proved by induction on the events. |
| `DmxSpec.FrameOpens` | drivers/esp32_dmx/dmx.c:64-68 | The data event carrying the NULL START Code and L ≤ 512 channel bytes puts them in slots 0..L-1 whatever the cursor. The cursor moves on by L modulo 2^32. |
| `DmxSpec.FrameAfterCursor` | drivers/esp32_dmx/dmx.c:61-83 | A frame after a break, as the code decodes it, when the kept cursor plus the frame's L channel bytes is at most 512. The first data event's channel bytes go to slots 0 onwards. The bytes of later data events go from the old cursor plus that count, not after the first event's bytes. |
| `DmxSpec.WaitBreakDropsData` | drivers/esp32_dmx/dmx.c:57-60 | While waiting for a break, any run of data events leaves the snapshot unchanged. Proved by induction on the events. |
| `DmxSpec.FrameAfterFullCursor` | drivers/esp32_dmx/dmx.c:64-82 | The cursor a break kept may already be at or above 512, as after a full universe, and not near the 2^32 wrap. Then only the frame's first data event lands, in slots 0 onwards. The next data event is taken as oversize: the rest of the frame is dropped and the state is `WAIT_BREAK`. |
| `DmxSpec.FrameFromZeroCursor` | drivers/esp32_dmx/dmx.c:61-83 | A frame after a break, with the cursor at 0 and split over any data events, fills slots 0..L-1 with its L ≤ 512 channel bytes. Higher slots keep their stale values, and the cursor ends at L. |
| `DmxSpec.FirstFrameLands` | drivers/esp32_dmx/dmx.c:86-91 | From the created state, a break and then a frame of L ≤ 512 channels leave channel c equal to the frame's c-th channel byte for every c ≤ L. Channels above L stay 0. |
| `DmxSpec.FullUniverseLands` | drivers/esp32_dmx/dmx.c:64-68 | Break then `Data(513)` carrying 0 and then 1, 2, .., 255, 0, .. gives channel 1 = 1, channel 512 = 0, cursor 512 and state `RECEIVING_CHANNELS`. |
| `DmxSpec.SecondFrameMisplaced` | drivers/esp32_dmx/dmx.c:67 | As written, a second frame is misplaced. After frame [0, AA, BB], the next break and the frame [0, CC] + [DD] put DD in channel 4. Channel 2 keeps the stale BB, and the cursor ends at 4. |
| `DmxSpec.NextIntended` | drivers/esp32_dmx/dmx.c:86-91 | The corrected loop: a break also resets the cursor to 0. It keeps the 512-slot table. |
| `DmxSpec.IntendedFrameLands` | drivers/esp32_dmx/dmx.c:86-91 | With the corrected break, a frame of L ≤ 512 channels after a break lands in channels 1..L from any prior state. Higher slots keep their previous values, and the cursor ends at L. |
| `Dmx.Receiver.constructor` | drivers/esp32_dmx/dmx.c:108 | The `calloc`ed receiver has a fresh 512-slot table, is not running, and its snapshot is `Init()`. |
| `Dmx.Receiver.FlushInput` | drivers/esp32_dmx/dmx.c:59 | `uart_flush_input` empties the receive buffer and nothing else. |
| `Dmx.Receiver.ResetQueue` | drivers/esp32_dmx/dmx.c:89 | `xQueueReset` empties the event queue and nothing else. |
| `Dmx.Receiver.ReadBytes` | drivers/esp32_dmx/dmx.c:63 | `uart_read_bytes` into a local returns the first min(k, buffered) bytes and removes exactly those. |
| `Dmx.Receiver.ReadInto` | drivers/esp32_dmx/dmx.c:81 | `uart_read_bytes` into `channel_data + offset` requires the bound: the copy is empty or ends at or below slot 512. The table becomes `Written` of the bytes removed from the buffer. |
| `Dmx.Receiver.Handle` | drivers/esp32_dmx/dmx.c:54-100 | The switch body updates the fields in place to exactly `Next` of the old snapshot. It keeps the same table array and `is_running`. |
| `Dmx.Receiver.HandleStartCode` | drivers/esp32_dmx/dmx.c:61-73 | A data event in `WAIT_START_CODE` updates the object to exactly `Next`. The start code is the first buffered byte, or the uninitialised local when none is buffered. |
| `Dmx.Receiver.HandleChannels` | drivers/esp32_dmx/dmx.c:74-83 | A data event in `RECEIVING_CHANNELS`, including the oversize fall-through, updates the object to exactly `Next`. Every `ReadInto` it makes meets the bound. |
| `Dmx.Receiver.Step` | drivers/esp32_dmx/dmx.c:53-101 | One turn of the loop. It takes the oldest queued event and handles it, giving `Next`. With an empty queue it reports that no event came and changes nothing. |
| `Dmx.Receiver.Start` | drivers/esp32_dmx/dmx.c:155-158 | Start sets `is_running`. Its task's entry (lines 49-51) empties the buffer and the queue. State, cursor and table are untouched. |
| `Dmx.Receiver.Stop` | drivers/esp32_dmx/dmx.c:160-171 | When not running, stop changes nothing. Otherwise it empties the queue and clears `is_running`. So a second stop is a no-op. |
| `Dmx.Receiver.Destroy` | drivers/esp32_dmx/dmx.c:142-153 | Destroy stops first only if running. Afterwards the receiver is not running. |
| `Dmx.ReceiveFrame` | drivers/esp32_dmx/dmx.c:53-91 | A break and then a frame in one data event, delivered by the driver and taken by two loop turns. The channel bytes land in slots 0 onwards and the rest of the table is kept. The cursor moves on by their number, because the break keeps it. The state is `RECEIVING_CHANNELS`, and buffer and queue are empty. |
| `Dmx.Create` | drivers/esp32_dmx/dmx.c:107-140 | Create yields no receiver exactly when one of the four UART configuration steps fails. Otherwise it yields a fresh, not running receiver in the `Init()` state. |
| `Dmx.GetValue` | drivers/esp32_dmx/dmx.c:173-183 | GetValue returns 0 for no receiver or a channel outside 1..512. Otherwise it returns slot channel-1 of the table. It reads and never writes. |

## Left out

- FreeRTOS task creation, the blocking `xQueueReceive` wait, `xTaskAbortDelay` and the quit semaphore are concurrency and cancellation. The loop is modelled as a sequence of `Step` calls. An empty queue is taken as the aborted wait that ends the loop.
- Calling start twice, which would spawn a second task, is concurrency and is not modelled.
- `Dmx.Create`: the UART configuration calls are foreign ESP-IDF calls. They are modelled only as the four success flags. The baud rate, framing, pins and RS-485 mode they set are not modelled.
- `Dmx.Receiver.Destroy`: releasing the UART driver and the event queue and freeing the object are resource management and are not modelled.
- Bytes that arrive while the loop runs between a flush and a read are not modelled. The receive buffer changes only through the modelled calls and `Deliver`.
- Concurrent, unlocked reads of the table by other threads, and torn reads, are not modelled. `GetValue` is verified sequentially.
- The MicroPython binding (`drivers/esp32_dmx/mp_dmx.c`) and its per-UART registry are not part of this model.
- A kept cursor between 512-L and 512, for a frame of L channels: only the per-event lemmas cover it. No whole-frame lemma covers this range.
- The UART driver's own buffering limits (2048-byte ring buffer, 10-event queue) are not modelled. The buffer and the queue are unbounded sequences.

## Findings

| source | as written | input that shows it | evidently intended | confidence | as-written member | corrected member |
|---|---|---|---|---|---|---|
| drivers/esp32_dmx/dmx.c:86-91 | A break never resets `current_channel`, and line 67 adds to it. So each frame is decoded from where the previous frame's cursor stopped. | From creation: Break, `[0, 0xAA, 0xBB]` as `Data(3)`, Break, `[0, 0xCC]` as `Data(2)`, `[0xDD]` as `Data(1)`. 0xDD lands in channel 4 instead of channel 2. After a full 512-channel frame the cursor is 512, and a break keeps it. The next frame then keeps only its first data event. Its next data event is dropped as oversize (`DmxSpec.FrameAfterFullCursor`). | The cursor is reset to 0 at each break, so every frame lands in channels 1..L. | not executed; high | `DmxSpec.SecondFrameMisplaced` | `DmxSpec.NextIntended` |

The class `Dmx.Receiver` follows the code as written. `DmxSpec.NextIntended` is
the corrected step. It differs from `DmxSpec.Next` only by the reset on a break,
and `DmxSpec.IntendedFrameLands` proves the intended property for it.
