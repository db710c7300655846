/** The DMX512 receiver object of the ESP32 DMX driver: the fields of
    `dmx_struct_t` that the receive loop and the lifecycle calls update in place,
    beside the UART driver's receive buffer and event queue that they drain.
    Every method that runs the loop is proved to do what `DmxSpec.Next` says.
 */
module Dmx {
  import opened DmxSpec

  class Receiver {
    var isRunning: bool
    var state: State
    var cursor: SizeT
    var table: array<bv8>
    /** The UART driver's receive buffer, oldest byte first. */
    var rx: seq<bv8>
    /** The UART driver's event queue, oldest event first. */
    var pending: seq<Event>

    ghost predicate Valid()
      reads this
    {
      table.Length == Channels
    }

    /** Everything the receive loop reads or writes, as a value. */
    ghost function Snap(): Snapshot
      reads this, table
    {
      Snapshot(state, cursor, table[..], rx, pending)
    }

    /** `calloc`: every field zero, so WAIT_BREAK, cursor 0, all channels 0,
        not running; the freshly installed UART driver holds nothing. */
    constructor ()
      ensures Valid() && fresh(table)
      ensures !isRunning && Snap() == Init()
    {
      isRunning := false;
      state := WaitBreak;
      cursor := 0;
      table := new bv8[Channels](_ => 0);
      rx := [];
      pending := [];
      new;
      assert table[..] == Init().table;
    }

    // -------------------------------------------------------------------------
    // The UART driver, as far as the loop uses it

    /** The driver's side: bytes arrive in the receive buffer and an event is
        queued. The size an event reports need not match the bytes buffered. */
    method Deliver(bytes: seq<bv8>, e: Event)
      modifies this`rx, this`pending
      ensures rx == old(rx) + bytes && pending == old(pending) + [e]
    {
      rx := rx + bytes;
      pending := pending + [e];
    }

    /** `uart_flush_input` */
    method FlushInput()
      modifies this`rx
      ensures rx == []
    {
      rx := [];
    }

    /** `xQueueReset` */
    method ResetQueue()
      modifies this`pending
      ensures pending == []
    {
      pending := [];
    }

    /** `uart_read_bytes` into a local buffer, without waiting: the first
        min(k, buffered) bytes are removed and returned. */
    method ReadBytes(k: nat) returns (bytes: seq<bv8>)
      modifies this`rx
      ensures |bytes| == Min(k, |old(rx)|)
      ensures old(rx) == bytes + rx
    {
      bytes := rx[..Min(k, |rx|)];
      rx := rx[|bytes|..];
    }

    /** `uart_read_bytes` into `channel_data + offset`. The requires is the
        bound: every slot the copy writes is below 512. */
    method ReadInto(offset: nat, k: nat)
      requires Valid()
      requires Min(k, |rx|) == 0 || offset + Min(k, |rx|) <= Channels
      modifies this`rx, table
      ensures rx == old(rx)[Min(k, |old(rx)|)..]
      ensures table[..] == Written(old(table[..]), offset, old(rx)[..Min(k, |old(rx)|)])
    {
      var got := ReadBytes(k);
      forall i | offset <= i < offset + |got| {
        table[i] := got[i - offset];
      }
      assert table[..] == Written(old(table[..]), offset, got);
    }

    // -------------------------------------------------------------------------
    // The receive loop

    /** The body of the loop's `switch` for one event. `junk` is what the
        uninitialised start-code local holds when nothing is buffered. */
    method Handle(e: Event, junk: bv8)
      requires Valid()
      modifies this, table
      ensures Valid() && table == old(table) && isRunning == old(isRunning)
      ensures Snap() == Next(old(Snap()), e, junk)
    {
      match e {
        case Data(n) =>
          match state {
            case WaitBreak =>
              FlushInput();
            case WaitStartCode =>
              HandleStartCode(n, junk);
            case ReceivingChannels =>
              HandleChannels(n, junk);
          }
        case Break =>
          FlushInput();
          ResetQueue();
          state := WaitStartCode;
        case BufferFull =>
          FlushInput();
          ResetQueue();
        case Other(_) =>
      }
    }

    /** A data event while waiting for the start code. */
    method HandleStartCode(n: SizeT, junk: bv8)
      requires Valid() && state == WaitStartCode
      modifies this`rx, this`cursor, this`state, table
      ensures Snap() == Next(old(Snap()), Data(n), junk)
    {
      ghost var s := Snap();
      var startCode := junk;
      var code := ReadBytes(1);
      if |code| == 1 {
        startCode := code[0];
      }
      assert startCode == StartCode(s, junk) && rx == s.rx[Min(1, |s.rx|)..];
      if startCode == NullStartCode {
        ReadInto(0, Min(Wrap(n - 1), Channels));
        cursor := Wrap(cursor + n - 1);
        state := ReceivingChannels;
      } else {
        FlushInput();
      }
    }

    /** A data event while receiving channel data. */
    method HandleChannels(n: SizeT, ghost junk: bv8)
      requires Valid() && state == ReceivingChannels
      modifies this`rx, this`cursor, this`state, table
      ensures Snap() == Next(old(Snap()), Data(n), junk)
    {
      if cursor >= Channels {
        // Oversized frame; there is no else, so the read below still runs.
        FlushInput();
        state := WaitBreak;
      }
      ReadInto(cursor, Min(n, Wrap(Channels - cursor)));
      cursor := Wrap(cursor + n);
    }

    /** One turn of the loop: take the oldest queued event and handle it. An
        empty queue is the case where the wait is aborted and the loop ends. */
    method Step(junk: bv8) returns (received: bool)
      requires Valid()
      modifies this, table
      ensures Valid() && table == old(table) && isRunning == old(isRunning)
      ensures received == (old(pending) != [])
      ensures !received ==> Snap() == old(Snap())
      ensures received ==>
        Snap() == Next(old(Snap()).(pending := old(pending)[1..]), old(pending)[0], junk)
    {
      if pending == [] {
        return false;
      }
      var e := pending[0];
      pending := pending[1..];
      Handle(e, junk);
      received := true;
    }

    // -------------------------------------------------------------------------
    // Lifecycle

    /** `dmx_start`: the task begins by dropping buffered bytes and queued
        events; the decode state, cursor and table are left as they are. */
    method Start()
      modifies this`rx, this`pending, this`isRunning
      ensures isRunning && rx == [] && pending == []
    {
      FlushInput();
      ResetQueue();
      isRunning := true;
    }

    /** `dmx_stop`: nothing when not running; otherwise the queue is reset,
        the task ends, and the receiver is no longer running. */
    method Stop()
      modifies this`pending, this`isRunning
      ensures !isRunning
      ensures old(isRunning) ==> pending == []
      ensures !old(isRunning) ==> pending == old(pending)
    {
      if !isRunning {
        return;
      }
      ResetQueue();
      isRunning := false;
    }

    /** `dmx_destroy`, up to releasing its resources: stops first if running. */
    method Destroy()
      modifies this`pending, this`isRunning
      ensures !isRunning
      ensures old(isRunning) ==> pending == []
      ensures !old(isRunning) ==> pending == old(pending)
    {
      if isRunning {
        Stop();
      }
    }
  }

  /** The UART driver delivers a break and then a frame in one data event, and
      the loop takes both: the channel bytes land in slots 0 onwards, the rest
      of the table is kept, and the cursor, which the break does not reset,
      moves on by their number. */
  method ReceiveFrame(dmx: Receiver, first: seq<bv8>, junk: bv8)
    requires dmx.Valid() && dmx.pending == []
    requires |first| <= Channels
    modifies dmx, dmx.table
    ensures dmx.Valid() && dmx.table == old(dmx.table) && dmx.isRunning == old(dmx.isRunning)
    ensures dmx.state == ReceivingChannels && dmx.rx == [] && dmx.pending == []
    ensures dmx.cursor == Wrap(old(dmx.cursor) + |first|)
    ensures dmx.table[..] == Written(old(dmx.table[..]), 0, first)
  {
    dmx.Deliver([], Break);
    var received := dmx.Step(junk);
    ghost var s := dmx.Snap();
    dmx.Deliver([NullStartCode] + first, Data(|first| + 1));
    received := dmx.Step(junk);
    FrameOpens(s, first, junk);
  }

  /** `dmx_create`: the object is allocated zeroed, then each of the four UART
      configuration calls may fail, and any failure yields no receiver. */
  method Create(paramsOk: bool, pinsOk: bool, driverOk: bool, modeOk: bool)
    returns (dmx: Receiver?)
    ensures dmx == null <==> !(paramsOk && pinsOk && driverOk && modeOk)
    ensures dmx != null ==>
      fresh(dmx) && fresh(dmx.table) && dmx.Valid() && !dmx.isRunning && dmx.Snap() == Init()
  {
    dmx := new Receiver();
    if !paramsOk || !pinsOk || !driverOk || !modeOk {
      dmx := null;
    }
  }

  /** `dmx_get_value`: channel c (1 to 512) of the table, and 0 for no receiver
      or a channel out of range. */
  function GetValue(dmx: Receiver?, channel: int): (v: bv8)
    requires dmx != null ==> dmx.Valid()
    reads dmx, if dmx != null then {dmx.table} else {}
    ensures dmx == null || channel < 1 || channel > Channels ==> v == 0
    ensures dmx != null && 1 <= channel <= Channels ==> v == dmx.Snap().table[channel - 1]
  {
    if dmx == null then 0
    else if channel < 1 || channel > Channels then 0
    else dmx.table[channel - 1]
  }
}
