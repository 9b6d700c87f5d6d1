/** The interrupt-driven UART: two rings shared with an interrupt handler that may run between any two statements. */
module UartDriver {
  type Byte = n: nat | n < 0x100

  /** UART_BUFFER_SIZE */
  const SIZE := 16

  datatype Bit = RxInt | TxInt

  /** A byte on the wire, and whether it came with an error. */
  datatype Arrival = Arrival(data: Byte, error: bool)

  /** What happens at the device: a byte comes in, or it interrupts. */
  datatype Fire = Arrives(a: Arrival) | RxReady | TxReady | Spurious

  /** The bytes that came in. */
  function Arrivals(fs: seq<Fire>): seq<Arrival> {
    if fs == [] then []
    else
      var f := fs[|fs| - 1];
      Arrivals(fs[..|fs| - 1]) + (if f.Arrives? then [f.a] else [])
  }

  /** Those of them without an error. */
  function Clean(arrivals: seq<Arrival>): seq<Byte> {
    if arrivals == [] then []
    else
      var a := arrivals[|arrivals| - 1];
      Clean(arrivals[..|arrivals| - 1]) + (if a.error then [] else [a.data])
  }

  lemma OneMoreFire(fs: seq<Fire>, f: Fire)
    ensures Arrivals(fs + [f]) == Arrivals(fs) + (if f.Arrives? then [f.a] else [])
  {
    assert (fs + [f])[..|fs|] == fs;
  }

  lemma OneMoreByte(arrivals: seq<Arrival>, a: Arrival)
    ensures Clean(arrivals + [a]) == Clean(arrivals) + (if a.error then [] else [a.data])
  {
    assert (arrivals + [a])[..|arrivals|] == arrivals;
  }

  lemma {:induction false} CleanJoin(a: seq<Arrival>, b: seq<Arrival>)
    ensures Clean(a + b) == Clean(a) + Clean(b)
    decreases |b|
  {
    if b == [] {
      assert a + b == a;
    } else {
      var n := |b| - 1;
      CleanJoin(a, b[..n]);
      assert a + b == (a + b[..n]) + [b[n]] && b == b[..n] + [b[n]];
      OneMoreByte(a + b[..n], b[n]);
      OneMoreByte(b[..n], b[n]);
    }
  }

  /** A schedule's batches one after another. */
  function Flat(batches: seq<seq<Fire>>): seq<Fire> {
    if batches == [] then [] else batches[0] + Flat(batches[1..])
  }

  /** What the handler works on: bytes held by the device, bytes received without error, and how many bytes wait unread
      and unsent in the rings. */
  datatype Ports = Ports(held: seq<Arrival>, received: seq<Byte>, unread: nat, unsent: nat)

  /** What one event makes of it: a byte comes in; or the oldest byte held is received unless it has an error, if the
      ring has room; or as many unsent bytes as the device takes are sent. */
  function Fired(p: Ports, f: Fire, takes: nat): Ports {
    match f
    case Arrives(a) => p.(held := p.held + [a])
    case RxReady =>
      if p.held == [] || p.unread >= SIZE then p
      else if p.held[0].error then p.(held := p.held[1..])
      else Ports(p.held[1..], p.received + [p.held[0].data], p.unread + 1, p.unsent)
    case TxReady => p.(unsent := if p.unsent > takes then p.unsent - takes else 0)
    case Spurious => p
  }

  function FiredAll(p: Ports, fires: seq<Fire>, takes: nat): Ports {
    if fires == [] then p else Fired(FiredAll(p, fires[..|fires| - 1], takes), fires[|fires| - 1], takes)
  }

  function Repeat(f: Fire, n: nat): (fs: seq<Fire>)
    ensures |fs| == n && forall k :: 0 <= k < n ==> fs[k] == f
  {
    seq(n, k => f)
  }

  /** While the ring has room, n receive interrupts take in the n oldest bytes of the device, those without error in
      order; so a byte that has come in is received once the bytes before it are. */
  lemma {:induction false} ReceivesInOrder(p: Ports, n: nat, takes: nat)
    requires n <= |p.held| && p.unread + n <= SIZE
    ensures var z := FiredAll(p, Repeat(RxReady, n), takes);
            && z.held == p.held[n..] && z.received == p.received + Clean(p.held[..n])
            && z.unread <= p.unread + n && z.unsent == p.unsent
  {
    if n > 0 {
      ReceivesInOrder(p, n - 1, takes);
      assert Repeat(RxReady, n)[..n - 1] == Repeat(RxReady, n - 1);
      assert p.held[..n] == p.held[..n - 1] + [p.held[n - 1]];
      OneMoreByte(p.held[..n - 1], p.held[n - 1]);
    }
  }

  /** With n transmit interrupts, all unsent bytes are sent if the device takes that many. */
  lemma {:induction false} SendsAll(p: Ports, n: nat, takes: nat)
    ensures FiredAll(p, Repeat(TxReady, n), takes).unsent == if p.unsent > n * takes then p.unsent - n * takes else 0
  {
    if n > 0 {
      SendsAll(p, n - 1, takes);
      assert Repeat(TxReady, n)[..n - 1] == Repeat(TxReady, n - 1);
      assert n * takes == (n - 1) * takes + takes;
    }
  }

  /** uart_getc and uart_putc results; Pending is a caller still waiting when the schedule of interrupts ends. */
  datatype Status = Ok | WouldBlock | Pending

  /** Where a ring position stands after n steps. */
  function Slot(n: nat): (p: nat)
    ensures p < SIZE
  {
    if n == 0 then 0 else if Slot(n - 1) + 1 >= SIZE then 0 else Slot(n - 1) + 1
  }

  lemma {:induction false} SlotIsRemainder(n: nat)
    ensures Slot(n) == n % SIZE
  {
    if n > 0 {
      SlotIsRemainder(n - 1);
      var q, r := (n - 1) / SIZE, (n - 1) % SIZE;
      assert n == SIZE * q + (r + 1);
    }
  }

  /** Byte k of the history is in its slot. */
  predicate InSlot(buf: seq<Byte>, hist: seq<Byte>, k: nat)
    requires |buf| == SIZE && k < |hist|
  {
    buf[Slot(k)] == hist[k]
  }

  /** From position `from` on, every byte of the history is in its slot. */
  predicate Stored(buf: seq<Byte>, hist: seq<Byte>, from: nat)
    requires |buf| == SIZE
  {
    forall k :: from <= k < |hist| ==> InSlot(buf, hist, k)
  }

  /** The next slot is free while fewer than SIZE bytes are unread: writing it loses none of them. */
  lemma WriteKeepsStored(buf: seq<Byte>, hist: seq<Byte>, from: nat, b: Byte)
    requires |buf| == SIZE && from <= |hist| < from + SIZE && Stored(buf, hist, from)
    ensures Stored(buf[Slot(|hist|) := b], hist, from)
  {
    var buf' := buf[Slot(|hist|) := b];
    forall k | from <= k < |hist| ensures InSlot(buf', hist, k) {
      assert InSlot(buf, hist, k);
      SlotIsRemainder(k);
      SlotIsRemainder(|hist|);
    }
  }

  /** Counting a byte that is already in the next slot. */
  lemma CountKeepsStored(buf: seq<Byte>, hist: seq<Byte>, from: nat)
    requires |buf| == SIZE && Stored(buf, hist, from)
    ensures Stored(buf, hist + [buf[Slot(|hist|)]], from)
  {
    var hist' := hist + [buf[Slot(|hist|)]];
    forall k | from <= k < |hist'| ensures InSlot(buf, hist', k) {
      if k < |hist| { assert InSlot(buf, hist, k); }
    }
  }

  class Uart {
    const rxBuffer: array<Byte>
    const txBuffer: array<Byte>
    var rxWriteLoc: nat
    var rxReadLoc: nat
    var txWriteLoc: nat
    var txReadLoc: nat
    var txDataBytes: nat
    var rxDataBytes: nat
    var ier: set<Bit>
    var fifoEnable: bool
    var blockingTx: bool
    var blockingRx: bool

    /** The device's own interrupt enables. */
    var devIer: set<Bit>

    /** Bytes in the device, not yet read. */
    var held: seq<Arrival>

    /** What is to happen, one batch for each point at which the handler may run. */
    var upcoming: seq<seq<Fire>>

    /** All that was to happen, what of it has, and what is left of the batch in hand. */
    ghost const schedule: seq<seq<Fire>>
    ghost var past: seq<Fire>
    ghost var left: seq<Fire>

    /** Bytes the handler read from the device. */
    ghost var taken: seq<Arrival>

    /** Bytes accepted by Putc, written to the device, read without error by the handler, returned by Getc. */
    ghost var accepted: seq<Byte>
    ghost var sent: seq<Byte>
    ghost var received: seq<Byte>
    ghost var returned: seq<Byte>

    /** The device has given every byte that came in, in order, or still holds it; those without error count. */
    ghost predicate Heard()
      reads this`past, this`left, this`upcoming, this`held, this`taken, this`received
    {
      && past + left + Flat(upcoming) == Flat(schedule)
      && Arrivals(past) == taken + held && received == Clean(taken)
    }

    /** What holds wherever the handler may run. */
    ghost predicate Shared()
      reads this`accepted, this`sent, this`received, this`returned, this`txReadLoc, this`txDataBytes
      reads this`rxWriteLoc, this`rxDataBytes, this`ier, this`devIer, rxBuffer, txBuffer
      reads this`past, this`left, this`upcoming, this`held, this`taken
    {
      Rings() && Heard()
    }

    ghost predicate Rings()
      reads this`accepted, this`sent, this`received, this`returned, this`txReadLoc, this`txDataBytes
      reads this`rxWriteLoc, this`rxDataBytes, this`ier, this`devIer, rxBuffer, txBuffer
    {
      && rxBuffer.Length == SIZE && txBuffer.Length == SIZE && rxBuffer != txBuffer
      && sent <= accepted && txDataBytes == |accepted| - |sent| <= SIZE
      && txReadLoc == Slot(|sent|) && Stored(txBuffer[..], accepted, |sent|)
      && returned <= received && rxDataBytes == |received| - |returned| <= SIZE
      && rxWriteLoc == Slot(|received|) && Stored(rxBuffer[..], received, |returned|)
      && devIer == ier && Wake()
    }

    /** Nothing queued is stranded, and nothing is read that has no place. */
    ghost predicate Wake()
      reads this`ier, this`txDataBytes, this`rxDataBytes
    {
      && (TxInt in ier <==> txDataBytes > 0)
      && (RxInt in ier <==> rxDataBytes < SIZE)
    }

    /** Between calls the caller's own positions agree with the histories too. */
    ghost predicate Valid()
      reads this, rxBuffer, txBuffer
    {
      Shared() && left == [] && txWriteLoc == Slot(|accepted|) && rxReadLoc == Slot(|returned|)
    }

    /** The part of the state that the handler works on. */
    ghost function State(): Ports
      reads this`held, this`received, this`rxDataBytes, this`txDataBytes
    {
      Ports(held, received, rxDataBytes, txDataBytes)
    }

    /** Bytes the device takes at once. */
    ghost function Takes(): nat
      reads this`fifoEnable
    {
      if fifoEnable then 16 else 1
    }

    /** uart_init with interrupts available. */
    constructor (fifoEnable: bool, blockingRx: bool, schedule: seq<seq<Fire>>)
      ensures Valid() && fresh(rxBuffer) && fresh(txBuffer)
      ensures accepted == [] && sent == [] && received == [] && returned == [] && upcoming == schedule
      ensures this.schedule == schedule && past == [] && held == []
      ensures ier == {RxInt} && blockingTx && this.blockingRx == blockingRx && this.fifoEnable == fifoEnable
    {
      rxBuffer := new Byte[SIZE];
      txBuffer := new Byte[SIZE];
      this.fifoEnable, this.blockingRx, blockingTx := fifoEnable, blockingRx, true;
      txDataBytes, rxDataBytes := 0, 0;
      txReadLoc, txWriteLoc, rxReadLoc, rxWriteLoc := 0, 0, 0, 0;
      ier, devIer := {RxInt}, {RxInt};
      upcoming := schedule;
      this.schedule := schedule;
      past, left, held, taken := [], [], [], [];
      accepted, sent, received, returned := [], [], [], [];
    }

    /** The byte just stored counts; a full ring turns the receive interrupt off. */
    method CountReceived(ghost data: Byte)
      requires Rings() && rxDataBytes < SIZE && rxBuffer[Slot(|received|)] == data
      modifies this`rxWriteLoc, this`rxDataBytes, this`ier, this`devIer, this`received
      ensures Rings() && received == old(received) + [data] && rxDataBytes == old(rxDataBytes) + 1
    {
      CountKeepsStored(rxBuffer[..], received, |returned|);
      received := received + [data];
      rxWriteLoc := rxWriteLoc + 1;
      if rxWriteLoc >= SIZE { rxWriteLoc := 0; }
      rxDataBytes := rxDataBytes + 1;
      if rxDataBytes == SIZE {
        ier := ier - {RxInt};
        devIer := ier;
      }
    }

    /** A byte goes into the ring, and counts if it came without error. */
    method Keep(a: Arrival)
      requires Rings() && rxDataBytes < SIZE
      modifies this`rxWriteLoc, this`rxDataBytes, this`ier, this`devIer, this`received, rxBuffer
      ensures Rings() && received == if a.error then old(received) else old(received) + [a.data]
      ensures rxDataBytes == if a.error then old(rxDataBytes) else old(rxDataBytes) + 1
    {
      WriteKeepsStored(rxBuffer[..], received, |returned|, a.data);
      ghost var slot := rxBuffer[..][Slot(|received|) := a.data];
      rxBuffer[rxWriteLoc] := a.data;
      assert rxBuffer[..] == slot;
      if !a.error { CountReceived(a.data); }
    }

    /** The receive half of uart_isr: the device's oldest byte is read, and dropped if it has an error. */
    method IsrReceive()
      requires Shared() && RxInt in devIer && held != []
      modifies this`rxWriteLoc, this`rxDataBytes, this`ier, this`devIer, this`received, this`held, this`taken, rxBuffer
      ensures Shared() && held == old(held)[1..]
      ensures received == if old(held)[0].error then old(received) else old(received) + [old(held)[0].data]
      ensures State() == Fired(old(State()), RxReady, Takes())
    {
      Keep(held[0]);
      Drop();
    }

    /** The byte just kept is the device's no more. */
    method Drop()
      requires Rings() && held != [] && past + left + Flat(upcoming) == Flat(schedule) && Arrivals(past) == taken + held
      requires received == Clean(taken) + (if held[0].error then [] else [held[0].data])
      modifies this`held, this`taken
      ensures Shared() && held == old(held)[1..]
    {
      OneMoreByte(taken, held[0]);
      assert taken + held == (taken + [held[0]]) + held[1..];
      held, taken := held[1..], taken + [held[0]];
    }

    /** One byte from the ring to the device; the last one turns the transmit interrupt off first. */
    method SendOldest()
      requires Rings() && txDataBytes > 0
      modifies this`txReadLoc, this`txDataBytes, this`ier, this`devIer, this`sent
      ensures Rings() && txDataBytes == old(txDataBytes) - 1
      ensures sent == accepted[..|old(sent)| + 1]
    {
      if txDataBytes == 1 {
        ier := ier - {TxInt};
        devIer := ier;
      }
      assert InSlot(txBuffer[..], accepted, |sent|);
      sent := sent + [txBuffer[txReadLoc]];
      txReadLoc := txReadLoc + 1;
      if txReadLoc >= SIZE { txReadLoc := 0; }
      txDataBytes := txDataBytes - 1;
    }

    /** The transmit half of uart_isr: up to a FIFO's worth of the queued bytes, oldest first. */
    method IsrTransmit()
      requires Rings()
      modifies this`txReadLoc, this`txDataBytes, this`ier, this`devIer, this`sent
      ensures Rings()
      ensures var room := if fifoEnable then 16 else 1;
              sent == accepted[..if old(txDataBytes) > room then |old(sent)| + room else |accepted|]
      ensures State() == Fired(old(State()), TxReady, Takes())
    {
      var count: nat := if fifoEnable then txDataBytes else if txDataBytes == 0 then 0 else 1;
      ghost var goal := |sent| + count;
      while count != 0
        invariant Rings()
        invariant |sent| + count == goal <= |accepted|
      {
        SendOldest();
        count := count - 1;
        if txDataBytes == 0 { break; }
      }
    }

    /** A byte comes in at the device. */
    method Arrive(a: Arrival)
      requires Shared() && left != [] && left[0] == Arrives(a)
      modifies this`held, this`past, this`left
      ensures Shared() && held == old(held) + [a] && left == old(left)[1..]
    {
      OneMoreFire(past, left[0]);
      assert past + left == (past + [left[0]]) + left[1..];
      held, past, left := held + [a], past + [left[0]], left[1..];
    }

    /** The next thing to happen happens, and brings no byte. */
    ghost method Pass()
      requires Shared() && left != [] && !left[0].Arrives?
      modifies this`past, this`left
      ensures Shared() && left == old(left)[1..]
    {
      OneMoreFire(past, left[0]);
      assert past + left == (past + [left[0]]) + left[1..];
      past, left := past + [left[0]], left[1..];
    }

    method ReceiveIfAny()
      requires Shared()
      modifies this`rxWriteLoc, this`rxDataBytes, this`ier, this`devIer, this`received, this`held, this`taken, rxBuffer
      ensures Shared() && State() == Fired(old(State()), RxReady, Takes())
      ensures old(received) <= received && rxDataBytes >= old(rxDataBytes)
    {
      if RxInt in devIer && held != [] { IsrReceive(); }
    }

    /** uart_isr, or a byte coming in; the device raises RXRDY only with a byte and its receive interrupt enabled. */
    method Isr(f: Fire)
      requires Shared() && left != [] && left[0] == f
      modifies this`rxWriteLoc, this`rxDataBytes, this`received, this`txReadLoc, this`txDataBytes, this`sent
      modifies this`ier, this`devIer, this`past, this`left, this`held, this`taken, rxBuffer
      ensures Shared() && left == old(left)[1..]
      ensures State() == Fired(old(State()), f, Takes())
      ensures |old(sent)| <= |sent| && old(received) <= received
      ensures txDataBytes <= old(txDataBytes) && rxDataBytes >= old(rxDataBytes)
    {
      if f.Arrives? {
        Arrive(f.a);
      } else {
        Pass();
        if f.RxReady? { ReceiveIfAny(); } else if f.TxReady? { IsrTransmit(); }
      }
    }

    /** The next batch is in hand. */
    method Load() returns (fires: seq<Fire>)
      requires Shared() && upcoming != [] && left == []
      modifies this`left, this`upcoming
      ensures Shared() && left == fires == old(upcoming)[0] && upcoming == old(upcoming)[1..]
    {
      assert past + left + Flat(upcoming) == past + upcoming[0] + Flat(upcoming[1..]);
      fires := upcoming[0];
      upcoming, left := upcoming[1..], fires;
    }

    /** A point at which the handler may run, any number of times. */
    method Preempt()
      requires Shared() && left == []
      modifies this`rxWriteLoc, this`rxDataBytes, this`received, this`txReadLoc, this`txDataBytes, this`sent
      modifies this`ier, this`devIer, this`upcoming, this`past, this`left, this`held, this`taken, rxBuffer
      ensures Shared() && left == []
      ensures upcoming == if old(upcoming) == [] then [] else old(upcoming)[1..]
      ensures State() == FiredAll(old(State()), if old(upcoming) == [] then [] else old(upcoming)[0], Takes())
      ensures |old(sent)| <= |sent| && old(received) <= received
      ensures txDataBytes <= old(txDataBytes) && rxDataBytes >= old(rxDataBytes)
    {
      if upcoming != [] {
        var fires := Load();
        for i := 0 to |fires|
          invariant Shared() && left == fires[i..] && upcoming == old(upcoming)[1..]
          invariant State() == FiredAll(old(State()), fires[..i], Takes())
          invariant |old(sent)| <= |sent| && old(received) <= received
          invariant txDataBytes <= old(txDataBytes) && rxDataBytes >= old(rxDataBytes)
        {
          assert fires[..i + 1][..i] == fires[..i];
          Isr(fires[i]);
        }
        assert fires[..|fires|] == fires;
      }
    }

    /** The byte goes into the ring, where the handler does not count it yet. */
    method Stage(c: Byte)
      requires Valid() && txDataBytes < SIZE
      modifies txBuffer
      ensures Valid() && txBuffer[Slot(|accepted|)] == c
    {
      WriteKeepsStored(txBuffer[..], accepted, |sent|, c);
      ghost var slot := txBuffer[..][Slot(|accepted|) := c];
      txBuffer[txWriteLoc] := c;
      assert txBuffer[..] == slot;
    }

    /** The write position moves on. */
    method AdvanceWrite()
      requires Valid() && txDataBytes < SIZE
      modifies this`rxWriteLoc, this`rxDataBytes, this`received, this`txReadLoc, this`txDataBytes, this`sent
      modifies this`past, this`left, this`held, this`taken
      modifies this`ier, this`devIer, this`upcoming, this`txWriteLoc, rxBuffer
      ensures Shared() && left == [] && txDataBytes < SIZE && txWriteLoc == Slot(|accepted| + 1)
      ensures |old(sent)| <= |sent| && old(received) <= received
    {
      txWriteLoc := txWriteLoc + 1;
      Preempt();
      WrapWrite();
    }

    method WrapWrite()
      requires Shared() && left == [] && txDataBytes < SIZE && txWriteLoc == Slot(|accepted|) + 1
      modifies this`rxWriteLoc, this`rxDataBytes, this`received, this`txReadLoc, this`txDataBytes, this`sent
      modifies this`past, this`left, this`held, this`taken
      modifies this`ier, this`devIer, this`upcoming, this`txWriteLoc, rxBuffer
      ensures Shared() && left == [] && txDataBytes < SIZE && txWriteLoc == Slot(|accepted| + 1)
      ensures |old(sent)| <= |sent| && old(received) <= received
    {
      if txWriteLoc >= SIZE {
        Preempt();
        txWriteLoc := 0;
      }
      Preempt();
    }

    /** The masked region of uart_putc: the byte counts, and the transmit interrupt is on. */
    method CountIn(ghost c: Byte)
      requires Rings() && txDataBytes < SIZE && txBuffer[Slot(|accepted|)] == c
      modifies this`txDataBytes, this`accepted, this`ier, this`devIer
      ensures Rings() && accepted == old(accepted) + [c]
    {
      CountKeepsStored(txBuffer[..], accepted, |sent|);
      txDataBytes := txDataBytes + 1;
      accepted := accepted + [c];
      ier := ier + {TxInt};
      devIer := ier;
    }

    /** The wait at the head of uart_putc. */
    method AwaitRoom() returns (r: Status)
      requires Valid()
      modifies this`rxWriteLoc, this`rxDataBytes, this`received, this`txReadLoc, this`txDataBytes, this`sent
      modifies this`past, this`left, this`held, this`taken
      modifies this`ier, this`devIer, this`upcoming, rxBuffer
      ensures Valid() && |old(sent)| <= |sent| && old(received) <= received
      ensures r == Ok ==> txDataBytes < SIZE
      ensures old(txDataBytes) < SIZE ==> r == Ok
      ensures r == WouldBlock ==> !blockingTx && txDataBytes == SIZE
      ensures r == Pending ==> blockingTx && upcoming == [] && txDataBytes == SIZE
    {
      Preempt();
      while txDataBytes == SIZE
        invariant Valid() && |old(sent)| <= |sent| && old(received) <= received && txDataBytes <= old(txDataBytes)
        decreases |upcoming|
      {
        if !blockingTx { return WouldBlock; }
        if upcoming == [] { return Pending; }
        Preempt();
      }
      return Ok;
    }

    /** The body of uart_putc once there is room. */
    method Give(c: Byte)
      requires Valid() && txDataBytes < SIZE
      modifies this`rxWriteLoc, this`rxDataBytes, this`received, this`txReadLoc, this`txDataBytes, this`sent
      modifies this`past, this`left, this`held, this`taken
      modifies this`ier, this`devIer, this`upcoming, this`txWriteLoc, this`accepted, rxBuffer, txBuffer
      ensures Valid() && accepted == old(accepted) + [c]
      ensures |old(sent)| <= |sent| && old(received) <= received
    {
      Preempt();
      Place(c);
      Commit(c);
    }

    /** The placed byte counts. */
    method Commit(c: Byte)
      requires Shared() && left == [] && txDataBytes < SIZE && txWriteLoc == Slot(|accepted| + 1)
      requires rxReadLoc == Slot(|returned|) && txBuffer[Slot(|accepted|)] == c
      modifies this`rxWriteLoc, this`rxDataBytes, this`received, this`txReadLoc, this`txDataBytes, this`sent
      modifies this`past, this`left, this`held, this`taken
      modifies this`ier, this`devIer, this`upcoming, this`accepted, rxBuffer
      ensures Valid() && accepted == old(accepted) + [c]
      ensures |old(sent)| <= |sent| && old(received) <= received
    {
      CountIn(c);
      Preempt();
    }

    /** Store, then move on. */
    method Place(c: Byte)
      requires Valid() && txDataBytes < SIZE
      modifies this`rxWriteLoc, this`rxDataBytes, this`received, this`txReadLoc, this`txDataBytes, this`sent
      modifies this`past, this`left, this`held, this`taken
      modifies this`ier, this`devIer, this`upcoming, this`txWriteLoc, rxBuffer, txBuffer
      ensures Shared() && left == [] && txDataBytes < SIZE && txWriteLoc == Slot(|accepted| + 1)
      ensures txBuffer[Slot(|accepted|)] == c
      ensures |old(sent)| <= |sent| && old(received) <= received
    {
      Stage(c);
      Preempt();
      AdvanceWrite();
    }

    /** uart_putc: the byte is accepted whenever there is room for it, or nothing is. */
    method Putc(c: Byte) returns (r: Status)
      requires Valid()
      modifies this`rxWriteLoc, this`rxDataBytes, this`received, this`txReadLoc, this`txDataBytes, this`sent
      modifies this`past, this`left, this`held, this`taken
      modifies this`ier, this`devIer, this`upcoming, this`txWriteLoc, this`accepted, rxBuffer, txBuffer
      ensures Valid()
      ensures accepted == if r == Ok then old(accepted) + [c] else old(accepted)
      ensures |old(sent)| <= |sent| && old(received) <= received
      ensures old(txDataBytes) < SIZE ==> r == Ok
      ensures r == WouldBlock ==> !blockingTx && txDataBytes == SIZE
      ensures r == Pending ==> blockingTx && upcoming == [] && txDataBytes == SIZE
    {
      r := AwaitRoom();
      if r == Ok { Give(c); }
    }

    /** The oldest unread byte is copied out. */
    method ReadOldest() returns (c: Byte)
      requires Valid() && rxDataBytes > 0
      modifies this`rxWriteLoc, this`rxDataBytes, this`received, this`txReadLoc, this`txDataBytes, this`sent
      modifies this`past, this`left, this`held, this`taken
      modifies this`ier, this`devIer, this`upcoming, rxBuffer
      ensures Valid() && rxDataBytes > 0 && c == received[|returned|]
      ensures |old(sent)| <= |sent| && old(received) <= received
    {
      Preempt();
      assert InSlot(rxBuffer[..], received, |returned|);
      c := rxBuffer[rxReadLoc];
      Preempt();
    }

    /** It leaves the ring, where the handler still counts it. */
    method AdvanceRead()
      requires Valid() && rxDataBytes > 0
      modifies this`rxWriteLoc, this`rxDataBytes, this`received, this`txReadLoc, this`txDataBytes, this`sent
      modifies this`past, this`left, this`held, this`taken
      modifies this`ier, this`devIer, this`upcoming, this`rxReadLoc, rxBuffer
      ensures Shared() && left == [] && rxDataBytes > 0 && rxReadLoc == Slot(|returned| + 1)
      ensures |old(sent)| <= |sent| && old(received) <= received
    {
      rxReadLoc := rxReadLoc + 1;
      Preempt();
      WrapRead();
    }

    method WrapRead()
      requires Shared() && left == [] && rxDataBytes > 0 && rxReadLoc == Slot(|returned|) + 1
      modifies this`rxWriteLoc, this`rxDataBytes, this`received, this`txReadLoc, this`txDataBytes, this`sent
      modifies this`past, this`left, this`held, this`taken
      modifies this`ier, this`devIer, this`upcoming, this`rxReadLoc, rxBuffer
      ensures Shared() && left == [] && rxDataBytes > 0 && rxReadLoc == Slot(|returned| + 1)
      ensures |old(sent)| <= |sent| && old(received) <= received
    {
      if rxReadLoc >= SIZE {
        Preempt();
        rxReadLoc := 0;
      }
      Preempt();
    }

    /** The masked region of uart_getc: the byte no longer counts, and there is room for another. */
    method CountOut(ghost c: Byte)
      requires Rings() && rxDataBytes > 0 && c == received[|returned|]
      modifies this`rxDataBytes, this`returned, this`ier, this`devIer
      ensures Rings() && returned == old(returned) + [c]
    {
      rxDataBytes := rxDataBytes - 1;
      returned := returned + [c];
      ier := ier + {RxInt};
      devIer := ier;
    }

    /** The body of uart_getc once a byte is there. */
    method Take() returns (c: Byte)
      requires Valid() && rxDataBytes > 0
      modifies this`rxWriteLoc, this`rxDataBytes, this`received, this`txReadLoc, this`txDataBytes, this`sent
      modifies this`past, this`left, this`held, this`taken
      modifies this`ier, this`devIer, this`upcoming, this`rxReadLoc, this`returned, rxBuffer
      ensures Valid() && returned == old(returned) + [c]
      ensures |old(sent)| <= |sent| && old(received) <= received
    {
      c := ReadOldest();
      AdvanceRead();
      Release(c);
    }

    /** The byte read no longer counts. */
    method Release(ghost c: Byte)
      requires Shared() && left == [] && rxDataBytes > 0 && c == received[|returned|]
      requires rxReadLoc == Slot(|returned| + 1) && txWriteLoc == Slot(|accepted|)
      modifies this`rxWriteLoc, this`rxDataBytes, this`received, this`txReadLoc, this`txDataBytes, this`sent
      modifies this`past, this`left, this`held, this`taken
      modifies this`ier, this`devIer, this`upcoming, this`returned, rxBuffer
      ensures Valid() && returned == old(returned) + [c]
      ensures |old(sent)| <= |sent| && old(received) <= received
    {
      CountOut(c);
      Preempt();
    }

    /** uart_getc: the oldest unread byte whenever there is one, or none. */
    method Getc() returns (r: Status, c: Byte)
      requires Valid()
      modifies this`rxWriteLoc, this`rxDataBytes, this`received, this`txReadLoc, this`txDataBytes, this`sent
      modifies this`past, this`left, this`held, this`taken
      modifies this`ier, this`devIer, this`upcoming, this`rxReadLoc, this`returned, rxBuffer
      ensures Valid()
      ensures returned == if r == Ok then old(returned) + [c] else old(returned)
      ensures |old(sent)| <= |sent| && old(received) <= received
      ensures old(rxDataBytes) > 0 ==> r == Ok
      ensures r == WouldBlock ==> !blockingRx && rxDataBytes == 0
      ensures r == Pending ==> blockingRx && upcoming == [] && rxDataBytes == 0
    {
      c := 0;
      while true
        invariant Valid() && returned == old(returned) && rxDataBytes >= old(rxDataBytes)
        invariant |old(sent)| <= |sent| && old(received) <= received
        decreases |upcoming|
      {
        var exhausted := upcoming == [];
        Preempt();
        if rxDataBytes > 0 {
          c := Take();
          return Ok, c;
        }
        if !blockingRx { return WouldBlock, c; }
        if exhausted { return Pending, c; }
      }
    }
  }

  datatype Call = Put(c: Byte) | Get

  datatype Result = Result(status: Status, c: Byte)

  /** The bytes a session's successful puts offered, in order. */
  function Offered(calls: seq<Call>, results: seq<Result>): seq<Byte>
    requires |calls| == |results|
  {
    if calls == [] then []
    else
      var n := |calls| - 1;
      Offered(calls[..n], results[..n]) +
      (if calls[n].Put? && results[n].status == Ok then [calls[n].c] else [])
  }

  /** The bytes a session's successful gets returned, in order. */
  function Taken(calls: seq<Call>, results: seq<Result>): seq<Byte>
    requires |calls| == |results|
  {
    if calls == [] then []
    else
      var n := |calls| - 1;
      Taken(calls[..n], results[..n]) +
      (if calls[n].Get? && results[n].status == Ok then [results[n].c] else [])
  }

  method Do(u: Uart, call: Call) returns (result: Result)
    requires u.Valid()
    modifies u, u.rxBuffer, u.txBuffer
    ensures u.Valid()
    ensures u.accepted == old(u.accepted) + (if call.Put? && result.status == Ok then [call.c] else [])
    ensures u.returned == old(u.returned) + (if call.Get? && result.status == Ok then [result.c] else [])
    ensures |old(u.sent)| <= |u.sent| && old(u.received) <= u.received
    ensures call.Get? && old(u.rxDataBytes) > 0 ==> result.status == Ok
    ensures call.Put? && old(u.txDataBytes) < SIZE ==> result.status == Ok
  {
    match call {
      case Put(c) =>
        var status := u.Putc(c);
        result := Result(status, 0);
      case Get =>
        var status, c := u.Getc();
        result := Result(status, c);
    }
  }

  lemma SessionStep(calls: seq<Call>, results: seq<Result>, call: Call, result: Result)
    requires |calls| == |results|
    ensures Offered(calls + [call], results + [result]) ==
            Offered(calls, results) + (if call.Put? && result.status == Ok then [call.c] else [])
    ensures Taken(calls + [call], results + [result]) ==
            Taken(calls, results) + (if call.Get? && result.status == Ok then [result.c] else [])
  {
    assert (calls + [call])[..|calls|] == calls && (results + [result])[..|results|] == results;
  }

  /** What had been received and sent when each call was made, and that no call fails then without need: a get with a
      received byte unread, or a put with room, succeeds. */
  ghost predicate Served(calls: seq<Call>, results: seq<Result>, heard: seq<seq<Byte>>, gone: seq<seq<Byte>>)
    requires |calls| == |results| == |heard| == |gone|
  {
    forall n :: 0 <= n < |calls| ==> CallServed(calls, results, heard, gone, n)
  }

  ghost predicate CallServed(
    calls: seq<Call>, results: seq<Result>, heard: seq<seq<Byte>>, gone: seq<seq<Byte>>, n: nat)
    requires |calls| == |results| == |heard| == |gone| && n < |calls|
  {
    && (calls[n].Get? && |heard[n]| > |Taken(calls[..n], results[..n])| ==> results[n].status == Ok)
    && (calls[n].Put? && |Offered(calls[..n], results[..n])| - |gone[n]| < SIZE ==> results[n].status == Ok)
  }

  lemma ServedMore(calls: seq<Call>, results: seq<Result>, heard: seq<seq<Byte>>, gone: seq<seq<Byte>>,
                   call: Call, result: Result, h: seq<Byte>, g: seq<Byte>)
    requires |calls| == |results| == |heard| == |gone| && Served(calls, results, heard, gone)
    requires call.Get? && |h| > |Taken(calls, results)| ==> result.status == Ok
    requires call.Put? && |Offered(calls, results)| - |g| < SIZE ==> result.status == Ok
    ensures Served(calls + [call], results + [result], heard + [h], gone + [g])
  {
    var cs, rs, hs, gs := calls + [call], results + [result], heard + [h], gone + [g];
    forall n | 0 <= n < |cs| ensures CallServed(cs, rs, hs, gs, n) {
      if n < |calls| {
        assert CallServed(calls, results, heard, gone, n);
        assert cs[..n] == calls[..n] && rs[..n] == results[..n];
      } else {
        assert cs[..n] == calls && rs[..n] == results;
      }
    }
  }

  /** These histories are earlier states of this one. */
  ghost predicate Earlier(hs: seq<seq<Byte>>, now: seq<Byte>) { forall n :: 0 <= n < |hs| ==> hs[n] <= now }

  lemma EarlierMore(hs: seq<seq<Byte>>, h: seq<Byte>, now: seq<Byte>)
    requires Earlier(hs, h) && h <= now
    ensures Earlier(hs + [h], now)
  {
    forall n | 0 <= n < |hs| ensures hs[n] <= now { assert hs[n] <= h; }
  }

  lemma PrefixGrows(a: seq<Byte>, b: seq<Byte>, a': seq<Byte>, b': seq<Byte>)
    requires a <= b && a' <= b' && b <= b' && |a| <= |a'|
    ensures a <= a'
  {
  }

  /** Where a session has got to. */
  ghost predicate Going(
    u: Uart, calls: seq<Call>, results: seq<Result>, heard: seq<seq<Byte>>, gone: seq<seq<Byte>>)
    reads u, u.rxBuffer, u.txBuffer
  {
    && u.Valid() && |results| == |heard| == |gone| == |calls|
    && u.accepted == Offered(calls, results) && u.returned == Taken(calls, results)
    && Served(calls, results, heard, gone) && Earlier(heard, u.received) && Earlier(gone, u.sent)
  }

  /** One more call. */
  method GoOn(u: Uart, ghost calls: seq<Call>, ghost results: seq<Result>, ghost heard: seq<seq<Byte>>,
              ghost gone: seq<seq<Byte>>, call: Call) returns (result: Result, ghost h: seq<Byte>, ghost g: seq<Byte>)
    requires Going(u, calls, results, heard, gone)
    modifies u, u.rxBuffer, u.txBuffer
    ensures Going(u, calls + [call], results + [result], heard + [h], gone + [g])
  {
    h, g := u.received, u.sent;
    ghost var accepted := u.accepted;
    result := Do(u, call);
    SessionStep(calls, results, call, result);
    ServedMore(calls, results, heard, gone, call, result, h, g);
    PrefixGrows(g, accepted, u.sent, u.accepted);
    EarlierMore(heard, h, u.received);
    EarlierMore(gone, g, u.sent);
  }

  /**
   * Any sequence of calls under any interrupts: what reached the device is a prefix of what the puts offered, and
   * what the gets returned is a prefix of what arrived without error; no get fails while a received byte is unread and
   * no put while there is room; bytes still to be sent keep the transmit interrupt on.
   */
  method Session(u: Uart, calls: seq<Call>)
    returns (results: seq<Result>, ghost heard: seq<seq<Byte>>, ghost gone: seq<seq<Byte>>)
    requires u.Valid() && u.accepted == [] && u.returned == []
    modifies u, u.rxBuffer, u.txBuffer
    ensures u.Valid() && |results| == |heard| == |gone| == |calls|
    ensures u.accepted == Offered(calls, results) && u.sent <= u.accepted
    ensures u.returned == Taken(calls, results) && u.returned <= u.received
    ensures Served(calls, results, heard, gone) && Earlier(heard, u.received) && Earlier(gone, u.sent)
    ensures u.past <= Flat(u.schedule) && Clean(Arrivals(u.past)) == u.received + Clean(u.held)
    ensures TxInt in u.devIer <==> u.sent != u.accepted
  {
    results, heard, gone := [], [], [];
    for n := 0 to |calls|
      invariant Going(u, calls[..n], results, heard, gone)
    {
      var result;
      ghost var h, g;
      result, h, g := GoOn(u, calls[..n], results, heard, gone, calls[n]);
      assert calls[..n] + [calls[n]] == calls[..n + 1];
      results, heard, gone := results + [result], heard + [h], gone + [g];
    }
    assert calls[..|calls|] == calls;
    CleanJoin(u.taken, u.held);
  }
}
