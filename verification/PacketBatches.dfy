// What reading a UDP socket in batches delivers, stated on the datagrams alone:
// no message headers, no buffers, no earlier batch.
module PacketBatches {
  import opened Basics

  const BATCH: nat := 16        // kNumPacketsPerReadMmsgCall
  const NAME_LEN: nat := 128    // sizeof(sockaddr_storage)

  type Address = nat

  // Ancillary data of a datagram; a kernel time of 0 means there is none.
  datatype Control = Control(selfIp: Option<Address>, kernelTime: int, ttl: Option<int>)

  datatype RawDatagram = Datagram(
    payload: Bytes, peer: Address, nameLen: nat, controlLen: nat, control: Control)

  // sockaddr_storage is large enough for any socket address.
  type Datagram = d: RawDatagram | d.nameLen <= NAME_LEN
    witness Datagram([], 0, 0, 0, Control(None, 0, None))

  // Buffer sizes fixed at compile time: kCmsgSpaceForReadPacket and kMaxV4PacketSize.
  datatype Sizes = Sizes(control: nat, buffer: nat)

  // A packet as ProcessPacket receives it.
  datatype Received = Received(
    data: Bytes, timestamp: int, ttl: Option<int>, peer: Address, selfIp: Address, port: nat)

  // Successive Now() readings, and ConvertWallTimeToQuicTime.
  datatype Clock = Clock(readings: nat -> int, convert: int -> int)

  // ---------- one batch ----------

  // Nonempty, neither its control data nor its payload truncated, self address known.
  predicate Keeps(d: Datagram, sz: Sizes) {
    && d.payload != []
    && d.controlLen <= sz.control
    && |d.payload| <= sz.buffer
    && d.control.selfIp.Some?
  }

  function Stamped(d: Datagram, timestamp: int, port: nat): Received
    requires d.control.selfIp.Some?
  {
    Received(d.payload, timestamp, d.control.ttl, d.peer, d.control.selfIp.value, port)
  }

  datatype Delivery = Delivery(packets: seq<Received>, ticks: nat)

  // The scan of a batch, with the fallback time so far (0 = not initialized) and the
  // number of clock readings so far.
  function Deliver(ds: seq<Datagram>, fallback: int, ticks: nat, clock: Clock, port: nat, sz: Sizes): Delivery {
    if ds == [] then Delivery([], ticks)
    else if !Keeps(ds[0], sz) then Deliver(ds[1..], fallback, ticks, clock, port, sz)
    else if ds[0].control.kernelTime != 0 then
      var rest := Deliver(ds[1..], fallback, ticks, clock, port, sz);
      rest.(packets := [Stamped(ds[0], clock.convert(ds[0].control.kernelTime), port)] + rest.packets)
    else
      var ticks' := if fallback == 0 then ticks + 1 else ticks;
      var fallback' := if fallback == 0 then clock.readings(ticks) else fallback;
      var rest := Deliver(ds[1..], fallback', ticks', clock, port, sz);
      rest.(packets := [Stamped(ds[0], fallback', port)] + rest.packets)
  }

  function Kept(ds: seq<Datagram>, sz: Sizes): seq<Datagram> {
    if ds == [] then [] else (if Keeps(ds[0], sz) then [ds[0]] else []) + Kept(ds[1..], sz)
  }

  // What is kept, one datagram at a time; KeptAppend says the rest: order and number.
  lemma KeptOne(d: Datagram, sz: Sizes)
    ensures Kept([d], sz) == if 0 < |d.payload| <= sz.buffer && d.controlLen <= sz.control && d.control.selfIp != None
                             then [d] else []
  {
    assert [d][1..] == [];
  }

  lemma {:induction false} KeptAppend(a: seq<Datagram>, b: seq<Datagram>, sz: Sizes)
    ensures Kept(a + b, sz) == Kept(a, sz) + Kept(b, sz)
  {
    hide Keeps;
    if a == [] {
      assert a + b == b;
    } else {
      var ab := a + b;
      assert ab[0] == a[0] && ab[1..] == a[1..] + b;
      KeptAppend(a[1..], b, sz);
      var first := if Keeps(a[0], sz) then [a[0]] else [];
      assert Kept(ab, sz) == first + Kept(ab[1..], sz);
      Regroup(first, Kept(a[1..], sz), Kept(b, sz));
    }
  }

  // Everything about a delivered packet except its time.
  predicate Carries(p: Received, d: Datagram, port: nat) {
    && p.data == d.payload
    && p.peer == d.peer
    && d.control.selfIp == Some(p.selfIp)
    && p.port == port
    && p.ttl == d.control.ttl
  }

  ghost predicate CarriesAll(ps: seq<Received>, ds: seq<Datagram>, port: nat) {
    |ps| == |ds| && forall i :: 0 <= i < |ps| ==> Carries(ps[i], ds[i], port)
  }

  lemma {:induction false} DeliverIsFilter(ds: seq<Datagram>, fallback: int, ticks: nat, clock: Clock, port: nat, sz: Sizes)
    ensures CarriesAll(Deliver(ds, fallback, ticks, clock, port, sz).packets, Kept(ds, sz), port)
  {
    if ds == [] {
    } else if !Keeps(ds[0], sz) {
      DeliverIsFilter(ds[1..], fallback, ticks, clock, port, sz);
      assert Kept(ds, sz) == Kept(ds[1..], sz);
    } else {
      var missing := ds[0].control.kernelTime == 0;
      var ticks' := if missing && fallback == 0 then ticks + 1 else ticks;
      var fallback' := if missing && fallback == 0 then clock.readings(ticks) else fallback;
      DeliverIsFilter(ds[1..], fallback', ticks', clock, port, sz);
    }
  }

  // Kept packets of a batch that carry no kernel time.
  function Timeless(ds: seq<Datagram>, sz: Sizes): nat {
    if ds == [] then 0
    else (if Keeps(ds[0], sz) && ds[0].control.kernelTime == 0 then 1 else 0) + Timeless(ds[1..], sz)
  }

  // Its kernel time, converted, or the fallback if it has none.
  predicate Timed(p: Received, d: Datagram, fallback: int, clock: Clock) {
    && (d.control.kernelTime == 0 ==> p.timestamp == fallback)
    && (d.control.kernelTime != 0 ==> p.timestamp == clock.convert(d.control.kernelTime))
  }

  lemma {:induction false} FallbackIsKept(ds: seq<Datagram>, fallback: int, ticks: nat, clock: Clock, port: nat, sz: Sizes)
    requires fallback != 0
    ensures var r := Deliver(ds, fallback, ticks, clock, port, sz);
            && r.ticks == ticks
            && |r.packets| == |Kept(ds, sz)|
            && forall i :: 0 <= i < |r.packets| ==> Timed(r.packets[i], Kept(ds, sz)[i], fallback, clock)
  {
    if ds == [] {
    } else {
      FallbackIsKept(ds[1..], fallback, ticks, clock, port, sz);
      assert !Keeps(ds[0], sz) ==> Kept(ds, sz) == Kept(ds[1..], sz);
    }
  }

  // All packets of a batch without a kernel time share the batch's one clock reading.
  lemma {:induction false} BatchSharesOneReading(ds: seq<Datagram>, ticks: nat, clock: Clock, port: nat, sz: Sizes)
    requires clock.readings(ticks) != 0
    ensures var r := Deliver(ds, 0, ticks, clock, port, sz);
            && r.ticks == ticks + (if Timeless(ds, sz) > 0 then 1 else 0)
            && |r.packets| == |Kept(ds, sz)|
            && forall i :: 0 <= i < |r.packets| ==>
                 Timed(r.packets[i], Kept(ds, sz)[i], clock.readings(ticks), clock)
  {
    if ds == [] {
    } else if Keeps(ds[0], sz) && ds[0].control.kernelTime == 0 {
      FallbackIsKept(ds[1..], clock.readings(ticks), ticks + 1, clock, port, sz);
    } else {
      BatchSharesOneReading(ds[1..], ticks, clock, port, sz);
      assert !Keeps(ds[0], sz) ==> Kept(ds, sz) == Kept(ds[1..], sz);
    }
  }

  lemma {:induction false} ReadsAreFew(ds: seq<Datagram>, fallback: int, ticks: nat, clock: Clock, port: nat, sz: Sizes)
    ensures ticks <= Deliver(ds, fallback, ticks, clock, port, sz).ticks <= ticks + Timeless(ds, sz)
    ensures fallback == 0 && Timeless(ds, sz) > 0 ==> Deliver(ds, fallback, ticks, clock, port, sz).ticks > ticks
  {
    if ds == [] {
    } else {
      var timeless := Keeps(ds[0], sz) && ds[0].control.kernelTime == 0;
      var ticks' := if timeless && fallback == 0 then ticks + 1 else ticks;
      var fallback' := if timeless && fallback == 0 then clock.readings(ticks) else fallback;
      ReadsAreFew(ds[1..], fallback', ticks', clock, port, sz);
    }
  }

  // A reading equal to zero looks uninitialized and is taken again: a batch reads the
  // clock at most once exactly when its first reading is nonzero or at most one packet
  // needs it.
  lemma {:induction false} OneReadingIff(ds: seq<Datagram>, ticks: nat, clock: Clock, port: nat, sz: Sizes)
    ensures Deliver(ds, 0, ticks, clock, port, sz).ticks <= ticks + 1
            <==> (clock.readings(ticks) != 0 || Timeless(ds, sz) <= 1)
  {
    if clock.readings(ticks) != 0 {
      BatchSharesOneReading(ds, ticks, clock, port, sz);
    } else if ds != [] {
      if Keeps(ds[0], sz) && ds[0].control.kernelTime == 0 {
        ReadsAreFew(ds[1..], 0, ticks + 1, clock, port, sz);
      } else {
        OneReadingIff(ds[1..], ticks, clock, port, sz);
      }
    }
  }

  // ---------- draining the socket ----------

  // Datagrams waiting, and those that will have arrived by each later read.
  datatype Backlog = Backlog(queue: seq<Datagram>, arrivals: seq<seq<Datagram>>)

  function Arrive(b: Backlog): Backlog {
    if b.arrivals == [] then b else Backlog(b.queue + b.arrivals[0], b.arrivals[1..])
  }

  function Batch(b: Backlog): seq<Datagram> {
    var q := Arrive(b).queue;
    q[..Min(BATCH, |q|)]
  }

  function AfterBatch(b: Backlog): Backlog {
    var a := Arrive(b);
    a.(queue := a.queue[Min(BATCH, |a.queue|)..])
  }

  function Pending(b: Backlog): nat {
    |b.queue| + |Concat(b.arrivals)|
  }

  lemma BatchesConsume(b: Backlog)
    ensures |Batch(b)| == Min(16, |b.queue| + (if b.arrivals == [] then 0 else |b.arrivals[0]|))
    ensures Batch(b) + AfterBatch(b).queue + Concat(AfterBatch(b).arrivals) == b.queue + Concat(b.arrivals)
    ensures Pending(AfterBatch(b)) + |Batch(b)| == Pending(b)
  {
    var a := Arrive(b);
    assert a.queue + Concat(a.arrivals) == b.queue + Concat(b.arrivals);
    assert Batch(b) + AfterBatch(b).queue == a.queue;
    assert |Batch(b) + AfterBatch(b).queue + Concat(a.arrivals)| == |b.queue + Concat(b.arrivals)|;
  }

  datatype Drained = Drained(received: seq<Datagram>, delivery: Delivery, left: Backlog)

  // Batches are read until one is not full.
  function Drain(b: Backlog, ticks: nat, clock: Clock, port: nat, sz: Sizes): Drained
    decreases Pending(b)
  {
    BatchesConsume(b);
    var batch := Batch(b);
    var now := Deliver(batch, 0, ticks, clock, port, sz);
    if |batch| < BATCH then Drained(batch, now, AfterBatch(b))
    else
      var rest := Drain(AfterBatch(b), now.ticks, clock, port, sz);
      Drained(batch + rest.received,
              Delivery(now.packets + rest.delivery.packets, rest.delivery.ticks),
              rest.left)
  }

  // An edge-triggered event leaves nothing behind: the socket queue is empty, and what
  // was received is in arrival order with nothing lost or repeated.
  lemma {:induction false} DrainEmptiesSocket(b: Backlog, ticks: nat, clock: Clock, port: nat, sz: Sizes)
    ensures var r := Drain(b, ticks, clock, port, sz);
            r.left.queue == [] && r.received + Concat(r.left.arrivals) == b.queue + Concat(b.arrivals)
    decreases Pending(b)
  {
    BatchesConsume(b);
    var batch := Batch(b);
    if |batch| >= BATCH {
      var next := AfterBatch(b);
      var ticks' := Deliver(batch, 0, ticks, clock, port, sz).ticks;
      DrainEmptiesSocket(next, ticks', clock, port, sz);
      Regroup(batch, Drain(next, ticks', clock, port, sz).received,
              Concat(Drain(next, ticks', clock, port, sz).left.arrivals));
      Regroup(batch, next.queue, Concat(next.arrivals));
    }
  }

  lemma Regroup<T>(a: seq<T>, b: seq<T>, c: seq<T>)
    ensures a + b + c == a + (b + c)
  {
  }

  // What is processed is the order-preserving filter of what was received.
  lemma {:induction false} DrainIsFilter(b: Backlog, ticks: nat, clock: Clock, port: nat, sz: Sizes)
    ensures var r := Drain(b, ticks, clock, port, sz);
            CarriesAll(r.delivery.packets, Kept(r.received, sz), port)
    decreases Pending(b)
  {
    BatchesConsume(b);
    var batch := Batch(b);
    DeliverIsFilter(batch, 0, ticks, clock, port, sz);
    if |batch| >= BATCH {
      var ticks' := Deliver(batch, 0, ticks, clock, port, sz).ticks;
      DrainIsFilter(AfterBatch(b), ticks', clock, port, sz);
      KeptAppend(batch, Drain(AfterBatch(b), ticks', clock, port, sz).received, sz);
    }
  }
}
