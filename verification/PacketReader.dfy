// The recvmmsg reader with its reused headers and buffers, and the server's read
// loop, proved to deliver what PacketBatches says.
module PacketReader {
  import opened Basics
  import opened PacketBatches

  // The fields of an mmsghdr that the reader or the kernel changes.
  datatype MMsgHdr = MMsgHdr(nameLen: nat, controlLen: nat, ctrunc: bool, trunc: bool, len: nat)

  // Storage behind one header: payload buffer, raw address, ancillary data.
  datatype PacketData = PacketData(buf: Bytes, address: Address, control: Control)

  // The kernel fills in one message, within the lengths the header offers. With
  // MSG_TRUNC the reported length is the real one.
  function Fill(d: Datagram, hdr: MMsgHdr, pd: PacketData): (MMsgHdr, PacketData) {
    var n := Min(|d.payload|, |pd.buf|);
    (MMsgHdr(Min(d.nameLen, hdr.nameLen), Min(d.controlLen, hdr.controlLen),
             d.controlLen > hdr.controlLen, |d.payload| > |pd.buf|, |d.payload|),
     PacketData(d.payload[..n] + pd.buf[n..],
                if d.nameLen <= hdr.nameLen then d.peer else pd.address,
                if d.controlLen <= hdr.controlLen then d.control else pd.control))
  }

  // With the lengths restored, a message depends on its datagram alone and not on what
  // an earlier batch left in the same slot.
  lemma FilledFromDatagram(d: Datagram, hdr: MMsgHdr, pd: PacketData, sz: Sizes)
    requires hdr.nameLen == NAME_LEN && hdr.controlLen == sz.control && |pd.buf| == sz.buffer
    ensures var (h, p) := Fill(d, hdr, pd);
            && h.len == |d.payload|
            && (h.ctrunc <==> d.controlLen > sz.control)
            && (h.trunc <==> |d.payload| > sz.buffer)
            && (!h.ctrunc ==> p.control == d.control)
            && (!h.trunc ==> p.buf[..h.len] == d.payload)
            && p.address == d.peer
            && |p.buf| == sz.buffer
  {
  }

  // Restoring them matters: a header left short by an earlier message loses a packet
  // that an unused header keeps.
  lemma StaleHeaderLosesPacket(pd: PacketData, sz: Sizes)
    requires sz.control > 0 && sz.buffer > 0 && |pd.buf| == sz.buffer
    ensures var small: Datagram := Datagram([1], 0, 0, 0, Control(Some(1), 0, None));
            var next: Datagram := Datagram([2], 0, 0, sz.control, Control(Some(1), 0, None));
            var unused := MMsgHdr(NAME_LEN, sz.control, false, false, 0);
            var (stale, pd') := Fill(small, unused, pd);
            Keeps(next, sz) && Fill(next, stale, pd').0.ctrunc && !Fill(next, unused, pd').0.ctrunc
  {
  }

  class SystemClock {
    const clock: Clock
    var ticks: nat

    constructor (clock: Clock)
      ensures this.clock == clock && ticks == 0
    {
      this.clock := clock;
      ticks := 0;
    }

    method Now() returns (t: int)
      modifies this
      ensures t == clock.readings(old(ticks)) && ticks == old(ticks) + 1
    {
      t := clock.readings(ticks);
      ticks := ticks + 1;
    }
  }

  class Dispatcher {
    var processed: seq<Received>

    constructor ()
      ensures processed == []
    {
      processed := [];
    }

    method ProcessPacket(p: Received)
      modifies this
      ensures processed == old(processed) + [p]
    {
      processed := processed + [p];
    }
  }

  class UdpSocket {
    var queue: seq<Datagram>
    var arrivals: seq<seq<Datagram>>

    constructor (queue: seq<Datagram>, arrivals: seq<seq<Datagram>>)
      ensures View() == Backlog(queue, arrivals)
    {
      this.queue, this.arrivals := queue, arrivals;
    }

    ghost function View(): Backlog
      reads this
    {
      Backlog(queue, arrivals)
    }

    // Takes up to as many datagrams as there are headers; fails when none waits.
    method Recvmmsg(hdrs: array<MMsgHdr>, packets: array<PacketData>) returns (n: int)
      requires hdrs.Length == packets.Length == BATCH
      modifies this, hdrs, packets
      ensures View() == AfterBatch(old(View()))
      ensures var batch := Batch(old(View()));
              && n == (if batch == [] then -1 else |batch|)
              && (forall i :: 0 <= i < |batch| ==>
                    (hdrs[i], packets[i]) == Fill(batch[i], old(hdrs[i]), old(packets[i])))
              && (forall i :: |batch| <= i < BATCH ==> hdrs[i] == old(hdrs[i]) && packets[i] == old(packets[i]))
    {
      if arrivals != [] {
        queue, arrivals := queue + arrivals[0], arrivals[1..];
      }
      var m := Min(BATCH, |queue|);
      for i := 0 to m
        invariant View() == Arrive(old(View()))
        invariant forall j :: 0 <= j < i ==>
                    (hdrs[j], packets[j]) == Fill(queue[j], old(hdrs[j]), old(packets[j]))
        invariant forall j :: i <= j < BATCH ==> hdrs[j] == old(hdrs[j]) && packets[j] == old(packets[j])
      {
        var (h, p) := Fill(queue[i], hdrs[i], packets[i]);
        hdrs[i], packets[i] := h, p;
      }
      queue := queue[m..];
      n := if m == 0 then -1 else m;
    }
  }

  class QuicProxyPacketReader {
    const sz: Sizes
    const hdrs: array<MMsgHdr>         // mmsg_hdr_
    const packets: array<PacketData>   // packets_

    ghost predicate Valid()
      reads packets
    {
      && hdrs.Length == packets.Length == BATCH
      && forall i :: 0 <= i < BATCH ==> |packets[i].buf| == sz.buffer
    }

    constructor (sz: Sizes)
      ensures Valid() && this.sz == sz && fresh(hdrs) && fresh(packets)
      ensures forall i :: 0 <= i < BATCH ==>
                hdrs[i] == MMsgHdr(NAME_LEN, sz.control, false, false, 0)
    {
      this.sz := sz;
      hdrs := new MMsgHdr[BATCH](_ => MMsgHdr(NAME_LEN, sz.control, false, false, 0));
      packets := new PacketData[BATCH](_ => PacketData(seq(sz.buffer, _ => 0 as byte), 0, Control(None, 0, None)));
    }

    // Brings the changeable fields back to what the constructor set; msg_len is output only.
    method ResetHeaders()
      requires Valid()
      modifies hdrs
      ensures forall i :: 0 <= i < BATCH ==>
                hdrs[i] == MMsgHdr(NAME_LEN, sz.control, false, false, old(hdrs[i]).len)
    {
      for i := 0 to BATCH
        invariant forall j :: 0 <= j < i ==>
                    hdrs[j] == MMsgHdr(NAME_LEN, sz.control, false, false, old(hdrs[j]).len)
        invariant forall j :: i <= j < BATCH ==> hdrs[j] == old(hdrs[j])
      {
        hdrs[i] := hdrs[i].(nameLen := NAME_LEN, controlLen := sz.control, ctrunc := false, trunc := false);
      }
    }

    // The result is a function of the datagrams taken and of the clock, not of the headers
    // or buffers an earlier call left behind.
    method ReadAndDispatchPackets(socket: UdpSocket, port: nat, clock: SystemClock, processor: Dispatcher)
      returns (more: bool)
      requires Valid()
      modifies hdrs, packets, socket, clock, processor
      ensures Valid()
      ensures socket.View() == AfterBatch(old(socket.View()))
      ensures more <==> |Batch(old(socket.View()))| == BATCH
      ensures var r := Deliver(Batch(old(socket.View())), 0, old(clock.ticks), clock.clock, port, sz);
              processor.processed == old(processor.processed) + r.packets && clock.ticks == r.ticks
    {
      hide Fill, AfterBatch;
      ghost var batch := Batch(socket.View());
      ResetHeaders();
      label Ready:
      var packetsRead := socket.Recvmmsg(hdrs, packets);
      forall i | 0 <= i < |batch|
        ensures |packets[i].buf| == sz.buffer && FromDatagram(hdrs[i], packets[i], batch[i])
      {
        FilledFromDatagram(batch[i], old@Ready(hdrs[i]), old@Ready(packets[i]), sz);
      }
      if packetsRead <= 0 {
        return false;
      }
      Dispatch(batch, packetsRead, port, clock, processor);
      return packetsRead == BATCH;
    }

    // Scans the filled messages: skips empty and truncated ones and those without a self
    // address, stamps the others.
    method Dispatch(ghost batch: seq<Datagram>, packetsRead: nat, port: nat, clock: SystemClock, processor: Dispatcher)
      requires Valid() && packetsRead == |batch| <= BATCH
      requires forall i :: 0 <= i < |batch| ==> FromDatagram(hdrs[i], packets[i], batch[i])
      modifies clock, processor
      ensures var r := Deliver(batch, 0, old(clock.ticks), clock.clock, port, sz);
              processor.processed == old(processor.processed) + r.packets && clock.ticks == r.ticks
    {
      ghost var all := Deliver(batch, 0, clock.ticks, clock.clock, port, sz);
      var fallback := 0;
      for i := 0 to packetsRead
        invariant var rest := Deliver(batch[i..], fallback, clock.ticks, clock.clock, port, sz);
                  old(processor.processed) + all.packets == processor.processed + rest.packets && all.ticks == rest.ticks
      {
        assert FromDatagram(hdrs[i], packets[i], batch[i]);
        assert batch[i..][0] == batch[i] && batch[i..][1..] == batch[i + 1..];
        if hdrs[i].len == 0 {
          continue;
        }
        if hdrs[i].ctrunc {
          continue;
        }
        if hdrs[i].trunc {
          continue;
        }
        var control := packets[i].control;
        if control.selfIp.None? {
          continue;
        }
        var timestamp;
        if control.kernelTime == 0 {
          if fallback == 0 {
            fallback := clock.Now();
          }
          timestamp := fallback;
        } else {
          timestamp := clock.clock.convert(control.kernelTime);
        }
        processor.ProcessPacket(
          Received(packets[i].buf[..hdrs[i].len], timestamp, control.ttl, packets[i].address,
                   control.selfIp.value, port));
      }
    }

    // What a filled slot says about its datagram.
    ghost predicate FromDatagram(h: MMsgHdr, p: PacketData, d: Datagram) {
      && h.len == |d.payload|
      && (h.ctrunc <==> d.controlLen > sz.control)
      && (h.trunc <==> |d.payload| > sz.buffer)
      && (!h.ctrunc ==> p.control == d.control)
      && (!h.trunc ==> h.len <= |p.buf| && p.buf[..h.len] == d.payload)
      && p.address == d.peer
    }
  }

  class QuicProxyServer {
    const reader: QuicProxyPacketReader
    const socket: UdpSocket
    const clock: SystemClock
    const dispatcher: Dispatcher
    const port: nat

    constructor (reader: QuicProxyPacketReader, socket: UdpSocket, clock: SystemClock,
                 dispatcher: Dispatcher, port: nat)
      ensures this.reader == reader && this.socket == socket && this.clock == clock
      ensures this.dispatcher == dispatcher && this.port == port
    {
      this.reader, this.socket, this.clock, this.dispatcher, this.port :=
        reader, socket, clock, dispatcher, port;
    }

    // The socket is watched edge-triggered, so EPOLLIN must be read to the end. The two
    // masks say which events to replay.
    method OnEvent(epollin: bool, epollout: bool, chlosBuffered: bool, pendingWrites: bool)
      returns (readyIn: bool, readyOut: bool)
      requires reader.Valid()
      modifies reader.hdrs, reader.packets, socket, clock, dispatcher
      ensures reader.Valid()
      ensures epollin ==>
                var r := Drain(old(socket.View()), old(clock.ticks), clock.clock, port, reader.sz);
                && socket.View() == r.left
                && socket.queue == []
                && dispatcher.processed == old(dispatcher.processed) + r.delivery.packets
                && CarriesAll(r.delivery.packets, Kept(r.received, reader.sz), port)
                && clock.ticks == r.delivery.ticks
      ensures !epollin ==>
                && socket.View() == old(socket.View())
                && dispatcher.processed == old(dispatcher.processed) && clock.ticks == old(clock.ticks)
      ensures readyIn == (epollin && chlosBuffered) && readyOut == (epollout && pendingWrites)
    {
      readyIn, readyOut := false, false;
      if epollin {
        ghost var all := Drain(socket.View(), clock.ticks, clock.clock, port, reader.sz);
        DrainEmptiesSocket(socket.View(), clock.ticks, clock.clock, port, reader.sz);
        DrainIsFilter(socket.View(), clock.ticks, clock.clock, port, reader.sz);
        var moreToRead := true;
        while moreToRead
          invariant reader.Valid()
          invariant moreToRead ==>
                      var rest := Drain(socket.View(), clock.ticks, clock.clock, port, reader.sz);
                      && all.left == rest.left && all.delivery.ticks == rest.delivery.ticks
                      && old(dispatcher.processed) + all.delivery.packets == dispatcher.processed + rest.delivery.packets
          invariant !moreToRead ==>
                      && socket.View() == all.left && clock.ticks == all.delivery.ticks
                      && dispatcher.processed == old(dispatcher.processed) + all.delivery.packets
          decreases moreToRead, Pending(socket.View())
        {
          BatchesConsume(socket.View());
          moreToRead := reader.ReadAndDispatchPackets(socket, port, clock, dispatcher);
        }
        readyIn := chlosBuffered;
      }
      if epollout {
        readyOut := pendingWrites;
      }
    }
  }
}
