// The batched packet writer and its flush timer as the objects they are. Each
// method is proved to do one step of PacketFifo, so the run theorems there hold
// of these objects.
module PacketWriter {
  import opened Basics
  import opened PacketFifo

  class QuicProxyPacketWriter {
    const mtu: nat                      // kEthernetMTU
    const cache: array2<byte>           // writes_cache_
    var pos: nat                        // writes_cache_pos_
    var buffered: seq<BufferedWrite>    // buffered_writes_
    var writeBlocked: bool
    ghost var wire: seq<Packet>         // packets the kernel took, in order

    ghost predicate Shaped() {
      cache.Length0 == CAPACITY && cache.Length1 == mtu
    }

    ghost function Row(i: nat): Bytes
      requires Shaped() && i < CAPACITY
      reads cache
    {
      seq(mtu, j requires 0 <= j < mtu reads cache => cache[i, j])
    }

    ghost function Slots(): seq<Bytes>
      requires Shaped()
      reads cache
    {
      seq(CAPACITY, i requires 0 <= i < CAPACITY reads cache => Row(i))
    }

    ghost function View(): Writer
      requires Shaped()
      reads this, cache
    {
      Writer(Slots(), pos, buffered, writeBlocked, wire)
    }

    lemma ViewedWire()
      requires Shaped()
      ensures View().wire == wire
    {
    }

    ghost predicate Valid()
      reads this, cache
    {
      Shaped() && Ring(View(), mtu)
    }

    constructor (mtu: nat)
      ensures Valid() && fresh(cache)
      ensures this.mtu == mtu && View() == Init(mtu)
    {
      this.mtu := mtu;
      cache := new byte[CAPACITY, mtu]((_, _) => 0);
      pos, buffered, writeBlocked, wire := 0, [], false, [];
      new;
      assert forall i :: 0 <= i < CAPACITY ==> Row(i) == Init(mtu).slots[i];
      assert View().slots == Init(mtu).slots;
    }

    // The kernel reads the bytes through the ring pointers at this moment.
    ghost method WriteMultiplePackets(answer: KernelAnswer)
      requires Valid() && LegalAnswer(answer, |buffered|)
      modifies this`wire
      ensures Shaped() && View() == old(View()).(wire := old(View()).wire + old(Queued(View(), mtu)[..answer.sent]))
    {
      wire := wire + Queued(View(), mtu)[..answer.sent];
    }

    method Flush(answer: KernelAnswer) returns (result: WriteResult)
      requires Valid() && (buffered != [] ==> LegalAnswer(answer, |buffered|))
      modifies this
      ensures Valid()
      ensures View() == FlushStep(old(View()), answer, mtu)
      ensures result == if old(buffered) == [] then WriteResult(Ok, 0) else answer.result
    {
      if buffered == [] {
        return WriteResult(Ok, 0);
      }
      FlushKept(View(), answer, mtu);
      WriteMultiplePackets(answer);
      if answer.sent > 0 {
        buffered := buffered[answer.sent..];
      }
      assert buffered == old(buffered)[answer.sent..];
      return answer.result;
    }

    method CopyIn(slot: nat, data: Bytes)
      requires Shaped() && slot < CAPACITY && |data| <= mtu
      modifies cache
      ensures View() == old(View()).(slots := old(View()).slots[slot := Overwrite(old(View()).slots[slot], data)])
    {
      forall j | 0 <= j < |data| {
        cache[slot, j] := data[j];
      }
      assert Row(slot) == Overwrite(old(Row(slot)), data);
      assert forall i :: 0 <= i < CAPACITY && i != slot ==> Row(i) == old(Row(i));
      assert View().slots == old(View()).slots[slot := Overwrite(old(View()).slots[slot], data)];
    }

    method WritePacket(p: Packet, first: KernelAnswer, second: KernelAnswer) returns (result: WriteResult)
      requires Valid() && |p.data| <= mtu
      requires LegalAnswer(first, CAPACITY) && LegalAnswer(second, CAPACITY)
      modifies this, cache
      ensures Valid()
      ensures (View(), result) == WriteStep(old(View()), p, first, second, mtu)
    {
      ghost var w := View();
      WriteIsFifo(w, p, first, second, mtu);
      RingKept(w, first, mtu);
      if |buffered| >= CAPACITY {
        var _ := Flush(first);
        if |buffered| >= CAPACITY {
          writeBlocked := true;
          return WriteResult(Blocked, EAGAIN);
        }
      }
      ghost var w1 := View();
      assert w1 == BeforeAppend(w, first, mtu);
      AppendKept(w1, p, mtu);
      var slot := pos % CAPACITY;
      CopyIn(slot, p.data);
      pos := (pos + 1) % SIZE_T;
      buffered := buffered + [BufferedWrite(slot, |p.data|, p.self, p.peer)];
      assert View() == AppendStep(w1, p, mtu);
      if |buffered| >= CAPACITY {
        var sent := Flush(second);
        if IsWriteBlockedStatus(sent.status) {
          writeBlocked := true;
          return sent;
        }
      }
      return WriteResult(Ok, |p.data|);
    }

    method SetWritable()
      requires Valid()
      modifies this`writeBlocked
      ensures Valid() && View() == old(View()).(blocked := false)
    {
      BlockedFlagIsIndependent(View(), false, mtu);
      writeBlocked := false;
    }
  }

  class SendMMsgTimer {
    const writer: QuicProxyPacketWriter

    constructor (writer: QuicProxyPacketWriter)
      ensures this.writer == writer
    {
      this.writer := writer;
    }

    // Reading the timer fd may find nothing (EAGAIN); otherwise the writer is flushed,
    // whatever that flush returns.
    method OnEvent(eagain: bool, answer: KernelAnswer)
      requires writer.Valid() && LegalEvent(writer.View(), TimerTick(eagain, answer), writer.mtu)
      modifies writer
      ensures writer.Valid()
      ensures writer.View() == Step(old(writer.View()), TimerTick(eagain, answer), writer.mtu)
    {
      if eagain {
        return;
      }
      var _ := writer.Flush(answer);
    }
  }

  // ---------- whole runs of the objects ----------

  method HandleEvent(timer: SendMMsgTimer, e: Event)
    requires timer.writer.Valid() && LegalEvent(timer.writer.View(), e, timer.writer.mtu)
    modifies timer.writer, timer.writer.cache
    ensures timer.writer.Valid()
    ensures timer.writer.View() == Step(old(timer.writer.View()), e, timer.writer.mtu)
  {
    match e
    case Write(p, first, second) => var _ := timer.writer.WritePacket(p, first, second);
    case TimerTick(eagain, answer) => timer.OnEvent(eagain, answer);
    case SetWritable => timer.writer.SetWritable();
  }

  // From a new writer: after any legal events the objects are where the specified run is,
  // so what left and what waits is what was appended.
  method Serve(mtu: nat, es: seq<Event>) returns (writer: QuicProxyPacketWriter)
    requires LegalRun(Init(mtu), es, mtu)
    ensures writer.Valid() && writer.mtu == mtu && writer.View() == Run(Init(mtu), es, mtu)
    ensures writer.wire + Queued(writer.View(), mtu) == Appended(Init(mtu), es, mtu)
  {
    hide Step, LegalEvent, Ring, Queued, QuicProxyPacketWriter.View, QuicProxyPacketWriter.Shaped;
    writer := new QuicProxyPacketWriter(mtu);
    var timer := new SendMMsgTimer(writer);
    for k := 0 to |es|
      invariant writer.Valid() && LegalRun(writer.View(), es[k..], mtu)
      invariant Run(writer.View(), es[k..], mtu) == Run(Init(mtu), es, mtu)
    {
      assert es[k..][0] == es[k] && es[k..][1..] == es[k + 1..];
      HandleEvent(timer, es[k]);
    }
    WriterRefinesFifo(es, mtu);
    writer.ViewedWire();
  }
}
