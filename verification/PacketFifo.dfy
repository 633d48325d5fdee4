// What the batched packet writer does to its state, step by step, and the
// theorem that its 32-slot byte ring behaves as a plain FIFO of packets.
module PacketFifo {
  import opened Basics

  const CAPACITY: nat := 32  // max_cache_buffer_write_size

  type Address = nat

  datatype Packet = Packet(data: Bytes, self: Address, peer: Address)

  // BufferedWrite holds a pointer into the ring, not the bytes.
  datatype BufferedWrite = BufferedWrite(slot: nat, len: nat, self: Address, peer: Address)

  datatype WriteStatus = Ok | Blocked | BlockedDataBuffered | Error

  // The value is a byte count or an errno, as the status says.
  datatype WriteResult = WriteResult(status: WriteStatus, value: int)

  const EAGAIN: int := 11

  // One answer of WriteMultiplePackets: its result and how many packets left.
  datatype KernelAnswer = KernelAnswer(result: WriteResult, sent: nat)

  datatype Writer = Writer(
    slots: seq<Bytes>, pos: nat, queue: seq<BufferedWrite>, blocked: bool, wire: seq<Packet>)

  datatype Event =
    | Write(packet: Packet, first: KernelAnswer, second: KernelAnswer)
    | TimerTick(eagain: bool, answer: KernelAnswer)
    | SetWritable

  predicate IsWriteBlockedStatus(s: WriteStatus) {
    s == Blocked || s == BlockedDataBuffered
  }

  // ---------- the steps ----------

  function Init(mtu: nat): Writer {
    Writer(seq(CAPACITY, _ => seq(mtu, _ => 0 as byte)), 0, [], false, [])
  }

  predicate WellSlotted(w: Writer, e: BufferedWrite) {
    e.slot < |w.slots| && e.len <= |w.slots[e.slot]|
  }

  // The bytes an entry denotes are whatever its slot holds now.
  function PacketOf(w: Writer, e: BufferedWrite): Packet
    requires WellSlotted(w, e)
  {
    Packet(w.slots[e.slot][..e.len], e.self, e.peer)
  }

  predicate Ring(w: Writer, mtu: nat) {
    && |w.slots| == CAPACITY
    && (forall i :: 0 <= i < CAPACITY ==> |w.slots[i]| == mtu)
    && w.pos < SIZE_T
    && |w.queue| <= CAPACITY
    && (forall i :: 0 <= i < |w.queue| ==>
          w.queue[i].slot == (w.pos - |w.queue| + i) % CAPACITY && w.queue[i].len <= mtu)
  }

  function Queued(w: Writer, mtu: nat): (q: seq<Packet>)
    requires Ring(w, mtu)
  {
    seq(|w.queue|, i requires 0 <= i < |w.queue| => PacketOf(w, w.queue[i]))
  }

  predicate LegalAnswer(k: KernelAnswer, queued: nat) {
    k.sent <= queued && (IsWriteBlockedStatus(k.result.status) ==> k.sent == 0)
  }

  function FlushStep(w: Writer, k: KernelAnswer, mtu: nat): Writer
    requires Ring(w, mtu) && (w.queue != [] ==> LegalAnswer(k, |w.queue|))
  {
    if w.queue == [] then w
    else w.(wire := w.wire + Queued(w, mtu)[..k.sent], queue := w.queue[k.sent..])
  }

  function Overwrite(slot: Bytes, data: Bytes): (r: Bytes)
    requires |data| <= |slot|
    ensures |r| == |slot| && r[..|data|] == data && r[|data|..] == slot[|data|..]
  {
    data + slot[|data|..]
  }

  function AppendStep(w: Writer, p: Packet, mtu: nat): Writer
    requires Ring(w, mtu) && |p.data| <= mtu
  {
    var s := w.pos % CAPACITY;
    w.(slots := w.slots[s := Overwrite(w.slots[s], p.data)],
       pos := (w.pos + 1) % SIZE_T,
       queue := w.queue + [BufferedWrite(s, |p.data|, p.self, p.peer)])
  }

  function BeforeAppend(w: Writer, k: KernelAnswer, mtu: nat): Writer
    requires Ring(w, mtu) && LegalAnswer(k, CAPACITY)
  {
    if |w.queue| >= CAPACITY then FlushStep(w, k, mtu) else w
  }

  function WriteStep(w: Writer, p: Packet, first: KernelAnswer, second: KernelAnswer, mtu: nat)
    : (Writer, WriteResult)
    requires Ring(w, mtu) && |p.data| <= mtu
    requires LegalAnswer(first, CAPACITY) && LegalAnswer(second, CAPACITY)
  {
    RingKept(w, first, mtu);
    var w1 := BeforeAppend(w, first, mtu);
    if |w1.queue| >= CAPACITY then (w1.(blocked := true), WriteResult(Blocked, EAGAIN))
    else
      AppendKept(w1, p, mtu);
      var w2 := AppendStep(w1, p, mtu);
      if |w2.queue| >= CAPACITY then
        var w3 := FlushStep(w2, second, mtu);
        if IsWriteBlockedStatus(second.result.status)
        then (w3.(blocked := true), second.result)
        else (w3, WriteResult(Ok, |p.data|))
      else (w2, WriteResult(Ok, |p.data|))
  }

  predicate LegalEvent(w: Writer, e: Event, mtu: nat) {
    match e
    case Write(p, first, second) =>
      |p.data| <= mtu && LegalAnswer(first, CAPACITY) && LegalAnswer(second, CAPACITY)
    case TimerTick(eagain, k) => !eagain && w.queue != [] ==> LegalAnswer(k, |w.queue|)
    case SetWritable => true
  }

  function Step(w: Writer, e: Event, mtu: nat): Writer
    requires Ring(w, mtu) && LegalEvent(w, e, mtu)
  {
    match e
    case Write(p, first, second) => WriteStep(w, p, first, second, mtu).0
    case TimerTick(eagain, k) => if eagain then w else FlushStep(w, k, mtu)
    case SetWritable => w.(blocked := false)
  }

  // ---------- the ring: no aliasing, and it survives the wrap of the counter ----------

  lemma SlotsDiffer(a: int, b: int)
    requires a < b < a + CAPACITY
    ensures a % CAPACITY != b % CAPACITY
  {
  }

  // Live entries use different slots, and the slot the next memcpy hits is free.
  lemma LiveSlotsNeverAlias(w: Writer, mtu: nat)
    requires Ring(w, mtu)
    ensures forall i, j :: 0 <= i < j < |w.queue| ==> w.queue[i].slot != w.queue[j].slot
    ensures |w.queue| < CAPACITY ==>
              forall i :: 0 <= i < |w.queue| ==> w.queue[i].slot != w.pos % CAPACITY
  {
    forall i, j | 0 <= i < j < |w.queue| ensures w.queue[i].slot != w.queue[j].slot {
      SlotsDiffer(w.pos - |w.queue| + i, w.pos - |w.queue| + j);
    }
    if |w.queue| < CAPACITY {
      forall i | 0 <= i < |w.queue| ensures w.queue[i].slot != w.pos % CAPACITY {
        SlotsDiffer(w.pos - |w.queue| + i, w.pos);
      }
    }
  }

  lemma RingKept(w: Writer, k: KernelAnswer, mtu: nat)
    requires Ring(w, mtu) && LegalAnswer(k, CAPACITY)
    ensures Ring(BeforeAppend(w, k, mtu), mtu)
  {
  }

  lemma FlushKept(w: Writer, k: KernelAnswer, mtu: nat)
    requires Ring(w, mtu) && (w.queue != [] ==> LegalAnswer(k, |w.queue|))
    ensures Ring(FlushStep(w, k, mtu), mtu)
    ensures var w' := FlushStep(w, k, mtu);
            w'.wire + Queued(w', mtu) == w.wire + Queued(w, mtu)
  {
    if w.queue != [] {
      var w' := FlushStep(w, k, mtu);
      var n := k.sent;
      forall i | 0 <= i < |w'.queue|
        ensures w'.queue[i] == w.queue[n + i] && (w'.pos - |w'.queue| + i) == (w.pos - |w.queue| + (n + i))
      {
      }
      assert Ring(w', mtu);
      assert Queued(w', mtu) == Queued(w, mtu)[k.sent..];
      assert Queued(w, mtu)[..k.sent] + Queued(w, mtu)[k.sent..] == Queued(w, mtu);
    }
  }

  lemma NextSlot(pos: nat, size: nat, i: nat)
    requires pos < SIZE_T && i <= size
    ensures (pos - size + i) % CAPACITY == ((pos + 1) % SIZE_T - (size + 1) + i) % CAPACITY
  {
    if pos + 1 == SIZE_T {
      var x := pos - size + i;
      assert (0 - (size + 1) + i) == x - SIZE_T;
      assert SIZE_T == CAPACITY * 0x800_0000_0000_0000;
      assert (x - SIZE_T) % CAPACITY == x % CAPACITY;
    }
  }

  lemma AppendKept(w: Writer, p: Packet, mtu: nat)
    requires Ring(w, mtu) && |p.data| <= mtu && |w.queue| < CAPACITY
    ensures Ring(AppendStep(w, p, mtu), mtu)
    ensures Queued(AppendStep(w, p, mtu), mtu) == Queued(w, mtu) + [p]
  {
    var w' := AppendStep(w, p, mtu);
    var n := |w.queue|;
    forall i | 0 <= i < |w'.queue|
      ensures w'.queue[i].slot == (w'.pos - |w'.queue| + i) % CAPACITY && w'.queue[i].len <= mtu
    {
      NextSlot(w.pos, n, i);
    }
    LiveSlotsNeverAlias(w, mtu);
    forall i | 0 <= i < n ensures PacketOf(w', w'.queue[i]) == PacketOf(w, w.queue[i]) {
      assert w'.slots[w.queue[i].slot] == w.slots[w.queue[i].slot];
    }
    assert PacketOf(w', w'.queue[n]) == p;
  }

  // ---------- FIFO refinement over whole runs ----------

  // The packet of a write is buffered iff the ring has room after the first flush.
  predicate Accepts(w: Writer, first: KernelAnswer) {
    |w.queue| < CAPACITY || first.sent > 0
  }

  function AppendedBy(w: Writer, e: Event): seq<Packet> {
    if e.Write? && Accepts(w, e.first) then [e.packet] else []
  }

  lemma BlockedFlagIsIndependent(w: Writer, b: bool, mtu: nat)
    requires Ring(w, mtu)
    ensures Ring(w.(blocked := b), mtu)
    ensures Queued(w.(blocked := b), mtu) == Queued(w, mtu)
  {
    assert forall i :: 0 <= i < |w.queue| ==> PacketOf(w.(blocked := b), w.queue[i]) == PacketOf(w, w.queue[i]);
  }

  lemma AppendIsFifo(w: Writer, p: Packet, second: KernelAnswer, mtu: nat)
    requires Ring(w, mtu) && |p.data| <= mtu && |w.queue| < CAPACITY && LegalAnswer(second, CAPACITY)
    ensures var w2 := AppendStep(w, p, mtu);
            && Ring(w2, mtu)
            && w2.wire + Queued(w2, mtu) == w.wire + Queued(w, mtu) + [p]
            && (|w2.queue| >= CAPACITY ==>
                  var w3 := FlushStep(w2, second, mtu);
                  && Ring(w3, mtu)
                  && w3.wire + Queued(w3, mtu) == w.wire + Queued(w, mtu) + [p]
                  && w.wire <= w3.wire)
  {
    AppendKept(w, p, mtu);
    var w2 := AppendStep(w, p, mtu);
    assert w.wire + (Queued(w, mtu) + [p]) == w.wire + Queued(w, mtu) + [p];
    if |w2.queue| >= CAPACITY { FlushKept(w2, second, mtu); }
  }

  lemma WriteIsFifo(w: Writer, p: Packet, first: KernelAnswer, second: KernelAnswer, mtu: nat)
    requires Ring(w, mtu) && LegalEvent(w, Write(p, first, second), mtu)
    ensures var w' := WriteStep(w, p, first, second, mtu).0;
            && Ring(w', mtu)
            && w'.wire + Queued(w', mtu) == w.wire + Queued(w, mtu) + (if Accepts(w, first) then [p] else [])
            && w.wire <= w'.wire
  {
    RingKept(w, first, mtu);
    var w1 := BeforeAppend(w, first, mtu);
    assert w1.wire + Queued(w1, mtu) == w.wire + Queued(w, mtu) && w.wire <= w1.wire by {
      if |w.queue| >= CAPACITY { FlushKept(w, first, mtu); }
    }
    if |w1.queue| >= CAPACITY {
      BlockedFlagIsIndependent(w1, true, mtu);
    } else {
      AppendIsFifo(w1, p, second, mtu);
      var w2 := AppendStep(w1, p, mtu);
      if |w2.queue| >= CAPACITY { BlockedFlagIsIndependent(FlushStep(w2, second, mtu), true, mtu); }
    }
  }

  lemma StepIsFifo(w: Writer, e: Event, mtu: nat)
    requires Ring(w, mtu) && LegalEvent(w, e, mtu)
    ensures Ring(Step(w, e, mtu), mtu)
    ensures var w' := Step(w, e, mtu);
            && w'.wire + Queued(w', mtu) == w.wire + Queued(w, mtu) + AppendedBy(w, e)
            && w.wire <= w'.wire
  {
    match e
    case Write(p, first, second) => WriteIsFifo(w, p, first, second, mtu);
    case TimerTick(eagain, k) =>
      if !eagain { FlushKept(w, k, mtu); }
    case SetWritable => BlockedFlagIsIndependent(w, false, mtu);
  }

  predicate LegalRun(w: Writer, es: seq<Event>, mtu: nat)
    requires Ring(w, mtu)
    decreases |es|
  {
    es == [] || (LegalEvent(w, es[0], mtu) &&
                 (StepIsFifo(w, es[0], mtu); LegalRun(Step(w, es[0], mtu), es[1..], mtu)))
  }

  function Run(w: Writer, es: seq<Event>, mtu: nat): Writer
    requires Ring(w, mtu) && LegalRun(w, es, mtu)
    decreases |es|
  {
    if es == [] then w
    else StepIsFifo(w, es[0], mtu); Run(Step(w, es[0], mtu), es[1..], mtu)
  }

  function Appended(w: Writer, es: seq<Event>, mtu: nat): seq<Packet>
    requires Ring(w, mtu) && LegalRun(w, es, mtu)
    decreases |es|
  {
    if es == [] then []
    else
      StepIsFifo(w, es[0], mtu);
      AppendedBy(w, es[0]) + Appended(Step(w, es[0], mtu), es[1..], mtu)
  }

  // Every interleaving of writes, timer ticks and SetWritable, every partial send.
  lemma {:induction false} RunIsFifo(w: Writer, es: seq<Event>, mtu: nat)
    requires Ring(w, mtu) && LegalRun(w, es, mtu)
    ensures Ring(Run(w, es, mtu), mtu)
    ensures var w' := Run(w, es, mtu);
            && w'.wire + Queued(w', mtu) == w.wire + Queued(w, mtu) + Appended(w, es, mtu)
            && w.wire <= w'.wire
    decreases |es|
  {
    if es == [] {
    } else {
      hide Step, LegalEvent, AppendedBy;
      StepIsFifo(w, es[0], mtu);
      var w1 := Step(w, es[0], mtu);
      RunIsFifo(w1, es[1..], mtu);
      assert w.wire + Queued(w, mtu) + (AppendedBy(w, es[0]) + Appended(w1, es[1..], mtu))
          == w1.wire + Queued(w1, mtu) + Appended(w1, es[1..], mtu);
    }
  }

  // From a new writer: what left, then what waits, is exactly what was buffered.
  lemma WriterRefinesFifo(es: seq<Event>, mtu: nat)
    requires LegalRun(Init(mtu), es, mtu)
    ensures Ring(Run(Init(mtu), es, mtu), mtu)
    ensures var w := Run(Init(mtu), es, mtu);
            w.wire + Queued(w, mtu) == Appended(Init(mtu), es, mtu)
  {
    hide Run, LegalRun, Appended;
    RunIsFifo(Init(mtu), es, mtu);
    assert Queued(Init(mtu), mtu) == [];
  }

  // ---------- what a result of WritePacket means ----------

  // What waits when the packet is copied in, or would be.
  function Waiting(w: Writer, first: KernelAnswer): int {
    |w.queue| - (if |w.queue| == 32 then first.sent else 0)
  }

  // BLOCKED is returned in exactly two cases: a full ring moved nothing, or the packet took
  // the last slot and the flush it then made was blocked. The flag is set with it, and only
  // then. A flush that fails in another way is not reported.
  lemma WriteStatusIsExact(w: Writer, p: Packet, first: KernelAnswer, second: KernelAnswer, mtu: nat)
    requires Ring(w, mtu) && LegalEvent(w, Write(p, first, second), mtu)
    ensures Ring(WriteStep(w, p, first, second, mtu).0, mtu)
    ensures var (w', r) := WriteStep(w, p, first, second, mtu);
            var n := Waiting(w, first);
            var late := n == 31 && (second.result.status == Blocked || second.result.status == BlockedDataBuffered);
            && (n == 32 ==> r == WriteResult(Blocked, 11))
            && (late ==> r == second.result)
            && (n != 32 && !late ==> r == WriteResult(Ok, |p.data|))
            && (w'.blocked <==> w.blocked || n == 32 || late)
            && (n == 32 || late ==> |w'.queue| == 32)
    ensures var w' := WriteStep(w, p, first, second, mtu).0;
            w'.wire + Queued(w', mtu) == w.wire + Queued(w, mtu) + (if Waiting(w, first) == 32 then [] else [p])
  {
    WriteIsFifo(w, p, first, second, mtu);
  }

  // BLOCKED does not mean "not taken": it means so exactly when a full ring moved
  // nothing. Otherwise the packet is in the ring, and a caller that sends it again
  // after BLOCKED puts it on the wire twice.
  lemma BlockedPacketIsTakenIff(w: Writer, p: Packet, first: KernelAnswer, second: KernelAnswer, mtu: nat)
    requires Ring(w, mtu) && LegalEvent(w, Write(p, first, second), mtu)
    requires IsWriteBlockedStatus(WriteStep(w, p, first, second, mtu).1.status)
    ensures Ring(WriteStep(w, p, first, second, mtu).0, mtu)
    ensures var w' := WriteStep(w, p, first, second, mtu).0;
            (w'.wire + Queued(w', mtu) == w.wire + Queued(w, mtu)) <==> (|w.queue| == CAPACITY && first.sent == 0)
  {
    StepIsFifo(w, Write(p, first, second), mtu);
    var w' := WriteStep(w, p, first, second, mtu).0;
    assert |w.wire + Queued(w, mtu) + [p]| != |w.wire + Queued(w, mtu)|;
  }

  const NOTHING: KernelAnswer := KernelAnswer(WriteResult(Blocked, EAGAIN), 0)

  function Repeat(p: Packet, n: nat): seq<Event> {
    if n == 0 then [] else [Write(p, NOTHING, NOTHING)] + Repeat(p, n - 1)
  }

  // n accepted writes.
  lemma {:induction false} FillRing(w: Writer, p: Packet, n: nat, mtu: nat)
    requires Ring(w, mtu) && |p.data| <= mtu && |w.queue| + n < CAPACITY
    ensures LegalRun(w, Repeat(p, n), mtu)
    ensures var w' := Run(w, Repeat(p, n), mtu);
            Ring(w', mtu) && |w'.queue| == |w.queue| + n && w'.wire == w.wire
    decreases n
  {
    if n > 0 {
      var e := Write(p, NOTHING, NOTHING);
      var es := Repeat(p, n);
      assert es[0] == e && es[1..] == Repeat(p, n - 1);
      StepIsFifo(w, e, mtu);
      FillRing(Step(w, e, mtu), p, n - 1, mtu);
    }
    RunIsFifo(w, Repeat(p, n), mtu);
  }

  lemma LastSlotBlocks(w: Writer, p: Packet, mtu: nat)
    requires Ring(w, mtu) && |w.queue| == CAPACITY - 1 && |p.data| <= mtu
    ensures Ring(WriteStep(w, p, NOTHING, NOTHING, mtu).0, mtu)
    ensures WriteStep(w, p, NOTHING, NOTHING, mtu).1.status == Blocked
    ensures var w' := WriteStep(w, p, NOTHING, NOTHING, mtu).0;
            w'.wire + Queued(w', mtu) == w.wire + Queued(w, mtu) + [p]
  {
    WriteIsFifo(w, p, NOTHING, NOTHING, mtu);
  }

  // BLOCKED with the packet taken does happen: a new writer accepts 31 writes while the
  // kernel takes nothing, and the next one is buffered and reported BLOCKED.
  lemma BlockedAfterTaking(p: Packet, n: nat, mtu: nat)
    requires |p.data| <= mtu && n == CAPACITY - 1
    ensures LegalRun(Init(mtu), Repeat(p, n), mtu)
    ensures Ring(Run(Init(mtu), Repeat(p, n), mtu), mtu)
    ensures var w := Run(Init(mtu), Repeat(p, n), mtu);
            && WriteStep(w, p, NOTHING, NOTHING, mtu).1.status == Blocked
            && var w' := WriteStep(w, p, NOTHING, NOTHING, mtu).0;
               Ring(w', mtu) && w'.wire + Queued(w', mtu) == w.wire + Queued(w, mtu) + [p]
  {
    FillRing(Init(mtu), p, n, mtu);
    LastSlotBlocks(Run(Init(mtu), Repeat(p, n), mtu), p, mtu);
  }

  // A caller that writes such a packet again, when the kernel has room, sends it twice.
  lemma WrittenAgainIsSentTwice(w: Writer, p: Packet, k: KernelAnswer, again: KernelAnswer, mtu: nat)
    requires Ring(w, mtu) && |w.queue| == CAPACITY - 1 && |p.data| <= mtu
    requires LegalAnswer(k, CAPACITY) && k.sent > 0 && LegalAnswer(again, CAPACITY)
    ensures var w' := WriteStep(w, p, NOTHING, NOTHING, mtu).0;
            && Ring(w', mtu)
            && var w'' := WriteStep(w', p, k, again, mtu).0;
               Ring(w'', mtu) && w''.wire + Queued(w'', mtu) == w.wire + Queued(w, mtu) + [p] + [p]
  {
    WriteIsFifo(w, p, NOTHING, NOTHING, mtu);
    WriteIsFifo(WriteStep(w, p, NOTHING, NOTHING, mtu).0, p, k, again, mtu);
  }

  // ---------- how much leaves, and the flag ----------

  // What the kernel takes in one event: a write flushes a full ring before and a ring it
  // filled after, the timer whenever something waits.
  function SentIn(w: Writer, e: Event): nat {
    match e
    case Write(p, first, second) =>
      (if |w.queue| == 32 then first.sent else 0) + (if Waiting(w, first) == 31 then second.sent else 0)
    case TimerTick(eagain, answer) => if eagain || w.queue == [] then 0 else answer.sent
    case SetWritable => 0
  }

  lemma StepSends(w: Writer, e: Event, mtu: nat)
    requires Ring(w, mtu) && LegalEvent(w, e, mtu)
    ensures |Step(w, e, mtu).wire| == |w.wire| + SentIn(w, e)
    ensures e.TimerTick? ==> Step(w, e, mtu).blocked == w.blocked
    ensures e.SetWritable? ==> !Step(w, e, mtu).blocked
  {
    StepIsFifo(w, e, mtu);
  }

  function SentOver(w: Writer, es: seq<Event>, mtu: nat): nat
    requires Ring(w, mtu) && LegalRun(w, es, mtu)
    decreases |es|
  {
    if es == [] then 0
    else StepIsFifo(w, es[0], mtu); SentIn(w, es[0]) + SentOver(Step(w, es[0], mtu), es[1..], mtu)
  }

  // Over a run exactly as many packets leave as the kernel took.
  lemma {:induction false} WireGrowsBySent(w: Writer, es: seq<Event>, mtu: nat)
    requires Ring(w, mtu) && LegalRun(w, es, mtu)
    ensures |Run(w, es, mtu).wire| == |w.wire| + SentOver(w, es, mtu)
    decreases |es|
  {
    hide Step, LegalEvent, SentIn;
    if es != [] {
      StepIsFifo(w, es[0], mtu);
      StepSends(w, es[0], mtu);
      WireGrowsBySent(Step(w, es[0], mtu), es[1..], mtu);
    }
  }

  // ---------- draining ----------

  // Flushes of a nonempty queue in one event, and whether each sent something.
  function FlushesBy(w: Writer, e: Event, mtu: nat): nat
    requires Ring(w, mtu) && LegalEvent(w, e, mtu)
  {
    match e
    case Write(p, first, second) =>
      (if |w.queue| >= CAPACITY then 1 else 0)
      + (if Accepts(w, first) && |BeforeAppend(w, first, mtu).queue| + 1 >= CAPACITY then 1 else 0)
    case TimerTick(eagain, k) => if !eagain && w.queue != [] then 1 else 0
    case SetWritable => 0
  }

  predicate Progresses(w: Writer, e: Event, mtu: nat)
    requires Ring(w, mtu) && LegalEvent(w, e, mtu)
  {
    match e
    case Write(p, first, second) =>
      && (|w.queue| >= CAPACITY ==> first.sent > 0)
      && (Accepts(w, first) && |BeforeAppend(w, first, mtu).queue| + 1 >= CAPACITY ==> second.sent > 0)
    case TimerTick(eagain, k) => !eagain && w.queue != [] ==> k.sent > 0
    case SetWritable => true
  }

  function Flushes(w: Writer, es: seq<Event>, mtu: nat): nat
    requires Ring(w, mtu) && LegalRun(w, es, mtu)
    decreases |es|
  {
    if es == [] then 0
    else
      StepIsFifo(w, es[0], mtu);
      FlushesBy(w, es[0], mtu) + Flushes(Step(w, es[0], mtu), es[1..], mtu)
  }

  predicate AlwaysProgresses(w: Writer, es: seq<Event>, mtu: nat)
    requires Ring(w, mtu) && LegalRun(w, es, mtu)
    decreases |es|
  {
    es == [] || (Progresses(w, es[0], mtu) &&
                 (StepIsFifo(w, es[0], mtu); AlwaysProgresses(Step(w, es[0], mtu), es[1..], mtu)))
  }

  lemma {:induction false} WireGrowsWithFlushes(w: Writer, es: seq<Event>, mtu: nat)
    requires Ring(w, mtu) && LegalRun(w, es, mtu) && AlwaysProgresses(w, es, mtu)
    ensures |Run(w, es, mtu).wire| >= |w.wire| + Flushes(w, es, mtu)
    decreases |es|
  {
    if es == [] {
    } else {
      StepIsFifo(w, es[0], mtu);
      var w1 := Step(w, es[0], mtu);
      assert |w1.wire| >= |w.wire| + FlushesBy(w, es[0], mtu);
      WireGrowsWithFlushes(w1, es[1..], mtu);
    }
  }

  // The packet at position k leaves within k + 1 flushes, whatever is written meanwhile.
  lemma DrainBound(w: Writer, es: seq<Event>, k: nat, mtu: nat)
    requires Ring(w, mtu) && LegalRun(w, es, mtu) && AlwaysProgresses(w, es, mtu)
    requires k < |w.queue| && Flushes(w, es, mtu) >= k + 1
    ensures var wire := Run(w, es, mtu).wire;
            |wire| > |w.wire| + k && wire[|w.wire| + k] == Queued(w, mtu)[k]
  {
    hide Ring, Run, LegalRun, AlwaysProgresses, Flushes, Appended;
    WireGrowsWithFlushes(w, es, mtu);
    RunIsFifo(w, es, mtu);
    var w' := Run(w, es, mtu);
    var at := |w.wire| + k;
    assert (w'.wire + Queued(w', mtu))[at] == w'.wire[at];
    assert (w.wire + Queued(w, mtu) + Appended(w, es, mtu))[at] == Queued(w, mtu)[k];
  }

  // Timer ticks alone empty the queue: as many as there are packets are enough.
  lemma {:induction false} TimerEmptiesQueue(w: Writer, es: seq<Event>, mtu: nat)
    requires Ring(w, mtu) && LegalRun(w, es, mtu) && AlwaysProgresses(w, es, mtu)
    requires forall i :: 0 <= i < |es| ==> es[i].TimerTick? && !es[i].eagain
    requires |es| >= |w.queue|
    ensures Run(w, es, mtu).queue == []
    decreases |es|
  {
    if es == [] {
    } else {
      StepIsFifo(w, es[0], mtu);
      TimerEmptiesQueue(Step(w, es[0], mtu), es[1..], mtu);
    }
  }
}
