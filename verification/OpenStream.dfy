// A run that leaves a stream open: the case of EndsIffPending with nothing pending does
// happen.
module OpenStream {
  import opened Basics
  import HeaderText
  import Relay
  import opened TransferGraph
  import opened TransferInvariant
  import opened TransferRuns

  // A GET whose whole response, a 200 without a length, is relayed, sent and acked before
  // its transfer is reported done.
  const GET: Request := Request([HeaderText.Entry(":method", ["GET"])], true, [])

  function Response(): Relay.Response {
    Relay.Unframed("200")
  }

  // The session adds 10 bytes of framing to the headers.
  function Transfers(inputs: seq<Relay.Input>): seq<Callback> {
    seq(|inputs|, i requires 0 <= i < |inputs| => Transfer(7, inputs[i], if i == 1 then 10 else 0, []))
  }

  function ShortResponse(): seq<Callback> {
    Transfers(Relay.Inputs(Response()))
  }

  function LeftOpen(): seq<Event> {
    [NewStream(0), Fetching(0, 0, 7, GET, None), TimerFired(false, ShortResponse(), 1),
     Sending(0, 11), Acked(0, 11), TimerFired(false, [Queue(Done(7, None))], 0)]
  }

  // One proxy, in the multi, linked with one stream.
  function Linked(x: Relay.State, st: Stream): World {
    START.(hash := map[7 := 0], userdata := map[7 := 0], multi := {7},
           proxies := map[0 := Proxy(7, -1, Some(0), x, [], 0, [])],
           streams := map[0 := st.(proxy := Some(0), fetched := true)])
  }

  lemma Relays(x: Relay.State, st: Stream, i: Relay.Input, overhead: nat)
    ensures var w := Linked(x, st);
            var e := Relay.OnInput(x, i);
            LegalCallback(w, Transfer(7, i, overhead, []))
            && OnCallback(w, Transfer(7, i, overhead, [])) == Linked(e.state, Written(st, i, e.frames, overhead))
  {
    hide Relay.OnInput, Written;
    WrittenKeepsLink(st, i, Relay.OnInput(x, i).frames, overhead);
  }

  lemma WrittenKeepsLink(st: Stream, i: Relay.Input, frames: seq<Relay.Frame>, overhead: nat)
    ensures Written(st.(proxy := Some(0), fetched := true), i, frames, overhead)
            == Written(st, i, frames, overhead).(proxy := Some(0), fetched := true)
  {
  }

  lemma WroteOne(st: Stream, i: Relay.Input, f: Relay.Frame, overhead: nat)
    requires !st.finBuffered
    ensures Written(st, i, [f], overhead)
            == st.(heard := st.heard + [i], log := st.log + [f],
                   buffered := st.buffered + FrameBytes(f) + overhead, finBuffered := f.fin)
  {
    OneFrame(f);
  }

  lemma RelayQuiet(x: Relay.State, st: Stream, i: Relay.Input, overhead: nat)
    requires Relay.OnInput(x, i).frames == []
    ensures var w := Linked(x, st);
            && LegalCallback(w, Transfer(7, i, overhead, []))
            && OnCallback(w, Transfer(7, i, overhead, []))
               == Linked(Relay.OnInput(x, i).state, st.(heard := st.heard + [i]))
  {
    hide Relay.OnInput, OnCallback, LegalCallback, Linked;
    Relays(x, st, i, overhead);
  }

  lemma RelayFrame(x: Relay.State, st: Stream, i: Relay.Input, f: Relay.Frame, overhead: nat)
    requires Relay.OnInput(x, i).frames == [f] && !st.finBuffered
    ensures var w := Linked(x, st);
            && LegalCallback(w, Transfer(7, i, overhead, []))
            && OnCallback(w, Transfer(7, i, overhead, []))
               == Linked(Relay.OnInput(x, i).state,
                         st.(heard := st.heard + [i], log := st.log + [f],
                             buffered := st.buffered + FrameBytes(f) + overhead, finBuffered := f.fin))
  {
    hide Relay.OnInput, OnCallback, LegalCallback, Linked, Written;
    Relays(x, st, i, overhead);
    WroteOne(st, i, f, overhead);
  }

  // Three inputs of which the first writes nothing and the others one frame each.
  lemma RelayThree(x0: Relay.State, x1: Relay.State, x2: Relay.State, x3: Relay.State,
                   i1: Relay.Input, i2: Relay.Input, i3: Relay.Input, f2: Relay.Frame, f3: Relay.Frame, overhead: nat)
    requires Relay.OnInput(x0, i1).state == x1 && Relay.OnInput(x0, i1).frames == []
    requires Relay.OnInput(x1, i2).state == x2 && Relay.OnInput(x1, i2).frames == [f2] && !f2.fin
    requires Relay.OnInput(x2, i3).state == x3 && Relay.OnInput(x2, i3).frames == [f3] && !f3.fin
    ensures var w := Linked(x0, NEW_STREAM);
            var cs := [Transfer(7, i1, 0, []), Transfer(7, i2, overhead, []), Transfer(7, i3, 0, [])];
            var st := NEW_STREAM.(heard := [i1, i2, i3], log := [f2, f3],
                                  buffered := FrameBytes(f2) + overhead + FrameBytes(f3));
            LegalCallbacks(w, cs) && OnCallbacks(w, cs) == Linked(x3, st)
  {
    hide Relay.OnInput, OnCallback, LegalCallback, Linked, FrameBytes;
    var st1 := NEW_STREAM.(heard := [i1]);
    var st2 := NEW_STREAM.(heard := [i1, i2], log := [f2], buffered := FrameBytes(f2) + overhead);
    assert NEW_STREAM.heard + [i1] == [i1] && st1.heard + [i2] == [i1, i2] && st2.heard + [i3] == [i1, i2, i3];
    assert st1.log + [f2] == [f2] && st2.log + [f3] == [f2, f3];
    RelayQuiet(x0, NEW_STREAM, i1, 0);
    RelayFrame(x1, st1, i2, f2, overhead);
    RelayFrame(x2, st2, i3, f3, 0);
    ThreeCallbacks(Linked(x0, NEW_STREAM),
                   [Transfer(7, i1, 0, []), Transfer(7, i2, overhead, []), Transfer(7, i3, 0, [])]);
  }

  lemma ThreeTransfers(i1: Relay.Input, i2: Relay.Input, i3: Relay.Input)
    ensures Transfers([i1, i2, i3]) == [Transfer(7, i1, 0, []), Transfer(7, i2, 10, []), Transfer(7, i3, 0, [])]
  {
  }

  lemma RelayShort(st: Stream)
    requires st.heard == Relay.Inputs(Response())
    requires st == NEW_STREAM.(heard := st.heard, log := Relay.Feed(Relay.INITIAL, st.heard).frames, buffered := 11)
    ensures st.log != []
    ensures LegalCallbacks(Linked(Relay.INITIAL, NEW_STREAM), ShortResponse())
    ensures OnCallbacks(Linked(Relay.INITIAL, NEW_STREAM), ShortResponse()) == Linked(Relay.State([], 0, 1), st)
  {
    hide Relay.Feed, Relay.Inputs, Relay.OnInput, Relay.Unframed, OnCallbacks, LegalCallbacks, Linked, Transfers;
    var x1, i1, i2, i3, f2, f3 := Relay.UnframedSteps("200");
    ThreeTransfers(i1, i2, i3);
    RelayThree(Relay.INITIAL, x1, Relay.INITIAL, Relay.State([], 0, 1), i1, i2, i3, f2, f3, 10);
    assert FrameBytes(f2) + 10 + FrameBytes(f3) == 11;
  }

  lemma ThreeCallbacks(w: World, cs: seq<Callback>)
    requires |cs| == 3
    ensures OnCallbacks(w, cs) == OnCallback(OnCallback(OnCallback(w, cs[0]), cs[1]), cs[2])
    ensures LegalCallbacks(w, cs) <==>
              && LegalCallback(w, cs[0])
              && LegalCallback(OnCallback(w, cs[0]), cs[1])
              && LegalCallback(OnCallback(OnCallback(w, cs[0]), cs[1]), cs[2])
  {
    hide OnCallback, LegalCallback;
    assert cs == [cs[0]] + [cs[1]] + [cs[2]];
    var w1, w2 := OnCallback(w, cs[0]), OnCallback(OnCallback(w, cs[0]), cs[1]);
    assert cs[1..][0] == cs[1] && cs[1..][1..] == [cs[2]] && [cs[2]][1..] == [];
    assert OnCallbacks(w2, [cs[2]]) == OnCallback(w2, cs[2]);
    assert OnCallbacks(w1, cs[1..]) == OnCallbacks(w2, [cs[2]]);
    assert LegalCallbacks(w2, [cs[2]]) <==> LegalCallback(w2, cs[2]);
  }

  lemma FetchShort()
    ensures LegalEvent(START, LeftOpen()[0]) && LegalEvent(Step(START, LeftOpen()[0]), LeftOpen()[1])
    ensures Step(Step(START, LeftOpen()[0]), LeftOpen()[1]) == Linked(Relay.INITIAL, NEW_STREAM)
  {
  }

  // After the response, and after its bytes were sent and acked.
  function After(st: Stream, running: int): World {
    Linked(Relay.State([], 0, 1), st).(stillRunning := running)
  }

  lemma NothingToClear(w: World)
    requires w.dead == []
    ensures ClearDead(w) == w
  {
    assert w.proxies - (set p | p in w.dead) == w.proxies && w.freed + (set p | p in w.dead) == w.freed;
  }

  lemma OneCallback(w: World, c: Callback)
    ensures OnCallbacks(w, [c]) == OnCallback(w, c)
    ensures LegalCallbacks(w, [c]) <==> LegalCallback(w, c)
  {
    hide OnCallback, LegalCallback;
    assert [c][1..] == [];
    assert OnCallbacks(w, [c]) == OnCallbacks(OnCallback(w, c), []);
  }

  lemma QuietAction(w: World, script: seq<Callback>, w1: World, running: int)
    requires OnCallbacks(w, script) == w1 && w1.messages == [] && w1.dead == []
    ensures SocketAction(w, script, running) == w1.(stillRunning := running)
  {
    hide OnCallbacks, ReadMessages, ClearDead;
    NothingToClear(w1.(stillRunning := running));
  }

  lemma TimerStep(w: World, script: seq<Callback>, running: int)
    ensures Step(w, TimerFired(false, script, running)) == SocketAction(w, script, running)
    ensures LegalEvent(w, TimerFired(false, script, running)) <==> LegalCallbacks(w, script)
  {
    hide SocketAction, LegalCallbacks;
  }

  lemma ReceiveShort(st: Stream)
    requires st.heard == Relay.Inputs(Response())
    requires st == NEW_STREAM.(heard := st.heard, log := Relay.Feed(Relay.INITIAL, st.heard).frames, buffered := 11)
    ensures var w := Linked(Relay.INITIAL, NEW_STREAM);
            var e := TimerFired(false, ShortResponse(), 1);
            st.log != [] && LegalEvent(w, e) && Step(w, e) == After(st, 1)
  {
    hide Relay.Inputs, Relay.Feed, Response, ShortResponse, OnCallbacks, LegalCallbacks, SocketAction, Step,
         LegalEvent;
    RelayShort(st);
    Settled(st);
    hide Linked;
    QuietAction(Linked(Relay.INITIAL, NEW_STREAM), ShortResponse(), Linked(Relay.State([], 0, 1), st), 1);
    TimerStep(Linked(Relay.INITIAL, NEW_STREAM), ShortResponse(), 1);
  }

  lemma Settled(st: Stream)
    ensures Linked(Relay.State([], 0, 1), st).messages == [] && Linked(Relay.State([], 0, 1), st).dead == []
  {
  }

  function Unacked(st: Stream): Stream { st.(buffered := 0, unacked := 11) }

  function Drained(st: Stream): Stream { st.(buffered := 0, unacked := 0, acked := 11) }

  lemma SendAndAck(st: Stream)
    requires st.buffered == 11 && st.unacked == 0 && st.acked == 0 && !st.finBuffered
    ensures LegalEvent(After(st, 1), LeftOpen()[3])
    ensures Step(After(st, 1), LeftOpen()[3]) == After(Unacked(st), 1)
    ensures LegalEvent(After(Unacked(st), 1), LeftOpen()[4])
    ensures Step(After(Unacked(st), 1), LeftOpen()[4]) == After(Drained(st), 1)
  {
    var w := After(st, 1);
    assert w.streams[0 := Send(w.streams[0], 11)] == After(Unacked(st), 1).streams;
    var w1 := After(Unacked(st), 1);
    assert w1.streams[0 := Ack(w1.streams[0], 11)] == After(Drained(st), 1).streams;
  }

  lemma FinishShort(st: Stream)
    ensures var w := After(st, 1);
            && LegalEvent(w, LeftOpen()[5])
            && Step(w, LeftOpen()[5]).streams == map[0 := st.(proxy := None, fetched := true)]
  {
    var w := After(st, 1);
    var m := Done(7, None);
    OneCallback(w, Queue(m));
    var w1 := OnCallbacks(w, [Queue(m)]).(stillRunning := 0);
    assert w1 == w.(messages := [m], stillRunning := 0);
    assert [m][1..] == [];
    assert ReadMessages(w1) == OnMessage(w1);
    assert OnMessage(w1).streams == map[0 := st.(proxy := None, fetched := true)];
  }

  predicate Reaches(w: World, es: seq<Event>, w': World) {
    LegalRun(w, es) && Run(w, es) == w'
  }

  lemma Arrived(w: World, es: seq<Event>)
    ensures Reaches(w, es[|es|..], w)
  {
  }

  lemma StepReaches(w: World, es: seq<Event>, k: nat, w': World)
    requires k < |es| && LegalEvent(w, es[k]) && Reaches(Step(w, es[k]), es[k + 1..], w')
    ensures Reaches(w, es[k..], w')
  {
    hide LegalEvent, Step;
    assert es[k..][0] == es[k] && es[k..][1..] == es[k + 1..];
  }

  lemma Chain(es: seq<Event>, w0: World, w1: World, w2: World, w3: World, w4: World, w5: World)
    requires |es| == 6
    requires LegalEvent(w0, es[0]) && Step(w0, es[0]) == w1
    requires LegalEvent(w1, es[1]) && Step(w1, es[1]) == w2
    requires LegalEvent(w2, es[2]) && Step(w2, es[2]) == w3
    requires LegalEvent(w3, es[3]) && Step(w3, es[3]) == w4
    requires LegalEvent(w4, es[4]) && Step(w4, es[4]) == w5
    requires LegalEvent(w5, es[5])
    ensures Reaches(w0, es, Step(w5, es[5]))
  {
    hide Step, LegalEvent, Reaches;
    assert es[0..] == es;
    var w6 := Step(w5, es[5]);
    Arrived(w6, es);
    StepReaches(w5, es, 5, w6);
    StepReaches(w4, es, 4, w6);
    StepReaches(w3, es, 3, w6);
    StepReaches(w2, es, 2, w6);
    StepReaches(w1, es, 1, w6);
    StepReaches(w0, es, 0, w6);
  }

  // A stream can be left open: its response is complete, everything was sent and acked, its
  // transfer is gone, and no fin was sent or waits.
  lemma StreamStaysOpen()
    ensures LegalRun(START, LeftOpen()) && Relay.Delivered(Response())
    ensures var w := Run(START, LeftOpen());
            && Detached(w, 0)
            && w.streams[0].heard == Relay.Inputs(Response())
            && w.streams[0].buffered == 0 && w.streams[0].unacked == 0
            && !w.streams[0].finSent && !w.streams[0].finBuffered
            && !w.streams[0].writeClosed
  {
    Relay.UnframedIsDelivered("200");
    assert LeftOpen()[2] == TimerFired(false, ShortResponse(), 1);
    hide Response, Relay.Inputs, Relay.Feed, Relay.Delivered, LeftOpen, ShortResponse, Step, LegalEvent, Linked,
         After, LegalRun, Run;
    var heard := Relay.Inputs(Response());
    var st := NEW_STREAM.(heard := heard, log := Relay.Feed(Relay.INITIAL, heard).frames,
                          buffered := 11);
    FetchShort();
    ReceiveShort(st);
    SendAndAck(st);
    FinishShort(Drained(st));
    Chain(LeftOpen(), START, Step(START, LeftOpen()[0]), Linked(Relay.INITIAL, NEW_STREAM), After(st, 1),
          After(Unacked(st), 1), After(Drained(st), 1));
  }

  // And it stays open: no continuation without a repeated ack ends it.
  lemma StreamIsNeverEnded()
    ensures forall es :: LegalRun(Run(START, LeftOpen()), es) && FreshAcks(es, 0) ==>
              var streams := Run(Run(START, LeftOpen()), es).streams;
              0 in streams ==> NoFin(streams[0])
  {
    hide Inv, LegalRun, Run, LeftOpen, FreshAcks;
    StreamStaysOpen();
    StartIsInv();
    RunKeeps(START, LeftOpen());
    forall es | LegalRun(Run(START, LeftOpen()), es) && FreshAcks(es, 0)
              && 0 in Run(Run(START, LeftOpen()), es).streams
      ensures NoFin(Run(Run(START, LeftOpen()), es).streams[0])
    {
      DrainedNeverEnds(Run(START, LeftOpen()), es, 0);
    }
  }
}
