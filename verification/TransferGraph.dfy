// The object graph of running transfers as one value: proxies, streams, the hash that
// owns proxies, the dead list, epoll registrations, and what libcurl remembers. Each
// function is one thing the program does to it. Following a pointer to a freed object
// is not excluded: it sets the fault flag, and TransferInvariant proves that no run
// sets it.
module TransferGraph {
  import opened Basics
  import HeaderText
  import Relay

  type Handle = nat   // CURL*
  type Pid = nat      // identity of a QuicProxyCurl
  type Sid = nat      // identity of a QuicProxyStream

  // With the history of the request body bytes handed to libcurl.
  datatype Proxy = Proxy(
    easy: Handle, sockfd: int, stream: Option<Sid>, relay: Relay.State, body: Bytes, bodyPos: nat,
    uploaded: Bytes)

  // The write side as the relay sees it, with the bytes sent and not yet acked and those
  // acked, and the history of what was written: the inputs relayed while linked and the
  // calls of the stream they became.
  datatype Stream = Stream(
    proxy: Option<Pid>, fetched: bool,
    buffered: nat, unacked: nat, acked: nat,
    finBuffered: bool, finSent: bool, writeClosed: bool, ackCloses: nat,
    heard: seq<Relay.Input>, log: seq<Relay.Frame>)

  datatype Registration = Registration(callback: Pid, read: bool, write: bool)

  // The CURL_POLL_IN and CURL_POLL_OUT bits.
  datatype Action = Action(read: bool, write: bool)

  // libcurl's record of the one socket a handle uses.
  datatype Tracked = Tracked(fd: int, pointer: Option<Pid>, action: Action)

  // A finished transfer comes with the timeout libcurl asks for when its handle is removed.
  datatype Message = Done(easy: Handle, asked: Option<int>) | Other

  datatype TimerSpec = TimerSpec(intervalSec: int, intervalNsec: int, valueSec: int, valueNsec: int)

  const DISARMED: TimerSpec := TimerSpec(0, 0, 0, 0)

  datatype World = World(
    // the program
    hash: map<Handle, Pid>, dead: seq<Pid>, proxies: map<Pid, Proxy>, streams: map<Sid, Stream>,
    stillRunning: int, timer: TimerSpec,
    // the epoll server
    epoll: map<int, Registration>,
    // libcurl
    multi: set<Handle>, userdata: map<Handle, Pid>, sockets: map<Handle, Tracked>, messages: seq<Message>,
    // history
    freed: set<Pid>, gone: set<Sid>, fault: bool)

  const NEW_STREAM: Stream := Stream(None, false, 0, 0, 0, false, false, false, 0, [], [])

  // InitializeCurlTimer arms the timer every second.
  const START: World :=
    World(map[], [], map[], map[], 0, TimerSpec(1, 0, 1, 0), map[], {}, map[], map[], [], {}, {}, false)

  function Fault(w: World): World { w.(fault := true) }

  // ---------- links between streams and proxies ----------

  function Unlink(w: World, p: Pid, s: Sid): World
    requires p in w.proxies && s in w.streams
  {
    w.(proxies := w.proxies[p := w.proxies[p].(stream := None)],
       streams := w.streams[s := w.streams[s].(proxy := None)])
  }

  // CloseBackendResponseStream.
  function CloseStream(w: World, s: Sid): World {
    if s !in w.streams then Fault(w)
    else
      match w.streams[s].proxy
      case None => w
      case Some(p) => if p !in w.proxies then Fault(w) else Unlink(w, p, s)
  }

  function CloseAll(w: World, ss: seq<Sid>): World
    decreases |ss|
  {
    if ss == [] then w else CloseAll(CloseStream(w, ss[0]), ss[1..])
  }

  // ---------- the curl timer ----------

  // CurlMultiTimerCB.
  function TimerFor(timeoutMs: int): TimerSpec {
    if timeoutMs > 0 then TimerSpec(1, 0, timeoutMs / 1000, (timeoutMs % 1000) * 1000 * 1000)
    else if timeoutMs == 0 then TimerSpec(1, 0, 0, 1)
    else DISARMED
  }

  // Armed iff libcurl asked for a timeout, and then for its first expiry at that time; a
  // zero timeout becomes the shortest one that does not disarm.
  lemma TimerFiresWhenAsked(timeoutMs: int)
    ensures var t := TimerFor(timeoutMs);
            && (timeoutMs < 0 <==> t == TimerSpec(0, 0, 0, 0))
            && (timeoutMs >= 0 ==> t.intervalSec == 1 && t.intervalNsec == 0)
            && 0 <= t.valueNsec < 1_000_000_000
            && (timeoutMs >= 0 ==>
                  t.valueSec * 1_000_000_000 + t.valueNsec == if timeoutMs == 0 then 1 else timeoutMs * 1_000_000)
  {
  }

  // Adding or removing a handle makes libcurl ask for a timeout, or leave it as it is.
  function Asked(timer: TimerSpec, asked: Option<int>): TimerSpec {
    match asked
    case None => timer
    case Some(ms) => TimerFor(ms)
  }

  // ---------- fetching ----------

  // IsValidHeaderName(method) is given as a flag.
  datatype Request = Request(headers: HeaderText.Block, validMethod: bool, body: Bytes)

  predicate Uploads(r: Request) {
    HeaderText.Lookup(r.headers, ":method") in {"POST", "PUT", "PATCH"} && r.body != []
  }

  // What libcurl will be given to read.
  function UploadBody(r: Request): Bytes {
    if r.validMethod && Uploads(r) then r.body else []
  }

  lemma UploadBodyIs(r: Request)
    ensures UploadBody(r) ==
            if r.validMethod && HeaderText.Lookup(r.headers, ":method") in ["POST", "PUT", "PATCH"] then r.body else []
  {
  }

  // FetchResponseFromBackend: a new proxy enters the hash, is linked with the stream,
  // and enters the multi if its method is valid.
  function Fetch(w: World, p: Pid, s: Sid, easy: Handle, r: Request, asked: Option<int>): World {
    if s !in w.streams then Fault(w)
    else
      var w1 := w.(proxies := w.proxies[p := Proxy(easy, -1, Some(s), Relay.INITIAL, UploadBody(r), 0, [])],
                   hash := w.hash[easy := p],
                   streams := w.streams[s := w.streams[s].(proxy := Some(p), fetched := true)]);
      if r.validMethod
      then w1.(userdata := w1.userdata[easy := p], multi := w1.multi + {easy}, timer := Asked(w1.timer, asked))
      else w1
  }

  // ---------- callbacks from libcurl ----------

  datatype Callback =
    | Socket(easy: Handle, fd: int, what: Option<Action>)   // None is CURL_POLL_REMOVE
    | Transfer(easy: Handle, input: Relay.Input, overhead: nat, closes: seq<Sid>)
    | Upload(easy: Handle, size: nat)
    | Timer(timeoutMs: int)
    | Queue(message: Message)                               // libcurl queues a message

  function SetSock(w: World, fd: int, a: Action): World {
    if fd in w.epoll
    then w.(epoll := w.epoll[fd := w.epoll[fd].(read := a.read, write := a.write)])
    else w
  }

  function AddSock(w: World, fd: int, easy: Handle, a: Action): World {
    if easy !in w.hash then w
    else
      var p := w.hash[easy];
      if p !in w.proxies then Fault(w)
      else
        var w1 := w.(proxies := w.proxies[p := w.proxies[p].(sockfd := fd)],
                     epoll := w.epoll[fd := Registration(p, true, true)]);
        var w2 := SetSock(w1, fd, a);
        if easy in w2.sockets
        then w2.(sockets := w2.sockets[easy := w2.sockets[easy].(pointer := Some(p))])
        else w2
  }

  function RemoveSock(w: World, sockp: Option<Pid>): World {
    match sockp
    case None => w
    case Some(p) =>
      if p !in w.proxies then Fault(w)
      else if w.proxies[p].sockfd != -1 then w.(epoll := w.epoll - {w.proxies[p].sockfd})
      else w
  }

  // A socket of a handle that is not hashed, and the removal of one that is not known, change
  // nothing.
  lemma NoSocketNoChange(w: World, p: Pid, fd: int, easy: Handle, a: Action)
    ensures easy !in w.hash ==> AddSock(w, fd, easy, a) == w
    ensures RemoveSock(w, None) == w
    ensures p in w.proxies && w.proxies[p].sockfd == -1 ==> RemoveSock(w, Some(p)) == w
    ensures fd !in w.epoll ==> SetSock(w, fd, a) == w
  {
  }

  // CurlSockCB, with libcurl's own bookkeeping around it.
  function OnSocket(w: World, easy: Handle, fd: int, what: Option<Action>): World {
    var sockp := if easy in w.sockets then w.sockets[easy].pointer else None;
    match what
    case None =>
      var w1 := RemoveSock(w, sockp);
      w1.(sockets := w1.sockets - {easy})
    case Some(a) =>
      var w1 := w.(sockets := w.sockets[easy := Tracked(fd, sockp, a)]);
      if sockp.None? then AddSock(w1, fd, easy, a) else SetSock(w1, fd, a)
  }

  function Payload(fs: seq<Relay.Frame>): nat { |Relay.BodyBytes(fs)| }

  function FrameBytes(f: Relay.Frame): nat {
    match f
    case BodyFrame(data, _) => |data|
    case HeadersFrame(_, _) => 0
  }

  lemma OneFrame(f: Relay.Frame)
    ensures Payload([f]) == FrameBytes(f) && (Relay.Fins([f]) > 0 <==> f.fin)
  {
    assert [f][1..] == [];
    assert Relay.BodyBytes([f]) == (if f.BodyFrame? then f.data else []) + Relay.BodyBytes([f][1..]);
  }

  // A stream refuses what is written after a fin.
  function Written(s: Stream, i: Relay.Input, frames: seq<Relay.Frame>, overhead: nat): Stream {
    if frames == [] then s.(heard := s.heard + [i])
    else
      s.(heard := s.heard + [i], log := s.log + frames,
         buffered := if s.finBuffered then s.buffered else s.buffered + Payload(frames) + overhead,
         finBuffered := s.finBuffered || Relay.Fins(frames) > 0)
  }

  // HttpHeaderCallback and WriteQuicCallback. The overhead is what framing adds to the
  // stream's buffer. Writing may make the session close streams, this one or others,
  // before the callback returns.
  function OnTransfer(w: World, easy: Handle, i: Relay.Input, overhead: nat, closes: seq<Sid>): World {
    if easy !in w.userdata || w.userdata[easy] !in w.proxies then Fault(w)
    else
      var p := w.userdata[easy];
      match w.proxies[p].stream
      case None => w
      case Some(s) =>
        if s !in w.streams then Fault(w)
        else
          var e := Relay.OnInput(w.proxies[p].relay, i);
          var w1 := w.(proxies := w.proxies[p := w.proxies[p].(relay := e.state)],
                       streams := w.streams[s := Written(w.streams[s], i, e.frames, overhead)]);
          if e.frames == [] then w1 else CloseAll(w1, closes)
  }

  // ReadQuicCallback. size_t subtraction: a position past the end would be a fault.
  function OnUpload(w: World, easy: Handle, size: nat): World {
    if easy !in w.userdata || w.userdata[easy] !in w.proxies then Fault(w)
    else
      var p := w.userdata[easy];
      var x := w.proxies[p];
      if x.bodyPos > |x.body| then Fault(w)
      else
        var next := x.bodyPos + Relay.ReadLength(x.body, x.bodyPos, size);
        w.(proxies := w.proxies[p := x.(bodyPos := next, uploaded := x.uploaded + x.body[x.bodyPos..next])])
  }

  function OnCallback(w: World, c: Callback): World {
    match c
    case Socket(easy, fd, what) => OnSocket(w, easy, fd, what)
    case Transfer(easy, i, overhead, closes) => OnTransfer(w, easy, i, overhead, closes)
    case Upload(easy, size) => OnUpload(w, easy, size)
    case Timer(ms) => w.(timer := TimerFor(ms))
    case Queue(m) => w.(messages := w.messages + [m])
  }

  function OnCallbacks(w: World, cs: seq<Callback>): World
    decreases |cs|
  {
    if cs == [] then w else OnCallbacks(OnCallback(w, cs[0]), cs[1..])
  }

  // ---------- CheckCurlMultiInfo ----------

  // curl_multi_remove_handle: a socket not yet reported gone is reported gone now.
  function RemoveHandle(w: World, easy: Handle, asked: Option<int>): World {
    var w1 := if easy in w.sockets then OnSocket(w, easy, w.sockets[easy].fd, None) else w;
    w1.(multi := w1.multi - {easy}, timer := Asked(w1.timer, asked))
  }

  function Bury(w: World, easy: Handle): World {
    if easy in w.hash then w.(dead := [w.hash[easy]] + w.dead, hash := w.hash - {easy}) else w
  }

  // The finished proxy and its stream, if it still has one, let go of each other.
  function Depart(w: World, p: Pid): World {
    if p !in w.proxies then Fault(w)
    else
      match w.proxies[p].stream
      case None => w
      case Some(s) => if s !in w.streams then Fault(w) else Unlink(w, p, s)
  }

  // The user pointer is read before the handle is removed and followed afterwards.
  function OnDone(w: World, easy: Handle, asked: Option<int>): World {
    if easy !in w.userdata || w.userdata[easy] !in w.proxies then Fault(w)
    else Depart(Bury(RemoveHandle(w, easy, asked), easy), w.userdata[easy])
  }

  function OnMessage(w: World): World
    requires w.messages != []
  {
    var w1 := w.(messages := w.messages[1..]);
    match w.messages[0]
    case Done(easy, asked) => OnDone(w1, easy, asked)
    case Other => w1
  }

  lemma RemovalKeepsMessages(w: World, easy: Handle, asked: Option<int>)
    ensures RemoveHandle(w, easy, asked).messages == w.messages
  {
  }

  lemma BuryingKeepsMessages(w: World, easy: Handle)
    ensures Bury(w, easy).messages == w.messages
  {
  }

  lemma UnlinkingKeepsMessages(w: World, p: Pid, s: Sid)
    requires p in w.proxies && s in w.streams
    ensures Unlink(w, p, s).messages == w.messages
  {
  }

  lemma DepartingKeepsMessages(w: World, p: Pid)
    ensures Depart(w, p).messages == w.messages
  {
    hide Unlink;
    if p in w.proxies && w.proxies[p].stream.Some? && w.proxies[p].stream.value in w.streams {
      UnlinkingKeepsMessages(w, p, w.proxies[p].stream.value);
    }
  }

  lemma DoneKeepsMessages(w: World, easy: Handle, asked: Option<int>)
    ensures OnDone(w, easy, asked).messages == w.messages
  {
    hide RemoveHandle, Bury, Depart;
    if easy in w.userdata {
      RemovalKeepsMessages(w, easy, asked);
      BuryingKeepsMessages(RemoveHandle(w, easy, asked), easy);
      DepartingKeepsMessages(Bury(RemoveHandle(w, easy, asked), easy), w.userdata[easy]);
    }
  }

  lemma MessagesAreConsumed(w: World)
    requires w.messages != []
    ensures OnMessage(w).messages == w.messages[1..]
  {
    hide OnDone;
    if w.messages[0].Done? {
      DoneKeepsMessages(w.(messages := w.messages[1..]), w.messages[0].easy, w.messages[0].asked);
    }
  }

  function ReadMessages(w: World): World
    decreases |w.messages|
  {
    if w.messages == [] then w else MessagesAreConsumed(w); ReadMessages(OnMessage(w))
  }

  // Dropping the last owner of a proxy destroys it; destroying one twice is a fault.
  function ClearDead(w: World): World {
    w.(dead := [], proxies := w.proxies - (set p | p in w.dead), freed := w.freed + (set p | p in w.dead),
       fault := w.fault || (exists p :: p in w.dead && p !in w.proxies)
                || (exists i, j :: 0 <= i < j < |w.dead| && w.dead[i] == w.dead[j]))
  }

  // The dead list is cleared only by a call that finds no message waiting.
  function CheckInfo(w: World): World {
    if w.messages == [] then ClearDead(w) else ReadMessages(w)
  }

  // ---------- events ----------

  datatype Event =
    | NewStream(s: Sid)
    | Fetching(p: Pid, s: Sid, easy: Handle, request: Request, asked: Option<int>)
    | Closing(s: Sid)
    | Destroying(s: Sid)
    | Sending(s: Sid, n: nat)
    | Acked(s: Sid, n: nat)
    | SocketReady(fd: int, script: seq<Callback>, running: int)
    | TimerFired(eagain: bool, script: seq<Callback>, running: int)

  // The session sends buffered bytes; with the last of them goes a waiting fin.
  function Send(s: Stream, n: nat): Stream {
    var m := Min(n, s.buffered);
    var s1 := s.(buffered := s.buffered - m, unacked := s.unacked + m);
    if s1.buffered == 0 && s1.finBuffered then s1.(finSent := true, writeClosed := true) else s1
  }

  // n bytes are acked for the first time. With no proxy left, a drained stream is closed.
  function Ack(s: Stream, n: nat): Stream {
    var m := Min(n, s.unacked);
    var s1 := s.(unacked := s.unacked - m, acked := s.acked + m);
    if s1.proxy.None? && !s1.finSent && s1.buffered == 0
    then s1.(finSent := true, writeClosed := true, ackCloses := s1.ackCloses + 1)
    else s1
  }

  // OnStreamFrameAcked. A proxy that is left is called, which does nothing.
  function OnAck(w: World, s: Sid, n: nat): World {
    if s !in w.streams then Fault(w)
    else if w.streams[s].proxy.Some? && w.streams[s].proxy.value !in w.proxies then Fault(w)
    else w.(streams := w.streams[s := Ack(w.streams[s], n)])
  }

  // The callbacks of one curl_multi_socket_action, then CheckCurlMultiInfo.
  function SocketAction(w: World, script: seq<Callback>, running: int): World {
    CheckInfo(OnCallbacks(w, script).(stillRunning := running))
  }

  // QuicProxyCurl::OnEvent: the proxy is used again after CheckCurlMultiInfo.
  function OnReady(w: World, fd: int, script: seq<Callback>, running: int): World {
    if fd !in w.epoll || w.epoll[fd].callback !in w.proxies then Fault(w)
    else
      var p := w.epoll[fd].callback;
      var w1 := SocketAction(w, script, running);
      if p !in w1.proxies then Fault(w1)
      else if w1.stillRunning <= 0 then w1.(timer := DISARMED) else w1
  }

  function Step(w: World, e: Event): World {
    match e
    case NewStream(s) => w.(streams := w.streams[s := NEW_STREAM])
    case Fetching(p, s, easy, r, asked) => Fetch(w, p, s, easy, r, asked)
    case Closing(s) => CloseStream(w, s)
    case Destroying(s) =>
      var w1 := CloseStream(w, s);
      w1.(streams := w1.streams - {s}, gone := w1.gone + {s})
    case Sending(s, n) =>
      if s !in w.streams then Fault(w) else w.(streams := w.streams[s := Send(w.streams[s], n)])
    case Acked(s, n) => OnAck(w, s, n)
    case SocketReady(fd, script, running) => OnReady(w, fd, script, running)
    case TimerFired(eagain, script, running) => if eagain then w else SocketAction(w, script, running)
  }

  // ---------- what the environment may do ----------

  predicate Unreported(messages: seq<Message>, easy: Handle) {
    forall i :: 0 <= i < |messages| && messages[i].Done? ==> messages[i].easy != easy
  }

  predicate LegalCallback(w: World, c: Callback) {
    match c
    case Socket(easy, fd, what) =>
      && easy in w.multi && fd >= 0
      && (easy in w.sockets ==> w.sockets[easy].fd == fd)
      && (easy !in w.sockets ==> what.Some? && forall h :: h in w.sockets ==> w.sockets[h].fd != fd)
    case Transfer(easy, i, overhead, closes) =>
      easy in w.multi && forall s :: s in closes ==> s in w.streams
    case Upload(easy, size) => easy in w.multi
    case Timer(ms) => true
    case Queue(m) => m.Done? ==> m.easy in w.multi && Unreported(w.messages, m.easy)
  }

  predicate LegalCallbacks(w: World, cs: seq<Callback>)
    decreases |cs|
  {
    cs == [] || (LegalCallback(w, cs[0]) && LegalCallbacks(OnCallback(w, cs[0]), cs[1..]))
  }

  predicate LegalEvent(w: World, e: Event) {
    match e
    case NewStream(s) => s !in w.streams && s !in w.gone
    case Fetching(p, s, easy, r, asked) =>
      && p !in w.proxies && p !in w.freed
      && s in w.streams && !w.streams[s].fetched
      && forall q :: q in w.proxies ==> w.proxies[q].easy != easy
    case Closing(s) => s in w.streams
    case Destroying(s) => s in w.streams
    case Sending(s, n) => s in w.streams && n <= w.streams[s].buffered
    case Acked(s, n) =>
      // With n == 0 the frame was acked before, in a packet sent again, or holds only a fin.
      && s in w.streams && n <= w.streams[s].unacked
      && (n > 0 || w.streams[s].acked > 0 || w.streams[s].finSent)
    case SocketReady(fd, script, running) => fd in w.epoll && LegalCallbacks(w, script)
    case TimerFired(eagain, script, running) => LegalCallbacks(w, script)
  }

  function Run(w: World, es: seq<Event>): World
    decreases |es|
  {
    if es == [] then w else Run(Step(w, es[0]), es[1..])
  }

  predicate LegalRun(w: World, es: seq<Event>)
    decreases |es|
  {
    es == [] || (LegalEvent(w, es[0]) && LegalRun(Step(w, es[0]), es[1..]))
  }
}
