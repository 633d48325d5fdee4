// Streams, proxies and the backend as the mutable objects they are, with real pointers.
// View() reads the objects off as a World; each method is proved to do one step of
// TransferGraph to it, so TransferRuns speaks about these objects.
module ProxyObjects {
  import opened Basics
  import HeaderText
  import Relay
  import opened TransferGraph
  import opened TransferInvariant
  import opened TransferRuns

  // ---------- streams ----------

  lemma UploadingAt(w: World, p: Pid)
    requires Inv(w) && p in w.proxies
    ensures Uploading(w.proxies[p])
  {
    hide Ownership, TransferInvariant.Links, Multi, Sockets;
  }

  lemma EasyOf(w: World, easy: Handle)
    requires Inv(w) && easy in w.multi
    ensures easy in w.userdata && w.userdata[easy] in w.proxies && w.proxies[w.userdata[easy]].easy == easy
  {
    hide TransferInvariant.Links, Sockets, Histories;
    MultiHash(w, easy);
  }

  lemma RunningKeeps(w: World, running: int)
    requires Inv(w)
    ensures Inv(w.(stillRunning := running))
  {
    hide Ownership, TransferInvariant.Links, Multi, Sockets, Histories;
    MultiFrame(w, w.(stillRunning := running));
    AsideKeeps(w, w.(stillRunning := running));
  }

  lemma SockfdOf(w: World, fd: int)
    requires Inv(w) && fd in w.epoll
    ensures w.epoll[fd].callback in w.proxies && w.proxies[w.epoll[fd].callback].sockfd == fd
  {
    hide TransferInvariant.Links, Multi, Histories;
    RegisteredIsOwned(w, fd);
  }

  lemma HashIsNotDead(w: World, h: Handle)
    requires Ownership(w) && h in w.hash
    ensures w.hash[h] !in w.dead
  {
    assert Hashed(w, w.hash[h]);
  }

  lemma InvIsFaultless(w: World)
    requires Inv(w)
    ensures !w.fault
  {
  }

  lemma PopKeeps(w: World)
    requires Inv(w) && w.messages != []
    ensures Inv(w.(messages := w.messages[1..]))
    ensures w.messages[0].Done? ==>
              w.messages[0].easy in w.multi && Unreported(w.messages[1..], w.messages[0].easy)
  {
    hide Ownership, TransferInvariant.Links, Multi, Sockets, Histories;
    PopMulti(w);
    AsideKeeps(w, w.(messages := w.messages[1..]));
  }

  lemma EmptyLineReturns(s: Relay.State)
    ensures Relay.OnLine(s, HeaderText.CRLF).returned == |HeaderText.CRLF|
  {
  }

  // The write side of the base class stands in for the QUIC session.
  class QuicProxyStream {
    const id: Sid
    var proxy: QuicProxyCurl?      // quic_proxy_curl_
    var buffered: nat
    var unacked: nat
    var acked: nat
    var finBuffered: bool
    var finSent: bool
    var writeClosed: bool
    ghost var fetched: bool
    ghost var ackCloses: nat
    ghost var heard: seq<Relay.Input>
    ghost var log: seq<Relay.Frame>

    constructor (id: Sid)
      ensures this.id == id && proxy == null && View() == NEW_STREAM
    {
      this.id := id;
      proxy, buffered, unacked, acked := null, 0, 0, 0;
      finBuffered, finSent, writeClosed := false, false, false;
      fetched, ackCloses, heard, log := false, 0, [], [];
    }

    ghost function View(): Stream
      reads this
    {
      Stream(if proxy == null then None else Some(proxy.id), fetched,
             buffered, unacked, acked, finBuffered, finSent, writeClosed, ackCloses, heard, log)
    }

    // WriteHeaders and WriteOrBufferBody, which refuse what comes after a fin.
    method Write(frame: Relay.Frame, overhead: nat, ghost input: Relay.Input)
      modifies this`buffered, this`finBuffered, this`heard, this`log
      ensures proxy == old(proxy) && View() == Written(old(View()), input, [frame], overhead)
    {
      if !finBuffered {
        buffered := buffered + FrameBytes(frame) + overhead;
      }
      finBuffered := finBuffered || frame.fin;
      heard, log := heard + [input], log + [frame];
      OneFrame(frame);
    }

    // The session sends buffered bytes.
    method Sent(n: nat)
      requires n <= buffered
      modifies this`buffered, this`unacked, this`finSent, this`writeClosed
      ensures proxy == old(proxy) && View() == Send(old(View()), n)
    {
      buffered, unacked := buffered - n, unacked + n;
      if buffered == 0 && finBuffered {
        finSent, writeClosed := true, true;
      }
    }

    // The base class takes the n bytes acked for the first time off the unacked ones.
    method OnStreamFrameAcked(n: nat)
      requires n <= unacked && (proxy != null ==> proxy.backend.Live(proxy))
      modifies this`unacked, this`acked, this`finSent, this`writeClosed, this`ackCloses
      ensures proxy == old(proxy) && View() == Ack(old(View()), n)
    {
      unacked, acked := unacked - n, acked + n;
      if proxy != null {
        proxy.ContinueDownload(buffered);
      } else if !finSent && buffered == 0 {
        finSent := true;
        writeClosed := true;
        ackCloses := ackCloses + 1;
      }
    }
  }

  // ---------- the epoll server and libcurl, as the backend uses them ----------

  datatype EpollEntry = EpollEntry(callback: QuicProxyCurl, read: bool, write: bool)

  class EpollServer {
    var entries: map<int, EpollEntry>

    constructor ()
      ensures entries == map[]
    {
      entries := map[];
    }

    method RegisterFD(fd: int, callback: QuicProxyCurl)
      modifies this
      ensures entries == old(entries)[fd := EpollEntry(callback, true, true)]
    {
      entries := entries[fd := EpollEntry(callback, true, true)];
    }

    method UnregisterFD(fd: int)
      modifies this
      ensures entries == old(entries) - {fd}
    {
      entries := entries - {fd};
    }

    // StartRead and StopRead.
    method SetRead(fd: int, on: bool)
      modifies this
      ensures entries == if fd in old(entries) then old(entries)[fd := old(entries)[fd].(read := on)] else old(entries)
    {
      if fd in entries {
        entries := entries[fd := entries[fd].(read := on)];
      }
    }

    // StartWrite and StopWrite.
    method SetWrite(fd: int, on: bool)
      modifies this
      ensures entries == if fd in old(entries) then old(entries)[fd := old(entries)[fd].(write := on)] else old(entries)
    {
      if fd in entries {
        entries := entries[fd := entries[fd].(write := on)];
      }
    }
  }

  datatype SocketEntry = SocketEntry(fd: int, pointer: QuicProxyCurl?, action: Action)

  class CurlMulti {
    var handles: set<Handle>
    var userdata: map<Handle, QuicProxyCurl>   // CURLINFO_PRIVATE, WRITEDATA, HEADERDATA, READDATA
    var sockets: map<Handle, SocketEntry>
    var messages: seq<Message>

    constructor ()
      ensures handles == {} && userdata == map[] && sockets == map[] && messages == []
    {
      handles, userdata, sockets, messages := {}, map[], map[], [];
    }
  }

  // ---------- proxies ----------

  class QuicProxyCurl {
    ghost const id: Pid
    const easy: Handle
    const backend: QuicProxyBackend
    var sockfd: int
    var stream: QuicProxyStream?           // quic_stream_
    var headers: HeaderText.Block          // spdy_headers_
    var contentLength: nat
    var hadSendLength: nat
    var requestHeaderList: seq<string>
    var requestBody: Bytes
    var requestBodyPos: nat
    ghost var uploaded: Bytes              // what libcurl has read

    constructor (ghost id: Pid, easy: Handle, backend: QuicProxyBackend, stream: QuicProxyStream)
      ensures this.id == id && this.easy == easy && this.backend == backend && this.stream == stream
      ensures View() == Proxy(easy, -1, Some(stream.id), Relay.INITIAL, [], 0, [])
      ensures requestHeaderList == [] && requestBody == []
    {
      this.id, this.easy, this.backend, this.stream := id, easy, backend, stream;
      sockfd, headers, contentLength, hadSendLength := -1, [], 0, 0;
      requestHeaderList, requestBody, requestBodyPos, uploaded := [], [], 0, [];
    }

    ghost function RelayState(): Relay.State
      reads this
    {
      Relay.State(headers, contentLength, hadSendLength)
    }

    ghost function View(): Proxy
      reads this
    {
      Proxy(easy, sockfd, if stream == null then None else Some(stream.id), RelayState(),
            requestBody, requestBodyPos, uploaded)
    }

    // Pseudo headers are skipped; the others become C strings for libcurl.
    method AppendHeaders(hs: HeaderText.Block, peerIp: string)
      modifies this`requestHeaderList
      ensures requestHeaderList == old(requestHeaderList) + Relay.RequestLines(hs) + [Relay.CString("x-real-ip: " + peerIp)]
    {
      for i := 0 to |hs|
        invariant requestHeaderList + Relay.RequestLines(hs[i..]) == old(requestHeaderList) + Relay.RequestLines(hs)
      {
        assert hs[i..][1..] == hs[i + 1..];
        if Relay.Pseudo(hs[i].name) {
          continue;
        }
        requestHeaderList := requestHeaderList + [Relay.Serialized(hs[i])];
      }
      requestHeaderList := requestHeaderList + [Relay.CString("x-real-ip: " + peerIp)];
    }

    // The method decides whether the transfer starts, and whether it has a body to upload.
    // Adding the handle may make libcurl ask for a timeout.
    method StartHttp(r: Request, peerIp: string, asked: Option<int>)
      requires requestBody == []
      modifies this`requestHeaderList, this`requestBody, backend.multi`handles, backend.multi`userdata, backend`timer
      ensures requestHeaderList ==
              old(requestHeaderList) + Relay.RequestLines(r.headers) + [Relay.CString("x-real-ip: " + peerIp)]
      ensures stream == old(stream)
      ensures View() == old(View()).(body := UploadBody(r))
      ensures var m := backend.multi;
              && m.handles == (if r.validMethod then old(m.handles) + {easy} else old(m.handles))
              && m.userdata == (if r.validMethod then old(m.userdata)[easy := this] else old(m.userdata))
      ensures backend.timer == if r.validMethod then Asked(old(backend.timer), asked) else old(backend.timer)
    {
      AppendHeaders(r.headers, peerIp);
      if !r.validMethod {
        return;
      }
      backend.multi.userdata := backend.multi.userdata[easy := this];
      if Uploads(r) {
        requestBody := r.body;
      }
      backend.multi.handles := backend.multi.handles + {easy};
      if asked.Some? {
        backend.CurlMultiTimerCB(asked.value);
      }
    }

    // Its code is commented out.
    method ContinueDownload(bufferSize: nat) {
    }

    // Copies the next part of the request body into libcurl's buffer.
    method ReadQuicCallback(dest: array<byte>) returns (n: nat)
      requires requestBodyPos <= |requestBody|
      modifies this`requestBodyPos, this`uploaded, dest
      ensures n == Relay.ReadLength(old(requestBody), old(requestBodyPos), dest.Length)
      ensures dest[..n] == old(requestBody)[old(requestBodyPos)..old(requestBodyPos) + n]
      ensures dest[n..] == old(dest[n..])
      ensures stream == old(stream) && requestHeaderList == old(requestHeaderList)
      ensures View() == old(View()).(bodyPos := old(requestBodyPos) + n, uploaded := old(uploaded) + dest[..n])
    {
      n := |requestBody| - requestBodyPos;
      if n > 0 {
        if n > dest.Length {
          n := dest.Length;
        }
        forall i | 0 <= i < n {
          dest[i] := requestBody[requestBodyPos + i];
        }
        requestBodyPos := requestBodyPos + n;
        uploaded := uploaded + dest[..n];
        return n;
      }
      return 0;
    }

    // What the callbacks need of the world around them.
    ghost predicate Called()
      reads this, backend, backend.epoll, backend.multi, backend.proxies.Values, backend.streams.Values
    {
      && backend.Shaped() && backend.Live(this)
      && easy in backend.multi.userdata && backend.multi.userdata[easy] == this
    }

    lemma CalledIsLive()
      requires Called() && stream != null
      ensures backend.Live(this) && backend.LiveStream(stream)
      ensures forall i :: i in backend.proxies && i != id ==> backend.proxies[i] != this
      ensures forall i :: i in backend.streams && i != stream.id ==> backend.streams[i] != stream
    {
    }

    // The end of a header block: decides the fin and sends what was collected.
    method SendHeaders(overhead: nat)
      requires stream != null
      modifies this`headers, this`contentLength, stream`buffered, stream`finBuffered, stream`heard, stream`log
      ensures stream == old(stream) && stream.proxy == old(stream.proxy)
      ensures var e := Relay.OnLine(old(RelayState()), HeaderText.CRLF);
              && View() == old(View()).(relay := e.state) && e.frames != []
              && stream.View() == Written(old(stream.View()), Relay.Line(HeaderText.CRLF), e.frames, overhead)
    {
      if HeaderText.Has(headers, "content-length") {
        contentLength := HeaderText.ParseSize(HeaderText.Lookup(headers, "content-length"));
      }
      var status := HeaderText.Lookup(headers, ":status");
      var encoding := HeaderText.Lookup(headers, "transfer-encoding");
      var fin := false;
      if contentLength == 0 {
        fin := true;
        if status == "200" || status == "100" || encoding == "chunked" {
          fin := false;
        }
      }
      var block := headers;
      headers := [];
      stream.Write(Relay.HeadersFrame(block, fin), overhead, Relay.Line(HeaderText.CRLF));
    }

    // A status line or a field.
    method CollectHeader(line: Relay.HeaderLine) returns (n: nat)
      requires stream != null && line != HeaderText.CRLF
      modifies this`headers, stream`heard
      ensures stream == old(stream) && stream.proxy == old(stream.proxy)
      ensures var e := Relay.OnLine(old(RelayState()), line);
              && View() == old(View()).(relay := e.state) && e.frames == [] && n == e.returned
              && stream.View() == Written(old(stream.View()), Relay.Line(line), e.frames, 0)
    {
      var text := line[..|line| - 2];
      n := |line|;
      if HeaderText.Substr(text, 0, 4) == "HTTP" {
        var space := HeaderText.Find(text, " ");
        if space.None? {
          n := 0;
        } else {
          headers := HeaderText.SetValue(headers, ":status", HeaderText.Substr(text, space.value + 1, 3));
        }
      } else {
        var colon := HeaderText.Find(text, HeaderText.COLON);
        if colon.Some? {
          headers := HeaderText.AppendValueOrAdd(
            headers, HeaderText.ToLower(text[..colon.value]), text[colon.value + 2..]);
        }
      }
      stream.heard := stream.heard + [Relay.Line(line)];
    }

    // One header line. During a write of headers the session may close streams.
    method HttpHeaderCallback(line: Relay.HeaderLine, overhead: nat, closes: seq<Sid>) returns (n: nat)
      requires Called() && forall s :: s in closes ==> s in backend.streams
      modifies backend.proxies.Values, backend.streams.Values
      ensures backend.Shaped()
      ensures backend.View() == OnTransfer(old(backend.View()), easy, Relay.Line(line), overhead, closes)
      ensures n == if old(stream) == null then 23 else Relay.OnLine(old(RelayState()), line).returned
    {
      hide Relay.OnLine, QuicProxyBackend.Shaped, QuicProxyBackend.View, Called, OnTransfer, CloseAll, Relayed;
      ghost var w := backend.View();
      CalledView();
      if stream == null {
        TransferCut(w, easy, Relay.Line(line), overhead, closes);
        return Relay.CURLE_WRITE_ERROR;
      }
      TransferIs(w, easy, id, stream.id, Relay.Line(line), overhead, closes);
      if line == HeaderText.CRLF {
        n := |line|;
        EmptyLineReturns(RelayState());
        EndBlock(overhead);
        backend.CloseStreams(closes);
      } else {
        n := InBlock(line);
      }
    }

    method EndBlock(overhead: nat)
      requires Called() && stream != null
      modifies this`headers, this`contentLength, stream`buffered, stream`finBuffered, stream`heard, stream`log
      ensures backend.Shaped()
      ensures var e := Relay.OnLine(old(RelayState()), HeaderText.CRLF);
              e.frames != [] &&
              backend.View() == Relayed(old(backend.View()), id, old(stream.id), Relay.Line(HeaderText.CRLF), e, overhead)
    {
      hide Written, QuicProxyStream.View, View, RelayState, Relay.OnLine, QuicProxyBackend.Shaped,
           QuicProxyBackend.HashView, QuicProxyBackend.DeadView, QuicProxyBackend.ProxiesView,
           QuicProxyBackend.StreamsView, QuicProxyBackend.EpollView, QuicProxyBackend.UserdataView,
           QuicProxyBackend.SocketsView;
      var s := stream;
      ghost var w := backend.View();
      backend.ViewEntries();
      CalledIsLive();
      SendHeaders(overhead);
      backend.OnlyObjects(w, this, s);
    }

    method InBlock(line: Relay.HeaderLine) returns (n: nat)
      requires Called() && stream != null && line != HeaderText.CRLF
      modifies this`headers, stream`heard
      ensures backend.Shaped()
      ensures var e := Relay.OnLine(old(RelayState()), line);
              e.frames == [] && n == e.returned &&
              backend.View() == Relayed(old(backend.View()), id, old(stream.id), Relay.Line(line), e, 0)
    {
      hide Written, QuicProxyStream.View, View, RelayState, Relay.OnLine, QuicProxyBackend.Shaped,
           QuicProxyBackend.HashView, QuicProxyBackend.DeadView, QuicProxyBackend.ProxiesView,
           QuicProxyBackend.StreamsView, QuicProxyBackend.EpollView, QuicProxyBackend.UserdataView,
           QuicProxyBackend.SocketsView;
      var s := stream;
      ghost var w := backend.View();
      backend.ViewEntries();
      CalledIsLive();
      n := CollectHeader(line);
      backend.OnlyObjects(w, this, s);
    }

    method SendBody(data: Bytes, overhead: nat)
      requires stream != null
      modifies this`hadSendLength, stream`buffered, stream`finBuffered, stream`heard, stream`log
      ensures stream == old(stream) && stream.proxy == old(stream.proxy)
      ensures var e := Relay.OnBody(old(RelayState()), data);
              && View() == old(View()).(relay := e.state)
              && stream.View() == Written(old(stream.View()), Relay.Body(data), e.frames, overhead)
    {
      hadSendLength := (hadSendLength + |data|) % SIZE_T;
      stream.Write(Relay.BodyFrame(data, hadSendLength == contentLength), overhead, Relay.Body(data));
    }

    method RelayBody(data: Bytes, overhead: nat)
      requires Called() && stream != null
      modifies this`hadSendLength, stream`buffered, stream`finBuffered, stream`heard, stream`log
      ensures backend.Shaped()
      ensures var e := Relay.OnBody(old(RelayState()), data);
              e.frames != [] &&
              backend.View() == Relayed(old(backend.View()), id, old(stream.id), Relay.Body(data), e, overhead)
    {
      hide Written, QuicProxyStream.View, View, RelayState, QuicProxyBackend.Shaped, QuicProxyBackend.HashView,
           QuicProxyBackend.DeadView, QuicProxyBackend.ProxiesView, QuicProxyBackend.StreamsView,
           QuicProxyBackend.EpollView, QuicProxyBackend.UserdataView, QuicProxyBackend.SocketsView;
      var s := stream;
      ghost var w := backend.View();
      backend.ViewEntries();
      CalledIsLive();
      SendBody(data, overhead);
      backend.OnlyObjects(w, this, s);
    }

    // Relays a body chunk, with a fin when it completes the declared length.
    method WriteQuicCallback(data: Bytes, overhead: nat, closes: seq<Sid>) returns (n: nat)
      requires Called() && forall s :: s in closes ==> s in backend.streams
      modifies backend.proxies.Values, backend.streams.Values
      ensures backend.Shaped()
      ensures backend.View() == OnTransfer(old(backend.View()), easy, Relay.Body(data), overhead, closes)
      ensures n == if old(stream) == null then 23 else |data|
    {
      hide Relay.OnBody, QuicProxyBackend.Shaped, QuicProxyBackend.View, Called, OnTransfer, CloseAll, Relayed;
      ghost var w := backend.View();
      CalledView();
      if stream == null {
        TransferCut(w, easy, Relay.Body(data), overhead, closes);
        return Relay.CURLE_WRITE_ERROR;
      }
      TransferIs(w, easy, id, stream.id, Relay.Body(data), overhead, closes);
      RelayBody(data, overhead);
      backend.CloseStreams(closes);
      return |data|;
    }

    // A ready socket: libcurl acts, finished transfers are taken off, and then this proxy is
    // used once more. It is still live, even when its own transfer was among the finished.
    method OnEvent(fd: int, script: seq<Callback>, running: int)
      requires backend.Valid() && fd in backend.epoll.entries && backend.epoll.entries[fd].callback == this
      requires LegalCallbacks(backend.View(), script)
      modifies backend, backend.epoll, backend.multi, backend.proxies.Values, backend.streams.Values
      ensures backend.Valid() && backend.Live(this) && old(sockfd) == fd
      ensures backend.View() == OnReady(old(backend.View()), fd, script, running)
      ensures backend.streams == old(backend.streams)
      ensures forall i :: i in backend.proxies ==>
                i in old(backend.proxies) && backend.proxies[i] == old(backend.proxies)[i]
    {
      hide Inv, QuicProxyBackend.Shaped, QuicProxyBackend.View, SocketAction, LegalCallbacks;
      backend.RegisteredCallback(fd);
      OnStackProxySurvives(backend.View(), fd, script, running);
      ghost var w := backend.View();
      backend.ViewEntries();
      backend.SocketActionAndCheck(script, running);
      backend.ViewEntries();
      assert backend.Live(this);
      backend.ViewRunning();
      if backend.stillRunning <= 0 {
        backend.DisarmTimer();
      }
    }

    // What libcurl's pointer for this handle leads to.
    lemma CalledView()
      requires Called()
      ensures var w := backend.View();
              && easy in w.userdata && w.userdata[easy] == id && id in w.proxies && w.proxies[id] == View()
              && (stream != null ==> stream.id in w.streams)
      ensures backend.Shaped()
      ensures this in backend.proxies.Values && (stream != null ==> stream in backend.streams.Values)
    {
    }
  }

  class QuicProxyBackend {
    var hash: map<Handle, QuicProxyCurl>      // proxy_http_hash_
    var dead: seq<QuicProxyCurl>              // proxy_http_dead_list_
    var stillRunning: int
    var timer: TimerSpec                      // what the curl timer is set to
    const multi: CurlMulti
    const epoll: EpollServer
    var streams: map<Sid, QuicProxyStream>    // the session's live streams
    ghost var proxies: map<Pid, QuicProxyCurl>   // live proxies, by identity
    ghost var freed: set<Pid>
    ghost var gone: set<Sid>

    ghost predicate Live(p: QuicProxyCurl)
      reads this`proxies
    {
      p.id in proxies && proxies[p.id] == p
    }

    ghost predicate LiveStream(s: QuicProxyStream)
      reads this`streams
    {
      s.id in streams && streams[s.id] == s
    }

    // Every pointer the program can follow leads to a live object.
    ghost predicate Shaped()
      reads this`hash, this`dead, this`proxies, this`streams, epoll, multi
      reads proxies.Values`stream, streams.Values`proxy
    {
      Tables() && EpollTable() && MultiTable() && Links()
    }

    ghost predicate Tables()
      reads this`hash, this`dead, this`proxies, this`streams
    {
      && (forall i :: i in proxies ==> proxies[i].id == i && proxies[i].backend == this)
      && (forall i :: i in streams ==> streams[i].id == i)
      && (forall h :: h in hash ==> Live(hash[h]))
      && (forall i :: 0 <= i < |dead| ==> Live(dead[i]))
    }

    ghost predicate EpollTable()
      reads this`proxies, epoll
    {
      forall fd :: fd in epoll.entries ==> Live(epoll.entries[fd].callback)
    }

    ghost predicate MultiTable()
      reads this`proxies, multi
    {
      && (forall h :: h in multi.sockets && multi.sockets[h].pointer != null ==> Live(multi.sockets[h].pointer))
      && (forall h :: h in multi.handles ==> h in multi.userdata && Live(multi.userdata[h]))
    }

    ghost predicate Links()
      reads this`proxies, this`streams, proxies.Values`stream, streams.Values`proxy
    {
      && (forall i :: i in proxies && proxies[i].stream != null ==> LiveStream(proxies[i].stream))
      && (forall i :: i in streams && streams[i].proxy != null ==> Live(streams[i].proxy))
    }

    ghost function HashView(): map<Handle, Pid>
      reads this`hash
    {
      map h | h in hash :: hash[h].id
    }

    static ghost function Ids(ps: seq<QuicProxyCurl>): seq<Pid> {
      seq(|ps|, i requires 0 <= i < |ps| => ps[i].id)
    }

    ghost function DeadView(): seq<Pid>
      reads this`dead
    {
      Ids(dead)
    }

    ghost function ProxiesView(): map<Pid, Proxy>
      reads this`proxies, proxies.Values
    {
      map i | i in proxies :: proxies[i].View()
    }

    ghost function StreamsView(): map<Sid, Stream>
      reads this`streams, streams.Values
    {
      map i | i in streams :: streams[i].View()
    }

    ghost function EpollView(): map<int, Registration>
      reads epoll
    {
      map fd | fd in epoll.entries ::
        Registration(epoll.entries[fd].callback.id, epoll.entries[fd].read, epoll.entries[fd].write)
    }

    ghost function UserdataView(): map<Handle, Pid>
      reads multi`userdata
    {
      map h | h in multi.userdata :: multi.userdata[h].id
    }

    ghost function SocketsView(): map<Handle, Tracked>
      reads multi`sockets
    {
      map h | h in multi.sockets ::
        Tracked(multi.sockets[h].fd,
                if multi.sockets[h].pointer == null then None else Some(multi.sockets[h].pointer.id),
                multi.sockets[h].action)
    }

    ghost function View(): World
      reads this, epoll, multi, proxies.Values, streams.Values
    {
      World(HashView(), DeadView(), ProxiesView(), StreamsView(), stillRunning, timer, EpollView(),
            multi.handles, UserdataView(), SocketsView(), multi.messages, freed, gone, false)
    }

    ghost predicate Valid()
      reads this, epoll, multi, proxies.Values, streams.Values
    {
      Shaped() && Inv(View())
    }

    constructor ()
      ensures Valid() && fresh(multi) && fresh(epoll)
      ensures View() == START && proxies == map[] && streams == map[]
      ensures timer == TimerSpec(1, 0, 1, 0)
    {
      // The views are shown empty one at a time, in the lemmas below.
      hide HashView, ProxiesView, StreamsView, EpollView, UserdataView, SocketsView;
      multi := new CurlMulti();
      epoll := new EpollServer();
      hash, dead, streams, proxies, freed, gone := map[], [], map[], map[], {}, {};
      stillRunning := 0;
      timer := TimerSpec(1, 0, 1, 0);
      new;
      EmptyHash();
      EmptyProxies();
      EmptyStreams();
      EmptyEpoll();
      EmptyUserdata();
      EmptySockets();
      StartIsInv();
    }

    lemma EmptyHash()
      requires hash == map[]
      ensures HashView() == map[]
    {
    }

    lemma EmptyProxies()
      requires proxies == map[]
      ensures ProxiesView() == map[]
    {
    }

    lemma EmptyStreams()
      requires streams == map[]
      ensures StreamsView() == map[]
    {
    }

    lemma EmptyEpoll()
      requires epoll.entries == map[]
      ensures EpollView() == map[]
    {
    }

    lemma EmptyUserdata()
      requires multi.userdata == map[]
      ensures UserdataView() == map[]
    {
    }

    lemma EmptySockets()
      requires multi.sockets == map[]
      ensures SocketsView() == map[]
    {
    }

    lemma ViewEntries()
      ensures View().proxies.Keys == proxies.Keys && View().streams.Keys == streams.Keys
      ensures forall i :: i in proxies ==> View().proxies[i] == proxies[i].View()
      ensures forall i :: i in streams ==> View().streams[i] == streams[i].View()
    {
    }

    // At most one proxy and one stream differ from an earlier view.
    lemma OnlyObjects(w: World, p: QuicProxyCurl, s: QuicProxyStream)
      requires Live(p) && LiveStream(s)
      requires View() == w.(proxies := ProxiesView(), streams := StreamsView())
      requires w.proxies.Keys == proxies.Keys && w.streams.Keys == streams.Keys
      requires forall i :: i in proxies && i != p.id ==> proxies[i].View() == w.proxies[i]
      requires forall i :: i in streams && i != s.id ==> streams[i].View() == w.streams[i]
      ensures View() == w.(proxies := w.proxies[p.id := p.View()], streams := w.streams[s.id := s.View()])
    {
      assert ProxiesView() == w.proxies[p.id := p.View()];
      assert StreamsView() == w.streams[s.id := s.View()];
    }

    lemma Distinct()
      requires Shaped()
      ensures forall i :: i in proxies ==> proxies[i].id == i && proxies[i].backend == this
      ensures forall i :: i in streams ==> streams[i].id == i
    {
    }

    lemma OnlyProxy(w: World, p: QuicProxyCurl)
      requires Live(p) && View() == w.(proxies := ProxiesView())
      requires w.proxies.Keys + {p.id} == proxies.Keys
      requires forall i :: i in proxies && i != p.id ==> proxies[i].View() == w.proxies[i]
      ensures View() == w.(proxies := w.proxies[p.id := p.View()])
    {
      assert ProxiesView() == w.proxies[p.id := p.View()];
    }

    lemma OnlyStream(w: World, s: QuicProxyStream)
      requires LiveStream(s) && View() == w.(streams := StreamsView())
      requires w.streams.Keys + {s.id} == streams.Keys
      requires forall i :: i in streams && i != s.id ==> streams[i].View() == w.streams[i]
      ensures View() == w.(streams := w.streams[s.id := s.View()])
    {
      assert StreamsView() == w.streams[s.id := s.View()];
    }

    // ---------- links ----------

    method Detach(p: QuicProxyCurl, s: QuicProxyStream)
      requires Shaped() && Live(p) && LiveStream(s)
      modifies p`stream, s`proxy
      ensures Shaped()
      ensures p.View() == old(p.View()).(stream := None) && s.View() == old(s.View()).(proxy := None)
      ensures View() == old(View()).(proxies := ProxiesView(), streams := StreamsView())
    {
      hide HashView, DeadView, ProxiesView, StreamsView, EpollView, UserdataView, SocketsView;
      p.stream := null;
      s.proxy := null;
    }

    lemma LinkIsLive(s: QuicProxyStream)
      requires Shaped() && LiveStream(s)
      ensures s.proxy != null ==> Live(s.proxy)
    {
    }

    method DetachBoth(p: QuicProxyCurl, s: QuicProxyStream)
      requires Shaped() && Live(p) && LiveStream(s)
      modifies p`stream, s`proxy
      ensures Shaped()
      ensures p.id in old(View()).proxies && s.id in old(View()).streams
      ensures View() == Unlink(old(View()), p.id, s.id)
    {
      hide Shaped, HashView, DeadView, ProxiesView, StreamsView, EpollView, UserdataView, SocketsView;
      ghost var w := View();
      ViewEntries();
      Distinct();
      Detach(p, s);
      OnlyObjects(w, p, s);
    }

    method CloseBackendResponseStream(s: QuicProxyStream)
      requires Shaped() && LiveStream(s)
      modifies s`proxy, (if s.proxy == null then {} else {s.proxy})`stream
      ensures Shaped() && View() == CloseStream(old(View()), s.id)
    {
      hide Shaped, View;
      ViewEntries();
      LinkIsLive(s);
      var p := s.proxy;
      if p != null {
        DetachBoth(p, s);
      }
    }

    method CloseStreams(ss: seq<Sid>)
      requires Shaped() && forall s :: s in ss ==> s in streams
      modifies proxies.Values, streams.Values
      ensures Shaped() && View() == CloseAll(old(View()), ss)
    {
      for i := 0 to |ss|
        invariant Shaped() && CloseAll(View(), ss[i..]) == CloseAll(old(View()), ss)
      {
        assert ss[i..][1..] == ss[i + 1..];
        assert ss[i] in streams;
        CloseBackendResponseStream(streams[ss[i]]);
      }
    }

    // ---------- fetching ----------

    method CreateProxyCurl(ghost id: Pid, easy: Handle, s: QuicProxyStream) returns (proxy: QuicProxyCurl)
      requires Shaped() && LiveStream(s) && id !in proxies
      modifies this`hash, this`proxies
      ensures Shaped() && Live(proxy) && fresh(proxy) && proxies == old(proxies)[id := proxy]
      ensures proxy.id == id && proxy.easy == easy && proxy.backend == this && proxy.stream == s
      ensures proxy.requestHeaderList == [] && proxy.requestBody == []
      ensures proxy.View() == Proxy(easy, -1, Some(s.id), Relay.INITIAL, [], 0, [])
      ensures View() == old(View()).(proxies := old(View()).proxies[id := proxy.View()],
                                     hash := old(View()).hash[easy := id])
    {
      hide Shaped, View;
      proxy := new QuicProxyCurl(id, easy, this, s);
      Adopt(proxy);
      Enter(easy, proxy);
    }

    ghost method AdoptTables(proxy: QuicProxyCurl)
      requires Shaped() && proxy.id !in proxies && proxy.backend == this
      requires proxy.stream != null && LiveStream(proxy.stream)
      modifies this`proxies
      ensures Shaped() && proxies == old(proxies)[proxy.id := proxy]
    {
      proxies := proxies[proxy.id := proxy];
    }

    ghost method Adopt(proxy: QuicProxyCurl)
      requires Shaped() && proxy.id !in proxies && proxy.backend == this
      requires proxy.stream != null && LiveStream(proxy.stream)
      modifies this`proxies
      ensures Shaped() && proxies == old(proxies)[proxy.id := proxy]
      ensures View() == old(View()).(proxies := old(View()).proxies[proxy.id := proxy.View()])
    {
      hide Shaped, HashView, DeadView, ProxiesView, StreamsView, EpollView, UserdataView, SocketsView;
      ghost var w := View();
      ViewEntries();
      AdoptTables(proxy);
      OnlyProxy(w, proxy);
    }

    method Enter(easy: Handle, proxy: QuicProxyCurl)
      requires Shaped() && Live(proxy)
      modifies this`hash
      ensures Shaped() && hash == old(hash)[easy := proxy]
      ensures View() == old(View()).(hash := old(View()).hash[easy := proxy.id])
    {
      hide EpollTable, MultiTable, Links, DeadView, ProxiesView, StreamsView, EpollView, UserdataView,
           SocketsView;
      ghost var w := View();
      hash := hash[easy := proxy];
      assert HashView() == w.hash[easy := proxy.id];
    }

    // set_proxy_curl.
    method SetProxy(s: QuicProxyStream, proxy: QuicProxyCurl)
      requires Shaped() && Live(proxy) && LiveStream(s)
      modifies s`proxy, s`fetched
      ensures Shaped()
      ensures s.View() == old(s.View()).(proxy := Some(proxy.id), fetched := true)
    {
      hide Tables, EpollTable, MultiTable;
      s.proxy := proxy;
      s.fetched := true;
    }

    method Link(s: QuicProxyStream, proxy: QuicProxyCurl)
      requires Shaped() && Live(proxy) && LiveStream(s)
      modifies s`proxy, s`fetched
      ensures Shaped()
      ensures s.View() == old(s.View()).(proxy := Some(proxy.id), fetched := true)
      ensures View() == old(View()).(streams := old(View()).streams[s.id := s.View()])
    {
      hide Shaped, HashView, DeadView, ProxiesView, StreamsView, EpollView, UserdataView, SocketsView;
      ghost var w := View();
      ViewEntries();
      Distinct();
      SetProxy(s, proxy);
      OnlyStream(w, s);
    }

    method StartTables(proxy: QuicProxyCurl, r: Request, peerIp: string, asked: Option<int>)
      requires Shaped() && Live(proxy) && proxy.requestBody == []
      modifies proxy`requestHeaderList, proxy`requestBody, multi`handles, multi`userdata, this`timer
      ensures Shaped()
      ensures proxy.requestHeaderList ==
              old(proxy.requestHeaderList) + Relay.RequestLines(r.headers) + [Relay.CString("x-real-ip: " + peerIp)]
      ensures proxy.View() == old(proxy.View()).(body := UploadBody(r))
      ensures multi.handles == if r.validMethod then old(multi.handles) + {proxy.easy} else old(multi.handles)
      ensures multi.userdata == if r.validMethod then old(multi.userdata)[proxy.easy := proxy] else old(multi.userdata)
      ensures timer == if r.validMethod then Asked(old(timer), asked) else old(timer)
      ensures View() == old(View()).(proxies := ProxiesView(), userdata := UserdataView(), multi := multi.handles,
                                     timer := timer)
    {
      hide EpollTable, Links, Uploads, HashView, DeadView, ProxiesView, StreamsView, EpollView, UserdataView,
           SocketsView, QuicProxyCurl.View, Asked;
      Distinct();
      proxy.StartHttp(r, peerIp, asked);
    }

    // A proxy with its request enters the multi, if the method is valid.
    static function Started(w: World, p: Pid, x: Proxy, valid: bool, asked: Option<int>): World {
      var w1 := w.(proxies := w.proxies[p := x]);
      if valid
      then w1.(userdata := w1.userdata[x.easy := p], multi := w1.multi + {x.easy}, timer := Asked(w1.timer, asked))
      else w1
    }

    lemma UserdataIs(userdata: map<Handle, Pid>)
      requires multi.userdata.Keys == userdata.Keys
      requires forall h :: h in userdata ==> multi.userdata[h].id == userdata[h]
      ensures UserdataView() == userdata
    {
    }

    method Start(proxy: QuicProxyCurl, r: Request, peerIp: string, asked: Option<int>)
      requires Shaped() && Live(proxy) && proxy.requestHeaderList == [] && proxy.requestBody == []
      modifies proxy`requestHeaderList, proxy`requestBody, multi`handles, multi`userdata, this`timer
      ensures Shaped()
      ensures proxy.requestHeaderList == Relay.RequestLines(r.headers) + [Relay.CString("x-real-ip: " + peerIp)]
      ensures proxy.View() == old(proxy.View()).(body := UploadBody(r))
      ensures View() == Started(old(View()), proxy.id, proxy.View(), r.validMethod, asked)
    {
      hide Shaped, HashView, DeadView, ProxiesView, StreamsView, EpollView, SocketsView, QuicProxyCurl.View, Uploads,
           Asked, Relay.RequestLines, Relay.CString;
      Distinct();
      ghost var w := View();
      ViewEntries();
      ProxyEasy(proxy);
      StartTables(proxy, r, peerIp, asked);
      ProxyEasy(proxy);
      UserdataIs(if r.validMethod then w.userdata[proxy.easy := proxy.id] else w.userdata);
      hide UserdataView;
      ghost var w1 := w.(userdata := UserdataView(), multi := multi.handles, timer := timer);
      OnlyProxy(w1, proxy);
    }

    lemma ProxyEasy(proxy: QuicProxyCurl)
      ensures proxy.View().easy == proxy.easy
    {
    }

    // Creating, linking and starting, put together.
    lemma FetchIs(w: World, id: Pid, s: Sid, easy: Handle, r: Request, asked: Option<int>, y: Proxy)
      requires s in w.streams && id !in w.proxies && y == Proxy(easy, -1, Some(s), Relay.INITIAL, [], 0, [])
      ensures var w1 := w.(proxies := w.proxies[id := y], hash := w.hash[easy := id],
                           streams := w.streams[s := w.streams[s].(proxy := Some(id), fetched := true)]);
              Started(w1, id, y.(body := UploadBody(r)), r.validMethod, asked)
              == Fetch(w, id, s, easy, r, asked)
    {
      var x := y.(body := UploadBody(r));
      assert w.proxies[id := y][id := x] == w.proxies[id := x];
    }

    method FetchResponseFromBackend(ghost id: Pid, easy: Handle, s: QuicProxyStream, r: Request, peerIp: string,
                                    asked: Option<int>)
      requires Valid() && LiveStream(s) && LegalEvent(View(), Fetching(id, s.id, easy, r, asked))
      modifies this`hash, this`proxies, this`timer, multi`handles, multi`userdata, s`proxy, s`fetched
      ensures Valid() && View() == Fetch(old(View()), id, s.id, easy, r, asked)
      ensures id in proxies && proxies == old(proxies)[id := proxies[id]] && fresh(proxies[id])
      ensures proxies[id].requestHeaderList == Relay.RequestLines(r.headers) + [Relay.CString("x-real-ip: " + peerIp)]
    {
      hide Inv, Shaped, View, QuicProxyCurl.View, QuicProxyStream.View, Fetch, Uploads;
      ghost var w := View();
      ViewEntries();
      FetchKeeps(w, id, s.id, easy, r, asked);
      var proxy := CreateProxyCurl(id, easy, s);
      ghost var y := proxy.View();
      Link(s, proxy);
      Start(proxy, r, peerIp, asked);
      FetchIs(w, id, s.id, easy, r, asked, y);
    }

    // ---------- sockets ----------

    ghost function Id(p: QuicProxyCurl?): Option<Pid> { if p == null then None else Some(p.id) }

    // Unregisters the descriptor the proxy remembers.
    method CurlRemoveSock(proxy: QuicProxyCurl?)
      requires Shaped() && (proxy != null ==> Live(proxy))
      modifies epoll
      ensures Shaped() && View() == RemoveSock(old(View()), Id(proxy))
    {
      hide Tables, MultiTable, Links, HashView, DeadView, ProxiesView, StreamsView, UserdataView, SocketsView;
      ghost var w := View();
      ViewEntries();
      if proxy != null {
        if proxy.sockfd != -1 {
          epoll.UnregisterFD(proxy.sockfd);
          assert EpollView() == w.epoll - {proxy.sockfd};
        }
      }
    }

    method SetRead(fd: int, on: bool)
      requires Shaped()
      modifies epoll
      ensures Shaped()
      ensures var w := old(View());
              View() == if fd in w.epoll then w.(epoll := w.epoll[fd := w.epoll[fd].(read := on)]) else w
    {
      hide Tables, MultiTable, Links, HashView, DeadView, ProxiesView, StreamsView, UserdataView, SocketsView;
      ghost var w := View();
      epoll.SetRead(fd, on);
      assert EpollView() == if fd in w.epoll then w.epoll[fd := w.epoll[fd].(read := on)] else w.epoll;
    }

    method SetWrite(fd: int, on: bool)
      requires Shaped()
      modifies epoll
      ensures Shaped()
      ensures var w := old(View());
              View() == if fd in w.epoll then w.(epoll := w.epoll[fd := w.epoll[fd].(write := on)]) else w
    {
      hide Tables, MultiTable, Links, HashView, DeadView, ProxiesView, StreamsView, UserdataView, SocketsView;
      ghost var w := View();
      epoll.SetWrite(fd, on);
      assert EpollView() == if fd in w.epoll then w.epoll[fd := w.epoll[fd].(write := on)] else w.epoll;
    }

    method CurlSetSock(fd: int, a: Action)
      requires Shaped()
      modifies epoll
      ensures Shaped() && View() == SetSock(old(View()), fd, a)
    {
      hide Shaped, View;
      ghost var w := View();
      if a.read {
        SetRead(fd, true);
      } else {
        SetRead(fd, false);
      }
      if a.write {
        SetWrite(fd, true);
      } else {
        SetWrite(fd, false);
      }
      assert fd in w.epoll ==>
        w.epoll[fd := w.epoll[fd].(read := a.read)][fd := w.epoll[fd].(read := a.read, write := a.write)]
        == w.epoll[fd := w.epoll[fd].(read := a.read, write := a.write)];
    }

    // set_sockfd.
    method RememberSocket(proxy: QuicProxyCurl, fd: int)
      requires Shaped() && Live(proxy)
      modifies proxy`sockfd
      ensures Shaped() && proxy.View() == old(proxy.View()).(sockfd := fd)
      ensures View() == old(View()).(proxies := old(View()).proxies[proxy.id := proxy.View()])
    {
      hide Shaped, HashView, DeadView, ProxiesView, StreamsView, EpollView, UserdataView, SocketsView;
      Distinct();
      ghost var w := View();
      ViewEntries();
      proxy.sockfd := fd;
      OnlyProxy(w, proxy);
    }

    method Register(fd: int, proxy: QuicProxyCurl)
      requires Shaped() && Live(proxy)
      modifies epoll
      ensures Shaped() && View() == old(View()).(epoll := old(View()).epoll[fd := Registration(proxy.id, true, true)])
    {
      hide Tables, MultiTable, Links, HashView, DeadView, ProxiesView, StreamsView, UserdataView, SocketsView;
      ghost var w := View();
      epoll.RegisterFD(fd, proxy);
      assert EpollView() == w.epoll[fd := Registration(proxy.id, true, true)];
    }

    // curl_multi_assign.
    method Assign(easy: Handle, proxy: QuicProxyCurl)
      requires Shaped() && Live(proxy)
      modifies multi`sockets
      ensures Shaped()
      ensures var w := old(View());
              View() == if easy in w.sockets
                        then w.(sockets := w.sockets[easy := w.sockets[easy].(pointer := Some(proxy.id))])
                        else w
    {
      hide Tables, EpollTable, Links, HashView, DeadView, ProxiesView, StreamsView, EpollView, UserdataView;
      ghost var w := View();
      if easy in multi.sockets {
        multi.sockets := multi.sockets[easy := multi.sockets[easy].(pointer := proxy)];
        assert SocketsView() == w.sockets[easy := w.sockets[easy].(pointer := Some(proxy.id))];
      }
    }

    lemma HashEntry(easy: Handle)
      requires Shaped()
      ensures easy in hash <==> easy in View().hash
      ensures easy in hash ==> Live(hash[easy]) && View().hash[easy] == hash[easy].id
    {
    }

    method CurlAddSock(fd: int, easy: Handle, a: Action)
      requires Shaped()
      modifies epoll, multi`sockets, proxies.Values`sockfd
      ensures Shaped() && View() == AddSock(old(View()), fd, easy, a)
    {
      hide Shaped, HashView, DeadView, ProxiesView, StreamsView, EpollView, UserdataView, SocketsView;
      HashEntry(easy);
      if easy !in hash {
        return;
      }
      ViewEntries();
      var proxy := hash[easy];
      RememberSocket(proxy, fd);
      Register(fd, proxy);
      CurlSetSock(fd, a);
      Assign(easy, proxy);
    }

    method CurlSockCB(easy: Handle, fd: int, what: Option<Action>, sockp: QuicProxyCurl?)
      requires Shaped() && (sockp != null ==> Live(sockp))
      modifies epoll, multi`sockets, proxies.Values`sockfd
      ensures Shaped()
      ensures View() == match what
                        case None => RemoveSock(old(View()), Id(sockp))
                        case Some(a) =>
                          if sockp == null then AddSock(old(View()), fd, easy, a) else SetSock(old(View()), fd, a)
    {
      hide Shaped, View, AddSock, SetSock, RemoveSock;
      if what.None? {
        CurlRemoveSock(sockp);
      } else {
        if sockp == null {
          CurlAddSock(fd, easy, what.value);
        } else {
          CurlSetSock(fd, what.value);
        }
      }
    }

    method Track(easy: Handle, fd: int, pointer: QuicProxyCurl?, a: Action)
      requires Shaped() && (pointer != null ==> Live(pointer))
      modifies multi`sockets
      ensures Shaped()
      ensures View() == old(View()).(sockets := old(View()).sockets[easy := Tracked(fd, Id(pointer), a)])
    {
      hide Tables, EpollTable, Links, HashView, DeadView, ProxiesView, StreamsView, EpollView, UserdataView;
      ghost var w := View();
      multi.sockets := multi.sockets[easy := SocketEntry(fd, pointer, a)];
      assert SocketsView() == w.sockets[easy := Tracked(fd, Id(pointer), a)];
    }

    method Untrack(easy: Handle)
      requires Shaped()
      modifies multi`sockets
      ensures Shaped() && View() == old(View()).(sockets := old(View()).sockets - {easy})
    {
      hide Tables, EpollTable, Links, HashView, DeadView, ProxiesView, StreamsView, EpollView, UserdataView;
      ghost var w := View();
      multi.sockets := multi.sockets - {easy};
      assert SocketsView() == w.sockets - {easy};
    }

    lemma SocketEntries(easy: Handle)
      requires Shaped()
      ensures easy in multi.sockets <==> easy in View().sockets
      ensures easy in multi.sockets ==>
                && (multi.sockets[easy].pointer != null ==> Live(multi.sockets[easy].pointer))
                && View().sockets[easy] ==
                   Tracked(multi.sockets[easy].fd, Id(multi.sockets[easy].pointer), multi.sockets[easy].action)
    {
    }

    // libcurl reports a socket: its own bookkeeping around the callback.
    method ReportSocket(easy: Handle, fd: int, what: Option<Action>)
      requires Shaped()
      modifies epoll, multi`sockets, proxies.Values`sockfd
      ensures Shaped() && View() == OnSocket(old(View()), easy, fd, what)
    {
      hide Shaped, View, AddSock, SetSock, RemoveSock;
      SocketEntries(easy);
      var sockp := if easy in multi.sockets then multi.sockets[easy].pointer else null;
      if what.Some? {
        Track(easy, fd, sockp, what.value);
        CurlSockCB(easy, fd, what, sockp);
      } else {
        CurlSockCB(easy, fd, what, sockp);
        Untrack(easy);
      }
    }

    // ---------- the end of a transfer ----------

    method LeaveMulti(easy: Handle)
      requires Shaped()
      modifies multi`handles
      ensures Shaped() && View() == old(View()).(multi := old(View()).multi - {easy})
    {
      hide Tables, EpollTable, Links, HashView, DeadView, ProxiesView, StreamsView, EpollView, UserdataView,
           SocketsView;
      multi.handles := multi.handles - {easy};
    }

    // curl_multi_remove_handle.
    method RemoveHandle(easy: Handle, asked: Option<int>)
      requires Shaped()
      modifies this`timer, epoll, multi`sockets, multi`handles, proxies.Values`sockfd
      ensures Shaped() && View() == TransferGraph.RemoveHandle(old(View()), easy, asked)
    {
      hide Shaped, View, OnSocket;
      SocketEntries(easy);
      if easy in multi.sockets {
        ReportSocket(easy, multi.sockets[easy].fd, None);
      }
      LeaveMulti(easy);
      if asked.Some? {
        SetTimer(asked.value);
      }
    }

    method BuryEntry(easy: Handle)
      requires Shaped()
      modifies this`hash, this`dead
      ensures Shaped() && View() == Bury(old(View()), easy)
    {
      hide EpollTable, MultiTable, Links, ProxiesView, StreamsView, EpollView, UserdataView, SocketsView;
      ghost var w := View();
      if easy in hash {
        dead := [hash[easy]] + dead;
        hash := hash - {easy};
        assert DeadView() == [w.hash[easy]] + w.dead;
        assert HashView() == w.hash - {easy};
      }
    }

    // Out of the multi and onto the dead list.
    method Retire(easy: Handle, asked: Option<int>)
      requires Shaped()
      modifies this`hash, this`dead, this`timer, epoll, multi`sockets, multi`handles, proxies.Values`sockfd
      ensures Shaped() && View() == Bury(TransferGraph.RemoveHandle(old(View()), easy, asked), easy)
    {
      hide Shaped, View, TransferGraph.RemoveHandle, Bury;
      RemoveHandle(easy, asked);
      BuryEntry(easy);
    }

    // One DONE message. The user pointer is followed before and after the proxy has moved
    // to the dead list.
    method FinishTransfer(easy: Handle, asked: Option<int>)
      requires Shaped() && easy in multi.handles
      modifies this`hash, this`dead, this`timer, epoll, multi`sockets, multi`handles
      modifies proxies.Values`sockfd, proxies.Values`stream, streams.Values`proxy
      ensures Shaped() && View() == OnDone(old(View()), easy, asked)
    {
      hide Shaped, View, TransferGraph.RemoveHandle, Bury, Depart;
      UserdataEntry(easy);
      ViewEntries();
      var proxy := multi.userdata[easy];
      Retire(easy, asked);
      ProxyLink(proxy);
      LeaveStream(proxy);
    }

    method LeaveStream(proxy: QuicProxyCurl)
      requires Shaped() && Live(proxy)
      modifies proxy`stream, (if proxy.stream == null then {} else {proxy.stream})`proxy
      ensures Shaped() && View() == Depart(old(View()), proxy.id)
    {
      hide Shaped, View, Unlink;
      ProxyLink(proxy);
      ViewEntries();
      if proxy.stream != null {
        DetachBoth(proxy, proxy.stream);
      }
    }

    lemma UserdataEntry(easy: Handle)
      requires Shaped() && easy in multi.handles
      ensures easy in multi.userdata && Live(multi.userdata[easy])
      ensures easy in View().userdata && View().userdata[easy] == multi.userdata[easy].id
      ensures multi.userdata[easy] in proxies.Values
    {
    }

    lemma ProxyLink(p: QuicProxyCurl)
      requires Shaped() && Live(p)
      ensures p.stream != null ==> LiveStream(p.stream) && p.stream in streams.Values
      ensures p.id in View().proxies && View().proxies[p.id] == p.View() && p in proxies.Values
    {
    }

    // No pointer leads to a proxy on the dead list.
    ghost predicate DeadUnused()
      reads this, epoll, multi, streams.Values
    {
      && (forall h :: h in hash ==> hash[h].id !in DeadView())
      && (forall fd :: fd in epoll.entries ==> epoll.entries[fd].callback.id !in DeadView())
      && (forall h :: h in multi.sockets && multi.sockets[h].pointer != null ==> multi.sockets[h].pointer.id !in DeadView())
      && (forall h :: h in multi.handles ==> h in multi.userdata && multi.userdata[h].id !in DeadView())
      && (forall i :: i in streams && streams[i].proxy != null ==> streams[i].proxy.id !in DeadView())
    }

    lemma DeadIsUnused()
      requires Valid()
      ensures DeadUnused()
    {
      var w := View();
      InvPointsAtLive(w);
      hide Inv, Links;
      forall h | h in hash ensures hash[h].id !in DeadView() {
        assert h in w.hash;
        HashIsNotDead(w, h);
      }
      forall fd | fd in epoll.entries ensures epoll.entries[fd].callback.id !in DeadView() {
        assert fd in w.epoll;
        HashedIsNotDead(w, w.epoll[fd].callback);
      }
      forall h | h in multi.sockets && multi.sockets[h].pointer != null
        ensures multi.sockets[h].pointer.id !in DeadView()
      {
        assert h in w.sockets;
        HashedIsNotDead(w, w.sockets[h].pointer.value);
      }
      forall h | h in multi.handles ensures h in multi.userdata && multi.userdata[h].id !in DeadView() {
        assert h in w.multi;
        HashedIsNotDead(w, w.userdata[h]);
      }
      forall i | i in streams && streams[i].proxy != null ensures streams[i].proxy.id !in DeadView() {
        assert i in w.streams;
        HashedIsNotDead(w, w.streams[i].proxy.value);
      }
    }

    // Dropping the list destroys its proxies: they are no longer live.
    method DropDead()
      requires Shaped() && DeadUnused()
      modifies this`dead, this`proxies, this`freed
      ensures Shaped()
      ensures proxies == map i | i in old(proxies) && i !in old(DeadView()) :: old(proxies)[i]
      ensures dead == [] && freed == old(freed) + set p | p in old(DeadView())
    {
      hide DeadView;
      ghost var ids := DeadView();
      dead := [];
      freed := freed + set p | p in ids;
      proxies := map i | i in proxies && i !in ids :: proxies[i];
      assert EpollTable() && MultiTable() by { hide Tables, Links; }
      assert Tables() by { hide EpollTable, MultiTable, Links; }
      assert Links() by { hide Tables, EpollTable, MultiTable; }
    }

    method DropDeadView()
      requires Shaped() && DeadUnused()
      modifies this`dead, this`proxies, this`freed
      ensures Shaped()
      ensures var w := old(View());
              View() == w.(dead := [], proxies := w.proxies - (set p | p in w.dead), freed := w.freed + set p | p in w.dead)
      ensures forall i :: i in proxies ==> i in old(proxies) && proxies[i] == old(proxies)[i]
    {
      hide Shaped, DeadUnused, HashView, StreamsView, EpollView, UserdataView, SocketsView;
      ghost var w := View();
      DropDead();
      assert DeadView() == [];
      assert ProxiesView() == w.proxies - (set p | p in w.dead);
    }

    method ClearDeadList()
      requires Valid()
      modifies this`dead, this`proxies, this`freed
      ensures Valid() && View() == ClearDead(old(View()))
      ensures forall i :: i in proxies ==> i in old(proxies) && proxies[i] == old(proxies)[i]
    {
      hide Inv, Shaped, View, DeadUnused;
      ghost var w := View();
      ClearKeeps(w);
      InvIsFaultless(ClearDead(w));
      InvIsFaultless(w);
      DeadIsUnused();
      DropDeadView();
    }

    method ReadMessage() returns (m: Message)
      requires Shaped() && multi.messages != []
      modifies multi`messages
      ensures m == old(multi.messages)[0] && multi.messages == old(multi.messages)[1..]
      ensures Shaped() && View() == old(View()).(messages := old(View()).messages[1..])
    {
      hide Tables, EpollTable, Links, HashView, DeadView, ProxiesView, StreamsView, EpollView,
           UserdataView, SocketsView;
      m := multi.messages[0];
      multi.messages := multi.messages[1..];
    }

    // Finished transfers are unlinked and moved to the dead list; the list is cleared only
    // when there was no message at all.
    method CheckCurlMultiInfo()
      requires Valid()
      modifies this`hash, this`dead, this`proxies, this`freed, this`timer
      modifies epoll, multi`sockets, multi`handles, multi`messages
      modifies proxies.Values`sockfd, proxies.Values`stream, streams.Values`proxy
      ensures Valid() && View() == CheckInfo(old(View()))
      ensures forall i :: i in proxies ==> i in old(proxies) && proxies[i] == old(proxies)[i]
    {
      hide Inv, Shaped, View, OnDone, ClearDead;
      var isCleanDeadProxy := true;
      ViewMessages();
      while multi.messages != []
        invariant Valid() && proxies == old(proxies) && multi.messages == View().messages
        invariant isCleanDeadProxy ==> View() == old(View())
        invariant !isCleanDeadProxy ==> old(View()).messages != []
        invariant ReadMessages(View()) == ReadMessages(old(View()))
        decreases |multi.messages|
      {
        ghost var w := View();
        MessageKeeps(w);
        MessagesAreConsumed(w);
        PopKeeps(w);
        var m := ReadMessage();
        if m.Done? {
          ViewHandles();
          FinishTransfer(m.easy, m.asked);
        }
        assert View() == OnMessage(w);
        ViewMessages();
        isCleanDeadProxy := false;
      }
      if isCleanDeadProxy {
        ClearDeadList();
      }
    }

    lemma ViewHandles()
      ensures View().multi == multi.handles
    {
    }

    lemma ViewMessages()
      ensures View().messages == multi.messages
    {
    }

    // ---------- libcurl at work ----------

    method CurlMultiTimerCB(timeoutMs: int)
      modifies this`timer
      ensures timer == TimerFor(timeoutMs)
    {
      if timeoutMs > 0 {
        timer := TimerSpec(1, 0, timeoutMs / 1000, (timeoutMs % 1000) * 1000 * 1000);
      } else if timeoutMs == 0 {
        timer := TimerSpec(1, 0, 0, 1);
      } else {
        timer := TimerSpec(0, 0, 0, 0);
      }
    }

    method ReadTables(proxy: QuicProxyCurl, size: nat)
      requires Shaped() && Live(proxy) && proxy.requestBodyPos <= |proxy.requestBody|
      modifies proxy`requestBodyPos, proxy`uploaded
      ensures Shaped()
      ensures var pos := old(proxy.requestBodyPos);
              var next := pos + Relay.ReadLength(old(proxy.requestBody), pos, size);
              proxy.View() == old(proxy.View()).(
                bodyPos := next, uploaded := old(proxy.uploaded) + old(proxy.requestBody)[pos..next])
    {
      hide Shaped, QuicProxyCurl.View, Relay.ReadLength;
      var dest := new byte[size];
      var _ := proxy.ReadQuicCallback(dest);
    }

    method ReadInto(proxy: QuicProxyCurl, size: nat)
      requires Shaped() && Live(proxy) && proxy.requestBodyPos <= |proxy.requestBody|
      modifies proxy`requestBodyPos, proxy`uploaded
      ensures Shaped()
      ensures var pos := old(proxy.requestBodyPos);
              var next := pos + Relay.ReadLength(old(proxy.requestBody), pos, size);
              proxy.View() == old(proxy.View()).(
                bodyPos := next, uploaded := old(proxy.uploaded) + old(proxy.requestBody)[pos..next])
      ensures View() == old(View()).(proxies := old(View()).proxies[proxy.id := proxy.View()])
    {
      hide Shaped, QuicProxyCurl.View, HashView, DeadView, ProxiesView, StreamsView, EpollView, UserdataView,
           SocketsView, Relay.ReadLength;
      ghost var w := View();
      ViewEntries();
      Distinct();
      ReadTables(proxy, size);
      OnlyProxy(w, proxy);
    }

    method UploadTo(easy: Handle, size: nat)
      requires Shaped() && easy in multi.handles
      requires easy in multi.userdata && multi.userdata[easy].requestBodyPos <= |multi.userdata[easy].requestBody|
      modifies proxies.Values`requestBodyPos, proxies.Values`uploaded
      ensures Shaped() && View() == OnUpload(old(View()), easy, size)
    {
      hide Shaped, View;
      UserdataEntry(easy);
      ProxyLink(multi.userdata[easy]);
      ReadInto(multi.userdata[easy], size);
    }

    lemma UploadAllowed(easy: Handle)
      requires Valid() && easy in multi.handles
      ensures easy in multi.userdata && multi.userdata[easy].requestBodyPos <= |multi.userdata[easy].requestBody|
    {
      hide Inv, Shaped, HashView, DeadView, ProxiesView, StreamsView, EpollView, SocketsView, UserdataView;
      UserdataEntry(easy);
      ViewEntries();
      UploadingAt(View(), multi.userdata[easy].id);
    }

    lemma MayBeCalled(easy: Handle)
      requires Valid() && easy in multi.handles
      ensures easy in multi.userdata && multi.userdata[easy].easy == easy && multi.userdata[easy].backend == this
      ensures multi.userdata[easy].Called()
    {
      hide Inv, Shaped, HashView, DeadView, ProxiesView, StreamsView, EpollView, SocketsView, UserdataView;
      UserdataEntry(easy);
      ViewEntries();
      ViewHandles();
      Distinct();
      EasyOf(View(), easy);
    }

    // One callback of libcurl.
    method RunCallback(c: Callback)
      requires Valid() && LegalCallback(View(), c)
      modifies this`timer, epoll, multi`sockets, multi`messages, proxies.Values, streams.Values
      ensures Valid() && View() == OnCallback(old(View()), c)
    {
      hide Inv, Shaped, View, OnSocket, OnTransfer, OnUpload, QuicProxyCurl.Called;
      CallbackKeeps(View(), c);
      ViewHandles();
      match c
      case Socket(easy, fd, what) => ReportSocket(easy, fd, what);
      case Transfer(easy, input, overhead, closes) => RunTransfer(easy, input, overhead, closes);
      case Upload(easy, size) =>
        UploadAllowed(easy);
        UploadTo(easy, size);
      case Timer(ms) => SetTimer(ms);
      case Queue(m) => QueueMessage(m);
    }

    method RunTransfer(easy: Handle, input: Relay.Input, overhead: nat, closes: seq<Sid>)
      requires Valid() && LegalCallback(View(), Transfer(easy, input, overhead, closes))
      modifies proxies.Values, streams.Values
      ensures Shaped() && View() == OnTransfer(old(View()), easy, input, overhead, closes)
    {
      hide Inv, Shaped, View, OnTransfer, QuicProxyCurl.Called;
      ViewHandles();
      ViewEntries();
      MayBeCalled(easy);
      var proxy := multi.userdata[easy];
      if input.Line? {
        var _ := proxy.HttpHeaderCallback(input.line, overhead, closes);
      } else {
        var _ := proxy.WriteQuicCallback(input.data, overhead, closes);
      }
    }

    method SetTimer(timeoutMs: int)
      requires Shaped()
      modifies this`timer
      ensures Shaped() && View() == old(View()).(timer := TimerFor(timeoutMs))
    {
      hide Shaped, HashView, DeadView, ProxiesView, StreamsView, EpollView, UserdataView, SocketsView;
      CurlMultiTimerCB(timeoutMs);
    }

    method QueueMessage(m: Message)
      requires Shaped()
      modifies multi`messages
      ensures Shaped() && View() == old(View()).(messages := old(View()).messages + [m])
    {
      hide Tables, EpollTable, Links, HashView, DeadView, ProxiesView, StreamsView, EpollView, UserdataView,
           SocketsView;
      multi.messages := multi.messages + [m];
    }

    // curl_multi_socket_action: the callbacks it makes, then the count of running transfers.
    method CurlMultiSocketAction(script: seq<Callback>, running: int)
      requires Valid() && LegalCallbacks(View(), script)
      modifies this`timer, this`stillRunning, epoll, multi`sockets, multi`messages, proxies.Values, streams.Values
      ensures Valid() && View() == OnCallbacks(old(View()), script).(stillRunning := running)
    {
      hide Inv, Shaped, View, LegalCallback, OnCallback;
      for i := 0 to |script|
        invariant Valid() && LegalCallbacks(View(), script[i..])
        invariant OnCallbacks(View(), script[i..]) == OnCallbacks(old(View()), script)
      {
        assert script[i..][0] == script[i] && script[i..][1..] == script[i + 1..];
        RunCallback(script[i]);
      }
      SetRunning(running);
    }

    lemma ViewRunning()
      ensures View().stillRunning == stillRunning
    {
    }

    method DisarmTimer()
      requires Shaped()
      modifies this`timer
      ensures Shaped() && View() == old(View()).(timer := DISARMED)
    {
      hide Shaped, HashView, DeadView, ProxiesView, StreamsView, EpollView, UserdataView, SocketsView;
      timer := TimerSpec(0, 0, 0, 0);
    }

    method SetRunning(running: int)
      requires Valid()
      modifies this`stillRunning
      ensures Valid() && View() == old(View()).(stillRunning := running)
    {
      hide Inv, Shaped, HashView, DeadView, ProxiesView, StreamsView, EpollView, UserdataView, SocketsView;
      RunningKeeps(View(), running);
      stillRunning := running;
    }

    // ---------- the session ----------

    method CreateIncomingStream(s: Sid)
      requires Valid() && LegalEvent(View(), NewStream(s))
      modifies this`streams
      ensures Valid() && View() == Step(old(View()), NewStream(s))
      ensures proxies == old(proxies) && s in streams && streams == old(streams)[s := streams[s]] && fresh(streams[s])
    {
      hide Inv, Shaped, View;
      ghost var w := View();
      ViewEntries();
      NewStreamKeeps(w, s);
      var stream := new QuicProxyStream(s);
      Admit(stream);
    }

    method Admit(s: QuicProxyStream)
      requires Shaped() && s.proxy == null && s.id !in streams
      modifies this`streams
      ensures Shaped() && streams == old(streams)[s.id := s]
      ensures View() == old(View()).(streams := old(View()).streams[s.id := s.View()])
    {
      hide Shaped, HashView, DeadView, ProxiesView, StreamsView, EpollView, UserdataView, SocketsView;
      ghost var w := View();
      ViewEntries();
      AddStream(s);
      OnlyStream(w, s);
    }

    method AddStream(s: QuicProxyStream)
      requires Shaped() && s.proxy == null && s.id !in streams
      modifies this`streams
      ensures Shaped() && streams == old(streams)[s.id := s]
    {
      streams := streams[s.id := s];
    }

    // The base-class destructor closes the backend's side first.
    method DestroyStream(s: QuicProxyStream)
      requires Valid() && LiveStream(s)
      modifies this`streams, this`gone, s`proxy, (if s.proxy == null then {} else {s.proxy})`stream
      ensures Valid() && View() == Step(old(View()), Destroying(s.id))
      ensures proxies == old(proxies) && streams == old(streams) - {s.id}
    {
      hide Inv, Shaped, View, CloseStream;
      ghost var w := View();
      ViewEntries();
      DestroyKeeps(w, s.id);
      CloseKeeps(w, s.id);
      CloseBackendResponseStream(s);
      StreamUnlinked(s);
      DropStream(s);
    }

    lemma StreamUnlinked(s: QuicProxyStream)
      requires Valid() && LiveStream(s) && View().streams[s.id].proxy.None?
      ensures forall i :: i in proxies ==> proxies[i].stream != s
    {
      hide Ownership, Multi, Sockets, Histories, HashView, DeadView, EpollView, UserdataView, SocketsView;
      forall i | i in proxies ensures proxies[i].stream != s {
        assert View().proxies[i] == proxies[i].View();
      }
    }

    method DropStream(s: QuicProxyStream)
      requires Shaped() && LiveStream(s) && forall i :: i in proxies ==> proxies[i].stream != s
      modifies this`streams, this`gone
      ensures Shaped() && streams == old(streams) - {s.id}
      ensures View() == old(View()).(streams := old(View()).streams - {s.id}, gone := old(View()).gone + {s.id})
    {
      hide EpollTable, MultiTable, HashView, DeadView, ProxiesView, EpollView, UserdataView, SocketsView;
      ghost var w := View();
      streams := streams - {s.id};
      gone := gone + {s.id};
      assert StreamsView() == w.streams - {s.id};
    }

    method SendOn(s: QuicProxyStream, n: nat)
      requires Shaped() && LiveStream(s) && n <= s.buffered
      modifies s`buffered, s`unacked, s`finSent, s`writeClosed
      ensures Shaped() && s.View() == Send(old(s.View()), n)
      ensures View() == old(View()).(streams := old(View()).streams[s.id := s.View()])
    {
      hide Shaped, Send, QuicProxyStream.View, HashView, DeadView, ProxiesView, StreamsView, EpollView,
           UserdataView, SocketsView;
      ghost var w := View();
      ViewEntries();
      Distinct();
      s.Sent(n);
      OnlyStream(w, s);
    }

    method AckOn(s: QuicProxyStream, n: nat)
      requires Shaped() && LiveStream(s) && n <= s.unacked
      modifies s`unacked, s`acked, s`finSent, s`writeClosed, s`ackCloses
      ensures Shaped() && s.View() == Ack(old(s.View()), n)
      ensures View() == old(View()).(streams := old(View()).streams[s.id := s.View()])
    {
      hide Shaped, Ack, QuicProxyStream.View, HashView, DeadView, ProxiesView, StreamsView, EpollView,
           UserdataView, SocketsView;
      ghost var w := View();
      ViewEntries();
      Distinct();
      LinkIsLive(s);
      s.OnStreamFrameAcked(n);
      OnlyStream(w, s);
    }

    method SendBuffered(s: QuicProxyStream, n: nat)
      requires Valid() && LiveStream(s) && n <= s.buffered
      modifies s`buffered, s`unacked, s`finSent, s`writeClosed
      ensures Valid() && View() == Step(old(View()), Sending(s.id, n))
    {
      hide Inv, Shaped, View, Sound, Send;
      ghost var w := View();
      ViewEntries();
      StepKeeps(w, Sending(s.id, n));
      SendOn(s, n);
    }

    method Acknowledge(s: QuicProxyStream, n: nat)
      requires Valid() && LiveStream(s) && LegalEvent(View(), Acked(s.id, n))
      modifies s`unacked, s`acked, s`finSent, s`writeClosed, s`ackCloses
      ensures Valid() && View() == Step(old(View()), Acked(s.id, n))
    {
      hide Inv, Shaped, View, Sound, Ack;
      ghost var w := View();
      ViewEntries();
      StepKeeps(w, Acked(s.id, n));
      LinkIsLive(s);
      AckOn(s, n);
    }

    // What an event names is among the objects.
    lemma EventTargets()
      requires Shaped()
      ensures View().streams.Keys == streams.Keys
      ensures forall s :: s in streams ==>
                && LiveStream(streams[s]) && streams[s].id == s
                && View().streams[s].buffered == streams[s].buffered
      ensures forall s :: s in streams && streams[s].proxy != null ==> streams[s].proxy in proxies.Values
      ensures View().epoll.Keys == epoll.entries.Keys
      ensures forall fd :: fd in epoll.entries ==>
                Live(epoll.entries[fd].callback) && epoll.entries[fd].callback.backend == this
    {
    }

    // The part of an event shared by proxies and the timer.
    method SocketActionAndCheck(script: seq<Callback>, running: int)
      requires Valid() && LegalCallbacks(View(), script)
      modifies this, epoll, multi, proxies.Values, streams.Values
      ensures Valid() && View() == SocketAction(old(View()), script, running)
      ensures streams == old(streams)
      ensures forall i :: i in proxies ==> i in old(proxies) && proxies[i] == old(proxies)[i]
    {
      hide Inv, Shaped, View, OnCallbacks, CheckInfo;
      CurlMultiSocketAction(script, running);
      CheckCurlMultiInfo();
    }

    lemma RegisteredCallback(fd: int)
      requires Valid() && fd in epoll.entries
      ensures fd in View().epoll && View().epoll[fd].callback == epoll.entries[fd].callback.id
      ensures Live(epoll.entries[fd].callback) && epoll.entries[fd].callback.sockfd == fd
    {
      hide Inv, ProxiesView, StreamsView, HashView, DeadView, UserdataView, SocketsView;
      SockfdOf(View(), fd);
      ProxyLink(epoll.entries[fd].callback);
    }
  }

  // ---------- the curl timer ----------

  class QuicCurlTimer {
    const backend: QuicProxyBackend

    constructor (backend: QuicProxyBackend)
      ensures this.backend == backend
    {
      this.backend := backend;
    }

    // Reading the timer may find nothing (EAGAIN); otherwise libcurl acts on its timeouts.
    method OnEvent(eagain: bool, script: seq<Callback>, running: int)
      requires backend.Valid() && LegalEvent(backend.View(), TimerFired(eagain, script, running))
      modifies backend, backend.epoll, backend.multi, backend.proxies.Values, backend.streams.Values
      ensures backend.Valid() && backend.View() == Step(old(backend.View()), TimerFired(eagain, script, running))
      ensures backend.streams == old(backend.streams)
      ensures forall i :: i in backend.proxies ==>
                i in old(backend.proxies) && backend.proxies[i] == old(backend.proxies)[i]
    {
      hide Inv, QuicProxyBackend.Shaped, QuicProxyBackend.View, SocketAction;
      if eagain {
        return;
      }
      backend.SocketActionAndCheck(script, running);
    }
  }

  // ---------- whole runs of the objects ----------

  // What the epoll server and the session do with one event.
  method HandleEvent(timer: QuicCurlTimer, e: Event, peerIp: Sid -> string)
    requires timer.backend.Valid() && LegalEvent(timer.backend.View(), e)
    modifies timer.backend, timer.backend.epoll, timer.backend.multi
    modifies timer.backend.proxies.Values, timer.backend.streams.Values
    ensures timer.backend.Valid() && timer.backend.View() == Step(old(timer.backend.View()), e)
    ensures var b := timer.backend;
            && (forall i :: i in b.proxies ==>
                  (i in old(b.proxies) && b.proxies[i] == old(b.proxies)[i]) || fresh(b.proxies[i]))
            && (forall i :: i in b.streams ==>
                  (i in old(b.streams) && b.streams[i] == old(b.streams)[i]) || fresh(b.streams[i]))
  {
    hide Inv, QuicProxyBackend.Shaped, QuicProxyBackend.View, QuicProxyStream.View, LegalCallbacks, Fetch,
         CloseStream, OnReady, SocketAction, OnAck, Send, Uploads;
    var b := timer.backend;
    b.EventTargets();
    match e
    case NewStream(s) => b.CreateIncomingStream(s);
    case Fetching(p, s, easy, r, asked) => b.FetchResponseFromBackend(p, easy, b.streams[s], r, peerIp(s), asked);
    case Closing(s) =>
      CloseKeeps(b.View(), s);
      b.CloseBackendResponseStream(b.streams[s]);
    case Destroying(s) => b.DestroyStream(b.streams[s]);
    case Sending(s, n) => b.SendBuffered(b.streams[s], n);
    case Acked(s, n) => b.Acknowledge(b.streams[s], n);
    case SocketReady(fd, script, running) => b.epoll.entries[fd].callback.OnEvent(fd, script, running);
    case TimerFired(eagain, script, running) => timer.OnEvent(eagain, script, running);
  }

  method HandleEvents(timer: QuicCurlTimer, es: seq<Event>, peerIp: Sid -> string)
    requires timer.backend.Valid() && LegalRun(timer.backend.View(), es)
    modifies timer.backend, timer.backend.epoll, timer.backend.multi
    modifies timer.backend.proxies.Values, timer.backend.streams.Values
    ensures timer.backend.Valid() && timer.backend.View() == Run(old(timer.backend.View()), es)
  {
    hide Inv, QuicProxyBackend.Shaped, QuicProxyBackend.View, LegalEvent, Step;
    var b := timer.backend;
    for k := 0 to |es|
      invariant b.Valid() && LegalRun(b.View(), es[k..])
      invariant Run(b.View(), es[k..]) == Run(old(b.View()), es)
      invariant forall i :: i in b.proxies ==> b.proxies[i] in old(b.proxies.Values) || fresh(b.proxies[i])
      invariant forall i :: i in b.streams ==> b.streams[i] in old(b.streams.Values) || fresh(b.streams[i])
    {
      assert es[k..][0] == es[k] && es[k..][1..] == es[k + 1..];
      HandleEvent(timer, es[k], peerIp);
    }
  }

  // From a new backend: the objects are at every event where the run of the specification
  // is, and what they point at is live.
  method Serve(es: seq<Event>, peerIp: Sid -> string) returns (backend: QuicProxyBackend)
    requires LegalRun(START, es)
    ensures backend.Valid() && backend.View() == Run(START, es)
    ensures !Run(START, es).fault && PointersLive(backend.View())
  {
    hide Inv, QuicProxyBackend.Shaped, QuicProxyBackend.View, LegalEvent, Step, Run, LegalRun, PointersLive;
    backend := new QuicProxyBackend();
    var timer := new QuicCurlTimer(backend);
    HandleEvents(timer, es, peerIp);
    EveryPointerIsLive(Between(es));
  }
}
