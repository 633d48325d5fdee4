// The invariant of the transfer graph, and that every legal event keeps it.
module TransferInvariant {
  import opened Basics
  import Relay
  import opened TransferGraph

  // Every live proxy is owned once: by the hash under its own handle, or by the dead list.
  ghost predicate Ownership(w: World) {
    && (forall h :: h in w.hash ==> w.hash[h] in w.proxies && w.proxies[w.hash[h]].easy == h)
    && (forall i :: 0 <= i < |w.dead| ==> w.dead[i] in w.proxies && w.proxies[w.dead[i]].stream.None?)
    && (forall i, j :: 0 <= i < j < |w.dead| ==> w.dead[i] != w.dead[j])
    && (forall p :: p in w.proxies ==> (p in w.dead <==> !Hashed(w, p)))
    && (forall p, q :: p in w.proxies && q in w.proxies && w.proxies[p].easy == w.proxies[q].easy ==> p == q)
    && w.proxies.Keys !! w.freed
  }

  predicate Hashed(w: World, p: Pid)
    requires p in w.proxies
  {
    w.proxies[p].easy in w.hash && w.hash[w.proxies[p].easy] == p
  }

  // Stream and proxy point at each other or at nothing, and at live objects only.
  ghost predicate Links(w: World) {
    && (forall p :: p in w.proxies && w.proxies[p].stream.Some? ==>
          var s := w.proxies[p].stream.value;
          s in w.streams && w.streams[s].proxy == Some(p))
    && (forall s :: s in w.streams && w.streams[s].proxy.Some? ==>
          var p := w.streams[s].proxy.value;
          p in w.proxies && w.proxies[p].stream == Some(s))
  }

  // Handles in the multi are hashed, and libcurl's user pointer for them is their proxy.
  ghost predicate Multi(w: World) {
    && (forall h :: h in w.multi ==> h in w.hash && h in w.userdata && w.userdata[h] == w.hash[h])
    && (forall i :: 0 <= i < |w.messages| && w.messages[i].Done? ==> w.messages[i].easy in w.multi)
    && (forall i, j :: 0 <= i < j < |w.messages| && w.messages[i].Done? && w.messages[j].Done? ==>
          w.messages[i].easy != w.messages[j].easy)
  }

  // libcurl's sockets and the epoll registrations are the same relation.
  ghost predicate Sockets(w: World) {
    && (forall h :: h in w.sockets ==> Registered(w, h))
    && (forall h, k :: h in w.sockets && k in w.sockets && w.sockets[h].fd == w.sockets[k].fd ==> h == k)
    && (forall fd :: fd in w.epoll ==>
          && w.epoll[fd].callback in w.proxies
          && var h := w.proxies[w.epoll[fd].callback].easy;
             h in w.sockets && w.sockets[h].fd == fd)
  }

  predicate Registered(w: World, h: Handle)
    requires h in w.sockets
  {
    var t := w.sockets[h];
    && h in w.multi && h in w.hash && w.hash[h] in w.proxies
    && t.pointer == Some(w.hash[h])
    && w.proxies[w.hash[h]].sockfd == t.fd && t.fd >= 0
    && t.fd in w.epoll
    && w.epoll[t.fd] == Registration(w.hash[h], t.action.read, t.action.write)
  }

  // What libcurl has read of the request body.
  predicate Uploading(x: Proxy) {
    x.bodyPos <= |x.body| && x.uploaded == x.body[..x.bodyPos]
  }

  // What a stream carries is what the relay made of the inputs heard while linked.
  ghost predicate Histories(w: World) {
    && (forall s :: s in w.streams ==> Sound(w.streams[s]))
    && (forall p :: p in w.proxies ==>
          && Uploading(w.proxies[p])
          && (w.proxies[p].stream.Some? && w.proxies[p].stream.value in w.streams ==>
                w.proxies[p].relay == Relay.Feed(Relay.INITIAL, w.streams[w.proxies[p].stream.value].heard).state))
    && w.streams.Keys !! w.gone
  }

  ghost predicate Sound(s: Stream) {
    && s.log == Relay.Feed(Relay.INITIAL, s.heard).frames
    && (s.log != [] || s.heard != [] || s.proxy.Some? ==> s.fetched)
    && (s.buffered > 0 || s.unacked > 0 || s.acked > 0 ==> s.log != [])
    && s.ackCloses <= 1
    && (s.ackCloses == 1 ==> s.fetched && s.proxy.None? && s.finSent && s.writeClosed)
    && (s.finBuffered <==> Relay.Fins(s.log) > 0)
    && s.finSent == s.writeClosed
    && (s.finSent ==> s.buffered == 0 && (s.ackCloses == 1 || s.finBuffered))
  }

  ghost predicate Inv(w: World) {
    Ownership(w) && Links(w) && Multi(w) && Sockets(w) && Histories(w) && !w.fault
  }

  lemma StartIsInv()
    ensures Inv(START)
  {
  }

  // ---------- frames: steps that leave a part of the graph alone ----------

  lemma OwnershipFrame(w: World, w': World)
    requires Ownership(w)
    requires w'.hash == w.hash && w'.dead == w.dead && w'.freed == w.freed && w'.proxies.Keys == w.proxies.Keys
    requires forall p :: p in w.proxies ==>
               w'.proxies[p].easy == w.proxies[p].easy && (w.proxies[p].stream.None? ==> w'.proxies[p].stream.None?)
    ensures Ownership(w')
  {
    assert forall p :: p in w.proxies ==> Hashed(w', p) == Hashed(w, p);
  }

  lemma SocketsFrame(w: World, w': World)
    requires Sockets(w)
    requires w'.hash == w.hash && w'.sockets == w.sockets && w'.epoll == w.epoll && w'.multi == w.multi
    requires w'.proxies.Keys == w.proxies.Keys
    requires forall p :: p in w.proxies ==>
               w'.proxies[p].easy == w.proxies[p].easy && w'.proxies[p].sockfd == w.proxies[p].sockfd
    ensures Sockets(w')
  {
    assert forall h :: h in w.sockets ==> Registered(w, h) && Registered(w', h);
  }

  lemma MultiFrame(w: World, w': World)
    requires Multi(w)
    requires w'.hash == w.hash && w'.multi == w.multi && w'.userdata == w.userdata && w'.messages == w.messages
    ensures Multi(w')
  {
  }

  lemma LinksFrame(w: World, w': World)
    requires Links(w)
    requires w'.proxies.Keys == w.proxies.Keys && w'.streams.Keys == w.streams.Keys
    requires forall p :: p in w.proxies ==> w'.proxies[p].stream == w.proxies[p].stream
    requires forall s :: s in w.streams ==> w'.streams[s].proxy == w.streams[s].proxy
    ensures Links(w')
  {
  }

  // ---------- one step of each kind ----------

  lemma UnlinkLinks(w: World, p: Pid, s: Sid)
    requires Links(w) && p in w.proxies && w.proxies[p].stream == Some(s)
    ensures s in w.streams && Links(Unlink(w, p, s))
  {
  }

  lemma UnlinkedIsSound(st: Stream)
    requires Sound(st)
    ensures st.proxy.Some? ==> Sound(st.(proxy := None))
  {
  }

  lemma UnlinkHistories(w: World, p: Pid, s: Sid)
    requires Links(w) && Histories(w) && p in w.proxies && w.proxies[p].stream == Some(s)
    ensures s in w.streams && Histories(Unlink(w, p, s))
  {
    UnlinkLinks(w, p, s);
    assert w.streams[s].proxy == Some(p) && Sound(w.streams[s]);
    UnlinkedIsSound(w.streams[s]);
    OnlyLinked(w, p, s);
    hide Sound, Links;
  }

  lemma UnlinkKeeps(w: World, p: Pid, s: Sid)
    requires Inv(w)
    requires p in w.proxies && w.proxies[p].stream == Some(s)
    ensures s in w.streams && Inv(Unlink(w, p, s))
  {
    hide Ownership, Links, Multi, Sockets, Histories;
    UnlinkLinks(w, p, s);
    UnlinkHistories(w, p, s);
    MultiFrame(w, Unlink(w, p, s));
    OwnershipFrame(w, Unlink(w, p, s));
    SocketsFrame(w, Unlink(w, p, s));
  }

  lemma LinkOf(w: World, s: Sid)
    requires Links(w) && s in w.streams && w.streams[s].proxy.Some?
    ensures w.streams[s].proxy.value in w.proxies && w.proxies[w.streams[s].proxy.value].stream == Some(s)
  {
  }

  lemma CloseKeeps(w: World, s: Sid)
    requires Inv(w) && s in w.streams
    ensures Inv(CloseStream(w, s))
    ensures CloseStream(w, s).streams.Keys == w.streams.Keys
    ensures CloseStream(w, s).streams[s].proxy.None?
  {
    hide Ownership, Links, Multi, Sockets, Histories;
    if w.streams[s].proxy.Some? {
      LinkOf(w, s);
      UnlinkKeeps(w, w.streams[s].proxy.value, s);
    }
  }

  lemma {:induction false} CloseAllKeeps(w: World, ss: seq<Sid>)
    requires Inv(w) && forall s :: s in ss ==> s in w.streams
    ensures Inv(CloseAll(w, ss))
    decreases |ss|
  {
    if ss != [] {
      CloseKeeps(w, ss[0]);
      CloseAllKeeps(CloseStream(w, ss[0]), ss[1..]);
    }
  }

  lemma DestroyLinks(w: World, w': World, s: Sid)
    requires Links(w) && Histories(w) && s in w.streams && w.streams[s].proxy.None?
    requires w' == w.(streams := w.streams - {s}, gone := w.gone + {s})
    ensures Links(w') && Histories(w')
  {
    assert forall p :: p in w.proxies ==> w.proxies[p].stream != Some(s);
  }

  lemma DestroyKeeps(w: World, s: Sid)
    requires Inv(w) && s in w.streams
    ensures Inv(Step(w, Destroying(s)))
  {
    hide Ownership, Links, Multi, Sockets, Histories;
    CloseKeeps(w, s);
    var w1 := CloseStream(w, s);
    var w' := Step(w, Destroying(s));
    OwnershipFrame(w1, w');
    SocketsFrame(w1, w');
    MultiFrame(w1, w');
    DestroyLinks(w1, w', s);
  }

  lemma FetchOwnership(w: World, w': World, p: Pid, easy: Handle, x: Proxy)
    requires Ownership(w) && p !in w.proxies && p !in w.freed && x.easy == easy
    requires forall q :: q in w.proxies ==> w.proxies[q].easy != easy
    requires w'.proxies == w.proxies[p := x] && w'.hash == w.hash[easy := p]
    requires w'.dead == w.dead && w'.freed == w.freed
    ensures easy !in w.hash && Ownership(w')
  {
    assert easy !in w.hash;
    assert forall q :: q in w.proxies ==> Hashed(w', q) == Hashed(w, q);
    assert Hashed(w', p);
    assert p !in w.dead;
  }

  lemma FetchSockets(w: World, w': World, p: Pid, easy: Handle, x: Proxy)
    requires Sockets(w) && p !in w.proxies && easy !in w.hash
    requires w'.proxies == w.proxies[p := x] && w'.hash == w.hash[easy := p] && w'.multi >= w.multi
    requires w'.sockets == w.sockets && w'.epoll == w.epoll
    ensures Sockets(w')
  {
    forall h | h in w.sockets ensures Registered(w', h) { assert Registered(w, h); }
  }

  lemma FetchMulti(w: World, w': World, p: Pid, easy: Handle)
    requires Multi(w) && easy !in w.hash && w'.hash == w.hash[easy := p] && w'.messages == w.messages
    requires (w'.userdata == w.userdata && w'.multi == w.multi)
          || (w'.userdata == w.userdata[easy := p] && w'.multi == w.multi + {easy})
    ensures Multi(w')
  {
  }

  lemma FetchLinks(w: World, w': World, p: Pid, s: Sid, x: Proxy)
    requires Links(w) && Histories(w) && p !in w.proxies && s in w.streams && !w.streams[s].fetched
    requires x.stream == Some(s) && x.relay == Relay.INITIAL && x.bodyPos == 0 && x.uploaded == []
    requires w'.proxies == w.proxies[p := x] && w'.gone == w.gone
    requires w'.streams == w.streams[s := w.streams[s].(proxy := Some(p), fetched := true)]
    ensures Links(w') && Histories(w')
  {
    var st := w.streams[s];
    assert Sound(st);
    assert st.heard == [] && st.proxy.None?;
    assert Sound(w'.streams[s]);
    assert forall q :: q in w.proxies ==> w.proxies[q].stream != Some(s);
  }

  // What a fetch leaves, with a valid method or not: a new proxy in the hash, linked with the
  // stream both ways, with nothing relayed, read or registered.
  lemma FetchLaw(w: World, p: Pid, s: Sid, easy: Handle, r: Request, asked: Option<int>)
    requires s in w.streams
    ensures var w' := Fetch(w, p, s, easy, r, asked);
            && p in w'.proxies && s in w'.streams && easy in w'.hash && w'.hash[easy] == p
            && w'.proxies[p] == Proxy(easy, -1, Some(s), Relay.INITIAL, UploadBody(r), 0, [])
            && w'.streams[s] == w.streams[s].(proxy := Some(p), fetched := true)
            && w'.multi == w.multi + (if r.validMethod then {easy} else {})
            && w'.epoll == w.epoll && w'.sockets == w.sockets && w'.dead == w.dead
  {
    hide UploadBody;
  }

  lemma FetchKeeps(w: World, p: Pid, s: Sid, easy: Handle, r: Request, asked: Option<int>)
    requires Inv(w) && LegalEvent(w, Fetching(p, s, easy, r, asked))
    ensures Inv(Fetch(w, p, s, easy, r, asked))
  {
    hide Ownership, Links, Multi, Sockets, Histories;
    var w' := Fetch(w, p, s, easy, r, asked);
    FetchOwnership(w, w', p, easy, w'.proxies[p]);
    FetchSockets(w, w', p, easy, w'.proxies[p]);
    FetchMulti(w, w', p, easy);
    FetchLinks(w, w', p, s, w'.proxies[p]);
  }

  lemma StreamUpdateKeeps(w: World, s: Sid, s': Stream)
    requires Inv(w) && s in w.streams
    requires Sound(s') && s'.proxy == w.streams[s].proxy && s'.heard == w.streams[s].heard
    ensures Inv(w.(streams := w.streams[s := s']))
  {
    hide Ownership, Links, Multi, Sockets, Histories;
    var w' := w.(streams := w.streams[s := s']);
    OwnershipFrame(w, w');
    SocketsFrame(w, w');
    MultiFrame(w, w');
    LinksFrame(w, w');
    HistoriesAfterStreamUpdate(w, s, s');
  }

  lemma HistoriesAfterStreamUpdate(w: World, s: Sid, s': Stream)
    requires Histories(w) && s in w.streams && Sound(s') && s'.heard == w.streams[s].heard
    ensures Histories(w.(streams := w.streams[s := s']))
  {
  }

  lemma NewStreamLinks(w: World, s: Sid)
    requires Links(w) && Histories(w) && s !in w.streams && s !in w.gone
    ensures var w' := w.(streams := w.streams[s := NEW_STREAM]); Links(w') && Histories(w')
  {
    assert Sound(NEW_STREAM);
  }

  lemma NewStreamKeeps(w: World, s: Sid)
    requires Inv(w) && LegalEvent(w, NewStream(s))
    ensures Inv(Step(w, NewStream(s)))
  {
    hide Ownership, Links, Multi, Sockets, Histories;
    var w' := Step(w, NewStream(s));
    OwnershipFrame(w, w');
    SocketsFrame(w, w');
    MultiFrame(w, w');
    NewStreamLinks(w, s);
  }

  // ---------- callbacks ----------

  function Added(w: World, easy: Handle, fd: int, a: Action): World
    requires easy in w.hash && w.hash[easy] in w.proxies
  {
    var p := w.hash[easy];
    w.(proxies := w.proxies[p := w.proxies[p].(sockfd := fd)],
       epoll := w.epoll[fd := Registration(p, a.read, a.write)],
       sockets := w.sockets[easy := Tracked(fd, Some(p), a)])
  }

  lemma AddSockAdds(w: World, easy: Handle, fd: int, a: Action)
    requires easy in w.hash && w.hash[easy] in w.proxies && easy !in w.sockets
    ensures OnSocket(w, easy, fd, Some(a)) == Added(w, easy, fd, a)
  {
    var w' := OnSocket(w, easy, fd, Some(a));
    var p := w.hash[easy];
    assert w'.epoll == w.epoll[fd := Registration(p, a.read, a.write)];
    assert w'.sockets == w.sockets[easy := Tracked(fd, Some(p), a)];
  }

  lemma AddSockSockets(w: World, easy: Handle, fd: int, a: Action)
    requires Ownership(w) && Sockets(w) && easy in w.hash && easy in w.multi && easy !in w.sockets
    requires fd >= 0 && forall h :: h in w.sockets ==> w.sockets[h].fd != fd
    ensures fd !in w.epoll
    ensures Sockets(Added(w, easy, fd, a))
  {
    var w' := Added(w, easy, fd, a);
    var p := w.hash[easy];
    forall h | h in w'.sockets ensures Registered(w', h) {
      if h != easy { assert Registered(w, h) && w.proxies[w.hash[h]].easy == h; }
    }
    forall e | e in w'.epoll
      ensures w'.epoll[e].callback in w'.proxies
      ensures var h := w'.proxies[w'.epoll[e].callback].easy; h in w'.sockets && w'.sockets[h].fd == e
    {
      if e != fd { assert w.proxies[w.epoll[e].callback].easy in w.sockets; }
    }
  }

  lemma MultiHash(w: World, easy: Handle)
    requires Ownership(w) && Multi(w) && easy in w.multi
    ensures easy in w.hash && w.hash[easy] in w.proxies && w.proxies[w.hash[easy]].easy == easy
    ensures easy in w.userdata && w.userdata[easy] == w.hash[easy]
  {
  }

  lemma UploadingOf(w: World, p: Pid)
    requires Histories(w) && p in w.proxies
    ensures Uploading(w.proxies[p])
  {
  }

  lemma AddSockKeeps(w: World, easy: Handle, fd: int, a: Action)
    requires Inv(w) && LegalCallback(w, Socket(easy, fd, Some(a))) && easy !in w.sockets
    ensures Inv(OnSocket(w, easy, fd, Some(a)))
  {
    hide Ownership, Links, Multi, Sockets, Histories;
    MultiHash(w, easy);
    AddSockAdds(w, easy, fd, a);
    AddSockSockets(w, easy, fd, a);
    var w' := Added(w, easy, fd, a);
    OwnershipFrame(w, w');
    MultiFrame(w, w');
    LinksFrame(w, w');
    HistoriesFrame(w, w');
  }

  lemma HistoriesFrame(w: World, w': World)
    requires Histories(w) && w'.streams == w.streams && w'.gone == w.gone && w'.proxies.Keys == w.proxies.Keys
    requires forall p :: p in w.proxies ==>
               && w'.proxies[p].stream == w.proxies[p].stream && w'.proxies[p].relay == w.proxies[p].relay
               && (Uploading(w.proxies[p]) ==> Uploading(w'.proxies[p]))
    ensures Histories(w')
  {
  }

  lemma SetSockSockets(w: World, easy: Handle, fd: int, a: Action)
    requires Sockets(w) && easy in w.sockets && fd == w.sockets[easy].fd
    ensures Sockets(OnSocket(w, easy, fd, Some(a)))
    ensures var w' := OnSocket(w, easy, fd, Some(a));
            w' == w.(epoll := w'.epoll, sockets := w'.sockets)
  {
    var w' := OnSocket(w, easy, fd, Some(a));
    assert Registered(w, easy);
    forall h | h in w'.sockets ensures Registered(w', h) {
      assert Registered(w, h);
    }
    forall e | e in w'.epoll
      ensures w'.epoll[e].callback in w'.proxies
      ensures var h := w'.proxies[w'.epoll[e].callback].easy; h in w'.sockets && w'.sockets[h].fd == e
    {
      assert w.proxies[w.epoll[e].callback].easy in w.sockets;
    }
  }

  lemma SetSockKeeps(w: World, easy: Handle, fd: int, a: Action)
    requires Inv(w) && LegalCallback(w, Socket(easy, fd, Some(a))) && easy in w.sockets
    ensures Inv(OnSocket(w, easy, fd, Some(a)))
  {
    hide Ownership, Links, Multi, Sockets, Histories;
    SetSockSockets(w, easy, fd, a);
    var w' := OnSocket(w, easy, fd, Some(a));
    MultiFrame(w, w');
    OwnershipFrame(w, w');
    LinksFrame(w, w');
    HistoriesFrame(w, w');
  }

  function Removed(w: World, easy: Handle): World
    requires easy in w.sockets
  {
    w.(epoll := w.epoll - {w.sockets[easy].fd}, sockets := w.sockets - {easy})
  }

  lemma RemoveSockIs(w: World, easy: Handle, fd: int)
    requires Sockets(w) && easy in w.sockets
    ensures OnSocket(w, easy, fd, None) == Removed(w, easy)
  {
    assert Registered(w, easy);
  }

  lemma RemovedSockets(w: World, easy: Handle)
    requires Ownership(w) && Sockets(w) && easy in w.sockets
    ensures Sockets(Removed(w, easy))
  {
    var w' := Removed(w, easy);
    forall h | h in w'.sockets ensures Registered(w', h) {
      assert Registered(w, h);
    }
    forall e | e in w'.epoll
      ensures w'.epoll[e].callback in w'.proxies
      ensures var h := w'.proxies[w'.epoll[e].callback].easy; h in w'.sockets && w'.sockets[h].fd == e
    {
      assert w.proxies[w.epoll[e].callback].easy in w.sockets;
    }
  }

  lemma RemoveSockSockets(w: World, easy: Handle, fd: int)
    requires Ownership(w) && Sockets(w) && easy in w.sockets
    ensures OnSocket(w, easy, fd, None) == Removed(w, easy)
    ensures Sockets(OnSocket(w, easy, fd, None))
  {
    hide OnSocket, Sockets, Ownership, Removed;
    RemoveSockIs(w, easy, fd);
    RemovedSockets(w, easy);
  }

  lemma RemoveSockKeeps(w: World, easy: Handle, fd: int)
    requires Inv(w) && easy in w.sockets
    ensures Inv(OnSocket(w, easy, fd, None))
  {
    hide Ownership, Links, Multi, Sockets, Histories;
    RemoveSockSockets(w, easy, fd);
    var w' := OnSocket(w, easy, fd, None);
    MultiFrame(w, w');
    OwnershipFrame(w, w');
    LinksFrame(w, w');
    HistoriesFrame(w, w');
  }

  function Relayed(w: World, p: Pid, s: Sid, i: Relay.Input, e: Relay.Effect, overhead: nat): World
    requires p in w.proxies && s in w.streams
  {
    w.(proxies := w.proxies[p := w.proxies[p].(relay := e.state)],
       streams := w.streams[s := Written(w.streams[s], i, e.frames, overhead)])
  }

  // A callback for a linked transfer: the relay, and after a write the closes.
  lemma TransferIs(w: World, easy: Handle, p: Pid, s: Sid, i: Relay.Input, overhead: nat, closes: seq<Sid>)
    requires easy in w.userdata && w.userdata[easy] == p
    requires p in w.proxies && w.proxies[p].stream == Some(s) && s in w.streams
    ensures var e := Relay.OnInput(w.proxies[p].relay, i);
            OnTransfer(w, easy, i, overhead, closes) ==
            if e.frames == [] then Relayed(w, p, s, i, e, 0) else CloseAll(Relayed(w, p, s, i, e, overhead), closes)
  {
    hide Relay.OnInput, CloseAll;
  }

  lemma TransferCut(w: World, easy: Handle, i: Relay.Input, overhead: nat, closes: seq<Sid>)
    requires easy in w.userdata && w.userdata[easy] in w.proxies && w.proxies[w.userdata[easy]].stream.None?
    ensures OnTransfer(w, easy, i, overhead, closes) == w
  {
  }

  lemma WrittenIsSound(st: Stream, i: Relay.Input, e: Relay.Effect, overhead: nat)
    requires Sound(st) && st.proxy.Some?
    requires Relay.Feed(Relay.INITIAL, st.heard + [i]) == Relay.Fed(e.state, st.log + e.frames)
    ensures Sound(Written(st, i, e.frames, overhead))
  {
    Relay.FinsAppend(st.log, e.frames);
    assert e.frames == [] ==> st.log + e.frames == st.log;
    hide Relay.Fins, Relay.Feed, Payload;
  }

  lemma OnlyLinked(w: World, p: Pid, s: Sid)
    requires Links(w) && p in w.proxies && w.proxies[p].stream == Some(s)
    ensures forall q :: q in w.proxies && q != p ==> w.proxies[q].stream != Some(s)
  {
  }

  lemma RelayHistories(w: World, p: Pid, s: Sid, i: Relay.Input, e: Relay.Effect, overhead: nat)
    requires Links(w) && Histories(w) && p in w.proxies && w.proxies[p].stream == Some(s) && s in w.streams
    requires Relay.Feed(Relay.INITIAL, w.streams[s].heard + [i]) == Relay.Fed(e.state, w.streams[s].log + e.frames)
    ensures Histories(Relayed(w, p, s, i, e, overhead))
  {
    assert Sound(w.streams[s]) && w.streams[s].proxy.Some?;
    WrittenIsSound(w.streams[s], i, e, overhead);
    WrittenHears(w.streams[s], i, e.frames, overhead);
    OnlyLinked(w, p, s);
    hide Sound, Written, Links;
  }

  lemma WrittenHears(st: Stream, i: Relay.Input, frames: seq<Relay.Frame>, overhead: nat)
    ensures Written(st, i, frames, overhead).heard == st.heard + [i]
  {
  }

  lemma RelayKeeps(w: World, p: Pid, s: Sid, i: Relay.Input, e: Relay.Effect, overhead: nat)
    requires Inv(w) && p in w.proxies && w.proxies[p].stream == Some(s) && s in w.streams
    requires Relay.Feed(Relay.INITIAL, w.streams[s].heard + [i]) == Relay.Fed(e.state, w.streams[s].log + e.frames)
    ensures Inv(Relayed(w, p, s, i, e, overhead))
  {
    hide Ownership, Links, Multi, Sockets, Histories;
    RelayHistories(w, p, s, i, e, overhead);
    RelayFrames(w, Relayed(w, p, s, i, e, overhead));
  }

  lemma RelayFrames(w: World, w': World)
    requires Ownership(w) && Links(w) && Sockets(w) && Multi(w)
    requires w' == w.(proxies := w'.proxies, streams := w'.streams)
    requires w'.proxies.Keys == w.proxies.Keys && w'.streams.Keys == w.streams.Keys
    requires forall q :: q in w.proxies ==> w'.proxies[q] == w.proxies[q].(relay := w'.proxies[q].relay)
    requires forall s :: s in w.streams ==> w'.streams[s].proxy == w.streams[s].proxy
    ensures Ownership(w') && Links(w') && Sockets(w') && Multi(w')
  {
    hide Ownership, Links, Multi, Sockets, Histories;
    MultiFrame(w, w');
    OwnershipFrame(w, w');
    SocketsFrame(w, w');
    LinksFrame(w, w');
  }

  lemma NextInput(w: World, p: Pid, s: Sid, i: Relay.Input)
    requires Links(w) && Histories(w) && p in w.proxies && w.proxies[p].stream == Some(s)
    ensures s in w.streams
    ensures var e := Relay.OnInput(w.proxies[p].relay, i);
            Relay.Feed(Relay.INITIAL, w.streams[s].heard + [i]) == Relay.Fed(e.state, w.streams[s].log + e.frames)
  {
    Relay.FeedOne(Relay.INITIAL, w.streams[s].heard, i);
    assert Sound(w.streams[s]);
  }

  lemma TransferKeeps(w: World, easy: Handle, i: Relay.Input, overhead: nat, closes: seq<Sid>)
    requires Inv(w) && LegalCallback(w, Transfer(easy, i, overhead, closes))
    ensures Inv(OnTransfer(w, easy, i, overhead, closes))
  {
    hide Ownership, Links, Multi, Sockets, Histories, Relay.OnInput;
    MultiHash(w, easy);
    var p := w.userdata[easy];
    if w.proxies[p].stream.Some? {
      var s := w.proxies[p].stream.value;
      NextInput(w, p, s, i);
      var e := Relay.OnInput(w.proxies[p].relay, i);
      RelayKeeps(w, p, s, i, e, overhead);
      CloseAllKeeps(Relayed(w, p, s, i, e, overhead), closes);
    }
  }

  // A read touches the position and the history of one proxy.
  lemma ReadOn(w: World, easy: Handle, size: nat)
    requires easy in w.userdata && w.userdata[easy] in w.proxies && Uploading(w.proxies[w.userdata[easy]])
    ensures var p := w.userdata[easy];
            var w' := OnUpload(w, easy, size);
            && w' == w.(proxies := w'.proxies)
            && p in w'.proxies && Uploading(w'.proxies[p])
            && w'.proxies == w.proxies[p := w'.proxies[p]]
            && w'.proxies[p]
               == w.proxies[p].(bodyPos := w'.proxies[p].bodyPos, uploaded := w'.proxies[p].uploaded)
  {
  }

  lemma UploadKeeps(w: World, easy: Handle, size: nat)
    requires Inv(w) && easy in w.multi
    ensures Inv(OnUpload(w, easy, size))
  {
    hide Ownership, Links, Multi, Sockets, Histories;
    MultiHash(w, easy);
    UploadingOf(w, w.userdata[easy]);
    ReadOn(w, easy, size);
    hide OnUpload, Uploading;
    var w' := OnUpload(w, easy, size);
    MultiFrame(w, w');
    OwnershipFrame(w, w');
    SocketsFrame(w, w');
    LinksFrame(w, w');
    HistoriesFrame(w, w');
  }

  // An update of the fields the object graph does not involve.
  lemma AsideKeeps(w: World, w': World)
    requires Inv(w) && Multi(w')
    requires w' == w.(timer := w'.timer, stillRunning := w'.stillRunning, messages := w'.messages)
    ensures Inv(w')
  {
    hide Ownership, Links, Multi, Sockets, Histories;
    OwnershipFrame(w, w');
    SocketsFrame(w, w');
    LinksFrame(w, w');
    HistoriesFrame(w, w');
  }

  lemma QueueMulti(w: World, m: Message)
    requires Multi(w) && (m.Done? ==> m.easy in w.multi && Unreported(w.messages, m.easy))
    ensures Multi(w.(messages := w.messages + [m]))
  {
  }

  lemma PopMulti(w: World)
    requires Multi(w) && w.messages != []
    ensures Multi(w.(messages := w.messages[1..]))
    ensures w.messages[0].Done? ==>
              w.messages[0].easy in w.multi && Unreported(w.messages[1..], w.messages[0].easy)
  {
  }

  lemma CallbackKeeps(w: World, c: Callback)
    requires Inv(w) && LegalCallback(w, c)
    ensures Inv(OnCallback(w, c))
  {
    hide Inv;
    match c
    case Socket(easy, fd, what) =>
      if what.None? { RemoveSockKeeps(w, easy, fd); }
      else if easy in w.sockets { SetSockKeeps(w, easy, fd, what.value); }
      else { AddSockKeeps(w, easy, fd, what.value); }
    case Transfer(easy, i, overhead, closes) => TransferKeeps(w, easy, i, overhead, closes);
    case Upload(easy, size) => UploadKeeps(w, easy, size);
    case Timer(ms) => TimerKeeps(w, TimerFor(ms));
    case Queue(m) => QueueKeeps(w, m);
  }

  lemma TimerKeeps(w: World, t: TimerSpec)
    requires Inv(w)
    ensures Inv(w.(timer := t))
  {
    hide Ownership, Links, Multi, Sockets, Histories;
    MultiFrame(w, w.(timer := t));
    AsideKeeps(w, w.(timer := t));
  }

  lemma QueueKeeps(w: World, m: Message)
    requires Inv(w) && LegalCallback(w, Queue(m))
    ensures Inv(w.(messages := w.messages + [m]))
  {
    hide Ownership, Links, Multi, Sockets, Histories;
    QueueMulti(w, m);
    AsideKeeps(w, w.(messages := w.messages + [m]));
  }

  lemma {:induction false} CallbacksKeep(w: World, cs: seq<Callback>)
    requires Inv(w) && LegalCallbacks(w, cs)
    ensures Inv(OnCallbacks(w, cs))
    decreases |cs|
  {
    hide Inv, LegalCallback, OnCallback;
    if cs != [] {
      CallbackKeeps(w, cs[0]);
      CallbacksKeep(OnCallback(w, cs[0]), cs[1..]);
    }
  }

  // ---------- CheckCurlMultiInfo ----------

  // Between burying a proxy and unlinking it, everything but its stream link is in order.
  lemma BurySockets(w: World, easy: Handle)
    requires Ownership(w) && Sockets(w) && easy in w.hash && easy !in w.sockets
    ensures Sockets(Bury(w.(multi := w.multi - {easy}), easy))
  {
    var w1 := Bury(w.(multi := w.multi - {easy}), easy);
    forall h | h in w1.sockets ensures Registered(w1, h) { assert Registered(w, h); }
  }

  lemma BuryOwnership(w: World, w': World, easy: Handle)
    requires Ownership(w) && easy in w.hash && w.proxies[w.hash[easy]].stream.None?
    requires w'.hash == w.hash - {easy} && w'.dead == [w.hash[easy]] + w.dead
    requires w'.proxies == w.proxies && w'.freed == w.freed
    ensures Ownership(w')
  {
    var p := w.hash[easy];
    assert Hashed(w, p) && !Hashed(w', p) && p !in w.dead;
    assert forall q :: q in w.proxies && q != p ==> w.proxies[q].easy != easy && Hashed(w', q) == Hashed(w, q);
    assert forall q :: q in w'.dead <==> q == p || q in w.dead;
    forall i | 0 < i < |w'.dead| ensures w'.dead[i] == w.dead[i - 1] {}
  }

  lemma BuryMulti(w: World, easy: Handle)
    requires Multi(w) && easy in w.hash && Unreported(w.messages, easy)
    ensures Multi(Bury(w.(multi := w.multi - {easy}), easy))
  {
  }

  lemma BuryKeeps(w: World, easy: Handle)
    requires Inv(w) && easy in w.hash && Unreported(w.messages, easy) && easy !in w.sockets
    requires w.hash[easy] in w.proxies && w.proxies[w.hash[easy]].stream.None?
    ensures Inv(Bury(w.(multi := w.multi - {easy}), easy))
  {
    hide Ownership, Links, Multi, Sockets, Histories;
    var w1 := Bury(w.(multi := w.multi - {easy}), easy);
    BurySockets(w, easy);
    BuryOwnership(w, w1, easy);
    BuryMulti(w, easy);
    LinksFrame(w, w1);
    HistoriesFrame(w, w1);
  }

  // What processing a DONE message needs: the message itself is already popped. Unlinking
  // and burying touch different things, so the proof unlinks first.
  lemma DoneKeeps(w: World, easy: Handle, asked: Option<int>)
    requires Inv(w) && easy in w.multi && Unreported(w.messages, easy)
    ensures var w' := OnDone(w, easy, asked);
            && Inv(w')
            && w'.dead == [w.hash[easy]] + w.dead && w'.hash == w.hash - {easy}
            && w'.proxies.Keys == w.proxies.Keys && w'.freed == w.freed
  {
    hide Ownership, Links, Multi, Sockets, Histories;
    MultiHash(w, easy);
    var w0 := if easy in w.sockets then OnSocket(w, easy, w.sockets[easy].fd, None) else w;
    if easy in w.sockets {
      RemoveSockKeeps(w, easy, w.sockets[easy].fd);
      RemoveSockSockets(w, easy, w.sockets[easy].fd);
    }
    var w1 := w0.(timer := Asked(w0.timer, asked));
    TimerKeeps(w0, w1.timer);
    LeaveMultiKeeps(w1, easy);
    OnDoneIs(w, w0, easy, asked);
  }

  // The rest of OnDone once the handle has no socket.
  function Leave(w: World, easy: Handle): World
    requires easy in w.hash && w.hash[easy] in w.proxies
  {
    var p := w.hash[easy];
    var w1 := Bury(w.(multi := w.multi - {easy}), easy);
    match w.proxies[p].stream
    case Some(s) => if s in w.streams then Unlink(w1, p, s) else Fault(w1)
    case None => w1
  }

  lemma StreamOf(w: World, p: Pid)
    requires Links(w) && p in w.proxies && w.proxies[p].stream.Some?
    ensures w.proxies[p].stream.value in w.streams
  {
  }

  lemma LeaveMultiKeeps(w: World, easy: Handle)
    requires Inv(w) && easy in w.multi && Unreported(w.messages, easy) && easy !in w.sockets
    ensures easy in w.hash && w.hash[easy] in w.proxies && Inv(Leave(w, easy))
    ensures Leave(w, easy).dead == [w.hash[easy]] + w.dead && Leave(w, easy).hash == w.hash - {easy}
    ensures Leave(w, easy).proxies.Keys == w.proxies.Keys && Leave(w, easy).freed == w.freed
  {
    hide Ownership, Links, Multi, Sockets, Histories;
    MultiHash(w, easy);
    var p := w.hash[easy];
    match w.proxies[p].stream
    case None => BuryKeeps(w, easy);
    case Some(s) =>
      StreamOf(w, p);
      UnlinkKeeps(w, p, s);
      BuryKeeps(Unlink(w, p, s), easy);
      assert Leave(w, easy) == Bury(Unlink(w, p, s).(multi := w.multi - {easy}), easy);
  }

  lemma OnDoneIs(w: World, w0: World, easy: Handle, asked: Option<int>)
    requires easy in w.userdata && easy in w.hash && w.userdata[easy] == w.hash[easy] && w.hash[easy] in w.proxies
    requires w0 == if easy in w.sockets then OnSocket(w, easy, w.sockets[easy].fd, None) else w
    requires w0 == w.(epoll := w0.epoll, sockets := w0.sockets)
    ensures OnDone(w, easy, asked) == Leave(w0.(timer := Asked(w0.timer, asked)), easy)
  {
  }

  lemma MessageKeeps(w: World)
    requires Inv(w) && w.messages != []
    ensures Inv(OnMessage(w))
    ensures OnMessage(w).proxies.Keys == w.proxies.Keys && OnMessage(w).freed == w.freed
  {
    hide Ownership, Links, Multi, Sockets, Histories;
    var w1 := w.(messages := w.messages[1..]);
    PopMulti(w);
    AsideKeeps(w, w1);
    if w.messages[0].Done? { DoneKeeps(w1, w.messages[0].easy, w.messages[0].asked); }
  }

  lemma {:induction false} ReadKeeps(w: World)
    requires Inv(w)
    ensures Inv(ReadMessages(w))
    ensures ReadMessages(w).proxies.Keys == w.proxies.Keys && ReadMessages(w).freed == w.freed
    decreases |w.messages|
  {
    hide Inv, OnMessage;
    if w.messages != [] {
      MessageKeeps(w);
      MessagesAreConsumed(w);
      ReadKeeps(OnMessage(w));
    }
  }

  lemma ClearOwnership(w: World)
    requires Ownership(w) && !w.fault
    ensures Ownership(ClearDead(w)) && !ClearDead(w).fault
    ensures forall h :: h in w.hash ==> w.hash[h] !in w.dead
  {
    var w' := ClearDead(w);
    assert forall q :: q in w'.proxies ==> w'.proxies[q] == w.proxies[q] && Hashed(w', q) == Hashed(w, q);
    forall h | h in w'.hash ensures w'.hash[h] in w'.proxies {
      assert Hashed(w, w.hash[h]);
    }
  }

  lemma ClearSockets(w: World)
    requires Ownership(w) && Sockets(w) && forall h :: h in w.hash ==> w.hash[h] !in w.dead
    ensures Sockets(ClearDead(w))
  {
    var w' := ClearDead(w);
    forall h | h in w'.sockets ensures Registered(w', h) {
      assert Registered(w, h);
    }
    forall fd | fd in w'.epoll ensures w'.epoll[fd].callback in w'.proxies {
      var h := w.proxies[w.epoll[fd].callback].easy;
      assert Registered(w, h) && w.epoll[fd].callback == w.hash[h];
    }
  }

  lemma ClearLinks(w: World)
    requires Ownership(w) && Links(w) && Histories(w)
    ensures Links(ClearDead(w)) && Histories(ClearDead(w))
  {
    var w' := ClearDead(w);
    assert forall p :: p in w'.proxies ==> w'.proxies[p] == w.proxies[p];
    forall s | s in w'.streams && w'.streams[s].proxy.Some? ensures w'.streams[s].proxy.value in w'.proxies {
      var p := w.streams[s].proxy.value;
      assert w.proxies[p].stream == Some(s);
    }
  }

  lemma ClearKeeps(w: World)
    requires Inv(w)
    ensures Inv(ClearDead(w))
  {
    hide Ownership, Links, Multi, Sockets, Histories;
    ClearOwnership(w);
    ClearSockets(w);
    ClearLinks(w);
    MultiFrame(w, ClearDead(w));
  }

  lemma CheckKeeps(w: World)
    requires Inv(w)
    ensures Inv(CheckInfo(w))
  {
    hide Inv, ClearDead, ReadMessages;
    if w.messages == [] { ClearKeeps(w); } else { ReadKeeps(w); }
  }

  lemma ActionKeeps(w: World, script: seq<Callback>, running: int)
    requires Inv(w) && LegalCallbacks(w, script)
    ensures Inv(OnCallbacks(w, script).(stillRunning := running))
    ensures Inv(SocketAction(w, script, running))
  {
    hide Ownership, Links, Multi, Sockets, Histories;
    CallbacksKeep(w, script);
    var w1 := OnCallbacks(w, script);
    MultiFrame(w1, w1.(stillRunning := running));
    AsideKeeps(w1, w1.(stillRunning := running));
    CheckKeeps(w1.(stillRunning := running));
  }
}
