// What holds over every run of the transfer graph.
module TransferRuns {
  import opened Basics
  import HeaderText
  import Relay
  import opened TransferGraph
  import opened TransferInvariant

  // ---------- what callbacks leave alone ----------

  // The same request of the same transfer.
  predicate SameTransfer(x: Proxy, y: Proxy) {
    x.easy == y.easy && x.body == y.body
  }

  // The ownership of proxies, as far as callbacks and links do not touch it.
  predicate SameOwners(w: World, w': World) {
    && w'.hash == w.hash && w'.dead == w.dead && w'.freed == w.freed && w'.multi == w.multi
    && w'.proxies.Keys == w.proxies.Keys && w'.streams.Keys == w.streams.Keys && w'.gone == w.gone
    && forall p :: p in w.proxies ==> SameTransfer(w.proxies[p], w'.proxies[p])
  }

  lemma CloseOwners(w: World, s: Sid)
    requires Inv(w) && s in w.streams
    ensures SameOwners(w, CloseStream(w, s))
  {
    hide Ownership, Links, Multi, Sockets, Histories;
    if w.streams[s].proxy.Some? { LinkOf(w, s); }
  }

  lemma {:induction false} CloseAllOwners(w: World, ss: seq<Sid>)
    requires Inv(w) && forall s :: s in ss ==> s in w.streams
    ensures SameOwners(w, CloseAll(w, ss))
    decreases |ss|
  {
    hide Inv;
    if ss != [] {
      CloseKeeps(w, ss[0]);
      CloseOwners(w, ss[0]);
      CloseAllOwners(CloseStream(w, ss[0]), ss[1..]);
    }
  }

  lemma TransferOwners(w: World, easy: Handle, i: Relay.Input, overhead: nat, closes: seq<Sid>)
    requires Inv(w) && LegalCallback(w, Transfer(easy, i, overhead, closes))
    ensures SameOwners(w, OnTransfer(w, easy, i, overhead, closes))
  {
    hide Ownership, Links, Multi, Sockets, Histories, Relay.OnInput;
    MultiHash(w, easy);
    var p := w.userdata[easy];
    if w.proxies[p].stream.Some? {
      var s := w.proxies[p].stream.value;
      NextInput(w, p, s, i);
      var e := Relay.OnInput(w.proxies[p].relay, i);
      RelayKeeps(w, p, s, i, e, overhead);
      CloseAllOwners(Relayed(w, p, s, i, e, overhead), closes);
    }
  }

  // A socket callback changes registrations, libcurl's sockets and one sockfd; the fault
  // flag only if it meets a freed proxy.
  lemma SocketChanges(w: World, easy: Handle, fd: int, what: Option<Action>)
    ensures var w' := OnSocket(w, easy, fd, what);
            w' == w.(epoll := w'.epoll, sockets := w'.sockets, proxies := w'.proxies, fault := w'.fault)
    ensures SameOwners(w, OnSocket(w, easy, fd, what))
  {
    hide AddSock, RemoveSock, SetSock, SameOwners;
    var sockp := if easy in w.sockets then w.sockets[easy].pointer else None;
    match what
    case None =>
      RemoveSockChanges(w, sockp);
      SameOwnersIf(w, OnSocket(w, easy, fd, what));
    case Some(a) =>
      var w1 := w.(sockets := w.sockets[easy := Tracked(fd, sockp, a)]);
      AddSockChanges(w1, fd, easy, a);
      SetSockChanges(w1, fd, a);
      SameOwnersIf(w, OnSocket(w, easy, fd, what));
  }

  lemma SameOwnersIf(w: World, w': World)
    requires w' == w.(epoll := w'.epoll, sockets := w'.sockets, proxies := w'.proxies, fault := w'.fault)
    requires w'.proxies.Keys == w.proxies.Keys
    requires forall p :: p in w.proxies ==> SameTransfer(w.proxies[p], w'.proxies[p])
    ensures SameOwners(w, w')
  {
  }

  lemma RemoveSockChanges(w: World, sockp: Option<Pid>)
    ensures var w' := RemoveSock(w, sockp); w' == w.(epoll := w'.epoll, fault := w'.fault)
  {
    if sockp.Some? && sockp.value in w.proxies {
      var fd := w.proxies[sockp.value].sockfd;
      assert RemoveSock(w, sockp) == if fd != -1 then w.(epoll := w.epoll - {fd}) else w;
    }
  }

  lemma SetSockChanges(w: World, fd: int, a: Action)
    ensures SetSock(w, fd, a) == w.(epoll := SetSock(w, fd, a).epoll)
  {
  }

  lemma AddSockChanges(w: World, fd: int, easy: Handle, a: Action)
    ensures var w' := AddSock(w, fd, easy, a);
            && w' == w.(epoll := w'.epoll, sockets := w'.sockets, proxies := w'.proxies, fault := w'.fault)
            && w'.proxies.Keys == w.proxies.Keys
            && forall p :: p in w.proxies ==> SameTransfer(w.proxies[p], w'.proxies[p])
  {
    hide SetSock;
    if easy in w.hash && w.hash[easy] in w.proxies {
      var p := w.hash[easy];
      SetSockChanges(w.(proxies := w.proxies[p := w.proxies[p].(sockfd := fd)],
                        epoll := w.epoll[fd := Registration(p, true, true)]), fd, a);
    }
  }

  lemma CallbackOwners(w: World, c: Callback)
    requires Inv(w) && LegalCallback(w, c)
    ensures SameOwners(w, OnCallback(w, c))
  {
    hide Inv, OnSocket;
    match c
    case Transfer(easy, i, overhead, closes) => TransferOwners(w, easy, i, overhead, closes);
    case Socket(easy, fd, what) => SocketChanges(w, easy, fd, what);
    case _ =>
  }

  lemma {:induction false} CallbacksOwners(w: World, cs: seq<Callback>)
    requires Inv(w) && LegalCallbacks(w, cs)
    ensures SameOwners(w, OnCallbacks(w, cs))
    decreases |cs|
  {
    hide Inv, LegalCallback, OnCallback;
    if cs != [] {
      CallbackKeeps(w, cs[0]);
      CallbackOwners(w, cs[0]);
      CallbacksOwners(OnCallback(w, cs[0]), cs[1..]);
    }
  }

  // ---------- what reading messages does to owners ----------

  // Handles that leave the hash were in the multi; nothing enters it.
  predicate OnlyDoneLeave(w: World, w': World) {
    && w'.multi <= w.multi && w'.streams.Keys == w.streams.Keys && w'.gone == w.gone
    && (forall h :: h in w'.hash ==> h in w.hash && w'.hash[h] == w.hash[h])
    && (forall h :: h in w.hash && h !in w.multi ==> h in w'.hash)
    && w'.proxies.Keys == w.proxies.Keys
    && w'.freed == w.freed
    && (forall p :: p in w.proxies ==> SameTransfer(w.proxies[p], w'.proxies[p]))
  }

  lemma DoneOwners(w: World, easy: Handle, asked: Option<int>)
    requires Inv(w) && easy in w.multi && Unreported(w.messages, easy)
    ensures OnlyDoneLeave(w, OnDone(w, easy, asked))
  {
    hide Ownership, Links, Multi, Sockets, Histories, OnSocket, OnDone, Leave;
    MultiHash(w, easy);
    var w0 := if easy in w.sockets then OnSocket(w, easy, w.sockets[easy].fd, None) else w;
    if easy in w.sockets {
      RemoveSockSockets(w, easy, w.sockets[easy].fd);
    }
    OnDoneIs(w, w0, easy, asked);
    LeaveOwners(w0.(timer := Asked(w0.timer, asked)), easy);
  }

  lemma LeaveOwners(w: World, easy: Handle)
    requires easy in w.hash && w.hash[easy] in w.proxies && easy in w.multi
    ensures OnlyDoneLeave(w, Leave(w, easy))
  {
    var p := w.hash[easy];
    var w1 := Bury(w.(multi := w.multi - {easy}), easy);
    assert OnlyDoneLeave(w, w1);
    if w.proxies[p].stream.Some? && w.proxies[p].stream.value in w.streams {
      UnlinkOwners(w1, p, w.proxies[p].stream.value);
      hide Unlink, Bury;
    }
  }

  lemma UnlinkOwners(w: World, p: Pid, s: Sid)
    requires p in w.proxies && s in w.streams
    ensures SameOwners(w, Unlink(w, p, s))
  {
  }

  lemma MessageOwners(w: World)
    requires Inv(w) && w.messages != []
    ensures OnlyDoneLeave(w, OnMessage(w))
  {
    hide Ownership, Links, Multi, Sockets, Histories, OnDone;
    var w1 := w.(messages := w.messages[1..]);
    PopMulti(w);
    AsideKeeps(w, w1);
    if w.messages[0].Done? { DoneOwners(w1, w.messages[0].easy, w.messages[0].asked); }
  }

  lemma {:induction false} ReadOwners(w: World)
    requires Inv(w)
    ensures OnlyDoneLeave(w, ReadMessages(w))
    decreases |w.messages|
  {
    hide Inv, OnMessage;
    if w.messages != [] {
      MessageKeeps(w);
      MessagesAreConsumed(w);
      MessageOwners(w);
      ReadOwners(OnMessage(w));
    }
  }

  // ---------- the proxy on the stack ----------

  predicate Owned(w: World, p: Pid) {
    p in w.proxies && Hashed(w, p)
  }

  lemma HashedIsNotDead(w: World, p: Pid)
    requires Ownership(w) && Owned(w, p)
    ensures p !in w.dead
  {
  }

  lemma RegisteredIsOwned(w: World, fd: int)
    requires Ownership(w) && Sockets(w) && fd in w.epoll
    ensures Owned(w, w.epoll[fd].callback) && w.proxies[w.epoll[fd].callback].sockfd == fd
  {
    var p := w.epoll[fd].callback;
    var h := w.proxies[p].easy;
    assert Registered(w, h) && w.proxies[w.hash[h]].easy == h;
  }

  // The proxy whose OnEvent runs outlives the CheckCurlMultiInfo it calls, even when that
  // call completes its own transfer: it is then on the dead list, not freed.
  lemma OnStackProxySurvives(w: World, fd: int, script: seq<Callback>, running: int)
    requires Inv(w) && LegalEvent(w, SocketReady(fd, script, running))
    ensures w.epoll[fd].callback in SocketAction(w, script, running).proxies
    ensures Inv(OnReady(w, fd, script, running))
  {
    hide Ownership, Links, Multi, Sockets, Histories;
    var p := w.epoll[fd].callback;
    RegisteredIsOwned(w, fd);
    CallbacksOwners(w, script);
    ActionKeeps(w, script, running);
    var w1 := OnCallbacks(w, script).(stillRunning := running);
    HashedIsNotDead(w1, p);
    ReadKeeps(w1);
    ClearKeeps(w1);
    TimerKeeps(SocketAction(w, script, running), DISARMED);
  }

  // OnEvent adds at most a timer change to what the socket action does.
  lemma ReadyChanges(w: World, fd: int, script: seq<Callback>, running: int)
    requires Inv(w) && LegalEvent(w, SocketReady(fd, script, running))
    ensures var w' := OnReady(w, fd, script, running);
            w' == SocketAction(w, script, running).(timer := w'.timer)
  {
    hide Ownership, Links, Multi, Sockets, Histories, SocketAction, LegalCallbacks;
    RegisteredIsOwned(w, fd);
    OnStackProxySurvives(w, fd, script, running);
    var w1 := SocketAction(w, script, running);
    assert OnReady(w, fd, script, running) == if w1.stillRunning <= 0 then w1.(timer := DISARMED) else w1;
  }

  // What a whole socket action leaves alone.
  lemma ActionOwners(w: World, script: seq<Callback>, running: int)
    requires Inv(w) && LegalCallbacks(w, script)
    ensures var w' := SocketAction(w, script, running);
            && w'.streams.Keys == w.streams.Keys && w'.gone == w.gone && w'.multi <= w.multi
            && (forall h :: h in w.hash && h !in w.multi ==> h in w'.hash && w'.hash[h] == w.hash[h])
            && (forall p :: Owned(w, p) ==> p in w'.proxies)
            && (forall p :: p in w'.proxies ==> p in w.proxies && SameTransfer(w.proxies[p], w'.proxies[p]))
  {
    hide Ownership, Links, Multi, Sockets, Histories, OnCallbacks, ReadMessages;
    CallbacksOwners(w, script);
    ActionKeeps(w, script, running);
    var w1 := OnCallbacks(w, script).(stillRunning := running);
    ReadOwners(w1);
    forall p | Owned(w, p) ensures p !in w1.dead { HashedIsNotDead(w1, p); }
  }

  // ---------- every step, every run ----------

  lemma SendIsSound(s: Stream, n: nat)
    requires Sound(s) && n <= s.buffered
    ensures Sound(Send(s, n)) && Send(s, n).proxy == s.proxy && Send(s, n).heard == s.heard
  {
  }

  lemma AckIsSound(s: Stream, n: nat)
    requires Sound(s) && n <= s.unacked && (n > 0 || s.acked > 0 || s.finSent)
    ensures Sound(Ack(s, n)) && Ack(s, n).proxy == s.proxy && Ack(s, n).heard == s.heard
  {
  }

  lemma SoundStream(w: World, s: Sid)
    requires Histories(w) && s in w.streams
    ensures Sound(w.streams[s])
  {
  }

  lemma StepKeeps(w: World, e: Event)
    requires Inv(w) && LegalEvent(w, e)
    ensures Inv(Step(w, e))
  {
    hide Ownership, Links, Multi, Sockets, Histories, Sound, Send, Ack;
    match e
    case NewStream(s) => NewStreamKeeps(w, s);
    case Fetching(p, s, easy, r, asked) => FetchKeeps(w, p, s, easy, r, asked);
    case Closing(s) => CloseKeeps(w, s);
    case Destroying(s) => DestroyKeeps(w, s);
    case Sending(s, n) =>
      SoundStream(w, s);
      SendIsSound(w.streams[s], n);
      StreamUpdateKeeps(w, s, Send(w.streams[s], n));
    case Acked(s, n) =>
      SoundStream(w, s);
      AckIsSound(w.streams[s], n);
      StreamUpdateKeeps(w, s, Ack(w.streams[s], n));
      if w.streams[s].proxy.Some? { LinkOf(w, s); }
    case SocketReady(fd, script, running) => OnStackProxySurvives(w, fd, script, running);
    case TimerFired(eagain, script, running) => ActionKeeps(w, script, running);
  }

  lemma {:induction false} RunKeeps(w: World, es: seq<Event>)
    requires Inv(w) && LegalRun(w, es)
    ensures Inv(Run(w, es))
    decreases |es|
  {
    hide Inv, LegalEvent, Step;
    if es != [] {
      StepKeeps(w, es[0]);
      RunKeeps(Step(w, es[0]), es[1..]);
    }
  }

  // ---------- moments of a run ----------

  // Where a run can be looked at: between events, after some callbacks of an event, or in
  // its CheckCurlMultiInfo after some messages.
  datatype Moment =
    | Between(past: seq<Event>)
    | InCallbacks(past: seq<Event>, made: seq<Callback>)
    | InCheck(past: seq<Event>, script: seq<Callback>, running: int, read: nat)

  function AfterMessages(w: World, k: nat): World
    requires k <= |w.messages|
    decreases k
  {
    if k == 0 then w else MessagesAreConsumed(w); AfterMessages(OnMessage(w), k - 1)
  }

  predicate LegalMoment(w: World, m: Moment) {
    && LegalRun(w, m.past)
    && match m
       case Between(past) => true
       case InCallbacks(past, made) => LegalCallbacks(Run(w, past), made)
       case InCheck(past, script, running, read) =>
         && LegalCallbacks(Run(w, past), script)
         && read <= |OnCallbacks(Run(w, past), script).messages|
  }

  function At(w: World, m: Moment): World
    requires LegalMoment(w, m)
  {
    match m
    case Between(past) => Run(w, past)
    case InCallbacks(past, made) => OnCallbacks(Run(w, past), made)
    case InCheck(past, script, running, read) =>
      AfterMessages(OnCallbacks(Run(w, past), script).(stillRunning := running), read)
  }

  // Every point of a legal script is such a moment.
  lemma {:induction false} PrefixIsLegal(w: World, cs: seq<Callback>, k: nat)
    requires k <= |cs| && LegalCallbacks(w, cs)
    ensures LegalCallbacks(w, cs[..k])
    decreases |cs|
  {
    hide LegalCallback, OnCallback;
    if k > 0 {
      PrefixIsLegal(OnCallback(w, cs[0]), cs[1..], k - 1);
      assert cs[..k][0] == cs[0] && cs[..k][1..] == cs[1..][..k - 1];
    }
  }

  lemma {:induction false} MessagesKeep(w: World, k: nat)
    requires Inv(w) && k <= |w.messages|
    ensures Inv(AfterMessages(w, k)) && OnlyDoneLeave(w, AfterMessages(w, k))
    decreases k
  {
    hide Inv, OnMessage;
    if k > 0 {
      MessageKeeps(w);
      MessagesAreConsumed(w);
      MessageOwners(w);
      MessagesKeep(OnMessage(w), k - 1);
    }
  }

  lemma MomentKeeps(w: World, m: Moment)
    requires Inv(w) && LegalMoment(w, m)
    ensures Inv(At(w, m))
    ensures var past := Run(w, m.past);
            && Inv(past) && At(w, m).proxies.Keys == past.proxies.Keys && At(w, m).freed == past.freed
            && forall p :: p in past.proxies ==> SameTransfer(past.proxies[p], At(w, m).proxies[p])
  {
    hide Ownership, Links, Multi, Sockets, Histories, OnCallbacks, LegalCallbacks, LegalEvent, Step;
    RunKeeps(w, m.past);
    match m
    case Between(past) =>
    case InCallbacks(past, made) =>
      CallbacksKeep(Run(w, past), made);
      CallbacksOwners(Run(w, past), made);
    case InCheck(past, script, running, read) =>
      CallbacksOwners(Run(w, past), script);
      ActionKeeps(Run(w, past), script, running);
      MessagesKeep(OnCallbacks(Run(w, past), script).(stillRunning := running), read);
  }

  lemma Reachable(m: Moment)
    requires LegalMoment(START, m)
    ensures Inv(At(START, m))
  {
    StartIsInv();
    hide Inv;
    MomentKeeps(START, m);
  }

  // Whatever is pointed at is live, and a proxy pointed at is owned by the hash.
  ghost predicate PointersLive(w: World) {
    && (forall s :: s in w.streams && w.streams[s].proxy.Some? ==> Owned(w, w.streams[s].proxy.value))
    && (forall p :: p in w.proxies && w.proxies[p].stream.Some? ==> w.proxies[p].stream.value in w.streams)
    && (forall fd :: fd in w.epoll ==> Owned(w, w.epoll[fd].callback))
    && (forall h :: h in w.sockets ==> w.sockets[h].pointer.Some? && Owned(w, w.sockets[h].pointer.value))
    && (forall h :: h in w.multi ==> h in w.userdata && Owned(w, w.userdata[h]))
  }

  lemma InvPointsAtLive(w: World)
    requires Inv(w)
    ensures PointersLive(w)
  {
    forall s | s in w.streams && w.streams[s].proxy.Some? ensures Owned(w, w.streams[s].proxy.value) {
      LinkOf(w, s);
    }
    forall fd | fd in w.epoll ensures Owned(w, w.epoll[fd].callback) {
      RegisteredIsOwned(w, fd);
    }
    forall h | h in w.sockets ensures w.sockets[h].pointer.Some? && Owned(w, w.sockets[h].pointer.value) {
      assert Registered(w, h);
    }
  }

  // No run follows a pointer to a freed object, and at every moment each raw pointer is to
  // a live object: proxies pointed at are owned by the hash under their own handle.
  lemma EveryPointerIsLive(m: Moment)
    requires LegalMoment(START, m)
    ensures !At(START, m).fault && PointersLive(At(START, m))
  {
    Reachable(m);
    InvPointsAtLive(At(START, m));
  }

  // So clearing the dead list frees only proxies that nothing can reach.
  lemma DeadIsUnreachable(m: Moment, p: Pid)
    requires LegalMoment(START, m) && p in At(START, m).dead
    ensures var w := At(START, m);
            && p in w.proxies && w.proxies[p].stream.None? && p !in w.hash.Values
            && (forall s :: s in w.streams ==> w.streams[s].proxy != Some(p))
            && (forall fd :: fd in w.epoll ==> w.epoll[fd].callback != p)
            && (forall h :: h in w.sockets ==> w.sockets[h].pointer != Some(p))
            && (forall h :: h in w.multi ==> h in w.userdata && w.userdata[h] != p)
  {
    hide LegalMoment, At;
    Reachable(m);
    EveryPointerIsLive(m);
  }

  lemma LinksAreSymmetric(m: Moment, s: Sid, p: Pid)
    requires LegalMoment(START, m)
    ensures var w := At(START, m);
            (s in w.streams && w.streams[s].proxy == Some(p)) <==> (p in w.proxies && w.proxies[p].stream == Some(s))
  {
    hide LegalMoment, At;
    Reachable(m);
  }

  // A descriptor is registered exactly when libcurl tracks it, for the proxy that owns the
  // transfer, with the interest libcurl last asked for; and that proxy names the same one.
  lemma EpollAgreesWithLibcurl(m: Moment, fd: int)
    requires LegalMoment(START, m)
    ensures var w := At(START, m);
            && (fd in w.epoll <==> exists h :: h in w.sockets && w.sockets[h].fd == fd)
            && (forall h :: h in w.sockets && w.sockets[h].fd == fd ==>
                  && h in w.hash && w.hash[h] in w.proxies
                  && w.epoll[fd] == Registration(w.hash[h], w.sockets[h].action.read, w.sockets[h].action.write)
                  && w.proxies[w.hash[h]].sockfd == fd)
  {
    hide LegalMoment, At;
    Reachable(m);
    var w := At(START, m);
    forall h | h in w.sockets ensures Registered(w, h) {}
  }

  // ---------- conservation ----------

  function Created(es: seq<Event>): set<Pid> {
    if es == [] then {} else (if es[0].Fetching? then {es[0].p} else {}) + Created(es[1..])
  }

  predicate IsAction(e: Event) {
    e.SocketReady? || (e.TimerFired? && !e.eagain)
  }

  // A check that found no message: it happens when neither the callbacks of this event
  // nor earlier ones left one.
  predicate QuietCheck(w: World, e: Event) {
    IsAction(e) && OnCallbacks(w, e.script).messages == []
  }

  lemma DeadAreLive(w: World)
    requires Ownership(w)
    ensures forall p :: p in w.dead ==> p in w.proxies
  {
  }

  lemma ActionFrees(w: World, script: seq<Callback>, running: int)
    requires Inv(w) && LegalCallbacks(w, script)
    ensures var w' := SocketAction(w, script, running);
            var quiet := OnCallbacks(w, script).messages == [];
            && w'.freed == w.freed + (if quiet then set p | p in w.dead else {})
            && (quiet ==> w'.dead == [])
            && w'.proxies.Keys + w'.freed == w.proxies.Keys + w.freed
  {
    hide Ownership, Links, Multi, Sockets, Histories, OnCallbacks, ReadMessages, LegalCallbacks;
    CallbacksOwners(w, script);
    ActionKeeps(w, script, running);
    ReadOwners(OnCallbacks(w, script).(stillRunning := running));
    DeadAreLive(w);
  }

  // Proxies are freed exactly by quiet checks, and then it is the whole dead list as it
  // was before the event: nothing is freed by the event that buried it.
  lemma FreedExactlyByQuietChecks(w: World, e: Event)
    requires Inv(w) && LegalEvent(w, e)
    ensures var w' := Step(w, e);
            && w'.freed == w.freed + (if QuietCheck(w, e) then set p | p in w.dead else {})
            && (QuietCheck(w, e) ==> w'.dead == [])
            && w'.proxies.Keys + w'.freed
               == w.proxies.Keys + w.freed + (if e.Fetching? then {e.p} else {})
  {
    hide Inv, SocketAction, OnCallbacks, LegalCallbacks, OnReady;
    match e
    case SocketReady(fd, script, running) =>
      ActionFrees(w, script, running);
      ReadyChanges(w, fd, script, running);
    case TimerFired(eagain, script, running) =>
      if !eagain { ActionFrees(w, script, running); }
    case _ => OthersFreeNothing(w, e);
  }

  lemma OthersFreeNothing(w: World, e: Event)
    requires Inv(w) && LegalEvent(w, e) && !IsAction(e)
    ensures var w' := Step(w, e);
            && w'.freed == w.freed && w'.dead == w.dead
            && w'.proxies.Keys == w.proxies.Keys + (if e.Fetching? then {e.p} else {})
  {
    hide Inv, CloseStream, LegalCallbacks, Fetch, OnAck, Send;
    match e
    case Fetching(p, s, easy, r, asked) => FetchAdds(w, p, s, easy, r, asked);
    case Acked(s, n) => AckKeepsProxies(w, s, n);
    case Closing(s) => CloseOwners(w, s);
    case Destroying(s) => CloseOwners(w, s);
    case _ =>
  }

  lemma FetchAdds(w: World, p: Pid, s: Sid, easy: Handle, r: Request, asked: Option<int>)
    requires s in w.streams
    ensures var w' := Fetch(w, p, s, easy, r, asked);
            && w'.freed == w.freed && w'.dead == w.dead && w'.stillRunning == w.stillRunning
            && w'.proxies.Keys == w.proxies.Keys + {p}
            && w'.timer == if r.validMethod then Asked(w.timer, asked) else w.timer
  {
    hide Uploads;
  }

  lemma AckKeepsProxies(w: World, s: Sid, n: nat)
    ensures var w' := OnAck(w, s, n);
            && w'.proxies == w.proxies && w'.freed == w.freed && w'.dead == w.dead
            && w'.timer == w.timer && w'.stillRunning == w.stillRunning
  {
    hide Ack;
    if s in w.streams && (w.streams[s].proxy.Some? ==> w.streams[s].proxy.value in w.proxies) {
      OnAckIs(w, s, n);
      hide OnAck;
    } else {
      assert OnAck(w, s, n) == Fault(w);
    }
  }

  // Every proxy ever created is in exactly one place: hash, dead list, or freed.
  lemma {:induction false} CreatedIsKept(w: World, es: seq<Event>)
    requires Inv(w) && LegalRun(w, es)
    ensures Run(w, es).proxies.Keys + Run(w, es).freed == w.proxies.Keys + w.freed + Created(es)
    decreases |es|
  {
    hide Inv, LegalEvent, Step, QuietCheck;
    if es != [] {
      StepKeeps(w, es[0]);
      FreedExactlyByQuietChecks(w, es[0]);
      CreatedIsKept(Step(w, es[0]), es[1..]);
    }
  }

  lemma OwnedOnce(w: World, p: Pid)
    requires Ownership(w)
    ensures p in w.proxies <==> p in w.hash.Values || p in w.dead
    ensures !(p in w.hash.Values && p in w.dead) && !(p in w.proxies && p in w.freed)
    ensures forall i, j :: 0 <= i < j < |w.dead| ==> w.dead[i] != w.dead[j]
  {
    if p in w.proxies && p !in w.dead {
      assert Hashed(w, p) && w.hash[w.proxies[p].easy] == p;
    }
    if p in w.hash.Values {
      var h :| h in w.hash && w.hash[h] == p;
      assert Hashed(w, p);
    }
  }

  lemma Conservation(m: Moment, p: Pid)
    requires LegalMoment(START, m)
    ensures var w := At(START, m);
            && (p in Created(m.past) <==> p in w.hash.Values || p in w.dead || p in w.freed)
            && !(p in w.hash.Values && p in w.dead) && !(p in w.dead && p in w.freed)
            && !(p in w.hash.Values && p in w.freed)
            && (forall i, j :: 0 <= i < j < |w.dead| ==> w.dead[i] != w.dead[j])
  {
    hide LegalRun, Run, OnCallbacks, LegalCallbacks, At, Ownership, Links, Multi, Sockets, Histories;
    StartIsInv();
    MomentKeeps(START, m);
    CreatedIsKept(START, m.past);
    OwnedOnce(At(START, m), p);
    assert p in Created(m.past) <==> p in At(START, m).proxies.Keys + At(START, m).freed;
  }

  // ---------- lookups ----------

  // The k-th DONE message finds its proxy in the hash, and the same one that libcurl's
  // user pointer names.
  lemma {:induction false} LookupsNeverMiss(w: World, k: nat)
    requires Inv(w) && k < |w.messages| && w.messages[k].Done?
    ensures var w' := AfterMessages(w, k);
            var h := w.messages[k].easy;
            Inv(w') && w'.messages == w.messages[k..] && h in w'.hash && h in w'.userdata && w'.userdata[h] == w'.hash[h]
    decreases k
  {
    hide Ownership, Links, Multi, Sockets, Histories, OnMessage;
    if k == 0 {
      PopMulti(w);
      MultiHash(w, w.messages[0].easy);
    } else {
      MessageKeeps(w);
      MessagesAreConsumed(w);
      LookupsNeverMiss(OnMessage(w), k - 1);
    }
  }

  // A socket libcurl reports for the first time finds its proxy, and its descriptor is
  // not registered yet: no registration is ever replaced.
  lemma NewSocketFindsProxy(w: World, easy: Handle, fd: int, a: Action)
    requires Inv(w) && LegalCallback(w, Socket(easy, fd, Some(a))) && easy !in w.sockets
    ensures easy in w.hash && w.hash[easy] in w.proxies && fd !in w.epoll
  {
    hide Links, Histories;
    AddSockSockets(w, easy, fd, a);
  }

  // ---------- the end of a stream ----------

  // The stream had its transfer and lost it.
  predicate Detached(w: World, s: Sid) {
    s in w.streams && w.streams[s].fetched && w.streams[s].proxy.None?
  }

  predicate Untouched(w: World, w': World, s: Sid)
    requires s in w.streams
  {
    s in w'.streams && w'.streams[s] == w.streams[s]
  }

  lemma CloseDetached(w: World, t: Sid, s: Sid)
    requires Links(w) && t in w.streams && Detached(w, s)
    ensures Untouched(w, CloseStream(w, t), s) && CloseStream(w, t).gone == w.gone
  {
  }

  lemma {:induction false} CloseAllDetached(w: World, ss: seq<Sid>, s: Sid)
    requires Inv(w) && (forall t :: t in ss ==> t in w.streams) && Detached(w, s)
    ensures Untouched(w, CloseAll(w, ss), s)
    decreases |ss|
  {
    hide Ownership, Links, Multi, Sockets, Histories;
    if ss != [] {
      CloseKeeps(w, ss[0]);
      CloseDetached(w, ss[0], s);
      CloseAllDetached(CloseStream(w, ss[0]), ss[1..], s);
    }
  }

  lemma TransferDetached(w: World, easy: Handle, i: Relay.Input, overhead: nat, closes: seq<Sid>, s: Sid)
    requires Inv(w) && LegalCallback(w, Transfer(easy, i, overhead, closes)) && Detached(w, s)
    ensures Untouched(w, OnTransfer(w, easy, i, overhead, closes), s)
  {
    hide Ownership, Multi, Sockets, Histories, Relay.OnInput;
    MultiHash(w, easy);
    var p := w.userdata[easy];
    if w.proxies[p].stream.Some? {
      var t := w.proxies[p].stream.value;
      assert t != s;
      NextInput(w, p, t, i);
      var e := Relay.OnInput(w.proxies[p].relay, i);
      RelayKeeps(w, p, t, i, e, overhead);
      CloseAllDetached(Relayed(w, p, t, i, e, overhead), closes, s);
    }
  }

  lemma {:induction false} CallbacksDetached(w: World, cs: seq<Callback>, s: Sid)
    requires Inv(w) && LegalCallbacks(w, cs) && Detached(w, s)
    ensures Untouched(w, OnCallbacks(w, cs), s)
    decreases |cs|
  {
    hide Inv, LegalCallback, OnSocket, OnTransfer, OnUpload;
    if cs != [] {
      var w1 := OnCallback(w, cs[0]);
      CallbackKeeps(w, cs[0]);
      match cs[0] {
        case Transfer(easy, i, overhead, closes) => TransferDetached(w, easy, i, overhead, closes, s);
        case Socket(easy, fd, what) => SocketChanges(w, easy, fd, what);
        case Upload(easy, size) => UploadStreams(w, easy, size);
        case _ =>
      }
      CallbacksDetached(w1, cs[1..], s);
    }
  }

  lemma UploadStreams(w: World, easy: Handle, size: nat)
    ensures OnUpload(w, easy, size).streams == w.streams
  {
    var w' := OnUpload(w, easy, size);
    assert w' == w.(proxies := w'.proxies, fault := w'.fault);
  }

  lemma RemovalKeepsStreams(w: World, easy: Handle, asked: Option<int>)
    ensures var w' := RemoveHandle(w, easy, asked);
            && w'.streams == w.streams && w'.proxies.Keys == w.proxies.Keys
            && forall p :: p in w.proxies ==> w'.proxies[p].stream == w.proxies[p].stream
  {
    hide OnSocket;
    if easy in w.sockets { SocketChanges(w, easy, w.sockets[easy].fd, None); RemovalKeepsLinks(w, easy); }
  }

  lemma RemovalKeepsLinks(w: World, easy: Handle)
    requires easy in w.sockets
    ensures OnSocket(w, easy, w.sockets[easy].fd, None).proxies == w.proxies
  {
  }

  lemma BuryMovesOnly(w: World, easy: Handle)
    ensures Bury(w, easy) == w.(dead := Bury(w, easy).dead, hash := Bury(w, easy).hash)
  {
  }

  lemma UnlinkElsewhere(w: World, p: Pid, t: Sid, s: Sid)
    requires p in w.proxies && t in w.streams && t != s && s in w.streams
    ensures Untouched(w, Unlink(w, p, t), s)
  {
  }

  lemma DoneDetached(w: World, easy: Handle, asked: Option<int>, s: Sid)
    requires Links(w) && Detached(w, s)
    ensures Untouched(w, OnDone(w, easy, asked), s)
  {
    hide RemoveHandle, Links, Bury, Unlink;
    RemovalKeepsStreams(w, easy, asked);
    if easy in w.userdata && w.userdata[easy] in w.proxies {
      var p := w.userdata[easy];
      LinkedElsewhere(w, p, s);
      var w0 := RemoveHandle(w, easy, asked);
      BuryMovesOnly(w0, easy);
      var w1 := Bury(w0, easy);
      if w1.proxies[p].stream.Some? && w1.proxies[p].stream.value in w1.streams {
        UnlinkElsewhere(w1, p, w1.proxies[p].stream.value, s);
      }
    }
  }

  lemma LinkedElsewhere(w: World, p: Pid, s: Sid)
    requires Links(w) && Detached(w, s)
    ensures p in w.proxies ==> w.proxies[p].stream != Some(s)
  {
  }

  lemma {:induction false} ReadDetached(w: World, s: Sid)
    requires Inv(w) && Detached(w, s)
    ensures Untouched(w, ReadMessages(w), s)
    decreases |w.messages|
  {
    hide OnDone, Ownership, Links, Multi, Sockets, Histories;
    if w.messages != [] {
      MessageKeeps(w);
      MessagesAreConsumed(w);
      var w1 := w.(messages := w.messages[1..]);
      PopMulti(w);
      AsideKeeps(w, w1);
      if w.messages[0].Done? { DoneDetached(w1, w.messages[0].easy, w.messages[0].asked, s); }
      ReadDetached(OnMessage(w), s);
    }
  }

  lemma ActionDetached(w: World, script: seq<Callback>, running: int, s: Sid)
    requires Inv(w) && LegalCallbacks(w, script) && Detached(w, s)
    ensures Untouched(w, SocketAction(w, script, running), s)
  {
    hide Inv, OnCallbacks;
    CallbacksDetached(w, script, s);
    ActionKeeps(w, script, running);
    ReadDetached(OnCallbacks(w, script).(stillRunning := running), s);
  }

  // What one event can do to a detached stream: send what is buffered, close on an ack,
  // destroy it, or nothing.
  function DetachedNext(st: Stream, e: Event, s: Sid): Stream {
    match e
    case Sending(t, n) => if t == s then Send(st, n) else st
    case Acked(t, n) => if t == s then Ack(st, n) else st
    case _ => st
  }

  lemma AckDetached(w: World, t: Sid, n: nat, s: Sid)
    requires t in w.streams && Detached(w, s)
    ensures s in OnAck(w, t, n).streams
    ensures OnAck(w, t, n).streams[s] == if t == s then Ack(w.streams[s], n) else w.streams[s]
  {
    hide Ack;
  }

  lemma StepDetached(w: World, e: Event, s: Sid)
    requires Inv(w) && LegalEvent(w, e) && Detached(w, s)
    ensures var w' := Step(w, e);
            if e == Destroying(s) then NeverBack(w', s)
            else s in w'.streams && w'.streams[s] == DetachedNext(w.streams[s], e, s)
  {
    hide Ownership, Links, Multi, Sockets, Histories, SocketAction, CloseStream, Send, Ack, OnAck;
    match e
    case Closing(t) => CloseDetached(w, t, s);
    case Destroying(t) => CloseDetached(w, t, s);
    case Acked(t, n) => AckDetached(w, t, n, s);
    case SocketReady(fd, script, running) => ActionDetached(w, script, running, s);
    case TimerFired(eagain, script, running) => if !eagain { ActionDetached(w, script, running, s); }
    case _ =>
  }

  predicate NeverBack(w: World, s: Sid) {
    s !in w.streams && s in w.gone
  }

  lemma StepNeverBack(w: World, e: Event, s: Sid)
    requires Inv(w) && LegalEvent(w, e) && NeverBack(w, s)
    ensures NeverBack(Step(w, e), s)
  {
    hide Inv, SocketAction, CloseStream, LegalCallbacks, Send, Ack, Uploads, OnReady;
    match e
    case SocketReady(fd, script, running) =>
      ActionOwners(w, script, running);
      ReadyChanges(w, fd, script, running);
    case TimerFired(_, script, running) => ActionOwners(w, script, running);
    case Closing(t) => CloseOwners(w, t);
    case Destroying(t) => CloseOwners(w, t);
    case _ =>
  }

  lemma {:induction false} GoneForGood(w: World, es: seq<Event>, s: Sid)
    requires Inv(w) && LegalRun(w, es) && NeverBack(w, s)
    ensures NeverBack(Run(w, es), s)
    decreases |es|
  {
    hide Inv, LegalEvent, Step;
    if es != [] {
      StepKeeps(w, es[0]);
      StepNeverBack(w, es[0], s);
      GoneForGood(Step(w, es[0]), es[1..], s);
    }
  }

  // Once a stream has lost its transfer, no callback of any later event writes to it.
  lemma {:induction false} NothingWrittenAfterDetach(w: World, es: seq<Event>, s: Sid)
    requires Inv(w) && LegalRun(w, es) && Detached(w, s)
    ensures var w' := Run(w, es);
            s in w'.streams ==>
              && Detached(w', s)
              && w'.streams[s].log == w.streams[s].log && w'.streams[s].heard == w.streams[s].heard
              && w'.streams[s].ackCloses >= w.streams[s].ackCloses
              && (w.streams[s].finSent ==> w'.streams[s].finSent)
    decreases |es|
  {
    hide Inv, LegalEvent, Step;
    if es != [] {
      var w1 := Step(w, es[0]);
      StepKeeps(w, es[0]);
      StepDetached(w, es[0], s);
      if es[0] == Destroying(s) {
        GoneForGood(w1, es[1..], s);
      } else {
        NothingWrittenAfterDetach(w1, es[1..], s);
      }
    }
  }

  // What an ack does: it closes the write side of a drained stream without a transfer. A
  // stream that still has one only counts the bytes.
  lemma AckLaw(w: World, s: Sid, n: nat)
    requires Inv(w) && LegalEvent(w, Acked(s, n))
    ensures s in Step(w, Acked(s, n)).streams
    ensures var st := w.streams[s];
            var st' := Step(w, Acked(s, n)).streams[s];
            && st'.unacked == st.unacked - n && st'.acked == st.acked + n && st'.buffered == st.buffered
            && st'.log == st.log && st'.heard == st.heard && st'.proxy == st.proxy
            && (st.proxy.Some? ==> st'.finSent == st.finSent && st'.writeClosed == st.writeClosed)
            && (st'.finSent <==> st.finSent || (st.proxy.None? && st.buffered == 0))
            && st'.writeClosed == st'.finSent
            && st'.ackCloses == st.ackCloses + (if st'.finSent && !st.finSent then 1 else 0)
            && st'.fetched == st.fetched
    ensures Step(w, Acked(s, n)) == w.(streams := w.streams[s := Step(w, Acked(s, n)).streams[s]])
  {
    hide Ownership, Links, Multi, Sockets, Histories, Sound, Ack, OnAck;
    SoundStream(w, s);
    AckOfStream(w.streams[s], n);
    if w.streams[s].proxy.Some? { LinkOf(w, s); }
    OnAckIs(w, s, n);
  }

  lemma AckOfStream(st: Stream, n: nat)
    requires Sound(st) && n <= st.unacked
    ensures var st' := Ack(st, n);
            && st'.unacked == st.unacked - n && st'.acked == st.acked + n && st'.buffered == st.buffered
            && st'.log == st.log && st'.heard == st.heard && st'.proxy == st.proxy && st'.fetched == st.fetched
            && (st'.finSent <==> st.finSent || (st.proxy.None? && st.buffered == 0))
            && st'.writeClosed == st'.finSent && st.writeClosed == st.finSent
            && st'.ackCloses == st.ackCloses + (if st'.finSent && !st.finSent then 1 else 0)
  {
  }

  lemma OnAckIs(w: World, s: Sid, n: nat)
    requires s in w.streams && (w.streams[s].proxy.Some? ==> w.streams[s].proxy.value in w.proxies)
    ensures OnAck(w, s, n) == w.(streams := w.streams[s := Ack(w.streams[s], n)])
  {
    hide Ack;
  }

  // At every moment a stream whose write side is closed was closed by an ack, once and with
  // no transfer left, or was given a fin; and nothing is buffered.
  lemma ClosedByAckOrFin(m: Moment, s: Sid)
    requires LegalMoment(START, m) && s in At(START, m).streams
    ensures var st := At(START, m).streams[s];
            st.finSent || st.writeClosed ==>
              && st.finSent && st.writeClosed && st.buffered == 0
              && ((st.ackCloses == 1 && st.proxy.None?) || Relay.Fins(st.log) > 0)
  {
    hide LegalMoment, At;
    Reachable(m);
    SoundStream(At(START, m), s);
  }

  // The write side is closed in w' and was not in w.
  predicate NewlyClosed(w: World, w': World, s: Sid) {
    && s in w.streams && s in w'.streams
    && ((w'.streams[s].finSent && !w.streams[s].finSent) || (w'.streams[s].writeClosed && !w.streams[s].writeClosed))
  }

  // The close on an ack: at that moment the transfer is unlinked, nothing is buffered and
  // no fin was sent; it happens once; and in every later state the stream's writes are
  // what they were.
  lemma SafeEndOfStream(before: seq<Event>, s: Sid, n: nat, after: seq<Event>)
    requires LegalRun(START, before)
    requires var w := Run(START, before);
             var w1 := Step(w, Acked(s, n));
             LegalEvent(w, Acked(s, n)) && NewlyClosed(w, w1, s) && LegalRun(w1, after)
    ensures s in Run(START, before).streams
    ensures var st := Run(START, before).streams[s];
            st.ackCloses == 0 && st.buffered == 0 && st.proxy.None? && !st.finSent && !st.writeClosed
    ensures var st := Run(START, before).streams[s];
            var w' := Run(Step(Run(START, before), Acked(s, n)), after);
            s in w'.streams ==>
              w'.streams[s].log == st.log && w'.streams[s].heard == st.heard
              && w'.streams[s].ackCloses == 1 && w'.streams[s].finSent
  {
    Reachable(Between(before));
    hide Inv;
    AckEnds(Run(START, before), s, n, after);
  }

  lemma AckEnds(w: World, s: Sid, n: nat, after: seq<Event>)
    requires Inv(w) && LegalEvent(w, Acked(s, n)) && LegalRun(Step(w, Acked(s, n)), after)
    requires NewlyClosed(w, Step(w, Acked(s, n)), s)
    ensures var st := w.streams[s];
            && st.ackCloses == 0 && st.buffered == 0 && st.proxy.None? && !st.finSent && !st.writeClosed
            && var w' := Run(Step(w, Acked(s, n)), after);
               s in w'.streams ==>
                 w'.streams[s].log == st.log && w'.streams[s].heard == st.heard
                 && w'.streams[s].ackCloses == 1 && w'.streams[s].finSent
  {
    hide Ownership, Links, Multi, Sockets, Histories, Run, LegalRun, Step;
    var w1 := Step(w, Acked(s, n));
    StepKeeps(w, Acked(s, n));
    AckLaw(w, s, n);
    SoundStream(w, s);
    SoundStream(w1, s);
    NothingWrittenAfterDetach(w1, after, s);
    RunKeeps(w1, after);
    if s in Run(w1, after).streams { SoundStream(Run(w1, after), s); }
  }

  // An ack arrives in this run while the stream has nothing buffered.
  predicate AckedWhenDrained(w: World, es: seq<Event>, s: Sid)
    decreases |es|
  {
    es != [] &&
    ((es[0].Acked? && es[0].s == s && s in w.streams && w.streams[s].buffered == 0)
     || AckedWhenDrained(Step(w, es[0]), es[1..], s))
  }

  // A response relayed without a fin ends only on an ack that comes after its transfer was
  // taken off and when nothing is buffered.
  lemma {:induction false} EndsOnlyOnLateAck(w: World, es: seq<Event>, s: Sid)
    requires Inv(w) && LegalRun(w, es) && Detached(w, s) && NoFin(w.streams[s])
    requires s in Run(w, es).streams
    ensures Run(w, es).streams[s].finSent <==> AckedWhenDrained(w, es, s)
    decreases |es|
  {
    hide Inv, LegalEvent, Step;
    if es != [] {
      var w1 := Step(w, es[0]);
      StepKeeps(w, es[0]);
      StepDetached(w, es[0], s);
      if es[0] == Destroying(s) {
        GoneForGood(w1, es[1..], s);
      } else if w1.streams[s].finSent {
        NothingWrittenAfterDetach(w1, es[1..], s);
      } else {
        EndsOnlyOnLateAck(w1, es[1..], s);
      }
    }
  }

  predicate NoFin(st: Stream) {
    !st.finSent && !st.finBuffered
  }

  // Bytes for which an ack is still to come.
  function Pending(st: Stream): nat {
    st.buffered + st.unacked
  }

  // No ack in this run repeats an earlier one.
  predicate FreshAcks(es: seq<Event>, s: Sid) {
    es == [] || ((es[0].Acked? && es[0].s == s ==> es[0].n > 0) && FreshAcks(es[1..], s))
  }

  lemma NextWithoutFin(w: World, e: Event, s: Sid)
    requires Inv(w) && LegalEvent(w, e) && Detached(w, s) && NoFin(w.streams[s]) && e != Destroying(s)
    requires e.Acked? && e.s == s ==> e.n > 0
    ensures s in Step(w, e).streams && Detached(Step(w, e), s)
    ensures var st' := Step(w, e).streams[s];
            && Pending(st') <= Pending(w.streams[s])
            && (st'.finSent ==> Pending(w.streams[s]) > 0)
            && (!st'.finSent ==> NoFin(st') && (Pending(w.streams[s]) > 0 ==> Pending(st') > 0))
  {
    hide Inv, Step;
    StepDetached(w, e, s);
  }

  // With nothing buffered and nothing unacked when the transfer is taken off, the stream is
  // never ended; an ack of bytes acked before could do it, but nothing brings one about.
  lemma {:induction false} DrainedNeverEnds(w: World, es: seq<Event>, s: Sid)
    requires Inv(w) && LegalRun(w, es) && Detached(w, s) && NoFin(w.streams[s])
    requires Pending(w.streams[s]) == 0 && FreshAcks(es, s)
    requires s in Run(w, es).streams
    ensures NoFin(Run(w, es).streams[s])
    decreases |es|
  {
    hide Inv, LegalEvent, Step, Detached;
    if es != [] {
      var w1 := Step(w, es[0]);
      StepKeeps(w, es[0]);
      if es[0] == Destroying(s) {
        StepDetached(w, es[0], s);
        GoneForGood(w1, es[1..], s);
      } else {
        NextWithoutFin(w, es[0], s);
        DrainedNeverEnds(w1, es[1..], s);
      }
    }
  }

  // So whether a stream without a fin is ended is decided when its transfer is taken off:
  // once everything was sent and acked, it was ended iff something was pending then.
  lemma {:induction false} EndsIffPending(w: World, es: seq<Event>, s: Sid)
    requires Inv(w) && LegalRun(w, es) && Detached(w, s) && NoFin(w.streams[s]) && FreshAcks(es, s)
    requires s in Run(w, es).streams && Pending(Run(w, es).streams[s]) == 0
    ensures Run(w, es).streams[s].finSent <==> Pending(w.streams[s]) > 0
    decreases |es|
  {
    hide Inv, LegalEvent, Step, Detached;
    if es != [] {
      var w1 := Step(w, es[0]);
      StepKeeps(w, es[0]);
      if es[0] == Destroying(s) {
        StepDetached(w, es[0], s);
        GoneForGood(w1, es[1..], s);
      } else {
        NextWithoutFin(w, es[0], s);
        if w1.streams[s].finSent {
          NothingWrittenAfterDetach(w1, es[1..], s);
        } else {
          EndsIffPending(w1, es[1..], s);
        }
      }
    }
  }

  // ---------- what a stream carries ----------

  // In every reachable state, for whatever response its transfer is in the middle of: at
  // most one fin, body bytes that are the next ones of the body, and, once the whole
  // response was relayed, exactly the fins owed and the whole body.
  lemma StreamCarriesResponse(m: Moment, s: Sid, r: Relay.Response)
    requires LegalMoment(START, m) && s in At(START, m).streams
    requires Relay.Delivered(r) && At(START, m).streams[s].heard <= Relay.Inputs(r)
    ensures var st := At(START, m).streams[s];
            && Relay.Fins(st.log) <= 1
            && Relay.BodyBytes(st.log) <= Concat(r.chunks)
            && (st.heard == Relay.Inputs(r) ==>
                  Relay.Fins(st.log) == Relay.FinsOwed(r) && Relay.BodyBytes(st.log) == Concat(r.chunks))
  {
    hide LegalMoment, At, Relay.Delivered, Relay.Inputs, Relay.Feed, Relay.FinsOwed;
    Reachable(m);
    SoundStream(At(START, m), s);
    Relay.CutTransfer(r, At(START, m).streams[s].heard);
    Relay.FinLaw(r);
    Relay.BodyIsRelayedWhole(r);
  }

  // ---------- proxies that never start ----------

  // Hashed, but its handle is not in the multi: its method was invalid.
  predicate Idle(w: World, p: Pid) {
    Owned(w, p) && w.proxies[p].easy !in w.multi
  }

  lemma FetchedIdleIff(w: World, p: Pid, s: Sid, easy: Handle, r: Request, asked: Option<int>)
    requires Inv(w) && LegalEvent(w, Fetching(p, s, easy, r, asked))
    ensures Idle(Fetch(w, p, s, easy, r, asked), p) <==> !r.validMethod
  {
    hide Links, Sockets, Histories;
    if easy in w.multi { MultiHash(w, easy); }
  }

  lemma IdleFrame(w: World, w': World, p: Pid)
    requires Idle(w, p) && p in w'.proxies && w'.proxies[p].easy == w.proxies[p].easy
    requires w.proxies[p].easy in w'.hash && w'.hash[w.proxies[p].easy] == p && w.proxies[p].easy !in w'.multi
    ensures Idle(w', p)
  {
  }

  lemma StepIdle(w: World, e: Event, p: Pid)
    requires Inv(w) && LegalEvent(w, e) && Idle(w, p)
    ensures Idle(Step(w, e), p)
  {
    hide Inv, SocketAction, CloseStream, LegalCallbacks, Uploads, OnReady, Send, Ack;
    match e
    case SocketReady(fd, script, running) =>
      ActionOwners(w, script, running);
      ReadyChanges(w, fd, script, running);
      IdleFrame(w, Step(w, e), p);
    case TimerFired(_, script, running) =>
      ActionOwners(w, script, running);
      IdleFrame(w, SocketAction(w, script, running), p);
    case Closing(s) => CloseOwners(w, s);
    case Destroying(s) => CloseOwners(w, s);
    case _ => IdleFrame(w, Step(w, e), p);
  }

  // Such a proxy is never reclaimed: it is in the hash in every later state, even after
  // its stream is destroyed.
  lemma {:induction false} IdleIsNeverReclaimed(w: World, es: seq<Event>, p: Pid)
    requires Inv(w) && LegalRun(w, es) && Idle(w, p)
    ensures Idle(Run(w, es), p)
    decreases |es|
  {
    hide Inv, LegalEvent, Step, Idle;
    if es != [] {
      StepKeeps(w, es[0]);
      StepIdle(w, es[0], p);
      IdleIsNeverReclaimed(Step(w, es[0]), es[1..], p);
    }
  }

  // ---------- the curl timer ----------

  // The timeouts libcurl asks for: in callbacks of its own, and when a handle is added or
  // removed.
  function Given(asked: Option<int>): seq<int> {
    if asked.Some? then [asked.value] else []
  }

  function AsksOf(cs: seq<Callback>): seq<int> {
    if cs == [] then [] else (if cs[0].Timer? then [cs[0].timeoutMs] else []) + AsksOf(cs[1..])
  }

  function AsksOfDone(ms: seq<Message>): seq<int> {
    if ms == [] then [] else (if ms[0].Done? then Given(ms[0].asked) else []) + AsksOfDone(ms[1..])
  }

  function Asks(w: World, e: Event): seq<int> {
    if e.Fetching? && e.request.validMethod then Given(e.asked)
    else if IsAction(e) then AsksOf(e.script) + AsksOfDone(OnCallbacks(w, e.script).messages)
    else []
  }

  // The last request counts.
  function SetBy(timer: TimerSpec, asks: seq<int>): TimerSpec {
    if asks == [] then timer else TimerFor(asks[|asks| - 1])
  }

  lemma SetTwice(timer: TimerSpec, a: seq<int>, b: seq<int>)
    ensures SetBy(SetBy(timer, a), b) == SetBy(timer, a + b)
  {
  }

  predicate SameTimer(w: World, w': World) {
    w'.timer == w.timer && w'.stillRunning == w.stillRunning
  }

  lemma CloseTimer(w: World, s: Sid)
    ensures SameTimer(w, CloseStream(w, s))
  {
  }

  lemma {:induction false} CloseAllTimer(w: World, ss: seq<Sid>)
    ensures SameTimer(w, CloseAll(w, ss))
    decreases |ss|
  {
    hide CloseStream;
    if ss != [] {
      CloseTimer(w, ss[0]);
      CloseAllTimer(CloseStream(w, ss[0]), ss[1..]);
    }
  }

  lemma TransferTimer(w: World, easy: Handle, i: Relay.Input, overhead: nat, closes: seq<Sid>)
    ensures SameTimer(w, OnTransfer(w, easy, i, overhead, closes))
  {
    hide Relay.OnInput, CloseAll;
    if easy in w.userdata && w.userdata[easy] in w.proxies {
      var p := w.userdata[easy];
      if w.proxies[p].stream.Some? && w.proxies[p].stream.value in w.streams {
        var e := Relay.OnInput(w.proxies[p].relay, i);
        CloseAllTimer(Relayed(w, p, w.proxies[p].stream.value, i, e, overhead), closes);
      }
    }
  }

  lemma CallbackTimer(w: World, c: Callback)
    ensures OnCallback(w, c).timer == SetBy(w.timer, if c.Timer? then [c.timeoutMs] else [])
  {
    hide OnSocket, OnTransfer, TimerFor;
    match c
    case Transfer(easy, i, overhead, closes) => TransferTimer(w, easy, i, overhead, closes);
    case Socket(easy, fd, what) => SocketChanges(w, easy, fd, what);
    case _ =>
  }

  lemma {:induction false} CallbacksTimer(w: World, cs: seq<Callback>)
    ensures OnCallbacks(w, cs).timer == SetBy(w.timer, AsksOf(cs))
    decreases |cs|
  {
    hide OnCallback, TimerFor;
    if cs != [] {
      CallbackTimer(w, cs[0]);
      CallbacksTimer(OnCallback(w, cs[0]), cs[1..]);
      SetTwice(w.timer, if cs[0].Timer? then [cs[0].timeoutMs] else [], AsksOf(cs[1..]));
    }
  }

  lemma DoneTimer(w: World, easy: Handle, asked: Option<int>)
    requires Inv(w) && easy in w.multi
    ensures var w' := OnDone(w, easy, asked);
            w'.timer == Asked(w.timer, asked) && w'.stillRunning == w.stillRunning
  {
    hide Ownership, Links, Sockets, Histories, OnSocket, Asked;
    MultiHash(w, easy);
    if easy in w.sockets { SocketChanges(w, easy, w.sockets[easy].fd, None); }
  }

  lemma MessageTimer(w: World)
    requires Inv(w) && w.messages != []
    ensures OnMessage(w).stillRunning == w.stillRunning
    ensures OnMessage(w).timer == SetBy(w.timer, if w.messages[0].Done? then Given(w.messages[0].asked) else [])
  {
    hide Ownership, Links, Multi, Sockets, Histories, OnDone, TimerFor;
    var w1 := w.(messages := w.messages[1..]);
    PopMulti(w);
    AsideKeeps(w, w1);
    if w.messages[0].Done? { DoneTimer(w1, w.messages[0].easy, w.messages[0].asked); }
  }

  lemma {:induction false} ReadTimer(w: World)
    requires Inv(w)
    ensures ReadMessages(w).stillRunning == w.stillRunning
    ensures ReadMessages(w).timer == SetBy(w.timer, AsksOfDone(w.messages))
    decreases |w.messages|
  {
    hide Inv, OnMessage, TimerFor, Given, SetBy;
    if w.messages == [] {
      assert SetBy(w.timer, []) == w.timer by { NothingAsked(w.timer); }
    } else {
      MessageTimer(w);
      MessageKeeps(w);
      MessagesAreConsumed(w);
      ReadTimer(OnMessage(w));
      SetTwice(w.timer, if w.messages[0].Done? then Given(w.messages[0].asked) else [], AsksOfDone(w.messages[1..]));
    }
  }

  lemma NothingAsked(timer: TimerSpec)
    ensures SetBy(timer, []) == timer
  {
  }

  // After a socket event the timer is off if no transfer runs, whatever libcurl asked for
  // meanwhile; after any other event it is as libcurl last asked, in that event or before.
  lemma TimerAfterEvent(w: World, e: Event)
    requires Inv(w) && LegalEvent(w, e)
    ensures Step(w, e).stillRunning == if IsAction(e) then e.running else w.stillRunning
    ensures Step(w, e).timer ==
            if e.SocketReady? && e.running <= 0 then DISARMED else SetBy(w.timer, Asks(w, e))
  {
    if IsAction(e) {
      hide Inv, SocketAction, OnCallbacks, LegalCallbacks, AsksOf, AsksOfDone, SetBy, OnReady;
      TimerAfterAction(w, e.script, e.running);
      if e.SocketReady? {
        ReadyChanges(w, e.fd, e.script, e.running);
        ReadyTimer(w, e.fd, e.script, e.running);
      }
    } else {
      OthersTimer(w, e);
    }
  }

  lemma OthersTimer(w: World, e: Event)
    requires Inv(w) && LegalEvent(w, e) && !IsAction(e)
    ensures Step(w, e).stillRunning == w.stillRunning && Step(w, e).timer == SetBy(w.timer, Asks(w, e))
  {
    hide Inv, CloseStream, LegalCallbacks, Fetch, OnAck, Send, TimerFor;
    match e
    case Fetching(p, s, easy, r, asked) => FetchAdds(w, p, s, easy, r, asked);
    case Acked(s, n) => AckKeepsProxies(w, s, n);
    case Closing(s) => CloseTimer(w, s);
    case Destroying(s) => CloseTimer(w, s);
    case _ =>
  }

  lemma TimerAfterAction(w: World, script: seq<Callback>, running: int)
    requires Inv(w) && LegalCallbacks(w, script)
    ensures var w' := SocketAction(w, script, running);
            && w'.stillRunning == running
            && w'.timer == SetBy(w.timer, AsksOf(script) + AsksOfDone(OnCallbacks(w, script).messages))
  {
    hide Inv, OnCallbacks, ReadMessages, LegalCallbacks, TimerFor, AsksOf, AsksOfDone, SetBy;
    CallbacksTimer(w, script);
    ActionKeeps(w, script, running);
    var w1 := OnCallbacks(w, script).(stillRunning := running);
    ReadTimer(w1);
    SetTwice(w.timer, AsksOf(script), AsksOfDone(w1.messages));
    if w1.messages == [] { NothingRead(w1); }
  }

  lemma NothingRead(w: World)
    requires w.messages == []
    ensures ReadMessages(w) == w
  {
  }

  lemma ReadyTimer(w: World, fd: int, script: seq<Callback>, running: int)
    requires Inv(w) && LegalEvent(w, SocketReady(fd, script, running))
    ensures var w1 := SocketAction(w, script, running);
            OnReady(w, fd, script, running).timer == if w1.stillRunning <= 0 then DISARMED else w1.timer
  {
    hide Ownership, Links, Multi, Sockets, Histories, SocketAction, LegalCallbacks;
    RegisteredIsOwned(w, fd);
    OnStackProxySurvives(w, fd, script, running);
  }

  // ---------- the upload of a request body ----------

  // A proxy keeps its request while it lives.
  lemma StepTransfer(w: World, e: Event, p: Pid)
    requires Inv(w) && LegalEvent(w, e) && p in w.proxies && p in Step(w, e).proxies
    ensures SameTransfer(w.proxies[p], Step(w, e).proxies[p])
  {
    hide Inv, SocketAction, CloseStream, LegalCallbacks, Uploads, OnReady, Send, Ack, OnAck;
    match e
    case SocketReady(fd, script, running) =>
      ActionOwners(w, script, running);
      ReadyChanges(w, fd, script, running);
    case TimerFired(_, script, running) => ActionOwners(w, script, running);
    case Closing(s) => CloseOwners(w, s);
    case Destroying(s) => CloseOwners(w, s);
    case Acked(s, n) => AckKeepsProxies(w, s, n);
    case _ =>
  }

  lemma FreedIsNotLive(w: World, p: Pid)
    requires Inv(w) && p in w.freed
    ensures p !in w.proxies
  {
  }

  lemma {:induction false} FreedForGood(w: World, es: seq<Event>, p: Pid)
    requires Inv(w) && LegalRun(w, es) && p in w.freed
    ensures p !in Run(w, es).proxies
    decreases |es|
  {
    hide Inv, LegalEvent, Step, QuietCheck;
    if es == [] {
      FreedIsNotLive(w, p);
    } else {
      StepKeeps(w, es[0]);
      FreedExactlyByQuietChecks(w, es[0]);
      FreedForGood(Step(w, es[0]), es[1..], p);
    }
  }

  lemma {:induction false} RunTransfer(w: World, es: seq<Event>, p: Pid)
    requires Inv(w) && LegalRun(w, es) && p in w.proxies && p in Run(w, es).proxies
    ensures SameTransfer(w.proxies[p], Run(w, es).proxies[p])
    decreases |es|
  {
    hide Inv, LegalEvent, Step, QuietCheck;
    if es != [] {
      var w1 := Step(w, es[0]);
      StepKeeps(w, es[0]);
      FreedExactlyByQuietChecks(w, es[0]);
      if p in w1.proxies {
        StepTransfer(w, es[0], p);
        RunTransfer(w1, es[1..], p);
      } else {
        FreedForGood(w1, es[1..], p);
      }
    }
  }

  // At every moment after its fetch, what libcurl has read for a proxy is a prefix of the
  // body of the request it was fetched with.
  lemma UploadIsRequestBody(before: seq<Event>, e: Event, m: Moment)
    requires LegalRun(START, before) && e.Fetching? && LegalEvent(Run(START, before), e)
    requires var w := Step(Run(START, before), e); LegalMoment(w, m) && e.p in At(w, m).proxies
    ensures var x := At(Step(Run(START, before), e), m).proxies[e.p];
            var body := if e.request.validMethod
                           && HeaderText.Lookup(e.request.headers, ":method") in ["POST", "PUT", "PATCH"]
                        then e.request.body else [];
            x.body == body && x.uploaded <= body && (x.bodyPos == |x.body| ==> x.uploaded == body)
  {
    UploadBodyIs(e.request);
    hide UploadBody, HeaderText.Lookup;
    hide Ownership, Links, Multi, Sockets, Histories, OnCallbacks, LegalCallbacks, LegalEvent;
    Reachable(Between(before));
    var w0 := Run(START, before);
    StepKeeps(w0, e);
    var w := Step(w0, e);
    FetchBody(w0, e);
    hide Run, LegalRun, Step;
    MomentKeeps(w, m);
    RunTransfer(w, m.past, e.p);
    UploadingOf(At(w, m), e.p);
  }

  lemma FetchBody(w: World, e: Event)
    requires Inv(w) && e.Fetching? && LegalEvent(w, e)
    ensures e.p in Step(w, e).proxies && Step(w, e).proxies[e.p].body == UploadBody(e.request)
  {
    hide Uploads;
  }

  // libcurl is told the end, by a read of nothing into a buffer that has room, exactly when
  // it has the whole body.
  lemma UploadEndsIff(w: World, easy: Handle, size: nat)
    requires Inv(w) && easy in w.multi && size > 0
    ensures easy in w.userdata && w.userdata[easy] in w.proxies
    ensures var p := w.userdata[easy];
            && p in OnUpload(w, easy, size).proxies
            && (OnUpload(w, easy, size).proxies[p].uploaded == w.proxies[p].uploaded
                <==> w.proxies[p].uploaded == w.proxies[p].body)
  {
    hide Links, Sockets;
    MultiHash(w, easy);
    UploadingOf(w, w.userdata[easy]);
    var x := w.proxies[w.userdata[easy]];
    var n := Relay.ReadLength(x.body, x.bodyPos, size);
    assert |x.uploaded + x.body[x.bodyPos..x.bodyPos + n]| == |x.uploaded| + n;
    assert x.uploaded == x.body <==> x.bodyPos == |x.body|;
  }
}
