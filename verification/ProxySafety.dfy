/** Safety of one mapping over every run. */
module ProxySafety {
  import opened Ledger
  import opened TcpTable
  import opened TcpSafety
  import opened TcpUninit
  import opened Proxy

  // ----- Streams -----

  lemma RecvChunksSnoc(trace: seq<Callback>, c: Callback)
    ensures RecvChunks(trace + [c]) == RecvChunks(trace) + if c.Recv? then [c.data] else []
  {
    assert (trace + [c])[..|trace + [c]| - 1] == trace;
  }

  lemma DeliveredSnoc(chunks: seq<seq<byte>>, results: seq<SendResult>, data: seq<byte>, r: SendResult)
    requires |chunks| == |results|
    ensures Delivered(chunks + [data], results + [r]) ==
            Delivered(chunks, results) + if r == Sent then data else []
  {
    assert (chunks + [data])[..|chunks|] == chunks;
    assert (results + [r])[..|results|] == results;
  }

  // ----- With a limit of one user -----

  lemma OneElement<T>(a: set<T>, x: T, y: T)
    requires |a| <= 1 && x in a && y in a
    ensures x == y
  {
    if x != y {
      SubsetCard({x, y}, a);
    }
  }

  lemma SlotZero(s: Server, u: UserId)
    requires TableOk(s) && Cap(s) == 1 && u in s.slots && u != NULL
    ensures s.slots[0] == u && 0 in Occupied(s.slots)
  {
  }

  /** A user that has not reached its final free holds the one place there is. */
  lemma HoldsPlace(s: Server, u: UserId)
    requires Inv(s) && s.maxUserNum == 1
    requires u in s.threads && s.threads[u] != Freeing
    ensures s.slots[0] == u || Unpublished(s.listener, u) || u in AtDrop(s.threads)
    ensures s.slots[0] != NULL ==> |Occupied(s.slots)| >= 1
    ensures AtDrop(s.threads) != {} ==> |AtDrop(s.threads)| >= 1
    ensures |Occupied(s.slots)| + |AtDrop(s.threads)| <= 1
    ensures Unpublished(s.listener, u) ==> |Occupied(s.slots)| + |AtDrop(s.threads)| == 0
  {
    assert u in s.heap;
    if u in s.slots {
      SlotZero(s, u);
    }
    assert s.slots[0] != NULL ==> 0 in Occupied(s.slots);
  }

  lemma OnlyOne(s: Server, u: UserId, v: UserId)
    requires Inv(s) && s.maxUserNum == 1
    requires u in s.threads && s.threads[u] != Freeing
    requires v in s.threads && s.threads[v] != Freeing
    ensures u == v
  {
    HoldsPlace(s, u);
    HoldsPlace(s, v);
    assert NULL !in s.threads;
    if u in AtDrop(s.threads) && v in AtDrop(s.threads) {
      OneElement(AtDrop(s.threads), u, v);
    }
  }

  // ----- One step keeps each part of the invariant -----

  /** The server's open descriptors after a step: none appears but the one accepted. */
  lemma ServerFdsStep(s: Server, e: Event)
    requires Shape(s) && Enabled(s, e)
    ensures OpenFds(Step(s, e).heap, Step(s, e).listenFd) <=
            OpenFds(s.heap, s.listenFd) + if e.AcceptStart? then {e.fd} else {}
  {
  }

  lemma PipeTcp(l: Link, e: LinkEvent)
    requires PipeOk(l) && LinkEnabled(l, e) && e.Tcp?
    ensures PipeOk(LinkStep(l, e))
  {
    ServerFdsStep(l.server.value, e.e);
  }

  lemma PipeEnded(l: Link)
    requires PipeOk(l) && LinkEnabled(l, PipeEnd)
    ensures PipeOk(LinkStep(l, PipeEnd))
  {
    HeldSnoc(l.ipcLog, Release(l.client.value.fd));
    assert ClientFds(l.client) - {l.client.value.fd} == {};
  }

  /** The old client, if any, is closed first. */
  lemma ClosedClient(l: Link)
    requires Held(l.ipcLog) == Some(ClientFds(l.client))
    ensures Held(ClosedClientLog(l)) == Some({})
  {
    if ClientFds(l.client) != {} {
      HeldSnoc(l.ipcLog, Release(l.client.value.fd));
      assert ClientFds(l.client) - {l.client.value.fd} == {};
    }
  }

  /** Connecting, whatever state the mapping is in: afterwards pipeConnect tells
      the truth exactly when it was clear before or the attempt got as far as
      finding the pipe. The monitor's guard is the first of the two. */
  lemma ConnectIpcExact(l: Link, o: ConnectOracle)
    requires Held(l.ipcLog) == Some(ClientFds(l.client))
    requires o.socket > 0 ==> o.socket !in ServerFds(l.server)
    ensures PipeOk(ConnectIpc(l, o)) <==> !l.pipeConnect || (Opens(o) && o.pathExists)
    ensures Held(ConnectIpc(l, o).ipcLog) == Some(ClientFds(ConnectIpc(l, o).client))
  {
    ClosedClient(l);
    PairLog(ClosedClientLog(l), o.socket);
    assert {} + {o.socket} == {o.socket};
  }

  lemma DisconnectIpcOk(l: Link)
    requires Held(l.ipcLog) == Some(ClientFds(l.client))
    ensures PipeOk(DisconnectIpc(l)) && Held(DisconnectIpc(l).ipcLog) == Some({})
  {
    ClosedClient(l);
  }

  lemma StepPipe(l: Link, e: LinkEvent)
    requires PipeOk(l) && LinkEnabled(l, e)
    ensures PipeOk(LinkStep(l, e))
  {
    match e {
      case Tcp(_, _) => PipeTcp(l, e);
      case PipeEnd => PipeEnded(l);
      case Reconnect(o) => ConnectIpcExact(l, o);
      case PipeData(_, _) =>
    }
  }

  lemma NobodyElse(s: Server, u: UserId)
    requires Inv(s) && s.maxUserNum == 1 && u in s.threads && s.threads[u] != Freeing
    ensures forall v :: v in s.threads && v != u ==> s.threads[v] == Freeing
  {
    forall v | v in s.threads && v != u
      ensures s.threads[v] == Freeing
    {
      if s.threads[v] != Freeing {
        OnlyOne(s, u, v);
      }
    }
  }

  /** The exit callback clears the stored user only when the leaving user is the
      stored one; the accept callback stores a user only when none is stored. */
  lemma CallbackMeetsOwnUser(l: Link, e: LinkEvent)
    requires UserStored(l) && LinkEnabled(l, e) && LinkOrderly(l, e) && e.Tcp?
    ensures e.e.NotifyExit? ==> l.pTcpUser == e.e.user
    ensures e.e.AcceptNotify? ==> l.pTcpUser == NULL
  {
    var s := l.server.value;
    if e.e.NotifyExit? {
      assert Connected(s.threads, s.listener, e.e.user);
    } else if e.e.AcceptNotify? {
      assert s.listener.user in s.threads;
      NobodyElse(s, s.listener.user);
      assert l.pTcpUser != NULL ==> !Connected(s.threads, s.listener, l.pTcpUser);
    }
  }

  lemma StoredAfter(l: Link, e: LinkEvent)
    requires UserStored(l) && LinkEnabled(l, e) && LinkOrderly(l, e) && e.Tcp?
    ensures var r := LinkStep(l, e);
            && (r.tcpConnect <==> r.pTcpUser != NULL)
            && forall u :: u != NULL ==>
                 (Connected(Step(l.server.value, e.e).threads, Step(l.server.value, e.e).listener, u)
                  <==> r.pTcpUser == u)
  {
    CallbackMeetsOwnUser(l, e);
    var s := l.server.value;
    assert NULL !in s.threads;
    var r := Step(s, e.e);
    var stored := LinkStep(l, e).pTcpUser;
    forall u | u != NULL
      ensures Connected(r.threads, r.listener, u) <==> stored == u
    {
      assert Connected(s.threads, s.listener, u) <==> l.pTcpUser == u;
      if e.e.AcceptNotify? {
        NobodyElse(s, s.listener.user);
      } else if e.e.NotifyExit? {
        NobodyElse(s, e.e.user);
      } else {
        ConnectedStep(s, e.e, u);
      }
    }
  }

  lemma ServerAfter(l: Link, e: LinkEvent)
    requires LinkEnabled(l, e)
    ensures LinkStep(l, e).server == if e.Tcp? then Some(Step(l.server.value, e.e)) else l.server
  {
  }

  lemma StoredTcp(l: Link, e: LinkEvent)
    requires UserStored(l) && LinkEnabled(l, e) && LinkOrderly(l, e) && e.Tcp?
    ensures UserStored(LinkStep(l, e))
  {
    var s := l.server.value;
    StepExact(s, e.e);
    StoredAfter(l, e);
    ServerAfter(l, e);
    LimitKept(s, e.e);
  }

  lemma LimitKept(s: Server, e: Event)
    requires Shape(s) && Enabled(s, e)
    ensures Step(s, e).maxUserNum == s.maxUserNum
  {
  }

  /** Steps of the pipe side do not touch the server or the stored user. */
  lemma PipeSideKeeps(l: Link, e: LinkEvent)
    requires LinkEnabled(l, e) && !e.Tcp?
    ensures var r := LinkStep(l, e);
            r.server == l.server && r.pTcpUser == l.pTcpUser && r.tcpConnect == l.tcpConnect
  {
  }

  lemma StepUserStored(l: Link, e: LinkEvent)
    requires UserStored(l) && LinkEnabled(l, e) && LinkOrderly(l, e)
    ensures UserStored(LinkStep(l, e))
  {
    if e.Tcp? {
      StoredTcp(l, e);
    } else {
      PipeSideKeeps(l, e);
    }
  }

  /** One more chunk for the pipe. */
  lemma OneMore(chunks: seq<seq<byte>>, results: seq<SendResult>, out: seq<byte>, data: seq<byte>,
                present: bool, fd: int, osOk: bool)
    requires |results| == |chunks| && out == Delivered(chunks, results) && ZeroSize !in results
    requires 1 <= |data| <= COMM_BUF_SIZE
    ensures var r := SendOutcome(present, fd, true, Short(|data|), osOk);
            && (if r == Sent then out + data[..Short(|data|)] else out)
               == Delivered(chunks + [data], results + [r])
            && ZeroSize !in results + [r]
  {
    assert Short(|data|) == |data| && data[..|data|] == data;
    DeliveredSnoc(chunks, results, data, SendOutcome(present, fd, true, Short(|data|), osOk));
  }

  /** One more chunk for a user. */
  lemma SendsSnoc(chunks: seq<seq<byte>>, users: seq<UserId>, results: seq<SendResult>,
                  data: seq<byte>, u: UserId, r: SendResult)
    requires |chunks| == |users| == |results|
    ensures Sends(chunks + [data], users + [u], results + [r]) ==
            Sends(chunks, users, results) + if r == Sent then [(u, data)] else []
  {
    assert (chunks + [data])[..|chunks|] == chunks;
    assert (users + [u])[..|users|] == users;
    assert (results + [r])[..|results|] == results;
  }

  lemma BytesToSnoc(sends: seq<(UserId, seq<byte>)>, v: UserId, data: seq<byte>, u: UserId, any: bool)
    ensures BytesTo(sends + [(v, data)], u, any) == BytesTo(sends, u, any) + if any || v == u then data else []
  {
    assert (sends + [(v, data)])[..|sends|] == sends;
  }

  /** What each user's socket got is the chunks sent to it, whole and in order, and
      all sockets together got the chunks sent to any. */
  lemma {:induction false} SendsDeliver(chunks: seq<seq<byte>>, users: seq<UserId>, results: seq<SendResult>,
                                        u: UserId)
    requires |chunks| == |users| == |results|
    ensures BytesTo(Sends(chunks, users, results), u, false) == Delivered(chunks, ResultsTo(users, results, u))
    ensures BytesTo(Sends(chunks, users, results), u, true) == Delivered(chunks, results)
    decreases |chunks|
  {
    if chunks != [] {
      var n := |chunks| - 1;
      SendsDeliver(chunks[..n], users[..n], results[..n], u);
      assert ResultsTo(users, results, u)[..n] == ResultsTo(users[..n], results[..n], u);
      var before := Sends(chunks[..n], users[..n], results[..n]);
      BytesToSnoc(before, users[n], chunks[n], u, false);
      BytesToSnoc(before, users[n], chunks[n], u, true);
      assert before + [] == before;
    }
  }

  lemma ChunksKept(s: Server, e: Event)
    requires Shape(s) && Enabled(s, e)
    ensures RecvChunks(Step(s, e).trace) ==
            if e.Data? then RecvChunks(s.trace) + [e.data] else RecvChunks(s.trace)
  {
    match e {
      case AcceptNotify => RecvChunksSnoc(s.trace, Acpt(s.listener.user));
      case NotifyExit(u) => RecvChunksSnoc(s.trace, Exit(u));
      case Data(u, data) => RecvChunksSnoc(s.trace, Recv(u, data));
      case _ => assert Step(s, e).trace == s.trace;
    }
  }

  lemma ForwardTcp(l: Link, e: LinkEvent)
    requires ForwardOk(l) && LinkEnabled(l, e) && e.Tcp?
    ensures ForwardOk(LinkStep(l, e))
  {
    ServerAfter(l, e);
    ChunksKept(l.server.value, e.e);
    if e.e.Data? {
      OneMore(TcpChunks(l), l.tcpResults, l.toPipe, e.e.data, l.client.Some?,
              if l.client.Some? then l.client.value.fd else -1, e.osOk);
    }
  }

  lemma ForwardPipe(l: Link, e: LinkEvent)
    requires ForwardOk(l) && LinkEnabled(l, e) && e.PipeData?
    ensures ForwardOk(LinkStep(l, e))
  {
    var data := e.data;
    assert Short(|data|) == |data| && data[..|data|] == data;
    var r := LinkStep(l, e).pipeResults[|l.pipeResults|];
    SendsSnoc(l.pipeIn, l.pipeUsers, l.pipeResults, data, l.pTcpUser, r);
    assert l.toTcp + [] == l.toTcp;
  }

  lemma StepForward(l: Link, e: LinkEvent)
    requires ForwardOk(l) && LinkEnabled(l, e)
    ensures ForwardOk(LinkStep(l, e))
  {
    match e {
      case Tcp(_, _) => ForwardTcp(l, e);
      case PipeData(_, _) => ForwardPipe(l, e);
      case _ =>
    }
  }

  lemma TraceGrows(s: Server, e: Event)
    requires Shape(s) && Enabled(s, e)
    ensures s.trace <= Step(s, e).trace
  {
  }

  /** Callbacks made later do not change whose chunk it was. */
  lemma RoutedLater(l: Link, r: Link)
    requires RoutedOk(l) && Callbacks(l) <= Callbacks(r)
    requires r.pipeUsers == l.pipeUsers && r.pipeMoments == l.pipeMoments
    ensures RoutedOk(r)
  {
    forall k | 0 <= k < |r.pipeMoments| && r.pipeMoments[k].Some?
      ensures var m := r.pipeMoments[k].value;
              m <= |Callbacks(r)| && OnlyOpen(Callbacks(r)[..m], r.pipeUsers[k])
    {
      var m := r.pipeMoments[k].value;
      assert Callbacks(r)[..m] == Callbacks(l)[..m];
    }
  }

  lemma StoredOpen(l: Link)
    requires UserStored(l) && l.server.Some?
    ensures OnlyOpen(l.server.value.trace, l.pTcpUser)
  {
    var s := l.server.value;
    forall v | v != NULL
      ensures Session(s.trace, v) == Some(true) <==> v == l.pTcpUser
    {
      assert Session(s.trace, v) == Some(Connected(s.threads, s.listener, v));
    }
  }

  lemma RoutedPipe(l: Link, e: LinkEvent)
    requires UserStored(l) && RoutedOk(l) && LinkEnabled(l, e) && e.PipeData?
    ensures RoutedOk(LinkStep(l, e))
  {
    var r := LinkStep(l, e);
    assert Callbacks(r) == Callbacks(l);
    if l.server.Some? {
      StoredOpen(l);
      assert Callbacks(l)[..|Callbacks(l)|] == Callbacks(l);
    }
  }

  lemma StepRouted(l: Link, e: LinkEvent)
    requires UserStored(l) && RoutedOk(l) && LinkEnabled(l, e)
    ensures RoutedOk(LinkStep(l, e))
  {
    match e {
      case Tcp(t, _) =>
        TraceGrows(l.server.value, t);
        ServerAfter(l, e);
        RoutedLater(l, LinkStep(l, e));
      case PipeData(_, _) => RoutedPipe(l, e);
      case _ => RoutedLater(l, LinkStep(l, e));
    }
  }

  lemma LinkStepExact(l: Link, e: LinkEvent)
    requires LinkInv(l) && LinkEnabled(l, e)
    ensures LinkInv(LinkStep(l, e)) <==> LinkOrderly(l, e)
  {
    StepPipe(l, e);
    StepForward(l, e);
    StepRouted(l, e);
    if LinkOrderly(l, e) {
      StepUserStored(l, e);
    } else {
      StepExact(l.server.value, e.e);
      ServerAfter(l, e);
    }
  }

  // ----- Runs -----

  /** Over every run of one mapping with the TCP side split: the invariant holds
      throughout exactly when the TCP side's two threads keep their ordering. */
  lemma {:induction false} LinkRunExact(l: Link, es: seq<LinkEvent>)
    requires LinkInv(l) && LinkPossible(l, es)
    ensures LinkAlwaysInv(l, es) <==> LinkAllOrderly(l, es)
    decreases |es|
  {
    if es != [] {
      LinkStepExact(l, es[0]);
      if LinkOrderly(l, es[0]) {
        LinkRunExact(LinkStep(l, es[0]), es[1..]);
      } else {
        assert !LinkAlwaysInv(LinkStep(l, es[0]), es[1..]);
      }
    }
  }

  lemma AtomicServerAfter(l: Link, e: LinkEvent)
    requires AtomicLinkEnabled(l, e)
    ensures AtomicLinkStep(l, e).server ==
            if e.Tcp? then Some(AtomicStep(l.server.value, e.e)) else l.server
  {
    ServerAfter(l, e);
  }

  lemma AtomicLinkStepInv(l: Link, e: LinkEvent)
    requires AtomicLinkInv(l) && AtomicLinkEnabled(l, e)
    ensures AtomicLinkInv(AtomicLinkStep(l, e))
  {
    LinkStepExact(l, e);
    AtomicServerAfter(l, e);
    if e.Tcp? {
      AtomicStepInv(l.server.value, e.e);
    }
    var m := LinkStep(l, e);
    if e.Tcp? && e.e.AcceptStart? && m.server.value.listener.Started? {
      FinishLink(m);
    }
  }

  lemma LinkStepInv(l: Link, e: LinkEvent)
    requires LinkInv(l) && LinkEnabled(l, e) && LinkOrderly(l, e)
    ensures LinkInv(LinkStep(l, e))
    ensures LinkStep(l, e).server == if e.Tcp? then Some(Step(l.server.value, e.e)) else l.server
  {
    LinkStepExact(l, e);
    ServerAfter(l, e);
  }

  /** The next step of an accept in flight. */
  lemma FinishOne(m: Link, t: Event)
    requires LinkInv(m) && m.server.Some?
    requires match m.server.value.listener
             case Started(_, _) => t == AcceptNotify
             case Notified(_, _) => t == AcceptPublish
             case Published(_) => t == AcceptCount
             case _ => false
    ensures LinkEnabled(m, Tcp(t, true)) && LinkInv(LinkStep(m, Tcp(t, true)))
    ensures LinkStep(m, Tcp(t, true)).server.Some?
    ensures var l := LinkStep(m, Tcp(t, true)).server.value.listener;
            match t
            case AcceptNotify => l.Notified?
            case AcceptPublish => l.Published?
            case _ => true
  {
    LinkStepInv(m, Tcp(t, true));
  }

  lemma FinishLink(m: Link)
    requires LinkInv(m) && m.server.Some? && m.server.value.listener.Started?
    ensures LinkEnabled(m, Tcp(AcceptNotify, true))
            && (var n := LinkStep(m, Tcp(AcceptNotify, true));
                LinkEnabled(n, Tcp(AcceptPublish, true))
                && (var p := LinkStep(n, Tcp(AcceptPublish, true));
                    LinkEnabled(p, Tcp(AcceptCount, true)) && LinkInv(LinkStep(p, Tcp(AcceptCount, true)))))
  {
    FinishOne(m, AcceptNotify);
    var n := LinkStep(m, Tcp(AcceptNotify, true));
    FinishOne(n, AcceptPublish);
    FinishOne(LinkStep(n, Tcp(AcceptPublish, true)), AcceptCount);
  }

  /** With acceptance as one step: a stored user is always an allocated user in
      slot 0, and tcpConnect is set exactly when one is stored. */
  lemma StoredUserSafe(l: Link)
    requires AtomicLinkInv(l)
    ensures l.tcpConnect <==> l.pTcpUser != NULL
    ensures l.pTcpUser != NULL ==>
              l.server.Some? && l.pTcpUser in l.server.value.heap && l.server.value.slots[0] == l.pTcpUser
  {
    if l.pTcpUser != NULL {
      var s := l.server.value;
      assert Connected(s.threads, s.listener, l.pTcpUser);
      SlotZero(s, l.pTcpUser);
    }
  }

  /** The invariant's reading for one mapping. */
  lemma LinkFacts(l: Link)
    requires AtomicLinkInv(l)
    ensures l.tcpConnect <==> l.pTcpUser != NULL
    ensures l.pTcpUser != NULL ==> l.server.Some? && l.pTcpUser in l.server.value.heap
                                   && Shape(l.server.value) && l.server.value.slots[0] == l.pTcpUser
    ensures l.pipeConnect <==> Receiver(l)
    ensures |l.tcpResults| == |TcpChunks(l)| && |l.pipeIn| == |l.pipeUsers| == |l.pipeResults|
    ensures l.toPipe == Delivered(TcpChunks(l), l.tcpResults)
    ensures forall u :: BytesTo(l.toTcp, u, false) ==
                        Delivered(l.pipeIn, ResultsTo(l.pipeUsers, l.pipeResults, u))
    ensures BytesTo(l.toTcp, NULL, true) == Delivered(l.pipeIn, l.pipeResults)
    ensures RoutedOk(l)
    ensures ZeroSize !in l.tcpResults && ZeroSize !in l.pipeResults
  {
    StoredUserSafe(l);
    SendsDeliver(l.pipeIn, l.pipeUsers, l.pipeResults, NULL);
    forall u
      ensures BytesTo(l.toTcp, u, false) == Delivered(l.pipeIn, ResultsTo(l.pipeUsers, l.pipeResults, u))
    {
      SendsDeliver(l.pipeIn, l.pipeUsers, l.pipeResults, u);
    }
  }

  // ----- Launching and taking down -----

  lemma BlankInv()
    ensures AtomicLinkInv(Blank) && LinkFds(Blank) == {}
  {
  }

  lemma LaunchInv(l: Link, o: LaunchOracle)
    requires AtomicLinkInv(l) && l.server.None? && l.retired.None?
    requires o.socket !in ClientFds(l.client)
    ensures AtomicLinkInv(LaunchTcp(l, o))
    ensures LinkFds(LaunchTcp(l, o)) <= LinkFds(l) + if o.socket > 0 then {o.socket} else {}
  {
    var r := LaunchTcp(l, o);
    RoutedLater(l, r);
    if Launches(o) {
      InitInv(1, o.socket);
      var s := r.server.value;
      assert forall u :: !Connected(s.threads, s.listener, u);
      assert UserFds(s.heap) == {};
    }
  }

  /** Without a server and a client nothing of a mapping runs. */
  lemma LinkDead(l: Link, e: LinkEvent)
    requires l.server.None? && l.client.None? && !e.Reconnect?
    ensures !LinkEnabled(l, e)
  {
  }

  lemma DisconnectClean(l: Link)
    requires AtomicLinkInv(l)
    ensures var d := DisconnectIpc(l);
            && AtomicLinkInv(d) && LinkFds(d) <= LinkFds(l) && Held(d.ipcLog) == Some({})
  {
    DisconnectIpcOk(l);
    RoutedLater(l, DisconnectIpc(l));
  }

  /** Ceasing a quiet server leaves nothing open and nothing that can happen but the
      final frees of its users. */
  lemma CeaseClean(l: Link)
    requires AtomicLinkInv(l)
    requires l.server.Some? ==> Quiet(l.server.value)
    ensures var d := CeaseTcp(l);
            && AtomicLinkInv(d) && LinkFds(d) == ClientFds(l.client)
            && (l.server.Some? ==>
                  && d.retired.Some? && NothingDangles(d.retired.value)
                  && (forall e :: Enabled(d.retired.value, e) ==> e.FreeUser?)
                  && Held(d.retired.value.fdLog) == Some({})
                  && Held(d.retired.value.heapLog) == Some(d.retired.value.heap.Keys))
            && (l.server.None? ==> d.retired == l.retired)
  {
    if l.server.Some? {
      UninitExact(l.server.value);
      forall e | Enabled(Uninit(l.server.value), e)
        ensures e.FreeUser?
      {
        OnlyFreesLeft(Uninit(l.server.value), e);
      }
    }
    RoutedLater(l, CeaseTcp(l));
  }

  /** Taking one mapping down from a quiet state leaves nothing of it behind. */
  lemma DownClean(l: Link)
    requires AtomicLinkInv(l)
    requires l.server.Some? ==> Quiet(l.server.value)
    ensures var d := CeaseTcp(DisconnectIpc(l));
            && AtomicLinkInv(d) && LinkFds(d) == {} && Held(d.ipcLog) == Some({})
            && (l.server.Some? ==>
                  && d.retired.Some? && NothingDangles(d.retired.value)
                  && (forall e :: Enabled(d.retired.value, e) ==> e.FreeUser?)
                  && Held(d.retired.value.fdLog) == Some({})
                  && Held(d.retired.value.heapLog) == Some(d.retired.value.heap.Keys))
            && (l.server.None? ==> d.retired == l.retired)
  {
    DisconnectClean(l);
    CeaseClean(DisconnectIpc(l));
  }
}
