/** A client and a pipe can talk through the service, from its very start. */
module Conversation {
  import opened Ledger
  import opened TcpTable
  import opened TcpSafety
  import opened IpcStream
  import opened Proxy
  import opened ProxySafety
  import opened Text
  import opened Service
  import opened ServiceSafety
  import opened TakeDown
  import opened StartUp
  import opened Effects

  // ----- One mapping -----

  /** A server that listens and has nobody, and a connected client. */
  ghost predicate Open(l: Link) {
    && AtomicLinkInv(l) && Receiver(l)
    && l.server.Some? && l.server.value.listener == Idle && l.server.value.running
    && l.server.value.userNum == 0
  }

  /** The operating system has this descriptor and this address to give. */
  ghost predicate Available(l: Link, fd: int, u: UserId)
    requires l.server.Some?
  {
    FreshFd(l.server.value, fd) && fd !in ClientFds(l.client) && u != NULL && u !in l.server.value.heap
  }

  predicate Chunk(data: seq<byte>) {
    1 <= |data| <= COMM_BUF_SIZE
  }

  function AcceptEvent(fd: int, u: UserId): (e: LinkEvent) {
    Tcp(AcceptStart(fd, u, true), true)
  }

  /** A client is accepted and told to the proxy. */
  lemma Accepted(l: Link, fd: int, u: UserId)
    requires Open(l) && Available(l, fd, u)
    ensures AtomicLinkEnabled(l, AcceptEvent(fd, u))
    ensures var r := AtomicLinkStep(l, AcceptEvent(fd, u));
            && AtomicLinkInv(r) && r.tcpConnect && r.pTcpUser == u && Receiver(r)
            && r.server.Some? && At(r.server.value, u, Receiving) && r.server.value.heap[u] == fd
            && r.toPipe == l.toPipe && r.toTcp == l.toTcp
  {
    var e := AcceptEvent(fd, u);
    ListeningServerAdmits(l.server.value, fd, u);
    AtomicLinkStepInv(l, e);
    AtomicServerAfter(l, e);
    Told(l, fd, u);
  }

  lemma Told(l: Link, fd: int, u: UserId)
    requires AtomicLinkEnabled(l, AcceptEvent(fd, u)) && u != NULL
    requires l.server.value.userNum < l.server.value.maxUserNum
    requires IndexOf(l.server.value.slots, NULL, Cap(l.server.value)) < Cap(l.server.value)
    ensures var r := AtomicLinkStep(l, AcceptEvent(fd, u));
            r.tcpConnect && r.pTcpUser == u && r.client == l.client && r.pipeConnect == l.pipeConnect
            && r.toPipe == l.toPipe && r.toTcp == l.toTcp
  {
  }

  /** What it sends reaches the pipe. */
  lemma Heard(l: Link, u: UserId, data: seq<byte>)
    requires AtomicLinkInv(l) && Receiver(l) && l.server.Some? && Chunk(data)
    requires At(l.server.value, u, Receiving)
    ensures AtomicLinkEnabled(l, Tcp(Data(u, data), true))
    ensures var r := AtomicLinkStep(l, Tcp(Data(u, data), true));
            && AtomicLinkInv(r) && r.pTcpUser == l.pTcpUser && Receiver(r)
            && r.server.Some? && r.server.value.heap == l.server.value.heap
            && r.toPipe == l.toPipe + data && r.toTcp == l.toTcp
  {
    var e := Tcp(Data(u, data), true);
    AtomicLinkStepInv(l, e);
    TcpChunkForwarded(l, u, data, true);
  }

  /** What the pipe sends reaches it. */
  lemma Answered(l: Link, u: UserId, data: seq<byte>)
    requires AtomicLinkInv(l) && Receiver(l) && Chunk(data) && l.pTcpUser == u != NULL
    requires l.server.Some? && u in l.server.value.heap && l.server.value.heap[u] > 0
    ensures AtomicLinkEnabled(l, PipeData(data, true))
    ensures var r := AtomicLinkStep(l, PipeData(data, true));
            r.toPipe == l.toPipe && r.toTcp == l.toTcp + [(u, data)]
  {
    PipeChunkForwarded(l, data, true);
  }

  /** The whole exchange: accepted, heard and answered. */
  lemma Exchange(l: Link, fd: int, u: UserId, ask: seq<byte>, reply: seq<byte>)
    requires Open(l) && Available(l, fd, u) && Chunk(ask) && Chunk(reply)
    ensures AtomicLinkEnabled(l, AcceptEvent(fd, u))
    ensures var a := AtomicLinkStep(l, AcceptEvent(fd, u));
            && AtomicLinkEnabled(a, Tcp(Data(u, ask), true))
            && var b := AtomicLinkStep(a, Tcp(Data(u, ask), true));
               && AtomicLinkEnabled(b, PipeData(reply, true))
               && var c := AtomicLinkStep(b, PipeData(reply, true));
                  c.toPipe == l.toPipe + ask && c.toTcp == l.toTcp + [(u, reply)]
  {
    Accepted(l, fd, u);
    var a := AtomicLinkStep(l, AcceptEvent(fd, u));
    Heard(a, u, ask);
    var b := AtomicLinkStep(a, Tcp(Data(u, ask), true));
    Answered(b, u, reply);
  }

  // ----- A service with one mapping -----

  /** Everything succeeds: socket 3 for the server, 4 for the client, 5 for the monitor. */
  function Smooth(node: Node, cwd: Option<seq<byte>>): (o: InitOracle) {
    InitOracle(Nodes([node]), cwd,
               seq(MAX_MAPPING_NUM, _ => LaunchOracle(true, 3, true, true)),
               seq(MAX_MAPPING_NUM, _ => ConnectOracle(true, 4, true, true, true, true)),
               5, [1], true)
  }

  lemma OneMapping(node: Node, cwd: Option<seq<byte>>)
    requires node.enable != 0
    ensures var a := BootTable(Unborn(), Nodes([node]), cwd);
            && a.num == 1 && a.inotifyFd < 0 && (forall j: nat :: InUse(a, j) <==> j == 0)
            && LinkAt(a, 0) == Blank
  {
    BootTableIs(Nodes([node]), cwd);
    assert EnabledFrom([node], 1) == [] && EnabledFrom([node], 0) == [0] + [];
    BootFills([node], cwd);
  }

  lemma SmoothLinks()
    ensures var b := LaunchTcp(Blank, LaunchOracle(true, 3, true, true));
            && LinkFds(b) == {3}
            && LinkFds(ConnectIpc(b, ConnectOracle(true, 4, true, true, true, true))) == {3, 4}
  {
    assert UserFds(Init(1, 3).heap) == {};
  }

  lemma OnlyFirst(w: Service, l: Link, ops: seq<Op<Resource>>)
    requires forall j: nat :: InUse(w, j) <==> j == 0
    ensures forall j: nat :: InUse(SetLink(w, 0, l, ops), j) <==> j == 0
  {
    assert InUse(w, 0);
    forall j: nat
      ensures InUse(SetLink(w, 0, l, ops), j) <==> InUse(w, j)
    {
    }
  }

  lemma SmoothFresh(node: Node, cwd: Option<seq<byte>>)
    requires node.enable != 0
    ensures InitOracleOk(Smooth(node, cwd)) && InitFresh(Smooth(node, cwd))
  {
    var o := Smooth(node, cwd);
    var a := BootTable(Unborn(), o.doc, cwd);
    OneMapping(node, cwd);
    SmoothLinks();
    var b := LaunchAt(a, 0, o.launches[0]);
    OnlyFirst(a, LinkAt(b, 0), [Acquire(TcpHandle(0))]);
    var c := ConnectAt(b, 0, o.connects[0]);
    OnlyFirst(b, LinkAt(c, 0), [] + [Acquire(IpcHandle(0))]);
    assert ProxyInit(c, 1, o.launches, o.connects) == (c, true);
    assert ProxyInit(a, 0, o.launches, o.connects) == (c, true);
    assert ProxyFresh(c, 1, o.launches, o.connects);
  }

  /** For any enabled element there is a start-up that ends with the monitor running
      and the element's mapping launched and connected. */
  lemma StartsConnected(node: Node, cwd: Option<seq<byte>>) returns (es: seq<ServiceEvent>)
    requires node.enable != 0 && CwdOk(cwd)
    ensures ServicePossible(Unborn(), es)
    ensures var w := ServiceRun(Unborn(), es);
            && w.phase.Monitoring? && w.num == 1
            && InUse(w, 0) && LinkAt(w, 0).pipeConnect
            && LinkAt(w, 0).server == Some(Init(1, 3)) && LinkAt(w, 0).client.Some?
            && LinkAt(w, 0).client.value.fd == 4 && w.inotifyFd == 5 && Good(w)
  {
    UnbornGood();
    var o := Smooth(node, cwd);
    SmoothFresh(node, cwd);
    OneMapping(node, cwd);
    ServInitServes(o);
    es := InitIsRun(o);
    var r := ServInit(Unborn(), o).0;
    assert Served(r, 0, o.launches[0], o.connects[0]);
    ServiceRunGood(Unborn(), es);
  }

  // ----- From the very start -----

  /** From here a run gets this far with the first mapping. */
  ghost predicate CanSay(w: Service, toPipe: seq<byte>, toTcp: seq<(UserId, seq<byte>)>) {
    exists es :: ServicePossible(w, es) && InUse(ServiceRun(w, es), 0)
                 && LinkAt(ServiceRun(w, es), 0).toPipe == toPipe && LinkAt(ServiceRun(w, es), 0).toTcp == toTcp
  }

  lemma SaidNow(w: Service, toPipe: seq<byte>, toTcp: seq<(UserId, seq<byte>)>)
    requires InUse(w, 0) && LinkAt(w, 0).toPipe == toPipe && LinkAt(w, 0).toTcp == toTcp
    ensures CanSay(w, toPipe, toTcp)
  {
    assert ServicePossible(w, []) && ServiceRun(w, []) == w;
  }

  lemma StepSay(w: Service, e: ServiceEvent, toPipe: seq<byte>, toTcp: seq<(UserId, seq<byte>)>)
    requires ServiceEnabled(w, e) && CanSay(ServiceStep(w, e), toPipe, toTcp)
    ensures CanSay(w, toPipe, toTcp)
  {
    var r := ServiceStep(w, e);
    var es :| ServicePossible(r, es) && InUse(ServiceRun(r, es), 0)
              && LinkAt(ServiceRun(r, es), 0).toPipe == toPipe && LinkAt(ServiceRun(r, es), 0).toTcp == toTcp;
    TakeDown.RunCons(w, e, es);
  }

  lemma {:induction false} RunSay(w: Service, es: seq<ServiceEvent>, toPipe: seq<byte>,
                                  toTcp: seq<(UserId, seq<byte>)>)
    requires ServicePossible(w, es) && CanSay(ServiceRun(w, es), toPipe, toTcp)
    ensures CanSay(w, toPipe, toTcp)
    decreases |es|
  {
    if es != [] {
      RunSay(ServiceStep(w, es[0]), es[1..], toPipe, toTcp);
      StepSay(w, es[0], toPipe, toTcp);
    }
  }

  /** A step of the first mapping, in a service that is up. */
  lemma LinkSay(w: Service, e: LinkEvent, toPipe: seq<byte>, toTcp: seq<(UserId, seq<byte>)>)
    requires Up(w) && InUse(w, 0) && AtomicLinkEnabled(LinkAt(w, 0), e) && !e.Reconnect?
    requires e.Tcp? && e.e.AcceptStart? ==> Foreign(w, 0, e.e.fd)
    requires CanSay(SetLink(w, 0, AtomicLinkStep(LinkAt(w, 0), e), []), toPipe, toTcp)
    ensures CanSay(w, toPipe, toTcp)
  {
    StepSay(w, OnLink(0, e), toPipe, toTcp);
  }

  lemma ExchangeSay(w: Service, fd: int, u: UserId, ask: seq<byte>, reply: seq<byte>)
    requires Up(w) && InUse(w, 0) && Open(LinkAt(w, 0)) && Available(LinkAt(w, 0), fd, u) && Foreign(w, 0, fd)
    requires Chunk(ask) && Chunk(reply)
    ensures CanSay(w, LinkAt(w, 0).toPipe + ask, LinkAt(w, 0).toTcp + [(u, reply)])
  {
    var l := LinkAt(w, 0);
    var toPipe, toTcp := l.toPipe + ask, l.toTcp + [(u, reply)];
    Exchange(l, fd, u, ask, reply);
    var a := SetLink(w, 0, AtomicLinkStep(l, AcceptEvent(fd, u)), []);
    var b := SetLink(a, 0, AtomicLinkStep(LinkAt(a, 0), Tcp(Data(u, ask), true)), []);
    var c := SetLink(b, 0, AtomicLinkStep(LinkAt(b, 0), PipeData(reply, true)), []);
    SaidNow(c, toPipe, toTcp);
    LinkSay(b, PipeData(reply, true), toPipe, toTcp);
    LinkSay(a, Tcp(Data(u, ask), true), toPipe, toTcp);
    LinkSay(w, AcceptEvent(fd, u), toPipe, toTcp);
  }

  /** The server begins to listen. */
  lemma ListensNow(l: Link)
    requires AtomicLinkInv(l) && l.pipeConnect && l.server == Some(Init(1, 3))
    requires l.client.Some? && l.client.value.fd == 4
    ensures AtomicLinkEnabled(l, Tcp(ListenOk, true))
    ensures var r := AtomicLinkStep(l, Tcp(ListenOk, true));
            Open(r) && Available(r, 6, 1) && r.toPipe == l.toPipe && r.toTcp == l.toTcp
  {
    AtomicLinkStepInv(l, Tcp(ListenOk, true));
    HeldSnoc([], Acquire(3));
    assert [] + [Acquire(3)] == Init(1, 3).fdLog;
  }

  lemma SixIsForeign(w: Service, l: Link)
    requires Good(w) && w.phase.Monitoring? && w.num == 1 && w.inotifyFd == 5 && InUse(w, 0)
    ensures Foreign(SetLink(w, 0, l, []), 0, 6)
  {
    assert forall j: nat :: InUse(SetLink(w, 0, l, []), j) <==> InUse(w, j);
    assert forall j: nat :: InUse(w, j) <==> j < w.num;
  }

  /** For any enabled element and any two chunks there is a run from the very start in
      which a client's chunk reaches the pipe and the pipe's reply reaches the client. */
  lemma TalksFromTheStart(node: Node, cwd: Option<seq<byte>>, ask: seq<byte>, reply: seq<byte>)
    returns (toPipe: seq<byte>, toTcp: seq<(UserId, seq<byte>)>)
    requires node.enable != 0 && CwdOk(cwd) && Chunk(ask) && Chunk(reply)
    ensures CanSay(Unborn(), toPipe + ask, toTcp + [(1, reply)])
  {
    var es := StartsConnected(node, cwd);
    var w := ServiceRun(Unborn(), es);
    var l := LinkAt(w, 0);
    toPipe, toTcp := l.toPipe, l.toTcp;
    GoodLink(w, 0);
    ListensNow(l);
    var r := SetLink(w, 0, AtomicLinkStep(l, Tcp(ListenOk, true)), []);
    SixIsForeign(w, AtomicLinkStep(l, Tcp(ListenOk, true)));
    ExchangeSay(r, 6, 1, ask, reply);
    LinkSay(w, Tcp(ListenOk, true), toPipe + ask, toTcp + [(1, reply)]);
    RunSay(Unborn(), es, toPipe + ask, toTcp + [(1, reply)]);
  }
}
