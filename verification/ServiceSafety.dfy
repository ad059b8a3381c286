/** Safety of the service over every run, from start-up to shut-down. */
module ServiceSafety {
  import opened Ledger
  import opened TcpTable
  import opened TcpUninit
  import opened Proxy
  import opened ProxySafety
  import opened Text
  import opened Service

  // ----- The resource log -----

  lemma TidySnoc(log: seq<Op<Resource>>, op: Op<Resource>)
    ensures Tidy(log + [op]) ==
            match Tidy(log)
            case None => None
            case Some(held) =>
              match op
              case Acquire(x) => if x in held then None else Some(held + {x})
              case Release(x) =>
                if x !in held then None
                else if x.MappingRec? && held * {TcpHandle(x.i), IpcHandle(x.i), DgramHandle} != {} then None
                else Some(held - {x})
  {
    assert (log + [op])[..|log + [op]| - 1] == log;
  }

  /** One thing acquired or given back. */
  lemma LogStep(w: Service, r: Service, op: Op<Resource>)
    requires LogOk(w) && r.log == w.log + [op]
    requires op.Acquire? ==> !Holds(w, op.item)
    requires op.Release? ==> Holds(w, op.item)
    requires op.Release? && op.item.MappingRec? ==>
               !Holds(w, TcpHandle(op.item.i)) && !Holds(w, IpcHandle(op.item.i)) && !w.dgramLive
    requires forall x :: Holds(r, x) <==> if x == op.item then op.Acquire? else Holds(w, x)
    ensures LogOk(r)
  {
    TidySnoc(w.log, op);
    if op.Release? && op.item.MappingRec? {
      var held := Tidy(w.log).value;
      assert DgramHandle in held <==> Holds(w, DgramHandle);
      assert held * {TcpHandle(op.item.i), IpcHandle(op.item.i), DgramHandle} == {};
    }
  }

  lemma LogSame(w: Service, r: Service)
    requires LogOk(w) && r.log == w.log && forall x :: Holds(r, x) <==> Holds(w, x)
    ensures LogOk(r)
  {
  }

  /** What a new link value changes about what is held. */
  lemma SetLinkHolds(w: Service, i: nat, l: Link, ops: seq<Op<Resource>>, x: Resource)
    requires InUse(w, i)
    ensures Holds(SetLink(w, i, l, ops), x) <==>
            if x == TcpHandle(i) then l.server.Some?
            else if x == IpcHandle(i) then l.client.Some?
            else Holds(w, x)
  {
  }

  lemma LogServer(w: Service, i: nat, l: Link)
    requires LogOk(w) && InUse(w, i) && l.client.Some? == LinkAt(w, i).client.Some?
    ensures var was := LinkAt(w, i).server.Some?;
            LogOk(SetLink(w, i, l, if was == l.server.Some? then []
                                   else if was then [Release(TcpHandle(i))]
                                   else [Acquire(TcpHandle(i))]))
  {
    var was := LinkAt(w, i).server.Some?;
    var ops := if was == l.server.Some? then []
               else if was then [Release(TcpHandle(i))] else [Acquire(TcpHandle(i))];
    forall x
      ensures Holds(SetLink(w, i, l, ops), x) <==> if x == TcpHandle(i) then l.server.Some? else Holds(w, x)
    {
      SetLinkHolds(w, i, l, ops, x);
    }
    if was == l.server.Some? {
      assert w.log + [] == w.log;
      LogSame(w, SetLink(w, i, l, ops));
    } else {
      LogStep(w, SetLink(w, i, l, ops), ops[0]);
    }
  }

  lemma LogClient(w: Service, i: nat, l: Link)
    requires LogOk(w) && InUse(w, i) && l.server.Some? == LinkAt(w, i).server.Some?
    ensures var was := LinkAt(w, i).client.Some?;
            LogOk(SetLink(w, i, l, if was == l.client.Some? then []
                                   else if was then [Release(IpcHandle(i))]
                                   else [Acquire(IpcHandle(i))]))
  {
    var was := LinkAt(w, i).client.Some?;
    var ops := if was == l.client.Some? then []
               else if was then [Release(IpcHandle(i))] else [Acquire(IpcHandle(i))];
    forall x
      ensures Holds(SetLink(w, i, l, ops), x) <==> if x == IpcHandle(i) then l.client.Some? else Holds(w, x)
    {
      SetLinkHolds(w, i, l, ops, x);
    }
    if was == l.client.Some? {
      assert w.log + [] == w.log;
      LogSame(w, SetLink(w, i, l, ops));
    } else {
      LogStep(w, SetLink(w, i, l, ops), ops[0]);
    }
  }

  lemma SetLinkTwice(w: Service, i: nat, l: Link, m: Link, a: seq<Op<Resource>>, b: seq<Op<Resource>>)
    requires InUse(w, i)
    ensures SetLink(SetLink(w, i, l, a), i, m, b) == SetLink(w, i, m, a + b)
  {
    assert w.log + a + b == w.log + (a + b);
  }

  // ----- Changing one mapping -----

  lemma LinksUpdate(w: Service, i: nat, l: Link, ops: seq<Op<Resource>>)
    requires LinksOk(w) && InUse(w, i) && AtomicLinkInv(l) && RetiredClean(l)
    ensures LinksOk(SetLink(w, i, l, ops))
  {
    var r := SetLink(w, i, l, ops);
    forall j: nat | InUse(r, j)
      ensures r.table[j].value.index == j && AtomicLinkInv(LinkAt(r, j)) && RetiredClean(LinkAt(r, j))
    {
      assert InUse(w, j);
      assert j != i ==> r.table[j] == w.table[j];
    }
    assert forall j: nat :: InUse(r, j) <==> InUse(w, j);
  }

  /** A mapping that gains only a descriptor foreign to the others stays apart. */
  lemma FdsUpdate(w: Service, i: nat, l: Link, ops: seq<Op<Resource>>, fd: int)
    requires FdsApart(w) && InUse(w, i) && (fd > 0 ==> Foreign(w, i, fd))
    requires LinkFds(l) <= LinkFds(LinkAt(w, i)) + if fd > 0 then {fd} else {}
    ensures FdsApart(SetLink(w, i, l, ops))
  {
    var r := SetLink(w, i, l, ops);
    forall j: nat, k: nat | InUse(r, j) && InUse(r, k) && j != k
      ensures LinkFds(LinkAt(r, j)) !! LinkFds(LinkAt(r, k))
    {
      assert InUse(w, j) && InUse(w, k);
      assert LinkFds(LinkAt(w, j)) !! LinkFds(LinkAt(w, k));
      assert j != i ==> r.table[j] == w.table[j];
      assert k != i ==> r.table[k] == w.table[k];
    }
    forall j: nat | InUse(r, j) && r.inotifyFd > 0
      ensures r.inotifyFd !in LinkFds(LinkAt(r, j))
    {
      assert InUse(w, j);
      assert j != i ==> r.table[j] == w.table[j];
    }
  }

  // ----- The routines on one mapping -----

  lemma ConnectFds(l: Link, o: ConnectOracle)
    ensures LinkFds(ConnectIpc(l, o)) <= LinkFds(l) + if o.socket > 0 then {o.socket} else {}
    ensures ConnectIpc(l, o).client.Some? <==> Opens(o)
    ensures ConnectIpc(l, o).server == l.server && ConnectIpc(l, o).retired == l.retired
  {
  }

  /** The monitor and start-up only connect a mapping that is not connected. */
  lemma ConnectInv(l: Link, o: ConnectOracle)
    requires AtomicLinkInv(l) && !l.pipeConnect
    requires o.socket > 0 ==> o.socket !in ServerFds(l.server)
    ensures AtomicLinkInv(ConnectIpc(l, o))
  {
    AtomicLinkStepInv(l, Reconnect(o));
  }

  lemma ConnectAtLog(w: Service, i: nat, o: ConnectOracle)
    requires LogOk(w) && InUse(w, i)
    ensures LogOk(ConnectAt(w, i, o))
  {
    var l := LinkAt(w, i);
    var gone := l.(client := None);
    ConnectFds(l, o);
    LogClient(w, i, gone);
    var a := if l.client.Some? then [Release(IpcHandle(i))] else [];
    LogClient(SetLink(w, i, gone, a), i, ConnectIpc(l, o));
    SetLinkTwice(w, i, gone, ConnectIpc(l, o), a, if Opens(o) then [Acquire(IpcHandle(i))] else []);
  }

  lemma ConnectAtInv(w: Service, i: nat, o: ConnectOracle)
    requires Consistent(w)
    requires InUse(w, i) && !LinkAt(w, i).pipeConnect && ConnectFresh(w, i, o)
    ensures Consistent(ConnectAt(w, i, o))
  {
    var l := LinkAt(w, i);
    var c := ConnectIpc(l, o);
    ConnectInv(l, o);
    ConnectFds(l, o);
    var ops := (if l.client.Some? then [Release(IpcHandle(i))] else [])
               + if Opens(o) then [Acquire(IpcHandle(i))] else [];
    LinksUpdate(w, i, c, ops);
    FdsUpdate(w, i, c, ops, o.socket);
    ConnectAtLog(w, i, o);
  }

  lemma LaunchAtInv(w: Service, i: nat, o: LaunchOracle)
    requires Consistent(w)
    requires InUse(w, i) && LinkAt(w, i) == Blank
    requires o.socket > 0 ==> Foreign(w, i, o.socket)
    ensures Consistent(LaunchAt(w, i, o))
  {
    var l := LinkAt(w, i);
    var ops := if Launches(o) then [Acquire(TcpHandle(i))] else [];
    LaunchInv(l, o);
    LinksUpdate(w, i, LaunchTcp(l, o), ops);
    FdsUpdate(w, i, LaunchTcp(l, o), ops, o.socket);
    LogServer(w, i, LaunchTcp(l, o));
  }

  lemma AtomicFds(s: Server, e: Event)
    requires Shape(s) && AtomicEnabled(s, e)
    ensures ServerFds(Some(AtomicStep(s, e))) <=
            ServerFds(Some(s)) + if e.AcceptStart? then {e.fd} else {}
  {
    ServerFdsStep(s, e);
  }

  lemma LinkStepFrame(l: Link, e: LinkEvent)
    requires LinkEnabled(l, e) && !e.Reconnect?
    ensures LinkStep(l, e).retired == l.retired
    ensures LinkStep(l, e).client.Some? == l.client.Some?
    ensures ClientFds(LinkStep(l, e).client) <= ClientFds(l.client)
  {
  }

  lemma AtomicLinkFrame(l: Link, e: LinkEvent)
    requires AtomicLinkEnabled(l, e) && !e.Reconnect?
    ensures var r := AtomicLinkStep(l, e);
            && r.retired == l.retired && r.client.Some? == l.client.Some?
            && r.server.Some? == l.server.Some?
            && LinkFds(r) <= LinkFds(l) + if e.Tcp? && e.e.AcceptStart? then {e.e.fd} else {}
  {
    LinkStepFrame(l, e);
    AtomicServerAfter(l, e);
    if e.Tcp? {
      AtomicFds(l.server.value, e.e);
    }
  }

  lemma OnLinkInv(w: Service, i: nat, e: LinkEvent)
    requires Consistent(w)
    requires InUse(w, i) && AtomicLinkEnabled(LinkAt(w, i), e) && !e.Reconnect?
    requires e.Tcp? && e.e.AcceptStart? ==> Foreign(w, i, e.e.fd)
    ensures var r := SetLink(w, i, AtomicLinkStep(LinkAt(w, i), e), []);
            Consistent(r)
  {
    var l := LinkAt(w, i);
    var m := AtomicLinkStep(l, e);
    AtomicLinkStepInv(l, e);
    AtomicLinkFrame(l, e);
    LinksUpdate(w, i, m, []);
    FdsUpdate(w, i, m, [], if e.Tcp? && e.e.AcceptStart? then e.e.fd else -1);
    LogServer(w, i, m);
  }

  /** Disconnecting needs no quiet: the mapping's server may be at work meanwhile. */
  lemma DisconnectAtInv(w: Service, i: nat)
    requires Consistent(w) && InUse(w, i)
    ensures Consistent(DisconnectAt(w, i))
  {
    var l := LinkAt(w, i);
    var ops := if l.client.Some? then [Release(IpcHandle(i))] else [];
    DisconnectClean(l);
    LinksUpdate(w, i, DisconnectIpc(l), ops);
    FdsUpdate(w, i, DisconnectIpc(l), ops, -1);
    LogClient(w, i, DisconnectIpc(l));
  }

  /** Ceasing needs quiet of this mapping's server and of no other. */
  lemma CeaseAtInv(w: Service, i: nat)
    requires Consistent(w) && InUse(w, i) && QuietAt(w, i)
    ensures Consistent(CeaseAt(w, i))
  {
    var l := LinkAt(w, i);
    var ops := if l.server.Some? then [Release(TcpHandle(i))] else [];
    CeaseClean(l);
    LinksUpdate(w, i, CeaseTcp(l), ops);
    FdsUpdate(w, i, CeaseTcp(l), ops, -1);
    LogServer(w, i, CeaseTcp(l));
  }

  /** Setting mapping i leaves those before n down, and puts i among them if it is. */
  lemma DownKept(w: Service, i: nat, l: Link, ops: seq<Op<Resource>>, n: nat)
    requires InUse(w, i) && DownBefore(w, n) && n <= i
    ensures DownBefore(SetLink(w, i, l, ops), n)
    ensures n == i && l.server.None? && l.client.None? ==> DownBefore(SetLink(w, i, l, ops), n + 1)
  {
    var r := SetLink(w, i, l, ops);
    forall j: nat | InUse(r, j)
      ensures InUse(w, j) && (j != i ==> LinkAt(r, j) == LinkAt(w, j))
    {
    }
  }

  lemma FreeAtHolds(w: Service, i: nat, x: Resource)
    requires InUse(w, i) && LinkAt(w, i).server.None? && LinkAt(w, i).client.None?
    ensures Holds(FreeAt(w, i), x) <==> x != MappingRec(i) && Holds(w, x)
  {
  }

  lemma FreeAtLog(w: Service, i: nat)
    requires LogOk(w) && !w.dgramLive && i < |w.table|
    requires InUse(w, i) ==> LinkAt(w, i).server.None? && LinkAt(w, i).client.None?
    ensures LogOk(FreeAt(w, i))
  {
    if InUse(w, i) {
      forall x
        ensures Holds(FreeAt(w, i), x) <==> x != MappingRec(i) && Holds(w, x)
      {
        FreeAtHolds(w, i, x);
      }
      LogStep(w, FreeAt(w, i), Release(MappingRec(i)));
    }
  }

  lemma FreeAtTable(w: Service, i: nat, j: nat)
    requires i < |w.table| && InUse(FreeAt(w, i), j)
    ensures j != i && InUse(w, j) && FreeAt(w, i).table[j] == w.table[j]
  {
  }

  /** Freeing one place. */
  lemma FreeAtOk(w: Service)
    requires FreeingOk(w) && forall s :: s in w.gone ==> CleanlyGone(s)
    ensures var r := FreeAt(w, w.phase.i);
            && LogOk(r)
            && CleanFrom(r, w.phase.i + 1)
            && (forall s :: s in r.gone ==> CleanlyGone(s))
  {
    var i := w.phase.i;
    var r := FreeAt(w, i);
    FreeAtLog(w, i);
    forall j: nat | InUse(r, j)
      ensures i + 1 <= j && CleanlyGone(r.table[j].value)
    {
      FreeAtTable(w, i, j);
    }
    assert InUse(w, i) ==> r.gone == w.gone + [w.table[i].value];
  }

  // ----- Stages -----

  lemma {:induction false} RecOpsHeld(n: nat)
    ensures Tidy(RecOps(n)).Some?
    ensures forall r :: r in Tidy(RecOps(n)).value <==> r.MappingRec? && r.i < n
  {
    if n > 0 {
      RecOpsHeld(n - 1);
      TidySnoc(RecOps(n - 1), Acquire(MappingRec(n - 1)));
    }
  }

  lemma BootTableIs(doc: Document, cwd: Option<seq<byte>>)
    ensures var r := BootTable(Unborn(), doc, cwd);
            && |r.table| == MAX_MAPPING_NUM && r.num <= MAX_MAPPING_NUM && r.log == RecOps(r.num)
            && (forall i: nat :: InUse(r, i) <==> i < r.num)
            && (forall i: nat :: InUse(r, i) ==> r.table[i].value.index == i && LinkAt(r, i) == Blank)
  {
    var r := BootTable(Unborn(), doc, cwd);
    if doc.Nodes? {
      EntriesTakeFirst(doc.nodes, cwd);
    }
    assert r.log == [] + RecOps(r.num) == RecOps(r.num);
  }

  lemma BootLog(r: Service)
    requires r.log == RecOps(r.num) && !r.dgramLive && r.inotifyFd < 0
    requires forall i: nat :: InUse(r, i) <==> i < r.num
    requires forall i: nat :: InUse(r, i) ==> LinkAt(r, i) == Blank
    ensures LogOk(r)
  {
    RecOpsHeld(r.num);
    forall x
      ensures x in Tidy(r.log).value <==> Holds(r, x)
    {
      match x {
        case TcpHandle(i) => assert InUse(r, i) ==> LinkAt(r, i) == Blank;
        case IpcHandle(i) => assert InUse(r, i) ==> LinkAt(r, i) == Blank;
        case MappingRec(i) => assert InUse(r, i) <==> i < r.num;
        case _ =>
      }
    }
  }

  lemma BootInv(doc: Document, cwd: Option<seq<byte>>)
    ensures ServiceInv(BootTable(Unborn(), doc, cwd))
  {
    var r := BootTable(Unborn(), doc, cwd);
    BootTableIs(doc, cwd);
    BootLog(r);
    BlankInv();
  }

  /** Watch descriptors are all that changes. */
  ghost predicate SameLinks(w: Service, r: Service) {
    && |r.table| == |w.table| && r.num == w.num
    && (forall i: nat :: InUse(r, i) <==> InUse(w, i))
    && (forall i: nat :: InUse(w, i) ==>
          LinkAt(r, i) == LinkAt(w, i) && r.table[i].value.index == w.table[i].value.index)
  }

  lemma SameLinksHolds(w: Service, r: Service, x: Resource)
    requires SameLinks(w, r) && (x.MappingRec? || x.TcpHandle? || x.IpcHandle?)
    ensures Holds(r, x) <==> Holds(w, x)
  {
    assert InUse(r, x.i) <==> InUse(w, x.i);
  }

  lemma SameLinksInv(w: Service, r: Service)
    requires SameLinks(w, r) && LinksOk(w) && FdsApart(w)
    requires r.inotifyFd == w.inotifyFd || r.inotifyFd < 0
             || forall i: nat :: InUse(w, i) ==> r.inotifyFd !in LinkFds(LinkAt(w, i))
    ensures LinksOk(r) && FdsApart(r)
  {
    forall i: nat | InUse(r, i)
      ensures r.table[i].value.index == i && AtomicLinkInv(LinkAt(r, i)) && RetiredClean(LinkAt(r, i))
      ensures r.inotifyFd > 0 ==> r.inotifyFd !in LinkFds(LinkAt(r, i))
    {
      assert InUse(w, i);
    }
    forall i: nat, j: nat | InUse(r, i) && InUse(r, j) && i != j
      ensures LinkFds(LinkAt(r, i)) !! LinkFds(LinkAt(r, j))
    {
      assert InUse(w, i) && InUse(w, j);
    }
  }

  lemma SameLinksTrans(a: Service, b: Service, c: Service)
    requires SameLinks(a, b) && SameLinks(b, c)
    ensures SameLinks(a, c)
  {
    assert forall i: nat :: InUse(c, i) <==> InUse(b, i);
    assert forall i: nat :: InUse(b, i) <==> InUse(a, i);
  }

  lemma SetWatchSame(w: Service, i: nat, wd: int)
    requires InUse(w, i)
    ensures SameLinks(w, SetWatch(w, i, wd))
  {
  }

  /** Everything but the watch descriptors. */
  ghost predicate OnlyWatches(w: Service, r: Service) {
    SameLinks(w, r) && r == w.(table := r.table)
  }

  lemma {:induction false} WatchAllSame(w: Service, wds: seq<int>, i: nat)
    requires i <= w.num
    ensures OnlyWatches(w, WatchAll(w, wds, i))
    decreases w.num - i
  {
    if i < w.num {
      var wd := if i < |wds| then wds[i] else -1;
      var m := WatchAt(w, i, wd);
      if InUse(w, i) {
        SetWatchSame(w, i, wd);
      }
      WatchAllSame(m, wds, i + 1);
      SameLinksTrans(w, m, WatchAll(m, wds, i + 1));
    }
  }

  lemma {:induction false} UnwatchAllSame(w: Service, i: nat)
    requires i <= w.num
    ensures OnlyWatches(w, UnwatchAll(w, i))
    decreases w.num - i
  {
    if i < w.num {
      var m := UnwatchAt(w, i);
      if InUse(w, i) {
        SetWatchSame(w, i, -1);
      }
      UnwatchAllSame(m, i + 1);
      SameLinksTrans(w, m, UnwatchAll(m, i + 1));
    }
  }

  /** Every watch that was granted is recorded with its mapping. */
  lemma {:induction false} WatchAllSets(w: Service, wds: seq<int>, i: nat, j: nat)
    requires i <= w.num && InUse(w, j)
    ensures var r := WatchAll(w, wds, i);
            && InUse(r, j)
            && r.table[j].value.wd == if i <= j < w.num && j < |wds| && wds[j] >= 0 then wds[j]
                                      else w.table[j].value.wd
    decreases w.num - i
  {
    if i < w.num {
      var m := WatchAt(w, i, if i < |wds| then wds[i] else -1);
      assert j != i ==> m.table[j] == w.table[j];
      WatchAllSets(m, wds, i + 1, j);
    }
  }

  /** Every watch is withdrawn. */
  lemma {:induction false} UnwatchAllClears(w: Service, i: nat, j: nat)
    requires i <= w.num && InUse(w, j)
    ensures var r := UnwatchAll(w, i);
            && InUse(r, j)
            && (i <= j < w.num ==> r.table[j].value.wd < 0)
            && (j < i ==> r.table[j] == w.table[j])
    decreases w.num - i
  {
    if i < w.num {
      var m := UnwatchAt(w, i);
      assert j != i ==> m.table[j] == w.table[j];
      UnwatchAllClears(m, i + 1, j);
    }
  }

  lemma WatchesLog(w: Service, r: Service)
    requires LogOk(w) && SameLinks(w, r) && r.dgramLive == w.dgramLive
    requires r.log == if (w.inotifyFd >= 0) == (r.inotifyFd >= 0) then w.log
                      else if r.inotifyFd >= 0 then w.log + [Acquire(InotifyFd)]
                      else w.log + [Release(InotifyFd)]
    ensures LogOk(r)
  {
    forall x
      ensures Holds(r, x) <==> if x == InotifyFd then r.inotifyFd >= 0 else Holds(w, x)
    {
      if x.MappingRec? || x.TcpHandle? || x.IpcHandle? {
        SameLinksHolds(w, r, x);
      }
    }
    if (w.inotifyFd >= 0) == (r.inotifyFd >= 0) {
      LogSame(w, r);
    } else {
      LogStep(w, r, if r.inotifyFd >= 0 then Acquire(InotifyFd) else Release(InotifyFd));
    }
  }

  lemma EventInitFrame(w: Service, fd: int, wds: seq<int>)
    ensures var r := EventInit(w, fd, wds);
            && SameLinks(w, r)
            && r == w.(table := r.table, inotifyFd := fd, log := r.log)
            && r.log == if fd >= 0 then w.log + [Acquire(InotifyFd)] else w.log
  {
    var a := w.(inotifyFd := fd, log := if fd >= 0 then w.log + [Acquire(InotifyFd)] else w.log);
    SameTable(w, a);
    if fd >= 0 {
      WatchAllSame(a, wds, 0);
    }
    SameLinksTrans(w, a, EventInit(w, fd, wds));
  }

  lemma EventInitInv(w: Service, fd: int, wds: seq<int>)
    requires Consistent(w) && w.inotifyFd < 0
    requires forall i: nat :: InUse(w, i) ==> fd !in LinkFds(LinkAt(w, i))
    ensures var r := EventInit(w, fd, wds);
            && Consistent(r) && SameLinks(w, r)
            && r.inotifyFd == fd
            && r.dgram == w.dgram && r.dgramLive == w.dgramLive && r.gone == w.gone
  {
    EventInitFrame(w, fd, wds);
    SameLinksInv(w, EventInit(w, fd, wds));
    WatchesLog(w, EventInit(w, fd, wds));
  }

  lemma SameTable(w: Service, r: Service)
    requires r.table == w.table && r.num == w.num
    ensures SameLinks(w, r)
  {
  }

  lemma EventUninitFrame(w: Service)
    ensures var r := EventUninit(w);
            && SameLinks(w, r) && r.inotifyFd < 0
            && r == w.(table := r.table, inotifyFd := r.inotifyFd, log := r.log)
            && r.log == if w.inotifyFd >= 0 then w.log + [Release(InotifyFd)] else w.log
  {
    var r := EventUninit(w);
    var u := UnwatchAll(w, 0);
    UnwatchAllSame(w, 0);
    SameTable(u, r);
    SameLinksTrans(w, u, r);
  }

  lemma EventUninitInv(w: Service)
    requires Consistent(w)
    ensures var r := EventUninit(w);
            && Consistent(r) && SameLinks(w, r) && r.inotifyFd < 0
            && r.dgram == w.dgram && r.dgramLive == w.dgramLive && r.gone == w.gone
            && r.phase == w.phase
  {
    EventUninitFrame(w);
    SameLinksInv(w, EventUninit(w));
    WatchesLog(w, EventUninit(w));
  }

  lemma QuietKept(w: Service, r: Service)
    requires AllQuiet(w) && SameLinks(w, r)
    ensures AllQuiet(r)
  {
    forall i: nat | InUse(r, i) && LinkAt(r, i).server.Some?
      ensures Quiet(LinkAt(r, i).server.value)
    {
      assert InUse(w, i);
    }
  }

  lemma DispatchInv(w: Service, name: seq<byte>, o: ConnectOracle)
    requires Consistent(w) && DispatchFresh(w, name, o)
    ensures var r := Dispatch(w, name, o);
            Consistent(r) && r == w.(table := r.table, log := r.log)
  {
    var i := FirstWaiting(w.table, name, 0);
    if i < |w.table| {
      assert InUse(w, i);
      ConnectAtInv(w, i, o);
    }
  }

  /** A buffer handled without interruption is a run of single records. */
  lemma {:induction false} DispatchAllIsRun(w: Service, names: seq<seq<byte>>, os: seq<ConnectOracle>)
    requires w.phase.Monitoring? && |names| == |os| && DispatchAllFresh(w, names, os)
    ensures ServicePossible(w, RecordSteps(names, os))
    ensures ServiceRun(w, RecordSteps(names, os)) == DispatchAll(w, names, os)
    decreases |names|
  {
    if names != [] {
      DispatchAllIsRun(Dispatch(w, names[0], os[0]), names[1..], os[1..]);
      assert RecordSteps(names, os)[1..] == RecordSteps(names[1..], os[1..]);
    }
  }

  lemma PhaseInv(w: Service, r: Service)
    requires Consistent(w) && r == w.(phase := r.phase)
    ensures Consistent(r)
  {
    assert SameLinks(w, r);
    SameLinksInv(w, r);
    assert forall x :: Holds(r, x) <==> Holds(w, x);
  }

  /** Setting mapping i leaves those from i + 1 on untouched. */
  lemma UntouchedRest(w: Service, i: nat, l: Link, ops: seq<Op<Resource>>, from: nat)
    requires InUse(w, i) && i < from && Untouched(w, from)
    ensures Untouched(SetLink(w, i, l, ops), from)
  {
    var r := SetLink(w, i, l, ops);
    forall j: nat | InUse(r, j) && from <= j
      ensures LinkAt(r, j) == Blank
    {
      assert InUse(w, j);
    }
  }

  /** What one step of a running service keeps. */
  ghost predicate StepKeeps(w: Service, r: Service) {
    && r.gone == w.gone && !r.phase.Done?
    && if r.phase.Freeing? then FreeingOk(r) else ServiceInv(r)
  }

  lemma BootStep(w: Service, doc: Document, cwd: Option<seq<byte>>)
    requires ServiceInv(w) && ServiceEnabled(w, Boot(doc, cwd))
    ensures StepKeeps(w, ServiceStep(w, Boot(doc, cwd)))
  {
    BootInv(doc, cwd);
  }

  lemma UntouchedAnyPhase(w: Service, p: Phase, from: nat)
    requires Untouched(w, from)
    ensures Untouched(w.(phase := p), from)
  {
    var r := w.(phase := p);
    forall j: nat | InUse(r, j) && from <= j
      ensures LinkAt(r, j) == Blank
    {
      assert InUse(w, j);
    }
  }

  lemma LaunchStage(w: Service, o: LaunchOracle)
    requires StageOk(w) && ServiceEnabled(w, Launch(o))
    ensures StageOk(ServiceStep(w, Launch(o)))
  {
    var i := w.phase.i;
    UntouchedRest(w, i, LaunchTcp(LinkAt(w, i), o), if Launches(o) then [Acquire(TcpHandle(i))] else [], i + 1);
    UntouchedAnyPhase(LaunchAt(w, i, o), ServiceStep(w, Launch(o)).phase, i + 1);
  }

  lemma LaunchStep(w: Service, o: LaunchOracle)
    requires ServiceInv(w) && ServiceEnabled(w, Launch(o))
    ensures StepKeeps(w, ServiceStep(w, Launch(o)))
  {
    LaunchAtInv(w, w.phase.i, o);
    LaunchStage(w, o);
    PhaseInv(LaunchAt(w, w.phase.i, o), ServiceStep(w, Launch(o)));
  }

  lemma ConnectStage(w: Service, o: ConnectOracle)
    requires StageOk(w) && ServiceEnabled(w, Connect(o))
    ensures StageOk(ServiceStep(w, Connect(o)))
  {
    var i := w.phase.i;
    UntouchedRest(w, i, ConnectIpc(LinkAt(w, i), o),
                  (if LinkAt(w, i).client.Some? then [Release(IpcHandle(i))] else [])
                  + if Opens(o) then [Acquire(IpcHandle(i))] else [], i + 1);
    UntouchedAnyPhase(ConnectAt(w, i, o), ServiceStep(w, Connect(o)).phase, i + 1);
  }

  /** Start-up connects a mapping that has no client yet. */
  lemma ConnectClear(w: Service)
    requires ServiceInv(w) && w.phase.Connecting? && InUse(w, w.phase.i)
    ensures !LinkAt(w, w.phase.i).pipeConnect
  {
  }

  lemma ConnectStep(w: Service, o: ConnectOracle)
    requires ServiceInv(w) && ServiceEnabled(w, Connect(o))
    ensures StepKeeps(w, ServiceStep(w, Connect(o)))
  {
    ConnectClear(w);
    ConnectAtInv(w, w.phase.i, o);
    ConnectStage(w, o);
    PhaseInv(ConnectAt(w, w.phase.i, o), ServiceStep(w, Connect(o)));
  }

  lemma WatchStage(w: Service, fd: int, wds: seq<int>)
    requires StageOk(w) && ServiceEnabled(w, Watch(fd, wds))
    ensures StageOk(ServiceStep(w, Watch(fd, wds)))
  {
    EventInitFrame(w, fd, wds);
  }

  lemma WatchStep(w: Service, fd: int, wds: seq<int>)
    requires ServiceInv(w) && ServiceEnabled(w, Watch(fd, wds))
    ensures StepKeeps(w, ServiceStep(w, Watch(fd, wds)))
  {
    EventInitInv(w, fd, wds);
    WatchStage(w, fd, wds);
    PhaseInv(EventInit(w, fd, wds), ServiceStep(w, Watch(fd, wds)));
  }

  lemma BindStage(w: Service, ok: bool)
    requires StageOk(w) && ServiceEnabled(w, BindDgram(ok))
    ensures StageOk(ServiceStep(w, BindDgram(ok)))
    ensures !ok ==> ServiceStep(w, BindDgram(ok)) == w.(phase := Unwatching(false))
  {
  }

  lemma DgramUpInv(w: Service, r: Service)
    requires Consistent(w) && !w.dgramLive
    requires r == w.(dgram := true, dgramLive := true, log := w.log + [Acquire(DgramHandle)], phase := r.phase)
    ensures Consistent(r)
  {
    SameTable(w, r);
    SameLinksInv(w, r);
    assert forall x :: Holds(r, x) <==> x == DgramHandle || Holds(w, x);
    LogStep(w, r, Acquire(DgramHandle));
  }

  lemma BindStep(w: Service, ok: bool)
    requires ServiceInv(w) && ServiceEnabled(w, BindDgram(ok))
    ensures StepKeeps(w, ServiceStep(w, BindDgram(ok)))
  {
    BindStage(w, ok);
    if ok {
      DgramUpInv(w, ServiceStep(w, BindDgram(ok)));
    } else {
      PhaseInv(w, ServiceStep(w, BindDgram(ok)));
    }
  }

  /** Monitoring goes on with other links and another log. */
  lemma MonitoringStage(w: Service, r: Service)
    requires StageOk(w) && w.phase.Monitoring? && r == w.(table := r.table, inotifyFd := r.inotifyFd, log := r.log)
    ensures StageOk(r)
  {
  }

  lemma RecordStep(w: Service, name: seq<byte>, o: ConnectOracle)
    requires ServiceInv(w) && ServiceEnabled(w, PipeCreated(name, o))
    ensures StepKeeps(w, ServiceStep(w, PipeCreated(name, o)))
  {
    DispatchInv(w, name, o);
    MonitoringStage(w, ServiceStep(w, PipeCreated(name, o)));
  }

  lemma ExitStep(w: Service)
    requires ServiceInv(w) && ServiceEnabled(w, ExitCommand)
    ensures StepKeeps(w, ServiceStep(w, ExitCommand))
  {
    EventUninitInv(w);
    EventUninitFrame(w);
    MonitoringStage(w, EventUninit(w));
  }

  // ----- Shut-down, step by step -----

  lemma DgramDownInv(w: Service)
    requires Consistent(w) && (w.dgram ==> w.dgramLive)
    ensures Consistent(DgramDown(w))
    ensures SameLinks(w, DgramDown(w))
  {
    var a := DgramDown(w);
    SameTable(w, a);
    SameLinksInv(w, a);
    if w.dgram {
      assert forall x :: Holds(a, x) <==> x != DgramHandle && Holds(w, x);
      LogStep(w, a, Release(DgramHandle));
    }
  }

  /** The rounds of proxy_uninit are over: everything is ready to be freed. */
  lemma ReadyToFree(w: Service)
    requires LinksOk(w) && LogOk(w) && DownBefore(w, w.num) && !w.dgramLive && w.inotifyFd < 0
    ensures FreeingOk(w.(phase := Phase.Freeing(0)))
  {
    var r := w.(phase := Phase.Freeing(0));
    assert forall x :: Holds(r, x) <==> Holds(w, x);
    forall j: nat | InUse(r, j)
      ensures CleanlyGone(r.table[j].value)
    {
      assert InUse(w, j) && j < w.num;
    }
  }

  lemma CloseDgramStage(w: Service)
    requires StageOk(w) && ServiceEnabled(w, CloseDgram)
    ensures StageOk(ServiceStep(w, CloseDgram)) && (w.dgram ==> w.dgramLive)
  {
  }

  lemma CloseDgramStep(w: Service)
    requires ServiceInv(w) && ServiceEnabled(w, CloseDgram)
    ensures StepKeeps(w, ServiceStep(w, CloseDgram))
  {
    CloseDgramStage(w);
    DgramDownInv(w);
    PhaseInv(DgramDown(w), ServiceStep(w, CloseDgram));
  }

  lemma CloseMonitorStage(w: Service)
    requires StageOk(w) && ServiceEnabled(w, CloseMonitor)
    ensures var r := ServiceStep(w, CloseMonitor);
            if r.phase.Freeing? then r == EventUninit(w).(phase := Phase.Freeing(0)) && r.num == 0 && !r.dgramLive
            else StageOk(r)
  {
    EventUninitFrame(w);
  }

  lemma CloseMonitorStep(w: Service)
    requires ServiceInv(w) && ServiceEnabled(w, CloseMonitor)
    ensures StepKeeps(w, ServiceStep(w, CloseMonitor))
  {
    EventUninitInv(w);
    CloseMonitorStage(w);
    var m := EventUninit(w);
    var r := ServiceStep(w, CloseMonitor);
    if r.phase.Freeing? {
      ReadyToFree(m);
    } else {
      PhaseInv(m, r);
    }
  }

  lemma CloseIpcStage(w: Service)
    requires StageOk(w) && ServiceEnabled(w, CloseIpc)
    ensures StageOk(ServiceStep(w, CloseIpc))
  {
    var i := w.phase.i;
    DownKept(w, i, DisconnectIpc(LinkAt(w, i)), if LinkAt(w, i).client.Some? then [Release(IpcHandle(i))] else [], i);
    assert DownBefore(DisconnectAt(w, i), i);
    DownAnyPhase(DisconnectAt(w, i), Ceasing(i, w.phase.last), i);
  }

  lemma DownAnyPhase(w: Service, p: Phase, n: nat)
    requires DownBefore(w, n)
    ensures DownBefore(w.(phase := p), n)
  {
    var r := w.(phase := p);
    forall j: nat | InUse(r, j) && j < n
      ensures LinkAt(r, j).server.None? && LinkAt(r, j).client.None?
    {
      assert InUse(w, j);
    }
  }

  lemma CloseIpcStep(w: Service)
    requires ServiceInv(w) && ServiceEnabled(w, CloseIpc)
    ensures StepKeeps(w, ServiceStep(w, CloseIpc))
  {
    DisconnectAtInv(w, w.phase.i);
    CloseIpcStage(w);
    PhaseInv(DisconnectAt(w, w.phase.i), ServiceStep(w, CloseIpc));
  }

  lemma CeaseDown(w: Service)
    requires StageOk(w) && ServiceEnabled(w, CloseTcp)
    ensures DownBefore(CeaseAt(w, w.phase.i), w.phase.i + 1)
  {
    var i := w.phase.i;
    DownKept(w, i, CeaseTcp(LinkAt(w, i)), if LinkAt(w, i).server.Some? then [Release(TcpHandle(i))] else [], i);
  }

  lemma CloseTcpStage(w: Service)
    requires StageOk(w) && ServiceEnabled(w, CloseTcp)
    ensures var m, r := CeaseAt(w, w.phase.i), ServiceStep(w, CloseTcp);
            && DownBefore(m, w.phase.i + 1) && m.inotifyFd < 0 && !m.dgramLive && m.num == w.num
            && (if r.phase.Freeing? then w.phase.i + 1 == w.num && r == m.(phase := Phase.Freeing(0)) else StageOk(r))
  {
    CeaseDown(w);
    DownAnyPhase(CeaseAt(w, w.phase.i), ServiceStep(w, CloseTcp).phase, w.phase.i + 1);
  }

  lemma CloseTcpStep(w: Service)
    requires ServiceInv(w) && ServiceEnabled(w, CloseTcp)
    ensures StepKeeps(w, ServiceStep(w, CloseTcp))
  {
    CeaseAtInv(w, w.phase.i);
    CloseTcpStage(w);
    var m, r := CeaseAt(w, w.phase.i), ServiceStep(w, CloseTcp);
    if r.phase.Freeing? {
      ReadyToFree(m);
    } else {
      PhaseInv(m, r);
    }
  }

  /** What is left to free: at n or later, each clean. */
  ghost predicate CleanFrom(w: Service, n: nat) {
    forall j: nat :: InUse(w, j) ==> n <= j && CleanlyGone(w.table[j].value)
  }

  lemma SameTableClean(m: Service, r: Service, n: nat)
    requires CleanFrom(m, n) && r.table == m.table
    ensures CleanFrom(r, n)
  {
    forall j: nat | InUse(r, j)
      ensures n <= j && CleanlyGone(r.table[j].value)
    {
      assert InUse(m, j);
    }
  }

  /** With no mapping, no control socket and no monitor nothing is held. */
  lemma NothingHeld(m: Service)
    requires LogOk(m) && !m.dgramLive && m.inotifyFd < 0 && forall j: nat :: !InUse(m, j)
    ensures Tidy(m.log) == Some({})
  {
    assert forall x :: !Holds(m, x);
    assert Tidy(m.log).value == {};
  }

  lemma SameHolds(m: Service, r: Service)
    requires LogOk(m) && r == m.(num := r.num, phase := r.phase)
    ensures LogOk(r)
  {
    assert forall x :: Holds(r, x) <==> Holds(m, x);
    LogSame(m, r);
  }

  lemma FreeingStep(w: Service)
    requires FreeingOk(w) && forall s :: s in w.gone ==> CleanlyGone(s)
    ensures var r := ServiceStep(w, FreeMapping);
            && (if r.phase.Done? then Finished(r) else FreeingOk(r))
            && forall s :: s in r.gone ==> CleanlyGone(s)
  {
    FreeAtOk(w);
    var m, r := FreeAt(w, w.phase.i), ServiceStep(w, FreeMapping);
    assert CleanFrom(m, w.phase.i + 1);
    SameTableClean(m, r, w.phase.i + 1);
    SameHolds(m, r);
    if r.phase.Done? {
      NothingHeld(r);
    }
  }

  // ----- Runs -----

  /** Good while running and while freeing; finished once done. */
  ghost predicate Good(w: Service) {
    && (forall s :: s in w.gone ==> CleanlyGone(s))
    && if w.phase.Done? then Finished(w) else if w.phase.Freeing? then FreeingOk(w) else ServiceInv(w)
  }

  lemma OnLinkUntouched(w: Service, i: nat, e: LinkEvent, from: nat)
    requires InUse(w, i) && AtomicLinkEnabled(LinkAt(w, i), e) && !e.Reconnect? && Untouched(w, from)
    ensures i < from && Untouched(SetLink(w, i, AtomicLinkStep(LinkAt(w, i), e), []), from)
  {
    UntouchedRest(w, i, AtomicLinkStep(LinkAt(w, i), e), [], from);
  }

  /** A mapping already down has no step left to take. */
  lemma OnLinkAlive(w: Service, i: nat, e: LinkEvent, n: nat)
    requires InUse(w, i) && AtomicLinkEnabled(LinkAt(w, i), e) && !e.Reconnect? && DownBefore(w, n)
    ensures n <= i && DownBefore(SetLink(w, i, AtomicLinkStep(LinkAt(w, i), e), []), n)
  {
    if i < n {
      LinkDead(LinkAt(w, i), e);
      assert false;
    }
    DownKept(w, i, AtomicLinkStep(LinkAt(w, i), e), [], n);
  }

  lemma OnLinkStage(w: Service, i: nat, e: LinkEvent)
    requires StageOk(w) && ServiceEnabled(w, OnLink(i, e))
    ensures StageOk(ServiceStep(w, OnLink(i, e)))
  {
    AtomicLinkFrame(LinkAt(w, i), e);
    if w.phase.Launching? {
      OnLinkUntouched(w, i, e, w.phase.i);
    } else if w.phase.Connecting? {
      OnLinkUntouched(w, i, e, w.phase.i + 1);
    } else if w.phase.Disconnecting? || w.phase.Ceasing? {
      OnLinkAlive(w, i, e, w.phase.i);
    }
  }

  lemma OnLinkStep(w: Service, i: nat, e: LinkEvent)
    requires ServiceInv(w) && ServiceEnabled(w, OnLink(i, e)) && !w.phase.Freeing?
    ensures StepKeeps(w, ServiceStep(w, OnLink(i, e)))
  {
    OnLinkInv(w, i, e);
    OnLinkStage(w, i, e);
  }

  lemma NoLinkWhileFreeing(w: Service, i: nat, e: LinkEvent)
    requires FreeingOk(w)
    ensures !ServiceEnabled(w, OnLink(i, e))
  {
    if InUse(w, i) && !e.Reconnect? {
      LinkDead(LinkAt(w, i), e);
    }
  }

  lemma RunningStep(w: Service, e: ServiceEvent)
    requires ServiceInv(w) && ServiceEnabled(w, e) && !w.phase.Freeing?
    ensures StepKeeps(w, ServiceStep(w, e))
  {
    match e {
      case Boot(doc, cwd) => BootStep(w, doc, cwd);
      case Launch(o) => LaunchStep(w, o);
      case Connect(o) => ConnectStep(w, o);
      case Watch(fd, wds) => WatchStep(w, fd, wds);
      case BindDgram(ok) => BindStep(w, ok);
      case OnLink(i, le) => OnLinkStep(w, i, le);
      case PipeCreated(name, o) => RecordStep(w, name, o);
      case ExitCommand => ExitStep(w);
      case CloseDgram => CloseDgramStep(w);
      case CloseMonitor => CloseMonitorStep(w);
      case CloseIpc => CloseIpcStep(w);
      case CloseTcp => CloseTcpStep(w);
    }
  }

  lemma ServiceStepGood(w: Service, e: ServiceEvent)
    requires Good(w) && ServiceEnabled(w, e)
    ensures Good(ServiceStep(w, e))
  {
    if w.phase.Freeing? {
      if e.OnLink? {
        NoLinkWhileFreeing(w, e.i, e.e);
      } else {
        FreeingStep(w);
      }
    } else {
      RunningStep(w, e);
    }
  }

  lemma UnbornGood()
    ensures Good(Unborn())
  {
    var w := Unborn();
    assert forall i: nat :: !InUse(w, i);
    assert forall x :: !Holds(w, x);
  }

  // ----- Quiet is needed -----

  /** Good at every state of the run. */
  ghost predicate AlwaysGood(w: Service, es: seq<ServiceEvent>)
    requires OfferedPossible(w, es)
    decreases |es|
  {
    Good(w) && (es != [] ==> AlwaysGood(ServiceStep(w, es[0]), es[1..]))
  }

  lemma CeaseDangles(l: Link)
    requires AtomicLinkInv(l) && l.server.Some? && !Quiet(l.server.value)
    ensures !RetiredClean(CeaseTcp(l))
  {
    UninitExact(l.server.value);
  }

  lemma GoodRetired(w: Service, i: nat)
    requires Good(w) && InUse(w, i)
    ensures RetiredClean(LinkAt(w, i))
  {
  }

  lemma HastyCease(w: Service)
    requires ServiceInv(w) && Offered(w, CloseTcp) && !QuietAt(w, w.phase.i)
    ensures !Good(ServiceStep(w, CloseTcp))
  {
    var i := w.phase.i;
    GoodLink(w, i);
    CeaseDangles(LinkAt(w, i));
    var r := ServiceStep(w, CloseTcp);
    assert InUse(r, i) && !RetiredClean(LinkAt(r, i));
    if Good(r) {
      GoodRetired(r, i);
    }
  }

  /** A run in which servers are ceased at any time stays good throughout exactly
      when each was quiet when it was ceased. */
  lemma {:induction false} OfferedRunExact(w: Service, es: seq<ServiceEvent>)
    requires Good(w) && OfferedPossible(w, es)
    ensures AlwaysGood(w, es) <==> ServicePossible(w, es)
    decreases |es|
  {
    if es != [] {
      if ServiceEnabled(w, es[0]) {
        ServiceStepGood(w, es[0]);
        OfferedRunExact(ServiceStep(w, es[0]), es[1..]);
      } else {
        HastyCease(w);
        assert !AlwaysGood(ServiceStep(w, es[0]), es[1..]);
      }
    }
  }

  /** Every run, with start-up failing at any point or not, with any interleaving of
      link steps, event records, the exit command and the rounds that take the
      mappings down: while it lasts the invariant holds, and once it is done every handle, descriptor and mapping has
      been given back exactly once, no mapping before those that could call back
      with it. */
  lemma {:induction false} ServiceRunGood(w: Service, es: seq<ServiceEvent>)
    requires Good(w) && ServicePossible(w, es)
    ensures Good(ServiceRun(w, es))
    decreases |es|
  {
    if es != [] {
      ServiceStepGood(w, es[0]);
      ServiceRunGood(ServiceStep(w, es[0]), es[1..]);
    }
  }

  /** The log of a finished run, by counting. */
  lemma {:induction false} TidyCounts(log: seq<Op<Resource>>, x: Resource)
    requires Tidy(log).Some?
    ensures Balanced(log, x, x in Tidy(log).value)
  {
    if log != [] {
      var init, op := log[..|log| - 1], log[|log| - 1];
      assert log == init + [op];
      TidyCounts(init, x);
      BalancedSnoc(init, op, x, x in Tidy(init).value);
    }
  }

  lemma EachGivenBackOnce(es: seq<ServiceEvent>, x: Resource)
    requires ServicePossible(Unborn(), es) && ServiceRun(Unborn(), es).phase.Done?
    ensures var log := ServiceRun(Unborn(), es).log;
            multiset(log)[Acquire(x)] == multiset(log)[Release(x)]
  {
    UnbornGood();
    ServiceRunGood(Unborn(), es);
    TidyCounts(ServiceRun(Unborn(), es).log, x);
  }

  /** What every reachable state says of each mapping until it is freed: the stored
      user is allocated and in the one slot, pipeConnect tells the truth, what was sent
      on in each direction is the chunks whose send succeeded, whole and in order, and
      each user's socket got only chunks that came while it was the one connected. */
  lemma MappingFacts(es: seq<ServiceEvent>, i: nat)
    requires ServicePossible(Unborn(), es)
    requires InUse(ServiceRun(Unborn(), es), i)
    ensures var l := LinkAt(ServiceRun(Unborn(), es), i);
            && (l.tcpConnect <==> l.pTcpUser != NULL)
            && (l.pTcpUser != NULL ==> l.server.Some? && l.pTcpUser in l.server.value.heap
                                       && Shape(l.server.value) && l.server.value.slots[0] == l.pTcpUser)
            && (l.pipeConnect <==> Receiver(l))
            && |l.tcpResults| == |TcpChunks(l)| && |l.pipeIn| == |l.pipeUsers| == |l.pipeResults|
            && l.toPipe == Delivered(TcpChunks(l), l.tcpResults)
            && (forall u :: BytesTo(l.toTcp, u, false) ==
                            Delivered(l.pipeIn, ResultsTo(l.pipeUsers, l.pipeResults, u)))
            && BytesTo(l.toTcp, NULL, true) == Delivered(l.pipeIn, l.pipeResults)
            && RoutedOk(l)
            && ZeroSize !in l.tcpResults && ZeroSize !in l.pipeResults
  {
    UnbornGood();
    ServiceRunGood(Unborn(), es);
    GoodLink(ServiceRun(Unborn(), es), i);
    LinkFacts(LinkAt(ServiceRun(Unborn(), es), i));
  }

  lemma GoodLink(w: Service, i: nat)
    requires (Good(w) || ServiceInv(w)) && InUse(w, i)
    ensures AtomicLinkInv(LinkAt(w, i))
  {
  }

  // ----- Calls that do not happen -----

  /** proxy_connectIpc is only ever called on a mapping whose pipeConnect is clear. */
  lemma ConnectsOnlyWhenClear(w: Service, e: ServiceEvent)
    requires ServiceInv(w) && ServiceEnabled(w, e)
    ensures e.Connect? ==> !LinkAt(w, w.phase.i).pipeConnect
    ensures e.PipeCreated? ==>
              var i := FirstWaiting(w.table, e.name, 0);
              i < |w.table| ==> !LinkAt(w, i).pipeConnect
    ensures e.OnLink? ==> !e.e.Reconnect?
  {
    if e.Connect? {
      ConnectClear(w);
    }
  }

  /** serv_uninit runs once: afterwards nothing happens any more. */
  lemma NothingAfterDone(w: Service, e: ServiceEvent)
    requires w.phase.Done?
    ensures !ServiceEnabled(w, e)
  {
  }

  // ----- Nothing crosses between mappings -----

  /** The client sockets of two mappings are bound to different files. */
  lemma ClientFilesApart(w: Service, i: nat, j: nat, base: seq<byte>)
    requires LinksOk(w) && InUse(w, i) && InUse(w, j) && i != j
    ensures ClientPath(base, w.table[i].value.index) != ClientPath(base, w.table[j].value.index)
  {
    ClientPathsDistinct(base, i, j);
  }

  /** Both descriptors a mapping sends on are its own. */
  lemma SendFds(l: Link)
    ensures l.client.Some? && l.client.value.fd > 0 ==> l.client.value.fd in LinkFds(l)
    ensures l.server.Some? && FdOf(l.server.value, l.pTcpUser) > 0 ==>
              FdOf(l.server.value, l.pTcpUser) in LinkFds(l)
  {
  }

  lemma OthersUnchanged(w: Service, i: nat, j: nat, e: LinkEvent)
    requires InUse(w, j) && i != j && ServiceEnabled(w, OnLink(i, e))
    ensures ServiceStep(w, OnLink(i, e)).table[j] == w.table[j]
  {
  }

  /** What a mapping sends goes out on a descriptor no other mapping has open, and
      a step of one mapping changes no other. */
  lemma NothingCrosses(w: Service, i: nat, j: nat, e: LinkEvent)
    requires ServiceInv(w) && InUse(w, i) && InUse(w, j) && i != j
    requires ServiceEnabled(w, OnLink(i, e))
    ensures ServiceStep(w, OnLink(i, e)).table[j] == w.table[j]
    ensures var l := LinkAt(w, i);
            && (l.client.Some? && l.client.value.fd > 0 ==> l.client.value.fd !in LinkFds(LinkAt(w, j)))
            && (l.pTcpUser != NULL ==>
                  && l.server.Some?
                  && (FdOf(l.server.value, l.pTcpUser) > 0 ==>
                        FdOf(l.server.value, l.pTcpUser) !in LinkFds(LinkAt(w, j))))
  {
    OthersUnchanged(w, i, j, e);
    GoodLink(w, i);
    LinkFacts(LinkAt(w, i));
    SendFds(LinkAt(w, i));
    assert LinkFds(LinkAt(w, i)) !! LinkFds(LinkAt(w, j));
  }

  // ----- Running serv_uninit again -----

  lemma NothingToFree(w: Service, i: nat)
    requires i <= |w.table| && forall j: nat :: !InUse(w, j)
    ensures FreeAll(w, i) == w
    decreases |w.table| - i
  {
    if i < |w.table| {
      assert !InUse(w, i);
      NothingToFree(w, i + 1);
    }
  }

  /** serv_uninit does not clear the datagram handle: calling it again after it has
      finished is harmless exactly when start-up had not set the handle. */
  lemma UninitAgainExact(w: Service)
    requires Finished(w) && w.phase.Done? && w.inotifyFd < 0
    ensures Tidy(ServUninit(w).log) == Some({}) <==> !w.dgram
  {
    var a := if w.dgram then w.(dgramLive := false, log := w.log + [Release(DgramHandle)]) else w;
    TidySnoc(w.log, Release(DgramHandle));
    var b := EventUninit(a);
    assert b.table == w.table;
    forall j: nat
      ensures !InUse(b, j)
    {
      assert !InUse(w, j);
    }
    NothingToFree(b, 0);
  }
}
