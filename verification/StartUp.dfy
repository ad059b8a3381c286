/** An uninterrupted start-up, which may fail anywhere, followed by shut-down. */
module StartUp {
  import opened Ledger
  import opened Proxy
  import opened Text
  import opened Service
  import opened ServiceSafety
  import opened TakeDown

  // ----- The descriptors handed out during start-up are not open -----

  ghost predicate LaunchFresh(w: Service, i: nat, o: LaunchOracle)
    requires InUse(w, i)
  {
    o.socket > 0 ==> Foreign(w, i, o.socket) && o.socket !in LinkFds(LinkAt(w, i))
  }

  ghost predicate ProxyFresh(w: Service, i: nat, launches: seq<LaunchOracle>, connects: seq<ConnectOracle>)
    requires i <= w.num <= |launches| && w.num <= |connects|
    decreases w.num - i
  {
    i < w.num && InUse(w, i) ==>
      && LaunchFresh(w, i, launches[i])
      && (Launches(launches[i]) ==>
            var a := LaunchAt(w, i, launches[i]);
            && ConnectFresh(a, i, connects[i])
            && (Opens(connects[i]) ==> ProxyFresh(ConnectAt(a, i, connects[i]), i + 1, launches, connects)))
  }

  ghost predicate WatchFresh(w: Service, fd: int) {
    forall i: nat :: InUse(w, i) ==> fd !in LinkFds(LinkAt(w, i))
  }

  ghost predicate InitFresh(o: InitOracle)
    requires InitOracleOk(o)
  {
    var a := BootTable(Unborn(), o.doc, o.cwd);
    a.num <= MAX_MAPPING_NUM ==>
      && ProxyFresh(a, 0, o.launches, o.connects)
      && WatchFresh(ProxyInit(a, 0, o.launches, o.connects).0, o.fd)
  }

  // ----- No client has come yet -----

  lemma LaunchQuiet(w: Service, i: nat, o: LaunchOracle)
    requires AllQuiet(w) && InUse(w, i)
    ensures AllQuiet(LaunchAt(w, i, o))
  {
    QuietUpdate(w, i, LaunchTcp(LinkAt(w, i), o), if Launches(o) then [Acquire(TcpHandle(i))] else []);
  }

  lemma ConnectQuiet(w: Service, i: nat, o: ConnectOracle)
    requires AllQuiet(w) && InUse(w, i)
    ensures AllQuiet(ConnectAt(w, i, o))
  {
    QuietUpdate(w, i, ConnectIpc(LinkAt(w, i), o),
                (if LinkAt(w, i).client.Some? then [Release(IpcHandle(i))] else [])
                + if Opens(o) then [Acquire(IpcHandle(i))] else []);
  }

  lemma {:induction false} ProxyInitQuiet(w: Service, i: nat, launches: seq<LaunchOracle>,
                                          connects: seq<ConnectOracle>)
    requires i <= w.num <= |launches| && w.num <= |connects| && AllQuiet(w)
    ensures AllQuiet(ProxyInit(w, i, launches, connects).0)
    decreases w.num - i
  {
    if i < w.num && !InUse(w, i) {
      ProxyInitQuiet(w, i + 1, launches, connects);
    } else if i < w.num {
      LaunchQuiet(w, i, launches[i]);
      var a := LaunchAt(w, i, launches[i]);
      ConnectQuiet(a, i, connects[i]);
      if Launches(launches[i]) && Opens(connects[i]) {
        ProxyInitQuiet(ConnectAt(a, i, connects[i]), i + 1, launches, connects);
      }
    }
  }

  lemma {:induction false} ProxyInitTabled(w: Service, i: nat, launches: seq<LaunchOracle>,
                                           connects: seq<ConnectOracle>)
    requires Tabled(w) && i <= w.num <= |launches| && w.num <= |connects|
    ensures var r := ProxyInit(w, i, launches, connects).0;
            Tabled(r) && r.num == w.num
    decreases w.num - i
  {
    if i < w.num {
      assert InUse(w, i);
      var a := LaunchAt(w, i, launches[i]);
      assert forall j: nat :: InUse(a, j) <==> InUse(w, j);
      RoundTabled(w, i, launches[i], connects[i]);
      if Launches(launches[i]) && Opens(connects[i]) {
        ProxyInitTabled(ConnectAt(a, i, connects[i]), i + 1, launches, connects);
      }
    }
  }

  lemma WatchQuiet(w: Service, fd: int, wds: seq<int>)
    requires AllQuiet(w)
    ensures AllQuiet(EventInit(w, fd, wds)) && SameLinks(w, EventInit(w, fd, wds))
  {
    var a := w.(inotifyFd := fd, log := if fd >= 0 then w.log + [Acquire(InotifyFd)] else w.log);
    SameTable(w, a);
    if fd >= 0 {
      WatchAllSame(a, wds, 0);
    }
    SameLinksTrans(w, a, EventInit(w, fd, wds));
    QuietKept(w, EventInit(w, fd, wds));
  }

  lemma BootQuiet(doc: Document, cwd: Option<seq<byte>>)
    ensures var a := BootTable(Unborn(), doc, cwd);
            AllQuiet(a) && Tabled(a)
  {
    BootTableIs(doc, cwd);
    var a := BootTable(Unborn(), doc, cwd);
    assert forall i: nat :: InUse(a, i) ==> LinkAt(a, i) == Blank;
  }

  // ----- The whole of serv_init is one run of the service -----

  /** The stages of proxy_init from mapping i of n on, and what follows when they succeed. */
  function StartSteps(n: nat, i: nat, launches: seq<LaunchOracle>, connects: seq<ConnectOracle>,
                      next: seq<ServiceEvent>): (es: seq<ServiceEvent>)
    requires i <= n <= |launches| && n <= |connects|
    decreases n - i
  {
    if i == n then next
    else if !Launches(launches[i]) then [Launch(launches[i])]
    else if !Opens(connects[i]) then [Launch(launches[i])] + [Connect(connects[i])]
    else [Launch(launches[i])] + ([Connect(connects[i])] + StartSteps(n, i + 1, launches, connects, next))
  }

  /** The phase does not matter to who has which descriptor open. */
  lemma ForeignAnyPhase(w: Service, p: Phase, i: nat, fd: int)
    requires Foreign(w, i, fd)
    ensures Foreign(w.(phase := p), i, fd)
  {
    var r := w.(phase := p);
    forall j: nat | InUse(r, j) && j != i
      ensures fd !in LinkFds(LinkAt(r, j))
    {
      assert InUse(w, j);
    }
  }

  lemma LaunchRuns(w: Service, i: nat, o: LaunchOracle)
    requires InUse(w, i) && LaunchFresh(w, i, o)
    ensures var m := w.(phase := Phase.Launching(i));
            && ServiceEnabled(m, Launch(o))
            && ServiceStep(m, Launch(o)) ==
               LaunchAt(w, i, o).(phase := if Launches(o) then Connecting(i) else Failed)
  {
    if o.socket > 0 {
      ForeignAnyPhase(w, Phase.Launching(i), i, o.socket);
    }
  }

  function AfterConnect(w: Service, i: nat, o: ConnectOracle): Phase {
    if !Opens(o) then Failed else if i + 1 < w.num then Phase.Launching(i + 1) else Watching
  }

  lemma ConnectRuns(w: Service, i: nat, o: ConnectOracle)
    requires InUse(w, i) && ConnectFresh(w, i, o)
    ensures var m := w.(phase := Connecting(i));
            && ServiceEnabled(m, Connect(o))
            && ServiceStep(m, Connect(o)) == ConnectAt(w, i, o).(phase := AfterConnect(w, i, o))
  {
    if o.socket > 0 {
      ForeignAnyPhase(w, Connecting(i), i, o.socket);
    }
  }

  /** One mapping launched and connected, and what comes after. */
  lemma TwoSteps(w: Service, i: nat, o: LaunchOracle, c: ConnectOracle, rest: seq<ServiceEvent>)
    requires InUse(w, i) && LaunchFresh(w, i, o) && Launches(o)
    requires ConnectFresh(LaunchAt(w, i, o), i, c)
    requires ServicePossible(ConnectAt(LaunchAt(w, i, o), i, c).(phase := AfterConnect(w, i, c)), rest)
    ensures var m, es := w.(phase := Phase.Launching(i)), [Launch(o)] + ([Connect(c)] + rest);
            && ServicePossible(m, es)
            && ServiceRun(m, es) ==
               ServiceRun(ConnectAt(LaunchAt(w, i, o), i, c).(phase := AfterConnect(w, i, c)), rest)
  {
    LaunchRuns(w, i, o);
    ConnectRuns(LaunchAt(w, i, o), i, c);
    var m := w.(phase := Phase.Launching(i));
    RunCons(ServiceStep(m, Launch(o)), Connect(c), rest);
    RunCons(m, Launch(o), [Connect(c)] + rest);
  }

  /** proxy_init is the run of its stages. */
  lemma {:induction false} ProxyInitRuns(w: Service, i: nat, launches: seq<LaunchOracle>,
                                         connects: seq<ConnectOracle>, next: seq<ServiceEvent>)
    requires Tabled(w) && i < w.num <= |launches| && w.num <= |connects|
    requires ProxyFresh(w, i, launches, connects)
    requires var (r, ok) := ProxyInit(w, i, launches, connects);
             ok ==> ServicePossible(r.(phase := Watching), next)
    ensures var m, es := w.(phase := Phase.Launching(i)), StartSteps(w.num, i, launches, connects, next);
            var (r, ok) := ProxyInit(w, i, launches, connects);
            && ServicePossible(m, es)
            && ServiceRun(m, es) == if ok then ServiceRun(r.(phase := Watching), next)
                                    else r.(phase := Failed)
    decreases w.num - i
  {
    assert InUse(w, i);
    var m, o, c := w.(phase := Phase.Launching(i)), launches[i], connects[i];
    if !Launches(o) {
      LaunchRuns(w, i, o);
      OneStep(m, Launch(o));
    } else {
      var b := ConnectAt(LaunchAt(w, i, o), i, c);
      if !Opens(c) {
        TwoSteps(w, i, o, c, []);
        assert [Connect(c)] + [] == [Connect(c)];
      } else {
        RoundTabled(w, i, o, c);
        if i + 1 < w.num {
          ProxyInitRuns(b, i + 1, launches, connects, next);
        }
        TwoSteps(w, i, o, c, StartSteps(w.num, i + 1, launches, connects, next));
      }
    }
  }

  lemma RoundTabled(w: Service, i: nat, o: LaunchOracle, c: ConnectOracle)
    requires Tabled(w) && InUse(w, i)
    ensures Tabled(ConnectAt(LaunchAt(w, i, o), i, c))
  {
    var b := ConnectAt(LaunchAt(w, i, o), i, c);
    assert forall j: nat :: InUse(b, j) <==> InUse(w, j);
  }

  // ----- The stages after proxy_init -----

  lemma {:induction false} WatchAllAnyPhase(w: Service, p: Phase, wds: seq<int>, i: nat)
    requires i <= w.num
    ensures WatchAll(w.(phase := p), wds, i) == WatchAll(w, wds, i).(phase := p)
    decreases w.num - i
  {
    if i < w.num {
      var wd := if i < |wds| then wds[i] else -1;
      assert WatchAt(w.(phase := p), i, wd) == WatchAt(w, i, wd).(phase := p);
      WatchAllAnyPhase(WatchAt(w, i, wd), p, wds, i + 1);
    }
  }

  lemma EventInitAnyPhase(w: Service, p: Phase, fd: int, wds: seq<int>)
    ensures EventInit(w.(phase := p), fd, wds) == EventInit(w, fd, wds).(phase := p)
  {
    if fd >= 0 {
      WatchAllAnyPhase(w.(inotifyFd := fd, log := w.log + [Acquire(InotifyFd)]), p, wds, 0);
    }
  }

  /** The stages after proxy_init of a service with n mappings. */
  function EventSteps(n: nat, fd: int, wds: seq<int>, dgramOk: bool): (es: seq<ServiceEvent>) {
    [Watch(fd, wds)] +
    if fd < 0 then DownSteps(n, 0, [])
    else [BindDgram(dgramOk)] + if dgramOk then [] else [CloseMonitor] + DownSteps(n, 0, [])
  }

  lemma WatchRuns(w: Service, fd: int, wds: seq<int>)
    requires WatchFresh(w, fd)
    ensures var m, c := w.(phase := Watching), EventInit(w, fd, wds);
            && ServiceEnabled(m, Watch(fd, wds))
            && ServiceStep(m, Watch(fd, wds)) ==
               c.(phase := if fd >= 0 then Binding else DownFrom(c, 0, false))
  {
    var m := w.(phase := Watching);
    forall i: nat | InUse(m, i)
      ensures fd !in LinkFds(LinkAt(m, i))
    {
      assert InUse(w, i);
    }
    EventInitAnyPhase(w, Watching, fd, wds);
    EventInitNum(w, fd, wds);
  }

  /** proxy_uninit inside serv_init. */
  lemma FailedDownRuns(w: Service)
    requires Tabled(w) && AllQuiet(w)
    ensures var m, es := w.(phase := DownFrom(w, 0, false)), DownSteps(w.num, 0, []);
            ServicePossible(m, es) && ServiceRun(m, es) == ProxyUninit(w, 0).(phase := Failed)
  {
    DownRuns(w, 0, false, []);
  }

  /** The control socket cannot be opened. */
  lemma BindFailedRuns(c: Service)
    requires Tabled(c) && AllQuiet(c)
    ensures var m, es := c.(phase := Binding), [BindDgram(false)] + ([CloseMonitor] + DownSteps(c.num, 0, []));
            && ServicePossible(m, es)
            && ServiceRun(m, es) == ProxyUninit(EventUninit(c.(dgram := false)), 0).(phase := Failed)
  {
    var d := c.(dgram := false);
    var u := EventUninit(d);
    SameTable(c, d);
    EventUninitFrame(d);
    SameLinksTrans(c, d, u);
    TabledKept(c, u);
    QuietKept(c, u);
    FailedDownRuns(u);
    var n := d.(phase := Unwatching(false));
    EventUninitAnyPhase(d, Unwatching(false));
    assert ServiceStep(n, CloseMonitor) == u.(phase := DownFrom(u, 0, false));
    RunCons(n, CloseMonitor, DownSteps(c.num, 0, []));
    RunCons(c.(phase := Binding), BindDgram(false), [CloseMonitor] + DownSteps(c.num, 0, []));
  }

  lemma StartEventsRuns(w: Service, fd: int, wds: seq<int>, dgramOk: bool)
    requires Tabled(w) && AllQuiet(w) && WatchFresh(w, fd)
    ensures var m, es := w.(phase := Watching), EventSteps(w.num, fd, wds, dgramOk);
            var (r, ok) := StartEvents(w, fd, wds, dgramOk);
            ServicePossible(m, es) && ServiceRun(m, es) == r.(phase := if ok then Monitoring else Failed)
  {
    var m := w.(phase := Watching);
    var c := EventInit(w, fd, wds);
    WatchRuns(w, fd, wds);
    WatchQuiet(w, fd, wds);
    TabledKept(w, c);
    if fd < 0 {
      FailedDownRuns(c);
      RunCons(m, Watch(fd, wds), DownSteps(w.num, 0, []));
    } else {
      var b := [BindDgram(dgramOk)] + if dgramOk then [] else [CloseMonitor] + DownSteps(w.num, 0, []);
      if dgramOk {
        OneStep(c.(phase := Binding), BindDgram(true));
        assert b == [BindDgram(true)];
      } else {
        BindFailedRuns(c);
      }
      RunCons(m, Watch(fd, wds), b);
    }
  }

  /** serv_init, failing anywhere or not, is a run of the service: what holds over
      every run holds of it and of all that follows. */
  lemma InitIsRun(o: InitOracle) returns (es: seq<ServiceEvent>)
    requires InitOracleOk(o) && CwdOk(o.cwd) && InitFresh(o)
    ensures ServicePossible(Unborn(), es)
    ensures var (r, ok) := ServInit(Unborn(), o);
            ServiceRun(Unborn(), es) == r.(phase := if ok then Monitoring else Failed)
  {
    BootQuiet(o.doc, o.cwd);
    var a := BootTable(Unborn(), o.doc, o.cwd);
    var boot := Boot(o.doc, o.cwd);
    if a.num == 0 {
      OneStep(Unborn(), boot);
      es := [boot];
    } else {
      var next := EventSteps(a.num, o.fd, o.wds, o.dgramOk);
      var (b, ok) := ProxyInit(a, 0, o.launches, o.connects);
      ProxyInitQuiet(a, 0, o.launches, o.connects);
      ProxyInitTabled(a, 0, o.launches, o.connects);
      StartEventsRuns(b, o.fd, o.wds, o.dgramOk);
      ProxyInitRuns(a, 0, o.launches, o.connects, next);
      assert a.(phase := Phase.Launching(0)) == a;
      es := StartSteps(a.num, 0, o.launches, o.connects, next);
      RunCons(Unborn(), boot, es);
      es := [boot] + es;
    }
  }

  // ----- Start-up followed by shut-down -----

  lemma StartEventsQuiet(w: Service, fd: int, wds: seq<int>, dgramOk: bool)
    requires AllQuiet(w)
    ensures AllQuiet(StartEvents(w, fd, wds, dgramOk).0)
  {
    WatchQuiet(w, fd, wds);
    var c := EventInit(w, fd, wds);
    if fd < 0 {
      DownQuiet(c, 0);
    } else if !dgramOk {
      var d := c.(dgram := false);
      SameTable(c, d);
      EventUninitFrame(d);
      SameLinksTrans(c, d, EventUninit(d));
      QuietKept(c, EventUninit(d));
      DownQuiet(EventUninit(d), 0);
    } else {
      SameTable(c, c.(dgram := true, dgramLive := true, log := c.log + [Acquire(DgramHandle)]));
      QuietKept(c, c.(dgram := true, dgramLive := true, log := c.log + [Acquire(DgramHandle)]));
    }
  }

  lemma {:induction false} DownQuiet(w: Service, i: nat)
    requires AllQuiet(w) && i <= w.num
    ensures AllQuiet(ProxyUninit(w, i))
    decreases w.num - i
  {
    if i < w.num {
      if InUse(w, i) {
        QuietUpdate(w, i, DownLink(LinkAt(w, i)),
                    (if LinkAt(w, i).client.Some? then [Release(IpcHandle(i))] else [])
                    + if LinkAt(w, i).server.Some? then [Release(TcpHandle(i))] else []);
      }
      DownQuiet(DownAt(w, i), i + 1);
    }
  }

  lemma InitQuiet(o: InitOracle)
    requires InitOracleOk(o)
    ensures AllQuiet(ServInit(Unborn(), o).0)
  {
    BootQuiet(o.doc, o.cwd);
    var a := BootTable(Unborn(), o.doc, o.cwd);
    ProxyInitQuiet(a, 0, o.launches, o.connects);
    StartEventsQuiet(ProxyInit(a, 0, o.launches, o.connects).0, o.fd, o.wds, o.dgramOk);
  }

  /** Wherever serv_init fails, or if it does not, the serv_uninit after it gives
      back every handle, descriptor and mapping exactly once, although serv_init may
      already have taken the monitor and the proxy down itself. */
  lemma InitThenUninit(o: InitOracle)
    requires InitOracleOk(o) && CwdOk(o.cwd) && InitFresh(o)
    ensures Finished(ServUninit(ServInit(Unborn(), o).0))
  {
    var es := InitIsRun(o);
    var r := ServInit(Unborn(), o).0;
    var m := ServiceRun(Unborn(), es);
    UnbornGood();
    ServiceRunGood(Unborn(), es);
    InitQuiet(o);
    QuietAnyPhase(r, m.phase);
    UninitFinishes(m);
    ServUninitAnyPhase(r, m.phase);
  }
}
