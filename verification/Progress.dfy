/** Whatever has happened, the service can still be brought to its end. */
module Progress {
  import opened Ledger
  import opened TcpTable
  import opened TcpSafety
  import opened Proxy
  import opened ProxySafety
  import opened Service
  import opened ServiceSafety
  import opened TakeDown

  ghost predicate CanFinish(w: Service) {
    exists es :: ServicePossible(w, es) && ServiceRun(w, es).phase.Done?
  }

  lemma StepThen(w: Service, e: ServiceEvent)
    requires ServiceEnabled(w, e) && CanFinish(ServiceStep(w, e))
    ensures CanFinish(w)
  {
    var es :| ServicePossible(ServiceStep(w, e), es) && ServiceRun(ServiceStep(w, e), es).phase.Done?;
    TakeDown.RunCons(w, e, es);
  }

  lemma FreeingCan(w: Service)
    requires FreeingOk(w)
    ensures CanFinish(w)
  {
    assert w.(phase := Phase.Freeing(w.phase.i)) == w;
    FreeRuns(w, w.phase.i);
  }

  // ----- A server is quiet after a few steps of its own -----

  /** The teardown steps that thread u has before its own free. */
  function StepsLeft(s: Server, u: UserId): (n: nat) {
    if u !in s.threads then 0
    else
      match s.threads[u]
      case Notifying => 3
      case Clearing => 2
      case Dropping => 1
      case _ => 0
  }

  function NextStep(s: Server, u: UserId): (e: Event)
    requires StepsLeft(s, u) > 0
  {
    match s.threads[u]
    case Notifying => NotifyExit(u)
    case Clearing => ClearSlot(u)
    case Dropping => DropCount(u)
  }

  lemma NextEnabled(s: Server, u: UserId)
    requires ThreadsOk(s) && StepsLeft(s, u) > 0
    ensures AtomicEnabled(s, NextStep(s, u))
  {
  }

  /** A teardown step moves its own thread on and no other. */
  lemma NextMoves(s: Server, u: UserId)
    requires Shape(s) && StepsLeft(s, u) > 0 && AtomicEnabled(s, NextStep(s, u))
    ensures var r := Step(s, NextStep(s, u));
            && StepsLeft(r, u) < StepsLeft(s, u) && r.listener == s.listener
            && u in r.threads && r.threads[u] in {Clearing, Dropping, Pc.Freeing}
            && (forall v :: v in r.threads && v != u ==> v in s.threads && r.threads[v] == s.threads[v])
  {
  }

  lemma LastMove(s: Server, r: Server, u: UserId)
    requires !InFlight(s.listener) && r.listener == s.listener
    requires forall v :: v in s.threads && v != u ==> s.threads[v] == Pc.Freeing
    requires forall v :: v in r.threads && v != u ==> v in s.threads && r.threads[v] == s.threads[v]
    requires u in r.threads && r.threads[u] in {Clearing, Dropping, Pc.Freeing}
    ensures StepsLeft(r, u) == 0 ==> Quiet(r)
  {
  }

  /** One more step of the one thread in teardown: fewer left, and quiet after the last. */
  lemma DrainServer(s: Server, u: UserId)
    requires AtomicInv(s) && s.maxUserNum == 1 && StepsLeft(s, u) > 0
    ensures AtomicEnabled(s, NextStep(s, u))
    ensures var r := Step(s, NextStep(s, u));
            && StepsLeft(r, u) < StepsLeft(s, u)
            && (StepsLeft(r, u) == 0 ==> Quiet(r))
  {
    NextEnabled(s, u);
    NextMoves(s, u);
    NobodyElse(s, u);
    LastMove(s, Step(s, NextStep(s, u)), u);
  }

  // ----- A client that leaves makes room -----

  ghost predicate OthersGone(s: Server, u: UserId) {
    forall v :: v in s.threads && v != u ==> s.threads[v] == Pc.Freeing
  }

  /** Nobody is listed or about to be dropped when every thread is at its last step. */
  lemma AllLeaving(s: Server)
    requires AtomicInv(s) && forall v :: v in s.threads ==> s.threads[v] == Pc.Freeing
    ensures s.userNum == 0 && forall k :: 0 <= k < |s.slots| ==> s.slots[k] == NULL
  {
    assert AtDrop(s.threads) == {};
    forall k | 0 <= k < |s.slots|
      ensures s.slots[k] == NULL
    {
      assert s.slots[k] in s.slots;
    }
    assert Occupied(s.slots) == {};
  }

  lemma LeaveStep(s: Server, u: UserId) returns (r: Server)
    requires AtomicInv(s) && StepsLeft(s, u) > 0 && OthersGone(s, u)
    ensures AtomicEnabled(s, NextStep(s, u)) && r == Step(s, NextStep(s, u))
    ensures AtomicInv(r) && OthersGone(r, u) && u in r.threads
    ensures r.threads[u] == match s.threads[u]
                            case Notifying => Clearing
                            case Clearing => Dropping
                            case _ => Pc.Freeing
  {
    NextEnabled(s, u);
    NextMoves(s, u);
    AtomicStepInv(s, NextStep(s, u));
    r := Step(s, NextStep(s, u));
    if s.threads[u] == Clearing {
      TeardownFindsSlot(s, u);
    }
  }

  lemma EndMoves(s: Server, u: UserId)
    requires Shape(s) && AtomicEnabled(s, End(u))
    ensures var r := Step(s, End(u));
            u in r.threads && r.threads == s.threads[u := Notifying]
  {
  }

  lemma EndEnabled(s: Server, u: UserId)
    requires ThreadsOk(s) && At(s, u, Receiving)
    ensures AtomicEnabled(s, End(u))
  {
  }

  lemma EndOthers(s: Server, u: UserId)
    requires AtomicInv(s) && s.maxUserNum == 1 && At(s, u, Receiving) && AtomicEnabled(s, End(u))
    ensures OthersGone(Step(s, End(u)), u)
  {
    NobodyElse(s, u);
    EndMoves(s, u);
  }

  lemma EndStep(s: Server, u: UserId) returns (r: Server)
    requires AtomicInv(s) && s.maxUserNum == 1 && At(s, u, Receiving)
    ensures AtomicEnabled(s, End(u)) && r == Step(s, End(u))
    ensures AtomicInv(r) && OthersGone(r, u) && u in r.threads && r.threads[u] == Notifying
  {
    EndEnabled(s, u);
    EndOthers(s, u);
    EndMoves(s, u);
    AtomicStepInv(s, End(u));
    r := Step(s, End(u));
  }

  lemma FirstHalf(s: Server, u: UserId) returns (a: Server, b: Server)
    requires AtomicInv(s) && s.maxUserNum == 1 && At(s, u, Receiving)
    ensures AtomicEnabled(s, End(u)) && a == Step(s, End(u))
    ensures Shape(a) && AtomicEnabled(a, NotifyExit(u)) && b == Step(a, NotifyExit(u))
    ensures AtomicInv(b) && OthersGone(b, u) && u in b.threads && b.threads[u] == Clearing
  {
    a := EndStep(s, u);
    b := LeaveStep(a, u);
  }

  lemma SecondHalf(b: Server, u: UserId) returns (c: Server, d: Server)
    requires AtomicInv(b) && OthersGone(b, u) && u in b.threads && b.threads[u] == Clearing
    ensures AtomicEnabled(b, ClearSlot(u)) && c == Step(b, ClearSlot(u))
    ensures Shape(c) && AtomicEnabled(c, DropCount(u)) && d == Step(c, DropCount(u))
    ensures AtomicInv(d) && u in d.threads && forall v :: v in d.threads ==> d.threads[v] == Pc.Freeing
  {
    c := LeaveStep(b, u);
    d := LeaveStep(c, u);
  }

  lemma RoomAgain(d: Server, u: UserId)
    requires AtomicInv(d) && u in d.threads && forall v :: v in d.threads ==> d.threads[v] == Pc.Freeing
    ensures d.userNum == 0 && forall k :: 0 <= k < |d.slots| ==> d.slots[k] == NULL
    ensures Shape(d) && AtomicEnabled(d, FreeUser(u))
    ensures u !in Step(d, FreeUser(u)).heap && u !in Step(d, FreeUser(u)).threads
  {
    AllLeaving(d);
    LastStep(d, u);
  }

  /** A client that leaves: its thread's steps can all be taken, one after the other,
      and then its user is freed, the slot empty and the counter back at 0 for the
      next client. */
  lemma ClientLeaves(s: Server, u: UserId) returns (a: Server, b: Server, c: Server, d: Server)
    requires AtomicInv(s) && s.maxUserNum == 1 && At(s, u, Receiving)
    ensures AtomicEnabled(s, End(u)) && a == Step(s, End(u))
    ensures Shape(a) && AtomicEnabled(a, NotifyExit(u)) && b == Step(a, NotifyExit(u))
    ensures Shape(b) && AtomicEnabled(b, ClearSlot(u)) && c == Step(b, ClearSlot(u))
    ensures Shape(c) && AtomicEnabled(c, DropCount(u)) && d == Step(c, DropCount(u))
    ensures d.userNum == 0 && forall k :: 0 <= k < |d.slots| ==> d.slots[k] == NULL
    ensures Shape(d) && AtomicEnabled(d, FreeUser(u))
    ensures u !in Step(d, FreeUser(u)).heap && u !in Step(d, FreeUser(u)).threads
  {
    a, b := FirstHalf(s, u);
    c, d := SecondHalf(b, u);
    RoomAgain(d, u);
  }

  lemma LastStep(s: Server, u: UserId)
    requires Shape(s) && ThreadsOk(s) && u in s.threads && s.threads[u] == Pc.Freeing
    ensures AtomicEnabled(s, FreeUser(u))
    ensures u !in Step(s, FreeUser(u)).heap && u !in Step(s, FreeUser(u)).threads
  {
  }

  lemma DrainLink(l: Link, u: UserId)
    requires AtomicLinkInv(l) && l.server.Some? && StepsLeft(l.server.value, u) > 0
    ensures AtomicLinkEnabled(l, Tcp(NextStep(l.server.value, u), true))
    ensures var r := AtomicLinkStep(l, Tcp(NextStep(l.server.value, u), true));
            && r.server.Some? && StepsLeft(r.server.value, u) < StepsLeft(l.server.value, u)
            && (StepsLeft(r.server.value, u) == 0 ==> Quiet(r.server.value))
  {
    DrainServer(l.server.value, u);
    AtomicServerAfter(l, Tcp(NextStep(l.server.value, u), true));
  }

  lemma Busy(w: Service, i: nat) returns (u: UserId)
    requires InUse(w, i) && AtomicLinkInv(LinkAt(w, i)) && !QuietAt(w, i)
    ensures LinkAt(w, i).server.Some? && StepsLeft(LinkAt(w, i).server.value, u) > 0
  {
    var s := LinkAt(w, i).server.value;
    u :| u in s.threads && !(s.threads[u] in {Receiving, Pc.Freeing});
  }

  // ----- Taking down -----

  lemma CeaseQuietCan(w: Service)
    requires ServiceInv(w) && w.phase.Ceasing? && QuietAt(w, w.phase.i)
    ensures CanFinish(w)
    decreases if w.phase.last then 0 else 3, w.num - w.phase.i, 0, 0
  {
    CloseTcpStep(w);
    var r := ServiceStep(w, CloseTcp);
    if r.phase.Freeing? {
      FreeingCan(r);
    } else if r.phase.Failed? {
      FailedCan(r);
    } else {
      DisconnectCan(r);
    }
    StepThen(w, CloseTcp);
  }

  function DrainEvent(w: Service, i: nat, u: UserId): (e: ServiceEvent)
    requires InUse(w, i) && LinkAt(w, i).server.Some? && StepsLeft(LinkAt(w, i).server.value, u) > 0
  {
    OnLink(i, Tcp(NextStep(LinkAt(w, i).server.value, u), true))
  }

  /** What the step does to the mapping that is waited for. */
  lemma DrainAt(w: Service, i: nat, u: UserId)
    requires Up(w) && InUse(w, i) && AtomicLinkInv(LinkAt(w, i))
    requires LinkAt(w, i).server.Some? && StepsLeft(LinkAt(w, i).server.value, u) > 0
    ensures ServiceEnabled(w, DrainEvent(w, i, u))
    ensures var r := ServiceStep(w, DrainEvent(w, i, u));
            && r.phase == w.phase && r.num == w.num
            && InUse(r, i) && LinkAt(r, i).server.Some?
            && StepsLeft(LinkAt(r, i).server.value, u) < StepsLeft(LinkAt(w, i).server.value, u)
            && (StepsLeft(LinkAt(r, i).server.value, u) == 0 ==> QuietAt(r, i))
  {
    DrainLink(LinkAt(w, i), u);
  }

  lemma DrainOne(w: Service, u: UserId)
    requires ServiceInv(w) && w.phase.Ceasing?
    requires LinkAt(w, w.phase.i).server.Some? && StepsLeft(LinkAt(w, w.phase.i).server.value, u) > 0
    ensures var i := w.phase.i;
            var e := DrainEvent(w, i, u);
            && ServiceEnabled(w, e)
            && var r := ServiceStep(w, e);
               && ServiceInv(r) && r.phase == w.phase && r.num == w.num
               && InUse(r, i) && LinkAt(r, i).server.Some?
               && StepsLeft(LinkAt(r, i).server.value, u) < StepsLeft(LinkAt(w, i).server.value, u)
               && (StepsLeft(LinkAt(r, i).server.value, u) == 0 ==> QuietAt(r, i))
  {
    var i := w.phase.i;
    GoodLink(w, i);
    DrainAt(w, i, u);
    var e := DrainEvent(w, i, u);
    OnLinkStep(w, e.i, e.e);
  }

  /** The rest of one thread's teardown, then the rest of the shut-down. */
  lemma DrainCan(w: Service, u: UserId)
    requires ServiceInv(w) && w.phase.Ceasing?
    requires LinkAt(w, w.phase.i).server.Some? && StepsLeft(LinkAt(w, w.phase.i).server.value, u) > 0
    ensures CanFinish(w)
    decreases if w.phase.last then 0 else 3, w.num - w.phase.i, 1, StepsLeft(LinkAt(w, w.phase.i).server.value, u)
  {
    DrainOne(w, u);
    var e := DrainEvent(w, w.phase.i, u);
    var r := ServiceStep(w, e);
    if StepsLeft(LinkAt(r, r.phase.i).server.value, u) == 0 {
      CeaseQuietCan(r);
    } else {
      DrainCan(r, u);
    }
    StepThen(w, e);
  }

  lemma CeaseCan(w: Service)
    requires ServiceInv(w) && w.phase.Ceasing?
    ensures CanFinish(w)
    decreases if w.phase.last then 0 else 3, w.num - w.phase.i, 2, 0
  {
    if QuietAt(w, w.phase.i) {
      CeaseQuietCan(w);
    } else {
      GoodLink(w, w.phase.i);
      var u := Busy(w, w.phase.i);
      DrainCan(w, u);
    }
  }

  lemma DisconnectCan(w: Service)
    requires ServiceInv(w) && w.phase.Disconnecting?
    ensures CanFinish(w)
    decreases if w.phase.last then 0 else 3, w.num - w.phase.i, 3, 0
  {
    assert InUse(w, w.phase.i);
    CloseIpcStep(w);
    CeaseCan(ServiceStep(w, CloseIpc));
    StepThen(w, CloseIpc);
  }

  lemma UnwatchCan(w: Service)
    requires ServiceInv(w) && w.phase.Unwatching?
    ensures CanFinish(w)
    decreases if w.phase.last then 1 else 4, 0, 0, 0
  {
    CloseMonitorStep(w);
    var r := ServiceStep(w, CloseMonitor);
    if r.phase.Freeing? {
      FreeingCan(r);
    } else if r.phase.Failed? {
      FailedCan(r);
    } else {
      DisconnectCan(r);
    }
    StepThen(w, CloseMonitor);
  }

  lemma FailedCan(w: Service)
    requires ServiceInv(w) && (w.phase.Failed? || (w.phase.Monitoring? && w.inotifyFd < 0))
    ensures CanFinish(w)
    decreases 2, 0, 0, 0
  {
    CloseDgramStep(w);
    UnwatchCan(ServiceStep(w, CloseDgram));
    StepThen(w, CloseDgram);
  }

  // ----- Start-up and the monitor -----

  /** Answers that let start-up fail where it is. */
  const NoServer: LaunchOracle := LaunchOracle(false, -1, false, false)
  const NoClient: ConnectOracle := ConnectOracle(false, -1, false, false, false, false)

  lemma BootCan(w: Service)
    requires ServiceInv(w) && w.phase.Start?
    ensures CanFinish(w)
  {
    BootStep(w, NoFile, None);
    FailedCan(ServiceStep(w, Boot(NoFile, None)));
    StepThen(w, Boot(NoFile, None));
  }

  lemma LaunchCan(w: Service)
    requires ServiceInv(w) && w.phase.Launching?
    ensures CanFinish(w)
  {
    assert InUse(w, w.phase.i);
    LaunchStep(w, NoServer);
    FailedCan(ServiceStep(w, Launch(NoServer)));
    StepThen(w, Launch(NoServer));
  }

  lemma ConnectCan(w: Service)
    requires ServiceInv(w) && w.phase.Connecting?
    ensures CanFinish(w)
  {
    ConnectStep(w, NoClient);
    FailedCan(ServiceStep(w, Connect(NoClient)));
    StepThen(w, Connect(NoClient));
  }

  lemma FailedWatch(w: Service)
    requires w.phase.Watching?
    ensures ServiceEnabled(w, Watch(-1, []))
    ensures ServiceStep(w, Watch(-1, [])).phase == DownFrom(w, 0, false)
  {
    forall i: nat | InUse(w, i)
      ensures -1 !in LinkFds(LinkAt(w, i))
    {
    }
  }

  lemma WatchCan(w: Service)
    requires ServiceInv(w) && w.phase.Watching?
    ensures CanFinish(w)
  {
    FailedWatch(w);
    WatchStep(w, -1, []);
    var r := ServiceStep(w, Watch(-1, []));
    if r.phase.Failed? {
      FailedCan(r);
    } else {
      DisconnectCan(r);
    }
    StepThen(w, Watch(-1, []));
  }

  lemma BindCan(w: Service)
    requires ServiceInv(w) && w.phase.Binding?
    ensures CanFinish(w)
  {
    BindStep(w, false);
    UnwatchCan(ServiceStep(w, BindDgram(false)));
    StepThen(w, BindDgram(false));
  }

  lemma MonitorCan(w: Service)
    requires ServiceInv(w) && w.phase.Monitoring?
    ensures CanFinish(w)
  {
    ExitStep(w);
    EventUninitFrame(w);
    FailedCan(ServiceStep(w, ExitCommand));
    StepThen(w, ExitCommand);
  }

  /** From every reachable state before the end there is a way to the end: start-up can
      fail, "exit" leaves the monitor, and a server that is waited for is quiet after
      at most three steps of its own. */
  lemma EveryServiceCanFinish(w: Service)
    requires Good(w) && !w.phase.Done?
    ensures CanFinish(w)
  {
    match w.phase {
      case Freeing(_) => FreeingCan(w);
      case Ceasing(_, _) => CeaseCan(w);
      case Disconnecting(_, _) => DisconnectCan(w);
      case Unwatching(_) => UnwatchCan(w);
      case Failed => FailedCan(w);
      case Monitoring => MonitorCan(w);
      case Start => BootCan(w);
      case Launching(_) => LaunchCan(w);
      case Connecting(_) => ConnectCan(w);
      case Watching => WatchCan(w);
      case Binding => BindCan(w);
    }
  }
}
