/** Taking the service down without interruption is one of the service's runs. */
module TakeDown {
  import opened Ledger
  import opened TcpTable
  import opened Proxy
  import opened Service
  import opened ServiceSafety

  // ----- Composing runs -----

  lemma RunCons(w: Service, e: ServiceEvent, rest: seq<ServiceEvent>)
    requires ServiceEnabled(w, e) && ServicePossible(ServiceStep(w, e), rest)
    ensures ServicePossible(w, [e] + rest) && ServiceRun(w, [e] + rest) == ServiceRun(ServiceStep(w, e), rest)
  {
    assert ([e] + rest)[1..] == rest;
  }

  lemma OneStep(w: Service, e: ServiceEvent)
    requires ServiceEnabled(w, e)
    ensures ServicePossible(w, [e]) && ServiceRun(w, [e]) == ServiceStep(w, e)
  {
    assert [e][1..] == [];
    assert ServicePossible(ServiceStep(w, e), []);
  }

  // ----- Quiet throughout, when nothing interrupts -----

  lemma QuietUpdate(w: Service, i: nat, l: Link, ops: seq<Op<Resource>>)
    requires AllQuiet(w) && InUse(w, i) && (l.server.Some? ==> Quiet(l.server.value))
    ensures AllQuiet(SetLink(w, i, l, ops))
  {
    var r := SetLink(w, i, l, ops);
    forall j: nat | InUse(r, j)
      ensures QuietAt(r, j)
    {
      assert QuietAt(w, j);
    }
  }

  lemma QuietAnyPhase(w: Service, p: Phase)
    requires AllQuiet(w)
    ensures AllQuiet(w.(phase := p))
  {
    SameTable(w, w.(phase := p));
    QuietKept(w, w.(phase := p));
  }

  // ----- The loops over the table do not look at the phase -----

  lemma {:induction false} ProxyUninitAnyPhase(w: Service, p: Phase, i: nat)
    requires i <= w.num
    ensures ProxyUninit(w.(phase := p), i) == ProxyUninit(w, i).(phase := p)
    decreases w.num - i
  {
    if i < w.num {
      assert DownAt(w.(phase := p), i) == DownAt(w, i).(phase := p);
      ProxyUninitAnyPhase(DownAt(w, i), p, i + 1);
    }
  }

  lemma {:induction false} UnwatchAllAnyPhase(w: Service, p: Phase, i: nat)
    requires i <= w.num
    ensures UnwatchAll(w.(phase := p), i) == UnwatchAll(w, i).(phase := p)
    decreases w.num - i
  {
    if i < w.num {
      assert UnwatchAt(w.(phase := p), i) == UnwatchAt(w, i).(phase := p);
      UnwatchAllAnyPhase(UnwatchAt(w, i), p, i + 1);
    }
  }

  lemma EventUninitAnyPhase(w: Service, p: Phase)
    ensures EventUninit(w.(phase := p)) == EventUninit(w).(phase := p)
  {
    UnwatchAllAnyPhase(w, p, 0);
  }

  lemma {:induction false} FreeAllAnyPhase(w: Service, p: Phase, i: nat)
    requires i <= |w.table|
    ensures FreeAll(w.(phase := p), i) == FreeAll(w, i).(phase := p)
    decreases |w.table| - i
  {
    if i < |w.table| {
      assert FreeAt(w.(phase := p), i) == FreeAt(w, i).(phase := p);
      FreeAllAnyPhase(FreeAt(w, i), p, i + 1);
    }
  }

  lemma ServUninitAnyPhase(w: Service, p: Phase)
    ensures ServUninit(w.(phase := p)) == ServUninit(w)
  {
    var a := DgramDown(w);
    EventUninitAnyPhase(a, p);
    ProxyUninitAnyPhase(EventUninit(a), p, 0);
    FreeAllAnyPhase(ProxyUninit(EventUninit(a), 0), p, 0);
  }

  // ----- proxy_uninit -----

  /** The rounds of proxy_uninit from mapping i of n on, and what follows them. */
  function DownSteps(n: nat, i: nat, next: seq<ServiceEvent>): (es: seq<ServiceEvent>)
    requires i <= n
    decreases n - i
  {
    if i == n then next else [CloseIpc] + ([CloseTcp] + DownSteps(n, i + 1, next))
  }

  lemma DownRound(w: Service, i: nat)
    requires Tabled(w) && AllQuiet(w) && i < w.num
    ensures InUse(w, i) && InUse(DisconnectAt(w, i), i)
    ensures QuietAt(DisconnectAt(w, i), i)
    ensures CeaseAt(DisconnectAt(w, i), i) == DownAt(w, i)
    ensures Tabled(DownAt(w, i)) && AllQuiet(DownAt(w, i))
  {
    assert InUse(w, i) && QuietAt(w, i);
    var l := LinkAt(w, i);
    var a := if l.client.Some? then [Release(IpcHandle(i))] else [];
    var b := if l.server.Some? then [Release(TcpHandle(i))] else [];
    SetLinkTwice(w, i, DisconnectIpc(l), DownLink(l), a, b);
    QuietUpdate(w, i, DownLink(l), a + b);
    assert forall j: nat :: InUse(DownAt(w, i), j) <==> InUse(w, j);
  }

  /** One round: the client, then the server. */
  lemma RoundRuns(w: Service, i: nat, last: bool, rest: seq<ServiceEvent>)
    requires Tabled(w) && AllQuiet(w) && i < w.num
    requires var b := DownAt(w, i); ServicePossible(b.(phase := DownFrom(b, i + 1, last)), rest)
    ensures var m, b := w.(phase := DownFrom(w, i, last)), DownAt(w, i);
            && ServicePossible(m, [CloseIpc] + ([CloseTcp] + rest))
            && ServiceRun(m, [CloseIpc] + ([CloseTcp] + rest)) ==
               ServiceRun(b.(phase := DownFrom(b, i + 1, last)), rest)
  {
    DownRound(w, i);
    var m, b := w.(phase := DownFrom(w, i, last)), DownAt(w, i);
    var n := DisconnectAt(w, i).(phase := Ceasing(i, last));
    assert ServiceEnabled(m, CloseIpc) && ServiceStep(m, CloseIpc) == n;
    assert ServiceEnabled(n, CloseTcp) && ServiceStep(n, CloseTcp) == b.(phase := DownFrom(b, i + 1, last));
    RunCons(n, CloseTcp, rest);
    RunCons(m, CloseIpc, [CloseTcp] + rest);
  }

  /** proxy_uninit is the run of its rounds. */
  lemma {:induction false} DownRuns(w: Service, i: nat, last: bool, next: seq<ServiceEvent>)
    requires Tabled(w) && AllQuiet(w) && i <= w.num
    requires ServicePossible(ProxyUninit(w, i).(phase := DownFrom(w, w.num, last)), next)
    ensures var m, es := w.(phase := DownFrom(w, i, last)), DownSteps(w.num, i, next);
            && ServicePossible(m, es)
            && ServiceRun(m, es) == ServiceRun(ProxyUninit(w, i).(phase := DownFrom(w, w.num, last)), next)
    decreases w.num - i
  {
    if i < w.num {
      DownRound(w, i);
      DownRuns(DownAt(w, i), i + 1, last, next);
      RoundRuns(w, i, last, DownSteps(w.num, i + 1, next));
    }
  }

  // ----- serv_uninit -----

  function FreeSteps(n: nat): (es: seq<ServiceEvent>) {
    if n == 0 then [] else [FreeMapping] + FreeSteps(n - 1)
  }

  lemma LastFreeRuns(w: Service, i: nat)
    requires i + 1 == |w.table|
    ensures var m := w.(phase := Phase.Freeing(i));
            ServicePossible(m, FreeSteps(1)) && ServiceRun(m, FreeSteps(1)) == FreeAll(w, i).(num := 0, phase := Done)
  {
    var m, f := w.(phase := Phase.Freeing(i)), FreeAt(w, i);
    assert FreeAll(w, i) == FreeAll(f, i + 1) == f;
    assert FreeSteps(0) == [] && FreeSteps(1) == [FreeMapping] + FreeSteps(0) == [FreeMapping];
    OneStep(m, FreeMapping);
  }

  lemma {:induction false} FreeRuns(w: Service, i: nat)
    requires i < |w.table|
    ensures var m, es := w.(phase := Phase.Freeing(i)), FreeSteps(|w.table| - i);
            ServicePossible(m, es) && ServiceRun(m, es) == FreeAll(w, i).(num := 0, phase := Done)
    decreases |w.table| - i
  {
    if i + 1 < |w.table| {
      var m, f := w.(phase := Phase.Freeing(i)), FreeAt(w, i);
      FreeRuns(f, i + 1);
      assert ServiceStep(m, FreeMapping) == f.(phase := Phase.Freeing(i + 1));
      RunCons(m, FreeMapping, FreeSteps(|w.table| - i - 1));
    } else {
      assert |w.table| - i == 1;
      LastFreeRuns(w, i);
    }
  }

  function UninitSteps(w: Service): (es: seq<ServiceEvent>) {
    [CloseDgram] + ([CloseMonitor] + DownSteps(w.num, 0, FreeSteps(|w.table|)))
  }

  lemma {:induction false} ProxyUninitKeeps(w: Service, i: nat)
    requires i <= w.num
    ensures var r := ProxyUninit(w, i);
            |r.table| == |w.table| && r.num == w.num
    decreases w.num - i
  {
    if i < w.num {
      ProxyUninitKeeps(DownAt(w, i), i + 1);
    }
  }

  lemma TabledKept(w: Service, r: Service)
    requires Tabled(w) && SameLinks(w, r)
    ensures Tabled(r)
  {
    forall j: nat
      ensures InUse(r, j) <==> InUse(w, j)
    {
    }
  }

  lemma LastRoundRuns(b: Service, next: seq<ServiceEvent>, r: Service)
    requires Tabled(b) && AllQuiet(b)
    requires var c := ProxyUninit(b, 0).(phase := Phase.Freeing(0));
             ServicePossible(c, next) && ServiceRun(c, next) == r
    ensures var m, es := b.(phase := DownFrom(b, 0, true)), DownSteps(b.num, 0, next);
            ServicePossible(m, es) && ServiceRun(m, es) == r
  {
    assert DownFrom(b, b.num, true) == Phase.Freeing(0);
    DownRuns(b, 0, true, next);
  }

  lemma AllFreedRuns(c: Service, n: nat)
    requires n == |c.table| > 0
    ensures ServicePossible(c.(phase := Phase.Freeing(0)), FreeSteps(n))
    ensures ServiceRun(c.(phase := Phase.Freeing(0)), FreeSteps(n)) == FreeAll(c, 0).(num := 0, phase := Done)
  {
    FreeRuns(c, 0);
  }

  /** From the mappings on, serv_uninit is a run. */
  lemma DownAndFreeRuns(b: Service, n: nat)
    requires Tabled(b) && AllQuiet(b) && n == |b.table|
    ensures var m, es := b.(phase := DownFrom(b, 0, true)), DownSteps(b.num, 0, FreeSteps(n));
            && ServicePossible(m, es)
            && ServiceRun(m, es) == FreeAll(ProxyUninit(b, 0), 0).(num := 0, phase := Done)
  {
    ProxyUninitKeeps(b, 0);
    AllFreedRuns(ProxyUninit(b, 0), n);
    LastRoundRuns(b, FreeSteps(n), FreeAll(ProxyUninit(b, 0), 0).(num := 0, phase := Done));
  }

  /** serv_uninit, when nothing interrupts it, is a run of the service. */
  lemma UninitIsRun(w: Service)
    requires Tabled(w) && AllQuiet(w) && ServiceEnabled(w, CloseDgram)
    ensures ServicePossible(w, UninitSteps(w)) && ServiceRun(w, UninitSteps(w)) == ServUninit(w)
  {
    var a := DgramDown(w);
    var b := EventUninit(a);
    SameTable(w, a);
    EventUninitFrame(a);
    SameLinksTrans(w, a, b);
    TabledKept(w, b);
    QuietKept(w, b);
    DownAndFreeRuns(b, |w.table|);
    var steps := DownSteps(w.num, 0, FreeSteps(|w.table|));
    var n := a.(phase := Unwatching(true));
    EventUninitAnyPhase(a, Unwatching(true));
    assert ServiceStep(n, CloseMonitor) == b.(phase := DownFrom(b, 0, true));
    RunCons(n, CloseMonitor, steps);
    RunCons(w, CloseDgram, [CloseMonitor] + steps);
  }

  /** serv_uninit from any consistent state that stays quiet gives everything back. */
  lemma UninitFinishes(w: Service)
    requires Consistent(w) && AllQuiet(w) && w.dgram == w.dgramLive
    requires forall s :: s in w.gone ==> CleanlyGone(s)
    ensures Finished(ServUninit(w)) && ServUninit(w).phase.Done?
  {
    var m := w.(phase := Failed);
    PhaseInv(w, m);
    QuietAnyPhase(w, Failed);
    UninitIsRun(m);
    ServiceRunGood(m, UninitSteps(m));
    ServUninitAnyPhase(w, Failed);
  }
}
