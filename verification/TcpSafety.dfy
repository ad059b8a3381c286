/** Safety of the connection table over every run. */
module TcpSafety {
  import opened Ledger
  import opened TcpTable

  // ----- Small facts about sets and logs -----

  function Below(n: nat): (r: set<nat>)
    ensures |r| == n
    ensures forall i: nat :: i in r <==> i < n
  {
    if n == 0 then {} else Below(n - 1) + {n - 1}
  }

  lemma SubsetCard<T>(a: set<T>, b: set<T>)
    requires a <= b
    ensures |a| <= |b|
  {
    assert b == a + (b - a);
  }

  lemma SessionSnoc(trace: seq<Callback>, c: Callback, u: UserId)
    ensures Session(trace + [c], u) ==
            var before := Session(trace, u);
            if c.user != u then before
            else
              match c
              case Acpt(_) => if before == Some(false) then Some(true) else None
              case Recv(_, data) =>
                if before == Some(true) && 1 <= |data| <= COMM_BUF_SIZE then Some(true) else None
              case Exit(_) => if before == Some(true) then Some(false) else None
  {
    assert (trace + [c])[..|trace + [c]| - 1] == trace;
  }

  lemma PairLog<T>(log: seq<Op<T>>, x: T)
    requires Held(log).Some? && x !in Held(log).value
    ensures Held(log + [Acquire(x)]) == Some(Held(log).value + {x})
    ensures Held(log + [Acquire(x), Release(x)]) == Held(log)
  {
    HeldSnoc(log, Acquire(x));
    HeldSnoc(log + [Acquire(x)], Release(x));
    assert log + [Acquire(x), Release(x)] == log + [Acquire(x)] + [Release(x)];
    assert Held(log).value + {x} - {x} == Held(log).value;
  }

  // ----- The gate and the slot scan -----

  /** When the capacity gate passes, the slot scan finds a free slot, with
      teardowns in progress or not: "user memory was exhausted" is never reported. */
  lemma Pigeonhole(s: Server)
    requires TableOk(s) && CountOk(s) && !InFlight(s.listener) && s.userNum < s.maxUserNum
    ensures IndexOf(s.slots, NULL, Cap(s)) < Cap(s)
  {
    if IndexOf(s.slots, NULL, Cap(s)) == Cap(s) {
      assert Below(Cap(s)) <= Occupied(s.slots);
      SubsetCard(Below(Cap(s)), Occupied(s.slots));
      assert false;
    }
  }

  // ----- One step keeps each part of the invariant -----

  lemma NewUserFds(heap: map<UserId, int>, u: UserId, fd: int)
    requires u !in heap && fd > 0
    ensures UserFds(heap[u := fd]) == UserFds(heap) + {fd}
    ensures forall v :: v in heap && heap[v] > 0 ==> heap[v] in UserFds(heap)
  {
    var r := heap[u := fd];
    assert r[u] == fd && forall v :: v in heap ==> r[v] == heap[v];
  }

  /** A client admitted: its user holds the one new descriptor. */
  lemma DescriptorsAdmitted(s: Server, r: Server, u: UserId, fd: int)
    requires DescriptorsOk(s) && u !in s.heap && fd > 0 && fd !in OpenFds(s.heap, s.listenFd)
    requires r.heap == s.heap[u := fd] && r.listenFd == s.listenFd && r.fdLog == s.fdLog + [Acquire(fd)]
    ensures DescriptorsOk(r)
  {
    PairLog(s.fdLog, fd);
    NewUserFds(s.heap, u, fd);
    assert OpenFds(r.heap, r.listenFd) == OpenFds(s.heap, s.listenFd) + {fd};
  }

  /** A client refused: its descriptor is closed at once. */
  lemma DescriptorsRefused(s: Server, r: Server, fd: int)
    requires DescriptorsOk(s) && fd !in OpenFds(s.heap, s.listenFd)
    requires r.heap == s.heap && r.listenFd == s.listenFd && r.fdLog == s.fdLog + [Acquire(fd), Release(fd)]
    ensures DescriptorsOk(r)
  {
    PairLog(s.fdLog, fd);
  }

  lemma DescriptorsStart(s: Server, e: Event)
    requires Shape(s) && DescriptorsOk(s) && Enabled(s, e) && e.AcceptStart?
    ensures DescriptorsOk(Step(s, e))
  {
    var r := Step(s, e);
    if r.listener.Started? {
      DescriptorsAdmitted(s, r, e.user, e.fd);
    } else {
      DescriptorsRefused(s, r, e.fd);
    }
  }

  lemma DescriptorsClosed(s: Server, u: UserId)
    requires Shape(s) && DescriptorsOk(s) && u in s.heap && s.heap[u] > 0
    ensures DescriptorsOk(CloseUser(s, u))
  {
    var r := CloseUser(s, u);
    HeldSnoc(s.fdLog, Release(s.heap[u]));
    assert r.heap[u] == -1;
    assert forall v :: v in s.heap && v != u ==> r.heap[v] == s.heap[v];
    assert UserFds(r.heap) == UserFds(s.heap) - {s.heap[u]};
    assert s.heap[u] in UserFds(s.heap);
    assert OpenFds(r.heap, r.listenFd) == OpenFds(s.heap, s.listenFd) - {s.heap[u]};
  }

  lemma DescriptorsFreed(s: Server, u: UserId)
    requires Shape(s) && DescriptorsOk(s) && u in s.heap && s.heap[u] <= 0
    ensures DescriptorsOk(s.(heap := s.heap - {u}))
  {
    var r := s.heap - {u};
    assert forall v :: v in r ==> v in s.heap && r[v] == s.heap[v];
    forall fd | fd in UserFds(s.heap)
      ensures fd in UserFds(r)
    {
      var v :| v in s.heap && s.heap[v] > 0 && s.heap[v] == fd;
      assert v in r;
    }
    assert UserFds(r) == UserFds(s.heap);
  }

  lemma StepDescriptors(s: Server, e: Event)
    requires Shape(s) && DescriptorsOk(s) && ThreadsOk(s) && Enabled(s, e)
    ensures DescriptorsOk(Step(s, e))
  {
    match e {
      case AcceptStart(_, _, _) => DescriptorsStart(s, e);
      case ListenFail =>
        HeldSnoc(s.fdLog, Release(s.listenFd));
        assert OpenFds(s.heap, -1) == OpenFds(s.heap, s.listenFd) - {s.listenFd};
      case End(u) => DescriptorsClosed(s, u);
      case FreeUser(u) => DescriptorsFreed(s, u);
      case _ =>
    }
  }

  lemma StepUsers(s: Server, e: Event)
    requires Shape(s) && UsersOk(s) && Enabled(s, e)
    ensures UsersOk(Step(s, e))
  {
    var r := Step(s, e);
    match e {
      case AcceptStart(fd, u, threadOk) =>
        PairLog(s.heapLog, u);
        assert r.listener.Started? ==> r.heap.Keys == s.heap.Keys + {u};
      case End(u) => assert r.heap.Keys == s.heap.Keys;
      case FreeUser(u) =>
        HeldSnoc(s.heapLog, Release(u));
        assert r.heap.Keys == s.heap.Keys - {u};
      case _ =>
    }
  }

  /** The table, the threads and the listen thread's position. */
  ghost predicate Core(s: Server) {
    TableOk(s) && ThreadsOk(s) && ListenerOk(s)
  }

  lemma CoreStart(s: Server, e: Event)
    requires Core(s) && Enabled(s, e) && e.AcceptStart?
    ensures Core(Step(s, e))
  {
    var r := Step(s, e);
    if r.listener.Started? {
      assert e.user !in s.slots;
      assert r.slots == s.slots;
      assert forall v :: v in s.heap ==> r.threads[v] == s.threads[v] && r.heap[v] == s.heap[v];
    }
  }

  lemma WithSlot(slots: seq<UserId>, i: nat, u: UserId)
    requires i < |slots| && slots[i] == NULL && u != NULL
    ensures forall v :: v != NULL ==> (v in slots[i := u] <==> v == u || v in slots)
    ensures Occupied(slots[i := u]) == Occupied(slots) + {i} && i !in Occupied(slots)
  {
    var after := slots[i := u];
    assert after[i] == u;
    forall v | v != NULL && v in slots
      ensures v in after
    {
      var k :| 0 <= k < |slots| && slots[k] == v;
      assert after[k] == v;
    }
  }

  lemma WithoutSlot(slots: seq<UserId>, i: nat)
    requires i < |slots| && slots[i] != NULL
    requires forall j, k :: 0 <= j < k < |slots| && slots[j] == slots[k] ==> slots[j] == NULL
    ensures forall v :: v != NULL ==> (v in slots[i := NULL] <==> v != slots[i] && v in slots)
    ensures Occupied(slots[i := NULL]) == Occupied(slots) - {i} && i in Occupied(slots)
  {
    var after := slots[i := NULL];
    forall v | v != NULL && v != slots[i] && v in slots
      ensures v in after
    {
      var k :| 0 <= k < |slots| && slots[k] == v;
      assert after[k] == v;
    }
  }

  lemma CorePublish(s: Server)
    requires Core(s) && Enabled(s, AcceptPublish)
    ensures Core(Step(s, AcceptPublish))
    ensures Step(s, AcceptPublish).slots == s.slots[s.listener.slot := s.listener.user]
    ensures s.listener.user != NULL && s.slots[s.listener.slot] == NULL
  {
    var u, i := s.listener.user, s.listener.slot;
    assert u !in s.slots;
    WithSlot(s.slots, i, u);
  }

  /** Taking a user in teardown out of its slot. */
  lemma CoreUnlisted(s: Server, i: nat)
    requires Core(s) && i < Cap(s) && s.slots[i] in s.threads && s.threads[s.slots[i]] == Clearing
    requires !Unpublished(s.listener, s.slots[i])
    ensures Core(s.(slots := s.slots[i := NULL], threads := s.threads[s.slots[i] := Dropping]))
  {
    assert s.slots[i] != NULL;
    WithoutSlot(s.slots, i);
  }

  lemma CoreClear(s: Server, u: UserId)
    requires Core(s) && Enabled(s, ClearSlot(u)) && Orderly(s, ClearSlot(u))
    ensures Core(Step(s, ClearSlot(u)))
    ensures var i := IndexOf(s.slots, u, Cap(s));
            i < Cap(s) && u != NULL && Step(s, ClearSlot(u)).slots == s.slots[i := NULL]
    ensures Step(s, ClearSlot(u)).threads[u] == Dropping
  {
    var i := IndexOf(s.slots, u, Cap(s));
    assert u in s.slots;
    assert i < Cap(s);
    CoreUnlisted(s, i);
  }

  lemma CoreEnd(s: Server, u: UserId)
    requires Core(s) && Enabled(s, End(u))
    ensures Core(Step(s, End(u)))
  {
  }

  lemma CoreExit(s: Server, u: UserId)
    requires Core(s) && Enabled(s, NotifyExit(u)) && Orderly(s, NotifyExit(u))
    ensures Core(Step(s, NotifyExit(u)))
  {
  }

  lemma CoreDrop(s: Server, u: UserId)
    requires Core(s) && Enabled(s, DropCount(u))
    ensures Core(Step(s, DropCount(u)))
  {
  }

  lemma CoreFree(s: Server, u: UserId)
    requires Core(s) && Enabled(s, FreeUser(u))
    ensures Core(Step(s, FreeUser(u)))
  {
  }

  lemma StepCore(s: Server, e: Event)
    requires Core(s) && Enabled(s, e) && Orderly(s, e)
    ensures Core(Step(s, e))
  {
    match e {
      case AcceptStart(fd, u, threadOk) => CoreStart(s, e);
      case AcceptPublish => CorePublish(s);
      case ClearSlot(u) => CoreClear(s, u);
      case End(u) => CoreEnd(s, u);
      case NotifyExit(u) => CoreExit(s, u);
      case DropCount(u) => CoreDrop(s, u);
      case FreeUser(u) => CoreFree(s, u);
      case _ =>
    }
  }

  /** Moving a thread between two positions other than the decrement. */
  lemma SameAtDrop(threads: map<UserId, Pc>, u: UserId, pc: Pc)
    requires u in threads ==> threads[u] != Dropping
    requires pc != Dropping
    ensures AtDrop(threads[u := pc]) == AtDrop(threads)
    ensures AtDrop(threads - {u}) == AtDrop(threads)
  {
  }

  lemma CountClear(s: Server, u: UserId)
    requires Core(s) && CountOk(s) && Enabled(s, ClearSlot(u)) && Orderly(s, ClearSlot(u))
    ensures CountOk(Step(s, ClearSlot(u)))
  {
    var r := Step(s, ClearSlot(u));
    CoreClear(s, u);
    WithoutSlot(s.slots, IndexOf(s.slots, u, Cap(s)));
    assert AtDrop(r.threads) == AtDrop(s.threads) + {u} && u !in AtDrop(s.threads);
  }

  lemma CountDrop(s: Server, u: UserId)
    requires Core(s) && CountOk(s) && Enabled(s, DropCount(u)) && Orderly(s, DropCount(u))
    ensures CountOk(Step(s, DropCount(u)))
  {
    var r := Step(s, DropCount(u));
    assert AtDrop(r.threads) == AtDrop(s.threads) - {u} && u in AtDrop(s.threads);
    assert s.userNum > 0;
  }

  lemma CountPublish(s: Server)
    requires Core(s) && CountOk(s) && Enabled(s, AcceptPublish)
    ensures CountOk(Step(s, AcceptPublish))
  {
    CorePublish(s);
    WithSlot(s.slots, s.listener.slot, s.listener.user);
  }

  lemma CountStart(s: Server, e: Event)
    requires Core(s) && CountOk(s) && Enabled(s, e) && e.AcceptStart?
    ensures CountOk(Step(s, e))
  {
    SameAtDrop(s.threads, e.user, Receiving);
  }

  lemma StepCount(s: Server, e: Event)
    requires Core(s) && CountOk(s) && Enabled(s, e) && Orderly(s, e)
    ensures CountOk(Step(s, e))
  {
    match e {
      case AcceptStart(_, _, _) => CountStart(s, e);
      case AcceptPublish => CountPublish(s);
      case End(u) => SameAtDrop(s.threads, u, Notifying);
      case NotifyExit(u) => SameAtDrop(s.threads, u, Clearing);
      case ClearSlot(u) => CountClear(s, u);
      case DropCount(u) => CountDrop(s, u);
      case FreeUser(u) => SameAtDrop(s.threads, u, Freeing);
      case _ =>
    }
  }

  /** Whom the application takes for connected after a step. */
  lemma ConnectedStep(s: Server, e: Event, v: UserId)
    requires Core(s) && Enabled(s, e) && Orderly(s, e)
    ensures var r := Step(s, e);
            Connected(r.threads, r.listener, v) ==
            match e
            case AcceptNotify => v == s.listener.user || Connected(s.threads, s.listener, v)
            case NotifyExit(u) => v != u && Connected(s.threads, s.listener, v)
            case _ => Connected(s.threads, s.listener, v)
  {
    assert NULL !in s.threads;
  }

  /** Whom a callback is for. */
  lemma CallbackFor(s: Server, e: Event)
    requires Core(s) && Enabled(s, e) && Orderly(s, e)
    ensures e.AcceptNotify? ==> !Connected(s.threads, s.listener, s.listener.user)
    ensures e.NotifyExit? || e.Data? ==> Connected(s.threads, s.listener, e.user)
  {
  }

  lemma TraceStep(s: Server, e: Event)
    requires Shape(s) && Enabled(s, e)
    ensures Step(s, e).trace ==
            match e
            case AcceptNotify => s.trace + [Acpt(s.listener.user)]
            case Data(u, data) => s.trace + [Recv(u, data)]
            case NotifyExit(u) => s.trace + [Exit(u)]
            case _ => s.trace
  {
  }

  lemma SessionStep(s: Server, e: Event, v: UserId)
    requires Core(s) && Enabled(s, e) && Orderly(s, e)
    requires Session(s.trace, v) == Some(Connected(s.threads, s.listener, v))
    ensures var r := Step(s, e);
            Session(r.trace, v) == Some(Connected(r.threads, r.listener, v))
  {
    ConnectedStep(s, e, v);
    CallbackFor(s, e);
    TraceStep(s, e);
    match e {
      case AcceptNotify => SessionSnoc(s.trace, Acpt(s.listener.user), v);
      case Data(u, data) => SessionSnoc(s.trace, Recv(u, data), v);
      case NotifyExit(u) => SessionSnoc(s.trace, Exit(u), v);
      case _ =>
    }
  }

  lemma StepSessions(s: Server, e: Event)
    requires Core(s) && SessionsOk(s) && Enabled(s, e) && Orderly(s, e)
    ensures SessionsOk(Step(s, e))
  {
    var r := Step(s, e);
    forall v
      ensures Session(r.trace, v) == Some(Connected(r.threads, r.listener, v))
    {
      SessionStep(s, e, v);
    }
  }

  /** One step, exactly: from a good state, a step leads to a good state just when
      it respects the two threads' ordering. */
  lemma StepExact(s: Server, e: Event)
    requires Inv(s) && Enabled(s, e)
    ensures Inv(Step(s, e)) <==> Orderly(s, e)
  {
    if Orderly(s, e) {
      StepCore(s, e);
      StepCount(s, e);
      StepDescriptors(s, e);
      StepUsers(s, e);
      StepSessions(s, e);
    } else {
      StepDisorderly(s, e);
    }
  }

  /** A callback for a user the application has not been told of. */
  lemma StrangeCallback(s: Server, c: Callback)
    requires SessionsOk(s) && !c.Acpt? && !Connected(s.threads, s.listener, c.user)
    ensures Session(s.trace + [c], c.user).None?
  {
    SessionSnoc(s.trace, c, c.user);
    assert Session(s.trace, c.user) == Some(Connected(s.threads, s.listener, c.user));
  }

  lemma DisorderlyDrop(s: Server, u: UserId)
    requires Shape(s) && CountOk(s) && Enabled(s, DropCount(u)) && !Orderly(s, DropCount(u))
    ensures !CountOk(Step(s, DropCount(u)))
  {
    var r := Step(s, DropCount(u));
    assert AtDrop(r.threads) == AtDrop(s.threads) - {u} && u in AtDrop(s.threads);
  }

  lemma DisorderlyClear(s: Server, u: UserId)
    requires TableOk(s) && ThreadsOk(s) && ListenerOk(s)
    requires Enabled(s, ClearSlot(u)) && !Orderly(s, ClearSlot(u))
    ensures !ListenerOk(Step(s, ClearSlot(u)))
  {
    assert u !in s.slots;
    assert Step(s, ClearSlot(u)).threads[u] == Freeing;
  }

  lemma StepDisorderly(s: Server, e: Event)
    requires Inv(s) && Enabled(s, e) && !Orderly(s, e)
    ensures !Inv(Step(s, e))
  {
    var r := Step(s, e);
    match e {
      case Data(u, data) =>
        StrangeCallback(s, Recv(u, data));
        assert Session(r.trace, u).None?;
      case NotifyExit(u) =>
        StrangeCallback(s, Exit(u));
        assert Session(r.trace, u).None?;
      case ClearSlot(u) => DisorderlyClear(s, u);
      case DropCount(u) => DisorderlyDrop(s, u);
    }
  }

  // ----- Runs -----

  lemma InitInv(requested: int, fd: int)
    requires fd > 0
    ensures Inv(Init(requested, fd)) && !InFlight(Init(requested, fd).listener)
    ensures var limit := Init(requested, fd).maxUserNum;
            && (1 <= requested <= 32 ==> limit == requested)
            && (requested == 0 || requested > 32 ==> limit == 32)
            && (requested < 0 ==> limit < 0)
  {
    var s := Init(requested, fd);
    HeldSnoc([], Acquire(fd));
    assert [] + [Acquire(fd)] == s.fdLog;
    assert OpenFds(s.heap, fd) == {fd};
    assert Occupied(s.slots) == {} && AtDrop(s.threads) == {};
    assert s.heap.Keys == {};
  }

  /** Over every run of the split machine: the invariant holds at every state
      exactly when every step respected the two threads' ordering. */
  lemma {:induction false} RunExact(s: Server, es: seq<Event>)
    requires Inv(s) && Possible(s, es)
    ensures AlwaysInv(s, es) <==> AllOrderly(s, es)
    decreases |es|
  {
    if es != [] {
      StepExact(s, es[0]);
      if Orderly(s, es[0]) {
        RunExact(Step(s, es[0]), es[1..]);
      } else {
        assert !AlwaysInv(Step(s, es[0]), es[1..]);
      }
    }
  }

  lemma {:induction false} RunInv(s: Server, es: seq<Event>)
    requires Inv(s) && Possible(s, es) && AllOrderly(s, es)
    ensures Inv(Run(s, es))
    decreases |es|
  {
    if es != [] {
      StepExact(s, es[0]);
      RunInv(Step(s, es[0]), es[1..]);
    }
  }

  // ----- Accepting a client as one step -----

  lemma NotifyInv(a: Server)
    requires Inv(a) && a.listener.Started?
    ensures Inv(Step(a, AcceptNotify)) && Step(a, AcceptNotify).listener.Notified?
  {
    StepExact(a, AcceptNotify);
  }

  lemma PublishInv(b: Server)
    requires Inv(b) && b.listener.Notified?
    ensures Inv(Step(b, AcceptPublish)) && Step(b, AcceptPublish).listener.Published?
  {
    StepExact(b, AcceptPublish);
  }

  lemma CountedInv(c: Server)
    requires Inv(c) && c.listener.Published?
    ensures AtomicInv(Step(c, AcceptCount))
  {
    StepExact(c, AcceptCount);
  }

  /** The rest of an accept. */
  lemma FinishInv(a: Server)
    requires Inv(a) && a.listener.Started?
    ensures AtomicInv(Finish(a))
  {
    NotifyInv(a);
    PublishInv(Step(a, AcceptNotify));
    CountedInv(Step(Step(a, AcceptNotify), AcceptPublish));
  }

  /** Nothing but a started accept puts one in flight. */
  lemma InFlightAfter(s: Server, e: Event)
    requires Shape(s) && AtomicEnabled(s, e) && !InFlight(s.listener)
    ensures InFlight(Step(s, e).listener) ==> e.AcceptStart? && Step(s, e).listener.Started?
    ensures Orderly(s, e)
  {
  }

  lemma AtomicStepInv(s: Server, e: Event)
    requires AtomicInv(s) && AtomicEnabled(s, e)
    ensures AtomicInv(AtomicStep(s, e))
  {
    InFlightAfter(s, e);
    StepExact(s, e);
    if InFlight(Step(s, e).listener) {
      FinishInv(Step(s, e));
    }
  }

  /** With acceptance as one step, every interleaving of accepts and split
      teardowns, from any requested limit, is safe; no schedule is excluded. */
  lemma {:induction false} AtomicRunInv(s: Server, es: seq<Event>)
    requires AtomicInv(s) && AtomicPossible(s, es)
    ensures AtomicInv(AtomicRun(s, es))
    decreases |es|
  {
    if es != [] {
      AtomicStepInv(s, es[0]);
      AtomicRunInv(AtomicStep(s, es[0]), es[1..]);
    }
  }

  /** With acceptance as one step, a receive thread in teardown always finds its slot. */
  lemma TeardownFindsSlot(s: Server, u: UserId)
    requires AtomicInv(s) && Enabled(s, ClearSlot(u))
    ensures IndexOf(s.slots, u, Cap(s)) < Cap(s)
  {
    CoreClear(s, u);
  }

  /** And the counter it decrements is never 0. */
  lemma TeardownCountPositive(s: Server, u: UserId)
    requires AtomicInv(s) && Enabled(s, DropCount(u))
    ensures s.userNum > 0
  {
    assert u in AtDrop(s.threads);
  }

  /** The invariant's reading for a run from initialisation. */
  lemma AtomicRunFacts(requested: int, fd: int, es: seq<Event>)
    requires fd > 0 && AtomicPossible(Init(requested, fd), es)
    ensures var s := AtomicRun(Init(requested, fd), es);
            && s.userNum == |Occupied(s.slots)| + |AtDrop(s.threads)|
            && |Occupied(s.slots)| <= s.userNum <= Cap(s) <= 32
            && (forall i, j :: 0 <= i < j < |s.slots| && s.slots[i] == s.slots[j]
                  ==> s.slots[i] == NULL)
            && (forall u :: u in s.slots && u != NULL ==> u in s.heap)
            && (forall u :: u in s.heap ==>
                  && u in s.threads
                  && (u in s.slots || s.threads[u] in {Dropping, Freeing})
                  && (s.heap[u] > 0 ==> u in s.slots))
    // each descriptor handed out has been closed, once, unless a listed user or
    // the listen socket still holds it
    ensures var s := AtomicRun(Init(requested, fd), es);
            forall x :: multiset(s.fdLog)[Acquire(x)] ==
                        multiset(s.fdLog)[Release(x)] + if x in OpenFds(s.heap, s.listenFd) then 1 else 0
    // each user allocated has been freed, once, unless it is listed or in teardown
    ensures var s := AtomicRun(Init(requested, fd), es);
            forall u :: multiset(s.heapLog)[Acquire(u)] ==
                        multiset(s.heapLog)[Release(u)] + if u in s.heap then 1 else 0
    ensures var s := AtomicRun(Init(requested, fd), es);
            forall u :: Session(s.trace, u).Some?
  {
    InitInv(requested, fd);
    AtomicRunInv(Init(requested, fd), es);
    var s := AtomicRun(Init(requested, fd), es);
    forall x
      ensures multiset(s.fdLog)[Acquire(x)] ==
              multiset(s.fdLog)[Release(x)] + if x in OpenFds(s.heap, s.listenFd) then 1 else 0
    {
      HeldCounts(s.fdLog, x);
    }
    forall u
      ensures multiset(s.heapLog)[Acquire(u)] ==
              multiset(s.heapLog)[Release(u)] + if u in s.heap then 1 else 0
    {
      HeldCounts(s.heapLog, u);
    }
  }

  // ----- Exit callbacks -----

  lemma ExitsSnoc(trace: seq<Callback>, c: Callback, u: UserId)
    ensures Exits(trace + [c], u) == Exits(trace, u) + if c == Exit(u) then 1 else 0
  {
    assert (trace + [c])[..|trace + [c]| - 1] == trace;
  }

  function PendingExit(threads: map<UserId, Pc>, u: UserId): nat {
    if u in threads && threads[u] == Notifying then 1 else 0
  }

  lemma ExitsTrace(s: Server, e: Event, u: UserId)
    requires Shape(s) && Enabled(s, e)
    ensures Exits(Step(s, e).trace, u) == Exits(s.trace, u) + if e == NotifyExit(u) then 1 else 0
  {
    match e {
      case AcceptNotify => ExitsSnoc(s.trace, Acpt(s.listener.user), u);
      case Data(v, data) => ExitsSnoc(s.trace, Recv(v, data), u);
      case NotifyExit(v) => ExitsSnoc(s.trace, Exit(v), u);
      case _ =>
    }
  }

  lemma PendingStep(s: Server, e: Event, u: UserId)
    requires Shape(s) && s.threads.Keys == s.heap.Keys && Enabled(s, e)
    ensures PendingExit(Step(s, e).threads, u) + (if e == NotifyExit(u) then 1 else 0) ==
            PendingExit(s.threads, u) + if e == End(u) then 1 else 0
  {
  }

  /** The exit callback is made once for each end of stream a receive thread saw,
      and for nothing else; at most the thread's very next step is outstanding. */
  lemma {:induction false} ExitsMatchEnds(s: Server, es: seq<Event>, u: UserId)
    requires Inv(s) && Possible(s, es) && AllOrderly(s, es)
    ensures Exits(Run(s, es).trace, u) + PendingExit(Run(s, es).threads, u) ==
            Exits(s.trace, u) + PendingExit(s.threads, u) + Ends(es, u)
    decreases |es|
  {
    if es != [] {
      StepExact(s, es[0]);
      ExitsTrace(s, es[0], u);
      PendingStep(s, es[0], u);
      ExitsMatchEnds(Step(s, es[0]), es[1..], u);
    }
  }

  // ----- Runs of the atomic machine are runs of the split one -----

  lemma RunCons(s: Server, e: Event, es: seq<Event>)
    requires Shape(s) && Enabled(s, e) && Possible(Step(s, e), es)
    ensures Possible(s, [e] + es) && Run(s, [e] + es) == Run(Step(s, e), es)
    ensures AllOrderly(s, [e] + es) <==> Orderly(s, e) && AllOrderly(Step(s, e), es)
  {
    assert ([e] + es)[1..] == es;
  }

  lemma OneEvent(s: Server, e: Event)
    requires Shape(s) && Enabled(s, e)
    ensures Possible(s, [e]) && Run(s, [e]) == Step(s, e) && (AllOrderly(s, [e]) <==> Orderly(s, e))
  {
    assert [e] + [] == [e];
    RunCons(s, e, []);
  }

  /** The split steps of one atomic step, and what follows. */
  function Expanded(s: Server, e: Event, rest: seq<Event>): (es: seq<Event>)
    requires Shape(s) && AtomicEnabled(s, e)
  {
    if e.AcceptStart? && Step(s, e).listener.Started?
    then [e] + ([AcceptNotify] + ([AcceptPublish] + ([AcceptCount] + rest)))
    else [e] + rest
  }

  ghost function Expand(s: Server, es: seq<Event>): (r: seq<Event>)
    requires Shape(s) && AtomicPossible(s, es)
    decreases |es|
  {
    if es == [] then [] else Expanded(s, es[0], Expand(AtomicStep(s, es[0]), es[1..]))
  }

  lemma FinishRuns(a: Server, rest: seq<Event>)
    requires Inv(a) && a.listener.Started?
    requires Possible(Finish(a), rest) && AllOrderly(Finish(a), rest)
    ensures var es := [AcceptNotify] + ([AcceptPublish] + ([AcceptCount] + rest));
            Possible(a, es) && AllOrderly(a, es) && Run(a, es) == Run(Finish(a), rest)
  {
    var b := Step(a, AcceptNotify);
    var c := Step(b, AcceptPublish);
    RunCons(c, AcceptCount, rest);
    RunCons(b, AcceptPublish, [AcceptCount] + rest);
    RunCons(a, AcceptNotify, [AcceptPublish] + ([AcceptCount] + rest));
  }

  lemma ExpandedRuns(s: Server, e: Event, rest: seq<Event>)
    requires AtomicInv(s) && AtomicEnabled(s, e)
    requires Possible(AtomicStep(s, e), rest) && AllOrderly(AtomicStep(s, e), rest)
    ensures var es := Expanded(s, e, rest);
            Possible(s, es) && AllOrderly(s, es) && Run(s, es) == Run(AtomicStep(s, e), rest)
  {
    InFlightAfter(s, e);
    StepExact(s, e);
    if InFlight(Step(s, e).listener) {
      ExpandedAccept(s, e, rest);
    } else {
      ExpandedOther(s, e, rest);
    }
  }

  lemma ExpandedAccept(s: Server, e: Event, rest: seq<Event>)
    requires Shape(s) && AtomicEnabled(s, e) && Orderly(s, e) && e.AcceptStart?
    requires Inv(Step(s, e)) && Step(s, e).listener.Started?
    requires Possible(AtomicStep(s, e), rest) && AllOrderly(AtomicStep(s, e), rest)
    ensures var es := Expanded(s, e, rest);
            Possible(s, es) && AllOrderly(s, es) && Run(s, es) == Run(AtomicStep(s, e), rest)
  {
    FinishRuns(Step(s, e), rest);
    RunCons(s, e, [AcceptNotify] + ([AcceptPublish] + ([AcceptCount] + rest)));
  }

  lemma ExpandedOther(s: Server, e: Event, rest: seq<Event>)
    requires Shape(s) && AtomicEnabled(s, e) && Orderly(s, e) && !InFlight(Step(s, e).listener)
    requires Possible(AtomicStep(s, e), rest) && AllOrderly(AtomicStep(s, e), rest)
    ensures var es := Expanded(s, e, rest);
            Possible(s, es) && AllOrderly(s, es) && Run(s, es) == Run(AtomicStep(s, e), rest)
  {
    RunCons(s, e, rest);
  }

  lemma EndsCons(e: Event, rest: seq<Event>, u: UserId)
    ensures Ends([e] + rest, u) == (if e == End(u) then 1 else 0) + Ends(rest, u)
  {
    assert ([e] + rest)[1..] == rest;
  }

  lemma EndsExpanded(s: Server, e: Event, rest: seq<Event>, u: UserId)
    requires Shape(s) && AtomicEnabled(s, e)
    ensures Ends(Expanded(s, e, rest), u) == (if e == End(u) then 1 else 0) + Ends(rest, u)
  {
    EndsCons(AcceptCount, rest, u);
    EndsCons(AcceptPublish, [AcceptCount] + rest, u);
    EndsCons(AcceptNotify, [AcceptPublish] + ([AcceptCount] + rest), u);
    EndsCons(e, [AcceptNotify] + ([AcceptPublish] + ([AcceptCount] + rest)), u);
    EndsCons(e, rest, u);
  }

  /** Every run of the atomic machine is an orderly run of the split machine, with
      the same ends of streams. */
  lemma {:induction false} AtomicRunIsRun(s: Server, es: seq<Event>, u: UserId)
    requires AtomicInv(s) && AtomicPossible(s, es)
    ensures Possible(s, Expand(s, es)) && AllOrderly(s, Expand(s, es))
    ensures Run(s, Expand(s, es)) == AtomicRun(s, es)
    ensures Ends(Expand(s, es), u) == Ends(es, u)
    decreases |es|
  {
    if es != [] {
      var m := AtomicStep(s, es[0]);
      AtomicStepInv(s, es[0]);
      AtomicRunIsRun(m, es[1..], u);
      ExpandedRuns(s, es[0], Expand(m, es[1..]));
      EndsExpanded(s, es[0], Expand(m, es[1..]), u);
    }
  }

  /** One exit callback for each end of stream, with acceptance as one step: over
      every run, no schedule excluded. */
  lemma AtomicExitsMatchEnds(s: Server, es: seq<Event>, u: UserId)
    requires AtomicInv(s) && AtomicPossible(s, es)
    ensures Exits(AtomicRun(s, es).trace, u) + PendingExit(AtomicRun(s, es).threads, u) ==
            Exits(s.trace, u) + PendingExit(s.threads, u) + Ends(es, u)
  {
    AtomicRunIsRun(s, es, u);
    ExitsMatchEnds(s, Expand(s, es), u);
  }
}
