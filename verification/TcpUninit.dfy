/** Taking the server down, broadcasting, and the schedules that go wrong. */
module TcpUninit {
  import opened Ledger
  import opened TcpTable
  import opened TcpSafety

  // ----- Taking the server down -----

  function ListedOpen(slots: seq<UserId>, heap: map<UserId, int>): (r: set<UserId>) {
    set u | u in slots && u != NULL && u in heap && heap[u] > 0
  }

  ghost predicate Swept(s: Server, i: nat) {
    && TableOk(s) && DescriptorsOk(s) && UsersOk(s)
    && (forall k :: 0 <= k < i && k < |s.slots| ==> s.slots[k] == NULL)
  }

  /** What one call of the disconnect routine does to a listed user. */
  lemma DisconnectEffect(s: Server, i: nat)
    requires TableOk(s) && i < Cap(s) && s.slots[i] != NULL
    ensures var u := s.slots[i];
            u in s.heap &&
            Disconnect(s, u) == s.(
              slots := s.slots[i := NULL],
              userNum := Decremented(s.userNum),
              heap := s.heap - {u},
              threads := if s.heap[u] > 0 then s.threads - {u} else s.threads,
              fdLog := if s.heap[u] > 0 then s.fdLog + [Release(s.heap[u])] else s.fdLog,
              heapLog := s.heapLog + [Release(u)])
  {
    var u := s.slots[i];
    assert u in s.slots;
    assert IndexOf(s.slots, u, Cap(s)) == i;
    assert s.heap[u := -1] - {u} == s.heap - {u};
  }

  lemma DisconnectOne(s: Server, i: nat)
    requires Swept(s, i) && i < Cap(s) && s.slots[i] != NULL
    ensures var u, t := s.slots[i], Disconnect(s, s.slots[i]);
            && u in s.heap && t.heap == s.heap - {u} && t.heapLog == s.heapLog + [Release(u)]
            && t.fdLog == (if s.heap[u] > 0 then s.fdLog + [Release(s.heap[u])] else s.fdLog)
    ensures Swept(Disconnect(s, s.slots[i]), i + 1)
  {
    var u := s.slots[i];
    DisconnectEffect(s, i);
    WithoutSlot(s.slots, i);
    var c := if s.heap[u] > 0 then CloseUser(s, u) else s;
    if s.heap[u] > 0 {
      DescriptorsClosed(s, u);
    }
    DescriptorsFreed(c, u);
    assert c.heap - {u} == s.heap - {u};
    HeldSnoc(s.heapLog, Release(u));
    assert (s.heap - {u}).Keys == s.heap.Keys - {u};
    var r := Disconnect(s, u);
    assert TableOk(r);
    assert DescriptorsOk(r) && UsersOk(r);
  }

  function ListedIn(slots: seq<UserId>): (r: set<UserId>) {
    set u | u in slots && u != NULL
  }

  lemma SweptSets(s: Server, i: nat)
    requires TableOk(s) && i < Cap(s) && s.slots[i] != NULL
    ensures var u := s.slots[i];
            && u in s.heap
            && ListedIn(s.slots[i := NULL]) + {u} == ListedIn(s.slots)
            && ListedOpen(s.slots[i := NULL], s.heap - {u}) + (if s.heap[u] > 0 then {u} else {})
               == ListedOpen(s.slots, s.heap)
  {
    WithoutSlot(s.slots, i);
    assert s.slots[i] in s.slots;
  }

  lemma SweepStep(s: Server, i: nat)
    requires Swept(s, i) && i < Cap(s) && s.slots[i] != NULL && s.userNum == 0
    ensures var t := Disconnect(s, s.slots[i]);
            && Swept(t, i + 1) && t.userNum == 0
            && t.heap - ListedIn(t.slots) == s.heap - ListedIn(s.slots)
            && t.threads - ListedOpen(t.slots, t.heap) == s.threads - ListedOpen(s.slots, s.heap)
            && t.trace == s.trace && t.listener == s.listener && t.listenFd == s.listenFd
            && t.running == s.running
  {
    DisconnectEffect(s, i);
    DisconnectOne(s, i);
    SweptSets(s, i);
  }

  lemma NothingListed(s: Server)
    requires Swept(s, Cap(s))
    ensures s.heap - ListedIn(s.slots) == s.heap
    ensures s.threads - ListedOpen(s.slots, s.heap) == s.threads
  {
    assert ListedIn(s.slots) == {} && ListedOpen(s.slots, s.heap) == {};
  }

  lemma {:induction false} SweepAll(s: Server, i: nat)
    requires Swept(s, i) && i <= Cap(s) && s.userNum == 0
    ensures var r := Sweep(s, i);
            && Swept(r, Cap(s)) && r.userNum == 0
            && r.heap == s.heap - ListedIn(s.slots)
            && r.threads == s.threads - ListedOpen(s.slots, s.heap)
            && r.trace == s.trace && r.listener == s.listener && r.listenFd == s.listenFd
            && r.running == s.running
    decreases Cap(s) - i
  {
    if i == Cap(s) {
      NothingListed(s);
    } else if s.slots[i] == NULL {
      SweepAll(s, i + 1);
    } else {
      SweepStep(s, i);
      SweepAll(Disconnect(s, s.slots[i]), i + 1);
    }
  }

  lemma QuietUsers(s: Server, w: Server)
    requires Inv(s) && Quiet(s)
    requires w.heap == s.heap - ListedIn(s.slots)
    requires w.threads == s.threads - ListedOpen(s.slots, s.heap)
    ensures UserFds(w.heap) == {}
    ensures w.threads.Keys == w.heap.Keys
    ensures forall u :: u in w.threads ==> w.threads[u] == Freeing
  {
    forall u | u in s.heap
      ensures u in ListedIn(s.slots) <==> s.threads[u] == Receiving
      ensures u in ListedIn(s.slots) <==> u in ListedOpen(s.slots, s.heap)
    {
    }
    assert forall u :: u in w.heap ==> w.heap[u] == s.heap[u] && s.threads[u] == Freeing;
  }

  lemma ListenClosed(w: Server)
    requires DescriptorsOk(w)
    ensures w.listenFd > 0 ==> Held(w.fdLog + [Release(w.listenFd)]) == Some(UserFds(w.heap))
    ensures w.listenFd <= 0 ==> Held(w.fdLog) == Some(UserFds(w.heap))
  {
    HeldSnoc(w.fdLog, Release(w.listenFd));
    var fds := OpenFds(w.heap, w.listenFd);
    assert UserFds(w.heap) == if w.listenFd > 0 then fds - {w.listenFd} else fds;
  }

  lemma UninitSwept(s: Server) returns (w: Server)
    requires TableOk(s) && DescriptorsOk(s) && UsersOk(s)
    ensures Swept(w, Cap(w)) && w.userNum == 0
    ensures w.heap == s.heap - ListedIn(s.slots)
    ensures w.threads == s.threads - ListedOpen(s.slots, s.heap)
    ensures var r := Uninit(s);
            && r.slots == w.slots && r.userNum == 0 && r.listenFd <= 0
            && r.heap == w.heap && r.threads == w.threads && r.trace == s.trace
            && r.heapLog == w.heapLog && !r.running
            && r.listener == (if InFlight(s.listener) then s.listener else Stopped)
            && Held(r.fdLog) == Some(UserFds(w.heap))
  {
    var t := s.(running := false, userNum := 0);
    SweepAll(t, 0);
    w := Sweep(t, 0);
    ListenClosed(w);
  }

  /** Taking the server down empties the table, leaves the counter at 0, makes no
      callback and, unless an accept is in flight, ends the listen thread. It leaves nothing dangling exactly when no receive thread is in
      teardown before its own free and no accept is in flight; then every
      descriptor is closed. */
  lemma UninitExact(s: Server)
    requires Inv(s)
    ensures var r := Uninit(s);
            && (forall i :: 0 <= i < |r.slots| ==> r.slots[i] == NULL)
            && r.userNum == 0 && r.listenFd <= 0
            && r.trace == s.trace && !r.running
            && (!InFlight(s.listener) ==> r.listener == Stopped)
            && Held(r.heapLog) == Some(r.heap.Keys)
    ensures NothingDangles(Uninit(s)) <==> Quiet(s)
    ensures Quiet(s) ==> Held(Uninit(s).fdLog) == Some({})
  {
    var w := UninitSwept(s);
    if Quiet(s) {
      QuietUsers(s, w);
    } else if !InFlight(s.listener) {
      var u :| u in s.threads && !(s.threads[u] in {Receiving, Freeing});
      StillRunning(s, w, u);
    }
  }

  lemma StillRunning(s: Server, w: Server, u: UserId)
    requires ThreadsOk(s) && w.threads == s.threads - ListedOpen(s.slots, s.heap)
    requires u in s.threads && s.threads[u] != Receiving
    ensures u in w.threads && w.threads[u] == s.threads[u]
  {
  }

  /** Taking the server down between a thread's close and its exit callback leaves
      that thread with a freed user and a freed server. */
  lemma EarlyUninitDangles(s: Server, u: UserId)
    requires AtomicInv(s) && Enabled(s, End(u))
    ensures !NothingDangles(Uninit(AtomicStep(s, End(u))))
  {
    AtomicStepInv(s, End(u));
    UninitExact(AtomicStep(s, End(u)));
    assert AtomicStep(s, End(u)).threads[u] == Notifying;
  }

  /** A whole life of a server, from initialisation to a quiet uninit: every
      descriptor is closed as often as it was handed out, and every user is freed
      as often as it was allocated but for those whose own thread frees them next. */
  lemma LifeConserves(requested: int, fd: int, es: seq<Event>)
    requires fd > 0 && AtomicPossible(Init(requested, fd), es) && Quiet(AtomicRun(Init(requested, fd), es))
    ensures var r := Uninit(AtomicRun(Init(requested, fd), es));
            && NothingDangles(r)
            && (forall x :: multiset(r.fdLog)[Acquire(x)] == multiset(r.fdLog)[Release(x)])
            && (forall u :: multiset(r.heapLog)[Acquire(u)] ==
                            multiset(r.heapLog)[Release(u)] + if u in r.threads then 1 else 0)
  {
    InitInv(requested, fd);
    AtomicRunInv(Init(requested, fd), es);
    var s := AtomicRun(Init(requested, fd), es);
    var r := Uninit(s);
    UninitExact(s);
    forall x
      ensures multiset(r.fdLog)[Acquire(x)] == multiset(r.fdLog)[Release(x)]
    {
      HeldCounts(r.fdLog, x);
    }
    forall u
      ensures multiset(r.heapLog)[Acquire(u)] == multiset(r.heapLog)[Release(u)] + if u in r.threads then 1 else 0
    {
      HeldCounts(r.heapLog, u);
    }
  }

  /** Nothing of a server that was quiet when taken down can call back: all that can
      still happen is that a receive thread frees its own user. */
  lemma OnlyFreesLeft(s: Server, e: Event)
    requires NothingDangles(s) && Enabled(s, e)
    ensures e.FreeUser?
  {
  }

  lemma QuietUninitEnds(s: Server, e: Event)
    requires Inv(s) && Quiet(s) && Enabled(Uninit(s), e)
    ensures e.FreeUser?
  {
    UninitExact(s);
    OnlyFreesLeft(Uninit(s), e);
  }

  // ----- The listen thread's end -----

  /** A listen that fails closes the socket and ends the thread. */
  lemma ListenFailEnds(s: Server)
    requires DescriptorsOk(s) && Shape(s) && Enabled(s, ListenFail)
    ensures var r := Step(s, ListenFail);
            && r.listener == Stopped && r.listenFd < 0
            && Held(r.fdLog).Some? && s.listenFd !in Held(r.fdLog).value
  {
    HeldSnoc(s.fdLog, Release(s.listenFd));
  }

  lemma AcceptFailEnds(s: Server)
    requires Shape(s) && Enabled(s, AcceptFail)
    ensures var r := Step(s, AcceptFail); r.listener == Stopped && !r.running
  {
  }

  predicate Listens(e: Event) {
    e.ListenOk? || e.ListenFail? || e.AcceptFail? || e.AcceptStart?
    || e.AcceptNotify? || e.AcceptPublish? || e.AcceptCount?
  }

  /** Once the listen thread has ended nobody is accepted any more. */
  lemma {:induction false} StoppedForGood(s: Server, es: seq<Event>)
    requires Shape(s) && s.listener == Stopped && Possible(s, es)
    ensures Run(s, es).listener == Stopped && Run(s, es).userNum <= s.userNum
    ensures forall e :: e in es ==> !Listens(e)
    decreases |es|
  {
    if es != [] {
      StoppedForGood(Step(s, es[0]), es[1..]);
      assert es == [es[0]] + es[1..];
    }
  }

  // ----- Broadcast -----

  predicate OpenSlot(slots: seq<UserId>, heap: map<UserId, int>, m: nat)
    requires m < |slots|
  {
    slots[m] != NULL && slots[m] in heap && heap[slots[m]] > 0
  }

  /** The slots, from i on, whose users have an open descriptor, in slot order. */
  function OpenSlots(slots: seq<UserId>, heap: map<UserId, int>, n: nat, i: nat): (at: seq<nat>)
    requires i <= n <= |slots|
    ensures forall k :: 0 <= k < |at| ==> i <= at[k] < n && OpenSlot(slots, heap, at[k])
    ensures forall j, k :: 0 <= j < k < |at| ==> at[j] < at[k]
    decreases n - i
  {
    if i == n then []
    else (if OpenSlot(slots, heap, i) then [i] else []) + OpenSlots(slots, heap, n, i + 1)
  }

  lemma {:induction false} OpenSlotsAll(slots: seq<UserId>, heap: map<UserId, int>, n: nat, i: nat, m: nat)
    requires i <= m < n <= |slots| && OpenSlot(slots, heap, m)
    ensures m in OpenSlots(slots, heap, n, i)
    decreases n - i
  {
    var head, tail := if OpenSlot(slots, heap, i) then [i] else [], OpenSlots(slots, heap, n, i + 1);
    assert OpenSlots(slots, heap, n, i) == head + tail;
    if i < m {
      OpenSlotsAll(slots, heap, n, i + 1, m);
      assert m in tail;
    } else {
      assert m in head;
    }
  }

  /** The loop writes to the descriptors of the open slots, one after the other. */
  lemma {:induction false} SendLoopInOrder(slots: seq<UserId>, heap: map<UserId, int>, n: nat, i: nat)
    requires i <= n <= |slots|
    ensures var at := OpenSlots(slots, heap, n, i);
            var r := SendLoop(slots, heap, n, i);
            |r| == |at| && forall k :: 0 <= k < |at| ==> r[k] == heap[slots[at[k]]]
    decreases n - i
  {
    if i < n {
      SendLoopInOrder(slots, heap, n, i + 1);
    }
  }

  /** A broadcast writes once to exactly the open descriptors of listed users. */
  lemma SendLoopTargets(s: Server)
    requires TableOk(s) && DescriptorsOk(s)
    ensures var r := SendLoop(s.slots, s.heap, Cap(s), 0);
            && (forall j, k :: 0 <= j < k < |r| ==> r[j] != r[k])
            && (forall fd :: fd in r <==> exists u :: u in ListedOpen(s.slots, s.heap) && s.heap[u] == fd)
  {
    var r := SendLoop(s.slots, s.heap, Cap(s), 0);
    var at := OpenSlots(s.slots, s.heap, Cap(s), 0);
    SendLoopInOrder(s.slots, s.heap, Cap(s), 0);
    forall j, k | 0 <= j < k < |r|
      ensures r[j] != r[k]
    {
      assert at[j] < at[k] && s.slots[at[j]] != s.slots[at[k]];
    }
    forall u | u in ListedOpen(s.slots, s.heap)
      ensures s.heap[u] in r
    {
      var m :| 0 <= m < |s.slots| && s.slots[m] == u;
      OpenSlotsAll(s.slots, s.heap, Cap(s), 0, m);
      var k :| 0 <= k < |at| && at[k] == m;
      assert r[k] == s.heap[u];
    }
    forall fd | fd in r
      ensures exists u :: u in ListedOpen(s.slots, s.heap) && s.heap[u] == fd
    {
      var k :| 0 <= k < |r| && r[k] == fd;
      assert s.slots[at[k]] in ListedOpen(s.slots, s.heap);
    }
  }

  lemma NobodyListed(s: Server, i: nat)
    requires Shape(s) && i <= Cap(s) && ListedOpen(s.slots, s.heap) == {}
    ensures SendLoop(s.slots, s.heap, Cap(s), i) == []
    decreases Cap(s) - i
  {
    if i < Cap(s) {
      assert s.slots[i] !in ListedOpen(s.slots, s.heap);
      NobodyListed(s, i + 1);
    }
  }

  /** Returning early on a zero counter skips somebody exactly when an accept stands
      between its slot's publication and the increment, the counter is 0 and a listed
      user's descriptor is open. With acceptance as one step it never does. */
  lemma EarlyReturnExact(s: Server)
    requires Inv(s)
    ensures SendAll(s) == SendLoop(s.slots, s.heap, Cap(s), 0) <==>
            !(s.listener.Published? && s.userNum == 0 && ListedOpen(s.slots, s.heap) != {})
  {
    if ListedOpen(s.slots, s.heap) == {} {
      NobodyListed(s, 0);
    } else if s.userNum == 0 {
      var u :| u in ListedOpen(s.slots, s.heap);
      SendLoopTargets(s);
      assert s.heap[u] in SendLoop(s.slots, s.heap, Cap(s), 0);
      var k :| 0 <= k < |s.slots| && s.slots[k] == u;
      assert k in Occupied(s.slots);
    }
  }

  /** The client is admitted. */
  lemma Admitted(s: Server, fd: int, u: UserId) returns (r: Server)
    requires Shape(s) && Enabled(s, AcceptStart(fd, u, true)) && u != NULL
    requires s.userNum < s.maxUserNum && IndexOf(s.slots, NULL, Cap(s)) < Cap(s)
    ensures r == Step(s, AcceptStart(fd, u, true))
    ensures At(r, u, Receiving) && r.heap[u] == fd > 0 && r.slots == s.slots && r.userNum == s.userNum
    ensures r.listener == Started(u, IndexOf(s.slots, NULL, Cap(s)))
  {
    r := Step(s, AcceptStart(fd, u, true));
  }

  /** The new user is published; the counter is as before. */
  lemma PublishedOpen(a: Server, u: UserId, i: nat) returns (r: Server)
    requires Inv(a) && a.listener == Started(u, i) && u in a.heap && a.heap[u] > 0
    ensures var es := [AcceptNotify] + [AcceptPublish];
            Possible(a, es) && AllOrderly(a, es) && r == Run(a, es)
    ensures Inv(r) && r.userNum == a.userNum && u in ListedOpen(r.slots, r.heap) && r.heap[u] == a.heap[u]
  {
    var b := Step(a, AcceptNotify);
    NotifyInv(a);
    PublishInv(b);
    r := Step(b, AcceptPublish);
    assert r.slots[i] == u;
    OneEvent(b, AcceptPublish);
    RunCons(a, AcceptNotify, [AcceptPublish]);
  }

  /** The first client of any server is skipped by a broadcast made between its
      publication and the count; the accept's steps are in order. */
  lemma BroadcastSkips(s: Server, fd: int, u: UserId) returns (r: Server)
    requires Inv(s) && Enabled(s, AcceptStart(fd, u, true)) && u != NULL
    requires s.userNum == 0 && 0 < s.maxUserNum
    ensures var es := [AcceptStart(fd, u, true)] + ([AcceptNotify] + [AcceptPublish]);
            Possible(s, es) && AllOrderly(s, es) && r == Run(s, es)
    ensures SendAll(r) == [] && fd in SendLoop(r.slots, r.heap, Cap(r), 0)
  {
    Pigeonhole(s);
    StepExact(s, AcceptStart(fd, u, true));
    var a := Admitted(s, fd, u);
    r := PublishedOpen(a, u, a.listener.slot);
    RunCons(s, AcceptStart(fd, u, true), [AcceptNotify] + [AcceptPublish]);
    SendLoopTargets(r);
    assert r.heap[u] == fd;
  }

  /** Such a server: one user at most, its listen socket 3, its first client 4. */
  lemma BroadcastSkipsFirst() returns (es: seq<Event>)
    ensures Possible(Init(1, 3), es) && AllOrderly(Init(1, 3), es)
    ensures var r := Run(Init(1, 3), es);
            SendAll(r) == [] && 4 in SendLoop(r.slots, r.heap, Cap(r), 0)
  {
    var s := Init(1, 3);
    InitInv(1, 3);
    StepExact(s, ListenOk);
    var m := Step(s, ListenOk);
    assert OpenFds(m.heap, 3) == {3};
    var r := BroadcastSkips(m, 4, 1);
    es := [AcceptStart(4, 1, true)] + ([AcceptNotify] + [AcceptPublish]);
    RunCons(s, ListenOk, es);
    es := [ListenOk] + es;
  }

  // ----- The excluded schedules do fail -----

  /** It hangs up at once; accept and exit callback follow, and its thread is ahead
      of the publication. */
  lemma OvertakeExit(s: Server, u: UserId, i: nat, rest: seq<Event>) returns (r: Server)
    requires Shape(s) && At(s, u, Receiving) && s.heap[u] > 0 && s.listener == Started(u, i)
    ensures r == Step(Step(Step(s, End(u)), AcceptNotify), NotifyExit(u))
    ensures Shape(r) && At(r, u, Clearing) && r.slots == s.slots && r.listener == Notified(u, i)
    ensures Possible(r, rest) ==>
              var es := [End(u)] + ([AcceptNotify] + ([NotifyExit(u)] + rest));
              Possible(s, es) && Run(s, es) == Run(r, rest)
  {
    var a := Step(s, End(u));
    var b := Step(a, AcceptNotify);
    r := Step(b, NotifyExit(u));
    if Possible(r, rest) {
      RunCons(b, NotifyExit(u), rest);
      RunCons(a, AcceptNotify, [NotifyExit(u)] + rest);
      RunCons(s, End(u), [AcceptNotify] + ([NotifyExit(u)] + rest));
    }
  }

  /** The slot scan misses, the object is freed and then published. */
  lemma OvertakePublish(s: Server, u: UserId, i: nat)
    requires Shape(s) && At(s, u, Clearing) && u !in s.slots && i < |s.slots|
    requires s.listener == Notified(u, i)
    ensures var es := [ClearSlot(u)] + ([FreeUser(u)] + [AcceptPublish]);
            Possible(s, es) && (var r := Run(s, es); u in r.slots && u !in r.heap)
  {
    var a := Step(s, ClearSlot(u));
    var b := Step(a, FreeUser(u));
    var r := Step(b, AcceptPublish);
    assert r.slots[i] == u && u !in r.heap;
    OneEvent(b, AcceptPublish);
    RunCons(a, FreeUser(u), [AcceptPublish]);
    RunCons(s, ClearSlot(u), [FreeUser(u)] + [AcceptPublish]);
  }

  /** A client that hangs up while the listen thread is still publishing it: its
      receive thread finds no slot and frees the object, which is then published.
      This can happen to any server that admits one more client. */
  lemma DisorderPublishesFreedUser(s: Server, fd: int, u: UserId) returns (es: seq<Event>)
    requires Inv(s) && Enabled(s, AcceptStart(fd, u, true)) && u != NULL && s.userNum < s.maxUserNum
    ensures Possible(s, es) && !AllOrderly(s, es)
    ensures var r := Run(s, es); u in r.slots && u !in r.heap
  {
    Pigeonhole(s);
    assert u !in s.slots;
    es := OvertakeAll(s, fd, u);
    if AllOrderly(s, es) {
      RunInv(s, es);
      assert false;
    }
  }

  /** The schedule put together. */
  lemma OvertakeAll(s: Server, fd: int, u: UserId) returns (es: seq<Event>)
    requires Shape(s) && Enabled(s, AcceptStart(fd, u, true)) && u != NULL && u !in s.slots
    requires s.userNum < s.maxUserNum && IndexOf(s.slots, NULL, Cap(s)) < Cap(s)
    ensures Possible(s, es) && (var r := Run(s, es); u in r.slots && u !in r.heap)
  {
    var i := IndexOf(s.slots, NULL, Cap(s));
    var last := [ClearSlot(u)] + ([FreeUser(u)] + [AcceptPublish]);
    var a := Admitted(s, fd, u);
    var b := OvertakeExit(a, u, i, last);
    OvertakePublish(b, u, i);
    es := [End(u)] + ([AcceptNotify] + ([NotifyExit(u)] + last));
    RunCons(s, AcceptStart(fd, u, true), es);
    es := [AcceptStart(fd, u, true)] + es;
  }
}
