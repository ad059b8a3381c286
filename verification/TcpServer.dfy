/** The server's code: the context and its routines, run against the oracle. */
module TcpServer {
  import opened Ledger
  import opened TcpTable

  /** Accepting a client as one step, by outcome. */
  lemma AcceptForms(s: Server, fd: int, u: UserId, threadOk: bool)
    requires Shape(s) && Enabled(s, AcceptStart(fd, u, threadOk))
    ensures var i := IndexOf(s.slots, NULL, Cap(s));
            var handed := s.fdLog + [Acquire(fd)];
            var refused := s.(fdLog := s.fdLog + [Acquire(fd), Release(fd)]);
            AtomicStep(s, AcceptStart(fd, u, threadOk)) ==
            if s.userNum >= s.maxUserNum || i == Cap(s) || u == NULL then refused
            else if !threadOk then refused.(heapLog := s.heapLog + [Acquire(u), Release(u)])
            else s.(slots := s.slots[i := u], userNum := s.userNum + 1, fdLog := handed,
                    heap := s.heap[u := fd], threads := s.threads[u := Receiving],
                    heapLog := s.heapLog + [Acquire(u)], trace := s.trace + [Acpt(u)])
  {
  }

  class TcpIpv4Server {
    const pUser: array<UserId>
    var userNum: int
    var maxUserNum: int
    var fd: int
    var running: bool
    // the users allocated for this server, and the receive threads started for it
    var users: map<UserId, int>
    var threads: map<UserId, Pc>
    ghost var listener: Listener
    ghost var fdLog: seq<Op<int>>
    ghost var heapLog: seq<Op<UserId>>
    ghost var trace: seq<Callback>

    ghost predicate Valid()
      reads this
    {
      pUser.Length == TCP_USER_NUM && maxUserNum <= TCP_USER_NUM
    }

    ghost function State(): (s: Server)
      reads this, pUser
      requires Valid()
      ensures Shape(s)
    {
      Server(pUser[..], userNum, maxUserNum, fd, running, listener, users, threads,
             fdLog, heapLog, trace)
    }

    /** A context filled in by `comm_tcpIpv4ServerInit` before its thread starts. */
    constructor (requested: int, fd: int)
      ensures Valid() && fresh(pUser)
      ensures State() == Init(requested, fd)
    {
      pUser := new UserId[TCP_USER_NUM](_ => NULL);
      userNum := 0;
      maxUserNum := if requested == 0 || requested > TCP_USER_NUM then TCP_USER_NUM else requested;
      this.fd := fd;
      running := true;
      users, threads, listener := map[], map[], NotListening;
      fdLog, heapLog, trace := [Acquire(fd)], [], [];
      new;
      assert pUser[..] == seq(TCP_USER_NUM, _ => NULL);
    }

    // ----- The listen thread -----

    method ListenOnce(ok: bool)
      requires Valid() && fd > 0 && listener == NotListening
      modifies this
      ensures Valid() && State() == AtomicStep(old(State()), if ok then ListenOk else ListenFail)
    {
      if ok {
        listener := Idle;
      } else {
        fdLog := fdLog + [Release(fd)];
        fd := -1;
        listener := Stopped;
      }
    }

    /** The new user's thread runs; the accept callback, the slot and the counter. */
    method Admit(i: nat, fd: int, u: UserId)
      requires Valid() && i < TCP_USER_NUM
      modifies this, pUser
      ensures Valid()
      ensures var s := old(State());
              State() == s.(slots := s.slots[i := u], userNum := s.userNum + 1,
                            fdLog := s.fdLog + [Acquire(fd)],
                            heap := s.heap[u := fd], threads := s.threads[u := Receiving],
                            heapLog := s.heapLog + [Acquire(u)], trace := s.trace + [Acpt(u)])
    {
      heapLog := heapLog + [Acquire(u)];
      users, threads := users[u := fd], threads[u := Receiving];
      fdLog := fdLog + [Acquire(fd)];
      trace := trace + [Acpt(u)];
      pUser[i] := u;
      userNum := userNum + 1;
      assert State().slots == old(State()).slots[i := u];
    }

    /** `_tcpIpv4AcceptClient`; u is what malloc returns when it is called. */
    method AcceptClient(fd: int, u: UserId, threadOk: bool) returns (user: UserId)
      requires Valid() && Enabled(State(), AcceptStart(fd, u, threadOk))
      modifies this, pUser
      ensures Valid()
      ensures user != NULL <==> Step(old(State()), AcceptStart(fd, u, threadOk)).listener.Started?
      ensures var a := AtomicStep(old(State()), AcceptStart(fd, u, threadOk));
              && (user != NULL ==> user == u && State() == a)
              && (user == NULL ==> State().(fdLog := a.fdLog) == a && State().fdLog == old(fdLog)
                                   && a.fdLog == old(fdLog) + [Acquire(fd), Release(fd)])
    {
      ghost var s := State();
      AcceptForms(s, fd, u, threadOk);
      if userNum >= maxUserNum {
        return NULL;
      }
      var i := 0;
      while i < maxUserNum
        invariant 0 <= i <= Cap(State())
        invariant forall k :: 0 <= k < i ==> pUser[k] != NULL
        invariant State() == s
      {
        if pUser[i] == NULL {
          assert s.slots[i] == NULL && IndexOf(s.slots, NULL, Cap(s)) == i;
          if u == NULL {
            return NULL;
          }
          if !threadOk {
            heapLog := heapLog + [Acquire(u), Release(u)];
            return NULL;
          }
          Admit(i, fd, u);
          return u;
        }
        i := i + 1;
      }
      assert IndexOf(s.slots, NULL, Cap(s)) == Cap(s);
      return NULL;
    }

    /** One round of the listen loop: accept returned fd, or failed. */
    method AcceptOnce(fd: int, u: UserId, threadOk: bool) returns (user: UserId)
      requires Valid() && (fd < 0 ==> Enabled(State(), AcceptFail))
      requires fd >= 0 ==> Enabled(State(), AcceptStart(fd, u, threadOk))
      modifies this, pUser
      ensures Valid()
      ensures State() == AtomicStep(old(State()),
                                    if fd < 0 then AcceptFail else AcceptStart(fd, u, threadOk))
      ensures user != NULL <==>
              fd >= 0 && Step(old(State()), AcceptStart(fd, u, threadOk)).listener.Started?
    {
      user := NULL;
      if fd < 0 {
        running, listener := false, Stopped;
        return;
      }
      user := AcceptClient(fd, u, threadOk);
      if user == NULL {
        fdLog := fdLog + [Acquire(fd), Release(fd)];
      }
    }

    // ----- A receive thread -----

    /** recv returned data: the receive callback. */
    method ReceiveData(u: UserId, data: seq<byte>)
      requires Valid() && Enabled(State(), Data(u, data))
      modifies this`trace
      ensures Valid() && State() == AtomicStep(old(State()), Data(u, data))
    {
      trace := trace + [Recv(u, data)];
    }

    /** recv returned 0 or an error: the socket is closed. */
    method EndOfStream(u: UserId)
      requires Valid() && Enabled(State(), End(u))
      modifies this`fdLog, this`users, this`threads
      ensures Valid() && State() == AtomicStep(old(State()), End(u))
    {
      fdLog := fdLog + [Release(users[u])];
      users := users[u := -1];
      threads := threads[u := Notifying];
    }

    method ExitCallback(u: UserId)
      requires Valid() && Enabled(State(), NotifyExit(u))
      modifies this`trace, this`threads
      ensures Valid() && State() == AtomicStep(old(State()), NotifyExit(u))
    {
      trace := trace + [Exit(u)];
      threads := threads[u := Clearing];
    }

    /** The slot scan of `_tcpIpv4DisconnectClient`. */
    method ScanAndClear(u: UserId) returns (found: bool)
      requires Valid() && u != NULL
      modifies pUser
      ensures Valid() && State() == old(State()).(slots := ClearedSlots(old(State()), u))
      ensures found == (IndexOf(old(State()).slots, u, Cap(old(State()))) < Cap(old(State())))
    {
      ghost var s := State();
      found := false;
      var i := 0;
      while i < maxUserNum
        invariant 0 <= i <= Cap(State())
        invariant forall k :: 0 <= k < i ==> pUser[k] != u
        invariant State() == s && !found
      {
        if pUser[i] == u {
          assert IndexOf(s.slots, u, Cap(s)) == i;
          pUser[i] := NULL;
          assert State().slots == s.slots[i := NULL];
          found := true;
          break;
        }
        i := i + 1;
      }
    }

    method DropOne()
      requires Valid()
      modifies this`userNum
      ensures Valid() && State() == old(State()).(userNum := Decremented(old(userNum)))
    {
      if userNum > 0 {
        userNum := userNum - 1;
      }
    }

    method FreeOne(u: UserId)
      requires Valid()
      modifies this`users, this`heapLog
      ensures Valid() && State() == old(State()).(heap := old(users) - {u},
                                                  heapLog := old(heapLog) + [Release(u)])
    {
      users := users - {u};
      heapLog := heapLog + [Release(u)];
    }

    /** The receive thread's remaining steps, one at a time. */
    method TeardownStep(u: UserId)
      requires Valid() && u != NULL && u in threads && u in users
      requires threads[u] in {Clearing, Dropping, Freeing}
      modifies this, pUser
      ensures Valid()
      ensures State() == AtomicStep(old(State()), match old(threads[u])
                                                  case Clearing => ClearSlot(u)
                                                  case Dropping => DropCount(u)
                                                  case _ => FreeUser(u))
    {
      var pc := threads[u];
      if pc == Clearing {
        var found := ScanAndClear(u);
        threads := threads[u := if found then Dropping else Freeing];
      } else if pc == Dropping {
        DropOne();
        threads := threads[u := Freeing];
      } else {
        FreeOne(u);
        threads := threads - {u};
      }
    }

    // ----- Taking the server down and sending -----

    /** `_tcpIpv4DisconnectClient` run to its end by `comm_tcpIpv4ServerUninit`. */
    method DisconnectClient(u: UserId)
      requires Valid()
      modifies this, pUser
      ensures Valid() && State() == Disconnect(old(State()), u)
    {
      if u != NULL {
        var found := ScanAndClear(u);
        if found {
          DropOne();
        }
        if u in users && users[u] > 0 {
          threads := threads - {u};
          fdLog := fdLog + [Release(users[u])];
          users := users[u := -1];
        }
        FreeOne(u);
      }
    }

    method Uninit()
      requires Valid()
      modifies this, pUser
      ensures Valid() && State() == TcpTable.Uninit(old(State()))
    {
      running := false;
      userNum := 0;
      ghost var s := State();
      var i := 0;
      while i < maxUserNum
        invariant Valid() && 0 <= i <= Cap(State()) && maxUserNum == s.maxUserNum
        invariant Sweep(State(), i) == Sweep(s, 0)
      {
        DisconnectClient(pUser[i]);
        i := i + 1;
      }
      if fd > 0 {
        fdLog := fdLog + [Release(fd)];
        fd := -1;
      }
      if !InFlight(listener) {
        listener := Stopped;
      }
    }

    /** `comm_tcpIpv4ServerSend` to one user; the result is the guard that stopped
        it or the answer of the operating system. */
    method Send(u: UserId, data: Option<seq<byte>>, size: nat, osOk: bool) returns (r: SendResult)
      requires u != NULL ==> u in users
      ensures r == SendOutcome(u != NULL, if u in users then users[u] else -1, data.Some?, size, osOk)
      ensures r == Sent <==> u != NULL && users[u] >= 0 && data.Some? && size > 0 && osOk
      ensures r == Refused <==> u != NULL && users[u] >= 0 && data.Some? && size > 0 && !osOk
    {
      if u == NULL {
        return NoPeer;
      }
      if users[u] < 0 {
        return NotReady;
      }
      if data.None? {
        return NullData;
      }
      if size == 0 {
        return ZeroSize;
      }
      return if osOk then Sent else Refused;
    }

    /** `comm_tcpIpv4ServerSendAllClient`: the descriptors written to, in order. */
    method SendAllClient(data: Option<seq<byte>>, size: nat) returns (sent: seq<int>)
      requires Valid() && TableOk(State())
      ensures sent == if data.None? || size == 0 then [] else SendAll(State())
    {
      sent := [];
      if userNum == 0 || data.None? || size == 0 {
        return;
      }
      ghost var slots, n, all := pUser[..], Cap(State()), SendAll(State());
      var i := 0;
      while i < maxUserNum
        invariant 0 <= i <= n && pUser[..] == slots
        invariant sent + SendLoop(slots, users, n, i) == all
      {
        var u := pUser[i];
        assert u == slots[i] && u in slots;
        if u != NULL && users[u] > 0 {
          sent := sent + [users[u]];
        }
        i := i + 1;
      }
    }
  }

  /** `comm_tcpIpv4ServerInit`: socket (negative when it fails), bind and the
      listen thread may each fail; the log records the socket's use. */
  method ServerInit(requested: int, mallocOk: bool, socket: int, bindOk: bool, threadOk: bool)
    returns (h: TcpIpv4Server?, ghost log: seq<Op<int>>)
    requires socket < 0 || socket > 0
    ensures h != null <==> mallocOk && socket > 0 && bindOk && threadOk
    ensures h != null ==> h.Valid() && fresh(h) && fresh(h.pUser)
                          && h.State() == Init(requested, socket) && log == h.fdLog
    ensures h == null ==> Held(log) == Some({})
  {
    h, log := null, [];
    if !mallocOk || socket < 0 {
      return;
    }
    log := [Acquire(socket)];
    if !bindOk {
      log := log + [Release(socket)];
      HeldSnoc([], Acquire(socket));
      HeldSnoc([Acquire(socket)], Release(socket));
      assert [] + [Acquire(socket)] == [Acquire(socket)];
      return;
    }
    if !threadOk {
      log := log + [Release(socket)];
      HeldSnoc([], Acquire(socket));
      HeldSnoc([Acquire(socket)], Release(socket));
      assert [] + [Acquire(socket)] == [Acquire(socket)];
      return;
    }
    h := new TcpIpv4Server(requested, socket);
  }
}
