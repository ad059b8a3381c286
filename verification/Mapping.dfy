/** The proxy's code for one mapping: the tMapping record, its callbacks and its
    connect and disconnect routines. Each receive or listen step of the library is
    run together with the callback it makes. */
module Mapping {
  import opened Ledger
  import opened TcpTable
  import opened TcpServer
  import opened IpcStream
  import opened Proxy
  import opened ProxySafety

  /** Accepting a client as one step of a mapping: the server's step, and the accept
      callback when the client was taken. */
  lemma AcceptLinkForm(l: Link, e: Event)
    requires AtomicLinkEnabled(l, Tcp(e, true)) && e.AcceptStart?
    ensures var s := l.server.value;
            var m := l.(server := Some(AtomicStep(s, e)));
            AtomicLinkStep(l, Tcp(e, true)) ==
            if Step(s, e).listener.Started? then m.(tcpConnect := true, pTcpUser := e.user) else m
  {
  }

  class TMapping {
    var tcpServerHandle: TcpIpv4Server?
    var ipcStreamHandle: IpcStreamClient?
    var tcpConnect: bool
    var pipeConnect: bool
    var pTcpUser: UserId
    var wd: int
    const tcpPort: nat
    const pipePath: seq<byte>
    const pipeName: seq<byte>
    const descript: seq<byte>
    const index: nat
    ghost var retired: Option<Server>
    ghost var ipcLog: seq<Op<int>>
    ghost var tcpResults: seq<SendResult>
    ghost var toPipe: seq<byte>
    ghost var pipeIn: seq<seq<byte>>
    ghost var pipeResults: seq<SendResult>
    ghost var pipeUsers: seq<UserId>
    ghost var pipeMoments: seq<Option<nat>>
    ghost var toTcp: seq<(UserId, seq<byte>)>

    ghost function Repr(): set<object>
      reads this, tcpServerHandle
    {
      {this} + (if tcpServerHandle != null then {tcpServerHandle, tcpServerHandle.pUser} else {})
      + if ipcStreamHandle != null then {ipcStreamHandle} else {}
    }

    /** The handles that are set are those of contexts not freed. */
    ghost predicate Valid()
      reads this, tcpServerHandle, ipcStreamHandle
    {
      && (tcpServerHandle != null ==> tcpServerHandle.Valid())
      && (ipcStreamHandle != null ==> ipcStreamHandle.live)
    }

    ghost function State(): (l: Link)
      reads this, tcpServerHandle, ipcStreamHandle, Repr()
      requires Valid()
      ensures l.server.Some? ==> Shape(l.server.value)
    {
      Link(if tcpServerHandle != null then Some(tcpServerHandle.State()) else None,
           if ipcStreamHandle != null then Some(ipcStreamHandle.State()) else None,
           tcpConnect, pipeConnect, pTcpUser, retired, ipcLog, tcpResults, toPipe,
           pipeIn, pipeResults, pipeUsers, pipeMoments, toTcp)
    }

    constructor (port: nat, path: seq<byte>, name: seq<byte>, desc: seq<byte>, index: nat)
      ensures Valid() && State() == Blank && Repr() == {this} && wd == -1
      ensures tcpPort == port && pipePath == path && pipeName == name && descript == desc
              && this.index == index
    {
      tcpPort, pipePath, pipeName, descript, this.index := port, path, name, desc, index;
      tcpServerHandle, ipcStreamHandle := null, null;
      tcpConnect, pipeConnect, pTcpUser, wd := false, false, NULL, -1;
      retired, ipcLog, tcpResults, toPipe := None, [], [], [];
      pipeIn, pipeResults, pipeUsers, pipeMoments, toTcp := [], [], [], [], [];
    }

    // ----- Callbacks -----

    method TcpIpv4AcptFunc(user: UserId)
      modifies this`tcpConnect, this`pTcpUser
      ensures tcpConnect && pTcpUser == user
    {
      tcpConnect := true;
      pTcpUser := user;
    }

    method TcpIpv4ExitFunc(user: UserId)
      modifies this`tcpConnect, this`pTcpUser
      ensures !tcpConnect && pTcpUser == NULL
    {
      tcpConnect := false;
      pTcpUser := NULL;
    }

    method TcpIpv4RecvFunc(data: seq<byte>, size: nat, osOk: bool)
      requires Valid() && size == Short(|data|)
      modifies this`tcpResults, this`toPipe
      ensures Valid() && State() == ForwardToPipe(old(State()), data, osOk)
    {
      var result := NoPeer;
      if ipcStreamHandle != null {
        result := ipcStreamHandle.Send(Some(data), size, osOk);
      }
      tcpResults := tcpResults + [result];
      if result == Sent {
        toPipe := toPipe + data[..size];
      }
    }

    method IpcStreamExitFunc()
      modifies this`pipeConnect
      ensures !pipeConnect
    {
      pipeConnect := false;
    }

    method IpcStreamRecvFunc(data: seq<byte>, size: nat, osOk: bool)
      requires Valid() && size == Short(|data|)
      requires pTcpUser != NULL ==> tcpServerHandle != null && pTcpUser in tcpServerHandle.users
      modifies this`pipeIn, this`pipeResults, this`pipeUsers, this`pipeMoments, this`toTcp
      ensures Valid() && State() == ForwardToTcp(old(State()), data, osOk)
    {
      var result := NoPeer;
      if pTcpUser != NULL {
        result := tcpServerHandle.Send(pTcpUser, Some(data), size, osOk);
      }
      RecordArrival(data, result);
      if result == Sent {
        toTcp := toTcp + [(pTcpUser, data[..size])];
      }
    }

    /** Notes a pipe chunk, what became of it, and for whom and when it came. */
    ghost method RecordArrival(data: seq<byte>, result: SendResult)
      requires Valid()
      modifies this`pipeIn, this`pipeResults, this`pipeUsers, this`pipeMoments
      ensures Valid()
      ensures var l := old(State());
              State() == l.(pipeIn := l.pipeIn + [data], pipeResults := l.pipeResults + [result],
                            pipeUsers := l.pipeUsers + [l.pTcpUser],
                            pipeMoments := l.pipeMoments
                                           + [if l.server.Some? then Some(|l.server.value.trace|) else None])
    {
      pipeIn, pipeResults := pipeIn + [data], pipeResults + [result];
      pipeUsers := pipeUsers + [pTcpUser];
      pipeMoments := pipeMoments + [if tcpServerHandle != null then Some(|tcpServerHandle.trace|) else None];
    }

    // ----- Launching, ceasing, connecting and disconnecting -----

    method LaunchTcp(o: LaunchOracle) returns (error: int)
      requires Valid() && o.socket != 0
      modifies this`tcpServerHandle
      ensures Valid() && State() == Proxy.LaunchTcp(old(State()), o)
      ensures error == 0 <==> Launches(o)
      ensures fresh(Repr() - old(Repr()))
    {
      ghost var log;
      var handle: TcpIpv4Server?;
      handle, log := ServerInit(1, o.mallocOk, o.socket, o.bindOk, o.threadOk);
      tcpServerHandle := handle;
      return if handle == null then -1 else 0;
    }

    method UninitServer()
      requires Valid() && tcpServerHandle != null
      modifies this`retired, tcpServerHandle, tcpServerHandle.pUser
      ensures Valid()
      ensures var u := Uninit(old(tcpServerHandle.State()));
              State() == old(State()).(server := Some(u), retired := Some(u))
    {
      retired := Some(Uninit(tcpServerHandle.State()));
      tcpServerHandle.Uninit();
    }

    /** The handle, the flag and the stored user are cleared. */
    method ForgetServer()
      requires Valid()
      modifies this`tcpServerHandle, this`tcpConnect, this`pTcpUser
      ensures Valid() && Repr() <= old(Repr())
      ensures State() == old(State()).(server := None, tcpConnect := false, pTcpUser := NULL)
    {
      tcpServerHandle := null;
      tcpConnect := false;
      pTcpUser := NULL;
    }

    method CeaseTcp()
      requires Valid()
      modifies Repr()
      ensures Valid() && State() == Proxy.CeaseTcp(old(State()))
      ensures Repr() <= old(Repr()) && wd == old(wd)
    {
      if tcpServerHandle != null {
        UninitServer();
      }
      ForgetServer();
    }

    /** Free the stored client context; the caller overwrites the handle. */
    method UninitClient()
      requires Valid()
      modifies this`ipcLog, ipcStreamHandle
      ensures ipcLog == ClosedClientLog(old(State()))
    {
      if ipcStreamHandle != null {
        ghost var closed := ipcStreamHandle.Uninit();
        ipcLog := ipcLog + closed;
      }
    }

    method InitClient(o: ConnectOracle) returns (error: int)
      requires o.socket != 0
      modifies this`ipcLog, this`ipcStreamHandle
      ensures error == 0 <==> Opens(o)
      ensures ipcStreamHandle != null <==> Opens(o)
      ensures Opens(o) ==> fresh(ipcStreamHandle) && ipcStreamHandle.live
                           && ipcStreamHandle.State() == Client(o.socket, false, false)
      ensures ipcLog == old(ipcLog) + if !o.mallocOk || o.socket <= 0 then []
                                      else if o.bindOk then [Acquire(o.socket)]
                                      else [Acquire(o.socket), Release(o.socket)]
    {
      ghost var ops;
      var handle: IpcStreamClient?;
      handle, ops := ClientInit(o.mallocOk, o.socket, o.bindOk);
      ipcLog := ipcLog + ops;
      ipcStreamHandle := handle;
      return if handle == null then -1 else 0;
    }

    /** The old client, if any, is closed and a new one opened. */
    method ReplaceClient(o: ConnectOracle) returns (error: int)
      requires Valid() && o.socket != 0
      modifies this`ipcLog, this`ipcStreamHandle, ipcStreamHandle
      ensures Valid() && (error == 0 <==> Opens(o)) && (error == 0 <==> ipcStreamHandle != null)
      ensures ipcStreamHandle != null ==> fresh(ipcStreamHandle)
      ensures var l := old(State());
              State() == l.(client := if Opens(o) then Some(Client(o.socket, false, false)) else None,
                            ipcLog := ClosedClientLog(l)
                                      + if !o.mallocOk || o.socket <= 0 then []
                                        else if o.bindOk then [Acquire(o.socket)]
                                        else [Acquire(o.socket), Release(o.socket)])
    {
      UninitClient();
      error := InitClient(o);
    }

    /** The attempt to connect the client there is. */
    method ConnectClient(connectOk: bool, threadOk: bool)
      requires Valid() && ipcStreamHandle != null && ipcStreamHandle.fd >= 0
      modifies this`pipeConnect, ipcStreamHandle
      ensures Valid()
      ensures var l := old(State());
              State() == if connectOk && threadOk
                         then l.(client := Some(Client(l.client.value.fd, true, true)), pipeConnect := true)
                         else l.(client := Some(Client(l.client.value.fd, !connectOk && l.client.value.running,
                                                       l.client.value.receiver)), pipeConnect := false)
    {
      var error := ipcStreamHandle.Connect(connectOk, threadOk);
      pipeConnect := error == 0;
    }

    method ConnectIpc(o: ConnectOracle) returns (error: int)
      requires Valid() && o.socket != 0
      modifies this, ipcStreamHandle
      ensures Valid() && State() == Proxy.ConnectIpc(old(State()), o)
      ensures error == 0 <==> Opens(o)
      ensures fresh(Repr() - old(Repr())) && wd == old(wd)
    {
      error := ReplaceClient(o);
      if error == 0 && o.pathExists {
        ConnectClient(o.connectOk, o.threadOk);
      }
    }

    method DisconnectIpc()
      requires Valid()
      modifies this, ipcStreamHandle
      ensures Valid() && State() == Proxy.DisconnectIpc(old(State()))
      ensures Repr() <= old(Repr()) && wd == old(wd)
    {
      UninitClient();
      ipcStreamHandle := null;
      pipeConnect := false;
    }

    /** One round of proxy_uninit. */
    method TakeDown()
      requires Valid()
      modifies Repr()
      ensures Valid() && State() == Proxy.CeaseTcp(Proxy.DisconnectIpc(old(State())))
      ensures Repr() <= old(Repr()) && wd == old(wd)
    {
      DisconnectIpc();
      CeaseTcp();
    }

    // ----- Library steps with the callbacks they make -----

    method Listen(ok: bool)
      requires Valid()
      requires AtomicLinkEnabled(State(), Tcp(if ok then ListenOk else ListenFail, true))
      requires tcpServerHandle.fd > 0
      modifies tcpServerHandle
      ensures Valid() && Repr() == old(Repr())
      ensures State() == AtomicLinkStep(old(State()), Tcp(if ok then ListenOk else ListenFail, true))
    {
      tcpServerHandle.ListenOnce(ok);
    }

    method Accept(fd: int, user: UserId, threadOk: bool)
      requires Valid() && AtomicLinkEnabled(State(), Tcp(AcceptStart(fd, user, threadOk), true))
      modifies this`tcpConnect, this`pTcpUser, tcpServerHandle, tcpServerHandle.pUser
      ensures Valid() && Repr() == old(Repr())
      ensures State() == AtomicLinkStep(old(State()), Tcp(AcceptStart(fd, user, threadOk), true))
    {
      AcceptLinkForm(State(), AcceptStart(fd, user, threadOk));
      var accepted := tcpServerHandle.AcceptOnce(fd, user, threadOk);
      if accepted != NULL {
        TcpIpv4AcptFunc(user);
      }
    }

    method TcpData(user: UserId, data: seq<byte>, osOk: bool)
      requires Valid() && AtomicLinkEnabled(State(), Tcp(Data(user, data), osOk))
      modifies this`tcpResults, this`toPipe, tcpServerHandle
      ensures Valid() && Repr() == old(Repr())
      ensures State() == AtomicLinkStep(old(State()), Tcp(Data(user, data), osOk))
    {
      tcpServerHandle.ReceiveData(user, data);
      TcpIpv4RecvFunc(data, Short(|data|), osOk);
    }

    method TcpEnd(user: UserId)
      requires Valid() && AtomicLinkEnabled(State(), Tcp(End(user), true))
      modifies tcpServerHandle
      ensures Valid() && Repr() == old(Repr())
      ensures State() == AtomicLinkStep(old(State()), Tcp(End(user), true))
    {
      tcpServerHandle.EndOfStream(user);
    }

    method TcpExit(user: UserId)
      requires Valid() && AtomicLinkEnabled(State(), Tcp(NotifyExit(user), true))
      modifies this`tcpConnect, this`pTcpUser, tcpServerHandle
      ensures Valid() && Repr() == old(Repr())
      ensures State() == AtomicLinkStep(old(State()), Tcp(NotifyExit(user), true))
    {
      tcpServerHandle.ExitCallback(user);
      TcpIpv4ExitFunc(user);
    }

    method TcpTeardown(user: UserId)
      requires Valid() && tcpServerHandle != null && user != NULL
      requires user in tcpServerHandle.threads && user in tcpServerHandle.users
      requires tcpServerHandle.threads[user] in {Clearing, Dropping, Freeing}
      modifies tcpServerHandle, tcpServerHandle.pUser
      ensures Valid() && Repr() == old(Repr())
      ensures State() == AtomicLinkStep(old(State()), Tcp(match old(tcpServerHandle.threads[user])
                                                          case Clearing => ClearSlot(user)
                                                          case Dropping => DropCount(user)
                                                          case _ => FreeUser(user), true))
    {
      tcpServerHandle.TeardownStep(user);
    }

    method PipeChunk(data: seq<byte>, osOk: bool)
      requires Valid() && AtomicLinkEnabled(State(), PipeData(data, osOk)) && AtomicLinkInv(State())
      modifies this`pipeIn, this`pipeResults, this`pipeUsers, this`pipeMoments, this`toTcp
      ensures Valid() && Repr() == old(Repr())
      ensures State() == AtomicLinkStep(old(State()), PipeData(data, osOk))
    {
      StoredUserSafe(State());
      IpcStreamRecvFunc(data, Short(|data|), osOk);
    }

    method PipeClosed()
      requires Valid() && AtomicLinkEnabled(State(), PipeEnd)
      modifies this`pipeConnect, this`ipcLog, ipcStreamHandle
      ensures Valid() && Repr() == old(Repr())
      ensures State() == AtomicLinkStep(old(State()), PipeEnd)
    {
      ghost var ops := ipcStreamHandle.EndOfStream();
      ipcLog := ipcLog + ops;
      IpcStreamExitFunc();
    }
  }
}
