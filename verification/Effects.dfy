/** What each operation achieves: the other modules say what it keeps. */
module Effects {
  import opened Ledger
  import opened TcpTable
  import opened TcpSafety
  import opened IpcStream
  import opened Proxy
  import opened ProxySafety
  import opened Text
  import opened Service
  import opened ServiceSafety

  // ----- Sending -----

  /** What each answer of a send stands for. */
  lemma SendAnswers(present: bool, fd: int, given: bool, size: nat, osOk: bool)
    ensures var r := SendOutcome(present, fd, given, size, osOk);
            && (r == NoPeer <==> !present)
            && (r == NotReady <==> present && fd < 0)
            && (r == NullData <==> present && fd >= 0 && !given)
            && (r == ZeroSize <==> present && fd >= 0 && given && size == 0)
            && (r == Refused <==> present && fd >= 0 && given && size > 0 && !osOk)
            && (r == Sent <==> present && fd >= 0 && given && size > 0 && osOk)
  {
  }

  /** A TCP chunk reaches the pipe when there is a client with a socket and the
      operating system takes it; otherwise it is dropped, and recorded so. */
  lemma TcpChunkForwarded(l: Link, u: UserId, data: seq<byte>, osOk: bool)
    requires LinkEnabled(l, Tcp(Data(u, data), osOk))
    ensures 1 <= |data| <= 8191
    ensures var r := LinkStep(l, Tcp(Data(u, data), osOk));
            var taken := l.client.Some? && l.client.value.fd >= 0 && osOk;
            && r.toPipe == (if taken then l.toPipe + data else l.toPipe)
            && r.toTcp == l.toTcp
            && |r.tcpResults| == |l.tcpResults| + 1 && r.tcpResults[..|l.tcpResults|] == l.tcpResults
            && (r.tcpResults[|l.tcpResults|] == Sent <==> taken)
  {
    assert Short(|data|) == |data| && data[..|data|] == data;
  }

  /** A pipe chunk reaches the stored user's socket when a user is stored whose
      socket is not closed and the operating system takes it. */
  lemma PipeChunkForwarded(l: Link, data: seq<byte>, osOk: bool)
    requires AtomicLinkInv(l) && LinkEnabled(l, PipeData(data, osOk))
    ensures 1 <= |data| <= 8191
    ensures l.pTcpUser != NULL ==> l.server.Some? && l.pTcpUser in l.server.value.heap
    ensures var r := LinkStep(l, PipeData(data, osOk));
            var taken := l.pTcpUser != NULL && l.server.value.heap[l.pTcpUser] >= 0 && osOk;
            && r.toTcp == (if taken then l.toTcp + [(l.pTcpUser, data)] else l.toTcp)
            && r.toPipe == l.toPipe
            && |r.pipeResults| == |l.pipeResults| + 1 && r.pipeResults[..|l.pipeResults|] == l.pipeResults
            && (r.pipeResults[|l.pipeResults|] == Sent <==> taken)
  {
    StoredUserSafe(l);
    assert Short(|data|) == |data| && data[..|data|] == data;
  }

  // ----- Connecting, disconnecting, launching -----

  /** A connect whose every step succeeds connects, and no other does; the client is
      there whenever it could be opened. */
  lemma ConnectIpcConnects(l: Link, o: ConnectOracle)
    requires !l.pipeConnect
    ensures var r := ConnectIpc(l, o);
            && (r.pipeConnect <==> o.mallocOk && o.socket > 0 && o.bindOk
                                   && o.pathExists && o.connectOk && o.threadOk)
            && (r.pipeConnect ==> r.client == Some(Client(o.socket, true, true)))
            && (r.client.Some? <==> o.mallocOk && o.socket > 0 && o.bindOk)
            && (r.client.Some? && !r.pipeConnect ==> r.client == Some(Client(o.socket, false, false)))
  {
  }

  /** After the pipe's end the mapping can be connected again. */
  lemma PipeEnds(l: Link, o: ConnectOracle)
    requires LinkEnabled(l, PipeEnd) && (o.socket > 0 ==> o.socket !in ServerFds(l.server))
    ensures var r := LinkStep(l, PipeEnd);
            && !r.pipeConnect && r.client == Some(Client(-1, false, false))
            && r.ipcLog == l.ipcLog + [Release(l.client.value.fd)]
            && LinkEnabled(r, Reconnect(o))
  {
  }

  /** A launch whose every step succeeds gives a server on its socket, for one user,
      ready to listen, and no other does. */
  lemma LaunchServes(l: Link, o: LaunchOracle)
    ensures var r := LaunchTcp(l, o);
            && (r.server.Some? <==> o.mallocOk && o.socket > 0 && o.bindOk && o.threadOk)
            && (r.server.Some? ==>
                  var s := r.server.value;
                  && s.listenFd == o.socket && s.maxUserNum == 1 && s.userNum == 0 && s.running
                  && Enabled(s, ListenOk))
  {
  }

  /** A server that listens admits a client when it has room, memory and a thread:
      the application is told, and the client is listed, counted and served. */
  lemma ListeningServerAdmits(s: Server, fd: int, u: UserId)
    requires AtomicInv(s) && s.listener == Idle && s.running && s.userNum < s.maxUserNum
    requires FreshFd(s, fd) && u != NULL && u !in s.heap
    ensures var e := AcceptStart(fd, u, true);
            && AtomicEnabled(s, e)
            && var r := AtomicStep(s, e);
               && u in r.slots && r.userNum == s.userNum + 1 && r.trace == s.trace + [Acpt(u)]
               && u in r.heap && r.heap[u] == fd && u in r.threads && r.threads[u] == Receiving
               && r.listener == Idle && r.running
  {
    Pigeonhole(s);
    var i := IndexOf(s.slots, NULL, Cap(s));
    assert s.slots[i := u][i] == u;
    assert AtomicStep(s, AcceptStart(fd, u, true)).slots == s.slots[i := u];
  }

  // ----- The monitor -----

  /** The slot's own words for a mapping that waits for this pipe. */
  predicate Wants(slot: Option<Slot>, name: seq<byte>) {
    slot.Some? && slot.value.link.pipeConnect == false && slot.value.entry.name == name
  }

  lemma FirstIs(table: seq<Option<Slot>>, name: seq<byte>, from: nat, i: nat)
    requires from <= i < |table| && Wants(table[i], name)
    requires forall k :: from <= k < i ==> !Wants(table[k], name)
    ensures FirstWaiting(table, name, from) == i
  {
    assert Waiting(table[i], name);
  }

  /** A record connects the first mapping that waits for its pipe, when the connect
      can succeed. */
  lemma DispatchConnects(w: Service, name: seq<byte>, o: ConnectOracle, i: nat)
    requires i < |w.table| && Wants(w.table[i], name)
    requires forall k :: 0 <= k < i ==> !Wants(w.table[k], name)
    requires o.mallocOk && o.socket > 0 && o.bindOk && o.pathExists && o.connectOk && o.threadOk
    ensures var r := Dispatch(w, name, o);
            && InUse(r, i) && LinkAt(r, i).pipeConnect
            && LinkAt(r, i).client == Some(Client(o.socket, true, true))
  {
    FirstIs(w.table, name, 0, i);
    ConnectIpcConnects(LinkAt(w, i), o);
  }

  /** It leaves alone every mapping that is connected, has another name, or comes
      after one that waits. */
  lemma DispatchLeaves(w: Service, name: seq<byte>, o: ConnectOracle, j: nat)
    requires InUse(w, j)
    requires LinkAt(w, j).pipeConnect || w.table[j].value.entry.name != name
             || exists i: nat :: i < j && Wants(w.table[i], name)
    ensures InUse(Dispatch(w, name, o), j) && Dispatch(w, name, o).table[j] == w.table[j]
  {
    var f := FirstWaiting(w.table, name, 0);
    if i: nat :| i < j && Wants(w.table[i], name) {
      assert Waiting(w.table[i], name);
    }
    assert f < |w.table| ==> Waiting(w.table[f], name);
  }

  /** A buffer's records are handled one after the other, from the first to the last. */
  lemma {:induction false} DispatchAllAppends(w: Service, names: seq<seq<byte>>, os: seq<ConnectOracle>,
                                              name: seq<byte>, o: ConnectOracle)
    requires |names| == |os|
    ensures DispatchAll(w, [], []) == w
    ensures DispatchAll(w, names + [name], os + [o]) == Dispatch(DispatchAll(w, names, os), name, o)
    decreases |names|
  {
    if names == [] {
      assert [] + [name] == [name] && [] + [o] == [o];
      assert [name][1..] == [] && [o][1..] == [];
      assert DispatchAll(Dispatch(w, name, o), [], []) == Dispatch(w, name, o);
    } else {
      assert (names + [name])[1..] == names[1..] + [name] && (os + [o])[1..] == os[1..] + [o];
      DispatchAllAppends(Dispatch(w, names[0], os[0]), names[1..], os[1..], name, o);
    }
  }

  /** Every watch that was granted is recorded by event_init. */
  lemma EventInitWatches(w: Service, fd: int, wds: seq<int>, j: nat)
    requires fd >= 0 && InUse(w, j) && j < w.num
    ensures var r := EventInit(w, fd, wds);
            && r.inotifyFd == fd && InUse(r, j)
            && r.table[j].value.wd == if j < |wds| && wds[j] >= 0 then wds[j] else w.table[j].value.wd
  {
    EventInitFrame(w, fd, wds);
    WatchAllSets(w.(inotifyFd := fd, log := w.log + [Acquire(InotifyFd)]), wds, 0, j);
  }

  /** event_uninit withdraws every watch and closes the descriptor. */
  lemma EventUninitClears(w: Service, j: nat)
    requires InUse(w, j) && j < w.num
    ensures var r := EventUninit(w);
            r.inotifyFd < 0 && InUse(r, j) && r.table[j].value.wd < 0
  {
    EventUninitFrame(w);
    UnwatchAllClears(w, 0, j);
  }

  // ----- Configuration -----

  /** A pipe text without a slash names a pipe in the current directory. */
  lemma SplitPlain(t: seq<byte>, cwd: Option<seq<byte>>)
    requires SLASH !in t
    ensures Split(t, cwd) ==
            (if cwd.Some? then cwd.value else t, if |t| < NAME_SIZE then t else t[..NAME_SIZE - 1])
  {
    assert LastSlash(t) == -1;
  }

  /** Where an element's texts end up. */
  lemma EntryFields(n: Node, cwd: Option<seq<byte>>)
    ensures var e := EntryOf(n, cwd);
            && (n.port.Some? && 0 <= n.port.value < 0x1_0000 ==> e.port == n.port.value)
            && (n.port.None? ==> e.port == 0)
            && (n.pipe.Some? && SLASH in Trim(n.pipe.value) ==>
                  Join(e.path, e.name) == Trim(n.pipe.value) && SLASH !in e.name)
            && (n.pipe.Some? && SLASH !in Trim(n.pipe.value) ==>
                  && e.path == (if cwd.Some? then cwd.value else Trim(n.pipe.value))
                  && e.name <= Trim(n.pipe.value) && |e.name| == Min(|Trim(n.pipe.value)|, NAME_SIZE - 1))
            && (n.pipe.None? ==> e.path == [] && e.name == [])
            && (n.desc.Some? ==>
                  e.desc <= Trim(n.desc.value) && |e.desc| == Min(|Trim(n.desc.value)|, NAME_SIZE - 1))
            && (n.desc.None? ==> e.desc == [])
  {
    if n.pipe.Some? {
      var t := Trim(n.pipe.value);
      if SLASH in t {
        SplitJoin(t, cwd);
      } else {
        SplitPlain(t, cwd);
      }
    }
  }

  /** The places of the enabled elements from i on, in order. */
  function EnabledFrom(nodes: seq<Node>, i: nat): (at: seq<nat>)
    requires i <= |nodes|
    ensures forall k :: 0 <= k < |at| ==> i <= at[k] < |nodes| && nodes[at[k]].enable != 0
    ensures forall j, k :: 0 <= j < k < |at| ==> at[j] < at[k]
    decreases |nodes| - i
  {
    if i == |nodes| then []
    else (if nodes[i].enable != 0 then [i] else []) + EnabledFrom(nodes, i + 1)
  }

  lemma {:induction false} EnabledAll(nodes: seq<Node>, i: nat, m: nat)
    requires i <= m < |nodes| && nodes[m].enable != 0
    ensures m in EnabledFrom(nodes, i)
    decreases |nodes| - i
  {
    var head, tail := if nodes[i].enable != 0 then [i] else [], EnabledFrom(nodes, i + 1);
    assert EnabledFrom(nodes, i) == head + tail;
    if i < m {
      EnabledAll(nodes, i + 1, m);
      assert m in tail;
    } else {
      assert m in head;
    }
  }

  /** The places of the items that are on, from i on. */
  function OnFrom<T>(items: seq<(bool, T)>, i: nat): (at: seq<nat>)
    requires i <= |items|
    ensures forall k :: 0 <= k < |at| ==> i <= at[k] < |items|
    decreases |items| - i
  {
    if i == |items| then [] else (if items[i].0 then [i] else []) + OnFrom(items, i + 1)
  }

  lemma {:induction false} OnesAreOn<T>(items: seq<(bool, T)>, i: nat)
    requires i <= |items|
    ensures var at, all := OnFrom(items, i), EnabledOnes(items[i..]);
            |all| == |at| && forall k :: 0 <= k < |at| ==> all[k] == items[at[k]].1
    decreases |items| - i
  {
    if i < |items| {
      OnesAreOn(items, i + 1);
      assert items[i..][0] == items[i] && items[i..][1..] == items[i + 1..];
      assert EnabledOnes(items[i..]) == (if items[i].0 then [items[i].1] else []) + EnabledOnes(items[i + 1..]);
    }
  }

  lemma {:induction false} OnIsEnabled<T>(nodes: seq<Node>, items: seq<(bool, T)>, i: nat)
    requires i <= |nodes| == |items|
    requires forall k :: 0 <= k < |nodes| ==> items[k].0 == (nodes[k].enable != 0)
    ensures OnFrom(items, i) == EnabledFrom(nodes, i)
    decreases |nodes| - i
  {
    if i < |nodes| {
      OnIsEnabled(nodes, items, i + 1);
    }
  }

  lemma EnabledOnesAre(nodes: seq<Node>, cwd: Option<seq<byte>>)
    ensures var at, all := EnabledFrom(nodes, 0), EnabledOnes(Items(nodes, cwd));
            |all| == |at| && forall k :: 0 <= k < |at| ==> all[k] == EntryOf(nodes[at[k]], cwd)
  {
    var items := Items(nodes, cwd);
    assert items[0..] == items;
    OnesAreOn(items, 0);
    OnIsEnabled(nodes, items, 0);
  }

  /** The k-th place of the table holds the k-th enabled element, up to 64. */
  lemma EntriesExact(nodes: seq<Node>, cwd: Option<seq<byte>>)
    ensures var at, es := EnabledFrom(nodes, 0), Entries(nodes, cwd);
            && |es| == Min(64, |at|)
            && forall k :: 0 <= k < |es| ==> es[k] == EntryOf(nodes[at[k]], cwd)
  {
    EnabledOnesAre(nodes, cwd);
    EntriesTakeFirst(nodes, cwd);
  }

  lemma BootFills(nodes: seq<Node>, cwd: Option<seq<byte>>)
    ensures var at, r := EnabledFrom(nodes, 0), BootTable(Unborn(), Nodes(nodes), cwd);
            && r.num == Min(64, |at|)
            && forall i: nat :: i < r.num ==>
                 InUse(r, i) && r.table[i].value.entry == EntryOf(nodes[at[i]], cwd) && r.table[i].value.wd == -1
  {
    EntriesExact(nodes, cwd);
    BootTableIs(Nodes(nodes), cwd);
  }

  /** Every one of these elements fits that is given a place, when count are taken. */
  predicate PlacedFit(nodes: seq<Node>, at: seq<nat>, cwd: Option<seq<byte>>, count: nat)
    requires forall k :: 0 <= k < |at| ==> at[k] < |nodes|
  {
    forall k :: 0 <= k < |at| && count + k < MAX_MAPPING_NUM ==> NodeFits(nodes[at[k]], cwd)
  }

  lemma PlacedFitCons(nodes: seq<Node>, i: nat, tail: seq<nat>, cwd: Option<seq<byte>>, count: nat)
    requires i < |nodes| && (forall k :: 0 <= k < |tail| ==> tail[k] < |nodes|) && count < MAX_MAPPING_NUM
    ensures PlacedFit(nodes, [i] + tail, cwd, count) <==>
            NodeFits(nodes[i], cwd) && PlacedFit(nodes, tail, cwd, count + 1)
  {
    var at := [i] + tail;
    if PlacedFit(nodes, at, cwd, count) {
      assert at[0] == i;
      forall k | 0 <= k < |tail| && count + 1 + k < MAX_MAPPING_NUM
        ensures NodeFits(nodes[tail[k]], cwd)
      {
        assert at[k + 1] == tail[k];
      }
    }
  }

  lemma AllFitFrom(nodes: seq<Node>, cwd: Option<seq<byte>>, i: nat, count: nat)
    requires i < |nodes|
    ensures AllFit(nodes[i..], cwd, count) ==
            if nodes[i].enable != 0 && count < MAX_MAPPING_NUM
            then NodeFits(nodes[i], cwd) && AllFit(nodes[i + 1..], cwd, count + 1)
            else AllFit(nodes[i + 1..], cwd, count)
  {
    assert nodes[i..][0] == nodes[i] && nodes[i..][1..] == nodes[i + 1..];
  }

  lemma EnabledStep(nodes: seq<Node>, i: nat)
    requires i < |nodes|
    ensures EnabledFrom(nodes, i) ==
            if nodes[i].enable != 0 then [i] + EnabledFrom(nodes, i + 1) else EnabledFrom(nodes, i + 1)
  {
  }

  /** The configuration is within its fields exactly when every element that gets a
      place is. */
  lemma {:induction false} AllFitExact(nodes: seq<Node>, cwd: Option<seq<byte>>, i: nat, count: nat)
    requires i <= |nodes|
    ensures AllFit(nodes[i..], cwd, count) <==> PlacedFit(nodes, EnabledFrom(nodes, i), cwd, count)
    decreases |nodes| - i
  {
    if i < |nodes| {
      AllFitFrom(nodes, cwd, i, count);
      EnabledStep(nodes, i);
      if nodes[i].enable != 0 && count < MAX_MAPPING_NUM {
        AllFitExact(nodes, cwd, i + 1, count + 1);
        PlacedFitCons(nodes, i, EnabledFrom(nodes, i + 1), cwd, count);
      } else {
        AllFitExact(nodes, cwd, i + 1, count);
      }
    } else {
      assert nodes[i..] == [];
    }
  }

  // ----- Start-up -----

  predicate AllLaunch(launches: seq<LaunchOracle>, i: nat, n: nat)
    requires n <= |launches|
  {
    forall j :: i <= j < n ==>
      launches[j].mallocOk && launches[j].socket > 0 && launches[j].bindOk && launches[j].threadOk
  }

  predicate AllOpen(connects: seq<ConnectOracle>, i: nat, n: nat)
    requires n <= |connects|
  {
    forall j :: i <= j < n ==> connects[j].mallocOk && connects[j].socket > 0 && connects[j].bindOk
  }

  /** Launched and opened, and connected if the pipe was there and took the connect. */
  ghost predicate Served(w: Service, j: nat, o: LaunchOracle, c: ConnectOracle) {
    && InUse(w, j)
    && LinkAt(w, j).server == Some(Init(1, o.socket))
    && LinkAt(w, j).client.Some? && LinkAt(w, j).client.value.fd == c.socket
    && (LinkAt(w, j).pipeConnect <==> c.pathExists && c.connectOk && c.threadOk)
  }

  lemma StartOneServes(w: Service, i: nat, o: LaunchOracle, c: ConnectOracle)
    requires InUse(w, i) && LinkAt(w, i) == Blank
    requires o.mallocOk && o.socket > 0 && o.bindOk && o.threadOk && c.mallocOk && c.socket > 0 && c.bindOk
    ensures var b := ConnectAt(LaunchAt(w, i, o), i, c);
            Served(b, i, o, c) && |b.table| == |w.table| && b.num == w.num
            && forall j: nat :: j != i && j < |w.table| ==> b.table[j] == w.table[j]
  {
    LaunchServes(LinkAt(w, i), o);
    ConnectIpcConnects(LinkAt(LaunchAt(w, i, o), i), c);
  }

  /** proxy_init leaves the mappings before i as they are. */
  lemma {:induction false} ProxyInitLeaves(w: Service, i: nat, launches: seq<LaunchOracle>,
                                           connects: seq<ConnectOracle>, j: nat)
    requires i <= w.num <= |launches| && w.num <= |connects| && j < i && j < |w.table|
    ensures var r := ProxyInit(w, i, launches, connects).0;
            |r.table| == |w.table| && r.table[j] == w.table[j]
    decreases w.num - i
  {
    if i < w.num {
      if !InUse(w, i) {
        ProxyInitLeaves(w, i + 1, launches, connects, j);
      } else {
        var a := LaunchAt(w, i, launches[i]);
        if Launches(launches[i]) && Opens(connects[i]) {
          ProxyInitLeaves(ConnectAt(a, i, connects[i]), i + 1, launches, connects, j);
        }
      }
    }
  }

  /** One round of proxy_init on a mapping. */
  lemma ProxyInitRound(w: Service, i: nat, launches: seq<LaunchOracle>, connects: seq<ConnectOracle>)
    requires i < w.num <= |launches| && w.num <= |connects| && InUse(w, i)
    ensures var o, c := launches[i], connects[i];
            if o.mallocOk && o.socket > 0 && o.bindOk && o.threadOk && c.mallocOk && c.socket > 0 && c.bindOk
            then ProxyInit(w, i, launches, connects) ==
                 ProxyInit(ConnectAt(LaunchAt(w, i, o), i, c), i + 1, launches, connects)
            else !ProxyInit(w, i, launches, connects).1
  {
  }

  lemma SameUse(w: Service, i: nat, o: LaunchOracle, c: ConnectOracle, j: nat)
    requires InUse(w, i)
    ensures InUse(ConnectAt(LaunchAt(w, i, o), i, c), j) <==> InUse(w, j)
  {
  }

  /** proxy_init succeeds exactly when every mapping can be launched and its client
      opened. */
  lemma {:induction false} ProxyInitSucceeds(w: Service, i: nat, launches: seq<LaunchOracle>,
                                             connects: seq<ConnectOracle>)
    requires i <= w.num <= |w.table| && w.num <= |launches| && w.num <= |connects|
    requires forall j: nat :: i <= j < w.num ==> InUse(w, j)
    ensures ProxyInit(w, i, launches, connects).1 <==>
            AllLaunch(launches, i, w.num) && AllOpen(connects, i, w.num)
    decreases w.num - i
  {
    if i < w.num {
      assert InUse(w, i);
      ProxyInitRound(w, i, launches, connects);
      var b := ConnectAt(LaunchAt(w, i, launches[i]), i, connects[i]);
      forall j: nat | i + 1 <= j < b.num
        ensures InUse(b, j)
      {
        SameUse(w, i, launches[i], connects[i], j);
      }
      ProxyInitSucceeds(b, i + 1, launches, connects);
    }
  }

  lemma StillBlank(w: Service, b: Service, i: nat)
    requires i < w.num && b.num == w.num && |b.table| == |w.table|
    requires forall j: nat :: i <= j < w.num ==> InUse(w, j) && LinkAt(w, j) == Blank
    requires forall j: nat :: j != i && j < |w.table| ==> b.table[j] == w.table[j]
    ensures forall j: nat :: i + 1 <= j < b.num ==> InUse(b, j) && LinkAt(b, j) == Blank
  {
    forall j: nat | i + 1 <= j < b.num
      ensures InUse(b, j) && LinkAt(b, j) == Blank
    {
      assert InUse(w, j) && b.table[j] == w.table[j];
    }
  }

  lemma StillServed(b: Service, r: Service, i: nat, o: LaunchOracle, c: ConnectOracle)
    requires Served(b, i, o, c) && |r.table| == |b.table| && r.table[i] == b.table[i]
    ensures Served(r, i, o, c)
  {
  }

  /** And then every mapping is served. */
  lemma {:induction false} ProxyInitServes(w: Service, i: nat, launches: seq<LaunchOracle>,
                                           connects: seq<ConnectOracle>)
    requires i <= w.num <= |w.table| && w.num <= |launches| && w.num <= |connects|
    requires forall j: nat :: i <= j < w.num ==> InUse(w, j) && LinkAt(w, j) == Blank
    requires ProxyInit(w, i, launches, connects).1
    ensures var r := ProxyInit(w, i, launches, connects).0;
            forall j: nat :: i <= j < w.num ==> Served(r, j, launches[j], connects[j])
    decreases w.num - i
  {
    if i < w.num {
      assert InUse(w, i) && LinkAt(w, i) == Blank;
      ProxyInitRound(w, i, launches, connects);
      StartOneServes(w, i, launches[i], connects[i]);
      var b := ConnectAt(LaunchAt(w, i, launches[i]), i, connects[i]);
      StillBlank(w, b, i);
      ProxyInitServes(b, i + 1, launches, connects);
      ProxyInitLeaves(b, i + 1, launches, connects, i);
      StillServed(b, ProxyInit(w, i, launches, connects).0, i, launches[i], connects[i]);
    }
  }

  /** serv_init succeeds exactly when there is a mapping, all mappings can be launched
      and opened, and the monitor and the control socket can be opened. Then all are. */
  lemma ServInitServes(o: InitOracle)
    requires InitOracleOk(o)
    ensures var a := BootTable(Unborn(), o.doc, o.cwd);
            var (r, ok) := ServInit(Unborn(), o);
            && a.num <= MAX_MAPPING_NUM
            && (ok <==> a.num > 0 && AllLaunch(o.launches, 0, a.num) && AllOpen(o.connects, 0, a.num)
                        && o.fd >= 0 && o.dgramOk)
            && (ok ==> && r.num == a.num && r.inotifyFd == o.fd && r.dgram && r.dgramLive
                       && forall j: nat :: j < a.num ==> Served(r, j, o.launches[j], o.connects[j]))
  {
    var a := BootTable(Unborn(), o.doc, o.cwd);
    BootTableIs(o.doc, o.cwd);
    if a.num > 0 {
      ProxyInitSucceeds(a, 0, o.launches, o.connects);
      var (b, ok) := ProxyInit(a, 0, o.launches, o.connects);
      ProxyInitNum(a, 0, o.launches, o.connects);
      EventInitFrame(b, o.fd, o.wds);
      EventInitNum(b, o.fd, o.wds);
      if ok && o.fd >= 0 && o.dgramOk {
        ProxyInitServes(a, 0, o.launches, o.connects);
        var r := ServInit(Unborn(), o).0;
        forall j: nat | j < a.num
          ensures Served(r, j, o.launches[j], o.connects[j])
        {
          assert Served(b, j, o.launches[j], o.connects[j]);
          assert InUse(EventInit(b, o.fd, o.wds), j);
        }
      }
    }
  }

  // ----- Shut-down -----

  /** Freeing a place empties it, and what was there is on the list of freed mappings. */
  lemma FreeAtFrees(w: Service, i: nat)
    requires InUse(w, i)
    ensures var r := FreeAt(w, i);
            && !InUse(r, i) && r.gone == w.gone + [w.table[i].value] && r.log == w.log + [Release(MappingRec(i))]
            && forall j: nat :: j != i && j < |w.table| ==> r.table[j] == w.table[j]
  {
  }

  lemma {:induction false} FreeAllFrees(w: Service, i: nat, j: nat)
    requires i <= j && InUse(w, j)
    ensures var r := FreeAll(w, i);
            |r.table| == |w.table| && r.table[j].None? && w.table[j].value in r.gone
            && forall s :: s in w.gone ==> s in r.gone
    decreases |w.table| - i
  {
    var m := FreeAt(w, i);
    if InUse(w, i) {
      FreeAtFrees(w, i);
    }
    FreeAllGrows(m, i + 1);
    if i < j {
      FreeAllFrees(m, i + 1, j);
    } else {
      assert w.table[j].value in m.gone;
    }
  }

  /** A place freed stays free, and a mapping listed stays listed. */
  lemma {:induction false} FreeAllGrows(w: Service, i: nat)
    requires i <= |w.table|
    ensures var r := FreeAll(w, i);
            && |r.table| == |w.table| && (forall s :: s in w.gone ==> s in r.gone)
            && forall j :: 0 <= j < |w.table| && w.table[j].None? ==> r.table[j].None?
    decreases |w.table| - i
  {
    if i < |w.table| {
      FreeAllGrows(FreeAt(w, i), i + 1);
    }
  }

  lemma {:induction false} TidyPrefix(log: seq<Op<Resource>>, k: nat)
    requires Tidy(log).Some? && k <= |log|
    ensures Tidy(log[..k]).Some?
    decreases |log|
  {
    if k < |log| {
      TidyPrefix(log[..|log| - 1], k);
      assert log[..|log| - 1][..k] == log[..k];
    } else {
      assert log[..k] == log;
    }
  }

  /** In a tidy log a mapping is freed when every server, client and control socket that
      could call back with it has been given back. */
  lemma TidyOrder(log: seq<Op<Resource>>, k: nat, i: nat, x: Resource)
    requires Tidy(log).Some? && k < |log| && log[k] == Release(MappingRec(i))
    requires x in {TcpHandle(i), IpcHandle(i), DgramHandle}
    ensures multiset(log[..k])[Acquire(x)] == multiset(log[..k])[Release(x)]
  {
    TidyPrefix(log, k + 1);
    TidyPrefix(log, k);
    assert log[..k + 1] == log[..k] + [log[k]];
    TidySnoc(log[..k], log[k]);
    assert x !in Tidy(log[..k]).value;
    TidyCounts(log[..k], x);
  }

  /** The same for every run of the service, finished or not. */
  lemma FreedLast(es: seq<ServiceEvent>, k: nat, i: nat, x: Resource)
    requires ServicePossible(Unborn(), es)
    requires var log := ServiceRun(Unborn(), es).log; k < |log| && log[k] == Release(MappingRec(i))
    requires x in {TcpHandle(i), IpcHandle(i), DgramHandle}
    ensures var log := ServiceRun(Unborn(), es).log;
            multiset(log[..k])[Acquire(x)] == multiset(log[..k])[Release(x)]
  {
    UnbornGood();
    ServiceRunGood(Unborn(), es);
    GoodLog(ServiceRun(Unborn(), es));
    TidyOrder(ServiceRun(Unborn(), es).log, k, i, x);
  }

  lemma GoodLog(w: Service)
    requires Good(w)
    ensures Tidy(w.log).Some?
  {
  }
}
