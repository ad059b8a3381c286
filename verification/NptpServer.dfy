/** The service's code: the global mapping table and the routines that loop over
    it, each shown to do what the state machine's routine says. */
module NptpServer {
  import opened Ledger
  import opened Proxy
  import opened Mapping
  import opened Text
  import opened Records
  import Service
  import StartUp

  /** The control command "exit". */
  const EXIT: seq<byte> := [0x65, 0x78, 0x69, 0x74]

  /** A record, if there is one, and all it refers to are among these objects. */
  ghost predicate Contained(m: TMapping?, objects: set<object>)
    reads objects
  {
    m != null ==>
      && m in objects
      && (m.tcpServerHandle != null ==> m.tcpServerHandle in objects)
      && (m.ipcStreamHandle != null ==> m.ipcStreamHandle in objects)
      && m.Repr() <= objects
      && m.Valid()
  }

  /** What the machine's table holds for this record. */
  ghost function SlotIn(m: TMapping?, objects: set<object>): Option<Service.Slot>
    requires Contained(m, objects)
    reads objects
  {
    if m == null then None
    else Some(Service.Slot(Service.Entry(m.tcpPort, m.pipePath, m.pipeName, m.descript),
                           m.index, m.wd, m.State()))
  }

  lemma ExitSpelled()
    ensures |EXIT| == 4 && forall k :: 0 <= k < 4 ==> EXIT[k] as char == "exit"[k]
  {
  }

  class NptpService {
    const g_pMapping: array<TMapping?>
    var g_mappingNum: nat
    var g_inotifyFd: int
    var g_ipcDgramhandle: bool
    ghost var dgramLive: bool
    ghost var log: seq<Op<Service.Resource>>
    ghost var gone: seq<Service.Slot>
    // the objects each place of the table has to itself
    ghost var owned: seq<set<object>>

    /** The record at place i and all it refers to are among i's objects. */
    ghost predicate Own(i: nat)
      requires i < g_pMapping.Length && i < |owned|
      reads this, g_pMapping, owned[i]
    {
      Contained(g_pMapping[i], owned[i])
    }

    /** The records of different mappings share no object. */
    ghost predicate Valid()
      reads this, g_pMapping, Objects()
    {
      && g_pMapping.Length == Service.MAX_MAPPING_NUM == |owned|
      && (forall i, j :: 0 <= i < j < |owned| ==> owned[i] !! owned[j])
      && (forall i :: 0 <= i < |owned| ==> this !in owned[i] && g_pMapping !in owned[i])
      && (forall i: nat :: i < |owned| ==> Own(i))
    }

    ghost function SlotOf(i: nat): Option<Service.Slot>
      requires i < g_pMapping.Length && i < |owned| && Own(i)
      reads this, g_pMapping, owned[i]
    {
      SlotIn(g_pMapping[i], owned[i])
    }

    /** The globals hold what w says. */
    ghost predicate Matches(w: Service.Service)
      reads this, g_pMapping, Objects()
    {
      && Valid() && |w.table| == g_pMapping.Length
      && (forall i: nat :: i < g_pMapping.Length ==> Own(i) && w.table[i] == SlotOf(i))
      && w.num == g_mappingNum && w.inotifyFd == g_inotifyFd && w.dgram == g_ipcDgramhandle
      && w.dgramLive == dgramLive && w.log == log && w.gone == gone
    }

    /** Only place i was given more objects. */
    ghost predicate Grown(before: seq<set<object>>, i: nat)
      reads this
    {
      |owned| == |before| && i < |owned| && before[i] <= owned[i] && owned == before[i := owned[i]]
    }

    ghost function Objects(): set<object>
      reads this
    {
      set i, o | 0 <= i < |owned| && o in owned[i] :: o
    }

    /** Places other than i keep their contents when only i's objects changed; every
        place does when i is past the end. */
    twostate lemma OthersKept(i: nat)
      requires i <= g_pMapping.Length && old(Valid()) && unchanged(g_pMapping)
      requires |owned| == old(|owned|)
      requires forall j: nat :: j < |owned| && j != i ==> owned[j] == old(owned[j])
      requires forall j: nat, o :: j < |owned| && j != i && o in owned[j] ==> unchanged(o)
      ensures forall j: nat :: j < g_pMapping.Length && j != i ==> Own(j) && SlotOf(j) == old(SlotOf(j))
    {
      forall j: nat | j < g_pMapping.Length && j != i
        ensures Own(j) && SlotOf(j) == old(SlotOf(j))
      {
        assert old(Own(j));
      }
    }

    twostate lemma GrownFresh(i: nat)
      requires Grown(old(owned), i) && fresh(owned[i] - old(owned[i]))
      ensures fresh(Objects() - old(Objects()))
    {
      forall o | o in Objects() - old(Objects())
        ensures o in owned[i] && o !in old(owned[i])
      {
        assert forall j :: 0 <= j < |owned| && j != i ==> owned[j] == old(owned[j]);
      }
    }

    /** Changing place i, with more objects of its own or not, and the logs. */
    twostate lemma PlaceChanged(i: nat)
      requires i < g_pMapping.Length && old(Valid())
      requires forall j: nat :: j < g_pMapping.Length && j != i ==> g_pMapping[j] == old(g_pMapping[j])
      requires Grown(old(owned), i) && fresh(owned[i] - old(owned[i])) && Own(i)
      requires forall j: nat, o :: j < |owned| && j != i && o in owned[j] ==> unchanged(o)
      requires unchanged(this`g_mappingNum, this`g_inotifyFd, this`g_ipcDgramhandle, this`dgramLive)
      ensures forall w :: old(Matches(w)) ==>
                Matches(w.(table := w.table[i := SlotOf(i)], log := log, gone := gone))
    {
      forall j: nat | j < g_pMapping.Length && j != i
        ensures Own(j) && SlotOf(j) == old(SlotOf(j))
      {
        assert old(Own(j));
      }
    }

    // ----- One mapping of the table -----

    /** What the record at place i refers to now belongs to it. */
    ghost method Adopt(i: nat, ops: seq<Op<Service.Resource>>)
      requires i < g_pMapping.Length && i < |owned| && g_pMapping[i] != null && g_pMapping[i].Valid()
      modifies this`log, this`owned
      ensures log == old(log) + ops && owned == old(owned)[i := old(owned[i]) + g_pMapping[i].Repr()]
      ensures var m := g_pMapping[i];
              Own(i) && SlotOf(i) == Some(Service.Slot(Service.Entry(m.tcpPort, m.pipePath, m.pipeName, m.descript),
                                                       m.index, m.wd, old(m.State())))
    {
      log := log + ops;
      owned := owned[i := owned[i] + g_pMapping[i].Repr()];
    }

    /** proxy_launchTcp. */
    method LaunchPlace(i: nat, o: LaunchOracle) returns (error: int)
      requires i < g_pMapping.Length && i < |owned| && Own(i) && g_pMapping[i] != null && o.socket != 0
      modifies this`log, this`owned, g_pMapping[i]
      ensures error == 0 <==> Launches(o)
      ensures Grown(old(owned), i) && fresh(owned[i] - old(owned[i])) && Own(i)
      ensures SlotOf(i) == Some(old(SlotOf(i)).value.(link := Proxy.LaunchTcp(old(SlotOf(i)).value.link, o)))
      ensures log == old(log) + if Launches(o) then [Acquire(Service.TcpHandle(i))] else []
    {
      error := g_pMapping[i].LaunchTcp(o);
      Adopt(i, if error == 0 then [Acquire(Service.TcpHandle(i))] else []);
    }

    /** proxy_connectIpc. */
    method ConnectPlace(i: nat, o: ConnectOracle) returns (error: int)
      requires i < g_pMapping.Length && i < |owned| && Own(i) && g_pMapping[i] != null && o.socket != 0
      modifies this`log, this`owned, g_pMapping[i], g_pMapping[i].ipcStreamHandle
      ensures error == 0 <==> Opens(o)
      ensures Grown(old(owned), i) && fresh(owned[i] - old(owned[i])) && Own(i)
      ensures SlotOf(i) == Some(old(SlotOf(i)).value.(link := Proxy.ConnectIpc(old(SlotOf(i)).value.link, o)))
      ensures log == old(log)
                     + ((if old(SlotOf(i)).value.link.client.Some? then [Release(Service.IpcHandle(i))] else [])
                        + if Opens(o) then [Acquire(Service.IpcHandle(i))] else [])
    {
      ghost var had := g_pMapping[i].ipcStreamHandle != null;
      error := g_pMapping[i].ConnectIpc(o);
      Adopt(i, (if had then [Release(Service.IpcHandle(i))] else [])
               + if error == 0 then [Acquire(Service.IpcHandle(i))] else []);
    }

    method LaunchOne(i: nat, o: LaunchOracle, ghost w: Service.Service) returns (error: int)
      requires Matches(w) && Service.InUse(w, i) && o.socket != 0
      modifies this`log, this`owned, g_pMapping[i]
      ensures Matches(Service.LaunchAt(w, i, o)) && (error == 0 <==> Launches(o))
      ensures Grown(old(owned), i) && fresh(owned[i] - old(owned[i]))
    {
      assert Own(i) && w.table[i] == SlotOf(i);
      error := LaunchPlace(i, o);
      PlaceChanged(i);
    }

    method ConnectOne(i: nat, o: ConnectOracle, ghost w: Service.Service) returns (error: int)
      requires Matches(w) && Service.InUse(w, i) && o.socket != 0
      modifies this`log, this`owned, g_pMapping[i], g_pMapping[i].ipcStreamHandle
      ensures Matches(Service.ConnectAt(w, i, o)) && (error == 0 <==> Opens(o))
      ensures Grown(old(owned), i) && fresh(owned[i] - old(owned[i]))
    {
      assert Own(i) && w.table[i] == SlotOf(i);
      error := ConnectPlace(i, o);
      PlaceChanged(i);
    }

    /** One round of proxy_uninit on a mapping. */
    method DownPlace(i: nat)
      requires i < g_pMapping.Length && i < |owned| && Own(i) && g_pMapping[i] != null
      modifies this`log, g_pMapping[i].Repr()
      ensures Own(i)
      ensures SlotOf(i) == Some(old(SlotOf(i)).value.(link := Service.DownLink(old(SlotOf(i)).value.link)))
      ensures var l := old(SlotOf(i)).value.link;
              log == old(log) + ((if l.client.Some? then [Release(Service.IpcHandle(i))] else [])
                                 + if l.server.Some? then [Release(Service.TcpHandle(i))] else [])
    {
      var m := g_pMapping[i];
      ghost var hadClient, hadServer := m.ipcStreamHandle != null, m.tcpServerHandle != null;
      m.TakeDown();
      log := log + ((if hadClient then [Release(Service.IpcHandle(i))] else [])
                    + if hadServer then [Release(Service.TcpHandle(i))] else []);
    }

    method DownOne(i: nat, ghost w: Service.Service)
      requires Matches(w) && i < g_pMapping.Length
      modifies this`log, owned[i]
      ensures Matches(Service.DownAt(w, i))
    {
      assert Own(i) && w.table[i] == SlotOf(i);
      if g_pMapping[i] != null {
        DownPlace(i);
        OthersKept(i);
      }
    }

    // ----- Loops over the table -----

    /** One round of proxy_init. */
    method StartOne(i: nat, launch: LaunchOracle, connect: ConnectOracle, ghost w: Service.Service)
      returns (error: int, ghost r: Service.Service)
      requires Matches(w) && Service.InUse(w, i) && launch.socket != 0 && connect.socket != 0
      modifies this`log, this`owned, owned[i]
      ensures error == 0 <==> Launches(launch) && Opens(connect)
      ensures r == if Launches(launch) then Service.ConnectAt(Service.LaunchAt(w, i, launch), i, connect)
                   else Service.LaunchAt(w, i, launch)
      ensures Matches(r) && fresh(Objects() - old(Objects()))
    {
      assert Own(i) && w.table[i] == SlotOf(i);
      r := Service.LaunchAt(w, i, launch);
      error := LaunchOne(i, launch, w);
      if error != 0 {
        GrownFresh(i);
        return;
      }
      assert Own(i);
      error := ConnectOne(i, connect, r);
      GrownFresh(i);
      r := Service.ConnectAt(r, i, connect);
    }

    /** The round of proxy_init for place i, empty or not. */
    method StartNext(i: nat, launches: seq<LaunchOracle>, connects: seq<ConnectOracle>, ghost w: Service.Service)
      returns (error: int, ghost r: Service.Service)
      requires Matches(w) && i < w.num <= |launches| && w.num <= |connects| && i < g_pMapping.Length
      requires launches[i].socket != 0 && connects[i].socket != 0
      modifies this`log, this`owned, owned[i]
      ensures Matches(r) && r.num == w.num && fresh(Objects() - old(Objects()))
      ensures Service.ProxyInit(w, i, launches, connects) ==
              if error == 0 then Service.ProxyInit(r, i + 1, launches, connects) else (r, false)
    {
      assert Own(i) && w.table[i] == SlotOf(i);
      error, r := 0, w;
      if g_pMapping[i] != null {
        error, r := StartOne(i, launches[i], connects[i], w);
      }
    }

    /** proxy_init: launch and connect every mapping, stopping at the first failure. */
    method ProxyInit(launches: seq<LaunchOracle>, connects: seq<ConnectOracle>, ghost w: Service.Service)
      returns (error: int, ghost r: Service.Service)
      requires Matches(w) && w.num <= Service.MAX_MAPPING_NUM
      requires |launches| == |connects| == Service.MAX_MAPPING_NUM
      requires forall k :: 0 <= k < |launches| ==> launches[k].socket != 0 && connects[k].socket != 0
      modifies this`log, this`owned, Objects()
      ensures Matches(r) && r == Service.ProxyInit(w, 0, launches, connects).0
      ensures error == 0 <==> Service.ProxyInit(w, 0, launches, connects).1
      ensures fresh(Objects() - old(Objects()))
    {
      r := w;
      var i := 0;
      while i < g_mappingNum
        invariant i <= g_mappingNum == w.num == r.num && Matches(r)
        invariant fresh(Objects() - old(Objects()))
        invariant Service.ProxyInit(r, i, launches, connects) == Service.ProxyInit(w, 0, launches, connects)
      {
        error, r := StartNext(i, launches, connects, r);
        if error != 0 {
          return;
        }
        i := i + 1;
      }
      error := 0;
    }

    /** proxy_uninit. */
    method ProxyUninit(ghost w: Service.Service)
      requires Matches(w) && w.num <= g_pMapping.Length
      modifies this`log, Objects()
      ensures Matches(Service.ProxyUninit(w, 0))
    {
      ghost var r := w;
      var i := 0;
      while i < g_mappingNum
        invariant i <= g_mappingNum == w.num == r.num && Matches(r) && owned == old(owned)
        invariant Service.ProxyUninit(r, i) == Service.ProxyUninit(w, 0)
      {
        DownOne(i, r);
        r := Service.DownAt(r, i);
        i := i + 1;
      }
    }

    // ----- Watches -----

    method WatchPlace(i: nat, wd: int)
      requires i < g_pMapping.Length && i < |owned| && Own(i) && g_pMapping[i] != null
      modifies g_pMapping[i]
      ensures Own(i) && SlotOf(i) == Some(old(SlotOf(i)).value.(wd := wd))
    {
      g_pMapping[i].wd := wd;
    }

    /** One round of event_init or event_uninit. */
    method WatchOne(i: nat, wd: int, ghost w: Service.Service)
      requires Matches(w) && Service.InUse(w, i)
      modifies owned[i]
      ensures Matches(Service.SetWatch(w, i, wd))
    {
      assert Own(i) && w.table[i] == SlotOf(i);
      WatchPlace(i, wd);
      OthersKept(i);
    }

    /** The round of event_init for place i. */
    method WatchNext(i: nat, wd: int, ghost w: Service.Service)
      requires Matches(w) && i < g_pMapping.Length
      modifies owned[i]
      ensures Matches(Service.WatchAt(w, i, wd))
    {
      assert Own(i) && w.table[i] == SlotOf(i);
      if g_pMapping[i] != null && wd >= 0 {
        WatchOne(i, wd, w);
      }
    }

    /** The round of event_uninit for place i. */
    method UnwatchNext(i: nat, ghost w: Service.Service)
      requires Matches(w) && i < g_pMapping.Length
      modifies owned[i]
      ensures Matches(Service.UnwatchAt(w, i))
    {
      assert Own(i) && w.table[i] == SlotOf(i);
      if g_pMapping[i] != null && g_pMapping[i].wd >= 0 {
        WatchOne(i, -1, w);
      }
    }

    /** inotify_init returned fd. */
    method OpenInotify(fd: int, ghost w: Service.Service)
      requires Matches(w)
      modifies this`log, this`g_inotifyFd
      ensures Matches(if fd < 0 then w.(inotifyFd := fd)
                      else w.(inotifyFd := fd, log := w.log + [Acquire(Service.InotifyFd)]))
    {
      g_inotifyFd := fd;
      if fd >= 0 {
        log := log + [Acquire(Service.InotifyFd)];
      }
      OthersKept(g_pMapping.Length);
    }

    /** event_init: wds are the answers of inotify_add_watch. */
    method EventInit(fd: int, wds: seq<int>, ghost w: Service.Service) returns (error: int)
      requires Matches(w) && w.num <= g_pMapping.Length
      modifies this`log, this`g_inotifyFd, Objects()
      ensures Matches(Service.EventInit(w, fd, wds)) && owned == old(owned)
      ensures error == 0 <==> fd >= 0
    {
      OpenInotify(fd, w);
      if fd < 0 {
        return -1;
      }
      ghost var a := w.(inotifyFd := fd, log := w.log + [Acquire(Service.InotifyFd)]);
      ghost var r := a;
      var i := 0;
      while i < g_mappingNum
        invariant i <= g_mappingNum == a.num == r.num && Matches(r) && owned == old(owned)
        invariant Service.WatchAll(r, wds, i) == Service.WatchAll(a, wds, 0)
      {
        var wd := if i < |wds| then wds[i] else -1;
        WatchNext(i, wd, r);
        r := Service.WatchAt(r, i, wd);
        i := i + 1;
      }
      return 0;
    }

    /** event_uninit. */
    method EventUninit(ghost w: Service.Service)
      requires Matches(w) && w.num <= g_pMapping.Length
      modifies this`log, this`g_inotifyFd, Objects()
      ensures Matches(Service.EventUninit(w)) && owned == old(owned)
    {
      ghost var r := w;
      var i := 0;
      while i < g_mappingNum
        invariant i <= g_mappingNum == w.num == r.num && Matches(r) && owned == old(owned)
        invariant Service.UnwatchAll(r, i) == Service.UnwatchAll(w, 0)
      {
        UnwatchNext(i, r);
        r := Service.UnwatchAt(r, i);
        i := i + 1;
      }
      CloseInotify(r);
    }

    method CloseInotify(ghost w: Service.Service)
      requires Matches(w)
      modifies this`log, this`g_inotifyFd
      ensures Matches(if w.inotifyFd >= 0
                      then w.(inotifyFd := -1, log := w.log + [Release(Service.InotifyFd)]) else w)
    {
      if g_inotifyFd >= 0 {
        g_inotifyFd := -1;
        log := log + [Release(Service.InotifyFd)];
        OthersKept(g_pMapping.Length);
      }
    }

    // ----- Configuration -----

    /** One enabled element: a new record in the next free place. */
    method AddMapping(port: nat, path: seq<byte>, name: seq<byte>, desc: seq<byte>,
                      ghost acc: seq<Service.Entry>)
      requires Filled(acc) && |acc| < Service.MAX_MAPPING_NUM
      modifies this`g_mappingNum, this`log, this`owned, g_pMapping
      ensures Filled(acc + [Service.Entry(port, path, name, desc)])
      ensures log == old(log) + [Acquire(Service.MappingRec(|acc|))]
      ensures fresh(Objects() - old(Objects()))
    {
      var m := new TMapping(port, path, name, desc, g_mappingNum);
      log := log + [Acquire(Service.MappingRec(g_mappingNum))];
      owned := owned[g_mappingNum := {m}];
      g_pMapping[g_mappingNum] := m;
      g_mappingNum := g_mappingNum + 1;
      GrownFresh(|acc|);
      ghost var more := acc + [Service.Entry(port, path, name, desc)];
      forall j: nat | j < g_pMapping.Length
        ensures Own(j) && SlotOf(j) == Place(more, j) && (j >= |more| ==> owned[j] == {})
      {
        assert old(Own(j)) && old(SlotOf(j)) == Place(acc, j);
      }
    }

    /** The next <MAPPING> element; left are this one and those after it. fits is false
        when its text goes past its fields. */
    method TakeNode(node: Service.Node, cwd: Option<seq<byte>>, ghost left: seq<Service.Node>,
                    ghost acc: seq<Service.Entry>, ghost base: seq<Op<Service.Resource>>)
      returns (fits: bool, ghost more: seq<Service.Entry>)
      requires Filled(acc) && log == base + Service.RecOps(|acc|) && NodeOk(node) && CwdOk(cwd) && left != [] && left[0] == node
      modifies this`g_mappingNum, this`log, this`owned, g_pMapping
      ensures fits ==> Remaining(more, left[1..], cwd) == Remaining(acc, left, cwd)
      ensures !fits ==> !Remaining(acc, left, cwd).1
      ensures Filled(more) && log == base + Service.RecOps(|more|)
      ensures fresh(Objects() - old(Objects()))
    {
      more, fits := acc, true;
      RemainingTaken(acc, left, cwd);
      if node.enable != 0 && g_mappingNum < Service.MAX_MAPPING_NUM {
        var port, path, name, desc;
        fits, port, path, name, desc := ParseEntry(node, cwd);
        if fits {
          AddMapping(port, path, name, desc, acc);
          more := acc + [Service.EntryOf(node, cwd)];
        }
      }
    }

    ghost function Place(acc: seq<Service.Entry>, j: nat): Option<Service.Slot> {
      if j < |acc| then Some(Service.Slot(acc[j], j, -1, Proxy.Blank)) else None
    }

    /** The table holds these entries, in order, and nothing else. */
    ghost predicate Filled(acc: seq<Service.Entry>)
      reads this, g_pMapping, Objects()
    {
      && Valid() && |acc| <= g_pMapping.Length && g_mappingNum == |acc|
      && forall j: nat :: j < g_pMapping.Length ==>
           Own(j) && SlotOf(j) == Place(acc, j) && (j >= |acc| ==> owned[j] == {})
    }

    /** The start of serv_init: every place cleared. */
    method ClearTable()
      requires g_pMapping.Length == Service.MAX_MAPPING_NUM
      modifies this`g_mappingNum, this`owned, g_pMapping
      ensures Filled([]) && forall j :: 0 <= j < |owned| ==> owned[j] == {}
    {
      var i := 0;
      while i < Service.MAX_MAPPING_NUM
        invariant 0 <= i <= g_pMapping.Length
        invariant forall k :: 0 <= k < i ==> g_pMapping[k] == null
      {
        g_pMapping[i] := null;
        i := i + 1;
      }
      g_mappingNum := 0;
      owned := seq(Service.MAX_MAPPING_NUM, _ => {});
    }

    /** parseTagMapping over the <MAPPING> elements. It stops, with fits false, at the
        first one whose text goes past its fields. */
    method ParseTagMapping(nodes: seq<Service.Node>, cwd: Option<seq<byte>>) returns (fits: bool)
      requires Filled([]) && CwdOk(cwd) && forall n :: n in nodes ==> NodeOk(n)
      modifies this`g_mappingNum, this`log, this`owned, g_pMapping
      ensures fits <==> Service.AllFit(nodes, cwd, 0)
      ensures fits ==> Filled(Service.Entries(nodes, cwd))
      ensures fits ==> log == old(log) + Service.RecOps(g_mappingNum)
      ensures fresh(Objects())
    {
      ghost var acc, left, base := [], nodes, log;
      ghost var all := Remaining([], nodes, cwd);
      assert Objects() == {};
      assert base + Service.RecOps(0) == base;
      var k := 0;
      while k < |nodes|
        invariant 0 <= k <= |nodes| && left == nodes[k..]
        invariant Filled(acc) && log == base + Service.RecOps(|acc|)
        invariant Remaining(acc, left, cwd) == all
        invariant fresh(Objects())
      {
        assert nodes[k] in nodes;
        fits, acc := TakeNode(nodes[k], cwd, left, acc, base);
        if !fits {
          return;
        }
        left, k := left[1..], k + 1;
      }
      fits := true;
    }

    // ----- Start-up -----

    constructor ()
      ensures Matches(Service.Unborn()) && Objects() == {}
    {
      g_pMapping := new TMapping?[Service.MAX_MAPPING_NUM](_ => null);
      g_mappingNum, g_inotifyFd, g_ipcDgramhandle, dgramLive := 0, -1, false, false;
      log, gone := [], [];
      owned := seq(Service.MAX_MAPPING_NUM, _ => {});
    }

    /** Clearing the table and xml_init. */
    method BootTable(doc: Service.Document, cwd: Option<seq<byte>>, ghost w: Service.Service)
      returns (fits: bool)
      requires Matches(w) && CwdOk(cwd) && (doc.Nodes? ==> forall n :: n in doc.nodes ==> NodeOk(n))
      modifies this`g_mappingNum, this`log, this`owned, g_pMapping
      ensures fits <==> Service.DocFits(doc, cwd)
      ensures fits ==> Matches(Service.BootTable(w, doc, cwd)) && g_mappingNum <= Service.MAX_MAPPING_NUM
      ensures fresh(Objects())
    {
      ClearTable();
      ghost var entries := [];
      fits := true;
      if doc.Nodes? {
        fits := ParseTagMapping(doc.nodes, cwd);
        if !fits {
          return;
        }
        entries := Service.Entries(doc.nodes, cwd);
      }
      ghost var r := Service.BootTable(w, doc, cwd);
      forall j: nat | j < g_pMapping.Length
        ensures Own(j) && r.table[j] == SlotOf(j)
      {
        assert Own(j);
        assert SlotOf(j) == Place(entries, j);
      }
    }

    /** comm_ipcDgramInit into the global handle. */
    method DgramInit(ok: bool, ghost w: Service.Service)
      requires Matches(w)
      modifies this`g_ipcDgramhandle, this`dgramLive, this`log
      ensures Matches(if ok then w.(dgram := true, dgramLive := true,
                                    log := w.log + [Acquire(Service.DgramHandle)])
                      else w.(dgram := false))
    {
      g_ipcDgramhandle := ok;
      if ok {
        dgramLive := true;
        log := log + [Acquire(Service.DgramHandle)];
      }
      OthersKept(g_pMapping.Length);
    }

    /** The rest of serv_init: the watches, then the control socket; what is up is
        taken down again when one of them fails. */
    method StartEvents(fd: int, wds: seq<int>, dgramOk: bool, ghost w: Service.Service)
      returns (error: int, ghost r: Service.Service)
      requires Matches(w) && w.num <= g_pMapping.Length
      modifies this`log, this`g_inotifyFd, this`g_ipcDgramhandle, this`dgramLive, Objects()
      ensures Matches(r) && r == Service.StartEvents(w, fd, wds, dgramOk).0
      ensures error == 0 <==> Service.StartEvents(w, fd, wds, dgramOk).1
    {
      error := EventInit(fd, wds, w);
      r := Service.EventInit(w, fd, wds);
      Service.EventInitNum(w, fd, wds);
      if error != 0 {
        ProxyUninit(r);
        r := Service.ProxyUninit(r, 0);
        return;
      }
      DgramInit(dgramOk, r);
      if !g_ipcDgramhandle {
        r := r.(dgram := false);
        Service.EventUninitNum(r);
        EventUninit(r);
        r := Service.EventUninit(r);
        ProxyUninit(r);
        r := Service.ProxyUninit(r, 0);
        return -1, r;
      }
      r := r.(dgram := true, dgramLive := true, log := r.log + [Acquire(Service.DgramHandle)]);
    }

    /** What serv_init does once the table is filled. */
    method StartAll(o: Service.InitOracle, ghost w: Service.Service)
      returns (error: int, ghost r: Service.Service)
      requires Matches(w) && Service.InitOracleOk(o) && w.num <= Service.MAX_MAPPING_NUM
      requires forall k :: 0 <= k < |o.launches| ==> o.launches[k].socket != 0 && o.connects[k].socket != 0
      modifies this`log, this`owned, this`g_inotifyFd, this`g_ipcDgramhandle, this`dgramLive, Objects()
      ensures Matches(r) && fresh(Objects() - old(Objects()))
      ensures var (b, ok) := Service.ProxyInit(w, 0, o.launches, o.connects);
              && r == (if ok then Service.StartEvents(b, o.fd, o.wds, o.dgramOk).0 else b)
              && (error == 0 <==> ok && Service.StartEvents(b, o.fd, o.wds, o.dgramOk).1)
    {
      error, r := ProxyInit(o.launches, o.connects, w);
      if error == 0 {
        Service.ProxyInitNum(w, 0, o.launches, o.connects);
        error, r := StartEvents(o.fd, o.wds, o.dgramOk, r);
      }
    }

    /** serv_init; fits is false when the configuration goes past a field. */
    method ServInit(o: Service.InitOracle, ghost w: Service.Service)
      returns (fits: bool, error: int, ghost r: Service.Service)
      requires Matches(w) && Service.InitOracleOk(o) && CwdOk(o.cwd)
      requires o.doc.Nodes? ==> forall n :: n in o.doc.nodes ==> NodeOk(n)
      requires forall k :: 0 <= k < |o.launches| ==> o.launches[k].socket != 0 && o.connects[k].socket != 0
      modifies this, g_pMapping
      ensures fits <==> Service.DocFits(o.doc, o.cwd)
      ensures fits ==> Matches(r) && r == Service.ServInit(w, o).0
      ensures fits ==> (error == 0 <==> Service.ServInit(w, o).1)
      ensures fits ==> fresh(Objects()) && g_mappingNum <= Service.MAX_MAPPING_NUM
    {
      error, r := -1, w;
      fits := BootTable(o.doc, o.cwd, w);
      if !fits {
        return;
      }
      r := Service.BootTable(w, o.doc, o.cwd);
      if o.doc.NoRoot? || g_mappingNum == 0 {
        return;
      }
      error, r := StartAll(o, r);
    }

    // ----- Shut-down -----

    /** comm_ipcDgramUninit on the global handle, which keeps its value. */
    method DgramUninit(ghost w: Service.Service) returns (ghost r: Service.Service)
      requires Matches(w)
      modifies this`log, this`dgramLive
      ensures Matches(r) && r == Service.DgramDown(w)
    {
      r := w;
      if g_ipcDgramhandle {
        dgramLive := false;
        log := log + [Release(Service.DgramHandle)];
        r := w.(dgramLive := false, log := w.log + [Release(Service.DgramHandle)]);
        OthersKept(g_pMapping.Length);
      }
    }

    /** serv_uninit. */
    method ServUninit(ghost w: Service.Service)
      requires Matches(w) && w.num <= g_pMapping.Length
      modifies this, g_pMapping, Objects()
      ensures Matches(Service.ServUninit(w))
    {
      ghost var a := DgramUninit(w);
      EventUninit(a);
      ghost var b := Service.EventUninit(a);
      Service.EventUninitNum(a);
      ProxyUninit(b);
      FreeMappings(Service.ProxyUninit(b, 0));
      ClearNum(Service.FreeAll(Service.ProxyUninit(b, 0), 0));
    }

    /** The start of the service's main routine: a start-up that fails anywhere is
        followed by a full shut-down. */
    method StartOrClean(o: Service.InitOracle) returns (fits: bool, error: int, ghost r: Service.Service)
      requires Matches(Service.Unborn()) && Service.InitOracleOk(o) && CwdOk(o.cwd)
      requires o.doc.Nodes? ==> forall n :: n in o.doc.nodes ==> NodeOk(n)
      requires forall k :: 0 <= k < |o.launches| ==> o.launches[k].socket != 0 && o.connects[k].socket != 0
      modifies this, g_pMapping
      ensures fits <==> Service.DocFits(o.doc, o.cwd)
      ensures fits ==> Matches(r) && (error == 0 <==> Service.ServInit(Service.Unborn(), o).1)
      ensures fits && error == 0 ==> r == Service.ServInit(Service.Unborn(), o).0
      ensures fits && error != 0 && StartUp.InitFresh(o) ==> Service.Finished(r)
    {
      fits, error, r := ServInit(o, Service.Unborn());
      if fits && error != 0 {
        ServUninit(r);
        r := Service.ServUninit(r);
        if StartUp.InitFresh(o) {
          StartUp.InitThenUninit(o);
        }
      }
    }

    method ClearNum(ghost w: Service.Service)
      requires Matches(w)
      modifies this`g_mappingNum
      ensures Matches(w.(num := 0, phase := Service.Done))
    {
      g_mappingNum := 0;
      OthersKept(g_pMapping.Length);
    }

    /** The loop over all 64 places that frees what is left in the table. */
    method FreeMappings(ghost w: Service.Service)
      requires Matches(w)
      modifies this`log, this`gone, g_pMapping
      ensures Matches(Service.FreeAll(w, 0))
    {
      ghost var r := w;
      var i := 0;
      while i < Service.MAX_MAPPING_NUM
        invariant i <= g_pMapping.Length && Matches(r) && owned == old(owned)
        invariant Service.FreeAll(r, i) == Service.FreeAll(w, 0)
      {
        FreeOne(i, r);
        r := Service.FreeAt(r, i);
        i := i + 1;
      }
    }

    method FreeOne(i: nat, ghost w: Service.Service)
      requires Matches(w) && i < g_pMapping.Length
      modifies this`log, this`gone, g_pMapping
      ensures Matches(Service.FreeAt(w, i))
    {
      assert Own(i) && w.table[i] == SlotOf(i);
      if g_pMapping[i] != null {
        log := log + [Release(Service.MappingRec(i))];
        gone := gone + [SlotOf(i).value];
        g_pMapping[i] := null;
        PlaceChanged(i);
      }
    }

    // ----- The control socket -----

    /** ipcRecvFunc: the commands other than "exit" leave the mappings alone. */
    method IpcRecvFunc(data: seq<byte>, ghost w: Service.Service)
      requires Matches(w) && w.num <= g_pMapping.Length
      modifies this`log, this`g_inotifyFd, Objects()
      ensures Matches(if CStr(data) == [0x65, 0x78, 0x69, 0x74] then Service.EventUninit(w) else w)
    {
      if CStr(data) == EXIT {
        EventUninit(w);
      }
    }

    // ----- The monitor -----

    /** The scan for one event record: name is what strcmp sees. */
    method HandleRecord(name: seq<byte>, o: ConnectOracle, ghost w: Service.Service)
      requires Matches(w) && o.socket != 0
      modifies this`log, this`owned, Objects()
      ensures Matches(Service.Dispatch(w, name, o)) && fresh(Objects() - old(Objects()))
    {
      var i := 0;
      while i < Service.MAX_MAPPING_NUM
        invariant i <= g_pMapping.Length && Matches(w) && owned == old(owned) && log == old(log)
        invariant Service.FirstWaiting(w.table, name, i) == Service.FirstWaiting(w.table, name, 0)
      {
        assert Own(i) && w.table[i] == SlotOf(i);
        if g_pMapping[i] != null && !g_pMapping[i].pipeConnect {
          if g_pMapping[i].pipeName == name {
            var error := ConnectOne(i, o, w);
            GrownFresh(i);
            return;
          }
        }
        i := i + 1;
      }
    }

    /** One round of the cursor loop. */
    method HandleAt(buf: array<byte>, j: nat, len: nat, o: ConnectOracle, ghost text: seq<byte>,
                    ghost rest: seq<ConnectOracle>, ghost w: Service.Service)
      returns (next: nat, ghost r: Service.Service)
      requires Matches(w) && buf !in Objects() && o.socket != 0
      requires buf[..] == text && j < len && Answered(text, j, len, rest)
      requires rest != [] ==> rest[0] == o
      modifies this`log, this`owned, Objects()
      ensures Matches(r) && fresh(Objects() - old(Objects()))
      ensures rest != [] && j < next && Answered(text, next, len, rest[1..])
      ensures AfterAll(r, text, next, len, rest[1..]) == AfterAll(w, text, j, len, rest)
    {
      ghost var rs := Decode(text[j..len]).value;
      var name: seq<byte>;
      name, next := ReadRecord(buf, j, len, text, rs);
      HandleRecord(name, o, w);
      r := Service.Dispatch(w, name, o);
    }

    /** One buffer read from the watch descriptor: rs are the records it holds, and
        the k-th is answered by os[k] if it makes the proxy connect. */
    method HandleBuffer(buf: array<byte>, len: nat, os: seq<ConnectOracle>,
                        ghost rs: seq<Record>, ghost w: Service.Service)
      returns (ghost r: Service.Service)
      requires Matches(w) && buf !in Objects()
      requires RecordsAt(buf[..], 0, len, rs) && |os| == |rs|
      requires forall k :: 0 <= k < |os| ==> os[k].socket != 0
      modifies this`log, this`owned, Objects()
      ensures Matches(r) && r == Service.DispatchAll(w, SeenNames(rs, buf[len..]), os)
    {
      ghost var text, rest := buf[..], os;
      ghost var all := AfterAll(w, text, 0, len, os);
      assert text[len..] == buf[len..];
      r := w;
      var j, k := 0, 0;
      while j < len
        invariant 0 <= k <= |os| && rest == os[k..]
        invariant buf[..] == text && Answered(text, j, len, rest)
        invariant Matches(r) && fresh(Objects() - old(Objects()))
        invariant AfterAll(r, text, j, len, rest) == all
        decreases len - j
      {
        SomeLeft(text, j, len, rest);
        j, r := HandleAt(buf, j, len, os[k], text, rest, r);
        rest, k := rest[1..], k + 1;
      }
    }
  }

  /** What is left of the buffer is whole records, one for each of these answers. */
  ghost predicate Answered(text: seq<byte>, j: nat, len: nat, rest: seq<ConnectOracle>) {
    j <= len <= |text| && Decode(text[j..len]).Some? && |Decode(text[j..len]).value| == |rest|
  }

  lemma SomeLeft(text: seq<byte>, j: nat, len: nat, rest: seq<ConnectOracle>)
    requires Answered(text, j, len, rest) && j < len
    ensures rest != []
  {
  }

  /** The service after the rest of the buffer. */
  ghost function AfterAll(w: Service.Service, text: seq<byte>, j: nat, len: nat, rest: seq<ConnectOracle>)
    : Service.Service
    requires Answered(text, j, len, rest)
  {
    Service.DispatchAll(w, SeenNames(Decode(text[j..len]).value, text[len..]), rest)
  }

  /** The entries in the end, and whether all of them fit, with acc in the table and
      left still to be parsed. */
  ghost function Remaining(acc: seq<Service.Entry>, left: seq<Service.Node>, cwd: Option<seq<byte>>)
    : (seq<Service.Entry>, bool)
  {
    (Service.Fill(acc, Service.Items(left, cwd)), Service.AllFit(left, cwd, |acc|))
  }

  lemma RemainingTaken(acc: seq<Service.Entry>, left: seq<Service.Node>, cwd: Option<seq<byte>>)
    requires left != []
    ensures left[0].enable != 0 && |acc| < Service.MAX_MAPPING_NUM ==>
              if Service.NodeFits(left[0], cwd)
              then Remaining(acc + [Service.EntryOf(left[0], cwd)], left[1..], cwd) == Remaining(acc, left, cwd)
              else !Remaining(acc, left, cwd).1
    ensures left[0].enable == 0 || |acc| >= Service.MAX_MAPPING_NUM ==>
              Remaining(acc, left[1..], cwd) == Remaining(acc, left, cwd)
  {
  }

  /** Strings as libxml hands them out. */
  ghost predicate NodeOk(n: Service.Node) {
    && (n.pipe.Some? ==> NUL !in n.pipe.value)
    && (n.desc.Some? ==> NUL !in n.desc.value)
  }

  /** A C string in a buffer of its own. */
  method CBuffer(t: seq<byte>) returns (a: array<byte>)
    requires NUL !in t
    ensures fresh(a) && a.Length == |t| + 1 && CStr(a[..]) == t && NUL in a[..]
  {
    a := new byte[|t| + 1](_ => NUL);
    forall k | 0 <= k < |t| {
      a[k] := t[k];
    }
    assert a[|t|] == NUL && a[..][|t|] == NUL;
    CStrOf(t, a[..]);
  }

  /** The fields of one <MAPPING> element, zero or empty where a child is missing; the
      port is an unsigned short. */
  method ParseEntry(node: Service.Node, cwd: Option<seq<byte>>)
    returns (fits: bool, port: nat, path: seq<byte>, name: seq<byte>, desc: seq<byte>)
    requires NodeOk(node) && CwdOk(cwd)
    ensures fits <==> Service.NodeFits(node, cwd)
    ensures fits ==> Service.Entry(port, path, name, desc) == Service.EntryOf(node, cwd)
  {
    fits, port, path, name, desc := true, 0, [], [], [];
    if node.port.Some? {
      port := node.port.value % 0x1_0000;
    }
    if node.pipe.Some? {
      fits, path, name := ParsePipe(node.pipe.value, cwd);
    }
    if node.desc.Some? {
      desc := ParseDesc(node.desc.value);
    }
  }

  /** The <PIPE> text, trimmed and split in C buffers. */
  method ParsePipe(text: seq<byte>, cwd: Option<seq<byte>>)
    returns (fits: bool, path: seq<byte>, name: seq<byte>)
    requires NUL !in text && CwdOk(cwd)
    ensures fits <==> Fits(Trim(text), cwd)
    ensures fits ==> (path, name) == Split(Trim(text), cwd)
  {
    var pipe := CBuffer(text);
    var out := RemoveSpace(pipe);
    var pPath := new byte[PATH_SIZE](_ => NUL);
    var pName := new byte[NAME_SIZE](_ => NUL);
    var inside := DecomposePathName(pipe, out, pPath, pName, cwd);
    fits := inside && NUL in pPath[..] && NUL in pName[..];
    path, name := CStr(pPath[..]), CStr(pName[..]);
  }

  /** The <DESC> text, trimmed and cut to its field. */
  method ParseDesc(text: seq<byte>) returns (desc: seq<byte>)
    requires NUL !in text
    ensures desc == AtMost(Trim(text), NAME_SIZE - 1)
  {
    var buf := CBuffer(text);
    var out := RemoveSpace(buf);
    var pDesc := new byte[NAME_SIZE](_ => NUL);
    CopyBounded(buf, out, pDesc);
    desc := CStr(pDesc[..]);
  }

  /** What is read at the cursor j, with rs the records from there on: the name
      strcmp sees and where the next record starts. */
  method ReadRecord(buf: array<byte>, j: nat, len: nat, ghost text: seq<byte>, ghost rs: seq<Record>)
    returns (name: seq<byte>, next: nat)
    requires buf[..] == text && j < len && RecordsAt(text, j, len, rs)
    ensures rs != [] && j < next && RecordsAt(text, next, len, rs[1..])
    ensures SeenNames(rs, text[len..]) == [name] + SeenNames(rs[1..], text[len..])
  {
    CursorNext(text, j, len, rs);
    CursorName(text, j, len, rs);
    assert buf[j + 12..j + 16] == text[j + 12..j + 16] && buf[j + EVENT_SIZE..] == text[j + EVENT_SIZE..];
    name := CStr(buf[j + EVENT_SIZE..]);
    next := j + EVENT_SIZE + ReadU32(buf[j + 12..j + 16]);
  }
}
