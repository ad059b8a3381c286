/** The proxy service: the mapping table, staged start-up, the monitor and
    shut-down, as a state machine. The main thread's stages, those of shut-down
    included, interleave freely with the steps of every launched mapping and with
    the control command "exit". */
module Service {
  import opened Ledger
  import opened TcpTable
  import opened Proxy
  import opened Text

  const MAX_MAPPING_NUM: nat := 64

  // ----- Configuration -----

  /** One <MAPPING> element: its attribute and the text of the children it has. */
  datatype Node = Node(enable: int, port: Option<int>, pipe: Option<seq<byte>>, desc: Option<seq<byte>>)

  datatype Entry = Entry(port: nat, path: seq<byte>, name: seq<byte>, desc: seq<byte>)

  function EntryOf(n: Node, cwd: Option<seq<byte>>): (e: Entry) {
    var (path, name) := if n.pipe.Some? then Split(Trim(n.pipe.value), cwd) else ([], []);
    Entry(if n.port.Some? then n.port.value % 0x1_0000 else 0, path, name,
          if n.desc.Some? then AtMost(Trim(n.desc.value), NAME_SIZE - 1) else [])
  }

  /** The element's pipe text fits its fields. */
  predicate NodeFits(n: Node, cwd: Option<seq<byte>>) {
    n.pipe.Some? ==> Fits(Trim(n.pipe.value), cwd)
  }

  /** Every element that is given a place fits, when count places are taken. */
  predicate AllFit(nodes: seq<Node>, cwd: Option<seq<byte>>, count: nat) {
    nodes == [] ||
    if nodes[0].enable != 0 && count < MAX_MAPPING_NUM
    then NodeFits(nodes[0], cwd) && AllFit(nodes[1..], cwd, count + 1)
    else AllFit(nodes[1..], cwd, count)
  }

  /** The elements in document order, each with whether it is enabled. */
  function Items(nodes: seq<Node>, cwd: Option<seq<byte>>): (r: seq<(bool, Entry)>)
    ensures |r| == |nodes|
    ensures forall k :: 0 <= k < |nodes| ==> r[k] == (nodes[k].enable != 0, EntryOf(nodes[k], cwd))
  {
    if nodes == [] then []
    else [(nodes[0].enable != 0, EntryOf(nodes[0], cwd))] + Items(nodes[1..], cwd)
  }

  /** Appending the enabled ones while there is room. */
  function Fill<T>(acc: seq<T>, items: seq<(bool, T)>): (r: seq<T>)
    decreases |items|
  {
    if items == [] then acc
    else if items[0].0 && |acc| < MAX_MAPPING_NUM then Fill(acc + [items[0].1], items[1..])
    else Fill(acc, items[1..])
  }

  /** All enabled ones. */
  function EnabledOnes<T>(items: seq<(bool, T)>): (r: seq<T>) {
    if items == [] then []
    else (if items[0].0 then [items[0].1] else []) + EnabledOnes(items[1..])
  }

  /** The entries the table is filled with. */
  function Entries(nodes: seq<Node>, cwd: Option<seq<byte>>): (r: seq<Entry>) {
    Fill([], Items(nodes, cwd))
  }

  function Min(a: nat, b: nat): nat {
    if a < b then a else b
  }

  lemma FillFull<T>(acc: seq<T>, items: seq<(bool, T)>)
    requires |acc| == MAX_MAPPING_NUM
    ensures Fill(acc, items) == acc
    decreases |items|
  {
    if items != [] {
      FillFull(acc, items[1..]);
    }
  }

  lemma {:induction false} FillAppends<T>(acc: seq<T>, items: seq<(bool, T)>)
    requires |acc| <= MAX_MAPPING_NUM
    ensures var all := acc + EnabledOnes(items);
            Fill(acc, items) == all[..Min(MAX_MAPPING_NUM, |all|)]
    decreases |items|
  {
    var all := acc + EnabledOnes(items);
    if |acc| == MAX_MAPPING_NUM {
      FillFull(acc, items);
      assert all[..MAX_MAPPING_NUM] == acc;
    } else if items == [] {
      assert all == acc;
    } else if items[0].0 {
      FillAppends(acc + [items[0].1], items[1..]);
      assert acc + [items[0].1] + EnabledOnes(items[1..]) == all;
    } else {
      FillAppends(acc, items[1..]);
      assert acc + EnabledOnes(items[1..]) == all;
    }
  }

  /** The table holds the first 64 enabled elements, in document order. */
  lemma EntriesTakeFirst(nodes: seq<Node>, cwd: Option<seq<byte>>)
    ensures var all := EnabledOnes(Items(nodes, cwd));
            Entries(nodes, cwd) == all[..Min(MAX_MAPPING_NUM, |all|)]
  {
    FillAppends([], Items(nodes, cwd));
    assert [] + EnabledOnes(Items(nodes, cwd)) == EnabledOnes(Items(nodes, cwd));
  }

  // ----- State -----

  /** One allocated tMapping. */
  datatype Slot = Slot(entry: Entry, index: nat, wd: int, link: Link)

  /** What the service acquires and must give back. */
  datatype Resource =
    | MappingRec(i: nat)
    | TcpHandle(i: nat)
    | IpcHandle(i: nat)
    | DgramHandle
    | InotifyFd

  datatype Phase =
    | Start
    | Launching(i: nat)
    | Connecting(i: nat)
    | Watching
    | Binding
    | Monitoring
    | Failed                               // serv_init has failed, serv_uninit is next
    | Unwatching(last: bool)               // event_uninit is next; last: within serv_uninit
    | Disconnecting(i: nat, last: bool)    // proxy_uninit: the client of mapping i is next
    | Ceasing(i: nat, last: bool)          // proxy_uninit: the server of mapping i is next
    | Freeing(i: nat)
    | Done

  datatype Service = Service(
    table: seq<Option<Slot>>,
    num: nat,
    inotifyFd: int,
    dgram: bool,                 // g_ipcDgramhandle is not 0
    dgramLive: bool,             // its context is allocated and its thread runs
    phase: Phase,
    log: seq<Op<Resource>>,
    gone: seq<Slot>)             // mappings as they were when freed

  datatype Document = NoFile | NoRoot | Nodes(nodes: seq<Node>)

  datatype ServiceEvent =
    | Boot(doc: Document, cwd: Option<seq<byte>>)
    | Launch(launch: LaunchOracle)
    | Connect(connect: ConnectOracle)
    | Watch(fd: int, wds: seq<int>)
    | BindDgram(ok: bool)
    | OnLink(i: nat, e: LinkEvent)
    | PipeCreated(name: seq<byte>, reconnect: ConnectOracle) // the monitor gets to a record
    | ExitCommand
    | CloseDgram
    | CloseMonitor
    | CloseIpc
    | CloseTcp
    | FreeMapping

  predicate DocFits(doc: Document, cwd: Option<seq<byte>>) {
    doc.Nodes? ==> AllFit(doc.nodes, cwd, 0)
  }

  function Unborn(): (w: Service)
    ensures |w.table| == MAX_MAPPING_NUM && forall i :: 0 <= i < |w.table| ==> w.table[i].None?
  {
    Service(seq(MAX_MAPPING_NUM, _ => None), 0, -1, false, false, Start, [], [])
  }

  predicate InUse(w: Service, i: nat) {
    i < |w.table| && w.table[i].Some?
  }

  function LinkAt(w: Service, i: nat): (l: Link)
    requires InUse(w, i)
  {
    w.table[i].value.link
  }

  function SetLink(w: Service, i: nat, l: Link, ops: seq<Op<Resource>>): (r: Service)
    requires InUse(w, i)
  {
    w.(table := w.table[i := Some(w.table[i].value.(link := l))], log := w.log + ops)
  }

  // ----- Routines -----

  function FilledTable(entries: seq<Entry>): (t: seq<Option<Slot>>)
    ensures |t| == MAX_MAPPING_NUM
  {
    seq(MAX_MAPPING_NUM, i requires 0 <= i < MAX_MAPPING_NUM =>
      if i < |entries| then Some(Slot(entries[i], i, -1, Blank)) else None)
  }

  function RecOps(n: nat): (ops: seq<Op<Resource>>)
    ensures |ops| == n
  {
    if n == 0 then [] else RecOps(n - 1) + [Acquire(MappingRec(n - 1))]
  }

  function BootTable(w: Service, doc: Document, cwd: Option<seq<byte>>): (r: Service) {
    var entries := if doc.Nodes? then Entries(doc.nodes, cwd) else [];
    w.(table := FilledTable(entries), num := |entries|, log := w.log + RecOps(|entries|),
       phase := if |entries| == 0 then Failed else Phase.Launching(0))
  }

  /** `proxy_launchTcp` on mapping i. */
  function LaunchAt(w: Service, i: nat, o: LaunchOracle): (r: Service)
    requires InUse(w, i)
  {
    SetLink(w, i, LaunchTcp(LinkAt(w, i), o), if Launches(o) then [Acquire(TcpHandle(i))] else [])
  }

  /** `proxy_connectIpc` on mapping i. */
  function ConnectAt(w: Service, i: nat, o: ConnectOracle): (r: Service)
    requires InUse(w, i)
  {
    SetLink(w, i, ConnectIpc(LinkAt(w, i), o),
            (if LinkAt(w, i).client.Some? then [Release(IpcHandle(i))] else [])
            + if Opens(o) then [Acquire(IpcHandle(i))] else [])
  }

  /** `proxy_init`, from mapping i on, with nothing else happening in between:
      the state reached and whether it succeeded. */
  function ProxyInit(w: Service, i: nat, launches: seq<LaunchOracle>, connects: seq<ConnectOracle>)
    : (r: (Service, bool))
    requires i <= w.num <= |launches| && w.num <= |connects|
    decreases w.num - i
  {
    if i == w.num then (w, true)
    else if !InUse(w, i) then ProxyInit(w, i + 1, launches, connects)
    else
      var a := LaunchAt(w, i, launches[i]);
      if !Launches(launches[i]) then (a, false)
      else
        var b := ConnectAt(a, i, connects[i]);
        if !Opens(connects[i]) then (b, false) else ProxyInit(b, i + 1, launches, connects)
  }

  lemma {:induction false} ProxyInitNum(w: Service, i: nat, launches: seq<LaunchOracle>, connects: seq<ConnectOracle>)
    requires i <= w.num <= |launches| && w.num <= |connects|
    ensures ProxyInit(w, i, launches, connects).0.num == w.num
    decreases w.num - i
  {
    if i < w.num {
      if !InUse(w, i) {
        ProxyInitNum(w, i + 1, launches, connects);
      } else if Launches(launches[i]) && Opens(connects[i]) {
        ProxyInitNum(ConnectAt(LaunchAt(w, i, launches[i]), i, connects[i]), i + 1, launches, connects);
      }
    }
  }

  function SetWatch(w: Service, i: nat, wd: int): (r: Service)
    requires InUse(w, i)
  {
    w.(table := w.table[i := Some(w.table[i].value.(wd := wd))])
  }

  /** One round of `event_init`: a negative wd is a failed inotify_add_watch. */
  function WatchAt(w: Service, i: nat, wd: int): (r: Service)
    ensures r.num == w.num
  {
    if InUse(w, i) && wd >= 0 then SetWatch(w, i, wd) else w
  }

  function WatchAll(w: Service, wds: seq<int>, i: nat): (r: Service)
    requires i <= w.num
    decreases w.num - i
  {
    if i == w.num then w
    else WatchAll(WatchAt(w, i, if i < |wds| then wds[i] else -1), wds, i + 1)
  }

  /** One round of `event_uninit`. */
  function UnwatchAt(w: Service, i: nat): (r: Service)
    ensures r.num == w.num
  {
    if InUse(w, i) && w.table[i].value.wd >= 0 then SetWatch(w, i, -1) else w
  }

  function UnwatchAll(w: Service, i: nat): (r: Service)
    requires i <= w.num
    decreases w.num - i
  {
    if i == w.num then w else UnwatchAll(UnwatchAt(w, i), i + 1)
  }

  /** `event_init`. */
  function EventInit(w: Service, fd: int, wds: seq<int>): (r: Service) {
    if fd < 0 then w.(inotifyFd := fd)
    else WatchAll(w.(inotifyFd := fd, log := w.log + [Acquire(InotifyFd)]), wds, 0)
  }

  lemma EventInitNum(w: Service, fd: int, wds: seq<int>)
    ensures EventInit(w, fd, wds).num == w.num
  {
    if fd >= 0 {
      WatchNum(w.(inotifyFd := fd, log := w.log + [Acquire(InotifyFd)]), wds, 0);
    }
  }

  lemma WatchNum(w: Service, wds: seq<int>, i: nat)
    requires i <= w.num
    ensures WatchAll(w, wds, i).num == w.num
    decreases w.num - i
  {
  }

  lemma EventUninitNum(w: Service)
    ensures EventUninit(w).num == w.num
  {
    UnwatchNum(w, 0);
  }

  lemma UnwatchNum(w: Service, i: nat)
    requires i <= w.num
    ensures UnwatchAll(w, i).num == w.num
    decreases w.num - i
  {
  }

  /** `event_uninit`. */
  function EventUninit(w: Service): (r: Service) {
    var u := UnwatchAll(w, 0);
    if u.inotifyFd >= 0 then u.(inotifyFd := -1, log := u.log + [Release(InotifyFd)]) else u
  }

  /** The answers of the operating system to a whole start-up. */
  datatype InitOracle = InitOracle(doc: Document, cwd: Option<seq<byte>>,
                                   launches: seq<LaunchOracle>, connects: seq<ConnectOracle>,
                                   fd: int, wds: seq<int>, dgramOk: bool)

  predicate InitOracleOk(o: InitOracle) {
    |o.launches| == |o.connects| == MAX_MAPPING_NUM
  }

  function DownLink(l: Link): (r: Link)
    ensures r.server.None? && r.client.None?
  {
    CeaseTcp(DisconnectIpc(l))
  }

  /** `proxy_disconnectIpc` on mapping i. */
  function DisconnectAt(w: Service, i: nat): (r: Service)
    requires InUse(w, i)
  {
    SetLink(w, i, DisconnectIpc(LinkAt(w, i)),
            if LinkAt(w, i).client.Some? then [Release(IpcHandle(i))] else [])
  }

  /** `proxy_ceaseTcp` on mapping i. */
  function CeaseAt(w: Service, i: nat): (r: Service)
    requires InUse(w, i)
  {
    SetLink(w, i, CeaseTcp(LinkAt(w, i)),
            if LinkAt(w, i).server.Some? then [Release(TcpHandle(i))] else [])
  }

  /** One round of `proxy_uninit`. */
  function DownAt(w: Service, i: nat): (r: Service)
    ensures r.num == w.num
  {
    if !InUse(w, i) then w
    else
      SetLink(w, i, DownLink(LinkAt(w, i)),
              (if LinkAt(w, i).client.Some? then [Release(IpcHandle(i))] else [])
              + if LinkAt(w, i).server.Some? then [Release(TcpHandle(i))] else [])
  }

  /** `proxy_uninit`, from mapping i on. */
  function ProxyUninit(w: Service, i: nat): (r: Service)
    requires i <= w.num
    decreases w.num - i
  {
    if i == w.num then w else ProxyUninit(DownAt(w, i), i + 1)
  }

  /** What `serv_init` does after `proxy_init`. */
  function StartEvents(w: Service, fd: int, wds: seq<int>, dgramOk: bool): (r: (Service, bool)) {
    var c := EventInit(w, fd, wds);
    if fd < 0 then (ProxyUninit(c, 0), false)
    else if !dgramOk then (ProxyUninit(EventUninit(c.(dgram := false)), 0), false)
    else (c.(dgram := true, dgramLive := true, log := c.log + [Acquire(DgramHandle)]), true)
  }

  /** `serv_init` with nothing else happening meanwhile. */
  function ServInit(w: Service, o: InitOracle): (r: (Service, bool))
    requires InitOracleOk(o)
  {
    var a := BootTable(w, o.doc, o.cwd);
    if a.num == 0 || a.num > MAX_MAPPING_NUM then (a, false)
    else
      var (b, ok) := ProxyInit(a, 0, o.launches, o.connects);
      if !ok then (b, false) else StartEvents(b, o.fd, o.wds, o.dgramOk)
  }

  /** Freeing the mapping at place i, if there is one. */
  function FreeAt(w: Service, i: nat): (r: Service)
    requires i < |w.table|
    ensures |r.table| == |w.table|
  {
    if w.table[i].None? then w
    else w.(table := w.table[i := None], gone := w.gone + [w.table[i].value],
            log := w.log + [Release(MappingRec(i))])
  }

  /** The final loop of `serv_uninit`, over all 64 places. */
  function FreeAll(w: Service, i: nat): (r: Service)
    requires i <= |w.table|
    decreases |w.table| - i
  {
    if i == |w.table| then w else FreeAll(FreeAt(w, i), i + 1)
  }

  ghost predicate Tabled(w: Service) {
    && |w.table| == MAX_MAPPING_NUM && w.num <= MAX_MAPPING_NUM
    && forall i: nat :: InUse(w, i) <==> i < w.num
  }

  /** `comm_ipcDgramUninit` on the datagram handle, which keeps its value. */
  function DgramDown(w: Service): (r: Service) {
    if w.dgram then w.(dgramLive := false, log := w.log + [Release(DgramHandle)]) else w
  }

  /** `serv_uninit`. */
  function ServUninit(w: Service): (r: Service) {
    var c := ProxyUninit(EventUninit(DgramDown(w)), 0);
    FreeAll(c, 0).(num := 0, phase := Done)
  }

  /** This place holds a mapping that is not connected and whose pipe has this name. */
  predicate Waiting(slot: Option<Slot>, name: seq<byte>) {
    slot.Some? && !slot.value.link.pipeConnect && slot.value.entry.name == name
  }

  /** The first mapping not connected whose pipe has this name, or 64. */
  function FirstWaiting(table: seq<Option<Slot>>, name: seq<byte>, i: nat): (r: nat)
    requires i <= |table|
    ensures i <= r <= |table|
    ensures r < |table| ==> Waiting(table[r], name)
    ensures forall k :: i <= k < r ==> !Waiting(table[k], name)
    decreases |table| - i
  {
    if i == |table| || Waiting(table[i], name) then i
    else FirstWaiting(table, name, i + 1)
  }

  /** What one event record does. */
  function Dispatch(w: Service, name: seq<byte>, o: ConnectOracle): (r: Service) {
    var i := FirstWaiting(w.table, name, 0);
    if i == |w.table| then w else ConnectAt(w, i, o)
  }

  function DispatchAll(w: Service, names: seq<seq<byte>>, os: seq<ConnectOracle>): (r: Service)
    requires |names| == |os|
    decreases |names|
  {
    if names == [] then w else DispatchAll(Dispatch(w, names[0], os[0]), names[1..], os[1..])
  }

  // ----- The descriptors of different mappings -----

  /** No other mapping, nor the monitor, has fd open. */
  ghost predicate Foreign(w: Service, i: nat, fd: int) {
    && (fd > 0 ==> fd != w.inotifyFd)
    && (forall j: nat :: InUse(w, j) && j != i ==> fd !in LinkFds(LinkAt(w, j)))
  }

  ghost predicate ConnectFresh(w: Service, i: nat, o: ConnectOracle)
    requires InUse(w, i)
  {
    o.socket > 0 ==> Foreign(w, i, o.socket) && o.socket !in ServerFds(LinkAt(w, i).server)
  }

  ghost predicate DispatchFresh(w: Service, name: seq<byte>, o: ConnectOracle) {
    var i := FirstWaiting(w.table, name, 0);
    i < |w.table| ==> ConnectFresh(w, i, o)
  }

  ghost predicate DispatchAllFresh(w: Service, names: seq<seq<byte>>, os: seq<ConnectOracle>)
    requires |names| == |os|
    decreases |names|
  {
    names == [] ||
    (DispatchFresh(w, names[0], os[0]) && DispatchAllFresh(Dispatch(w, names[0], os[0]), names[1..], os[1..]))
  }

  // ----- Steps -----

  ghost predicate AllQuiet(w: Service) {
    forall i: nat :: InUse(w, i) ==> QuietAt(w, i)
  }

  /** No receive thread of mapping i's server is in the middle of its teardown. */
  predicate QuietAt(w: Service, i: nat)
    requires InUse(w, i)
  {
    LinkAt(w, i).server.Some? ==> Quiet(LinkAt(w, i).server.value)
  }

  predicate Up(w: Service) {
    !w.phase.Start? && !w.phase.Done?
  }

  /** What the program and the operating system can do next, quiet or not. */
  ghost predicate Offered(w: Service, e: ServiceEvent) {
    match e
    case Boot(_, cwd) => w.phase.Start? && CwdOk(cwd)
    case Launch(o) =>
      && w.phase.Launching? && InUse(w, w.phase.i)
      && (o.socket > 0 ==> Foreign(w, w.phase.i, o.socket)
                           && o.socket !in LinkFds(LinkAt(w, w.phase.i)))
    case Connect(o) => w.phase.Connecting? && InUse(w, w.phase.i) && ConnectFresh(w, w.phase.i, o)
    case Watch(fd, _) =>
      && w.phase.Watching?
      && (forall i: nat :: InUse(w, i) ==> fd !in LinkFds(LinkAt(w, i)))
    case BindDgram(_) => w.phase.Binding?
    case OnLink(i, e) =>
      && Up(w) && InUse(w, i) && AtomicLinkEnabled(LinkAt(w, i), e) && !e.Reconnect?
      && (e.Tcp? && e.e.AcceptStart? ==> Foreign(w, i, e.e.fd))
    case PipeCreated(name, o) => w.phase.Monitoring? && DispatchFresh(w, name, o)
    case ExitCommand => w.phase.Monitoring?
    case CloseDgram => w.phase.Failed? || (w.phase.Monitoring? && w.inotifyFd < 0)
    case CloseMonitor => w.phase.Unwatching?
    case CloseIpc => w.phase.Disconnecting? && InUse(w, w.phase.i)
    case CloseTcp => w.phase.Ceasing? && InUse(w, w.phase.i)
    case FreeMapping => w.phase.Freeing? && w.phase.i < |w.table|
  }

  /** The same, a server being ceased only when it is quiet. */
  ghost predicate ServiceEnabled(w: Service, e: ServiceEvent) {
    Offered(w, e) && (e.CloseTcp? ==> QuietAt(w, w.phase.i))
  }

  /** proxy_uninit from mapping i on is next, or, past the last one, what follows it. */
  function DownFrom(w: Service, i: nat, last: bool): (p: Phase) {
    if i < w.num then Disconnecting(i, last) else if last then Phase.Freeing(0) else Failed
  }

  function ServiceStep(w: Service, e: ServiceEvent): (r: Service)
    requires Offered(w, e)
  {
    match e
    case Boot(doc, cwd) => BootTable(w, doc, cwd)
    case Launch(o) =>
      LaunchAt(w, w.phase.i, o).(phase := if Launches(o) then Connecting(w.phase.i) else Failed)
    case Connect(o) =>
      ConnectAt(w, w.phase.i, o).(phase := if !Opens(o) then Failed
                                           else if w.phase.i + 1 < w.num then Phase.Launching(w.phase.i + 1)
                                           else Watching)
    case Watch(fd, wds) =>
      if fd >= 0 then EventInit(w, fd, wds).(phase := Binding)
      else EventInit(w, fd, wds).(phase := DownFrom(w, 0, false))
    case BindDgram(ok) =>
      if ok then w.(dgram := true, dgramLive := true, log := w.log + [Acquire(DgramHandle)], phase := Monitoring)
      else w.(dgram := false, phase := Unwatching(false))
    case OnLink(i, e) => SetLink(w, i, AtomicLinkStep(LinkAt(w, i), e), [])
    case PipeCreated(name, o) => Dispatch(w, name, o)
    case ExitCommand => EventUninit(w)
    case CloseDgram => DgramDown(w).(phase := Unwatching(true))
    case CloseMonitor => EventUninit(w).(phase := DownFrom(w, 0, w.phase.last))
    case CloseIpc => DisconnectAt(w, w.phase.i).(phase := Ceasing(w.phase.i, w.phase.last))
    case CloseTcp => CeaseAt(w, w.phase.i).(phase := DownFrom(w, w.phase.i + 1, w.phase.last))
    case FreeMapping =>
      var r := FreeAt(w, w.phase.i);
      if w.phase.i + 1 < |w.table| then r.(phase := Phase.Freeing(w.phase.i + 1)) else r.(num := 0, phase := Done)
  }

  ghost predicate ServicePossible(w: Service, es: seq<ServiceEvent>)
    decreases |es|
  {
    es == [] || (ServiceEnabled(w, es[0]) && ServicePossible(ServiceStep(w, es[0]), es[1..]))
  }

  /** Runs in which servers may be ceased while not quiet. */
  ghost predicate OfferedPossible(w: Service, es: seq<ServiceEvent>)
    decreases |es|
  {
    es == [] || (Offered(w, es[0]) && OfferedPossible(ServiceStep(w, es[0]), es[1..]))
  }

  ghost function ServiceRun(w: Service, es: seq<ServiceEvent>): (r: Service)
    requires ServicePossible(w, es)
    decreases |es|
  {
    if es == [] then w else ServiceRun(ServiceStep(w, es[0]), es[1..])
  }

  /** The steps of a buffer of event records that nothing interrupts. */
  function RecordSteps(names: seq<seq<byte>>, os: seq<ConnectOracle>): (es: seq<ServiceEvent>)
    requires |names| == |os|
    ensures |es| == |names| && forall k :: 0 <= k < |es| ==> es[k] == PipeCreated(names[k], os[k])
  {
    if names == [] then [] else [PipeCreated(names[0], os[0])] + RecordSteps(names[1..], os[1..])
  }

  // ----- What every reachable state satisfies -----

  /** Replays the log; freeing a mapping also fails while a server, a client or the
      control socket that can call back with it is still there. */
  function Tidy(log: seq<Op<Resource>>): (held: Option<set<Resource>>) {
    if log == [] then Some({})
    else
      match Tidy(log[..|log| - 1])
      case None => None
      case Some(held) =>
        match log[|log| - 1]
        case Acquire(x) => if x in held then None else Some(held + {x})
        case Release(x) =>
          if x !in held then None
          else if x.MappingRec? && held * {TcpHandle(x.i), IpcHandle(x.i), DgramHandle} != {} then None
          else Some(held - {x})
  }

  predicate Holds(w: Service, r: Resource) {
    match r
    case MappingRec(i) => InUse(w, i)
    case TcpHandle(i) => InUse(w, i) && LinkAt(w, i).server.Some?
    case IpcHandle(i) => InUse(w, i) && LinkAt(w, i).client.Some?
    case DgramHandle => w.dgramLive
    case InotifyFd => w.inotifyFd >= 0
  }

  ghost predicate LogOk(w: Service) {
    Tidy(w.log).Some? && forall r :: r in Tidy(w.log).value <==> Holds(w, r)
  }

  /** A server taken down left nothing open and nothing running but final frees. */
  ghost predicate RetiredClean(l: Link) {
    l.retired.Some? ==>
      && l.server.None?
      && NothingDangles(l.retired.value)
      && Held(l.retired.value.fdLog) == Some({})
      && Held(l.retired.value.heapLog) == Some(l.retired.value.heap.Keys)
  }

  /** A freed mapping left nothing open and nothing running, and was good to the last. */
  ghost predicate CleanlyGone(s: Slot) {
    && AtomicLinkInv(s.link)
    && s.link.server.None? && s.link.client.None? && Held(s.link.ipcLog) == Some({})
    && RetiredClean(s.link)
  }

  ghost predicate LinksOk(w: Service) {
    && Tabled(w)
    && (forall i: nat :: InUse(w, i) ==>
          w.table[i].value.index == i && AtomicLinkInv(LinkAt(w, i)) && RetiredClean(LinkAt(w, i)))
  }

  /** Descriptors are never shared between mappings or with the monitor. */
  ghost predicate FdsApart(w: Service) {
    && (forall i: nat :: InUse(w, i) ==> w.inotifyFd > 0 ==> w.inotifyFd !in LinkFds(LinkAt(w, i)))
    && (forall i: nat, j: nat :: InUse(w, i) && InUse(w, j) && i != j ==>
          LinkFds(LinkAt(w, i)) !! LinkFds(LinkAt(w, j)))
  }

  ghost predicate Untouched(w: Service, from: nat) {
    forall i: nat :: InUse(w, i) && from <= i ==> LinkAt(w, i) == Blank
  }

  /** Mappings the main thread has not got to yet are untouched; a launched one is
      connected next. */
  ghost predicate StageOk(w: Service) {
    && (w.phase.Start? ==> w == Unborn())
    && (w.phase.Launching? ==> w.phase.i < w.num && Untouched(w, w.phase.i))
    && (w.phase.Connecting? ==> w.phase.i < w.num && Untouched(w, w.phase.i + 1)
                                && InUse(w, w.phase.i) && LinkAt(w, w.phase.i).client.None?)
    && (w.phase.Disconnecting? ==> w.phase.i < w.num && DownBefore(w, w.phase.i))
    && (w.phase.Ceasing? ==> w.phase.i < w.num && DownBefore(w, w.phase.i)
                             && InUse(w, w.phase.i) && LinkAt(w, w.phase.i).client.None?)
    && (w.inotifyFd >= 0 ==> w.phase.Binding? || w.phase.Monitoring? || w.phase.Failed? || w.phase.Unwatching?)
    && (w.dgramLive <==> w.dgram && (w.phase.Monitoring? || w.phase.Failed?))
    && (w.dgram ==> w.phase.Monitoring? || w.phase.Failed? || Ending(w.phase))
  }

  /** serv_uninit is taking things down. */
  predicate Ending(p: Phase) {
    (p.Unwatching? || p.Disconnecting? || p.Ceasing?) && p.last
  }

  /** The mappings before n are down. */
  ghost predicate DownBefore(w: Service, n: nat) {
    forall j: nat :: InUse(w, j) && j < n ==> LinkAt(w, j).server.None? && LinkAt(w, j).client.None?
  }

  /** What holds in every stage. */
  ghost predicate Consistent(w: Service) {
    LinksOk(w) && LogOk(w) && FdsApart(w)
  }

  ghost predicate ServiceInv(w: Service) {
    Consistent(w) && StageOk(w)
  }

  /** While mappings are being freed: those left are at place phase.i or later, and
      each has nothing open and nothing that could call back with it. */
  ghost predicate FreeingOk(w: Service) {
    && w.phase.Freeing? && w.phase.i < |w.table| == MAX_MAPPING_NUM
    && LogOk(w) && !w.dgramLive && w.inotifyFd < 0
    && (forall j: nat :: InUse(w, j) ==> w.phase.i <= j && CleanlyGone(w.table[j].value))
  }

  /** Everything is given back, and every mapping was freed clean. */
  ghost predicate Finished(w: Service) {
    && Tidy(w.log) == Some({})
    && w.num == 0 && (forall i: nat :: !InUse(w, i))
    && (forall s :: s in w.gone ==> CleanlyGone(s))
  }
}
