/** One mapping of the Named Pipe TCP Proxy: a one-user TCP server paired with a
    reconnecting IPC stream client, as a state machine.

    `proxy_connectIpc`, each callback, each send and the client's end-of-stream
    handling are single steps; the TCP side takes the steps of TcpTable. */
module Proxy {
  import opened Ledger
  import opened TcpTable
  import opened IpcStream

  datatype Link = Link(
    server: Option<Server>,       // tcpServerHandle
    client: Option<Client>,       // ipcStreamHandle
    tcpConnect: bool,
    pipeConnect: bool,
    pTcpUser: UserId,
    retired: Option<Server>,      // the TCP server as it was left when taken down
    ipcLog: seq<Op<int>>,         // client sockets created and closed
    tcpResults: seq<SendResult>,  // one for each chunk the server's receive callback got
    toPipe: seq<byte>,            // bytes handed to the client's socket
    pipeIn: seq<seq<byte>>,       // chunks the client's receive callback got
    pipeResults: seq<SendResult>, // one for each of them
    pipeUsers: seq<UserId>,       // the stored user when each of them came
    pipeMoments: seq<Option<nat>>, // how many callbacks the server had made by then
    toTcp: seq<(UserId, seq<byte>)>) // what was handed to which user's socket

  /** The answers of the operating system to the start of a TCP server. */
  datatype LaunchOracle = LaunchOracle(mallocOk: bool, socket: int, bindOk: bool, threadOk: bool)

  /** The answers of the operating system to a call of `proxy_connectIpc`. */
  datatype ConnectOracle = ConnectOracle(mallocOk: bool, socket: int, bindOk: bool,
                                         pathExists: bool, connectOk: bool, threadOk: bool)

  datatype LinkEvent =
    | Tcp(e: Event, osOk: bool)
    | PipeData(data: seq<byte>, osOk: bool)
    | PipeEnd
    | Reconnect(o: ConnectOracle)

  const Blank: Link := Link(None, None, false, false, NULL, None, [], [], [], [], [], [], [], [])

  predicate Launches(o: LaunchOracle) {
    o.mallocOk && o.socket > 0 && o.bindOk && o.threadOk
  }

  predicate Opens(o: ConnectOracle) {
    o.mallocOk && o.socket > 0 && o.bindOk
  }

  predicate Connects(o: ConnectOracle) {
    o.pathExists && o.connectOk && o.threadOk
  }

  function ClientFds(client: Option<Client>): (r: set<int>) {
    if client.Some? && client.value.fd > 0 then {client.value.fd} else {}
  }

  function ServerFds(server: Option<Server>): (r: set<int>) {
    if server.Some? then OpenFds(server.value.heap, server.value.listenFd) else {}
  }

  /** The descriptors this mapping holds open. */
  function LinkFds(l: Link): (r: set<int>) {
    ClientFds(l.client) + ServerFds(l.server)
  }

  // ----- The proxy's routines -----

  function LaunchTcp(l: Link, o: LaunchOracle): (r: Link) {
    l.(server := if Launches(o) then Some(Init(1, o.socket)) else None)
  }

  /** A server always has its table of 32 slots. */
  function CeaseTcp(l: Link): (r: Link) {
    l.(server := None, tcpConnect := false, pTcpUser := NULL,
       retired := if l.server.Some? && Shape(l.server.value) then Some(Uninit(l.server.value))
                  else l.retired)
  }

  /** `comm_ipcStreamClientUninit` on the stored handle. */
  function ClosedClientLog(l: Link): (r: seq<Op<int>>) {
    if ClientFds(l.client) == {} then l.ipcLog else l.ipcLog + [Release(l.client.value.fd)]
  }

  function DisconnectIpc(l: Link): (r: Link) {
    l.(client := None, pipeConnect := false, ipcLog := ClosedClientLog(l))
  }

  function ConnectIpc(l: Link, o: ConnectOracle): (r: Link) {
    var log := ClosedClientLog(l);
    if !o.mallocOk || o.socket <= 0 then l.(client := None, ipcLog := log)
    else if !o.bindOk then l.(client := None, ipcLog := log + [Acquire(o.socket), Release(o.socket)])
    else
      var created := l.(ipcLog := log + [Acquire(o.socket)]);
      if Connects(o) then created.(client := Some(Client(o.socket, true, true)), pipeConnect := true)
      else created.(client := Some(Client(o.socket, false, false)),
                    pipeConnect := l.pipeConnect && !o.pathExists)
  }

  // ----- Steps -----

  predicate Receiver(l: Link) {
    l.client.Some? && l.client.value.receiver && l.client.value.running && l.client.value.fd > 0
  }

  predicate LinkEnabled(l: Link, e: LinkEvent) {
    match e
    case Tcp(t, _) =>
      && l.server.Some? && Shape(l.server.value) && Enabled(l.server.value, t)
      && (t.AcceptStart? ==> t.fd !in ClientFds(l.client))
    case PipeData(data, _) => Receiver(l) && 1 <= |data| <= COMM_BUF_SIZE
    case PipeEnd => Receiver(l)
    case Reconnect(o) => !l.pipeConnect && (o.socket > 0 ==> o.socket !in ServerFds(l.server))
  }

  /** A callback's size parameter is an unsigned short. */
  function Short(n: nat): nat {
    n % 0x1_0000
  }

  /** `tcpIpv4RecvFunc`: hand a TCP chunk to the IPC client. */
  function ForwardToPipe(l: Link, data: seq<byte>, osOk: bool): (r: Link) {
    var size := Short(|data|);
    var result := SendOutcome(l.client.Some?, if l.client.Some? then l.client.value.fd else -1,
                              true, size, osOk);
    l.(tcpResults := l.tcpResults + [result],
       toPipe := if result == Sent then l.toPipe + data[..size] else l.toPipe)
  }

  /** `ipcStreamRecvFunc`: hand a pipe chunk to the stored TCP user. */
  function ForwardToTcp(l: Link, data: seq<byte>, osOk: bool): (r: Link) {
    var size := Short(|data|);
    var result := SendOutcome(l.pTcpUser != NULL,
                              if l.server.Some? then FdOf(l.server.value, l.pTcpUser) else -1,
                              true, size, osOk);
    l.(pipeIn := l.pipeIn + [data],
       pipeResults := l.pipeResults + [result],
       pipeUsers := l.pipeUsers + [l.pTcpUser],
       pipeMoments := l.pipeMoments + [if l.server.Some? then Some(|l.server.value.trace|) else None],
       toTcp := if result == Sent then l.toTcp + [(l.pTcpUser, data[..size])] else l.toTcp)
  }

  function LinkStep(l: Link, e: LinkEvent): (r: Link)
    requires LinkEnabled(l, e)
  {
    match e
    case Tcp(t, osOk) =>
      var s := l.server.value;
      var m := l.(server := Some(Step(s, t)));
      (match t
       case AcceptNotify => m.(tcpConnect := true, pTcpUser := s.listener.user)
       case NotifyExit(_) => m.(tcpConnect := false, pTcpUser := NULL)
       case Data(_, data) => ForwardToPipe(m, data, osOk)
       case _ => m)
    case PipeData(data, osOk) => ForwardToTcp(l, data, osOk)
    case PipeEnd =>
      l.(client := Some(Client(-1, false, false)), pipeConnect := false,
         ipcLog := l.ipcLog + [Release(l.client.value.fd)])
    case Reconnect(o) => ConnectIpc(l, o)
  }

  // ----- What every reachable mapping satisfies -----

  /** pipeConnect is set exactly when the client exists with a running receiver
      on an open descriptor; that descriptor is the only client socket open. */
  predicate PipeOk(l: Link) {
    && (l.pipeConnect <==> Receiver(l))
    && (l.client.Some? ==> l.client.value.running == l.client.value.receiver)
    && (l.client.Some? && l.client.value.receiver ==> l.client.value.fd > 0)
    && Held(l.ipcLog) == Some(ClientFds(l.client))
    && ClientFds(l.client) !! ServerFds(l.server)
  }

  /** The stored user is the one user the application was told of and not yet
      told has left. */
  ghost predicate UserStored(l: Link) {
    && (l.tcpConnect <==> l.pTcpUser != NULL)
    && (l.server.None? ==> l.pTcpUser == NULL)
    && (l.server.Some? ==> Inv(l.server.value) && l.server.value.maxUserNum == 1)
    && (l.server.Some? ==> forall u :: u != NULL ==>
          (Connected(l.server.value.threads, l.server.value.listener, u) <==> l.pTcpUser == u))
  }

  /** The chunks handed to the receive callback, in order. */
  function RecvChunks(trace: seq<Callback>): (r: seq<seq<byte>>) {
    if trace == [] then []
    else
      var c := trace[|trace| - 1];
      RecvChunks(trace[..|trace| - 1]) + if c.Recv? then [c.data] else []
  }

  /** The chunks whose send succeeded, whole, in order, one after the other. */
  function Delivered(chunks: seq<seq<byte>>, results: seq<SendResult>): (r: seq<byte>)
    requires |chunks| == |results|
  {
    if chunks == [] then []
    else
      var n := |chunks| - 1;
      Delivered(chunks[..n], results[..n]) + if results[n] == Sent then chunks[n] else []
  }

  /** The callbacks the mapping's server has made. */
  function Callbacks(l: Link): (r: seq<Callback>) {
    if l.server.Some? then l.server.value.trace
    else if l.retired.Some? then l.retired.value.trace
    else []
  }

  function TcpChunks(l: Link): (r: seq<seq<byte>>) {
    RecvChunks(Callbacks(l))
  }

  /** The sends that succeeded, each with the user it went to. */
  function Sends(chunks: seq<seq<byte>>, users: seq<UserId>, results: seq<SendResult>)
    : (r: seq<(UserId, seq<byte>)>)
    requires |chunks| == |users| == |results|
  {
    if chunks == [] then []
    else
      var n := |chunks| - 1;
      Sends(chunks[..n], users[..n], results[..n]) + if results[n] == Sent then [(users[n], chunks[n])] else []
  }

  /** The bytes sent to one user's socket, or, with any true, to all of them. */
  function BytesTo(sends: seq<(UserId, seq<byte>)>, u: UserId, any: bool): (r: seq<byte>) {
    if sends == [] then []
    else
      var (v, data) := sends[|sends| - 1];
      BytesTo(sends[..|sends| - 1], u, any) + if any || v == u then data else []
  }

  /** Whether each chunk's send succeeded and went to u. */
  function ResultsTo(users: seq<UserId>, results: seq<SendResult>, u: UserId): (r: seq<SendResult>)
    requires |users| == |results|
    ensures |r| == |results|
    ensures forall k :: 0 <= k < |r| ==> r[k] == if users[k] == u then results[k] else Refused
  {
    seq(|results|, k requires 0 <= k < |results| => if users[k] == u then results[k] else Refused)
  }

  /** Both directions are filtered streams: nothing is cut, reordered, repeated or
      made up, and no chunk is dropped for its size. */
  predicate ForwardOk(l: Link) {
    && |l.tcpResults| == |TcpChunks(l)|
    && l.toPipe == Delivered(TcpChunks(l), l.tcpResults)
    && |l.pipeIn| == |l.pipeUsers| == |l.pipeResults|
    && l.toTcp == Sends(l.pipeIn, l.pipeUsers, l.pipeResults)
    && ZeroSize !in l.tcpResults && ZeroSize !in l.pipeResults
  }

  /** By these callbacks u's connection is open and no other; for NULL, none is. */
  ghost predicate OnlyOpen(trace: seq<Callback>, u: UserId) {
    forall v :: v != NULL ==> (Session(trace, v) == Some(true) <==> v == u)
  }

  /** Every pipe chunk was meant for the user whose connection was open when it came. */
  ghost predicate RoutedOk(l: Link) {
    && |l.pipeUsers| == |l.pipeMoments|
    && forall k :: 0 <= k < |l.pipeMoments| ==>
         match l.pipeMoments[k]
         case None => l.pipeUsers[k] == NULL
         case Some(m) => m <= |Callbacks(l)| && OnlyOpen(Callbacks(l)[..m], l.pipeUsers[k])
  }

  ghost predicate LinkInv(l: Link) {
    PipeOk(l) && UserStored(l) && ForwardOk(l) && RoutedOk(l)
  }

  predicate LinkOrderly(l: Link, e: LinkEvent)
    requires LinkEnabled(l, e)
  {
    e.Tcp? ==> Orderly(l.server.value, e.e)
  }

  // ----- Accepting a client as one step -----

  predicate AtomicLinkEnabled(l: Link, e: LinkEvent) {
    LinkEnabled(l, e) && (e.Tcp? ==> AtomicEnabled(l.server.value, e.e))
  }

  function AtomicLinkStep(l: Link, e: LinkEvent): (r: Link)
    requires AtomicLinkEnabled(l, e)
  {
    var m := LinkStep(l, e);
    if e.Tcp? && e.e.AcceptStart? && m.server.value.listener.Started? then
      LinkStep(LinkStep(LinkStep(m, Tcp(AcceptNotify, true)), Tcp(AcceptPublish, true)),
               Tcp(AcceptCount, true))
    else m
  }

  ghost predicate AtomicLinkInv(l: Link) {
    LinkInv(l) && (l.server.Some? ==> !InFlight(l.server.value.listener))
  }

  // ----- Runs -----

  ghost predicate LinkPossible(l: Link, es: seq<LinkEvent>)
    decreases |es|
  {
    es == [] || (LinkEnabled(l, es[0]) && LinkPossible(LinkStep(l, es[0]), es[1..]))
  }

  ghost function LinkRun(l: Link, es: seq<LinkEvent>): (r: Link)
    requires LinkPossible(l, es)
    decreases |es|
  {
    if es == [] then l else LinkRun(LinkStep(l, es[0]), es[1..])
  }

  ghost predicate LinkAllOrderly(l: Link, es: seq<LinkEvent>)
    requires LinkPossible(l, es)
    decreases |es|
  {
    es == [] || (LinkOrderly(l, es[0]) && LinkAllOrderly(LinkStep(l, es[0]), es[1..]))
  }

  ghost predicate LinkAlwaysInv(l: Link, es: seq<LinkEvent>)
    requires LinkPossible(l, es)
    decreases |es|
  {
    LinkInv(l) && (es != [] ==> LinkAlwaysInv(LinkStep(l, es[0]), es[1..]))
  }
}
