/** The connection table of the multi-client TCP server, as a state machine over
    the steps of the listen thread and of the receive threads.

    Granularity: one C statement that touches shared state is one step. The
    listen thread's `_tcpIpv4AcceptClient` is split into four steps (start the
    thread, accept callback, slot publication, counter increment) and a receive
    thread's end into five (close, exit callback, slot clear, guarded decrement,
    free). `Orderly` says which interleavings of the two the code relies on;
    `AtomicStep` is the machine in which accepting a client is one step.

    The operating system is an oracle: descriptors are positive and not open
    when handed out, addresses are non-NULL and not allocated when handed out,
    and both may be used again later. */
module TcpTable {
  import opened Ledger

  const TCP_USER_NUM: int := 32
  const COMM_BUF_SIZE: int := 8191

  /** The address of a user object. */
  type UserId = nat
  const NULL: UserId := 0

  /** What a receive thread does next. */
  datatype Pc =
    | Receiving  // in its recv loop
    | Notifying  // socket closed, exit callback next
    | Clearing   // slot scan next
    | Dropping   // slot cleared, counter decrement next
    | Freeing    // free next

  /** What the listen thread does next. */
  datatype Listener =
    | NotListening
    | Idle                             // in accept
    | Started(user: UserId, slot: nat) // thread created, accept callback next
    | Notified(user: UserId, slot: nat) // slot publication next
    | Published(user: UserId)          // counter increment next
    | Stopped

  datatype Callback =
    | Acpt(user: UserId)
    | Recv(user: UserId, data: seq<byte>)
    | Exit(user: UserId)

  datatype Server = Server(
    slots: seq<UserId>,
    userNum: int,
    maxUserNum: int,
    listenFd: int,
    running: bool,
    listener: Listener,
    heap: map<UserId, int>,      // allocated users and their fd field
    threads: map<UserId, Pc>,    // live receive threads
    fdLog: seq<Op<int>>,         // descriptors handed out and closed
    heapLog: seq<Op<UserId>>,    // users allocated and freed
    trace: seq<Callback>)        // callbacks made to the application

  datatype Event =
    | ListenOk
    | ListenFail
    | AcceptFail
    | AcceptStart(fd: int, user: UserId, threadOk: bool) // user NULL: malloc failed
    | AcceptNotify
    | AcceptPublish
    | AcceptCount
    | Data(user: UserId, data: seq<byte>)
    | End(user: UserId)
    | NotifyExit(user: UserId)
    | ClearSlot(user: UserId)
    | DropCount(user: UserId)
    | FreeUser(user: UserId)

  predicate Shape(s: Server) {
    |s.slots| == TCP_USER_NUM && s.maxUserNum <= TCP_USER_NUM
  }

  function Cap(s: Server): nat {
    if s.maxUserNum < 0 then 0 else s.maxUserNum
  }

  /** The first slot below n that holds u, or n. */
  function IndexOf(slots: seq<UserId>, u: UserId, n: nat, i: nat := 0): (r: nat)
    requires i <= n <= |slots|
    ensures i <= r <= n
    ensures r < n ==> slots[r] == u
    ensures forall k :: i <= k < r ==> slots[k] != u
    decreases n - i
  {
    if i == n then n else if slots[i] == u then i else IndexOf(slots, u, n, i + 1)
  }

  function Init(requested: int, fd: int): (s: Server) {
    Server(seq(TCP_USER_NUM, _ => NULL), 0,
           if requested == 0 || requested > TCP_USER_NUM then TCP_USER_NUM else requested,
           fd, true, NotListening, map[], map[], [Acquire(fd)], [], [])
  }

  /** The operating system can return fd: it is positive and not open. */
  predicate FreshFd(s: Server, fd: int) {
    fd > 0 && Held(s.fdLog).Some? && fd !in Held(s.fdLog).value
  }

  /** Thread u is about to take the step that pc names, and its object is allocated. */
  predicate At(s: Server, u: UserId, pc: Pc) {
    u in s.threads && s.threads[u] == pc && u in s.heap
  }

  predicate Enabled(s: Server, e: Event) {
    match e
    case ListenOk => s.listener.NotListening?
    case ListenFail => s.listener.NotListening? && s.listenFd > 0
    case AcceptFail => s.listener.Idle? && s.running
    case AcceptStart(fd, u, _) =>
      s.listener.Idle? && s.running && FreshFd(s, fd) && u !in s.heap
    case AcceptNotify => s.listener.Started?
    case AcceptPublish => s.listener.Notified?
    case AcceptCount => s.listener.Published?
    case Data(u, data) =>
      At(s, u, Receiving) && s.heap[u] > 0 && 1 <= |data| <= COMM_BUF_SIZE
    case End(u) => At(s, u, Receiving) && s.heap[u] > 0
    case NotifyExit(u) => At(s, u, Notifying)
    case ClearSlot(u) => At(s, u, Clearing)
    case DropCount(u) => At(s, u, Dropping)
    case FreeUser(u) => At(s, u, Freeing)
  }

  /** accept returned fd: gate, slot scan, allocation and thread start. */
  function StartAccept(s: Server, fd: int, u: UserId, threadOk: bool): (r: Server)
    requires Shape(s)
    ensures Shape(r)
  {
    var refused := s.(fdLog := s.fdLog + [Acquire(fd), Release(fd)]);
    if s.userNum >= s.maxUserNum then refused
    else
      var i := IndexOf(s.slots, NULL, Cap(s));
      if i == Cap(s) || u == NULL then refused
      else if !threadOk then refused.(heapLog := s.heapLog + [Acquire(u), Release(u)])
      else s.(fdLog := s.fdLog + [Acquire(fd)],
              heapLog := s.heapLog + [Acquire(u)],
              heap := s.heap[u := fd],
              threads := s.threads[u := Receiving],
              listener := Started(u, i))
  }

  /** Close the socket of an allocated user and mark it closed. */
  function CloseUser(s: Server, u: UserId): (r: Server)
    requires u in s.heap
  {
    s.(fdLog := s.fdLog + [Release(s.heap[u])], heap := s.heap[u := -1])
  }

  function ClearedSlots(s: Server, u: UserId): (r: seq<UserId>)
    requires Shape(s)
    ensures |r| == |s.slots|
  {
    var i := IndexOf(s.slots, u, Cap(s));
    if i < Cap(s) then s.slots[i := NULL] else s.slots
  }

  function Decremented(n: int): int {
    if n > 0 then n - 1 else n
  }

  function Step(s: Server, e: Event): (r: Server)
    requires Shape(s) && Enabled(s, e)
    ensures Shape(r)
  {
    match e
    case ListenOk => s.(listener := Idle)
    case ListenFail =>
      s.(listener := Stopped, listenFd := -1, fdLog := s.fdLog + [Release(s.listenFd)])
    case AcceptFail => s.(listener := Stopped, running := false)
    case AcceptStart(fd, u, threadOk) => StartAccept(s, fd, u, threadOk)
    case AcceptNotify =>
      s.(listener := Notified(s.listener.user, s.listener.slot),
         trace := s.trace + [Acpt(s.listener.user)])
    case AcceptPublish =>
      s.(listener := Published(s.listener.user),
         slots := if s.listener.slot < |s.slots| then s.slots[s.listener.slot := s.listener.user]
                  else s.slots)
    case AcceptCount => s.(listener := Idle, userNum := s.userNum + 1)
    case Data(u, data) => s.(trace := s.trace + [Recv(u, data)])
    case End(u) => CloseUser(s, u).(threads := s.threads[u := Notifying])
    case NotifyExit(u) =>
      s.(trace := s.trace + [Exit(u)], threads := s.threads[u := Clearing])
    case ClearSlot(u) =>
      var found := IndexOf(s.slots, u, Cap(s)) < Cap(s);
      s.(slots := ClearedSlots(s, u), threads := s.threads[u := if found then Dropping else Freeing])
    case DropCount(u) =>
      s.(userNum := Decremented(s.userNum), threads := s.threads[u := Freeing])
    case FreeUser(u) =>
      s.(heap := s.heap - {u}, threads := s.threads - {u}, heapLog := s.heapLog + [Release(u)])
  }

  // ----- What every reachable state satisfies -----

  /** The listen thread has created u's thread and not yet published u. */
  predicate Unpublished(l: Listener, u: UserId) {
    (l.Started? || l.Notified?) && l.user == u
  }

  predicate InFlight(l: Listener) {
    l.Started? || l.Notified? || l.Published?
  }

  function Occupied(slots: seq<UserId>): (r: set<nat>) {
    set i: nat | i < |slots| && slots[i] != NULL
  }

  function AtDrop(threads: map<UserId, Pc>): (r: set<UserId>) {
    set u | u in threads && threads[u] == Dropping
  }

  function UserFds(heap: map<UserId, int>): (r: set<int>) {
    set u | u in heap && heap[u] > 0 :: heap[u]
  }

  function OpenFds(heap: map<UserId, int>, listenFd: int): (r: set<int>) {
    UserFds(heap) + if listenFd > 0 then {listenFd} else {}
  }

  predicate TableOk(s: Server) {
    && Shape(s)
    && (forall i :: Cap(s) <= i < |s.slots| ==> s.slots[i] == NULL)
    && (forall i, j :: 0 <= i < j < |s.slots| && s.slots[i] == s.slots[j] ==> s.slots[i] == NULL)
    && (forall u :: u in s.slots && u != NULL ==> u in s.heap)
  }

  predicate ThreadsOk(s: Server) {
    && NULL !in s.heap
    && s.threads.Keys == s.heap.Keys
    && (forall u :: u in s.heap ==> (s.threads[u] == Receiving <==> s.heap[u] > 0))
    && (forall u :: u in s.heap ==>
          (u in s.slots <==> !(s.threads[u] in {Dropping, Freeing}) && !Unpublished(s.listener, u)))
  }

  predicate ListenerOk(s: Server) {
    match s.listener
    case Started(u, i) =>
      u in s.threads && i < Cap(s) && i < |s.slots| && s.slots[i] == NULL && s.threads[u] in {Receiving, Notifying}
    case Notified(u, i) =>
      u in s.threads && i < Cap(s) && i < |s.slots| && s.slots[i] == NULL
      && s.threads[u] in {Receiving, Notifying, Clearing}
    case _ => true
  }

  predicate CountOk(s: Server) {
    && 0 <= s.userNum
    && s.userNum + (if s.listener.Published? then 1 else 0) == |Occupied(s.slots)| + |AtDrop(s.threads)|
    && s.userNum + (if InFlight(s.listener) then 1 else 0) <= Cap(s)
  }

  predicate DescriptorsOk(s: Server) {
    && Held(s.fdLog) == Some(OpenFds(s.heap, s.listenFd))
    && (forall u :: u in s.heap && s.heap[u] > 0 ==> s.heap[u] != s.listenFd)
    && (forall u, v :: u in s.heap && v in s.heap && u != v && s.heap[u] > 0
          ==> s.heap[u] != s.heap[v])
  }

  predicate UsersOk(s: Server) {
    Held(s.heapLog) == Some(s.heap.Keys)
  }

  /** The callbacks made for one address, read by an automaton: an accept opens
      a session, receives of 1..8191 bytes happen in it, an exit closes it. */
  function Session(trace: seq<Callback>, u: UserId): Option<bool> {
    if trace == [] then Some(false)
    else
      var before := Session(trace[..|trace| - 1], u);
      var c := trace[|trace| - 1];
      if c.user != u then before
      else
        match c
        case Acpt(_) => if before == Some(false) then Some(true) else None
        case Recv(_, data) =>
          if before == Some(true) && 1 <= |data| <= COMM_BUF_SIZE then Some(true) else None
        case Exit(_) => if before == Some(true) then Some(false) else None
  }

  /** The application has been told of this user's accept and not of its exit. */
  predicate Connected(threads: map<UserId, Pc>, l: Listener, u: UserId) {
    u in threads && threads[u] in {Receiving, Notifying} && !(l.Started? && l.user == u)
  }

  ghost predicate SessionsOk(s: Server) {
    forall u :: Session(s.trace, u) == Some(Connected(s.threads, s.listener, u))
  }

  ghost predicate Inv(s: Server) {
    && TableOk(s) && ThreadsOk(s) && ListenerOk(s) && CountOk(s)
    && DescriptorsOk(s) && UsersOk(s) && SessionsOk(s)
  }

  /** The orderings between the listen thread and a new receive thread that the
      code relies on but does not enforce. */
  predicate Orderly(s: Server, e: Event) {
    match e
    case Data(u, _) => !(s.listener.Started? && s.listener.user == u)
    case NotifyExit(u) => !(s.listener.Started? && s.listener.user == u)
    case ClearSlot(u) => !Unpublished(s.listener, u)
    case DropCount(_) => !(s.listener.Published? && s.userNum == 0)
    case _ => true
  }

  // ----- Runs -----

  ghost predicate Possible(s: Server, es: seq<Event>)
    requires Shape(s)
    decreases |es|
  {
    es == [] || (Enabled(s, es[0]) && Possible(Step(s, es[0]), es[1..]))
  }

  ghost function Run(s: Server, es: seq<Event>): (r: Server)
    requires Shape(s) && Possible(s, es)
    ensures Shape(r)
    decreases |es|
  {
    if es == [] then s else Run(Step(s, es[0]), es[1..])
  }

  ghost predicate AllOrderly(s: Server, es: seq<Event>)
    requires Shape(s) && Possible(s, es)
    decreases |es|
  {
    es == [] || (Orderly(s, es[0]) && AllOrderly(Step(s, es[0]), es[1..]))
  }

  /** The invariant holds at every state of the run. */
  ghost predicate AlwaysInv(s: Server, es: seq<Event>)
    requires Shape(s) && Possible(s, es)
    decreases |es|
  {
    Inv(s) && (es != [] ==> AlwaysInv(Step(s, es[0]), es[1..]))
  }

  // ----- Accepting a client as one step -----

  predicate AtomicEnabled(s: Server, e: Event) {
    Enabled(s, e) && !e.AcceptNotify? && !e.AcceptPublish? && !e.AcceptCount?
  }

  function Finish(s: Server): (r: Server)
    requires Shape(s)
    ensures Shape(r)
  {
    if s.listener.Started? then
      Step(Step(Step(s, AcceptNotify), AcceptPublish), AcceptCount)
    else s
  }

  function AtomicStep(s: Server, e: Event): (r: Server)
    requires Shape(s) && AtomicEnabled(s, e)
    ensures Shape(r)
  {
    if e.AcceptStart? then Finish(Step(s, e)) else Step(s, e)
  }

  ghost predicate AtomicPossible(s: Server, es: seq<Event>)
    requires Shape(s)
    decreases |es|
  {
    es == [] || (AtomicEnabled(s, es[0]) && AtomicPossible(AtomicStep(s, es[0]), es[1..]))
  }

  ghost function AtomicRun(s: Server, es: seq<Event>): (r: Server)
    requires Shape(s) && AtomicPossible(s, es)
    ensures Shape(r)
    decreases |es|
  {
    if es == [] then s else AtomicRun(AtomicStep(s, es[0]), es[1..])
  }

  ghost predicate AtomicInv(s: Server) {
    Inv(s) && !InFlight(s.listener)
  }

  // ----- Taking the server down -----

  function FdOf(s: Server, u: UserId): int {
    if u in s.heap then s.heap[u] else -1
  }

  /** `_tcpIpv4DisconnectClient` called with u, all at once. */
  function Disconnect(s: Server, u: UserId): (r: Server)
    requires Shape(s)
    ensures Shape(r) && Cap(r) == Cap(s)
  {
    if u == NULL then s
    else
      var found := IndexOf(s.slots, u, Cap(s)) < Cap(s);
      var t := s.(slots := ClearedSlots(s, u),
                  userNum := if found then Decremented(s.userNum) else s.userNum);
      var c := if FdOf(t, u) > 0 then CloseUser(t, u).(threads := t.threads - {u}) else t;
      c.(heap := c.heap - {u}, heapLog := c.heapLog + [Release(u)])
  }

  function Sweep(s: Server, i: nat): (r: Server)
    requires Shape(s) && i <= Cap(s)
    ensures Shape(r) && Cap(r) == Cap(s)
    decreases Cap(s) - i
  {
    if i == Cap(s) then s else Sweep(Disconnect(s, s.slots[i]), i + 1)
  }

  /** `comm_tcpIpv4ServerUninit`: the counter is reset before the slots are swept. */
  function Uninit(s: Server): (r: Server)
    requires Shape(s)
    ensures Shape(r)
  {
    var t := Sweep(s.(running := false, userNum := 0), 0);
    var c := if t.listenFd > 0
             then t.(listenFd := -1, fdLog := t.fdLog + [Release(t.listenFd)]) else t;
    if InFlight(c.listener) then c else c.(listener := Stopped)
  }

  /** No receive thread has work left that touches the server or a listed user. */
  predicate Quiet(s: Server) {
    && !InFlight(s.listener)
    && (forall u :: u in s.threads ==> s.threads[u] in {Receiving, Freeing})
  }

  /** After the server is gone: the listen thread has ended, each remaining thread
      only has its own object left to free, and each remaining object has such a thread. */
  predicate NothingDangles(s: Server) {
    && s.listener.Stopped? && !s.running
    && s.threads.Keys == s.heap.Keys
    && (forall u :: u in s.threads ==> s.threads[u] == Freeing)
  }

  // ----- Broadcast -----

  /** The descriptors the send loop writes to, from slot i on. */
  function SendLoop(slots: seq<UserId>, heap: map<UserId, int>, n: nat, i: nat): (r: seq<int>)
    requires i <= n <= |slots|
    decreases n - i
  {
    if i == n then []
    else
      var u := slots[i];
      (if u != NULL && u in heap && heap[u] > 0 then [heap[u]] else [])
      + SendLoop(slots, heap, n, i + 1)
  }

  /** `comm_tcpIpv4ServerSendAllClient` on a non-empty buffer. */
  function SendAll(s: Server): (r: seq<int>)
    requires Shape(s)
  {
    if s.userNum == 0 then [] else SendLoop(s.slots, s.heap, Cap(s), 0)
  }

  /** The outcome of a send call. */
  datatype SendResult = Sent | NoPeer | NotReady | NullData | ZeroSize | Refused

  /** The guards of a send in the order the code tests them: given says that the data
      pointer is not NULL; osOk is the answer of the operating system, which takes
      the whole chunk or refuses it. */
  function SendOutcome(present: bool, fd: int, given: bool, size: nat, osOk: bool): SendResult {
    if !present then NoPeer
    else if fd < 0 then NotReady
    else if !given then NullData
    else if size == 0 then ZeroSize
    else if osOk then Sent
    else Refused
  }

  // ----- Counting ends and exit callbacks of one address -----

  function Ends(es: seq<Event>, u: UserId): (n: nat) {
    if es == [] then 0 else (if es[0] == End(u) then 1 else 0) + Ends(es[1..], u)
  }

  function Exits(trace: seq<Callback>, u: UserId): (n: nat) {
    if trace == [] then 0
    else (if trace[|trace| - 1] == Exit(u) then 1 else 0) + Exits(trace[..|trace| - 1], u)
  }
}
