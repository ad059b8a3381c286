/** The client half of the IPC stream library: one context, one receive thread. */
module IpcStream {
  import opened Ledger
  import opened TcpTable

  /** The client context; receiver says its thread is alive. */
  datatype Client = Client(fd: int, running: bool, receiver: bool)

  class IpcStreamClient {
    var fd: int
    var running: bool
    var receiver: bool
    ghost var live: bool   // the context is allocated
    ghost var bound: bool  // its socket file exists

    ghost function State(): Client
      reads this
    {
      Client(fd, running, receiver)
    }

    constructor (fd: int)
      ensures State() == Client(fd, false, false) && live && bound
    {
      this.fd, running, receiver := fd, false, false;
      live, bound := true, true;
    }

    /** `comm_ipcStreamClientConnect`. A failed thread start leaves the socket
        connected and open. */
    method Connect(connectOk: bool, threadOk: bool) returns (error: int)
      requires live
      modifies this`running, this`receiver
      ensures error == 0 <==> old(fd) >= 0 && connectOk && threadOk
      ensures State() == if error == 0 then Client(old(fd), true, true)
                         else if old(fd) >= 0 && connectOk then Client(old(fd), false, old(receiver))
                         else old(State())
    {
      if fd < 0 {
        return -1;
      }
      if !connectOk {
        return -1;
      }
      running := true;
      if !threadOk {
        running := false;
        return -1;
      }
      receiver := true;
      return 0;
    }

    /** `comm_ipcStreamClientSend`. */
    method Send(data: Option<seq<byte>>, size: nat, osOk: bool) returns (r: SendResult)
      requires live
      ensures r == SendOutcome(true, fd, data.Some?, size, osOk)
      ensures r == Sent <==> fd >= 0 && data.Some? && size > 0 && osOk
      ensures r == Refused <==> fd >= 0 && data.Some? && size > 0 && !osOk
    {
      if fd < 0 {
        return NotReady;
      }
      if data.None? {
        return NullData;
      }
      if size == 0 {
        return ZeroSize;
      }
      return if osOk then Sent else Refused;
    }

    /** The receive thread saw the end of the stream; the exit callback runs
        between the two halves of this step. */
    method EndOfStream() returns (ghost ops: seq<Op<int>>)
      requires live
      modifies this`fd, this`running, this`receiver
      ensures State() == Client(-1, false, false) && ops == [Release(old(fd))]
    {
      ops := [Release(fd)];
      fd := -1;
      running, receiver := false, false;
    }

    /** `comm_ipcStreamClientUninit`: cancels the receiver, closes the socket, removes
        its file and frees the context. */
    method Uninit() returns (ghost ops: seq<Op<int>>)
      requires live
      modifies this
      ensures !bound && !live
      ensures fd <= 0 && !running && (old(running) ==> !receiver)
      ensures ops == if old(fd) > 0 then [Release(old(fd))] else []
    {
      ops := [];
      if running {
        receiver := false;
        running := false;
      }
      if fd > 0 {
        ops := [Release(fd)];
        fd := -1;
      }
      bound := false;
      live := false;
    }
  }

  /** `comm_ipcStreamClientInit`: allocation, socket and bind may each fail. */
  method ClientInit(mallocOk: bool, socket: int, bindOk: bool)
    returns (h: IpcStreamClient?, ghost ops: seq<Op<int>>)
    requires socket < 0 || socket > 0
    ensures h != null <==> mallocOk && socket > 0 && bindOk
    ensures h != null ==> fresh(h) && h.State() == Client(socket, false, false) && h.live && h.bound
    ensures ops == if !mallocOk || socket < 0 then []
                   else if bindOk then [Acquire(socket)] else [Acquire(socket), Release(socket)]
  {
    h, ops := null, [];
    if !mallocOk || socket < 0 {
      return;
    }
    if !bindOk {
      ops := [Acquire(socket), Release(socket)];
      return;
    }
    ops := [Acquire(socket)];
    h := new IpcStreamClient(socket);
  }
}
