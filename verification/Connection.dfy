/** TcpConnection.cpp as a machine over values: one step for each entry point. */
module Connection {
  import opened Prelude
  import opened Registration
  import opened Tasks
  import opened Phases

  datatype Errno = EWOULDBLOCK | EPIPE | ECONNRESET | EOTHER

  /** What `::write` may answer. */
  datatype WriteResult = Wrote(n: nat) | Failed(errno: Errno)

  /** Calls that leave the library: the user's callbacks and the server's close callback. */
  datatype Callback = Up | Down | Message | CloseRequested

  datatype Conn = Conn(
    id: nat,
    phase: Phase,
    chan: Chan,
    input: seq<byte>,
    output: seq<byte>,
    wire: seq<byte>,            // bytes the kernel accepted
    shutdowns: nat,             // calls of ::shutdown(fd, SHUT_WR)
    posted: seq<Functor>,       // functors this connection queued on its loop
    calls: seq<Callback>,
    mark: nat,
    wantsComplete: bool,        // writeCompleteCallback_ is set
    wantsHighWater: bool)       // highWaterMarkCallback_ is set
  {
    predicate IsWriting() {
      OUT in chan.events
    }

    predicate Open() {
      phase == Connected || phase == Disconnecting
    }
  }

  function FreshConn(id: nat, mark: nat, wantsComplete: bool, wantsHighWater: bool): Conn {
    Conn(id, Connecting, FRESH, [], [], [], 0, [], [], mark, wantsComplete, wantsHighWater)
  }

  /** The kernel takes any prefix or fails; after the write side is shut it only answers EPIPE. */
  function KernelWrite(shut: bool, len: nat, offered: WriteResult): (r: WriteResult)
    ensures r.Wrote? ==> r.n <= len
  {
    if shut then Failed(EPIPE)
    else match offered
         case Wrote(n) => Wrote(Min(n, len))
         case Failed(_) => offered
  }

  function Post(c: Conn, f: Functor): Conn {
    c.(posted := c.posted + [f])
  }

  function SetMask(c: Conn, mask: Mask): Conn {
    c.(chan := WithEvents(c.chan, mask))
  }

  /** The high-water notice, when the buffer is about to grow to `total` bytes. */
  function Noted(c: Conn, total: nat): Conn {
    if total >= c.mark && |c.output| < c.mark && c.wantsHighWater then Post(c, HighWater(c.id, total)) else c
  }

  function Held(c: Conn, rest: seq<byte>): Conn {
    var kept := c.(output := c.output + rest);
    if c.IsWriting() then kept else SetMask(kept, kept.chan.events + WRITE_EVENT)
  }

  /** The tail of `sendInLoop`: keep what the kernel did not take and wait for EPOLLOUT. */
  function Buffered(c: Conn, rest: seq<byte>): Conn {
    Held(Noted(c, |c.output| + |rest|), rest)
  }

  /** The answer to the direct write of `sendInLoop`, `None` when it makes no attempt. */
  function DirectWrite(c: Conn, len: nat, offered: WriteResult): (r: Option<WriteResult>)
    ensures r.Some? && r.value.Wrote? ==> r.value.n <= len
  {
    if !c.IsWriting() && c.output == [] then Some(KernelWrite(c.shutdowns > 0, len, offered)) else None
  }

  function SentInLoop(c: Conn, data: seq<byte>, offered: WriteResult): Conn {
    if c.phase == Disconnected then c
    else match DirectWrite(c, |data|, offered)
         case None =>
           if data != [] then Buffered(c, data) else c
         case Some(Wrote(n)) =>
           var d := c.(wire := c.wire + data[..n]);
           if n == |data| then (if c.wantsComplete then Post(d, WriteComplete(c.id)) else d)
           else Buffered(d, data[n..])
         case Some(Failed(errno)) =>
           if errno == EPIPE || errno == ECONNRESET || data == [] then c else Buffered(c, data)
  }

  /** The direct write when the kernel takes n bytes. */
  function Taken(c: Conn, data: seq<byte>, n: nat): Conn
    requires n <= |data|
  {
    var d := c.(wire := c.wire + data[..n]);
    if n == |data| && c.wantsComplete then Post(d, WriteComplete(c.id)) else d
  }

  /** What remains to be done after the direct write. */
  function Finished(c: Conn, rest: seq<byte>, faultError: bool): Conn {
    if !faultError && rest != [] then Buffered(c, rest) else c
  }

  /** `sendInLoop` is the attempt at a direct write, then its tail on whatever is left. */
  lemma SentInTwoParts(c: Conn, data: seq<byte>, offered: WriteResult)
    requires c.phase != Disconnected
    ensures SentInLoop(c, data, offered)
         == match DirectWrite(c, |data|, offered)
            case None => Finished(c, data, false)
            case Some(Wrote(n)) => Finished(Taken(c, data, n), data[n..], false)
            case Some(Failed(errno)) => Finished(c, data, errno == EPIPE || errno == ECONNRESET)
  {
  }

  function ShutInLoop(c: Conn): Conn {
    if !c.IsWriting() then c.(shutdowns := c.shutdowns + 1) else c
  }

  /** `handleWrite` once the last byte is out. */
  function DrainHandled(c: Conn): Conn {
    var d := SetMask(c, c.chan.events - WRITE_EVENT);
    var e := if c.wantsComplete then Post(d, WriteComplete(c.id)) else d;
    if c.phase == Disconnecting then ShutInLoop(e) else e
  }

  function WriteHandled(c: Conn, offered: WriteResult): Conn {
    if !c.IsWriting() then c
    else match KernelWrite(c.shutdowns > 0, |c.output|, offered)
         case Failed(_) => c
         case Wrote(n) =>
           var d := c.(wire := c.wire + c.output[..n], output := c.output[n..]);
           if n == 0 || d.output != [] then d else DrainHandled(d)
  }

  /** No guard on the phase, as in the source. */
  function CloseHandled(c: Conn): Conn {
    SetMask(c.(phase := Disconnected), NONE_EVENT).(calls := c.calls + [Down, CloseRequested])
  }

  function ReadHandled(c: Conn, offered: Option<seq<byte>>): Conn {
    match offered
    case None => c
    case Some(bytes) =>
      if bytes == [] then CloseHandled(c)
      else c.(input := c.input + bytes, calls := c.calls + [Message])
  }

  function EstablishHandled(c: Conn): Conn {
    SetMask(c.(phase := Connected), c.chan.events + READ_EVENT).(calls := c.calls + [Up])
  }

  function DestroyHandled(c: Conn): Conn {
    var d := if c.phase == Connected
             then SetMask(c.(phase := Disconnected), NONE_EVENT).(calls := c.calls + [Down]) else c;
    d.(chan := Removed(d.chan))
  }

  datatype Op =
    | Establish                                     // connectEstablished
    | Send(data: seq<byte>, offered: WriteResult)   // send, called on the loop thread
    | SendFunctor(data: seq<byte>, offered: WriteResult)  // sendInLoop, queued by another thread
    | Shutdown                                      // shutdown, called on the loop thread
    | ShutdownElsewhere                             // shutdown on another thread: its state change
    | ShutdownFunctor                               // shutdownInLoop, queued by another thread
    | Writable(offered: WriteResult)                // handleWrite
    | Readable(received: Option<seq<byte>>)         // handleRead, up to the message callback
    | Retrieve(len: nat)                            // the user consumes input
    | Close                                         // handleClose
    | Destroy                                       // connectDestroyed

  function Step(c: Conn, op: Op): Conn {
    match op
    case Establish => EstablishHandled(c)
    case Send(data, offered) => if c.phase == Connected then SentInLoop(c, data, offered) else c
    case SendFunctor(data, offered) => SentInLoop(c, data, offered)
    case Shutdown => if c.phase == Connected then ShutInLoop(c.(phase := Disconnecting)) else c
    case ShutdownElsewhere => if c.phase == Connected then c.(phase := Disconnecting) else c
    case ShutdownFunctor => ShutInLoop(c)
    case Writable(offered) => WriteHandled(c, offered)
    case Readable(received) => ReadHandled(c, received)
    case Retrieve(len) => c.(input := if len < |c.input| then c.input[len..] else [])
    case Close => CloseHandled(c)
    case Destroy => DestroyHandled(c)
  }

  function Run(c: Conn, ops: seq<Op>): Conn
    decreases |ops|
  {
    if ops == [] then c else Run(Step(c, ops[0]), ops[1..])
  }

  lemma {:induction false} RunConcat(c: Conn, a: seq<Op>, b: seq<Op>)
    ensures Run(c, a + b) == Run(Run(c, a), b)
    decreases |a|
  {
    if a == [] {
      assert a + b == b;
    } else {
      assert (a + b)[1..] == a[1..] + b;
      RunConcat(Step(c, a[0]), a[1..], b);
    }
  }

  lemma RunOne(c: Conn, op: Op)
    ensures Run(c, [op]) == Step(c, op)
    ensures LegalRun(c, [op]) <==> Legal(c, op)
  {
    assert [op][1..] == [];
    assert Run(Step(c, op), []) == Step(c, op) && LegalRun(Step(c, op), []);
  }

  /** The source's assumptions about when each entry point runs: one establishment, one close
      trigger, destruction only after the close, callbacks and queued sends only once established, and
      a queued half-close only after its `shutdown`. */
  predicate Legal(c: Conn, op: Op) {
    match op
    case Establish => c.phase == Connecting
    case Close => c.Open()
    case Readable(received) => if received == Some([]) then c.Open() else c.phase != Connecting
    case Destroy => c.phase == Disconnected && c.chan.index != New
    case SendFunctor(_, _) => c.phase != Connecting
    case ShutdownFunctor => c.phase == Disconnecting || c.phase == Disconnected
    case Writable(_) => c.phase != Connecting
    case _ => true
  }

  predicate LegalRun(c: Conn, ops: seq<Op>)
    decreases |ops|
  {
    ops == [] || (Legal(c, ops[0]) && LegalRun(Step(c, ops[0]), ops[1..]))
  }

  ghost predicate Inv(c: Conn) {
    && Consistent(c.chan)
    && (c.phase == Connecting ==>
          c.chan.index == New && c.output == [] && c.wire == [] && c.shutdowns == 0)
    && (c.Open() ==>
          && c.chan.kernel == Some(if c.output == [] then READ_EVENT else READ_EVENT + WRITE_EVENT)
          && (c.shutdowns > 0 ==> c.phase == Disconnecting && c.output == []))
    && (c.phase == Disconnected ==> c.chan.kernel == None && c.chan.events == NONE_EVENT)
  }
}
