/** TcpConnection.cpp as an object over the real buffers, channel, poller and loop. Every method is
    equated with the step of module `Connection` that its callers' proofs are about. */
module TcpConnections {
  import opened Prelude
  import opened Registration
  import opened Pollers
  import opened Tasks
  import opened Phases
  import opened Connection
  import P = ConnectionProofs
  import opened Dispatch
  import B = Buffers
  import L = LoopMachine
  import E = EventLoops

  /** The kernel's side of the connected socket. */
  class Socket {
    var sent: seq<byte>
    var shutdowns: nat

    constructor ()
      ensures sent == [] && shutdowns == 0
    {
      sent, shutdowns := [], 0;
    }

    /** The stub for `::write`: `offered` is what the kernel would answer while the side is open. */
    method Write(data: seq<byte>, offered: WriteResult) returns (r: WriteResult)
      modifies this`sent
      ensures r == KernelWrite(shutdowns > 0, |data|, offered)
      ensures sent == old(sent) + (if r.Wrote? then data[..r.n] else [])
    {
      r := KernelWrite(shutdowns > 0, |data|, offered);
      if r.Wrote? {
        sent := sent + data[..r.n];
      }
    }

    method ShutdownWrite()
      modifies this`shutdowns
      ensures shutdowns == old(shutdowns) + 1
    {
      shutdowns := shutdowns + 1;
    }
  }

  class TcpConnection {
    const id: nat
    const loop: E.EventLoop<Functor>
    const channel: Channel
    const socket: Socket
    const inputBuffer: B.Buffer
    const outputBuffer: B.Buffer
    var state: Phase
    var highWaterMark: nat
    var wantsComplete: bool
    var wantsHighWater: bool
    /** The callbacks made so far. */
    ghost var calls: seq<Callback>

    ghost predicate Valid()
      reads this, channel, channel.poller, channel.poller.known, inputBuffer, outputBuffer
    {
      && channel.poller == loop.poller && channel.Registered()
      && inputBuffer != outputBuffer && inputBuffer.data != outputBuffer.data
      && inputBuffer.Valid() && outputBuffer.Valid()
      && (Up in calls ==> channel.tied)
    }

    /** The loop thread is running a handler or a functor. */
    ghost predicate OnLoop()
      reads loop
    {
      L.UserCode(loop.View())
    }

    /** `posted` is everything queued on the loop, of which this connection's notices are a part. */
    ghost function View(): Conn
      requires Valid()
      reads this, channel, channel.poller, channel.poller.known, loop, socket
      reads inputBuffer, inputBuffer.data, outputBuffer, outputBuffer.data
    {
      Conn(id, state, channel.poller.View(channel), inputBuffer.Contents(), outputBuffer.Contents(),
           socket.sent, socket.shutdowns, loop.pendingFunctors, calls, highWaterMark, wantsComplete, wantsHighWater)
    }

    constructor (id: nat, loop: E.EventLoop<Functor>, fd: int, mark: nat, wantsComplete: bool, wantsHighWater: bool)
      requires loop.poller.Valid() && forall c :: c in loop.poller.known ==> c.fd != fd
      modifies loop.poller`known
      ensures Valid() && this.id == id && this.loop == loop && channel.fd == fd
      ensures loop.poller.known == old(loop.poller.known) + {channel}
      ensures View() == FreshConn(id, mark, wantsComplete, wantsHighWater).(posted := loop.pendingFunctors)
      ensures fresh(channel) && fresh(socket) && !channel.tied && !channel.eventHandling
      ensures fresh(inputBuffer) && fresh(inputBuffer.data) && fresh(outputBuffer) && fresh(outputBuffer.data)
    {
      this.id, this.loop := id, loop;
      socket := new Socket();
      channel := new Channel(loop.poller, fd);
      inputBuffer := new B.Buffer();
      outputBuffer := new B.Buffer();
      state, calls := Connecting, [];
      highWaterMark, this.wantsComplete, this.wantsHighWater := mark, wantsComplete, wantsHighWater;
    }

    /** `queueInLoop` for one of this connection's notices. */
    method Queue(f: Functor)
      requires Valid() && OnLoop()
      modifies loop`pendingFunctors, loop`eventfd, loop`enqueued
      ensures old(loop.Covers()) ==> loop.Covers()
      ensures Valid() && View() == Post(old(View()), f)
      ensures loop.pendingFunctors == old(loop.pendingFunctors) + [f]
      ensures E.Reaches(old(loop.View()), E.QueueSteps(loop.callingPendingFunctors, f, E.Own), loop.View())
    {
      loop.QueueInLoop(f, E.Own);
    }

    method EnableReading()
      requires Valid()
      modifies channel`events, channel`addedToLoop, channel`index, channel.poller
      ensures Valid() && View() == SetMask(old(View()), old(channel.events) + READ_EVENT)
    {
      channel.EnableReading();
    }

    /** Asks for EPOLLOUT unless it is asked for already. */
    method AwaitWritable()
      requires Valid()
      modifies channel`events, channel`addedToLoop, channel`index, channel.poller
      ensures Valid()
      ensures var c := old(View());
              View() == if c.IsWriting() then c else SetMask(c, c.chan.events + WRITE_EVENT)
    {
      if !channel.IsWriting() {
        channel.EnableWriting();
      }
    }

    method DisableAll()
      requires Valid()
      modifies channel`events, channel`addedToLoop, channel`index, channel.poller
      ensures Valid() && View() == SetMask(old(View()), NONE_EVENT)
    {
      channel.DisableAll();
    }

    method AppendOutput(rest: seq<byte>)
      requires Valid()
      modifies outputBuffer, outputBuffer.data
      ensures Valid() && (outputBuffer.data == old(outputBuffer.data) || fresh(outputBuffer.data))
      ensures View() == old(View()).(output := old(View()).output + rest)
    {
      outputBuffer.Append(rest);
    }

    /** The direct write of `sendInLoop`, and its notice when it takes everything. */
    method WriteDirect(data: seq<byte>, offered: WriteResult) returns (nwrote: nat, faultError: bool)
      requires Valid() && OnLoop()
      modifies socket`sent, loop`pendingFunctors, loop`eventfd, loop`enqueued
      ensures old(loop.Covers()) ==> loop.Covers()
      ensures Valid() && nwrote <= |data|
      ensures match KernelWrite(socket.shutdowns > 0, |data|, offered)
              case Failed(errno) =>
                && nwrote == 0 && View() == old(View())
                && faultError == (errno == EPIPE || errno == ECONNRESET)
              case Wrote(n) => nwrote == n && !faultError && View() == Taken(old(View()), data, n)
    {
      nwrote, faultError := 0, false;
      var r := socket.Write(data, offered);
      if r.Wrote? {
        nwrote := r.n;
        if nwrote == |data| && wantsComplete {
          Queue(WriteComplete(id));
        }
      } else {
        faultError := r.errno == EPIPE || r.errno == ECONNRESET;
      }
    }

    /** Everything `sendInLoop` does before its tail. */
    method TryDirect(data: seq<byte>, offered: WriteResult) returns (nwrote: nat, faultError: bool)
      requires Valid() && OnLoop() && state != Disconnected
      modifies socket`sent, loop`pendingFunctors, loop`eventfd, loop`enqueued
      ensures old(loop.Covers()) ==> loop.Covers()
      ensures Valid() && nwrote <= |data|
      ensures SentInLoop(old(View()), data, offered) == Finished(View(), data[nwrote..], faultError)
    {
      SentInTwoParts(View(), data, offered);
      nwrote, faultError := 0, false;
      if !channel.IsWriting() && outputBuffer.ReadableBytes() == 0 {
        nwrote, faultError := WriteDirect(data, offered);
      }
      assert data[0..] == data;
    }

    method SendInLoop(data: seq<byte>, offered: WriteResult)
      requires Valid() && OnLoop()
      modifies channel`events, channel`addedToLoop, channel`index, channel.poller
      modifies socket, outputBuffer, outputBuffer.data
      modifies loop`pendingFunctors, loop`eventfd, loop`enqueued
      ensures old(loop.Covers()) ==> loop.Covers()
      ensures Valid()
      ensures outputBuffer.data == old(outputBuffer.data) || fresh(outputBuffer.data)
      ensures View() == SentInLoop(old(View()), data, offered)
    {
      if state == Disconnected {
        return;
      }
      var nwrote, faultError := TryDirect(data, offered);
      if !faultError && nwrote < |data| {
        BufferRest(data[nwrote..]);
      }
    }

    /** The tail of `sendInLoop`. */
    method BufferRest(rest: seq<byte>)
      requires Valid() && OnLoop() && rest != []
      modifies channel`events, channel`addedToLoop, channel`index, channel.poller
      modifies outputBuffer, outputBuffer.data
      modifies loop`pendingFunctors, loop`eventfd, loop`enqueued
      ensures old(loop.Covers()) ==> loop.Covers()
      ensures Valid()
      ensures outputBuffer.data == old(outputBuffer.data) || fresh(outputBuffer.data)
      ensures View() == Buffered(old(View()), rest)
    {
      NoteCrossing(outputBuffer.ReadableBytes() + |rest|);
      HoldRest(rest);
    }

    method HoldRest(rest: seq<byte>)
      requires Valid()
      modifies channel`events, channel`addedToLoop, channel`index, channel.poller
      modifies outputBuffer, outputBuffer.data
      ensures Valid()
      ensures outputBuffer.data == old(outputBuffer.data) || fresh(outputBuffer.data)
      ensures View() == Held(old(View()), rest)
    {
      AppendOutput(rest);
      AwaitWritable();
    }

    /** The high-water notice, when the buffer is about to grow to `total` bytes. */
    method NoteCrossing(total: nat)
      requires Valid() && OnLoop()
      modifies loop`pendingFunctors, loop`eventfd, loop`enqueued
      ensures old(loop.Covers()) ==> loop.Covers()
      ensures Valid() && View() == Noted(old(View()), total)
    {
      if total >= highWaterMark && outputBuffer.ReadableBytes() < highWaterMark && wantsHighWater {
        Queue(HighWater(id, total));
      }
    }

    method Send(data: seq<byte>, offered: WriteResult)
      requires Valid() && OnLoop()
      modifies channel`events, channel`addedToLoop, channel`index, channel.poller
      modifies socket, outputBuffer, outputBuffer.data
      modifies loop`pendingFunctors, loop`eventfd, loop`enqueued
      ensures old(loop.Covers()) ==> loop.Covers()
      ensures Valid()
      ensures outputBuffer.data == old(outputBuffer.data) || fresh(outputBuffer.data)
      ensures View() == Step(old(View()), Op.Send(data, offered))
    {
      if state == Connected {
        SendInLoop(data, offered);
      }
    }

    /** `send` on another thread: the payload travels by value, and the loop will be woken. */
    method SendElsewhere(data: seq<byte>, caller: nat)
      requires Valid()
      modifies loop`pendingFunctors, loop`eventfd, loop`enqueued
      ensures old(loop.Covers()) ==> loop.Covers()
      ensures loop.pendingFunctors
           == old(loop.pendingFunctors) + (if state == Connected then [Functor.SendInLoop(id, data, caller)] else [])
      ensures state == Connected ==>
                && loop.eventfd > 0
                && E.Reaches(old(loop.View()), [L.Push(caller, Functor.SendInLoop(id, data, caller)), L.Write(caller)],
                             loop.View())
      ensures state != Connected ==> loop.View() == old(loop.View())
    {
      if state == Connected {
        loop.QueueInLoop(Functor.SendInLoop(id, data, caller), E.Other(caller));
      }
    }

    /** `shutdown` on another thread: the state changes at once, the half-close is queued. */
    method ShutdownElsewhere(caller: nat)
      requires Valid()
      modifies this`state, loop`pendingFunctors, loop`eventfd, loop`enqueued
      ensures old(loop.Covers()) ==> loop.Covers()
      ensures Valid() && View().(posted := []) == Step(old(View()), Op.ShutdownElsewhere).(posted := [])
      ensures loop.pendingFunctors
           == old(loop.pendingFunctors) + (if old(state) == Connected then [Functor.ShutdownInLoop(id)] else [])
      ensures old(state) == Connected ==>
                && loop.eventfd > 0
                && E.Reaches(old(loop.View()), [L.Push(caller, Functor.ShutdownInLoop(id)), L.Write(caller)],
                             loop.View())
      ensures old(state) != Connected ==> loop.View() == old(loop.View())
    {
      if state == Connected {
        state := Disconnecting;
        loop.QueueInLoop(Functor.ShutdownInLoop(id), E.Other(caller));
      }
    }

    method ShutdownInLoop()
      requires Valid()
      modifies socket`shutdowns
      ensures Valid() && View() == ShutInLoop(old(View()))
    {
      if !channel.IsWriting() {
        socket.ShutdownWrite();
      }
    }

    method Shutdown()
      requires Valid()
      modifies this`state, socket`shutdowns
      ensures Valid() && View() == Step(old(View()), Op.Shutdown)
    {
      if state == Connected {
        state := Disconnecting;
        ShutdownInLoop();
      }
    }

    /** `handleWrite` once the buffer is empty. */
    method FinishWrite()
      requires Valid() && OnLoop()
      modifies channel`events, channel`addedToLoop, channel`index, channel.poller
      modifies socket`shutdowns
      modifies loop`pendingFunctors, loop`eventfd, loop`enqueued
      ensures old(loop.Covers()) ==> loop.Covers()
      ensures Valid() && View() == DrainHandled(old(View()))
    {
      channel.DisableWriting();
      if wantsComplete {
        Queue(WriteComplete(id));
      }
      if state == Disconnecting {
        ShutdownInLoop();
      }
    }

    method HandleWrite(offered: WriteResult)
      requires Valid() && OnLoop()
      modifies channel`events, channel`addedToLoop, channel`index, channel.poller
      modifies socket, outputBuffer
      modifies loop`pendingFunctors, loop`eventfd, loop`enqueued
      ensures old(loop.Covers()) ==> loop.Covers()
      ensures Valid()
      ensures outputBuffer.data == old(outputBuffer.data)
      ensures View() == WriteHandled(old(View()), offered)
    {
      if channel.IsWriting() {
        var n := WriteOutput(offered);
        if n > 0 && outputBuffer.ReadableBytes() == 0 {
          FinishWrite();
        }
      }
    }

    /** The `::write` of `handleWrite`, and the retrieval of what it took. */
    method WriteOutput(offered: WriteResult) returns (n: nat)
      requires Valid()
      modifies socket`sent, outputBuffer
      ensures Valid() && outputBuffer.data == old(outputBuffer.data)
      ensures match KernelWrite(socket.shutdowns > 0, |old(View()).output|, offered)
              case Failed(_) => n == 0 && View() == old(View())
              case Wrote(k) =>
                && n == k
                && var d := old(View()); View() == d.(wire := d.wire + d.output[..n], output := d.output[n..])
    {
      n := 0;
      var r := socket.Write(outputBuffer.Contents(), offered);
      if r.Wrote? && r.n > 0 {
        n := r.n;
        outputBuffer.Retrieve(n);
      }
    }

    /** What the user does in its down callback finds `kDisconnected` and has no effect. */
    method HandleClose()
      requires Valid()
      modifies channel`events, channel`addedToLoop, channel`index, channel.poller
      modifies this`state, this`calls
      ensures Valid() && View() == CloseHandled(old(View()))
    {
      state := Disconnected;
      DisableAll();
      calls := calls + [Down, CloseRequested];
    }

    /** The user takes bytes out of the input buffer. */
    method Consume(len: nat)
      requires Valid()
      modifies inputBuffer
      ensures Valid() && inputBuffer.data == old(inputBuffer.data)
      ensures var c := old(View()); View() == c.(input := if len < |c.input| then c.input[len..] else [])
    {
      ghost var was := inputBuffer.View();
      inputBuffer.Retrieve(len);
      assert inputBuffer.View().contents == B.Retrieved(was, len).contents;
      assert outputBuffer.Contents() == old(outputBuffer.Contents());
      assert channel.poller.View(channel) == old(channel.poller.View(channel));
    }

    /** A user callback body, run by the loop thread. */
    method RunUserOp(op: Op)
      requires Valid() && OnLoop() && UserOp(op)
      modifies channel`events, channel`addedToLoop, channel`index, channel.poller
      modifies this`state, socket, inputBuffer, outputBuffer, outputBuffer.data
      modifies loop`pendingFunctors, loop`eventfd, loop`enqueued
      ensures old(loop.Covers()) ==> loop.Covers()
      ensures Valid() && inputBuffer.data == old(inputBuffer.data)
      ensures outputBuffer.data == old(outputBuffer.data) || fresh(outputBuffer.data)
      ensures View() == Step(old(View()), op)
    {
      match op
      case Send(data, offered) => Send(data, offered);
      case Shutdown => Shutdown();
      case Retrieve(len) => Consume(len);
    }

    method RunScript(script: seq<Op>)
      requires Valid() && OnLoop() && UserScript(script)
      modifies channel`events, channel`addedToLoop, channel`index, channel.poller
      modifies this`state, socket, inputBuffer, outputBuffer, outputBuffer.data
      modifies loop`pendingFunctors, loop`eventfd, loop`enqueued
      ensures old(loop.Covers()) ==> loop.Covers()
      ensures Valid() && inputBuffer.data == old(inputBuffer.data)
      ensures outputBuffer.data == old(outputBuffer.data) || fresh(outputBuffer.data)
      ensures View() == Run(old(View()), script)
      decreases |script|
    {
      if script != [] {
        RunUserOp(script[0]);
        RunScript(script[1..]);
      }
    }

    /** What `readv` delivers of the offered bytes, given the room of the input buffer. */
    function Received(offered: Option<seq<byte>>): Option<seq<byte>>
      requires inputBuffer.Valid()
      reads this, inputBuffer
    {
      match offered
      case None => None
      case Some(bytes) => Some(bytes[..Min(|bytes|, B.ReadCapacity(inputBuffer.GetLayout()))])
    }

    /** That is all of it up to 64 KiB, whatever the buffer holds, and never nothing of something: so the
        end of the stream is the only empty receipt. */
    lemma ReceivedIsPrompt(offered: Option<seq<byte>>)
      requires inputBuffer.Valid()
      ensures Received(offered).None? <==> offered.None?
      ensures Received(offered) == Some([]) <==> offered == Some([])
      ensures offered.Some? && |offered.value| <= 65536 ==> Received(offered) == offered
      ensures offered.Some? && |offered.value| > 65536 ==> 65536 <= |Received(offered).value| <= |offered.value|
      ensures offered.Some? ==> Received(offered).value <= offered.value
    {
      if offered.Some? {
        B.ReadTakes(inputBuffer.GetLayout(), |offered.value|);
        assert offered.value[..|offered.value|] == offered.value;
      }
    }

    /** `readFd` on the input buffer; -1 is its error. */
    method FillInput(offered: Option<seq<byte>>) returns (n: int)
      requires Valid()
      modifies inputBuffer, inputBuffer.data
      ensures Valid() && (inputBuffer.data == old(inputBuffer.data) || fresh(inputBuffer.data))
      ensures match old(Received(offered))
              case None => n < 0 && View() == old(View())
              case Some(bytes) =>
                n == |bytes| && View() == old(View()).(input := old(View()).input + bytes)
    {
      n := inputBuffer.ReadFd(offered);
    }

    method HandleRead(offered: Option<seq<byte>>) returns (message: bool)
      requires Valid()
      modifies channel`events, channel`addedToLoop, channel`index, channel.poller
      modifies this`state, this`calls, inputBuffer, inputBuffer.data
      ensures Valid() && (inputBuffer.data == old(inputBuffer.data) || fresh(inputBuffer.data))
      ensures View() == ReadHandled(old(View()), old(Received(offered)))
      ensures message == (offered.Some? && offered.value != [])
      ensures message && |offered.value| <= 65536 ==>
                View() == old(View()).(input := old(View()).input + offered.value, calls := old(calls) + [Message])
      ensures offered == Some([]) ==> state == Disconnected && calls == old(calls) + [Down, CloseRequested]
      ensures offered != Some([]) ==> state == old(state)
      ensures offered.None? ==> View() == old(View())
    {
      ReceivedIsPrompt(offered);
      var n := FillInput(offered);
      message := n > 0;
      if n > 0 {
        calls := calls + [Message];
      } else if n == 0 {
        HandleClose();
      }
    }

    method ConnectEstablished(script: seq<Op>)
      requires Valid() && OnLoop() && UserScript(script)
      modifies channel`events, channel`addedToLoop, channel`index, channel`tied, channel.poller
      modifies this`state, this`calls
      modifies socket, inputBuffer, outputBuffer, outputBuffer.data
      modifies loop`pendingFunctors, loop`eventfd, loop`enqueued
      ensures old(loop.Covers()) ==> loop.Covers()
      ensures Valid() && channel.tied && inputBuffer.data == old(inputBuffer.data)
      ensures outputBuffer.data == old(outputBuffer.data) || fresh(outputBuffer.data)
      ensures View() == Run(Step(old(View()), Establish), script)
    {
      EnterConnected();
      RunScript(script);
    }

    method EnterConnected()
      requires Valid()
      modifies channel`events, channel`addedToLoop, channel`index, channel`tied, channel.poller
      modifies this`state, this`calls
      ensures Valid() && channel.tied && View() == Step(old(View()), Establish)
    {
      state := Connected;
      StartReading();
      calls := calls + [Up];
    }

    method StartReading()
      requires Valid()
      modifies channel`events, channel`addedToLoop, channel`index, channel`tied, channel.poller
      ensures Valid() && channel.tied && View() == SetMask(old(View()), old(channel.events) + READ_EVENT)
    {
      channel.Tie();
      EnableReading();
    }

    /** The assertions of `Channel::remove` and `removeChannel` are the precondition; when they hold
        is settled by `ConnectionProofs.DestroyAssertsIff`. */
    method ConnectDestroyed()
      requires Valid() && P.DestroyAssertsHold(View())
      modifies channel`events, channel`addedToLoop, channel`index, channel.poller
      modifies this`state, this`calls
      ensures Valid() && View() == Step(old(View()), Op.Destroy)
      ensures Destructible(channel.poller.View(channel))
    {
      if state == Connected {
        LeaveConnected();
      }
      channel.Remove();
    }

    method LeaveConnected()
      requires Valid()
      modifies channel`events, channel`addedToLoop, channel`index, channel.poller
      modifies this`state, this`calls
      ensures Valid()
      ensures View() == SetMask(old(View()).(phase := Disconnected), NONE_EVENT).(calls := old(calls) + [Down])
    {
      state := Disconnected;
      DisableAll();
      calls := calls + [Down];
    }

    /** `~TcpConnection`, with its channel: the descriptor may then be used again. */
    method Destroy()
      requires Valid() && Destructible(channel.poller.View(channel)) && !channel.eventHandling
      modifies channel.poller`known
      ensures loop.poller.Valid() && loop.poller.known == old(loop.poller.known) - {channel}
      ensures forall c :: c in loop.poller.known ==>
                c.fd != channel.fd && loop.poller.View(c) == old(loop.poller.View(c))
    {
      channel.Destroy();
    }

    method CloseIf(trigger: bool)
      requires Valid()
      modifies channel`events, channel`addedToLoop, channel`index, channel.poller
      modifies this`state, this`calls
      ensures Valid() && View() == Run(old(View()), if trigger then [Close] else [])
    {
      if trigger {
        HandleClose();
        RunOne(old(View()), Close);
      }
    }

    method ReadIf(revents: Mask, offered: Option<seq<byte>>, script: seq<Op>)
      requires Valid() && OnLoop() && UserScript(script)
      modifies channel`events, channel`addedToLoop, channel`index, channel.poller
      modifies this`state, this`calls, socket
      modifies inputBuffer, inputBuffer.data, outputBuffer, outputBuffer.data
      modifies loop`pendingFunctors, loop`eventfd, loop`enqueued
      ensures old(loop.Covers()) ==> loop.Covers()
      ensures Valid() && (outputBuffer.data == old(outputBuffer.data) || fresh(outputBuffer.data))
      ensures inputBuffer.data == old(inputBuffer.data) || fresh(inputBuffer.data)
      ensures View() == Run(old(View()), ReadOps(revents, old(Received(offered)), script))
    {
      if revents * READABLE != {} {
        var message := HandleRead(offered);
        RunOne(old(View()), Readable(old(Received(offered))));
        if message {
          RunScript(script);
          RunConcat(old(View()), [Readable(old(Received(offered)))], script);
        }
      }
    }

    method WriteIf(trigger: bool, answer: WriteResult)
      requires Valid() && OnLoop()
      modifies channel`events, channel`addedToLoop, channel`index, channel.poller
      modifies socket, outputBuffer
      modifies loop`pendingFunctors, loop`eventfd, loop`enqueued
      ensures old(loop.Covers()) ==> loop.Covers()
      ensures Valid() && outputBuffer.data == old(outputBuffer.data)
      ensures View() == Run(old(View()), if trigger then [Writable(answer)] else [])
    {
      if trigger {
        HandleWrite(answer);
        RunOne(old(View()), Writable(answer));
      }
    }

    /** The two tests that can close before anything is read. */
    method CloseTests(revents: Mask)
      requires Valid()
      modifies channel`events, channel`addedToLoop, channel`index, channel.poller
      modifies this`state, this`calls
      ensures Valid()
      ensures View() == Run(Run(old(View()), if ClosesOnHangup(revents) then [Close] else []),
                            if ClosesOnError(revents) then [Close] else [])
    {
      CloseIf(HUP in revents && IN !in revents);
      CloseIf(ERR in revents);
    }

    /** The four tests of `Channel::handleEventWithGuard`, in order. */
    method HandleEventWithGuard(revents: Mask, offered: Option<seq<byte>>, script: seq<Op>, answer: WriteResult)
      requires Valid() && OnLoop() && UserScript(script) && channel.eventHandling
      modifies channel`events, channel`addedToLoop, channel`index, channel.poller
      modifies this`state, this`calls, socket
      modifies inputBuffer, inputBuffer.data, outputBuffer, outputBuffer.data
      modifies loop`pendingFunctors, loop`eventfd, loop`enqueued
      ensures old(loop.Covers()) ==> loop.Covers()
      ensures Valid()
      ensures View() == Run(old(View()), EventOps(revents, old(Received(offered)), script, answer))
    {
      EventRuns(View(), revents, Received(offered), script, answer);
      CloseTests(revents);
      ReadIf(revents, offered, script);
      WriteIf(OUT in revents, answer);
    }

    /** `Channel::handleEvent` on the events of the last poll. `locked` tells whether the weak pointer
        could be locked: a tied channel whose connection is gone does nothing. */
    method HandleEvent(locked: bool, offered: Option<seq<byte>>, script: seq<Op>, answer: WriteResult)
      requires Valid() && OnLoop() && UserScript(script)
      modifies channel`events, channel`addedToLoop, channel`index, channel`eventHandling, channel.poller
      modifies this`state, this`calls, socket
      modifies inputBuffer, inputBuffer.data, outputBuffer, outputBuffer.data
      modifies loop`pendingFunctors, loop`eventfd, loop`enqueued
      ensures old(loop.Covers()) ==> loop.Covers()
      ensures Valid() && (!old(channel.tied) || locked ==> !channel.eventHandling)
      ensures Up in old(calls) && !locked ==> View() == old(View()) && loop.View() == old(loop.View())
      ensures View() == if old(channel.tied) && !locked then old(View())
                        else Run(old(View()), EventOps(old(channel.revents), old(Received(offered)), script, answer))
    {
      if !channel.tied || locked {
        var revents := channel.revents;
        SetHandling(true);
        HandleEventWithGuard(revents, offered, script, answer);
        SetHandling(false);
      }
    }

    method SetHandling(handling: bool)
      requires Valid()
      modifies channel`eventHandling
      ensures Valid() && View() == old(View()) && channel.eventHandling == handling
    {
      channel.eventHandling := handling;
    }
  }

  lemma EventRuns(c: Conn, revents: Mask, received: Option<seq<byte>>, script: seq<Op>, answer: WriteResult)
    ensures var hup: seq<Op> := if ClosesOnHangup(revents) then [Close] else [];
            var err: seq<Op> := if ClosesOnError(revents) then [Close] else [];
            var write: seq<Op> := if OUT in revents then [Writable(answer)] else [];
            Run(c, EventOps(revents, received, script, answer))
            == Run(Run(Run(Run(c, hup), err), ReadOps(revents, received, script)), write)
  {
    var hup: seq<Op> := if ClosesOnHangup(revents) then [Close] else [];
    var err: seq<Op> := if ClosesOnError(revents) then [Close] else [];
    var read := ReadOps(revents, received, script);
    var write: seq<Op> := if OUT in revents then [Writable(answer)] else [];
    RunConcat(c, hup, err);
    RunConcat(c, hup + err, read);
    RunConcat(c, hup + err + read, write);
  }
}
