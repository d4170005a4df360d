/** What each entry point of a connection does, told by bytes, event bits, half-closes and callbacks. */
module ConnectionLaws {
  import opened Prelude
  import opened Registration
  import opened Tasks
  import opened Phases
  import opened Connection
  import opened ConnectionProofs

  /** The queue of functors grew by these. */
  predicate Posts(c: Conn, d: Conn, fs: seq<Functor>) {
    d.posted == c.posted + fs
  }

  /** Only bytes on their way out, the interest in EPOLLOUT, half-closes and notices may differ. */
  predicate OnlyOutput(c: Conn, d: Conn) {
    && d.id == c.id && d.phase == c.phase && d.input == c.input && d.calls == c.calls
    && d.mark == c.mark && d.wantsComplete == c.wantsComplete && d.wantsHighWater == c.wantsHighWater
  }

  function CompleteNotice(c: Conn): seq<Functor> {
    if c.wantsComplete then [WriteComplete(c.id)] else []
  }

  /** The notice for a buffer that grows from `before` to `after` bytes. */
  function HighWaterNotice(c: Conn, before: nat, after: nat): seq<Functor> {
    if c.wantsHighWater && before < c.mark <= after then [HighWater(c.id, after)] else []
  }

  // ----- handleWrite -----

  /** `handleWrite` offers the kernel everything that is pending: an answer of k moves the first k bytes,
      and one of at least all of it empties the buffer, ends the interest in EPOLLOUT, queues the completion
      and carries out a half-close that was asked for. */
  lemma WriteMakesProgress(c: Conn, k: nat)
    requires Inv(c) && c.Open() && c.output != []
    ensures var d := Step(c, Writable(Wrote(k)));
            && OnlyOutput(c, d)
            && (k < |c.output| ==>
                  && d.wire == c.wire + c.output[..k] && d.output == c.output[k..]
                  && d.shutdowns == c.shutdowns && Posts(c, d, []) && d.chan == c.chan)
            && (k >= |c.output| ==>
                  && d.wire == c.wire + c.output && d.output == [] && d.chan.kernel == Some({IN, PRI})
                  && d.shutdowns == (if c.phase == Disconnecting then 1 else 0)
                  && Posts(c, d, CompleteNotice(c)))
  {
    WritingIffPending(c);
    StepKeepsInv(c, Writable(Wrote(k)));
    WritingIffPending(Step(c, Writable(Wrote(k))));
  }

  /** A failed write changes nothing, and neither does an EPOLLOUT with nothing pending or after a close. */
  lemma WriteElseNothing(c: Conn, offered: WriteResult)
    requires Inv(c) && (offered.Failed? || c.output == [] || !c.Open())
    ensures Step(c, Writable(offered)) == c
  {
    WritingIffPending(c);
  }

  // ----- send and sendInLoop -----

  /** Behind pending output a payload is buffered whole: the kernel is not asked. */
  lemma SendBehindPending(c: Conn, data: seq<byte>, offered: WriteResult)
    requires Inv(c) && c.Open() && c.output != []
    ensures var d := Step(c, SendFunctor(data, offered));
            && OnlyOutput(c, d) && d.wire == c.wire && d.output == c.output + data && d.shutdowns == c.shutdowns
            && Posts(c, d, HighWaterNotice(c, |c.output|, |c.output| + |data|))
  {
    WritingIffPending(c);
    assert c.posted + [] == c.posted;
  }

  /** With nothing pending the kernel is offered the whole payload at once: what it takes is on the wire,
      the rest waits for EPOLLOUT, and taking all of it queues the completion. */
  lemma SendMakesProgress(c: Conn, data: seq<byte>, k: nat)
    requires Inv(c) && c.Open() && c.output == [] && c.shutdowns == 0
    ensures var d := Step(c, SendFunctor(data, Wrote(k)));
            && OnlyOutput(c, d) && d.shutdowns == 0
            && (k >= |data| ==>
                  d.wire == c.wire + data && d.output == [] && Posts(c, d, CompleteNotice(c)) && d.chan == c.chan)
            && (k < |data| ==>
                  && d.wire == c.wire + data[..k] && d.output == data[k..]
                  && d.chan.kernel == Some({IN, PRI, OUT})
                  && Posts(c, d, HighWaterNotice(c, 0, |data| - k)))
  {
    WritingIffPending(c);
    assert READ_EVENT + WRITE_EVENT == {IN, PRI, OUT};
    assert c.posted + [] == c.posted && c.wire + data[..|data|] == c.wire + data;
    StepKeepsInv(c, SendFunctor(data, Wrote(k)));
  }

  /** A direct write that fails loses the payload to a broken connection, or to a write side that is
      shut, and otherwise buffers all of it. */
  lemma SendThatFails(c: Conn, data: seq<byte>, errno: Errno)
    requires Inv(c) && c.Open() && c.output == []
    ensures var d := Step(c, SendFunctor(data, Failed(errno)));
            && (errno == EPIPE || errno == ECONNRESET || c.shutdowns > 0 || data == [] ==> d == c)
            && (errno != EPIPE && errno != ECONNRESET && c.shutdowns == 0 && data != [] ==>
                  && OnlyOutput(c, d) && d.wire == c.wire && d.output == data && d.shutdowns == 0
                  && d.chan.kernel == Some({IN, PRI, OUT}) && Posts(c, d, HighWaterNotice(c, 0, |data|)))
  {
    WritingIffPending(c);
    assert READ_EVENT + WRITE_EVENT == {IN, PRI, OUT};
    assert c.posted + [] == c.posted;
    StepKeepsInv(c, SendFunctor(data, Failed(errno)));
  }

  /** `send` on the loop thread is the same while connected, and nothing in any other state; a queued send
      is nothing once disconnected, and nothing once the write side is shut. */
  lemma SendOnlyWhenUp(c: Conn, data: seq<byte>, offered: WriteResult)
    requires Inv(c)
    ensures c.phase == Connected ==> Step(c, Send(data, offered)) == Step(c, SendFunctor(data, offered))
    ensures c.phase != Connected ==> Step(c, Send(data, offered)) == c
    ensures c.phase == Disconnected || (c.Open() && c.shutdowns > 0) ==> Step(c, SendFunctor(data, offered)) == c
  {
    WritingIffPending(c);
  }

  // ----- shutdown -----

  /** `shutdown` half-closes at once when nothing is pending, and leaves it to the drain otherwise. On
      another thread the state changes alone, and the functor half-closes under the same test. Only a
      connected one can be shut down. */
  lemma ShutdownEffects(c: Conn)
    requires Inv(c)
    ensures c.phase != Connected ==> Step(c, Shutdown) == c && Step(c, ShutdownElsewhere) == c
    ensures c.phase == Connected ==>
              && Step(c, Shutdown)
                 == c.(phase := Disconnecting, shutdowns := c.shutdowns + if c.output == [] then 1 else 0)
              && Step(c, ShutdownElsewhere) == c.(phase := Disconnecting)
    ensures c.Open() ==>
              Step(c, ShutdownFunctor) == c.(shutdowns := c.shutdowns + if c.output == [] then 1 else 0)
  {
    WritingIffPending(c);
  }

  // ----- handleRead, handleClose and the lifecycle -----

  /** `handleRead` appends what came and tells the user once; the end of the stream closes; an error
      changes nothing. */
  lemma ReadEffects(c: Conn, bytes: seq<byte>)
    ensures bytes != [] ==>
              Step(c, Readable(Some(bytes))) == c.(input := c.input + bytes, calls := c.calls + [Message])
    ensures Step(c, Readable(Some([]))) == Step(c, Close) && Step(c, Readable(None)) == c
  {
  }

  /** A close tells the user first and the server next, and takes the channel out of the kernel for good;
      what is buffered stays as it is. */
  lemma CloseEffects(c: Conn)
    requires Inv(c) && c.Open()
    ensures var d := Step(c, Close);
            && d.phase == Disconnected && d.calls == c.calls + [Down, CloseRequested]
            && d.chan.kernel == None && d.chan.events == {} && d.chan.mapped && d.chan.index == Deleted
            && d.input == c.input && d.output == c.output && d.wire == c.wire
            && d.shutdowns == c.shutdowns && Posts(c, d, [])
  {
    assert c.posted + [] == c.posted;
  }

  /** An establishment reads from then on and tells the user; nothing else. */
  lemma EstablishEffects(c: Conn)
    requires Inv(c) && c.phase == Connecting
    ensures var d := Step(c, Establish);
            && d.phase == Connected && d.calls == c.calls + [Up]
            && d.chan.kernel == Some({IN, PRI}) && d.chan.mapped
            && d.input == c.input && d.output == [] && d.wire == [] && d.shutdowns == 0 && Posts(c, d, [])
  {
    assert c.posted + [] == c.posted && NONE_EVENT + READ_EVENT == {IN, PRI};
  }

  /** A destruction takes the channel out of poller and kernel. Of a connection that is still up it is also
      the close, of which the user is told but not the server; of a closed one it tells nobody. */
  lemma DestroyEffects(c: Conn)
    requires Inv(c) && DestroyAssertsHold(c)
    ensures var d := Step(c, Destroy);
            && d.phase == Disconnected && !d.chan.mapped && !d.chan.addedToLoop
            && d.chan.kernel == None && d.chan.refused == 0
            && d.calls == c.calls + (if c.phase == Connected then [Down] else [])
            && d.input == c.input && d.output == c.output && d.wire == c.wire
            && d.shutdowns == c.shutdowns && Posts(c, d, [])
  {
    DestroyAssertsIff(c);
    assert c.posted + [] == c.posted && c.calls + [] == c.calls;
  }

  // ----- the callbacks of a whole life -----

  /** The callbacks that a call makes, by what it is and what it receives. */
  function CallsOf(op: Op): seq<Callback> {
    match op
    case Establish => [Up]
    case Close => [Down, CloseRequested]
    case Readable(Some(bytes)) => if bytes == [] then [Down, CloseRequested] else [Message]
    case _ => []
  }

  function CallsBy(ops: seq<Op>): seq<Callback> {
    if ops == [] then [] else CallsOf(ops[0]) + CallsBy(ops[1..])
  }

  lemma StepCalls(c: Conn, op: Op)
    requires Inv(c) && Legal(c, op)
    ensures Step(c, op).calls == c.calls + CallsOf(op)
  {
    match op
    case Send(data, offered) => SentFrame(c, data, offered);
    case SendFunctor(data, offered) => SentFrame(c, data, offered);
    case _ =>
  }

  /** Over a legal run every receipt of data is reported, once and in its place, and so are the
      establishment and the close. */
  lemma {:induction false} EveryReceiptIsReported(c: Conn, ops: seq<Op>)
    requires Inv(c) && LegalRun(c, ops)
    ensures Run(c, ops).calls == c.calls + CallsBy(ops)
    decreases |ops|
  {
    if ops == [] {
    } else {
      StepKeepsInv(c, ops[0]);
      StepCalls(c, ops[0]);
      EveryReceiptIsReported(Step(c, ops[0]), ops[1..]);
      Reassociate(c.calls, CallsOf(ops[0]), CallsBy(ops[1..]));
    }
  }

  lemma Reassociate(a: seq<Callback>, b: seq<Callback>, d: seq<Callback>)
    ensures a + b + d == a + (b + d)
  {
  }

  function Messages(n: nat): seq<Callback> {
    seq(n, _ => Message)
  }

  /** Up comes first, then messages, then the down callback, and right after it the close request; what
      the same report still delivers after a close are messages. */
  ghost predicate InOrder(calls: seq<Callback>, p: Phase) {
    match p
    case Connecting => calls == []
    case Disconnected => exists m: nat, n: nat :: calls == [Up] + Messages(m) + [Down, CloseRequested] + Messages(n)
    case _ => exists m: nat :: calls == [Up] + Messages(m)
  }

  lemma OneMore(m: nat)
    ensures Messages(m) + [Message] == Messages(m + 1)
  {
  }

  lemma MessageInOrder(calls: seq<Callback>, p: Phase)
    requires InOrder(calls, p) && p != Connecting
    ensures InOrder(calls + [Message], p)
  {
    if p == Disconnected {
      var m: nat, n: nat :| calls == [Up] + Messages(m) + [Down, CloseRequested] + Messages(n);
      OneMore(n);
      assert calls + [Message] == [Up] + Messages(m) + [Down, CloseRequested] + Messages(n + 1);
    } else {
      var m: nat :| calls == [Up] + Messages(m);
      OneMore(m);
      assert calls + [Message] == [Up] + Messages(m + 1);
    }
  }

  lemma CloseInOrder(calls: seq<Callback>, p: Phase)
    requires InOrder(calls, p) && (p == Connected || p == Disconnecting)
    ensures InOrder(calls + [Down, CloseRequested], Disconnected)
  {
    var m: nat :| calls == [Up] + Messages(m);
    assert calls + [Down, CloseRequested] == [Up] + Messages(m) + [Down, CloseRequested] + Messages(0);
  }

  lemma StepInOrder(c: Conn, op: Op)
    requires Inv(c) && Legal(c, op) && InOrder(c.calls, c.phase)
    ensures InOrder(Step(c, op).calls, Step(c, op).phase)
  {
    StepCalls(c, op);
    if Quiet(op) {
      QuietStep(c, op);
    } else if op.Establish? {
      assert Step(c, op).calls == [Up] + Messages(0);
    } else if op.Close? || op == Readable(Some([])) {
      CloseInOrder(c.calls, c.phase);
    } else if op.Readable? && op.received.Some? {
      MessageInOrder(c.calls, c.phase);
    }
  }

  /** So the user sees every life in this order. */
  lemma {:induction false} CallbacksInOrder(c: Conn, ops: seq<Op>)
    requires Inv(c) && LegalRun(c, ops) && InOrder(c.calls, c.phase)
    ensures InOrder(Run(c, ops).calls, Run(c, ops).phase)
    decreases |ops|
  {
    if ops == [] {
    } else {
      StepKeepsInv(c, ops[0]);
      StepInOrder(c, ops[0]);
      CallbacksInOrder(Step(c, ops[0]), ops[1..]);
    }
  }

  // ----- every half-close happens -----

  /** A half-close that was asked for and whose functor, if any, has run: it is done exactly when nothing is
      pending. */
  ghost predicate Asked(c: Conn) {
    Inv(c) && (c.phase == Disconnecting ==> (c.shutdowns > 0 <==> c.output == []))
  }

  lemma AskedStep(c: Conn, op: Op)
    requires Asked(c) && (c.phase == Disconnecting || c.phase == Disconnected) && Legal(c, op)
    ensures var d := Step(c, op); Asked(d) && (d.phase == Disconnecting || d.phase == Disconnected)
  {
    StepKeepsInv(c, op);
    WritingIffPending(c);
  }

  lemma {:induction false} AskedRun(c: Conn, ops: seq<Op>)
    requires Asked(c) && (c.phase == Disconnecting || c.phase == Disconnected) && LegalRun(c, ops)
    ensures Asked(Run(c, ops))
    decreases |ops|
  {
    if ops == [] {
    } else {
      AskedStep(c, ops[0]);
      AskedRun(Step(c, ops[0]), ops[1..]);
    }
  }

  /** A `shutdown` from any thread is carried out: once its functor has run, then at every later moment at
      which the connection is up, the write side is shut exactly if everything pending has been written. */
  lemma ShutdownIsCarriedOut(c: Conn, mid: seq<Op>, after: seq<Op>)
    requires Inv(c) && c.phase == Connected
    requires LegalRun(Step(c, ShutdownElsewhere), mid + [ShutdownFunctor] + after)
    ensures var d := Run(Step(c, ShutdownElsewhere), mid + [ShutdownFunctor] + after);
            d.Open() ==> (d.shutdowns > 0 <==> d.output == [])
  {
    var s := Step(c, ShutdownElsewhere);
    StepKeepsInv(c, ShutdownElsewhere);
    LegalRunConcat(s, mid + [ShutdownFunctor], after);
    LegalRunConcat(s, mid, [ShutdownFunctor]);
    RunConcat(s, mid + [ShutdownFunctor], after);
    RunConcat(s, mid, [ShutdownFunctor]);
    HalfClosingStays(s, mid);
    var t := Run(s, mid);
    RunOne(t, ShutdownFunctor);
    StepKeepsInv(t, ShutdownFunctor);
    ShutdownEffects(t);
    AskedRun(Step(t, ShutdownFunctor), after);
    HalfClosingStays(Step(t, ShutdownFunctor), after);
  }

  lemma {:induction false} HalfClosingStays(c: Conn, ops: seq<Op>)
    requires HalfClosing(c) && LegalRun(c, ops)
    ensures HalfClosing(Run(c, ops))
    decreases |ops|
  {
    if ops == [] {
    } else {
      var d := Step(c, ops[0]);
      StepKeepsInv(c, ops[0]);
      if Quiet(ops[0]) {
        QuietStep(c, ops[0]);
      }
      HalfClosingStays(d, ops[1..]);
    }
  }
}
