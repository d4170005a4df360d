/** What every run of a connection keeps. */
module ConnectionProofs {
  import opened Prelude
  import opened Registration
  import opened Tasks
  import opened Phases
  import opened Connection

  // ----- conservation of the byte streams -----

  /** True when `sendInLoop` discards the payload: already disconnected, or the direct write broke. */
  predicate Dropped(c: Conn, data: seq<byte>, offered: WriteResult) {
    c.phase == Disconnected
    || DirectWrite(c, |data|, offered) in {Some(Failed(EPIPE)), Some(Failed(ECONNRESET))}
  }

  /** The payload a step takes responsibility for. */
  function Kept(c: Conn, op: Op): seq<byte> {
    match op
    case Send(data, offered) => if c.phase != Connected || Dropped(c, data, offered) then [] else data
    case SendFunctor(data, offered) => if Dropped(c, data, offered) then [] else data
    case _ => []
  }

  function KeptBy(c: Conn, ops: seq<Op>): seq<byte>
    decreases |ops|
  {
    if ops == [] then [] else Kept(c, ops[0]) + KeptBy(Step(c, ops[0]), ops[1..])
  }

  lemma BufferedAppends(c: Conn, rest: seq<byte>)
    ensures Buffered(c, rest).wire == c.wire && Buffered(c, rest).output == c.output + rest
  {
  }

  lemma SentConserves(c: Conn, data: seq<byte>, offered: WriteResult)
    ensures var d := SentInLoop(c, data, offered);
            d.wire + d.output == c.wire + c.output + (if Dropped(c, data, offered) then [] else data)
  {
    if c.phase == Disconnected {
    } else {
      match DirectWrite(c, |data|, offered)
      case None =>
        BufferedAppends(c, data);
        assert c.wire + (c.output + data) == c.wire + c.output + data;
      case Some(Wrote(n)) =>
        BufferedAppends(c.(wire := c.wire + data[..n]), data[n..]);
        assert c.wire + data[..n] + data[n..] == c.wire + data;
      case Some(Failed(errno)) =>
        BufferedAppends(c, data);
    }
  }

  lemma WriteConserves(c: Conn, offered: WriteResult)
    ensures var d := WriteHandled(c, offered); d.wire + d.output == c.wire + c.output
  {
    var r := KernelWrite(c.shutdowns > 0, |c.output|, offered);
    if c.IsWriting() && r.Wrote? {
      var d := WriteHandled(c, offered);
      assert d.wire == c.wire + c.output[..r.n] && d.output == c.output[r.n..];
      assert c.output[..r.n] + c.output[r.n..] == c.output;
    }
  }

  lemma StepConserves(c: Conn, op: Op)
    ensures var d := Step(c, op); d.wire + d.output == c.wire + c.output + Kept(c, op)
  {
    match op
    case Send(data, offered) => SentConserves(c, data, offered);
    case SendFunctor(data, offered) => SentConserves(c, data, offered);
    case Writable(offered) => WriteConserves(c, offered);
    case _ => assert Step(c, op).wire == c.wire && Step(c, op).output == c.output;
  }

  /** Over any run whatever, with any partial writes and failures: what the kernel accepted followed
      by what is still buffered is the concatenation of the payloads that were not dropped. */
  lemma {:induction false} ByteStreamConserved(c: Conn, ops: seq<Op>)
    ensures var d := Run(c, ops); d.wire + d.output == c.wire + c.output + KeptBy(c, ops)
    decreases |ops|
  {
    if ops == [] {
    } else {
      var d := Step(c, ops[0]);
      StepConserves(c, ops[0]);
      ByteStreamConserved(d, ops[1..]);
      assert d.wire + d.output + KeptBy(d, ops[1..])
          == c.wire + c.output + (Kept(c, ops[0]) + KeptBy(d, ops[1..]));
    }
  }

  function Delivered(op: Op): seq<byte> {
    if op.Readable? && op.received.Some? then op.received.value else []
  }

  function Consumed(c: Conn, op: Op): seq<byte> {
    if op.Retrieve? then c.input[..Min(op.len, |c.input|)] else []
  }

  function DeliveredBy(ops: seq<Op>): seq<byte> {
    if ops == [] then [] else Delivered(ops[0]) + DeliveredBy(ops[1..])
  }

  function ConsumedBy(c: Conn, ops: seq<Op>): seq<byte>
    decreases |ops|
  {
    if ops == [] then [] else Consumed(c, ops[0]) + ConsumedBy(Step(c, ops[0]), ops[1..])
  }

  lemma InputStep(c: Conn, op: Op)
    ensures Consumed(c, op) + Step(c, op).input == c.input + Delivered(op)
  {
    match op
    case Retrieve(len) =>
      var n := Min(len, |c.input|);
      assert c.input[..n] + c.input[n..] == c.input;
    case Readable(received) =>
    case _ => assert Step(c, op).input == c.input;
  }

  /** The inbound direction: what the user consumed, then what is buffered, is what arrived. */
  lemma {:induction false} InputConserved(c: Conn, ops: seq<Op>)
    ensures ConsumedBy(c, ops) + Run(c, ops).input == c.input + DeliveredBy(ops)
    decreases |ops|
  {
    if ops == [] {
    } else {
      var op, d := ops[0], Step(c, ops[0]);
      InputConserved(d, ops[1..]);
      InputStep(c, op);
      ConservedTwice(Consumed(c, op), ConsumedBy(d, ops[1..]), c.input, d.input, Run(d, ops[1..]).input,
                     Delivered(op), DeliveredBy(ops[1..]));
    }
  }

  // ----- registration, buffer and half-close stay in step -----

  /** EPOLLOUT is requested exactly while output is pending. */
  lemma WritingIffPending(c: Conn)
    requires Inv(c)
    ensures c.Open() ==>
              && (c.IsWriting() <==> c.output != [])
              && c.chan.kernel.Some? && (OUT in c.chan.kernel.value <==> c.output != [])
    ensures !c.Open() ==> !c.IsWriting()
  {
    assert OUT in READ_EVENT + WRITE_EVENT && OUT !in READ_EVENT;
  }

  lemma BufferedKeepsInv(c: Conn, rest: seq<byte>)
    requires Inv(c) && c.Open() && c.shutdowns == 0 && rest != []
    ensures Inv(Buffered(c, rest))
  {
    assert OUT in READ_EVENT + WRITE_EVENT && OUT !in READ_EVENT;
  }

  lemma SentKeepsInv(c: Conn, data: seq<byte>, offered: WriteResult)
    requires Inv(c) && c.phase != Connecting
    ensures Inv(SentInLoop(c, data, offered))
  {
    if c.Open() {
      WritingIffPending(c);
      match DirectWrite(c, |data|, offered)
      case None => if data != [] { BufferedKeepsInv(c, data); }
      case Some(Wrote(n)) =>
        if n < |data| { BufferedKeepsInv(c.(wire := c.wire + data[..n]), data[n..]); }
      case Some(Failed(errno)) =>
        if errno != EPIPE && errno != ECONNRESET && data != [] { BufferedKeepsInv(c, data); }
    }
  }

  lemma WriteKeepsInv(c: Conn, offered: WriteResult)
    requires Inv(c)
    ensures Inv(WriteHandled(c, offered))
  {
    if c.IsWriting() {
      WritingIffPending(c);
      assert c.chan.events - WRITE_EVENT == READ_EVENT;
    }
  }

  lemma StepKeepsInv(c: Conn, op: Op)
    requires Inv(c) && Legal(c, op)
    ensures Inv(Step(c, op))
  {
    match op
    case Establish => assert NONE_EVENT + READ_EVENT == READ_EVENT;
    case Send(data, offered) => if c.phase == Connected { SentKeepsInv(c, data, offered); }
    case SendFunctor(data, offered) => SentKeepsInv(c, data, offered);
    case Shutdown => if c.phase == Connected { WritingIffPending(c); }
    case ShutdownElsewhere =>
    case ShutdownFunctor => if c.Open() { WritingIffPending(c); }
    case Writable(offered) => WriteKeepsInv(c, offered);
    case Readable(received) =>
    case Retrieve(len) =>
    case Close =>
    case Destroy =>
  }

  lemma {:induction false} RunKeepsInv(c: Conn, ops: seq<Op>)
    requires Inv(c) && LegalRun(c, ops)
    ensures Inv(Run(c, ops))
    decreases |ops|
  {
    if ops == [] {
    } else {
      StepKeepsInv(c, ops[0]);
      RunKeepsInv(Step(c, ops[0]), ops[1..]);
    }
  }

  /** In every reachable state of an open connection the kernel watches EPOLLIN and EPOLLPRI, and EPOLLOUT
      exactly while output is pending; after a close nothing is registered any more. */
  lemma InterestFollowsPending(c: Conn, ops: seq<Op>)
    requires Inv(c) && LegalRun(c, ops)
    ensures var d := Run(c, ops);
            && (d.Open() ==> d.chan.kernel == Some(if d.output == [] then {IN, PRI} else {IN, PRI, OUT}))
            && (d.phase == Disconnected ==> d.chan.kernel == None && d.chan.events == NONE_EVENT)
            && d.chan.refused == 0
  {
    RunKeepsInv(c, ops);
    assert READ_EVENT + WRITE_EVENT == {IN, PRI, OUT};
  }

  // ----- half-close -----

  /** The write side is never shut over pending output while the connection is up. */
  lemma NeverShutWhilePending(c: Conn, ops: seq<Op>, op: Op)
    requires Inv(c) && LegalRun(c, ops) && Legal(Run(c, ops), op)
    ensures var d, e := Run(c, ops), Step(Run(c, ops), op);
            e.shutdowns > d.shutdowns && e.phase != Disconnected ==> e.output == []
  {
    RunKeepsInv(c, ops);
    StepKeepsInv(Run(c, ops), op);
  }

  /** `send` and `shutdown` called on the loop thread only: nothing of theirs is ever queued. */
  predicate OnLoopThread(op: Op) {
    !op.SendFunctor? && !op.ShutdownElsewhere? && !op.ShutdownFunctor?
  }

  predicate AllOnLoopThread(ops: seq<Op>) {
    forall i :: 0 <= i < |ops| ==> OnLoopThread(ops[i])
  }

  ghost predicate ShutInv(c: Conn) {
    && Inv(c)
    && c.shutdowns <= 1
    && (c.phase == Connecting || c.phase == Connected ==> c.shutdowns == 0)
    && (c.phase == Disconnecting ==> (c.shutdowns == 1 <==> c.output == []))
    && (c.shutdowns == 1 ==> c.output == [])
  }

  lemma StepKeepsShutInv(c: Conn, op: Op)
    requires ShutInv(c) && Legal(c, op) && OnLoopThread(op)
    ensures ShutInv(Step(c, op))
    ensures c.shutdowns == 1 ==> Step(c, op).wire == c.wire && Kept(c, op) == []
  {
    StepKeepsInv(c, op);
    WritingIffPending(c);
  }

  lemma {:induction false} RunKeepsShutInv(c: Conn, ops: seq<Op>)
    requires ShutInv(c) && LegalRun(c, ops) && AllOnLoopThread(ops)
    ensures ShutInv(Run(c, ops))
    ensures c.shutdowns == 1 ==> Run(c, ops).wire == c.wire && KeptBy(c, ops) == []
    ensures c.shutdowns <= Run(c, ops).shutdowns
    decreases |ops|
  {
    if ops == [] {
    } else {
      StepKeepsShutInv(c, ops[0]);
      assert forall i :: 0 <= i < |ops[1..]| ==> ops[1..][i] == ops[i + 1];
      RunKeepsShutInv(Step(c, ops[0]), ops[1..]);
    }
  }

  lemma {:induction false} LegalRunConcat(c: Conn, a: seq<Op>, b: seq<Op>)
    ensures LegalRun(c, a + b) <==> LegalRun(c, a) && LegalRun(Run(c, a), b)
    decreases |a|
  {
    if a == [] {
      assert a + b == b;
    } else {
      assert (a + b)[1..] == a[1..] + b;
      LegalRunConcat(Step(c, a[0]), a[1..], b);
    }
  }

  /** With loop-thread callers the write side is shut at most once; when it is, every payload taken
      so far has reached the kernel, and nothing follows it. */
  lemma HalfCloseIsLast(id: nat, mark: nat, complete: bool, high: bool, before: seq<Op>, after: seq<Op>)
    requires var c := FreshConn(id, mark, complete, high);
             LegalRun(c, before + after) && AllOnLoopThread(before + after)
    ensures var c := FreshConn(id, mark, complete, high);
            var d, e := Run(c, before), Run(c, before + after);
            && e.shutdowns <= 1
            && (e.phase == Disconnecting ==> (e.shutdowns == 1 <==> e.output == []))
            && (d.shutdowns == 1 ==>
                  d.wire == KeptBy(c, before) && e.wire == d.wire && KeptBy(d, after) == [])
  {
    var c := FreshConn(id, mark, complete, high);
    var d := Run(c, before);
    LegalRunConcat(c, before, after);
    RunConcat(c, before, after);
    assert forall i :: 0 <= i < |before| ==> before[i] == (before + after)[i];
    assert forall i :: 0 <= i < |after| ==> after[i] == (before + after)[|before| + i];
    RunKeepsShutInv(c, before);
    RunKeepsShutInv(d, after);
    ByteStreamConserved(c, before);
    if d.shutdowns == 1 {
      assert d.wire + d.output == d.wire;
      assert c.wire + c.output + KeptBy(c, before) == KeptBy(c, before);
    }
  }

  // ----- half-close requested from another thread -----

  /** Some step of the run moves the last pending byte to the kernel. */
  predicate Drains(c: Conn, ops: seq<Op>)
    decreases |ops|
  {
    ops != [] && (Drained(c, ops[0]) || Drains(Step(c, ops[0]), ops[1..]))
  }

  predicate Drained(c: Conn, op: Op) {
    c.output != [] && Step(c, op).output == []
  }

  /** After the state change of a `shutdown`, before its queued functor: the connection may go on
      writing, be closed, and even be destroyed. */
  ghost predicate HalfClosing(c: Conn) {
    Inv(c) && (c.phase == Disconnecting || c.phase == Disconnected)
  }

  lemma HalfClosingStep(c: Conn, op: Op)
    requires HalfClosing(c) && Legal(c, op) && !op.ShutdownFunctor?
    ensures var d := Step(c, op);
            && HalfClosing(d)
            && d.shutdowns == c.shutdowns + (if Drained(c, op) then 1 else 0)
            && (c.shutdowns > 0 ==> !Drained(c, op))
  {
    StepKeepsInv(c, op);
    WritingIffPending(c);
  }

  lemma {:induction false} HalfClosingRun(c: Conn, ops: seq<Op>)
    requires HalfClosing(c) && c.shutdowns <= 1 && LegalRun(c, ops) && ShutdownFunctor !in ops
    ensures var d := Run(c, ops);
            && HalfClosing(d)
            && d.shutdowns == c.shutdowns + (if Drains(c, ops) then 1 else 0)
            && (c.shutdowns > 0 ==> !Drains(c, ops))
    decreases |ops|
  {
    if ops == [] {
    } else {
      HalfClosingStep(c, ops[0]);
      HalfClosingRun(Step(c, ops[0]), ops[1..]);
    }
  }

  /** A foreign `shutdown` calls `::shutdown` twice exactly when the buffer drains between its state
      change and its functor, because `handleWrite` already acts on the new state. Whatever else
      happens in between, closing and destruction included, does not matter. */
  lemma ForeignShutdownTwiceIffDrained(c: Conn, mid: seq<Op>)
    requires Inv(c) && c.phase == Connected
    requires LegalRun(Step(c, ShutdownElsewhere), mid) && ShutdownFunctor !in mid
    ensures var d := Run(Step(c, ShutdownElsewhere), mid);
            && (Step(d, ShutdownFunctor).shutdowns == 2 <==> Drains(Step(c, ShutdownElsewhere), mid))
            && (Step(d, ShutdownFunctor).shutdowns == 0 <==> d.Open() && d.output != [])
            && Step(d, ShutdownFunctor).shutdowns <= 2
  {
    var s := Step(c, ShutdownElsewhere);
    StepKeepsInv(c, ShutdownElsewhere);
    HalfClosingRun(s, mid);
    WritingIffPending(Run(s, mid));
  }

  /** One pending byte, a foreign `shutdown`, the drain, then the functor: two half-closes. */
  lemma ForeignShutdownTwice()
    ensures var c := Run(FreshConn(1, 0, false, false), [Establish, Send([7], Failed(EWOULDBLOCK))]);
            var run := [ShutdownElsewhere, Writable(Wrote(1)), ShutdownFunctor];
            c.phase == Connected && LegalRun(c, run) && Run(c, run).shutdowns == 2
  {
    OnePending();
    var c := Run(FreshConn(1, 0, false, false), [Establish, Send([7], Failed(EWOULDBLOCK))]);
    var c1 := Step(c, ShutdownElsewhere);
    RunThree(c, ShutdownElsewhere, Writable(Wrote(1)), ShutdownFunctor);
    StepKeepsInv(c, ShutdownElsewhere);
    DrainShuts(c1);
  }

  /** A queued payload survives exactly when the connection is not down and either output is already
      waiting or the write side is open and the kernel does not break. */
  lemma QueuedSendKeptIff(c: Conn, data: seq<byte>, offered: WriteResult)
    requires Inv(c) && c.phase != Connecting
    ensures !Dropped(c, data, offered) <==>
              c.Open() && (c.output != []
                           || (c.shutdowns == 0 && offered !in {Failed(EPIPE), Failed(ECONNRESET)}))
  {
    WritingIffPending(c);
  }

  /** A send queued by another thread before its own `shutdown` can still be lost: the drain shuts
      the write side first. */
  lemma ForeignSendLostBehindDrain(payload: seq<byte>)
    requires payload != []
    ensures var c := Run(FreshConn(1, 0, false, false), [Establish, Send([7], Failed(EWOULDBLOCK))]);
            var run := [ShutdownElsewhere, Writable(Wrote(1)), SendFunctor(payload, Wrote(|payload|))];
            c.phase == Connected && LegalRun(c, run) && KeptBy(c, run) == [] && Run(c, run).wire == [7]
  {
    OnePending();
    LostBehindDrain(Run(FreshConn(1, 0, false, false), [Establish, Send([7], Failed(EWOULDBLOCK))]), payload);
  }

  /** An established connection whose one byte the kernel did not take. */
  lemma OnePending()
    ensures var c := Run(FreshConn(1, 0, false, false), [Establish, Send([7], Failed(EWOULDBLOCK))]);
            Inv(c) && c.phase == Connected && c.output == [7] && c.shutdowns == 0 && c.wire == []
  {
    var f := FreshConn(1, 0, false, false);
    var first := Send([7], Failed(EWOULDBLOCK));
    RunTwo(f, Establish, first);
    StepKeepsInv(f, Establish);
    StepKeepsInv(Step(f, Establish), first);
    WritingIffPending(Step(f, Establish));
  }

  lemma LostBehindDrain(c: Conn, payload: seq<byte>)
    requires Inv(c) && c.phase == Connected && c.output == [7] && c.wire == [] && payload != []
    ensures var run := [ShutdownElsewhere, Writable(Wrote(1)), SendFunctor(payload, Wrote(|payload|))];
            LegalRun(c, run) && KeptBy(c, run) == [] && Run(c, run).wire == [7]
  {
    var send := SendFunctor(payload, Wrote(|payload|));
    var c1 := Step(c, ShutdownElsewhere);
    var c2 := Step(c1, Writable(Wrote(1)));
    RunThree(c, ShutdownElsewhere, Writable(Wrote(1)), send);
    StepKeepsInv(c, ShutdownElsewhere);
    WritingIffPending(c1);
    DrainShuts(c1);
    assert Dropped(c2, payload, Wrote(|payload|)) && SentInLoop(c2, payload, Wrote(|payload|)) == c2;
  }

  /** Writing the last byte of a half-closing connection shuts the write side. */
  lemma DrainShuts(c: Conn)
    requires Inv(c) && c.phase == Disconnecting && c.output == [7] && c.wire == []
    ensures var d := Step(c, Writable(Wrote(1)));
            && d.output == [] && d.wire == [7] && d.shutdowns == 1
            && d.phase == Disconnecting && !d.IsWriting()
  {
    WritingIffPending(c);
    StepKeepsInv(c, Writable(Wrote(1)));
    WritingIffPending(Step(c, Writable(Wrote(1))));
  }

  lemma RunTwo(c: Conn, x: Op, y: Op)
    ensures Run(c, [x, y]) == Step(Step(c, x), y)
    ensures KeptBy(c, [x, y]) == Kept(c, x) + Kept(Step(c, x), y)
    ensures LegalRun(c, [x, y]) <==> Legal(c, x) && Legal(Step(c, x), y)
  {
    var d := Step(c, x);
    assert [x, y][1..] == [y] && [y][1..] == [];
    RunOne(d, y);
    assert KeptBy(Step(d, y), []) == [] && KeptBy(d, [y]) == Kept(d, y);
  }

  lemma RunThree(c: Conn, x: Op, y: Op, z: Op)
    ensures Run(c, [x, y, z]) == Step(Step(Step(c, x), y), z)
    ensures KeptBy(c, [x, y, z]) == Kept(c, x) + (Kept(Step(c, x), y) + Kept(Step(Step(c, x), y), z))
    ensures LegalRun(c, [x, y, z]) <==>
              Legal(c, x) && Legal(Step(c, x), y) && Legal(Step(Step(c, x), y), z)
  {
    assert [x, y, z][1..] == [y, z];
    RunTwo(Step(c, x), y, z);
  }

  // ----- notices -----

  /** The functors a step queues. */
  function Notices(c: Conn, op: Op): seq<Functor> {
    if |c.posted| <= |Step(c, op).posted| then Step(c, op).posted[|c.posted|..] else []
  }

  /** What a step leaves alone. */
  lemma SentFrame(c: Conn, data: seq<byte>, offered: WriteResult)
    ensures var d := SentInLoop(c, data, offered);
            && d.id == c.id && d.mark == c.mark && d.phase == c.phase && d.calls == c.calls
            && d.wantsComplete == c.wantsComplete && d.wantsHighWater == c.wantsHighWater
  {
  }

  lemma StepKeepsSettings(c: Conn, op: Op)
    ensures var d := Step(c, op);
            && d.id == c.id && d.mark == c.mark
            && d.wantsComplete == c.wantsComplete && d.wantsHighWater == c.wantsHighWater
  {
    match op
    case Send(data, offered) => SentFrame(c, data, offered);
    case SendFunctor(data, offered) => SentFrame(c, data, offered);
    case _ =>
  }

  lemma SentNotices(c: Conn, data: seq<byte>, offered: WriteResult, size: nat)
    ensures var d := SentInLoop(c, data, offered);
            && c.posted <= d.posted
            && (HighWater(c.id, size) in d.posted[|c.posted|..] <==>
                  c.wantsHighWater && |c.output| < c.mark <= |d.output| && size == |d.output|)
            && (WriteComplete(c.id) in d.posted[|c.posted|..] ==> c.wantsComplete && d.output == [])
            && (c.wantsComplete && d.wire != c.wire && d.output == [] ==>
                  WriteComplete(c.id) in d.posted[|c.posted|..])
  {
    var d := SentInLoop(c, data, offered);
    if c.phase != Disconnected {
      match DirectWrite(c, |data|, offered)
      case None => if data != [] { BufferedNotices(c, data, size); }
      case Some(Wrote(n)) =>
        if n < |data| { BufferedNotices(c.(wire := c.wire + data[..n]), data[n..], size); }
      case Some(Failed(errno)) =>
        if errno != EPIPE && errno != ECONNRESET && data != [] { BufferedNotices(c, data, size); }
    }
  }

  lemma BufferedNotices(c: Conn, rest: seq<byte>, size: nat)
    requires rest != []
    ensures var d := Buffered(c, rest);
            && c.posted <= d.posted && d.output == c.output + rest && d.wire == c.wire
            && WriteComplete(c.id) !in d.posted[|c.posted|..]
            && (HighWater(c.id, size) in d.posted[|c.posted|..] <==>
                  c.wantsHighWater && |c.output| < c.mark <= |d.output| && size == |d.output|)
  {
  }

  lemma WriteNotices(c: Conn, offered: WriteResult, size: nat)
    ensures var d := WriteHandled(c, offered);
            && c.posted <= d.posted && |d.output| <= |c.output|
            && HighWater(c.id, size) !in d.posted[|c.posted|..]
            && (WriteComplete(c.id) in d.posted[|c.posted|..] ==> c.wantsComplete && d.output == [])
            && (c.wantsComplete && d.wire != c.wire && d.output == [] ==>
                  WriteComplete(c.id) in d.posted[|c.posted|..])
  {
  }

  /** A step queues a high-water notice exactly when it carries the buffer across the mark, and the
      notice reports the new length. */
  lemma HighWaterIffCrossing(c: Conn, op: Op, size: nat)
    ensures var d := Step(c, op);
            && c.posted <= d.posted
            && (HighWater(c.id, size) in Notices(c, op) <==>
                  c.wantsHighWater && |c.output| < c.mark <= |d.output| && size == |d.output|)
  {
    match op
    case Send(data, offered) => SentNotices(c, data, offered, size);
    case SendFunctor(data, offered) => SentNotices(c, data, offered, size);
    case Writable(offered) => WriteNotices(c, offered, size);
    case _ =>
  }

  /** A write-complete notice is only queued with nothing pending, and every step that moves bytes
      and leaves nothing pending queues one. */
  lemma CompleteOnlyWhenDrained(c: Conn, op: Op)
    ensures var d := Step(c, op);
            && (WriteComplete(c.id) in Notices(c, op) ==> c.wantsComplete && d.output == [])
            && (c.wantsComplete && d.wire != c.wire && d.output == [] ==> WriteComplete(c.id) in Notices(c, op))
  {
    match op
    case Send(data, offered) => SentNotices(c, data, offered, 0);
    case SendFunctor(data, offered) => SentNotices(c, data, offered, 0);
    case Writable(offered) => WriteNotices(c, offered, 0);
    case _ =>
  }

  /** Between two queued high-water notices the buffer went back below the mark. */
  lemma HighWaterNeedsDrop(c: Conn, ops: seq<Op>, i: nat, j: nat, m: nat, n: nat)
    requires i < j < |ops|
    requires HighWater(c.id, m) in Notices(Run(c, ops[..i]), ops[i])
    requires HighWater(c.id, n) in Notices(Run(c, ops[..j]), ops[j])
    ensures exists k :: i + 1 < k <= j && |Run(c, ops[..k]).output| < c.mark
    ensures |Run(c, ops[..i + 1]).output| >= c.mark
  {
    RunKeepsSettings(c, ops[..i]);
    RunKeepsSettings(c, ops[..j]);
    HighWaterIffCrossing(Run(c, ops[..i]), ops[i], m);
    HighWaterIffCrossing(Run(c, ops[..j]), ops[j], n);
    RunSnoc(c, ops, i);
    assert |Run(c, ops[..j]).output| < c.mark;
  }

  lemma RunSnoc(c: Conn, ops: seq<Op>, i: nat)
    requires i < |ops|
    ensures Run(c, ops[..i + 1]) == Step(Run(c, ops[..i]), ops[i])
  {
    assert ops[..i + 1] == ops[..i] + [ops[i]];
    RunConcat(c, ops[..i], [ops[i]]);
    RunOne(Run(c, ops[..i]), ops[i]);
  }

  lemma {:induction false} RunKeepsSettings(c: Conn, ops: seq<Op>)
    ensures var d := Run(c, ops);
            d.id == c.id && d.mark == c.mark
            && d.wantsComplete == c.wantsComplete && d.wantsHighWater == c.wantsHighWater
    decreases |ops|
  {
    if ops == [] {
    } else {
      StepKeepsSettings(c, ops[0]);
      RunKeepsSettings(Step(c, ops[0]), ops[1..]);
    }
  }

  // ----- lifecycle -----

  /** One up callback once established; one down callback and one close request once closed. */
  ghost predicate LifeInv(c: Conn) {
    var made := multiset(c.calls);
    && made[Up] == (if c.phase == Connecting then 0 else 1)
    && made[Down] == made[CloseRequested] == (if c.phase == Disconnected then 1 else 0)
  }

  /** Steps that make no callback. */
  predicate Quiet(op: Op) {
    !op.Establish? && !op.Close? && !op.Destroy? && !op.Readable?
  }

  lemma QuietStep(c: Conn, op: Op)
    requires Quiet(op)
    ensures var d := Step(c, op);
            && d.calls == c.calls
            && (d.phase == c.phase || (c.phase == Connected && d.phase == Disconnecting))
            && (c.phase == Disconnected && !c.IsWriting() ==> d.chan == c.chan)
  {
    match op
    case Send(data, offered) => SentFrame(c, data, offered);
    case SendFunctor(data, offered) => SentFrame(c, data, offered);
    case _ =>
  }

  lemma CallbackKeepsLife(c: Conn, op: Op)
    requires Inv(c) && LifeInv(c) && Legal(c, op) && !Quiet(op)
    ensures LifeInv(Step(c, op)) && Rank(c.phase) <= Rank(Step(c, op).phase)
  {
    match op
    case Establish => assert Step(c, op).calls == c.calls + [Up];
    case Close => CloseKeepsLife(c);
    case Readable(received) =>
      if received == Some([]) {
        CloseKeepsLife(c);
      } else {
        assert Step(c, op).calls == c.calls || Step(c, op).calls == c.calls + [Message];
      }
    case Destroy => assert Step(c, op).calls == c.calls;
  }

  lemma CloseKeepsLife(c: Conn)
    requires LifeInv(c) && c.Open()
    ensures LifeInv(CloseHandled(c)) && Rank(c.phase) <= Rank(CloseHandled(c).phase)
  {
    assert CloseHandled(c).calls == c.calls + [Down, CloseRequested];
  }

  lemma StepKeepsLife(c: Conn, op: Op)
    requires Inv(c) && LifeInv(c) && Legal(c, op)
    ensures LifeInv(Step(c, op)) && Rank(c.phase) <= Rank(Step(c, op).phase)
  {
    if Quiet(op) {
      QuietStep(c, op);
    } else {
      CallbackKeepsLife(c, op);
    }
  }

  lemma {:induction false} RunKeepsLife(c: Conn, ops: seq<Op>)
    requires Inv(c) && LifeInv(c) && LegalRun(c, ops)
    ensures var d := Run(c, ops); Inv(d) && LifeInv(d) && Rank(c.phase) <= Rank(d.phase)
    decreases |ops|
  {
    if ops == [] {
    } else {
      StepKeepsInv(c, ops[0]);
      StepKeepsLife(c, ops[0]);
      RunKeepsLife(Step(c, ops[0]), ops[1..]);
    }
  }

  /** From creation on, the user is told of one up and one down at most, and of exactly one each, with
      one close request, by the time the channel is removed; the channel may then be destroyed. */
  lemma LifecycleComplete(id: nat, mark: nat, complete: bool, high: bool, ops: seq<Op>)
    requires LegalRun(FreshConn(id, mark, complete, high), ops)
    ensures var d := Run(FreshConn(id, mark, complete, high), ops);
            var made := multiset(d.calls);
            && made[Up] <= 1 && made[Down] <= made[Up] && made[CloseRequested] == made[Down]
            && (d.phase == Disconnected && d.chan.index == New ==>
                  made[Up] == made[Down] == 1 && Destructible(d.chan) && d.chan.kernel == None)
  {
    RunKeepsLife(FreshConn(id, mark, complete, high), ops);
  }

  /** The state only moves forward. */
  lemma PhaseOnlyAdvances(id: nat, mark: nat, complete: bool, high: bool, before: seq<Op>, after: seq<Op>)
    requires LegalRun(FreshConn(id, mark, complete, high), before + after)
    ensures var c := FreshConn(id, mark, complete, high);
            Rank(Run(c, before).phase) <= Rank(Run(c, before + after).phase)
  {
    var c := FreshConn(id, mark, complete, high);
    LegalRunConcat(c, before, after);
    RunConcat(c, before, after);
    RunKeepsLife(c, before);
    RunKeepsLife(Run(c, before), after);
  }

  /** `connectDestroyed` passes the assertions of the removal path exactly when the connection was
      established and is not half-closed: a `kDisconnecting` connection keeps its events. */
  predicate DestroyAssertsHold(c: Conn) {
    Removable(if c.phase == Connected then WithEvents(c.chan, NONE_EVENT) else c.chan)
  }

  lemma DestroyAssertsIff(c: Conn)
    requires Inv(c)
    ensures DestroyAssertsHold(c) <==>
              c.phase == Connected || (c.phase == Disconnected && c.chan.mapped)
  {
    WritingIffPending(c);
    assert IN in READ_EVENT && IN in READ_EVENT + WRITE_EVENT;
  }

  /** A half-closed connection keeps its events when it is destroyed, so the assertion fails. */
  lemma DestroyAssertsFail()
    ensures var c := Step(Step(FreshConn(1, 0, false, false), Establish), Shutdown);
            LegalRun(FreshConn(1, 0, false, false), [Establish, Shutdown]) && !DestroyAssertsHold(c)
  {
    var f := FreshConn(1, 0, false, false);
    RunTwo(f, Establish, Shutdown);
    StepKeepsInv(f, Establish);
    StepKeepsInv(Step(f, Establish), Shutdown);
    DestroyAssertsIff(Step(Step(f, Establish), Shutdown));
  }

  /** A step queues at most one functor: a notice of this connection, and only while it is up. */
  lemma AtMostOneNotice(c: Conn, op: Op)
    requires Inv(c) && Legal(c, op)
    ensures Step(c, op).posted == c.posted + Notices(c, op) && |Notices(c, op)| <= 1
    ensures Notices(c, op) != [] ==>
              && Notices(c, op)[0].conn == c.id && (Notices(c, op)[0].WriteComplete? || Notices(c, op)[0].HighWater?)
              && c.Open() && Step(c, op).phase == c.phase
  {
    match op
    case Send(data, offered) => SentNotice(c, data, offered);
    case SendFunctor(data, offered) => SentNotice(c, data, offered);
    case Writable(offered) => WritingIffPending(c);
    case _ =>
  }

  lemma SentNotice(c: Conn, data: seq<byte>, offered: WriteResult)
    ensures var d := SentInLoop(c, data, offered);
            && d.phase == c.phase
            && (d.posted == c.posted
                || (c.phase != Disconnected
                    && (d.posted == c.posted + [WriteComplete(c.id)]
                        || d.posted == c.posted + [HighWater(c.id, |d.output|)])))
  {
    SentFrame(c, data, offered);
    if c.phase != Disconnected {
      SentInTwoParts(c, data, offered);
    }
  }
}
