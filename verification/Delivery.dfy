/** A connection behind its loop's queue: what other threads send, and in which order it reaches
    the byte stream. `TcpConnection::send` on another thread queues `sendInLoop` on the loop. */
module Delivery {
  import opened Prelude
  import opened Tasks
  import L = LoopMachine
  import C = Connection
  import P = ConnectionProofs

  /** `fates[i]` tells whether the i-th functor run was a send whose payload was kept. */
  datatype System = System(loop: L.State<Functor>, conn: C.Conn, fates: seq<bool>)

  datatype Step =
    | LoopStep(step: L.Step<Functor>, offered: C.WriteResult)  // offered: the kernel's answer to a send
    | Event(op: C.Op)     // a handler or callback of the connection, or a foreign half-close

  /** Senders are other threads only: the loop thread calls neither `send` nor `sendInLoop`. */
  predicate Allowed(op: C.Op) {
    !op.Send? && !op.SendFunctor?
  }

  predicate Enabled(s: System, step: Step) {
    match step
    case LoopStep(st, _) => L.Enabled(s.loop, st)
    case Event(op) => Allowed(op) && (op.ShutdownElsewhere? || L.UserCode(s.loop))
  }

  function Executed(s: System, f: Functor, offered: C.WriteResult): (C.Conn, bool) {
    match f
    case SendInLoop(id, payload, _) =>
      if id == s.conn.id
      then (C.Step(s.conn, C.SendFunctor(payload, offered)), !P.Dropped(s.conn, payload, offered))
      else (s.conn, false)
    case ShutdownInLoop(id) =>
      (if id == s.conn.id then C.Step(s.conn, C.ShutdownFunctor) else s.conn, false)
    case _ => (s.conn, false)
  }

  function Next(s: System, step: Step): System
    requires Enabled(s, step)
  {
    match step
    case Event(op) => s.(conn := C.Step(s.conn, op))
    case LoopStep(st, offered) =>
      var loop := L.Next(s.loop, st);
      if st.Execute? then
        var (conn, kept) := Executed(s, s.loop.batch[0], offered);
        System(loop, conn, s.fates + [kept])
      else s.(loop := loop)
  }

  predicate CanRun(s: System, steps: seq<Step>)
    decreases |steps|
  {
    steps == [] || (Enabled(s, steps[0]) && CanRun(Next(s, steps[0]), steps[1..]))
  }

  function Run(s: System, steps: seq<Step>): System
    requires CanRun(s, steps)
    decreases |steps|
  {
    if steps == [] then s else Run(Next(s, steps[0]), steps[1..])
  }

  function Payload(f: Functor, id: nat): seq<byte> {
    if f.SendInLoop? && f.conn == id then f.payload else []
  }

  /** The payloads for connection `id` among `fs`, in order. */
  function Payloads(fs: seq<Functor>, id: nat): seq<byte> {
    if fs == [] then [] else Payloads(fs[..|fs| - 1], id) + Payload(fs[|fs| - 1], id)
  }

  /** The same, leaving out those with a false fate. */
  function KeptPayloads(fs: seq<Functor>, fates: seq<bool>, id: nat): seq<byte>
    requires |fs| == |fates|
  {
    if fs == [] then []
    else KeptPayloads(fs[..|fs| - 1], fates[..|fs| - 1], id)
         + (if fates[|fs| - 1] then Payload(fs[|fs| - 1], id) else [])
  }

  ghost predicate Inv(s: System, id: nat, base: seq<byte>) {
    && L.FifoInv(s.loop) && s.conn.id == id
    && |s.fates| == |s.loop.executed|
    && s.conn.wire + s.conn.output == base + KeptPayloads(s.loop.executed, s.fates, id)
  }

  lemma KeptSnoc(fs: seq<Functor>, fates: seq<bool>, f: Functor, kept: bool, id: nat)
    requires |fs| == |fates|
    ensures KeptPayloads(fs + [f], fates + [kept], id)
         == KeptPayloads(fs, fates, id) + (if kept then Payload(f, id) else [])
  {
    assert (fs + [f])[..|fs|] == fs && (fates + [kept])[..|fs|] == fates;
  }

  lemma EventKeepsInv(s: System, op: C.Op, id: nat, base: seq<byte>)
    requires Inv(s, id, base) && Enabled(s, Event(op))
    ensures Inv(Next(s, Event(op)), id, base)
  {
    P.StepConserves(s.conn, op);
    P.StepKeepsSettings(s.conn, op);
    assert P.Kept(s.conn, op) == [];
  }

  lemma ExecuteKeepsInv(s: System, offered: C.WriteResult, id: nat, base: seq<byte>)
    requires Inv(s, id, base) && Enabled(s, LoopStep(L.Execute, offered))
    ensures Inv(Next(s, LoopStep(L.Execute, offered)), id, base)
  {
    var f := s.loop.batch[0];
    var (conn, kept) := Executed(s, f, offered);
    L.NextKeepsFifo(s.loop, L.Execute);
    ExecutedConserves(s, f, offered);
    KeptSnoc(s.loop.executed, s.fates, f, kept, id);
  }

  lemma NextKeepsInv(s: System, step: Step, id: nat, base: seq<byte>)
    requires Inv(s, id, base) && Enabled(s, step)
    ensures Inv(Next(s, step), id, base)
  {
    match step
    case Event(op) => EventKeepsInv(s, op, id, base);
    case LoopStep(st, offered) =>
      if st.Execute? {
        ExecuteKeepsInv(s, offered, id, base);
      } else {
        L.NextKeepsFifo(s.loop, st);
        L.OnlyExecuteRuns(s.loop, st);
      }
  }

  lemma ExecutedConserves(s: System, f: Functor, offered: C.WriteResult)
    ensures var (conn, kept) := Executed(s, f, offered);
            && conn.id == s.conn.id
            && conn.wire + conn.output
               == s.conn.wire + s.conn.output + (if kept then Payload(f, s.conn.id) else [])
  {
    match f
    case SendInLoop(id, payload, _) =>
      P.StepConserves(s.conn, C.SendFunctor(payload, offered));
      P.StepKeepsSettings(s.conn, C.SendFunctor(payload, offered));
    case ShutdownInLoop(id) =>
      P.StepConserves(s.conn, C.ShutdownFunctor);
      P.StepKeepsSettings(s.conn, C.ShutdownFunctor);
    case _ =>
  }

  /** The byte stream holds exactly the kept payloads, in the order in which their senders took the
      queue's lock: what was run is a prefix of what was queued, and nothing is reordered between
      the queue, the direct write and the output buffer. */
  lemma {:induction false} StreamFollowsLockOrder(s: System, steps: seq<Step>, id: nat, base: seq<byte>)
    requires Inv(s, id, base) && CanRun(s, steps)
    ensures var t := Run(s, steps);
            && Inv(t, id, base) && t.loop.executed <= t.loop.enqueued
            && t.conn.wire + t.conn.output == base + KeptPayloads(t.loop.executed, t.fates, id)
    decreases |steps|
  {
    if steps != [] {
      NextKeepsInv(s, steps[0], id, base);
      StreamFollowsLockOrder(Next(s, steps[0]), steps[1..], id, base);
    } else {
      assert s.loop.executed <= s.loop.executed + s.loop.batch + s.loop.pending;
    }
  }

  predicate AllKept(fs: seq<Functor>, fates: seq<bool>, id: nat)
    requires |fs| == |fates|
  {
    forall i :: 0 <= i < |fs| ==> (fs[i].SendInLoop? && fs[i].conn == id ==> fates[i])
  }

  lemma {:induction false} KeptIsAll(fs: seq<Functor>, fates: seq<bool>, id: nat)
    requires |fs| == |fates| && AllKept(fs, fates, id)
    ensures KeptPayloads(fs, fates, id) == Payloads(fs, id)
    decreases |fs|
  {
    if fs == [] {
    } else {
      KeptIsAll(fs[..|fs| - 1], fates[..|fs| - 1], id);
    }
  }

  lemma {:induction false} PayloadsPrefix(fs: seq<Functor>, gs: seq<Functor>, id: nat)
    requires fs <= gs
    ensures Payloads(fs, id) <= Payloads(gs, id)
    decreases |gs|
  {
    if |fs| < |gs| {
      PayloadsPrefix(fs, gs[..|gs| - 1], id);
    } else {
      assert fs == gs;
    }
  }

  /** When no payload was dropped the stream is a prefix of everything queued for the connection. */
  lemma UndroppedStreamIsPrefix(s: System, steps: seq<Step>, id: nat)
    requires Inv(s, id, []) && CanRun(s, steps)
    requires var t := Run(s, steps); |t.fates| == |t.loop.executed| && AllKept(t.loop.executed, t.fates, id)
    ensures var t := Run(s, steps); t.conn.wire + t.conn.output <= Payloads(t.loop.enqueued, id)
  {
    StreamFollowsLockOrder(s, steps, id, []);
    var t := Run(s, steps);
    KeptIsAll(t.loop.executed, t.fates, id);
    assert t.conn.wire + t.conn.output == Payloads(t.loop.executed, id);
    PayloadsPrefix(t.loop.executed, t.loop.enqueued, id);
  }

  // ----- each thread's own order -----

  /** The sends of one thread among queued functors, in order. */
  function SentBy(fs: seq<Functor>, thread: nat): seq<Functor> {
    if fs == [] then []
    else SentBy(fs[..|fs| - 1], thread)
         + (if fs[|fs| - 1].SendInLoop? && fs[|fs| - 1].sender == thread then [fs[|fs| - 1]] else [])
  }

  /** Threads queue sends under their own name, and the loop thread queues none. */
  predicate Signed(steps: seq<Step>) {
    forall i :: 0 <= i < |steps| && steps[i].LoopStep? ==> SignedStep(steps[i].step)
  }

  predicate SignedStep(st: L.Step<Functor>) {
    && (st.Push? && st.f.SendInLoop? ==> st.f.sender == st.thread)
    && (st.SelfPush? ==> !st.f.SendInLoop?)
  }

  function SendOf(step: Step, thread: nat): seq<Functor> {
    if step.LoopStep? && step.step.Push? && step.step.thread == thread && step.step.f.SendInLoop?
    then [step.step.f] else []
  }

  /** The sends a thread makes in a run, in its program order. */
  function ProgramOrder(steps: seq<Step>, thread: nat): seq<Functor> {
    if steps == [] then [] else SendOf(steps[0], thread) + ProgramOrder(steps[1..], thread)
  }

  lemma SentBySnoc(fs: seq<Functor>, f: Functor, thread: nat)
    ensures SentBy(fs + [f], thread)
         == SentBy(fs, thread) + (if f.SendInLoop? && f.sender == thread then [f] else [])
  {
    assert (fs + [f])[..|fs|] == fs;
  }

  lemma {:induction false} SentByPrefix(fs: seq<Functor>, gs: seq<Functor>, thread: nat)
    requires fs <= gs
    ensures SentBy(fs, thread) <= SentBy(gs, thread)
    decreases |gs|
  {
    if |fs| < |gs| {
      SentByPrefix(fs, gs[..|gs| - 1], thread);
    } else {
      assert fs == gs;
    }
  }

  lemma NextQueuesSend(s: System, step: Step, thread: nat)
    requires Enabled(s, step) && (step.LoopStep? ==> SignedStep(step.step))
    ensures SentBy(Next(s, step).loop.enqueued, thread)
         == SentBy(s.loop.enqueued, thread) + SendOf(step, thread)
  {
    if step.LoopStep? {
      var st := step.step;
      L.OnlyPushesEnqueue(s.loop, st);
      assert Next(s, step).loop == L.Next(s.loop, st);
      if st.Push? || st.SelfPush? {
        SentBySnoc(s.loop.enqueued, st.f, thread);
      } else {
        assert Next(s, step).loop.enqueued == s.loop.enqueued;
      }
    }
  }

  lemma SignedTail(steps: seq<Step>)
    requires steps != [] && Signed(steps)
    ensures steps[0].LoopStep? ==> SignedStep(steps[0].step)
    ensures Signed(steps[1..])
  {
    assert forall i :: 0 <= i < |steps[1..]| ==> steps[1..][i] == steps[i + 1];
  }

  lemma Reassociate(a: seq<Functor>, b: seq<Functor>, c: seq<Functor>)
    ensures a + b + c == a + (b + c)
  {
  }

  lemma {:induction false} QueueHoldsProgramOrder(s: System, steps: seq<Step>, thread: nat)
    requires CanRun(s, steps) && Signed(steps)
    ensures SentBy(Run(s, steps).loop.enqueued, thread)
         == SentBy(s.loop.enqueued, thread) + ProgramOrder(steps, thread)
    decreases |steps|
  {
    if steps == [] {
    } else {
      SignedTail(steps);
      NextQueuesSend(s, steps[0], thread);
      var t := Next(s, steps[0]);
      QueueHoldsProgramOrder(t, steps[1..], thread);
      Reassociate(SentBy(s.loop.enqueued, thread), SendOf(steps[0], thread), ProgramOrder(steps[1..], thread));
    }
  }

  /** What has been run of a thread's sends is a prefix of that thread's own send order. */
  lemma EachThreadInOwnOrder(s: System, steps: seq<Step>, id: nat, base: seq<byte>, thread: nat)
    requires Inv(s, id, base) && s.loop.enqueued == [] && CanRun(s, steps) && Signed(steps)
    ensures SentBy(Run(s, steps).loop.executed, thread) <= ProgramOrder(steps, thread)
  {
    StreamFollowsLockOrder(s, steps, id, base);
    var t := Run(s, steps);
    SentByPrefix(t.loop.executed, t.loop.enqueued, thread);
    QueueHoldsProgramOrder(s, steps, thread);
    assert SentBy([], thread) == [];
  }
}
