/** How the queues of the teardown protocol move, and what follows: a closed connection is destroyed and
    freed within one round of each loop, and exactly which queued functors outlive their connection. */
module TeardownQueues {
  import opened Tasks
  import opened Phases
  import opened Teardown
  import opened TeardownProofs

  // ----- one step -----

  /** The functor that a step queues on loop `j`. */
  function NewlyQueued(s: Server, step: Step, j: nat): seq<Functor>
    requires Enabled(s, step)
  {
    match step
    case Accept(_, io) => if io == j && j != 0 then [ConnectEstablished(s.nextId)] else []
    case Close(i) => RemovalPush(i, s.loops[i].active[0], j)
    case Execute(i) => ExecutePush(s, s.loops[i].batch[s.loops[i].done], j)
    case Post(i, f) => if i == j then [f] else []
    case _ => []
  }

  /** The close callback queues the destruction on the server's own loop, the removal from any other. */
  function RemovalPush(i: nat, c: ConnId, j: nat): seq<Functor> {
    if j != 0 then [] else if i == 0 then [ConnectDestroyed(c)] else [RemoveConnection(c)]
  }

  function ExecutePush(s: Server, f: Functor, j: nat): seq<Functor> {
    if f.RemoveConnection? && f.conn in s.conns && s.conns[f.conn].loop == j then [ConnectDestroyed(f.conn)] else []
  }

  ghost predicate QueueMoved(s: Server, step: Step, t: Server, j: nat)
    requires Enabled(s, step)
  {
    j < |s.loops| && |t.loops| == |s.loops| &&
    var l, m := s.loops[j], t.loops[j];
    && m.pending == (if step == Swap(j) then [] else l.pending) + NewlyQueued(s, step, j)
    && m.batch == (if step == Swap(j) then l.pending else if step == EndRound(j) then [] else l.batch)
    && m.done == (if step == Swap(j) || step == EndRound(j) then 0
                  else if step == Execute(j) then l.done + 1 else l.done)
    && m.stage == (if step == Swap(j) then Running else if step == EndRound(j) then Polling
                   else if step.Poll? && step.l == j then Dispatching else l.stage)
  }

  lemma ExecuteMovesQueue(s: Server, i: nat, j: nat)
    requires Inv(s) && Enabled(s, Execute(i)) && j < |s.loops|
    ensures QueueMoved(s, Execute(i), Next(s, Execute(i)), j)
  {
    var f := s.loops[i].batch[s.loops[i].done];
    if f.conn in s.conns {
      assert ConnOk(s, f.conn);
    }
  }

  lemma CloseMovesQueue(s: Server, i: nat, j: nat)
    requires Inv(s) && Enabled(s, Close(i)) && j < |s.loops|
    ensures QueueMoved(s, Close(i), Next(s, Close(i)), j)
  {
    assert LoopOk(s, i) && Registered(s, i, s.loops[i].active[0]);
  }

  lemma StepMovesQueue(s: Server, step: Step, j: nat)
    requires Inv(s) && Enabled(s, step) && j < |s.loops|
    ensures QueueMoved(s, step, Next(s, step), j)
  {
    match step
    case Close(i) => CloseMovesQueue(s, i, j);
    case Execute(i) => ExecuteMovesQueue(s, i, j);
    case _ =>
  }

  /** A connection keeps its loop and descriptor, only moves forward, and is gone only by the
      destruction that its own loop runs. */
  ghost predicate RecordMoved(s: Server, step: Step, t: Server, c: ConnId)
    requires Enabled(s, step) && c in s.conns
  {
    c in t.conns &&
    var r, q := s.conns[c], t.conns[c];
    && q.loop == r.loop && q.fd == r.fd && Rank(r.phase) <= Rank(q.phase)
    && (c !in s.connections ==> c !in t.connections)
    && (Gone(q) <==> Gone(r) || Destroys(s, step, c))
    && (Destroys(s, step, c) ==> step.l == r.loop)
  }

  predicate Destroys(s: Server, step: Step, c: ConnId)
    requires Enabled(s, step)
  {
    step.Execute? && s.loops[step.l].batch[s.loops[step.l].done] == ConnectDestroyed(c)
  }

  lemma ExecuteMovesRecord(s: Server, i: nat, c: ConnId)
    requires Inv(s) && Enabled(s, Execute(i)) && c in s.conns
    ensures RecordMoved(s, Execute(i), Next(s, Execute(i)), c)
  {
    var f := s.loops[i].batch[s.loops[i].done];
    AdvancedLeft(s, i, i, f);
    assert WorkOk(s, i, f.conn) && ConnOk(s, c);
    if f.conn in s.conns {
      assert ConnOk(s, f.conn);
    }
  }

  lemma CloseMovesRecord(s: Server, i: nat, c: ConnId)
    requires Inv(s) && Enabled(s, Close(i)) && c in s.conns
    ensures RecordMoved(s, Close(i), Next(s, Close(i)), c)
  {
    assert LoopOk(s, i) && Registered(s, i, s.loops[i].active[0]);
  }

  lemma StepMovesRecord(s: Server, step: Step, c: ConnId)
    requires Inv(s) && Enabled(s, step) && c in s.conns
    ensures RecordMoved(s, step, Next(s, step), c)
  {
    assert ConnOk(s, c);
    match step
    case Close(i) => CloseMovesRecord(s, i, c);
    case Execute(i) => ExecuteMovesRecord(s, i, c);
    case _ =>
  }

  // ----- what every queued functor refers to -----

  /** A functor is queued on the loop it belongs to, and its connection is far enough along. */
  ghost predicate FunctorOk(s: Server, l: nat, f: Functor) {
    f.conn in s.conns &&
    var r := s.conns[f.conn];
    match f
    case RemoveConnection(_) => l == 0 && r.loop != 0 && r.phase == Disconnected
    case ConnectDestroyed(c) => l == r.loop && r.phase == Disconnected && c !in s.connections
    case ConnectEstablished(_) => l == r.loop
    case ShutdownInLoop(_) => l == r.loop && Rank(r.phase) >= 2
    case _ => l == r.loop && r.phase != Connecting
  }

  ghost predicate QueueInv(s: Server) {
    forall l, k :: 0 <= l < |s.loops| && 0 <= k < |Queue(s.loops[l])| ==> FunctorOk(s, l, Queue(s.loops[l])[k])
  }

  /** The batch, its executed part included, and the queue behind it. */
  function Queue(l: Loop): seq<Functor> {
    l.batch + l.pending
  }

  lemma NewlyQueuedIsOk(s: Server, step: Step, l: nat, f: Functor)
    requires Inv(s) && Enabled(s, step) && f in NewlyQueued(s, step, l)
    ensures FunctorOk(Next(s, step), l, f)
  {
    match step
    case Close(i) =>
      assert LoopOk(s, i) && Registered(s, i, s.loops[i].active[0]);
    case Execute(i) =>
      var g := s.loops[i].batch[s.loops[i].done];
      AdvancedLeft(s, i, i, g);
      assert WorkOk(s, i, g.conn);
    case _ =>
  }

  /** A functor in a queue after a step was there before, or the step added it. */
  lemma QueuedBefore(s: Server, step: Step, l: nat, k: nat)
    requires Inv(s) && Enabled(s, step) && l < |s.loops|
    requires var t := Next(s, step); l < |t.loops| && k < |Queue(t.loops[l])|
    ensures var f := Queue(Next(s, step).loops[l])[k];
            f in Queue(s.loops[l]) || f in NewlyQueued(s, step, l)
  {
    StepMovesQueue(s, step, l);
    var t := Next(s, step);
    var f := Queue(t.loops[l])[k];
    assert f in t.loops[l].batch || f in t.loops[l].pending;
  }

  lemma StepKeepsQueueInv(s: Server, step: Step)
    requires Inv(s) && QueueInv(s) && Enabled(s, step)
    ensures QueueInv(Next(s, step))
  {
    var t := Next(s, step);
    forall l, k | 0 <= l < |t.loops| && 0 <= k < |Queue(t.loops[l])|
      ensures FunctorOk(t, l, Queue(t.loops[l])[k])
    {
      StepMovesQueue(s, step, 0);
      QueuedBefore(s, step, l, k);
      var f := Queue(t.loops[l])[k];
      if f in NewlyQueued(s, step, l) {
        NewlyQueuedIsOk(s, step, l, f);
      } else {
        assert FunctorOk(s, l, f);
        StepMovesRecord(s, step, f.conn);
      }
    }
  }

  lemma StartQueueInv(n: nat)
    requires n > 0
    ensures QueueInv(Start(n))
  {
  }

  lemma {:induction false} RunKeepsQueueInv(s: Server, steps: seq<Step>)
    requires Inv(s) && QueueInv(s) && CanRun(s, steps)
    ensures Inv(Run(s, steps)) && QueueInv(Run(s, steps))
    decreases |steps|
  {
    if steps == [] {
    } else {
      NextKeepsInv(s, steps[0]);
      StepKeepsQueueInv(s, steps[0]);
      RunKeepsQueueInv(Next(s, steps[0]), steps[1..]);
    }
  }

  // ----- nothing leaves a poller while its loop dispatches -----

  lemma StepKeepsInPoller(s: Server, step: Step, i: nat, c: ConnId)
    requires Inv(s) && Enabled(s, step) && step != Swap(i)
    requires i < |s.loops| && s.loops[i].stage == Dispatching && InPoller(s, i, c)
    ensures var t := Next(s, step);
            && i < |t.loops| && t.loops[i].stage == Dispatching && InPoller(t, i, c)
  {
    NextKeepsInv(s, step);
    StepMovesQueue(s, step, i);
    StepMovesRecord(s, step, c);
    assert LoopOk(s, i) && ConnOk(s, c);
    assert ConnOk(Next(s, step), c);
  }

  /** While a loop dispatches its active list no channel of it leaves the poller, however many
      handlers close connections: teardown waits for the functor phase. */
  lemma {:induction false} NothingLeavesDuringDispatch(s: Server, steps: seq<Step>, i: nat, c: ConnId)
    requires Inv(s) && CanRun(s, steps) && Swap(i) !in steps
    requires i < |s.loops| && s.loops[i].stage == Dispatching && InPoller(s, i, c)
    ensures InPoller(Run(s, steps), i, c)
    decreases |steps|
  {
    if steps == [] {
    } else {
      NextKeepsInv(s, steps[0]);
      StepKeepsInPoller(s, steps[0], i, c);
      NothingLeavesDuringDispatch(Next(s, steps[0]), steps[1..], i, c);
    }
  }

  // ----- a closed connection is removed, destroyed and freed -----

  /** Loop `i` is running a batch in which `f` is still to come. */
  predicate InBatch(s: Server, i: nat, f: Functor) {
    i < |s.loops| && s.loops[i].done <= |s.loops[i].batch| && f in s.loops[i].batch[s.loops[i].done..]
  }

  /** Closed, and its removal is done or waits in the batch of the server's loop. */
  predicate RemovedOrInBatch(s: Server, c: ConnId) {
    c in s.conns && s.conns[c].phase == Disconnected
    && (c !in s.connections || InBatch(s, 0, RemoveConnection(c)))
  }

  /** Destroyed, or its destruction waits in the batch of its own loop. */
  predicate DestroyedOrInBatch(s: Server, c: ConnId) {
    c in s.conns && (Gone(s.conns[c]) || InBatch(s, s.conns[c].loop, ConnectDestroyed(c)))
  }

  /** What is left of a batch only shrinks from its front, until the batch is replaced. */
  lemma BatchShrinks(s: Server, step: Step, i: nat, f: Functor)
    requires Inv(s) && Enabled(s, step) && InBatch(s, i, f)
    ensures InBatch(Next(s, step), i, f) || (step == Execute(i) && s.loops[i].batch[s.loops[i].done] == f)
  {
    StepMovesQueue(s, step, i);
    assert LoopOk(s, i);
    if step == Execute(i) && s.loops[i].batch[s.loops[i].done] != f {
      BehindFront(s.loops[i], f);
    }
  }

  lemma BehindFront(l: Loop, f: Functor)
    requires l.done < |l.batch| && f in l.batch[l.done..] && l.batch[l.done] != f
    ensures f in l.batch[l.done + 1..]
  {
    assert l.batch[l.done..] == [l.batch[l.done]] + l.batch[l.done + 1..];
  }

  lemma StepKeepsRemoving(s: Server, step: Step, c: ConnId)
    requires Inv(s) && Enabled(s, step) && RemovedOrInBatch(s, c)
    ensures RemovedOrInBatch(Next(s, step), c)
  {
    StepMovesRecord(s, step, c);
    if c in s.connections {
      BatchShrinks(s, step, 0, RemoveConnection(c));
    }
  }

  lemma StepKeepsDestroying(s: Server, step: Step, c: ConnId)
    requires Inv(s) && Enabled(s, step) && DestroyedOrInBatch(s, c)
    ensures DestroyedOrInBatch(Next(s, step), c) && Next(s, step).conns[c].loop == s.conns[c].loop
  {
    StepMovesRecord(s, step, c);
    if !Gone(s.conns[c]) {
      BatchShrinks(s, step, s.conns[c].loop, ConnectDestroyed(c));
    }
  }

  lemma {:induction false} RunKeepsRemoving(s: Server, steps: seq<Step>, c: ConnId)
    requires Inv(s) && CanRun(s, steps) && RemovedOrInBatch(s, c)
    ensures Inv(Run(s, steps)) && RemovedOrInBatch(Run(s, steps), c)
    decreases |steps|
  {
    if steps == [] {
    } else {
      NextKeepsInv(s, steps[0]);
      StepKeepsRemoving(s, steps[0], c);
      RunKeepsRemoving(Next(s, steps[0]), steps[1..], c);
    }
  }

  lemma {:induction false} RunKeepsDestroying(s: Server, steps: seq<Step>, c: ConnId)
    requires Inv(s) && CanRun(s, steps) && DestroyedOrInBatch(s, c)
    ensures var t := Run(s, steps); Inv(t) && DestroyedOrInBatch(t, c) && t.conns[c].loop == s.conns[c].loop
    decreases |steps|
  {
    if steps == [] {
    } else {
      NextKeepsInv(s, steps[0]);
      StepKeepsDestroying(s, steps[0], c);
      RunKeepsDestroying(Next(s, steps[0]), steps[1..], c);
    }
  }

  /** A connection stays closed, whatever happens. */
  lemma {:induction false} RunKeepsClosed(s: Server, steps: seq<Step>, c: ConnId)
    requires Inv(s) && CanRun(s, steps) && c in s.conns && s.conns[c].phase == Disconnected
    ensures var t := Run(s, steps);
            Inv(t) && c in t.conns && t.conns[c].phase == Disconnected && t.conns[c].loop == s.conns[c].loop
    decreases |steps|
  {
    if steps == [] {
    } else {
      NextKeepsInv(s, steps[0]);
      StepMovesRecord(s, steps[0], c);
      RunKeepsClosed(Next(s, steps[0]), steps[1..], c);
    }
  }

  lemma CountedIn(fs: seq<Functor>, f: Functor)
    requires Count(fs, f) > 0
    ensures f in fs
  {
    CountedIsIn(fs, f);
  }

  /** When the server's loop swaps its queue, a closed connection's removal is done or in the batch. */
  lemma SwapTakesRemoval(s: Server, c: ConnId)
    requires Inv(s) && Enabled(s, Swap(0)) && c in s.conns && s.conns[c].phase == Disconnected
    ensures RemovedOrInBatch(Next(s, Swap(0)), c)
  {
    assert WorkOk(s, 0, c) && LoopOk(s, 0);
    if c in s.connections {
      CountedIn(s.loops[0].pending, RemoveConnection(c));
      assert s.loops[0].pending[0..] == s.loops[0].pending;
    }
  }

  /** When its own loop swaps its queue, a removed connection's destruction is done or in the batch. */
  lemma SwapTakesDestruction(s: Server, c: ConnId)
    requires Inv(s) && c in s.conns && s.conns[c].phase == Disconnected && c !in s.connections
    requires Enabled(s, Swap(s.conns[c].loop))
    ensures DestroyedOrInBatch(Next(s, Swap(s.conns[c].loop)), c)
  {
    var i := s.conns[c].loop;
    assert ConnOk(s, c) && WorkOk(s, i, c) && LoopOk(s, i);
    if !Gone(s.conns[c]) {
      CountedIn(s.loops[i].pending, ConnectDestroyed(c));
      assert s.loops[i].pending[0..] == s.loops[i].pending;
    }
  }

  // ----- what still owns a destroyed connection -----

  /** `f` keeps `c` alive from the queue of the connection's own loop. */
  predicate Holds(f: Functor, c: ConnId) {
    f.Owns() && f.conn == c && !f.RemoveConnection?
  }

  ghost predicate NoneHolds(q: seq<Functor>, c: ConnId) {
    forall k :: 0 <= k < |q| ==> !Holds(q[k], c)
  }

  /** Nothing that keeps the connection alive is queued behind its destruction. */
  ghost predicate DestroyLast(q: seq<Functor>, c: ConnId) {
    forall j, k :: 0 <= j < k < |q| && q[j] == ConnectDestroyed(c) ==> !Holds(q[k], c)
  }

  /** Once it is gone and its destruction has left the queue, nothing there keeps it alive. */
  ghost predicate OwnersIn(q: seq<Functor>, gone: bool, c: ConnId) {
    DestroyLast(q, c) && (gone && ConnectDestroyed(c) !in q ==> NoneHolds(q, c))
  }

  ghost predicate OwnersOk(s: Server, c: ConnId) {
    c in s.conns && s.conns[c].loop < |s.loops|
    && OwnersIn(Queue(s.loops[s.conns[c].loop]), Gone(s.conns[c]), c)
  }

  ghost predicate FullInv(s: Server) {
    Inv(s) && QueueInv(s) && forall c :: c in s.conns ==> OwnersOk(s, c)
  }

  lemma QueueGrows(s: Server, step: Step, j: nat)
    requires Inv(s) && Enabled(s, step) && j < |s.loops|
    ensures var t := Next(s, step);
            && j < |t.loops|
            && Queue(t.loops[j]) == (if step == EndRound(j) then s.loops[j].pending else Queue(s.loops[j]))
                                    + NewlyQueued(s, step, j)
  {
    StepMovesQueue(s, step, j);
    assert LoopOk(s, j);
    if step != EndRound(j) {
      QueuesJoin(s.loops[j], Next(s, step).loops[j], step == Swap(j), NewlyQueued(s, step, j));
    }
  }

  lemma QueuesJoin(l: Loop, m: Loop, swapped: bool, more: seq<Functor>)
    requires swapped ==> l.batch == []
    requires m.pending == (if swapped then [] else l.pending) + more
    requires m.batch == if swapped then l.pending else l.batch
    ensures Queue(m) == Queue(l) + more
  {
  }

  /** Every functor but a queued send and a queued half-close is bound with a shared pointer, so its
      connection lives at least until the batch it is run in is cleared. */
  lemma BoundFunctorKeepsAlive(s: Server, i: nat, f: Functor)
    requires i < |s.loops| && f in Queue(s.loops[i])
    requires f.ConnectEstablished? || f.ConnectDestroyed? || f.RemoveConnection? || f.WriteComplete? || f.HighWater?
    ensures Alive(s, f.conn)
  {
    var l := s.loops[i];
    var k :| 0 <= k < |Queue(l)| && Queue(l)[k] == f;
    if k < |l.batch| {
      assert l.batch[k] == f;
    } else {
      assert l.pending[k - |l.batch|] == f;
    }
    assert HeldBy(l, f.conn);
  }

  lemma QueuedIsOk(s: Server, l: nat, f: Functor)
    requires QueueInv(s) && l < |s.loops| && f in Queue(s.loops[l])
    ensures FunctorOk(s, l, f)
  {
    var k :| 0 <= k < |Queue(s.loops[l])| && Queue(s.loops[l])[k] == f;
  }

  /** What a step queues to keep a connection alive comes before its destruction. */
  lemma NewHolder(s: Server, step: Step, l: nat, c: ConnId)
    requires Inv(s) && QueueInv(s) && Enabled(s, step) && c in s.conns && l < |s.loops|
    requires !NoneHolds(NewlyQueued(s, step, l), c)
    ensures !Gone(s.conns[c]) && ConnectDestroyed(c) !in Queue(s.loops[l])
  {
    assert ConnOk(s, c);
    if ConnectDestroyed(c) in Queue(s.loops[l]) {
      QueuedIsOk(s, l, ConnectDestroyed(c));
    }
    if step.Execute? {
      var g := s.loops[step.l].batch[s.loops[step.l].done];
      AdvancedLeft(s, step.l, step.l, g);
      assert WorkOk(s, step.l, g.conn);
    } else if step.Close? {
      assert LoopOk(s, step.l);
    }
  }

  lemma OwnersGrow(q: seq<Functor>, more: seq<Functor>, gone: bool, gone': bool, c: ConnId)
    requires OwnersIn(q, gone, c) && |more| <= 1
    requires gone' ==> gone || ConnectDestroyed(c) in q
    requires !NoneHolds(more, c) ==> !gone && ConnectDestroyed(c) !in q
    ensures OwnersIn(q + more, gone', c)
  {
  }

  lemma OwnersDrop(batch: seq<Functor>, pending: seq<Functor>, gone: bool, c: ConnId)
    requires OwnersIn(batch + pending, gone, c)
    ensures OwnersIn(pending, gone, c)
  {
    var q := batch + pending;
    assert pending == q[|batch|..];
    if gone && ConnectDestroyed(c) in batch {
      var j :| 0 <= j < |batch| && batch[j] == ConnectDestroyed(c);
      assert q[j] == ConnectDestroyed(c);
    }
  }

  lemma StepKeepsOwners(s: Server, step: Step, c: ConnId)
    requires Inv(s) && QueueInv(s) && Enabled(s, step) && c in s.conns && OwnersOk(s, c)
    ensures OwnersOk(Next(s, step), c)
  {
    var i := s.conns[c].loop;
    var l := s.loops[i];
    var more := NewlyQueued(s, step, i);
    QueueGrows(s, step, i);
    StepMovesRecord(s, step, c);
    if step == EndRound(i) {
      OwnersDrop(l.batch, l.pending, Gone(s.conns[c]), c);
      assert l.pending + more == l.pending;
    } else {
      if !NoneHolds(more, c) {
        NewHolder(s, step, i, c);
      }
      if Destroys(s, step, c) {
        assert Queue(l)[l.done] == ConnectDestroyed(c);
      }
      OwnersGrow(Queue(l), more, Gone(s.conns[c]), Gone(Next(s, step).conns[c]), c);
    }
  }

  lemma AcceptedOwners(s: Server, fd: int, io: nat)
    requires Inv(s) && QueueInv(s) && Enabled(s, Accept(fd, io))
    ensures OwnersOk(Next(s, Accept(fd, io)), s.nextId)
  {
    var q := Queue(s.loops[io]);
    AcceptedKeepsPollers(s, fd, io);
    QueueGrows(s, Accept(fd, io), io);
    forall k | 0 <= k < |q|
      ensures q[k].conn != s.nextId
    {
      assert FunctorOk(s, io, q[k]);
    }
  }

  lemma StepKeepsFullInv(s: Server, step: Step)
    requires FullInv(s) && Enabled(s, step)
    ensures FullInv(Next(s, step))
  {
    NextKeepsInv(s, step);
    StepKeepsQueueInv(s, step);
    var t := Next(s, step);
    forall c | c in t.conns
      ensures OwnersOk(t, c)
    {
      if c in s.conns {
        StepKeepsOwners(s, step, c);
      } else {
        OnlyAcceptAdds(s, step, c);
        AcceptedOwners(s, step.fd, step.loop);
      }
    }
  }

  lemma OnlyAcceptAdds(s: Server, step: Step, c: ConnId)
    requires Enabled(s, step) && c in Next(s, step).conns && c !in s.conns
    ensures step.Accept? && c == s.nextId
  {
  }

  lemma {:induction false} RunKeepsFullInv(s: Server, steps: seq<Step>)
    requires FullInv(s) && CanRun(s, steps)
    ensures FullInv(Run(s, steps))
    decreases |steps|
  {
    if steps == [] {
    } else {
      StepKeepsFullInv(s, steps[0]);
      RunKeepsFullInv(Next(s, steps[0]), steps[1..]);
    }
  }

  lemma ReachableFullInv(n: nat, steps: seq<Step>)
    requires Reachable(n, steps)
    ensures FullInv(Run(Start(n), steps))
  {
    StartInv(n);
    StartQueueInv(n);
    RunKeepsFullInv(Start(n), steps);
  }

  lemma NoneLeft(s: Server, l: nat, f: Functor)
    requires l < |s.loops| && s.loops[l].done <= |s.loops[l].batch| && Left(s.loops[l], f) == 0
    ensures f !in s.loops[l].pending && !InBatch(s, l, f)
  {
    NotCounted(s.loops[l].pending, f);
    NotCounted(s.loops[l].batch[s.loops[l].done..], f);
  }

  lemma {:induction false} NotCounted(fs: seq<Functor>, f: Functor)
    requires Count(fs, f) == 0
    ensures f !in fs
    decreases |fs|
  {
    if fs == [] {
    } else {
      NotCounted(fs[1..], f);
      assert fs == [fs[0]] + fs[1..];
    }
  }

  /** A destroyed connection is kept alive only by the functor that destroyed it, until that round of its
      loop ends, and by the removal, until that round of the server's loop ends. */
  lemma GoneAliveIff(s: Server, c: ConnId)
    requires FullInv(s) && c in s.conns && Gone(s.conns[c])
    ensures s.conns[c].loop < |s.loops|
    ensures Alive(s, c) <==> ConnectDestroyed(c) in s.loops[s.conns[c].loop].batch
                             || RemoveConnection(c) in s.loops[0].batch
  {
    var i := s.conns[c].loop;
    assert ConnOk(s, c) && OwnersOk(s, c) && LoopOk(s, i) && LoopOk(s, 0) && WorkOk(s, i, c) && WorkOk(s, 0, c);
    NoneLeft(s, i, ConnectDestroyed(c));
    NoneLeft(s, 0, RemoveConnection(c));
    if j :| 0 <= j < |s.loops| && HeldBy(s.loops[j], c) {
      HolderOfGone(s, c, j);
    }
    if ConnectDestroyed(c) in s.loops[i].batch {
      assert HeldBy(s.loops[i], c);
    }
    if RemoveConnection(c) in s.loops[0].batch {
      assert HeldBy(s.loops[0], c);
    }
  }

  lemma HolderOfGone(s: Server, c: ConnId, j: nat)
    requires Inv(s) && QueueInv(s) && c in s.conns && Gone(s.conns[c]) && OwnersOk(s, c)
    requires j < |s.loops| && HeldBy(s.loops[j], c)
    ensures (j == 0 && RemoveConnection(c) in Queue(s.loops[0]))
            || (j == s.conns[c].loop && ConnectDestroyed(c) in Queue(s.loops[j]))
  {
    var l := s.loops[j];
    assert LoopOk(s, j);
    var f: Functor;
    if OwnedIn(l.pending, c) {
      var k :| 0 <= k < |l.pending| && l.pending[k].Owns() && l.pending[k].conn == c;
      f := Queue(l)[|l.batch| + k];
    } else {
      var k :| 0 <= k < |l.batch| && l.batch[k].Owns() && l.batch[k].conn == c;
      f := Queue(l)[k];
    }
    QueuedIsOk(s, j, f);
  }
}
