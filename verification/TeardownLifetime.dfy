/** How long a connection lives once it has closed, and which queued functors outlive it. */
module TeardownLifetimes {
  import opened Tasks
  import opened Phases
  import opened Teardown
  import opened TeardownProofs
  import opened TeardownQueues

  // ----- one round of each loop frees a closed connection -----

  /** Closed, out of the connection map, and its removal is in no queue any more. */
  predicate RemovalOver(s: Server, c: ConnId) {
    && c in s.conns && s.conns[c].phase == Disconnected && c !in s.connections
    && |s.loops| > 0 && RemoveConnection(c) !in Queue(s.loops[0])
  }

  lemma StepKeepsRemovalOver(s: Server, step: Step, c: ConnId)
    requires Inv(s) && Enabled(s, step) && RemovalOver(s, c)
    ensures RemovalOver(Next(s, step), c)
  {
    StepMovesRecord(s, step, c);
    QueueGrows(s, step, 0);
  }

  lemma {:induction false} RunKeepsRemovalOver(s: Server, steps: seq<Step>, c: ConnId)
    requires Inv(s) && CanRun(s, steps) && RemovalOver(s, c)
    ensures Inv(Run(s, steps)) && RemovalOver(Run(s, steps), c)
    decreases |steps|
  {
    if steps == [] {
    } else {
      NextKeepsInv(s, steps[0]);
      StepKeepsRemovalOver(s, steps[0], c);
      RunKeepsRemovalOver(Next(s, steps[0]), steps[1..], c);
    }
  }

  lemma RemovalEnds(s: Server, c: ConnId)
    requires Inv(s) && RemovedOrInBatch(s, c) && Enabled(s, EndRound(0))
    ensures RemovalOver(Next(s, EndRound(0)), c)
  {
    var t := Next(s, EndRound(0));
    NextKeepsInv(s, EndRound(0));
    assert WorkOk(t, 0, c) && LoopOk(t, 0);
    NoneLeft(t, 0, RemoveConnection(c));
  }

  lemma DestructionEnds(s: Server, c: ConnId)
    requires FullInv(s) && RemovalOver(s, c) && DestroyedOrInBatch(s, c)
    requires Enabled(s, EndRound(s.conns[c].loop))
    ensures var t := Next(s, EndRound(s.conns[c].loop)); c in t.conns && Gone(t.conns[c]) && !Alive(t, c)
  {
    var step := EndRound(s.conns[c].loop);
    StepKeepsFullInv(s, step);
    StepMovesRecord(s, step, c);
    StepKeepsRemovalOver(s, step, c);
    GoneAliveIff(Next(s, step), c);
  }

  /** One whole functor phase of loop `i`, with everything that happens meanwhile. */
  function Round(i: nat, meanwhile: seq<Step>): seq<Step> {
    [Swap(i)] + meanwhile + [EndRound(i)]
  }

  lemma RunRound(s: Server, i: nat, meanwhile: seq<Step>)
    requires CanRun(s, Round(i, meanwhile))
    ensures Enabled(s, Swap(i)) && CanRun(Next(s, Swap(i)), meanwhile)
    ensures var u := Run(Next(s, Swap(i)), meanwhile);
            Enabled(u, EndRound(i)) && Run(s, Round(i, meanwhile)) == Next(u, EndRound(i))
  {
    RunConcat(s, [Swap(i)] + meanwhile, [EndRound(i)]);
    RunFirst(s, Swap(i), meanwhile);
    var u := Run(Next(s, Swap(i)), meanwhile);
    RunFirst(u, EndRound(i), []);
    assert [EndRound(i)] + [] == [EndRound(i)];
  }

  /** The server's loop carries out the removal of a closed connection within one round. */
  lemma RoundRemoves(s: Server, round: seq<Step>, c: ConnId)
    requires Inv(s) && c in s.conns && s.conns[c].phase == Disconnected
    requires CanRun(s, Round(0, round))
    ensures RemovalOver(Run(s, Round(0, round)), c)
  {
    RunRound(s, 0, round);
    SwapTakesRemoval(s, c);
    NextKeepsInv(s, Swap(0));
    RunKeepsRemoving(Next(s, Swap(0)), round, c);
    RemovalEnds(Run(Next(s, Swap(0)), round), c);
  }

  /** Its own loop carries out the destruction of a removed connection within one round, and frees it. */
  lemma RoundFrees(s: Server, round: seq<Step>, c: ConnId)
    requires FullInv(s) && RemovalOver(s, c)
    requires CanRun(s, Round(s.conns[c].loop, round))
    ensures var t := Run(s, Round(s.conns[c].loop, round));
            c in t.conns && Gone(t.conns[c]) && !Alive(t, c)
  {
    var i := s.conns[c].loop;
    RunRound(s, i, round);
    SwapTakesDestruction(s, c);
    StepKeepsFullInv(s, Swap(i));
    StepKeepsRemovalOver(s, Swap(i), c);
    StepMovesRecord(s, Swap(i), c);
    var u := Next(s, Swap(i));
    RunKeepsDestroying(u, round, c);
    RunKeepsRemovalOver(u, round, c);
    RunKeepsFullInv(u, round);
    RunKeepsClosed(u, round, c);
    DestructionEnds(Run(u, round), c);
  }

  /** Up to the end of the server loop's round, and any time after it. */
  lemma RemovedByThen(s: Server, c: ConnId, a: seq<Step>, b: seq<Step>, d: seq<Step>)
    requires FullInv(s) && c in s.conns && s.conns[c].phase == Disconnected
    requires CanRun(s, a + Round(0, b) + d)
    ensures var t := Run(s, a + Round(0, b) + d);
            FullInv(t) && RemovalOver(t, c) && t.conns[c].loop == s.conns[c].loop
  {
    RunConcat(s, a + Round(0, b), d);
    RunConcat(s, a, Round(0, b));
    RunKeepsClosed(s, a, c);
    RoundRemoves(Run(s, a), b, c);
    RunKeepsInv(Run(s, a), Round(0, b));
    RunKeepsRemovalOver(Run(s, a + Round(0, b)), d, c);
    RunKeepsClosed(s, a + Round(0, b) + d, c);
    RunKeepsFullInv(s, a + Round(0, b) + d);
  }

  /** After a close on loop `i`, once the server's loop and then loop `i` have each run one whole round,
      nothing owns the connection any more, whatever else any loop or thread does before, between and
      during these rounds. */
  lemma ClosedIsFreed(n: nat, before: seq<Step>, i: nat, a: seq<Step>, b: seq<Step>, d: seq<Step>, e: seq<Step>)
    requires Reachable(n, before) && Enabled(Run(Start(n), before), Close(i))
    requires CanRun(Next(Run(Start(n), before), Close(i)), a + Round(0, b) + d + Round(i, e))
    ensures var s := Run(Start(n), before);
            var c := s.loops[i].active[0];
            var t := Run(Next(s, Close(i)), a + Round(0, b) + d + Round(i, e));
            c in t.conns && Gone(t.conns[c]) && !Alive(t, c)
  {
    var s := Run(Start(n), before);
    var c := s.loops[i].active[0];
    ReachableFullInv(n, before);
    CloseCloses(s, i);
    var s1 := Next(s, Close(i));
    RunConcat(s1, a + Round(0, b) + d, Round(i, e));
    RemovedByThen(s1, c, a, b, d);
    RoundFrees(Run(s1, a + Round(0, b) + d), e, c);
  }

  lemma CloseCloses(s: Server, i: nat)
    requires FullInv(s) && Enabled(s, Close(i))
    ensures var c, t := s.loops[i].active[0], Next(s, Close(i));
            FullInv(t) && c in t.conns && t.conns[c].phase == Disconnected && t.conns[c].loop == i
  {
    assert LoopOk(s, i) && Registered(s, i, s.loops[i].active[0]);
    StepKeepsFullInv(s, Close(i));
    StepMovesRecord(s, Close(i), s.loops[i].active[0]);
  }

  /** Whatever the other loops and threads do meanwhile, a destruction in the batch of a round has
      happened by the end of that round: the channel is out of its poller for good. */
  lemma DestroyedByEndOfRound(s: Server, steps: seq<Step>, c: ConnId)
    requires Inv(s) && CanRun(s, steps) && DestroyedOrInBatch(s, c)
    requires Enabled(Run(s, steps), EndRound(s.conns[c].loop))
    ensures var t := Run(s, steps); c in t.conns && Gone(t.conns[c])
  {
    RunKeepsDestroying(s, steps, c);
  }

  // ----- functors that own nothing -----

  /** How much of its batch a loop still has to run. */
  function Remaining(l: Loop): nat {
    if l.done <= |l.batch| then |l.batch| - l.done else 0
  }

  /** Everything a loop still has to run. */
  function Waiting(l: Loop): nat {
    Remaining(l) + |l.pending|
  }

  /** `f` is run after `m` others. */
  predicate At(l: Loop, m: nat, f: Functor) {
    if m < Remaining(l) then l.batch[l.done + m] == f else m < Waiting(l) && l.pending[m - Remaining(l)] == f
  }

  /** `f` is still to come in the batch. */
  predicate Coming(l: Loop, f: Functor) {
    exists k :: l.done <= k < |l.batch| && l.batch[k] == f
  }

  function Executions(steps: seq<Step>, l: nat): nat {
    if steps == [] then 0
    else if steps[0] == Execute(l) then Executions(steps[1..], l) + 1
    else Executions(steps[1..], l)
  }

  /** Whether a functor of loop `l` with `m` others in front of it comes too late for connection `c`: in
      the queue, when the connection is gone or about to go in the batch that is running; in the batch,
      when the connection went in an earlier one. */
  predicate Late(l: Loop, m: nat, c: ConnId, gone: bool) {
    if m < Remaining(l) then gone && ConnectDestroyed(c) !in l.batch
    else gone || Coming(l, ConnectDestroyed(c))
  }

  /** `f` waits on loop `l` for its turn after `m` others, too late for `c` or not. */
  predicate Waits(s: Server, l: nat, m: nat, f: Functor, c: ConnId, late: bool) {
    && l < |s.loops| && c in s.conns && s.conns[c].loop == l
    && At(s.loops[l], m, f) && Late(s.loops[l], m, c, Gone(s.conns[c])) == late
  }

  lemma Executed(l: Loop, m: Loop, k: nat, f: Functor, c: ConnId, gone: bool)
    requires l.done < |l.batch| && At(l, k + 1, f)
    requires m.batch == l.batch && m.done == l.done + 1 && l.pending <= m.pending
    ensures At(m, k, f)
    ensures Late(m, k, c, gone || l.batch[l.done] == ConnectDestroyed(c)) <==> Late(l, k + 1, c, gone)
  {
  }

  lemma Swapped(l: Loop, m: Loop, k: nat, f: Functor, c: ConnId, gone: bool)
    requires l.batch == [] && l.done == 0 && At(l, k, f)
    requires m.batch == l.pending && m.done == 0
    requires gone ==> ConnectDestroyed(c) !in l.pending
    ensures At(m, k, f) && (Late(m, k, c, gone) <==> Late(l, k, c, gone))
  {
  }

  lemma Grown(l: Loop, m: Loop, k: nat, f: Functor, c: ConnId, gone: bool)
    requires At(l, k, f) && m.batch == l.batch && m.done == l.done && l.pending <= m.pending
    ensures At(m, k, f) && (Late(m, k, c, gone) <==> Late(l, k, c, gone))
  {
  }

  lemma Ended(l: Loop, m: Loop, k: nat, f: Functor, c: ConnId, gone: bool)
    requires l.done == |l.batch| && At(l, k, f)
    requires m.batch == [] && m.done == 0 && l.pending <= m.pending
    ensures At(m, k, f) && (Late(m, k, c, gone) <==> Late(l, k, c, gone))
  {
  }

  lemma GoneIsNotPending(s: Server, c: ConnId)
    requires Inv(s) && c in s.conns && Gone(s.conns[c])
    ensures var i := s.conns[c].loop;
            i < |s.loops| && ConnectDestroyed(c) !in s.loops[i].pending
  {
    var i := s.conns[c].loop;
    assert ConnOk(s, c) && WorkOk(s, i, c) && LoopOk(s, i);
    NoneLeft(s, i, ConnectDestroyed(c));
  }

  /** Its turn comes closer by each functor that the loop runs. */
  lemma ExecuteAdvances(s: Server, l: nat, m: nat, f: Functor, c: ConnId, late: bool)
    requires Inv(s) && Enabled(s, Execute(l)) && Waits(s, l, m + 1, f, c, late)
    ensures Waits(Next(s, Execute(l)), l, m, f, c, late)
  {
    StepMovesRecord(s, Execute(l), c);
    StepMovesQueue(s, Execute(l), l);
    Executed(s.loops[l], Next(s, Execute(l)).loops[l], m, f, c, Gone(s.conns[c]));
  }

  lemma SwapKeepsWaiting(s: Server, l: nat, m: nat, f: Functor, c: ConnId, late: bool)
    requires Inv(s) && Enabled(s, Swap(l)) && Waits(s, l, m, f, c, late)
    ensures Waits(Next(s, Swap(l)), l, m, f, c, late)
  {
    assert LoopOk(s, l);
    if Gone(s.conns[c]) {
      GoneIsNotPending(s, c);
    }
    Swapped(s.loops[l], Next(s, Swap(l)).loops[l], m, f, c, Gone(s.conns[c]));
  }

  lemma EndRoundKeepsWaiting(s: Server, l: nat, m: nat, f: Functor, c: ConnId, late: bool)
    requires Inv(s) && Enabled(s, EndRound(l)) && Waits(s, l, m, f, c, late)
    ensures Waits(Next(s, EndRound(l)), l, m, f, c, late)
  {
    Ended(s.loops[l], Next(s, EndRound(l)).loops[l], m, f, c, Gone(s.conns[c]));
  }

  /** No other step of any loop or thread changes its place, nor whether it comes too late. */
  lemma OthersKeepWaiting(s: Server, step: Step, l: nat, m: nat, f: Functor, c: ConnId, late: bool)
    requires Inv(s) && Enabled(s, step) && Waits(s, l, m, f, c, late) && step != Execute(l)
    ensures Waits(Next(s, step), l, m, f, c, late)
  {
    if step == Swap(l) {
      SwapKeepsWaiting(s, l, m, f, c, late);
    } else if step == EndRound(l) {
      EndRoundKeepsWaiting(s, l, m, f, c, late);
    } else {
      StepMovesRecord(s, step, c);
      StepMovesQueue(s, step, l);
      Grown(s.loops[l], Next(s, step).loops[l], m, f, c, Gone(s.conns[c]));
    }
  }

  lemma StepKeepsWaiting(s: Server, step: Step, l: nat, m: nat, f: Functor, c: ConnId, late: bool)
    requires Inv(s) && Enabled(s, step) && Waits(s, l, if step == Execute(l) then m + 1 else m, f, c, late)
    ensures Inv(Next(s, step)) && Waits(Next(s, step), l, m, f, c, late)
  {
    NextKeepsInv(s, step);
    if step == Execute(l) {
      ExecuteAdvances(s, l, m, f, c, late);
    } else {
      OthersKeepWaiting(s, step, l, m, f, c, late);
    }
  }

  lemma {:induction false} RunKeepsWaiting(s: Server, steps: seq<Step>, l: nat, f: Functor, c: ConnId, late: bool)
    requires Inv(s) && CanRun(s, steps) && Waits(s, l, Executions(steps, l), f, c, late)
    ensures Waits(Run(s, steps), l, 0, f, c, late)
    decreases |steps|
  {
    if steps == [] {
    } else {
      StepKeepsWaiting(s, steps[0], l, Executions(steps[1..], l), f, c, late);
      RunKeepsWaiting(Next(s, steps[0]), steps[1..], l, f, c, late);
    }
  }

  /** The connection was destroyed, or is about to be in the batch that its loop is running. */
  predicate Doomed(s: Server, l: nat, c: ConnId) {
    c in s.conns && l < |s.loops| && (Gone(s.conns[c]) || Coming(s.loops[l], ConnectDestroyed(c)))
  }

  /** A functor queued now waits behind everything the loop still has to run. */
  lemma QueuedAtEnd(s: Server, l: nat, f: Functor)
    requires Inv(s) && Enabled(s, Post(l, f))
    ensures Waits(Next(s, Post(l, f)), l, Waiting(s.loops[l]), f, f.conn, Doomed(s, l, f.conn))
  {
    assert LoopOk(s, l);
  }

  lemma AtExecution(u: Server, l: nat, f: Functor, c: ConnId, late: bool)
    requires FullInv(u) && Enabled(u, Execute(l)) && Waits(u, l, 0, f, c, late)
    ensures u.loops[l].batch[u.loops[l].done] == f
    ensures Alive(u, c) <==> !late || RemoveConnection(c) in u.loops[0].batch
  {
    if Gone(u.conns[c]) {
      GoneAliveIff(u, c);
    } else {
      NotGoneIsAlive(u, c);
    }
  }

  /** `send` and `shutdown` bind a plain pointer. When their functor's turn comes, after exactly the
      functors in front of it, the connection still exists iff at the time it was queued the connection's
      destruction had neither run nor been swapped into the running batch; or else by the accident that the
      server's loop has not yet finished the round of its removal. */
  lemma QueuedAliveIff(n: nat, before: seq<Step>, l: nat, f: Functor, steps: seq<Step>)
    requires Reachable(n, before) && Enabled(Run(Start(n), before), Post(l, f))
    requires var s := Run(Start(n), before);
             && CanRun(Next(s, Post(l, f)), steps) && Executions(steps, l) == Waiting(s.loops[l])
             && Enabled(Run(Next(s, Post(l, f)), steps), Execute(l))
    ensures var s := Run(Start(n), before);
            var u := Run(Next(s, Post(l, f)), steps);
            && u.loops[l].batch[u.loops[l].done] == f
            && (Alive(u, f.conn) <==> !Doomed(s, l, f.conn) || RemoveConnection(f.conn) in u.loops[0].batch)
  {
    var s := Run(Start(n), before);
    var t := Next(s, Post(l, f));
    ReachableFullInv(n, before);
    QueuedAtEnd(s, l, f);
    StepKeepsFullInv(s, Post(l, f));
    RunKeepsWaiting(t, steps, l, f, f.conn, Doomed(s, l, f.conn));
    RunKeepsFullInv(t, steps);
    AtExecution(Run(t, steps), l, f, f.conn, Doomed(s, l, f.conn));
  }
}
