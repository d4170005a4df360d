/** EventLoop.cpp as an object: the queue, the flags and the eventfd. Every method is tied to steps of
    `LoopMachine`, so what is proved there covers it. */
module EventLoops {
  import opened LoopMachine
  import opened Pollers

  /** The thread that makes a call: the loop's own, or another. */
  datatype Thread = Own | Other(id: nat)

  /** A call on the loop. */
  datatype Action<F> = Queue(f: F, caller: Thread) | AskToQuit(caller: Thread)

  /** `queueInLoop`: the loop's own thread writes the eventfd only once functors have been run. */
  function QueueSteps<F>(calling: bool, f: F, caller: Thread): seq<Step<F>> {
    match caller
    case Own => if calling then [SelfPush(f), SelfWrite] else [SelfPush(f)]
    case Other(t) => [Push(t, f), Write(t)]
  }

  function QuitSteps<F>(caller: Thread): seq<Step<F>> {
    match caller
    case Own => [SelfQuit]
    case Other(t) => [AskQuit(t), Write(t)]
  }

  function ActionSteps<F>(calling: bool, a: Action<F>): seq<Step<F>> {
    match a
    case Queue(f, caller) => QueueSteps(calling, f, caller)
    case AskToQuit(caller) => QuitSteps(caller)
  }

  function ScriptSteps<F>(calling: bool, script: seq<Action<F>>): seq<Step<F>> {
    if script == [] then []
    else ScriptSteps(calling, script[..|script| - 1]) + ActionSteps(calling, script[|script| - 1])
  }

  function PushedBy<F>(script: seq<Action<F>>): seq<F> {
    if script == [] then []
    else PushedBy(script[..|script| - 1])
         + (if script[|script| - 1].Queue? then [script[|script| - 1].f] else [])
  }

  predicate Quits<F>(script: seq<Action<F>>) {
    script != [] && (Quits(script[..|script| - 1]) || script[|script| - 1].AskToQuit?)
  }

  predicate AllForeign<F>(script: seq<Action<F>>) {
    forall i :: 0 <= i < |script| ==> script[i].caller.Other?
  }

  /** Running n functors: `running(k)` is what the k-th one calls, and what other threads call before
      the next one starts. */
  function BatchSteps<F>(running: nat -> seq<Action<F>>, n: nat): seq<Step<F>> {
    if n == 0 then [] else BatchSteps(running, n - 1) + ([Execute] + ScriptSteps(true, running(n - 1)))
  }

  function RoundSteps<F>(running: nat -> seq<Action<F>>, n: nat): seq<Step<F>> {
    [Mark, Swap] + BatchSteps(running, n) + [EndRound]
  }

  function SpawnedBy<F>(running: nat -> seq<Action<F>>, n: nat): seq<F> {
    if n == 0 then [] else SpawnedBy(running, n - 1) + PushedBy(running(n - 1))
  }

  predicate QuitsWithin<F>(running: nat -> seq<Action<F>>, n: nat) {
    n > 0 && (QuitsWithin(running, n - 1) || Quits(running(n - 1)))
  }

  ghost predicate Reaches<F(!new)>(s: State<F>, steps: seq<Step<F>>, t: State<F>) {
    CanRun(s, steps) && Run(s, steps) == t
  }

  lemma ReachesMore<F(!new)>(s: State<F>, a: seq<Step<F>>, t: State<F>, b: seq<Step<F>>, u: State<F>)
    requires Reaches(s, a, t) && Reaches(t, b, u)
    ensures Reaches(s, a + b, u)
  {
    RunConcat(s, a, b);
  }

  lemma ReachesOne<F(!new)>(s: State<F>, step: Step<F>)
    requires Enabled(s, step)
    ensures Reaches(s, [step], Next(s, step))
  {
    RunSingle(s, step);
  }

  lemma ReachesTwo<F(!new)>(s: State<F>, a: Step<F>, b: Step<F>)
    requires Enabled(s, a) && Enabled(Next(s, a), b)
    ensures Reaches(s, [a, b], Next(Next(s, a), b))
  {
    RunSingle(s, a);
    RunSingle(Next(s, a), b);
    RunConcat(s, [a], [b]);
    assert [a] + [b] == [a, b];
  }

  lemma ReachesSound<F(!new)>(s: State<F>, steps: seq<Step<F>>, t: State<F>)
    requires Reaches(s, steps, t)
    ensures WakeInv(s) && FifoInv(s) ==> WakeInv(t) && FifoInv(t)
  {
    if WakeInv(s) && FifoInv(s) {
      RunKeepsWake(s, steps);
      ExactlyOnceInOrder(s, steps);
    }
  }

  /** The first n functors of a batch have run. */
  ghost predicate RanUpTo<F(!new)>(s: State<F>, t: State<F>, functors: seq<F>, running: nat -> seq<Action<F>>, n: nat)
    requires n <= |functors|
  {
    && t.pc == Running && t.calling && !t.selfWaking
    && t.batch == functors[n..] && t.executed == s.executed + functors[..n]
    && t.pending == s.pending + SpawnedBy(running, n)
    && t.quit == (s.quit || QuitsWithin(running, n))
  }

  lemma RanOneMore<F(!new)>(s: State<F>, t: State<F>, u: State<F>, functors: seq<F>,
                            running: nat -> seq<Action<F>>, n: nat)
    requires n < |functors| && RanUpTo(s, t, functors, running, n)
    requires u.pc == Running && u.calling && !u.selfWaking && u.batch == t.batch[1..]
    requires u.executed == t.executed + [functors[n]] && u.pending == t.pending + PushedBy(running(n))
    requires u.quit == (t.quit || Quits(running(n)))
    ensures RanUpTo(s, u, functors, running, n + 1)
  {
    assert functors[..n + 1] == functors[..n] + [functors[n]];
    assert functors[n + 1..] == functors[n..][1..];
  }

  lemma BatchGrows<F(!new)>(s: State<F>, t: State<F>, u: State<F>, running: nat -> seq<Action<F>>, n: nat)
    requires Reaches(s, BatchSteps(running, n), t)
    requires Reaches(t, [Execute] + ScriptSteps(true, running(n)), u)
    ensures Reaches(s, BatchSteps(running, n + 1), u)
  {
    ReachesMore(s, BatchSteps(running, n), t, [Execute] + ScriptSteps(true, running(n)), u);
  }

  /** What happens around one pass of the loop: what other threads call while it waits in `epoll_wait`;
      whether the wakeup channel fits into the event list; what is called while the active channels in
      front of the wakeup channel are handled, and those behind it; and what the functors call. */
  datatype Turn<F> = Turn(waiting: seq<Action<F>>, named: bool, early: seq<Action<F>>, late: seq<Action<F>>,
                          running: nat -> seq<Action<F>>)
  {
    /** What is queued by the time the queue is swapped. */
    function Arrivals(): seq<F> {
      PushedBy(waiting) + PushedBy(early) + PushedBy(late)
    }

    predicate AsksToQuit() {
      Quits(waiting) || Quits(early) || Quits(late)
    }
  }

  /** What holds whenever the loop thread is back at its test. */
  lemma Settled<F(!new)>(s: State<F>, steps: seq<Step<F>>, t: State<F>)
    requires s.pc == Before && !s.selfWaking && s.waking == {} && FifoInv(s)
    requires Reaches(Next(s, Enter), steps, t) && t.pc == Check
    ensures t.executed + t.pending == t.enqueued
    ensures !s.quitAsked && (s.pending == [] || s.counter > 0) ==>
              (t.pending != [] ==> Covered(t)) && (t.quitAsked ==> t.quit)
  {
    NextKeepsFifo(s, Enter);
    ExactlyOnceInOrder(Next(s, Enter), steps);
    assert t.batch == [] && t.executed + t.batch == t.executed;
    if !s.quitAsked && (s.pending == [] || s.counter > 0) {
      RunKeepsWake(Next(s, Enter), steps);
    }
  }

  class EventLoop<F(!new)> {
    const poller: EpollPoller
    var pendingFunctors: seq<F>
    var eventfd: nat
    var quit: bool
    var callingPendingFunctors: bool
    /** The wakeup channel is in the active list and has not been handled. */
    var wakeReady: bool
    /** Where the loop thread is, and what it has seen: see `LoopMachine.State`. */
    ghost var pc: Pc
    ghost var batch: seq<F>
    ghost var enqueued: seq<F>
    ghost var executed: seq<F>
    ghost var quitAsked: bool

    /** No call is in progress, so no thread is between its change and its eventfd write. */
    ghost function View(): State<F>
      reads this
    {
      State(pc, pendingFunctors, batch, eventfd, quit, callingPendingFunctors, wakeReady, false, {},
            enqueued, executed, quitAsked)
    }

    /** What the wakeup and the order theorems of `LoopMachine` start from. */
    ghost predicate Sound()
      reads this
    {
      WakeInv(View()) && FifoInv(View())
    }

    /** Once functors have been run, whatever is queued is covered by a readable eventfd. While the active
        channels are handled it need not be, since the queue is run right after them. */
    predicate Covers()
      reads this
    {
      callingPendingFunctors && |pendingFunctors| > 0 ==> eventfd > 0
    }

    constructor ()
      ensures View() == Start() && fresh(poller) && poller.Valid() && poller.known == {}
    {
      poller := new EpollPoller();
      pendingFunctors, eventfd, quit, callingPendingFunctors := [], 0, false, false;
      pc, batch, wakeReady, enqueued, executed, quitAsked := Before, [], false, [], [], false;
    }

    method Wakeup()
      modifies this`eventfd
      ensures eventfd == Bumped(old(eventfd))
      ensures eventfd == if old(eventfd) < 0xFFFF_FFFF_FFFF_FFFE then old(eventfd) + 1 else old(eventfd)
    {
      if eventfd < COUNTER_MAX {
        eventfd := eventfd + 1;
      }
    }

    method HandleRead()
      requires Enabled(View(), ReadWakeup)
      modifies this`eventfd, this`wakeReady
      ensures View() == Next(old(View()), ReadWakeup) && eventfd == 0 && !wakeReady
    {
      eventfd := 0;
      wakeReady := false;
    }

    method QueueInLoop(f: F, caller: Thread)
      requires caller.Own? ==> UserCode(View())
      modifies this`pendingFunctors, this`eventfd, this`enqueued
      ensures Reaches(old(View()), QueueSteps(callingPendingFunctors, f, caller), View())
      ensures pendingFunctors == old(pendingFunctors) + [f] && enqueued == old(enqueued) + [f]
      ensures eventfd == (if caller.Other? || callingPendingFunctors then Bumped(old(eventfd)) else old(eventfd))
      ensures caller.Other? || callingPendingFunctors ==> eventfd > 0
      ensures old(Covers()) ==> Covers()
      ensures old(Sound()) ==> Sound()
    {
      ghost var s := View();
      pendingFunctors := pendingFunctors + [f];
      enqueued := enqueued + [f];
      if caller.Other? || callingPendingFunctors {
        Wakeup();
      }
      if caller.Other? {
        ReachesTwo(s, Push(caller.id, f), Write(caller.id));
        assert s.waking + {caller.id} - {caller.id} == {};
      } else if callingPendingFunctors {
        ReachesTwo(s, SelfPush(f), SelfWrite);
      } else {
        ReachesOne(s, SelfPush(f));
      }
      ReachesSound(s, QueueSteps(callingPendingFunctors, f, caller), View());
    }

    method Quit(caller: Thread)
      requires caller.Own? ==> UserCode(View())
      modifies this`quit, this`quitAsked, this`eventfd
      ensures Reaches(old(View()), QuitSteps(caller), View())
      ensures quit && eventfd == (if caller.Other? then Bumped(old(eventfd)) else old(eventfd))
    {
      ghost var s := View();
      quit := true;
      quitAsked := true;
      if caller.Other? {
        Wakeup();
        ReachesTwo(s, AskQuit(caller.id), Write(caller.id));
        assert s.waking + {caller.id} - {caller.id} == {};
      } else {
        ReachesOne(s, SelfQuit);
      }
    }

    method Act(a: Action<F>)
      requires a.caller.Own? ==> UserCode(View())
      modifies this`pendingFunctors, this`eventfd, this`enqueued, this`quit, this`quitAsked
      ensures Reaches(old(View()), ActionSteps(callingPendingFunctors, a), View())
      ensures pendingFunctors == old(pendingFunctors) + (if a.Queue? then [a.f] else [])
      ensures quit == (old(quit) || a.AskToQuit?)
    {
      match a
      case Queue(f, caller) => QueueInLoop(f, caller);
      case AskToQuit(caller) => Quit(caller);
    }

    /** Calls made one after the other, by whatever threads. */
    method ActAll(script: seq<Action<F>>)
      requires AllForeign(script) || UserCode(View())
      modifies this`pendingFunctors, this`eventfd, this`enqueued, this`quit, this`quitAsked
      ensures Reaches(old(View()), ScriptSteps(callingPendingFunctors, script), View())
      ensures pendingFunctors == old(pendingFunctors) + PushedBy(script)
      ensures quit == (old(quit) || Quits(script))
    {
      ghost var s := View();
      for i := 0 to |script|
        invariant Reaches(s, ScriptSteps(callingPendingFunctors, script[..i]), View())
        invariant pendingFunctors == old(pendingFunctors) + PushedBy(script[..i])
        invariant quit == (old(quit) || Quits(script[..i]))
      {
        ghost var before := View();
        Act(script[i]);
        ReachesMore(s, ScriptSteps(callingPendingFunctors, script[..i]), before,
                    ActionSteps(callingPendingFunctors, script[i]), View());
        assert script[..i + 1][..i] == script[..i];
      }
      assert script[..|script|] == script;
    }

    /** `cb` runs at once on the loop's own thread, where `calls` is what it calls on the loop. */
    method RunInLoop(cb: F, caller: Thread, calls: seq<Action<F>>)
      requires caller.Own? ==> UserCode(View())
      modifies this`pendingFunctors, this`eventfd, this`enqueued, this`quit, this`quitAsked
      ensures caller.Own? ==>
                && Reaches(old(View()), ScriptSteps(callingPendingFunctors, calls), View())
                && pendingFunctors == old(pendingFunctors) + PushedBy(calls)
      ensures caller.Other? ==>
                && Reaches(old(View()), [Push(caller.id, cb), Write(caller.id)], View())
                && pendingFunctors == old(pendingFunctors) + [cb] && eventfd > 0
    {
      if caller.Own? {
        ActAll(calls);
      } else {
        QueueInLoop(cb, caller);
      }
    }

    method RunFunctor(ghost f: F, calls: seq<Action<F>>)
      requires Enabled(View(), Execute) && callingPendingFunctors && batch[0] == f
      modifies this`pendingFunctors, this`eventfd, this`enqueued, this`quit, this`quitAsked
      modifies this`executed, this`batch
      ensures Reaches(old(View()), [Execute] + ScriptSteps(true, calls), View())
      ensures pendingFunctors == old(pendingFunctors) + PushedBy(calls)
      ensures executed == old(executed) + [f] && batch == old(batch)[1..]
      ensures quit == (old(quit) || Quits(calls))
    {
      ghost var s := View();
      executed := executed + [f];
      batch := batch[1..];
      ReachesOne(s, Execute);
      ghost var started := View();
      ActAll(calls);
      ReachesMore(s, [Execute], started, ScriptSteps(true, calls), View());
    }

    method RunBatch(functors: seq<F>, running: nat -> seq<Action<F>>)
      requires pc == Running && callingPendingFunctors && batch == functors
      modifies this`pendingFunctors, this`eventfd, this`enqueued, this`quit, this`quitAsked
      modifies this`executed, this`batch
      ensures Reaches(old(View()), BatchSteps(running, |functors|), View())
      ensures RanUpTo(old(View()), View(), functors, running, |functors|)
    {
      ghost var s := View();
      for i := 0 to |functors|
        invariant Reaches(s, BatchSteps(running, i), View())
        invariant RanUpTo(s, View(), functors, running, i)
      {
        ghost var t := View();
        RunFunctor(functors[i], running(i));
        BatchGrows(s, t, View(), running, i);
        RanOneMore(s, t, View(), functors, running, i);
      }
    }

    /** The queue is swapped out first, so exactly what it held is run, even when functors queue
        functors and other threads keep queueing; those stay for the next round. */
    method DoPendingFunctors(running: nat -> seq<Action<F>>)
      requires Enabled(View(), Mark) && batch == []
      modifies this
      ensures Reaches(old(View()), RoundSteps(running, |old(pendingFunctors)|), View())
      ensures executed == old(executed) + old(pendingFunctors)
      ensures pendingFunctors == SpawnedBy(running, |old(pendingFunctors)|)
      ensures quit == (old(quit) || QuitsWithin(running, |old(pendingFunctors)|))
      ensures pc == Check && batch == []
    {
      ghost var s := View();
      var functors := SwapQueue();
      ghost var swapped := View();
      RunBatch(functors, running);
      ghost var ran := View();
      ReachesMore(s, [Mark, Swap], swapped, BatchSteps(running, |functors|), ran);
      pc := Check;
      ReachesOne(ran, EndRound);
      ReachesMore(s, [Mark, Swap] + BatchSteps(running, |functors|), ran, [EndRound], View());
    }

    /** The flag, then the swap under the lock. */
    method SwapQueue() returns (functors: seq<F>)
      requires Enabled(View(), Mark) && batch == []
      modifies this`callingPendingFunctors, this`pendingFunctors, this`pc, this`batch
      ensures Reaches(old(View()), [Mark, Swap], View())
      ensures pc == Running && callingPendingFunctors && batch == functors == old(pendingFunctors)
      ensures pendingFunctors == []
    {
      ghost var s := View();
      callingPendingFunctors := true;
      functors := pendingFunctors;
      pendingFunctors := [];
      pc, batch := Running, functors;
      ReachesTwo(s, Mark, Swap);
    }

    /** The time in `epoll_wait`; the wakeup channel is only reported while the eventfd is readable. */
    method Wait(turn: Turn<F>) returns (ghost steps: seq<Step<F>>)
      requires pc == Check && !quit && batch == [] && AllForeign(turn.waiting)
      modifies this
      ensures Reaches(old(View()), steps, View())
      ensures pc == Dispatching && batch == [] && wakeReady == (turn.named && eventfd > 0)
      ensures pendingFunctors == old(pendingFunctors) + PushedBy(turn.waiting) && executed == old(executed)
      ensures quit == Quits(turn.waiting)
    {
      ghost var s := View();
      pc := Polling;
      ReachesOne(s, CheckQuit);
      ghost var polling := View();
      ActAll(turn.waiting);
      ghost var waited := View();
      ghost var script := ScriptSteps(callingPendingFunctors, turn.waiting);
      ReachesMore(s, [CheckQuit], polling, script, waited);
      pc, wakeReady := Dispatching, turn.named && eventfd > 0;
      ReachesOne(waited, PollReturn(wakeReady));
      ReachesMore(s, [CheckQuit] + script, waited, [PollReturn(wakeReady)], View());
      steps := [CheckQuit] + script + [PollReturn(wakeReady)];
    }

    /** The active channels: the wakeup channel reads the eventfd, the others run user code. */
    method HandleActive(turn: Turn<F>) returns (ghost steps: seq<Step<F>>)
      requires pc == Dispatching
      modifies this`pendingFunctors, this`eventfd, this`enqueued, this`quit, this`quitAsked, this`wakeReady
      ensures Reaches(old(View()), steps, View()) && !wakeReady
      ensures pendingFunctors == old(pendingFunctors) + PushedBy(turn.early) + PushedBy(turn.late)
      ensures quit == (old(quit) || Quits(turn.early) || Quits(turn.late))
    {
      ghost var s := View();
      ActAll(turn.early);
      ghost var early := View();
      steps := ScriptSteps(callingPendingFunctors, turn.early);
      if wakeReady {
        HandleRead();
        ReachesOne(early, ReadWakeup);
        ReachesMore(s, steps, early, [ReadWakeup], View());
        steps := steps + [ReadWakeup];
      }
      ghost var read := View();
      ActAll(turn.late);
      ghost var late := ScriptSteps(callingPendingFunctors, turn.late);
      ReachesMore(s, steps, read, late, View());
      steps := steps + late;
    }

    /** One pass of the loop body: others act while the thread waits, the active channels are handled,
        then the queue is run. */
    method Iterate(turn: Turn<F>) returns (ghost steps: seq<Step<F>>)
      requires pc == Check && !quit && batch == [] && AllForeign(turn.waiting)
      modifies this
      ensures Reaches(old(View()), steps, View()) && pc == Check && batch == []
      ensures executed == old(executed) + (old(pendingFunctors) + turn.Arrivals())
      ensures pendingFunctors == SpawnedBy(turn.running, |old(pendingFunctors) + turn.Arrivals()|)
      ensures quit == (turn.AsksToQuit()
                       || QuitsWithin(turn.running, |old(pendingFunctors) + turn.Arrivals()|))
    {
      ghost var s := View();
      steps := Wait(turn);
      ghost var waited := View();
      ghost var handling := HandleActive(turn);
      ghost var handled := View();
      ReachesMore(s, steps, waited, handling, handled);
      assert pendingFunctors == old(pendingFunctors) + turn.Arrivals();
      DoPendingFunctors(turn.running);
      ghost var round := RoundSteps(turn.running, |handled.pending|);
      ReachesMore(s, steps + handling, handled, round, View());
      steps := steps + handling + round;
    }

    /** The loop itself, until a quit or the end of what the environment provides. */
    method Passes(turns: seq<Turn<F>>) returns (passes: nat, ghost steps: seq<Step<F>>)
      requires pc == Check && batch == []
      requires forall i :: 0 <= i < |turns| ==> AllForeign(turns[i].waiting)
      modifies this
      ensures Reaches(old(View()), steps, View()) && pc == Check
      ensures passes <= |turns| && (passes < |turns| ==> quit)
    {
      ghost var s := View();
      passes, steps := 0, [];
      while !quit && passes < |turns|
        invariant passes <= |turns| && pc == Check && batch == []
        invariant Reaches(s, steps, View())
      {
        ghost var before := View();
        ghost var pass := Iterate(turns[passes]);
        ReachesMore(s, steps, before, pass, View());
        steps := steps + pass;
        passes := passes + 1;
      }
    }

    method EnterLoop()
      requires pc == Before
      modifies this`pc, this`quit
      ensures View() == Next(old(View()), Enter) && Reaches(old(View()), [Enter], View())
    {
      ReachesOne(View(), Enter);
      quit := false;
      pc := Check;
    }

    method Leave() returns (ghost steps: seq<Step<F>>)
      requires pc == Check
      modifies this`pc
      ensures Reaches(old(View()), steps, View()) && pc == (if quit then Stopped else Check)
    {
      steps := [];
      if quit {
        pc := Stopped;
        ReachesOne(old(View()), CheckQuit);
        steps := [CheckQuit];
      }
    }

    /** `loop()`, over whatever turns its environment provides: a run of `LoopMachine`. Everything
        queued is run in order, except what is still queued at the end; and when nothing was queued
        without a wakeup and no quit asked for before, that has a wakeup pending and no quit is lost. */
    method Loop(turns: seq<Turn<F>>) returns (passes: nat, ghost steps: seq<Step<F>>)
      requires pc == Before && batch == [] && FifoInv(View())
      requires forall i :: 0 <= i < |turns| ==> AllForeign(turns[i].waiting)
      modifies this
      ensures Reaches(old(View()), [Enter] + steps, View())
      ensures passes <= |turns| && (passes < |turns| ==> quit) && pc == (if quit then Stopped else Check)
      ensures executed + pendingFunctors == enqueued
      ensures !old(quitAsked) && (old(pendingFunctors) == [] || old(eventfd) > 0) ==>
                (pendingFunctors != [] ==> eventfd > 0) && (quitAsked ==> quit)
    {
      ghost var s := View();
      EnterLoop();
      ghost var entered := View();
      passes, steps := Passes(turns);
      ReachesMore(s, [Enter], entered, steps, View());
      ghost var settled := View();
      Settled(s, steps, settled);
      ghost var leaving := Leave();
      ReachesMore(s, [Enter] + steps, settled, leaving, View());
      assert [Enter] + steps + leaving == [Enter] + (steps + leaving);
      steps := steps + leaving;
    }
  }
}
