/** EventLoop.cpp as an interleaving of one loop thread with any number of other threads.
    A thread's `queueInLoop` or `quit` is two steps: the change itself, then the eventfd write. */
module LoopMachine {
  /** The largest value an eventfd counter can hold; a non-blocking write beyond it fails. */
  const COUNTER_MAX: nat := 0xFFFF_FFFF_FFFF_FFFE

  /** Where the loop thread is: before `loop()`, at the `quit_` test, in `epoll_wait`, running the
      active channels, about to swap the queue, running the swapped batch, or out of the loop. */
  datatype Pc = Before | Check | Polling | Dispatching | Swapping | Running | Stopped

  datatype State<F> = State(
    pc: Pc,
    pending: seq<F>,
    batch: seq<F>,        // the rest of the swapped batch
    counter: nat,         // the eventfd
    quit: bool,
    calling: bool,        // callingPendingFunctors_: set once, never cleared
    wakeReady: bool,      // the wakeup channel is active and not yet handled
    selfWaking: bool,     // the loop thread is between a push and its eventfd write
    waking: set<nat>,     // other threads between a push or a quit and their eventfd write
    enqueued: seq<F>,     // every functor ever pushed, in lock order
    executed: seq<F>,     // every functor ever run, in order
    quitAsked: bool)      // quit() was called at some time

  function Start<F>(): State<F> {
    State(Before, [], [], 0, false, false, false, false, {}, [], [], false)
  }

  datatype Step<F> =
    | Push(thread: nat, f: F)
    | AskQuit(thread: nat)
    | Write(thread: nat)
    | SelfPush(f: F)
    | SelfWrite
    | SelfQuit
    | Enter
    | CheckQuit
    | PollReturn(wake: bool)
    | ReadWakeup
    | Mark
    | Swap
    | Execute
    | EndRound

  /** The loop thread runs user code, and is not inside `queueInLoop`. */
  predicate UserCode<F>(s: State<F>) {
    (s.pc == Before || s.pc == Dispatching || s.pc == Running) && !s.selfWaking
  }

  predicate Enabled<F>(s: State<F>, step: Step<F>) {
    match step
    case Push(t, _) => t !in s.waking
    case AskQuit(t) => t !in s.waking
    case Write(t) => t in s.waking
    case SelfPush(_) => UserCode(s)
    case SelfWrite => s.selfWaking
    case SelfQuit => UserCode(s)
    case Enter => s.pc == Before && !s.selfWaking
    case CheckQuit => s.pc == Check
    case PollReturn(wake) => s.pc == Polling && (wake ==> s.counter > 0)
    case ReadWakeup => s.pc == Dispatching && s.wakeReady && !s.selfWaking
    case Mark => s.pc == Dispatching && !s.wakeReady && !s.selfWaking
    case Swap => s.pc == Swapping
    case Execute => s.pc == Running && s.batch != [] && !s.selfWaking
    case EndRound => s.pc == Running && s.batch == [] && !s.selfWaking
  }

  function Bumped(counter: nat): nat {
    if counter < COUNTER_MAX then counter + 1 else counter
  }

  function Next<F>(s: State<F>, step: Step<F>): State<F>
    requires Enabled(s, step)
  {
    match step
    case Push(t, f) => s.(pending := s.pending + [f], enqueued := s.enqueued + [f], waking := s.waking + {t})
    case AskQuit(t) => s.(quit := true, quitAsked := true, waking := s.waking + {t})
    case Write(t) => s.(counter := Bumped(s.counter), waking := s.waking - {t})
    case SelfPush(f) => s.(pending := s.pending + [f], enqueued := s.enqueued + [f], selfWaking := s.calling)
    case SelfWrite => s.(counter := Bumped(s.counter), selfWaking := false)
    case SelfQuit => s.(quit := true, quitAsked := true)
    case Enter => s.(pc := Check, quit := false)
    case CheckQuit => s.(pc := if s.quit then Stopped else Polling)
    case PollReturn(wake) => s.(pc := Dispatching, wakeReady := wake)
    case ReadWakeup => s.(counter := 0, wakeReady := false)
    case Mark => s.(pc := Swapping, calling := true)
    case Swap => s.(pc := Running, batch := s.pending, pending := [])
    case Execute => s.(executed := s.executed + [s.batch[0]], batch := s.batch[1..])
    case EndRound => s.(pc := Check)
  }

  predicate CanRun<F(!new)>(s: State<F>, steps: seq<Step<F>>)
    decreases |steps|
  {
    steps == [] || (Enabled(s, steps[0]) && CanRun(Next(s, steps[0]), steps[1..]))
  }

  function Run<F(!new)>(s: State<F>, steps: seq<Step<F>>): State<F>
    requires CanRun(s, steps)
    decreases |steps|
  {
    if steps == [] then s else Run(Next(s, steps[0]), steps[1..])
  }

  lemma {:induction false} RunConcat<F(!new)>(s: State<F>, a: seq<Step<F>>, b: seq<Step<F>>)
    ensures CanRun(s, a + b) <==> CanRun(s, a) && CanRun(Run(s, a), b)
    ensures CanRun(s, a + b) ==> Run(s, a + b) == Run(Run(s, a), b)
    decreases |a|
  {
    if a == [] {
      assert a + b == b;
    } else {
      assert (a + b)[1..] == a[1..] + b;
      if Enabled(s, a[0]) {
        RunConcat(Next(s, a[0]), a[1..], b);
      }
    }
  }

  lemma RunSingle<F(!new)>(s: State<F>, step: Step<F>)
    ensures CanRun(s, [step]) <==> Enabled(s, step)
    ensures Enabled(s, step) ==> Run(s, [step]) == Next(s, step)
  {
    assert [step][1..] == [];
    if Enabled(s, step) {
      assert CanRun(Next(s, step), []) && Run(Next(s, step), []) == Next(s, step);
    }
  }

  /** Only pushes add to the history, and they add at its end. */
  lemma OnlyPushesEnqueue<F>(s: State<F>, step: Step<F>)
    requires Enabled(s, step)
    ensures Next(s, step).enqueued
         == s.enqueued + (if step.Push? || step.SelfPush? then [step.f] else [])
  {
  }

  lemma OnlyExecuteRuns<F>(s: State<F>, step: Step<F>)
    requires Enabled(s, step) && !step.Execute?
    ensures Next(s, step).executed == s.executed
  {
  }

  // ----- exactly once, in order -----

  ghost predicate FifoInv<F>(s: State<F>) {
    && s.executed + s.batch + s.pending == s.enqueued
    && (s.pc != Running ==> s.batch == [])
    && (s.pc == Swapping || s.pc == Running ==> s.calling)
    && (s.selfWaking ==> s.pc == Before || s.pc == Dispatching || s.pc == Running)
  }

  lemma NextKeepsFifo<F>(s: State<F>, step: Step<F>)
    requires FifoInv(s) && Enabled(s, step)
    ensures FifoInv(Next(s, step))
  {
    var t := Next(s, step);
    match step
    case Push(_, f) => assert t.executed + t.batch + t.pending == s.executed + s.batch + s.pending + [f];
    case SelfPush(f) => assert t.executed + t.batch + t.pending == s.executed + s.batch + s.pending + [f];
    case Execute => assert [s.batch[0]] + s.batch[1..] == s.batch;
                    assert t.executed + t.batch == s.executed + s.batch;
    case Swap => assert t.executed + t.batch + t.pending == s.executed + s.batch + s.pending;
    case _ =>
  }

  /** Functors run exactly once and in lock order, for any interleaving: those already run, the rest
      of the batch and the queue always make up the whole history. */
  lemma {:induction false} ExactlyOnceInOrder<F(!new)>(s: State<F>, steps: seq<Step<F>>)
    requires FifoInv(s) && CanRun(s, steps)
    ensures var t := Run(s, steps); FifoInv(t) && t.executed <= t.enqueued && s.executed <= t.executed
    decreases |steps|
  {
    assert s.executed <= s.executed + s.batch + s.pending;
    if steps == [] {
    } else {
      NextKeepsFifo(s, steps[0]);
      ExactlyOnceInOrder(Next(s, steps[0]), steps[1..]);
    }
  }

  /** Until the round ends, what was run and what is left of the batch stay the same together,
      whatever the functors and other threads push meanwhile. */
  lemma {:induction false} RoundKeepsTotal<F(!new)>(s: State<F>, steps: seq<Step<F>>)
    requires s.pc == Running && CanRun(s, steps) && EndRound !in steps
    ensures var t := Run(s, steps);
            t.pc == Running && t.executed + t.batch == s.executed + s.batch
    decreases |steps|
  {
    if steps == [] {
    } else {
      var t := Next(s, steps[0]);
      if steps[0].Execute? {
        assert [s.batch[0]] + s.batch[1..] == s.batch;
        assert t.executed + t.batch == s.executed + s.batch;
      }
      assert EndRound !in steps[1..];
      RoundKeepsTotal(t, steps[1..]);
    }
  }

  /** One round runs exactly the functors that were queued when it swapped: those pushed during the
      round, by its own functors or by other threads, wait for the next. */
  lemma RoundRunsSwappedBatch<F(!new)>(s: State<F>, steps: seq<Step<F>>)
    requires FifoInv(s) && s.pc == Swapping && EndRound !in steps
    requires CanRun(s, [Swap] + steps + [EndRound])
    ensures var t := Run(s, [Swap] + steps + [EndRound]);
            t.executed == s.executed + s.pending && t.pc == Check && t.batch == []
  {
    RunConcat(s, [Swap] + steps, [EndRound]);
    RunConcat(s, [Swap], steps);
    var a := Next(s, Swap);
    RunSingle(s, Swap);
    RoundKeepsTotal(a, steps);
    var b := Run(a, steps);
    RunSingle(b, EndRound);
  }

  // ----- no lost wakeup, no lost quit -----

  /** Something will make `epoll_wait` return: the eventfd is readable, or a write is on its way. */
  predicate Covered<F>(s: State<F>) {
    s.counter > 0 || s.waking != {} || s.selfWaking
  }

  ghost predicate WakeInv<F>(s: State<F>) {
    && (s.pc == Swapping || s.pc == Running ==> s.calling)
    && (s.selfWaking ==> s.pc == Dispatching || s.pc == Running)
    && (s.pc == Check || s.pc == Polling || s.pc == Running ==> s.pending != [] ==> Covered(s))
    && (s.pc == Polling && s.quit ==> Covered(s))
    && (s.quitAsked ==> s.quit)
    && s.pc != Before
  }

  lemma NextKeepsWake<F>(s: State<F>, step: Step<F>)
    requires WakeInv(s) && Enabled(s, step)
    ensures WakeInv(Next(s, step))
  {
  }

  lemma {:induction false} RunKeepsWake<F(!new)>(s: State<F>, steps: seq<Step<F>>)
    requires WakeInv(s) && CanRun(s, steps)
    ensures WakeInv(Run(s, steps))
    decreases |steps|
  {
    if steps == [] {
    } else {
      NextKeepsWake(s, steps[0]);
      RunKeepsWake(Next(s, steps[0]), steps[1..]);
    }
  }

  // ----- a wakeup is used up, and a quit is obeyed -----

  /** No thread queues a functor or asks for a quit. */
  predicate Silent<F>(step: Step<F>) {
    !step.Push? && !step.SelfPush? && !step.AskQuit?
  }

  /** Reading the eventfd uses the wakeup up: until somebody queues something or asks for a quit, the
      wakeup channel is not reported again, so an idle loop sleeps. */
  lemma {:induction false} AsleepWhileSilent<F(!new)>(s: State<F>, steps: seq<Step<F>>)
    requires s.counter == 0 && s.waking == {} && !s.selfWaking && CanRun(s, steps)
    requires forall i :: 0 <= i < |steps| ==> Silent(steps[i])
    ensures Run(s, steps).counter == 0 && PollReturn(true) !in steps
    decreases |steps|
  {
    if steps == [] {
    } else {
      assert Silent(steps[0]);
      assert forall i :: 0 <= i < |steps[1..]| ==> steps[1..][i] == steps[i + 1];
      AsleepWhileSilent(Next(s, steps[0]), steps[1..]);
    }
  }

  lemma WakeupIsUsedUp<F(!new)>(s: State<F>, steps: seq<Step<F>>)
    requires Enabled(s, ReadWakeup) && s.waking == {}
    requires CanRun(Next(s, ReadWakeup), steps) && forall i :: 0 <= i < |steps| ==> Silent(steps[i])
    ensures Run(Next(s, ReadWakeup), steps).counter == 0 && PollReturn(true) !in steps
  {
    AsleepWhileSilent(Next(s, ReadWakeup), steps);
  }

  /** While the eventfd is readable a waiting loop can be woken, and only then. */
  lemma ReadableIffWoken<F>(s: State<F>)
    requires s.pc == Polling
    ensures Enabled(s, PollReturn(true)) <==> s.counter > 0
  {
  }

  function Rounds<F>(steps: seq<Step<F>>): nat {
    if steps == [] then 0 else if steps[0].EndRound? then Rounds(steps[1..]) + 1 else Rounds(steps[1..])
  }

  /** A quit is obeyed: once the flag is set the loop finishes at most the pass it is in, and at its test
      it stops and runs nothing more, whatever is queued. */
  lemma {:induction false} QuitWithinOnePass<F(!new)>(s: State<F>, steps: seq<Step<F>>)
    requires s.quit && s.pc != Before && CanRun(s, steps)
    ensures Rounds(steps) <= if s.pc == Check || s.pc == Stopped then 0 else 1
    ensures s.pc == Check || s.pc == Stopped ==> Run(s, steps).executed == s.executed
    ensures s.pc == Check && CheckQuit in steps ==> Run(s, steps).pc == Stopped
    ensures s.pc == Stopped ==> Run(s, steps).pc == Stopped
    decreases |steps|
  {
    if steps == [] {
    } else {
      QuitWithinOnePass(Next(s, steps[0]), steps[1..]);
    }
  }

  /** A loop in `epoll_wait` with work or a quit waiting is going to be woken, and a quit that was
      asked for is still set. */
  predicate NothingLost<F>(s: State<F>) {
    && (s.pc == Polling && (s.pending != [] || s.quit) ==> s.counter > 0 || s.waking != {})
    && (s.pc != Before && s.quitAsked ==> s.quit)
  }

  /** Nothing is ever lost after `loop()` is entered, for any number of threads and any
      interleaving, exactly when no quit came before and no functor is queued without a wakeup. */
  lemma NothingLostIff<F(!new)>(s: State<F>)
    requires s.pc == Before && !s.selfWaking
    ensures (forall steps :: CanRun(Next(s, Enter), steps) ==> NothingLost(Run(Next(s, Enter), steps)))
       <==> !s.quitAsked && (s.pending == [] || s.counter > 0 || s.waking != {})
  {
    var e := Next(s, Enter);
    if !s.quitAsked && (s.pending == [] || s.counter > 0 || s.waking != {}) {
      forall steps | CanRun(e, steps)
        ensures NothingLost(Run(e, steps))
      {
        RunKeepsWake(e, steps);
      }
    } else {
      var none: seq<Step<F>> := [];
      var check: seq<Step<F>> := [CheckQuit];
      RunSingle(e, CheckQuit);
      if s.quitAsked {
        assert CanRun(e, none) && !NothingLost(Run(e, none));
      } else {
        assert CanRun(e, check) && !NothingLost(Run(e, check));
      }
    }
  }

  /** The first `queueInLoop` of the loop thread itself, made before `loop()`, writes no wakeup. */
  lemma PushBeforeLoopIsNotWoken<F(!new)>(f: F)
    ensures var steps := [SelfPush(f), Enter, CheckQuit];
            CanRun(Start(), steps) && !NothingLost(Run(Start(), steps))
  {
    var s0: State<F> := Start();
    var steps := [SelfPush(f), Enter, CheckQuit];
    var s1 := Next(s0, steps[0]);
    var s2 := Next(s1, steps[1]);
    var s3 := Next(s2, steps[2]);
    assert steps[1..] == [steps[1], steps[2]] && steps[1..][1..] == [steps[2]] && [steps[2]][1..] == [];
    assert CanRun(s3, []) && CanRun(s2, [steps[2]]) && CanRun(s1, [steps[1], steps[2]]);
    assert Run(s0, steps) == Run(s1, [steps[1], steps[2]]) == Run(s2, [steps[2]]) == Run(s3, []) == s3;
  }

  /** A quit asked for before `loop()` is cleared on entry. */
  lemma QuitBeforeLoopIsLost<F(!new)>()
    ensures var steps: seq<Step<F>> := [SelfQuit, Enter];
            CanRun(Start(), steps) && !NothingLost(Run(Start(), steps))
  {
    var s: State<F> := Start();
    RunSingle(s, SelfQuit);
    RunSingle(Next(s, SelfQuit), Enter);
    var first: seq<Step<F>> := [SelfQuit];
    RunConcat(s, first, [Enter]);
    assert first + [Enter] == [SelfQuit, Enter];
  }
}
