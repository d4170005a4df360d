/** A complete life on a single loop: accepted, dispatched, closed, removed, destroyed and freed. */
module TeardownWitness {
  import opened Tasks
  import opened Phases
  import opened Registration
  import opened Teardown

  lemma RunStep(s: Server, step: Step, t: Server, rest: seq<Step>)
    requires Enabled(s, step) && Next(s, step) == t && CanRun(t, rest)
    ensures CanRun(s, [step] + rest) && Run(s, [step] + rest) == Run(t, rest)
  {
    assert ([step] + rest)[1..] == rest;
  }

  const UP: Loop := IDLE.(channels := map[7 := 1], kernel := map[7 := 1])
  const DOWN: Loop := IDLE.(channels := map[7 := 1])
  const HANDLING: Loop := UP.(stage := Dispatching, active := [1], handling := true)
  const DESTROY: Functor := ConnectDestroyed(1)

  function One(l: Loop, phase: Phase, index: Index): Server {
    Server([l], map[1 := Rec(0, 7, phase, index)], if phase == Disconnected then {} else {1}, 2)
  }

  /** The functor phase destroys the closed connection. */
  lemma DestroyRound(steps: seq<Step>)
    requires steps == [Execute(0)] + ([EndRound(0)] + [])
    ensures var s := One(DOWN.(stage := Running, batch := [DESTROY]), Disconnected, Deleted);
            CanRun(s, steps) && Run(s, steps) == One(IDLE, Disconnected, New)
  {
    var s9 := One(DOWN.(stage := Running, batch := [DESTROY]), Disconnected, Deleted);
    var s10 := One(IDLE.(stage := Running, batch := [DESTROY], done := 1), Disconnected, New);
    var s11 := One(IDLE, Disconnected, New);
    assert Next(s10, EndRound(0)).loops == s11.loops;
    RunStep(s10, EndRound(0), s11, []);
    assert DOWN.channels - {7} == map[];
    assert Next(s9, Execute(0)).loops == s10.loops && Next(s9, Execute(0)).conns == s10.conns;
    RunStep(s9, Execute(0), s10, [EndRound(0)] + []);
  }

  const CLOSED: Loop := DOWN.(stage := Dispatching, active := [1], handling := true, pending := [DESTROY])

  lemma CloseStep()
    ensures var s := One(HANDLING, Connected, Added);
            Enabled(s, Close(0)) && Next(s, Close(0)) == One(CLOSED, Disconnected, Deleted)
  {
    var s := One(HANDLING, Connected, Added);
    var t := Closed(s, 1);
    assert UP.kernel - {7} == map[] && {1} - {1} == {} && HANDLING.pending + [DESTROY] == [DESTROY];
    assert t.loops == [HANDLING.(kernel := map[])];
    assert RemovedInLoop(t, 1).loops == [CLOSED];
    assert RemovedInLoop(t, 1).conns == One(CLOSED, Disconnected, Deleted).conns;
  }

  /** From a dispatched connection to one that nothing owns. */
  lemma CloseToGone(rest: seq<Step>, steps: seq<Step>)
    requires rest == [Execute(0)] + ([EndRound(0)] + [])
    requires steps == [Close(0)] + ([EndHandle(0)] + ([Swap(0)] + rest))
    ensures var s := One(HANDLING, Connected, Added);
            CanRun(s, steps) && Run(s, steps) == One(IDLE, Disconnected, New)
  {
    var s6 := One(HANDLING, Connected, Added);
    var s7 := One(CLOSED, Disconnected, Deleted);
    var s8 := One(DOWN.(stage := Dispatching, pending := [DESTROY]), Disconnected, Deleted);
    var s9 := One(DOWN.(stage := Running, batch := [DESTROY]), Disconnected, Deleted);
    DestroyRound(rest);
    assert Next(s8, Swap(0)).loops == s9.loops;
    RunStep(s8, Swap(0), s9, rest);
    assert CLOSED.active[1..] == [];
    assert Next(s7, EndHandle(0)).loops == s8.loops;
    RunStep(s7, EndHandle(0), s8, [Swap(0)] + rest);
    CloseStep();
    RunStep(s6, Close(0), s7, [EndHandle(0)] + ([Swap(0)] + rest));
  }

  lemma UpToHandling(rest: seq<Step>, steps: seq<Step>)
    requires CanRun(One(HANDLING, Connected, Added), rest)
    requires steps == [Poll(0, [1])] + ([Handle(0)] + rest)
    ensures var s := One(UP, Connected, Added);
            CanRun(s, steps) && Run(s, steps) == Run(One(HANDLING, Connected, Added), rest)
  {
    var s4 := One(UP, Connected, Added);
    var s5 := One(UP.(stage := Dispatching, active := [1]), Connected, Added);
    var s6 := One(HANDLING, Connected, Added);
    assert Alive(s5, 1);
    assert Next(s5, Handle(0)) == s6;
    RunStep(s5, Handle(0), s6, rest);
    assert 7 in UP.kernel && UP.kernel[7] == 1;
    assert Next(s4, Poll(0, [1])) == s5;
    RunStep(s4, Poll(0, [1]), s5, [Handle(0)] + rest);
  }

  lemma AcceptStep()
    ensures var s := Server([IDLE.(stage := Dispatching)], map[], {}, 1);
            && Enabled(s, Accept(7, 0))
            && Next(s, Accept(7, 0)) == One(UP.(stage := Dispatching), Connected, Added)
  {
    assert map[7 := 1] == map[][7 := 1];
  }

  lemma EmptyRound(rest: seq<Step>)
    requires CanRun(One(UP, Connected, Added), rest)
    ensures var s := One(UP.(stage := Dispatching), Connected, Added);
            var steps := [Swap(0)] + ([EndRound(0)] + rest);
            CanRun(s, steps) && Run(s, steps) == Run(One(UP, Connected, Added), rest)
  {
    var s2 := One(UP.(stage := Dispatching), Connected, Added);
    var s3 := One(UP.(stage := Running), Connected, Added);
    var s4 := One(UP, Connected, Added);
    assert Next(s3, EndRound(0)).loops == s4.loops;
    RunStep(s3, EndRound(0), s4, rest);
    assert Next(s2, Swap(0)).loops == s3.loops;
    RunStep(s2, Swap(0), s3, [EndRound(0)] + rest);
  }

  lemma AcceptToUp(rest: seq<Step>, steps: seq<Step>)
    requires CanRun(One(UP, Connected, Added), rest)
    requires steps == [Poll(0, [])] + ([Accept(7, 0)] + ([Swap(0)] + ([EndRound(0)] + rest)))
    ensures CanRun(Start(1), steps) && Run(Start(1), steps) == Run(One(UP, Connected, Added), rest)
  {
    var s0 := Start(1);
    var s1 := Server([IDLE.(stage := Dispatching)], map[], {}, 1);
    var s2 := One(UP.(stage := Dispatching), Connected, Added);
    var r2 := [Swap(0)] + ([EndRound(0)] + rest);
    EmptyRound(rest);
    AcceptStep();
    RunStep(s1, Accept(7, 0), s2, r2);
    assert s0.loops == [IDLE];
    assert Next(s0, Poll(0, [])) == s1;
    RunStep(s0, Poll(0, []), s1, [Accept(7, 0)] + r2);
  }

  lemma AcceptToHandling(rest: seq<Step>, steps: seq<Step>)
    requires CanRun(One(HANDLING, Connected, Added), rest)
    requires steps == [Poll(0, [])] + ([Accept(7, 0)] + ([Swap(0)] + ([EndRound(0)]
                      + ([Poll(0, [1])] + ([Handle(0)] + rest)))))
    ensures CanRun(Start(1), steps) && Run(Start(1), steps) == Run(One(HANDLING, Connected, Added), rest)
  {
    var up := [Poll(0, [1])] + ([Handle(0)] + rest);
    UpToHandling(rest, up);
    AcceptToUp(up, steps);
  }

  const TEARDOWN: seq<Step> :=
    [Close(0)] + ([EndHandle(0)] + ([Swap(0)] + ([Execute(0)] + ([EndRound(0)] + []))))

  const LIFE: seq<Step> :=
    [Poll(0, [])] + ([Accept(7, 0)] + ([Swap(0)] + ([EndRound(0)]
    + ([Poll(0, [1])] + ([Handle(0)] + TEARDOWN)))))

  /** The protocol does free connections: this run ends with one that existed and has no owner. */
  lemma SomeRunFreesAConnection()
    ensures CanRun(Start(1), LIFE) && 1 in Run(Start(1), LIFE).conns && !Alive(Run(Start(1), LIFE), 1)
  {
    CloseToGone([Execute(0)] + ([EndRound(0)] + []), TEARDOWN);
    AcceptToHandling(TEARDOWN, LIFE);
    GoneIsUnowned();
  }

  lemma GoneIsUnowned()
    ensures !Alive(One(IDLE, Disconnected, New), 1) && 1 in One(IDLE, Disconnected, New).conns
  {
  }

  const SEND: Functor := SendInLoop(1, [7], 9)

  const LATE_SEND: seq<Step> := [Post(0, SEND)] + ([Poll(0, [])] + ([Swap(0)] + []))

  lemma SendIsQueued()
    ensures var s, t := One(IDLE, Disconnected, New), One(IDLE.(pending := [SEND]), Disconnected, New);
            Enabled(s, Post(0, SEND)) && Next(s, Post(0, SEND)) == t
  {
    var s := One(IDLE, Disconnected, New);
    assert [] + [SEND] == [SEND] && Next(s, Post(0, SEND)).loops == [IDLE.(pending := [SEND])];
  }

  lemma SendAfterTeardown()
    ensures CanRun(One(IDLE, Disconnected, New), LATE_SEND)
    ensures var s := Run(One(IDLE, Disconnected, New), LATE_SEND);
            Enabled(s, Execute(0)) && s.loops[0].batch[s.loops[0].done] == SEND && !Alive(s, SEND.conn)
  {
    var s0 := One(IDLE, Disconnected, New);
    var s1 := One(IDLE.(pending := [SEND]), Disconnected, New);
    var s2 := One(IDLE.(stage := Dispatching, pending := [SEND]), Disconnected, New);
    var s3 := One(IDLE.(stage := Running, batch := [SEND]), Disconnected, New);
    SendIsQueued();
    assert Next(s1, Poll(0, [])).loops == s2.loops && Next(s2, Swap(0)).loops == s3.loops;
    RunStep(s2, Swap(0), s3, []);
    RunStep(s1, Poll(0, []), s2, [Swap(0)] + []);
    RunStep(s0, Post(0, SEND), s1, [Poll(0, [])] + ([Swap(0)] + []));
  }

  /** A sender that saw `kConnected`, is overtaken by the whole teardown and only then queues its functor:
      the loop comes to run it on a connection that nothing owns. */
  lemma LateSendFindsNoConnection()
    ensures CanRun(Start(1), LIFE + LATE_SEND)
    ensures var s := Run(Start(1), LIFE + LATE_SEND);
            Enabled(s, Execute(0)) && s.loops[0].batch[s.loops[0].done] == SEND && !Alive(s, SEND.conn)
  {
    CloseToGone([Execute(0)] + ([EndRound(0)] + []), TEARDOWN);
    AcceptToHandling(TEARDOWN, LIFE);
    SendAfterTeardown();
    RunConcat(Start(1), LIFE, LATE_SEND);
  }

  // ----- the same life on an I/O loop of its own -----

  function Two(server: Loop, io: Loop, phase: Phase, index: Index, known: bool): Server {
    Server([server, io], map[1 := Rec(1, 7, phase, index)], if known then {1} else {}, 2)
  }

  const ACCEPTING: Loop := IDLE.(stage := Dispatching)
  const ESTABLISH: Functor := ConnectEstablished(1)
  const REMOVE: Functor := RemoveConnection(1)

  const TO_IO: seq<Step> := [Accept(7, 1)] + ([Poll(1, [])] + ([Swap(1)] + []))
  const TO_UP: seq<Step> := [Execute(1)] + ([EndRound(1)] + ([Poll(1, [1])] + ([Handle(1)] + [])))
  const TO_DOWN: seq<Step> := [Close(1)] + ([EndHandle(1)] + ([Swap(0)] + []))
  const TO_REMOVED: seq<Step> := [Execute(0)] + ([EndRound(0)] + ([Swap(1)] + []))
  const TO_GONE: seq<Step> := [Execute(1)] + ([EndRound(1)] + [])

  const ESTABLISHING: Loop := IDLE.(stage := Running, batch := [ESTABLISH])
  const REMOVING: Loop := IDLE.(stage := Running, batch := [REMOVE])
  const DESTROYING: Loop := DOWN.(stage := Running, batch := [DESTROY])
  const CLOSING: Loop := DOWN.(stage := Dispatching)

  lemma HandedToIo()
    ensures var s := Server([ACCEPTING, IDLE], map[], {}, 1);
            CanRun(s, TO_IO) && Run(s, TO_IO) == Two(ACCEPTING, ESTABLISHING, Connecting, New, true)
  {
    var s1 := Server([ACCEPTING, IDLE], map[], {}, 1);
    var s2 := Two(ACCEPTING, IDLE.(pending := [ESTABLISH]), Connecting, New, true);
    var s3 := Two(ACCEPTING, IDLE.(stage := Dispatching, pending := [ESTABLISH]), Connecting, New, true);
    var s4 := Two(ACCEPTING, ESTABLISHING, Connecting, New, true);
    assert Next(s3, Swap(1)).loops == s4.loops;
    RunStep(s3, Swap(1), s4, []);
    assert Next(s2, Poll(1, [])).loops == s3.loops;
    RunStep(s2, Poll(1, []), s3, [Swap(1)] + []);
    assert [] + [ESTABLISH] == [ESTABLISH] && Next(s1, Accept(7, 1)).loops == s2.loops;
    assert Next(s1, Accept(7, 1)).conns == s2.conns;
    RunStep(s1, Accept(7, 1), s2, [Poll(1, [])] + ([Swap(1)] + []));
  }

  lemma EstablishedOnIo()
    ensures var s := Two(ACCEPTING, ESTABLISHING, Connecting, New, true);
            CanRun(s, TO_UP) && Run(s, TO_UP) == Two(ACCEPTING, HANDLING, Connected, Added, true)
  {
    var s4 := Two(ACCEPTING, ESTABLISHING, Connecting, New, true);
    var s5 := Two(ACCEPTING, UP.(stage := Running, batch := [ESTABLISH], done := 1), Connected, Added, true);
    var s6 := Two(ACCEPTING, UP, Connected, Added, true);
    var s7 := Two(ACCEPTING, UP.(stage := Dispatching, active := [1]), Connected, Added, true);
    var s8 := Two(ACCEPTING, HANDLING, Connected, Added, true);
    assert Alive(s7, 1);
    assert Next(s7, Handle(1)).loops == s8.loops;
    RunStep(s7, Handle(1), s8, []);
    assert 7 in UP.kernel && UP.kernel[7] == 1;
    assert Next(s6, Poll(1, [1])).loops == s7.loops;
    RunStep(s6, Poll(1, [1]), s7, [Handle(1)] + []);
    assert Next(s5, EndRound(1)).loops == s6.loops;
    RunStep(s5, EndRound(1), s6, [Poll(1, [1])] + ([Handle(1)] + []));
    assert Next(s4, Execute(1)).loops == s5.loops && Next(s4, Execute(1)).conns == s5.conns;
    RunStep(s4, Execute(1), s5, [EndRound(1)] + ([Poll(1, [1])] + ([Handle(1)] + [])));
  }

  lemma ClosedOnIo()
    ensures var s := Two(ACCEPTING, HANDLING, Connected, Added, true);
            CanRun(s, TO_DOWN) && Run(s, TO_DOWN) == Two(REMOVING, CLOSING, Disconnected, Deleted, true)
  {
    var s8 := Two(ACCEPTING, HANDLING, Connected, Added, true);
    var s9 := Two(ACCEPTING.(pending := [REMOVE]), HANDLING.(kernel := map[]), Disconnected, Deleted, true);
    var s10 := Two(ACCEPTING.(pending := [REMOVE]), CLOSING, Disconnected, Deleted, true);
    var s11 := Two(REMOVING, CLOSING, Disconnected, Deleted, true);
    assert Next(s10, Swap(0)).loops == s11.loops;
    RunStep(s10, Swap(0), s11, []);
    assert HANDLING.active[1..] == [] && Next(s9, EndHandle(1)).loops == s10.loops;
    RunStep(s9, EndHandle(1), s10, [Swap(0)] + []);
    assert UP.kernel - {7} == map[] && [] + [REMOVE] == [REMOVE];
    assert Next(s8, Close(1)).loops == s9.loops && Next(s8, Close(1)).conns == s9.conns;
    RunStep(s8, Close(1), s9, [EndHandle(1)] + ([Swap(0)] + []));
  }

  lemma RemovedByServer()
    ensures var s := Two(REMOVING, CLOSING, Disconnected, Deleted, true);
            CanRun(s, TO_REMOVED) && Run(s, TO_REMOVED) == Two(IDLE, DESTROYING, Disconnected, Deleted, false)
  {
    var s11 := Two(REMOVING, CLOSING, Disconnected, Deleted, true);
    var s12 := Two(REMOVING.(done := 1), CLOSING.(pending := [DESTROY]), Disconnected, Deleted, false);
    var s13 := Two(IDLE, CLOSING.(pending := [DESTROY]), Disconnected, Deleted, false);
    var s14 := Two(IDLE, DESTROYING, Disconnected, Deleted, false);
    assert Next(s13, Swap(1)).loops == s14.loops;
    RunStep(s13, Swap(1), s14, []);
    assert Next(s12, EndRound(0)).loops == s13.loops;
    RunStep(s12, EndRound(0), s13, [Swap(1)] + []);
    assert [] + [DESTROY] == [DESTROY] && {1} - {1} == {};
    assert Next(s11, Execute(0)).loops == s12.loops;
    RunStep(s11, Execute(0), s12, [EndRound(0)] + ([Swap(1)] + []));
  }

  lemma DestroyedOnIo()
    ensures var s := Two(IDLE, DESTROYING, Disconnected, Deleted, false);
            CanRun(s, TO_GONE) && Run(s, TO_GONE) == Two(IDLE, IDLE, Disconnected, New, false)
  {
    var s14 := Two(IDLE, DESTROYING, Disconnected, Deleted, false);
    var s15 := Two(IDLE, IDLE.(stage := Running, batch := [DESTROY], done := 1), Disconnected, New, false);
    var s16 := Two(IDLE, IDLE, Disconnected, New, false);
    assert Next(s15, EndRound(1)).loops == s16.loops;
    RunStep(s15, EndRound(1), s16, []);
    assert DOWN.channels - {7} == map[];
    assert Next(s14, Execute(1)).loops == s15.loops && Next(s14, Execute(1)).conns == s15.conns;
    RunStep(s14, Execute(1), s15, [EndRound(1)] + []);
  }

  const IO_LIFE: seq<Step> := [Poll(0, [])] + (TO_IO + (TO_UP + (TO_DOWN + (TO_REMOVED + TO_GONE))))

  /** A connection crosses to an I/O loop and back: established there by a queued functor, removed on the
      server's loop, destroyed on its own and freed. */
  lemma SomeRunCrossesLoops()
    ensures CanRun(Start(2), IO_LIFE)
    ensures var s := Run(Start(2), IO_LIFE);
            1 in s.conns && s.conns[1].loop == 1 && s.conns[1].phase == Disconnected && !Alive(s, 1)
  {
    DestroyedOnIo();
    RemovedByServer();
    RunConcat(Two(REMOVING, CLOSING, Disconnected, Deleted, true), TO_REMOVED, TO_GONE);
    ClosedOnIo();
    RunConcat(Two(ACCEPTING, HANDLING, Connected, Added, true), TO_DOWN, TO_REMOVED + TO_GONE);
    EstablishedOnIo();
    RunConcat(Two(ACCEPTING, ESTABLISHING, Connecting, New, true), TO_UP, TO_DOWN + (TO_REMOVED + TO_GONE));
    HandedToIo();
    var s1 := Server([ACCEPTING, IDLE], map[], {}, 1);
    RunConcat(s1, TO_IO, TO_UP + (TO_DOWN + (TO_REMOVED + TO_GONE)));
    assert Start(2).loops == [IDLE, IDLE] && Next(Start(2), Poll(0, [])).loops == s1.loops;
    RunStep(Start(2), Poll(0, []), s1, TO_IO + (TO_UP + (TO_DOWN + (TO_REMOVED + TO_GONE))));
    GoneFromBoth();
  }

  lemma GoneFromBoth()
    ensures !Alive(Two(IDLE, IDLE, Disconnected, New, false), 1)
  {
  }
}
