/** What every reachable state of the teardown protocol keeps, and what follows from it. */
module TeardownProofs {
  import opened Tasks
  import opened Phases
  import opened Registration
  import opened Teardown

  function Count(fs: seq<Functor>, f: Functor): nat {
    if fs == [] then 0 else (if fs[0] == f then 1 else 0) + Count(fs[1..], f)
  }

  /** How often a loop still has to run `f`. */
  function Left(l: Loop, f: Functor): nat {
    (if l.done <= |l.batch| then Count(l.batch[l.done..], f) else 0) + Count(l.pending, f)
  }

  predicate Closing(s: Server, c: ConnId) {
    c in s.conns && s.conns[c].phase == Disconnected && c in s.connections
  }

  predicate Removing(s: Server, c: ConnId) {
    c in s.conns && s.conns[c].phase == Disconnected && c !in s.connections && s.conns[c].index == Deleted
  }

  /** Every connection's next protocol functor is queued exactly once, on the right loop. */
  ghost predicate WorkOk(s: Server, l: nat, c: ConnId)
    requires l < |s.loops|
  {
    && Left(s.loops[l], ConnectEstablished(c))
       == (if c in s.conns && s.conns[c].loop == l && s.conns[c].phase == Connecting then 1 else 0)
    && Left(s.loops[l], RemoveConnection(c)) == (if l == 0 && Closing(s, c) then 1 else 0)
    && Left(s.loops[l], ConnectDestroyed(c)) == (if Removing(s, c) && s.conns[c].loop == l then 1 else 0)
  }

  /** `state_`, `index_`, the connection map and the poller's two maps agree. */
  ghost predicate ConnOk(s: Server, c: ConnId)
    requires c in s.conns
  {
    var r := s.conns[c];
    && c < s.nextId && r.loop < |s.loops|
    && (r.phase == Connecting ==> r.index == New && c in s.connections)
    && (r.phase == Connected || r.phase == Disconnecting ==> r.index == Added && c in s.connections)
    && (r.phase == Disconnected ==> r.index != Added && (r.index == New ==> c !in s.connections))
    && var l := s.loops[r.loop];
       && (r.index != New ==> r.fd in l.channels && l.channels[r.fd] == c)
       && (r.index == Added ==> r.fd in l.kernel && l.kernel[r.fd] == c)
  }

  /** Every pointer a poller holds is to a registered connection of that loop. */
  ghost predicate LoopOk(s: Server, i: nat)
    requires i < |s.loops|
  {
    var l := s.loops[i];
    && l.done <= |l.batch|
    && (l.stage != Running ==> l.batch == [])
    && (l.stage != Dispatching ==> l.active == [] && !l.handling)
    && (forall k :: 0 <= k < |l.active| ==> Registered(s, i, l.active[k]))
    && (forall fd :: fd in l.channels ==> Registered(s, i, l.channels[fd]) && s.conns[l.channels[fd]].fd == fd)
    && (forall fd :: fd in l.kernel ==>
          Registered(s, i, l.kernel[fd]) && s.conns[l.kernel[fd]].fd == fd
          && s.conns[l.kernel[fd]].index == Added)
  }

  ghost predicate Registered(s: Server, i: nat, c: ConnId) {
    c in s.conns && s.conns[c].loop == i && s.conns[c].index != New
  }

  predicate Gone(r: Rec) {
    r.phase == Disconnected && r.index == New
  }

  ghost predicate FdsDistinct(s: Server) {
    forall c, d :: c in s.conns && d in s.conns && c != d && !Gone(s.conns[c]) && !Gone(s.conns[d])
      ==> s.conns[c].fd != s.conns[d].fd
  }

  ghost predicate PollersOk(s: Server) {
    && |s.loops| > 0
    && (forall c :: c in s.connections ==> c in s.conns)
    && (forall c :: c in s.conns ==> ConnOk(s, c))
    && (forall i :: 0 <= i < |s.loops| ==> LoopOk(s, i))
    && FdsDistinct(s)
  }

  ghost predicate WorkQueued(s: Server) {
    forall i, c: ConnId :: 0 <= i < |s.loops| ==> WorkOk(s, i, c)
  }

  ghost predicate Inv(s: Server) {
    PollersOk(s) && WorkQueued(s)
  }

  lemma StartInv(n: nat)
    requires n > 0
    ensures Inv(Start(n))
  {
  }

  // ----- the queues -----

  /** Functors that are no part of the protocol itself. */
  predicate Notice(f: Functor) {
    f.WriteComplete? || f.HighWater? || f.SendInLoop? || f.ShutdownInLoop?
  }

  function Advanced(s: Server, i: nat): Server
    requires i < |s.loops|
  {
    WithLoop(s, i, s.loops[i].(done := s.loops[i].done + 1))
  }

  lemma {:induction false} CountSnoc(fs: seq<Functor>, g: Functor, f: Functor)
    ensures Count(fs + [g], f) == Count(fs, f) + (if f == g then 1 else 0)
    decreases |fs|
  {
    if fs == [] {
      assert [g][1..] == [];
      assert fs + [g] == [g];
    } else {
      assert (fs + [g])[1..] == fs[1..] + [g];
      CountSnoc(fs[1..], g, f);
    }
  }

  lemma {:induction false} CountedIsIn(fs: seq<Functor>, f: Functor)
    requires Count(fs, f) > 0
    ensures exists i :: 0 <= i < |fs| && fs[i] == f
    decreases |fs|
  {
    if fs[0] != f {
      CountedIsIn(fs[1..], f);
      var i :| 0 <= i < |fs[1..]| && fs[1..][i] == f;
      assert fs[i + 1] == f;
    }
  }

  lemma PushedLeft(s: Server, i: nat, g: Functor, j: nat, f: Functor)
    requires i < |s.loops| && j < |s.loops|
    ensures Left(Push(s, i, g).loops[j], f) == Left(s.loops[j], f) + (if j == i && f == g then 1 else 0)
  {
    if i == j {
      CountSnoc(s.loops[i].pending, g, f);
    }
  }

  lemma AdvancedLeft(s: Server, i: nat, j: nat, f: Functor)
    requires i < |s.loops| && j < |s.loops| && s.loops[i].done < |s.loops[i].batch|
    ensures var g := s.loops[i].batch[s.loops[i].done];
            Left(Advanced(s, i).loops[j], f) + (if j == i && f == g then 1 else 0) == Left(s.loops[j], f)
  {
    if i == j {
      var l := s.loops[i];
      assert l.batch[l.done..][1..] == l.batch[l.done + 1..];
    }
  }

  lemma LeftIsHeld(l: Loop, f: Functor)
    requires Left(l, f) > 0 && f.Owns()
    ensures HeldBy(l, f.conn)
  {
    if Count(l.pending, f) > 0 {
      CountedIsIn(l.pending, f);
    } else {
      CountedIsIn(l.batch[l.done..], f);
      var i :| 0 <= i < |l.batch[l.done..]| && l.batch[l.done..][i] == f;
      assert l.batch[l.done + i] == f;
    }
  }

  /** A connection that is not gone has a live owner. */
  lemma NotGoneIsAlive(s: Server, c: ConnId)
    requires Inv(s) && c in s.conns && !Gone(s.conns[c])
    ensures Alive(s, c)
  {
    assert ConnOk(s, c);
    if c !in s.connections {
      var i := s.conns[c].loop;
      assert Removing(s, c);
      assert LoopOk(s, i) && WorkOk(s, i, c);
      LeftIsHeld(s.loops[i], ConnectDestroyed(c));
    }
  }

  // ----- every step keeps the invariant -----

  /** A step of one loop that leaves its pollers alone and has the same functors left to run. */
  lemma LoopStepKeepsInv(s: Server, i: nat, l: Loop)
    requires Inv(s) && i < |s.loops|
    requires l.channels == s.loops[i].channels && l.kernel == s.loops[i].kernel
    requires l.done <= |l.batch| && forall f :: Left(l, f) == Left(s.loops[i], f)
    requires l.stage != Running ==> l.batch == []
    requires l.stage != Dispatching ==> l.active == [] && !l.handling
    requires forall k :: 0 <= k < |l.active| ==> Registered(s, i, l.active[k])
    ensures Inv(WithLoop(s, i, l))
  {
    var t := WithLoop(s, i, l);
    forall j | 0 <= j < |t.loops|
      ensures LoopOk(t, j)
    {
      assert LoopOk(s, j);
    }
    forall c | c in t.conns
      ensures ConnOk(t, c)
    {
      assert ConnOk(s, c);
    }
    forall j, c: ConnId | 0 <= j < |t.loops|
      ensures WorkOk(t, j, c)
    {
      assert WorkOk(s, j, c);
    }
  }

  lemma PollKeepsInv(s: Server, i: nat, active: seq<ConnId>)
    requires Inv(s) && Enabled(s, Poll(i, active))
    ensures Inv(Next(s, Poll(i, active)))
  {
    assert LoopOk(s, i);
    LoopStepKeepsInv(s, i, s.loops[i].(stage := Dispatching, active := active));
  }

  /** Dispatch always finds the connection alive, so its guard succeeds. */
  lemma HandleKeepsInv(s: Server, i: nat)
    requires Inv(s) && Enabled(s, Handle(i))
    ensures Inv(Next(s, Handle(i))) && Next(s, Handle(i)).loops[i].handling
  {
    var l := s.loops[i];
    assert LoopOk(s, i);
    assert Registered(s, i, l.active[0]);
    NotGoneIsAlive(s, l.active[0]);
    LoopStepKeepsInv(s, i, l.(handling := true));
  }

  lemma EndHandleKeepsInv(s: Server, i: nat)
    requires Inv(s) && Enabled(s, EndHandle(i))
    ensures Inv(Next(s, EndHandle(i)))
  {
    var l := s.loops[i];
    assert LoopOk(s, i);
    assert forall k :: 0 <= k < |l.active[1..]| ==> l.active[1..][k] == l.active[k + 1];
    LoopStepKeepsInv(s, i, l.(active := l.active[1..], handling := false));
  }

  lemma SwapKeepsInv(s: Server, i: nat)
    requires Inv(s) && Enabled(s, Swap(i))
    ensures Inv(Next(s, Swap(i)))
  {
    var l := s.loops[i];
    var m := l.(stage := Running, batch := l.pending, pending := [], done := 0);
    assert LoopOk(s, i);
    assert m.batch[0..] == l.pending && l.batch[l.done..] == [];
    LoopStepKeepsInv(s, i, m);
  }

  lemma EndRoundKeepsInv(s: Server, i: nat)
    requires Inv(s) && Enabled(s, EndRound(i))
    ensures Inv(Next(s, EndRound(i)))
  {
    assert LoopOk(s, i);
    LoopStepKeepsInv(s, i, s.loops[i].(stage := Polling, batch := [], done := 0));
  }

  lemma PostKeepsWork(s: Server, i: nat, f: Functor, j: nat, c: ConnId)
    requires i < |s.loops| && j < |s.loops| && WorkOk(s, j, c) && Notice(f)
    ensures WorkOk(Push(s, i, f), j, c)
  {
    PushedLeft(s, i, f, j, ConnectEstablished(c));
    PushedLeft(s, i, f, j, RemoveConnection(c));
    PushedLeft(s, i, f, j, ConnectDestroyed(c));
  }

  lemma PushKeepsPollers(s: Server, i: nat, f: Functor)
    requires i < |s.loops|
    ensures var t := Push(s, i, f);
            && (forall j :: 0 <= j < |s.loops| && LoopOk(s, j) ==> LoopOk(t, j))
            && (forall c :: c in s.conns && ConnOk(s, c) ==> ConnOk(t, c))
  {
  }

  lemma PostKeepsInv(s: Server, i: nat, f: Functor)
    requires Inv(s) && i < |s.loops| && Notice(f)
    ensures Inv(Push(s, i, f))
  {
    PushKeepsPollers(s, i, f);
    forall j, c: ConnId | 0 <= j < |s.loops|
      ensures WorkOk(Push(s, i, f), j, c)
    {
      PostKeepsWork(s, i, f, j, c);
    }
  }

  lemma HalfCloseKeepsInv(s: Server, d: ConnId)
    requires Inv(s) && Enabled(s, HalfClose(d))
    ensures Inv(Next(s, HalfClose(d)))
  {
    var t := Next(s, HalfClose(d));
    assert ConnOk(s, d);
    forall j | 0 <= j < |t.loops|
      ensures LoopOk(t, j)
    {
      assert LoopOk(s, j);
    }
    forall c | c in t.conns
      ensures ConnOk(t, c)
    {
      assert ConnOk(s, c);
    }
    forall j, c: ConnId | 0 <= j < |t.loops|
      ensures WorkOk(t, j, c)
    {
      assert WorkOk(s, j, c);
    }
  }

  // ----- the protocol's own steps -----

  lemma AdvancedKeepsPollers(s: Server, i: nat)
    requires PollersOk(s) && i < |s.loops| && s.loops[i].done < |s.loops[i].batch|
    ensures PollersOk(Advanced(s, i))
  {
    var t := Advanced(s, i);
    forall j | 0 <= j < |t.loops|
      ensures LoopOk(t, j)
    {
      assert LoopOk(s, j);
    }
    forall c | c in t.conns
      ensures ConnOk(t, c)
    {
      assert ConnOk(s, c);
    }
  }

  lemma EstablishedKeepsPollers(s: Server, c: ConnId)
    requires PollersOk(s) && c in s.conns && s.conns[c].phase == Connecting
    ensures PollersOk(Established(s, c))
  {
    var t := Established(s, c);
    assert ConnOk(s, c);
    forall d | d in t.conns
      ensures ConnOk(t, d)
    {
      assert ConnOk(s, d);
    }
    forall j | 0 <= j < |t.loops|
      ensures LoopOk(t, j)
    {
      assert LoopOk(s, j);
    }
  }

  lemma ClosedKeepsPollers(s: Server, c: ConnId)
    requires PollersOk(s) && c in s.conns
    requires s.conns[c].phase == Connected || s.conns[c].phase == Disconnecting
    ensures PollersOk(Closed(s, c))
  {
    var t := Closed(s, c);
    assert ConnOk(s, c);
    forall d | d in t.conns
      ensures ConnOk(t, d)
    {
      assert ConnOk(s, d);
    }
    forall j | 0 <= j < |t.loops|
      ensures LoopOk(t, j)
    {
      assert LoopOk(s, j);
    }
  }

  lemma RemovedKeepsPollers(s: Server, c: ConnId)
    requires PollersOk(s) && c in s.conns && s.conns[c].phase == Disconnected
    ensures PollersOk(RemovedInLoop(s, c))
  {
    var t := RemovedInLoop(s, c);
    assert ConnOk(s, c);
    forall d | d in t.conns
      ensures ConnOk(t, d)
    {
      assert ConnOk(s, d);
    }
    forall j | 0 <= j < |t.loops|
      ensures LoopOk(t, j)
    {
      assert LoopOk(s, j);
    }
  }

  lemma DestroyedKeepsPollers(s: Server, c: ConnId)
    requires PollersOk(s) && c in s.conns && Removing(s, c)
    requires s.conns[c].loop < |s.loops| && s.loops[s.conns[c].loop].active == []
    ensures PollersOk(Destroyed(s, c))
  {
    var t := Destroyed(s, c);
    assert ConnOk(s, c);
    forall d | d in t.conns
      ensures ConnOk(t, d)
    {
      assert ConnOk(s, d);
    }
    forall j | 0 <= j < |t.loops|
      ensures LoopOk(t, j)
    {
      assert LoopOk(s, j);
    }
  }

  lemma ExecutedLeft(s: Server, i: nat, j: nat, d: ConnId)
    requires i < |s.loops| && j < |s.loops| && s.loops[i].done < |s.loops[i].batch|
    ensures var f, l, m := s.loops[i].batch[s.loops[i].done], s.loops[j], Advanced(s, i).loops[j];
            && Left(m, ConnectEstablished(d)) + (if j == i && f == ConnectEstablished(d) then 1 else 0)
               == Left(l, ConnectEstablished(d))
            && Left(m, RemoveConnection(d)) + (if j == i && f == RemoveConnection(d) then 1 else 0)
               == Left(l, RemoveConnection(d))
            && Left(m, ConnectDestroyed(d)) + (if j == i && f == ConnectDestroyed(d) then 1 else 0)
               == Left(l, ConnectDestroyed(d))
  {
    AdvancedLeft(s, i, j, ConnectEstablished(d));
    AdvancedLeft(s, i, j, RemoveConnection(d));
    AdvancedLeft(s, i, j, ConnectDestroyed(d));
  }

  lemma QueuedLeft(s: Server, i: nat, g: Functor, j: nat, d: ConnId)
    requires i < |s.loops| && j < |s.loops|
    ensures var l, m := s.loops[j], Push(s, i, g).loops[j];
            && Left(m, ConnectEstablished(d))
               == Left(l, ConnectEstablished(d)) + (if j == i && g == ConnectEstablished(d) then 1 else 0)
            && Left(m, RemoveConnection(d))
               == Left(l, RemoveConnection(d)) + (if j == i && g == RemoveConnection(d) then 1 else 0)
            && Left(m, ConnectDestroyed(d))
               == Left(l, ConnectDestroyed(d)) + (if j == i && g == ConnectDestroyed(d) then 1 else 0)
  {
    PushedLeft(s, i, g, j, ConnectEstablished(d));
    PushedLeft(s, i, g, j, RemoveConnection(d));
    PushedLeft(s, i, g, j, ConnectDestroyed(d));
  }

  lemma EstablishWork(s: Server, i: nat, c: ConnId, j: nat, d: ConnId)
    requires i < |s.loops| && j < |s.loops| && WorkOk(s, j, d)
    requires s.loops[i].done < |s.loops[i].batch| && s.loops[i].batch[s.loops[i].done] == ConnectEstablished(c)
    requires c in s.conns && s.conns[c].loop == i && s.conns[c].phase == Connecting
    ensures WorkOk(Established(Advanced(s, i), c), j, d)
  {
    ExecutedLeft(s, i, j, d);
  }

  lemma EstablishDue(s: Server, i: nat, c: ConnId)
    requires Inv(s) && Enabled(s, Execute(i)) && s.loops[i].batch[s.loops[i].done] == ConnectEstablished(c)
    ensures c in s.conns && s.conns[c].loop == i && s.conns[c].phase == Connecting
  {
    AdvancedLeft(s, i, i, ConnectEstablished(c));
    assert WorkOk(s, i, c);
  }

  lemma EstablishKeepsInv(s: Server, i: nat, c: ConnId)
    requires Inv(s) && Enabled(s, Execute(i)) && s.loops[i].batch[s.loops[i].done] == ConnectEstablished(c)
    ensures Inv(Established(Advanced(s, i), c))
  {
    EstablishDue(s, i, c);
    EstablishKeepsPollers(s, i, c);
    EstablishKeepsWork(s, i, c);
  }

  lemma EstablishKeepsPollers(s: Server, i: nat, c: ConnId)
    requires PollersOk(s) && i < |s.loops| && s.loops[i].done < |s.loops[i].batch|
    requires c in s.conns && s.conns[c].loop == i && s.conns[c].phase == Connecting
    ensures PollersOk(Established(Advanced(s, i), c))
  {
    AdvancedKeepsPollers(s, i);
    EstablishedKeepsPollers(Advanced(s, i), c);
  }

  lemma EstablishKeepsWork(s: Server, i: nat, c: ConnId)
    requires Inv(s) && Enabled(s, Execute(i)) && s.loops[i].batch[s.loops[i].done] == ConnectEstablished(c)
    ensures WorkQueued(Established(Advanced(s, i), c))
  {
    EstablishDue(s, i, c);
    var t := Established(Advanced(s, i), c);
    forall j, d: ConnId | 0 <= j < |t.loops|
      ensures WorkOk(t, j, d)
    {
      assert WorkOk(s, j, d);
      EstablishWork(s, i, c, j, d);
    }
  }

  lemma RemoveWork(s: Server, i: nat, c: ConnId, j: nat, d: ConnId)
    requires i < |s.loops| && j < |s.loops| && WorkOk(s, j, d)
    requires s.loops[i].done < |s.loops[i].batch| && s.loops[i].batch[s.loops[i].done] == RemoveConnection(c)
    requires i == 0 && Closing(s, c) && s.conns[c].index == Deleted && s.conns[c].loop < |s.loops|
    ensures WorkOk(RemovedInLoop(Advanced(s, i), c), j, d)
  {
    ExecutedLeft(s, i, j, d);
    var a := Advanced(s, i);
    QueuedLeft(a.(connections := a.connections - {c}), s.conns[c].loop, ConnectDestroyed(c), j, d);
  }

  lemma RemovalDue(s: Server, i: nat, c: ConnId)
    requires Inv(s) && Enabled(s, Execute(i)) && s.loops[i].batch[s.loops[i].done] == RemoveConnection(c)
    ensures i == 0 && Closing(s, c) && s.conns[c].index == Deleted && s.conns[c].loop < |s.loops|
  {
    AdvancedLeft(s, i, i, RemoveConnection(c));
    assert WorkOk(s, i, c) && ConnOk(s, c);
  }

  lemma RemoveKeepsInv(s: Server, i: nat, c: ConnId)
    requires Inv(s) && Enabled(s, Execute(i)) && s.loops[i].batch[s.loops[i].done] == RemoveConnection(c)
    ensures Inv(RemovedInLoop(Advanced(s, i), c))
  {
    RemovalDue(s, i, c);
    RemoveKeepsPollers(s, i, c);
    RemoveKeepsWork(s, i, c);
  }

  lemma RemoveKeepsPollers(s: Server, i: nat, c: ConnId)
    requires PollersOk(s) && i < |s.loops| && s.loops[i].done < |s.loops[i].batch|
    requires c in s.conns && s.conns[c].phase == Disconnected
    ensures PollersOk(RemovedInLoop(Advanced(s, i), c))
  {
    AdvancedKeepsPollers(s, i);
    RemovedKeepsPollers(Advanced(s, i), c);
  }

  lemma RemoveKeepsWork(s: Server, i: nat, c: ConnId)
    requires Inv(s) && Enabled(s, Execute(i)) && s.loops[i].batch[s.loops[i].done] == RemoveConnection(c)
    ensures WorkQueued(RemovedInLoop(Advanced(s, i), c))
  {
    RemovalDue(s, i, c);
    var t := RemovedInLoop(Advanced(s, i), c);
    forall j, d: ConnId | 0 <= j < |t.loops|
      ensures WorkOk(t, j, d)
    {
      assert WorkOk(s, j, d);
      RemoveWork(s, i, c, j, d);
    }
  }

  lemma DestroyWork(s: Server, i: nat, c: ConnId, j: nat, d: ConnId)
    requires i < |s.loops| && j < |s.loops| && WorkOk(s, j, d)
    requires s.loops[i].done < |s.loops[i].batch| && s.loops[i].batch[s.loops[i].done] == ConnectDestroyed(c)
    requires Removing(s, c) && s.conns[c].loop == i
    ensures WorkOk(Destroyed(Advanced(s, i), c), j, d)
  {
    ExecutedLeft(s, i, j, d);
  }

  lemma DestructionDue(s: Server, i: nat, c: ConnId)
    requires Inv(s) && Enabled(s, Execute(i)) && s.loops[i].batch[s.loops[i].done] == ConnectDestroyed(c)
    ensures Removing(s, c) && s.conns[c].loop == i && s.loops[i].active == []
  {
    AdvancedLeft(s, i, i, ConnectDestroyed(c));
    assert WorkOk(s, i, c) && LoopOk(s, i);
  }

  lemma DestroyKeepsInv(s: Server, i: nat, c: ConnId)
    requires Inv(s) && Enabled(s, Execute(i)) && s.loops[i].batch[s.loops[i].done] == ConnectDestroyed(c)
    ensures Inv(Destroyed(Advanced(s, i), c))
  {
    DestructionDue(s, i, c);
    DestroyKeepsPollers(s, i, c);
    DestroyKeepsWork(s, i, c);
  }

  lemma DestroyKeepsPollers(s: Server, i: nat, c: ConnId)
    requires PollersOk(s) && i < |s.loops| && s.loops[i].done < |s.loops[i].batch|
    requires Removing(s, c) && s.conns[c].loop == i && s.loops[i].active == []
    ensures PollersOk(Destroyed(Advanced(s, i), c))
  {
    AdvancedKeepsPollers(s, i);
    DestroyedKeepsPollers(Advanced(s, i), c);
  }

  lemma DestroyKeepsWork(s: Server, i: nat, c: ConnId)
    requires Inv(s) && Enabled(s, Execute(i)) && s.loops[i].batch[s.loops[i].done] == ConnectDestroyed(c)
    ensures WorkQueued(Destroyed(Advanced(s, i), c))
  {
    DestructionDue(s, i, c);
    var t := Destroyed(Advanced(s, i), c);
    forall j, d: ConnId | 0 <= j < |t.loops|
      ensures WorkOk(t, j, d)
    {
      assert WorkOk(s, j, d);
      DestroyWork(s, i, c, j, d);
    }
  }

  lemma NoticeKeepsInv(s: Server, i: nat)
    requires Inv(s) && Enabled(s, Execute(i)) && Notice(s.loops[i].batch[s.loops[i].done])
    ensures Inv(Next(s, Execute(i)))
  {
    AdvancedKeepsPollers(s, i);
    forall j, d: ConnId | 0 <= j < |s.loops|
      ensures WorkOk(Advanced(s, i), j, d)
    {
      ExecutedLeft(s, i, j, d);
      assert WorkOk(s, j, d);
    }
  }

  lemma CloseWork(s: Server, i: nat, c: ConnId, j: nat, d: ConnId)
    requires i < |s.loops| && j < |s.loops| && WorkOk(s, j, d)
    requires c in s.conns && c in s.connections && s.conns[c].loop == i
    requires s.conns[c].phase == Connected || s.conns[c].phase == Disconnecting
    ensures WorkOk(RemovalRequested(Closed(s, c), i, c), j, d)
  {
    var a := Closed(s, c);
    if i == 0 {
      QueuedLeft(a.(connections := a.connections - {c}), 0, ConnectDestroyed(c), j, d);
    } else {
      QueuedLeft(a, 0, RemoveConnection(c), j, d);
    }
  }

  lemma CloseKeepsInv(s: Server, i: nat)
    requires Inv(s) && Enabled(s, Close(i))
    ensures Inv(Next(s, Close(i)))
  {
    var c := s.loops[i].active[0];
    assert LoopOk(s, i) && Registered(s, i, c) && ConnOk(s, c);
    ClosedKeepsPollers(s, c);
    if i == 0 {
      RemovedKeepsPollers(Closed(s, c), c);
    } else {
      PushKeepsPollers(Closed(s, c), 0, RemoveConnection(c));
    }
    forall j, d: ConnId | 0 <= j < |s.loops|
      ensures WorkOk(RemovalRequested(Closed(s, c), i, c), j, d)
    {
      CloseWork(s, i, c, j, d);
    }
  }

  function Accepted(s: Server, fd: int, io: nat): Server {
    s.(conns := s.conns[s.nextId := Rec(io, fd, Connecting, New)],
       connections := s.connections + {s.nextId},
       nextId := s.nextId + 1)
  }

  lemma AcceptedKeepsPollers(s: Server, fd: int, io: nat)
    requires Inv(s) && Enabled(s, Accept(fd, io))
    ensures PollersOk(Accepted(s, fd, io)) && s.nextId !in s.conns
  {
    var t := Accepted(s, fd, io);
    var n := s.nextId;
    assert n !in s.conns;
    forall d | d in t.conns
      ensures ConnOk(t, d)
    {
      assert d != n ==> ConnOk(s, d);
    }
    forall j | 0 <= j < |t.loops|
      ensures LoopOk(t, j)
    {
      assert LoopOk(s, j);
    }
    forall c | c in s.conns && !Gone(s.conns[c])
      ensures s.conns[c].fd != fd
    {
      NotGoneIsAlive(s, c);
    }
  }

  lemma AcceptWork(s: Server, fd: int, io: nat, j: nat, d: ConnId)
    requires j < |s.loops| && io < |s.loops| && WorkOk(s, j, d) && WorkOk(s, j, s.nextId)
    requires s.nextId !in s.conns && s.nextId !in s.connections
    ensures io == 0 ==> WorkOk(Established(Accepted(s, fd, io), s.nextId), j, d)
    ensures io != 0 ==> WorkOk(Push(Accepted(s, fd, io), io, ConnectEstablished(s.nextId)), j, d)
  {
    QueuedLeft(Accepted(s, fd, io), io, ConnectEstablished(s.nextId), j, d);
  }

  /** A fresh descriptor belongs to no connection that is still known to a poller. */
  lemma AcceptKeepsInv(s: Server, fd: int, io: nat)
    requires Inv(s) && Enabled(s, Accept(fd, io))
    ensures Inv(Next(s, Accept(fd, io)))
  {
    var n := s.nextId;
    var a := Accepted(s, fd, io);
    var t := Next(s, Accept(fd, io));
    AcceptedKeepsPollers(s, fd, io);
    if io == 0 {
      EstablishedKeepsPollers(a, n);
    } else {
      PushKeepsPollers(a, io, ConnectEstablished(n));
    }
    forall j, d: ConnId | 0 <= j < |t.loops|
      ensures WorkOk(t, j, d)
    {
      AcceptWork(s, fd, io, j, d);
    }
  }

  lemma ExecuteKeepsInv(s: Server, i: nat)
    requires Inv(s) && Enabled(s, Execute(i))
    ensures Inv(Next(s, Execute(i)))
  {
    var f := s.loops[i].batch[s.loops[i].done];
    assert Next(s, Execute(i)) == Effect(Advanced(s, i), f);
    match f
    case ConnectEstablished(c) => EstablishKeepsInv(s, i, c);
    case RemoveConnection(c) => RemoveKeepsInv(s, i, c);
    case ConnectDestroyed(c) => DestroyKeepsInv(s, i, c);
    case _ => NoticeKeepsInv(s, i);
  }

  lemma NextKeepsInv(s: Server, step: Step)
    requires Inv(s) && Enabled(s, step)
    ensures Inv(Next(s, step))
  {
    match step
    case Accept(fd, io) => AcceptKeepsInv(s, fd, io);
    case Poll(i, active) => PollKeepsInv(s, i, active);
    case Handle(i) => HandleKeepsInv(s, i);
    case Close(i) => CloseKeepsInv(s, i);
    case EndHandle(i) => EndHandleKeepsInv(s, i);
    case Swap(i) => SwapKeepsInv(s, i);
    case EndRound(i) => EndRoundKeepsInv(s, i);
    case Post(i, f) => PostKeepsInv(s, i, f);
    case HalfClose(c) => HalfCloseKeepsInv(s, c);
    case Execute(i) => ExecuteKeepsInv(s, i);
  }

  lemma {:induction false} RunKeepsInv(s: Server, steps: seq<Step>)
    requires Inv(s) && CanRun(s, steps)
    ensures Inv(Run(s, steps))
    decreases |steps|
  {
    if steps == [] {
    } else {
      NextKeepsInv(s, steps[0]);
      RunKeepsInv(Next(s, steps[0]), steps[1..]);
    }
  }

  // ----- what holds in every reachable state -----

  predicate Reachable(n: nat, steps: seq<Step>) {
    n > 0 && CanRun(Start(n), steps)
  }

  lemma ReachableInv(n: nat, steps: seq<Step>)
    requires Reachable(n, steps)
    ensures Inv(Run(Start(n), steps))
  {
    StartInv(n);
    RunKeepsInv(Start(n), steps);
  }

  /** Every raw channel pointer in a poller's map or in its kernel set belongs to a connection that
      the connection map, a functor or a dispatch guard keeps alive. */
  lemma EveryPollerPointerOwned(n: nat, steps: seq<Step>, i: nat, fd: int)
    requires Reachable(n, steps) && i < |Run(Start(n), steps).loops|
    ensures var s := Run(Start(n), steps);
            var l := s.loops[i];
            && (fd in l.channels ==> l.channels[fd] in s.conns && Alive(s, l.channels[fd])
                                     && s.conns[l.channels[fd]].fd == fd)
            && (fd in l.kernel ==> fd in l.channels && l.kernel[fd] == l.channels[fd])
  {
    ReachableInv(n, steps);
    var s := Run(Start(n), steps);
    assert LoopOk(s, i);
    if fd in s.loops[i].channels {
      NotGoneIsAlive(s, s.loops[i].channels[fd]);
    }
    if fd in s.loops[i].kernel {
      assert ConnOk(s, s.loops[i].kernel[fd]);
    }
  }

  /** Once nothing owns a connection, its channel may be destroyed: it is out of its poller. */
  lemma UnownedIsDestructible(n: nat, steps: seq<Step>, c: ConnId)
    requires Reachable(n, steps)
    requires var s := Run(Start(n), steps); c in s.conns && !Alive(s, c)
    ensures var s := Run(Start(n), steps);
            && s.conns[c].phase == Disconnected && s.conns[c].index == New
            && forall i, fd :: 0 <= i < |s.loops| ==>
                 && !(fd in s.loops[i].channels && s.loops[i].channels[fd] == c)
                 && !(fd in s.loops[i].kernel && s.loops[i].kernel[fd] == c)
  {
    ReachableInv(n, steps);
    var s := Run(Start(n), steps);
    if !Gone(s.conns[c]) {
      NotGoneIsAlive(s, c);
    }
    forall i, fd | 0 <= i < |s.loops|
      ensures !(fd in s.loops[i].channels && s.loops[i].channels[fd] == c)
      ensures !(fd in s.loops[i].kernel && s.loops[i].kernel[fd] == c)
    {
      assert LoopOk(s, i);
    }
  }

  /** The channel map entry of a connection on loop `i`. */
  predicate InPoller(s: Server, i: nat, c: ConnId) {
    i < |s.loops| && c in s.conns && s.conns[c].loop == i
    && s.conns[c].fd in s.loops[i].channels && s.loops[i].channels[s.conns[c].fd] == c
  }

  /** Every channel still to be dispatched is registered and alive, so dereferencing it is safe. */
  lemma ActiveIsAlive(n: nat, steps: seq<Step>, i: nat, k: nat)
    requires Reachable(n, steps)
    requires var s := Run(Start(n), steps); i < |s.loops| && k < |s.loops[i].active|
    ensures var s := Run(Start(n), steps);
            InPoller(s, i, s.loops[i].active[k]) && Alive(s, s.loops[i].active[k])
  {
    ReachableInv(n, steps);
    var s := Run(Start(n), steps);
    var c := s.loops[i].active[k];
    assert LoopOk(s, i) && Registered(s, i, c) && ConnOk(s, c);
    NotGoneIsAlive(s, c);
  }

  /** When a protocol functor runs, what it asserts or relies on holds: an establishment adds a
      descriptor the poller does not have, a removal finds its map entry, and a destruction finds a
      closed channel with no interest left. */
  lemma FunctorsMeetTheirAssertions(n: nat, steps: seq<Step>, i: nat)
    requires Reachable(n, steps) && Enabled(Run(Start(n), steps), Execute(i))
    ensures var s := Run(Start(n), steps);
            var f, l := s.loops[i].batch[s.loops[i].done], s.loops[i];
            && (f.ConnectEstablished? ==>
                  && f.conn in s.conns && s.conns[f.conn].loop == i && s.conns[f.conn].index == New
                  && s.conns[f.conn].fd !in l.channels && s.conns[f.conn].fd !in l.kernel)
            && (f.RemoveConnection? ==> i == 0 && f.conn in s.connections)
            && (f.ConnectDestroyed? ==>
                  && f.conn in s.conns && s.conns[f.conn].loop == i
                  && s.conns[f.conn].phase == Disconnected && s.conns[f.conn].index == Deleted
                  && InPoller(s, i, f.conn) && s.conns[f.conn].fd !in l.kernel)
  {
    ReachableInv(n, steps);
    var s := Run(Start(n), steps);
    var f, l := s.loops[i].batch[s.loops[i].done], s.loops[i];
    AdvancedLeft(s, i, i, f);
    assert WorkOk(s, i, f.conn) && LoopOk(s, i);
    if f.ConnectEstablished? || f.ConnectDestroyed? {
      assert ConnOk(s, f.conn);
    }
  }

  /** A destroyed connection is never touched again: no loop has a protocol functor left for it. */
  lemma DestroyedExactlyOnce(n: nat, steps: seq<Step>, i: nat, j: nat, c: ConnId)
    requires Reachable(n, steps) && Enabled(Run(Start(n), steps), Execute(i))
    requires var s := Run(Start(n), steps); s.loops[i].batch[s.loops[i].done] == ConnectDestroyed(c) && j < |s.loops|
    ensures var t := Next(Run(Start(n), steps), Execute(i));
            && c in t.conns && t.conns[c].index == New && j < |t.loops|
            && Left(t.loops[j], ConnectEstablished(c)) == 0
            && Left(t.loops[j], RemoveConnection(c)) == 0
            && Left(t.loops[j], ConnectDestroyed(c)) == 0
  {
    FunctorsMeetTheirAssertions(n, steps, i);
    ReachableInv(n, steps);
    var s := Run(Start(n), steps);
    NextKeepsInv(s, Execute(i));
    var t := Next(s, Execute(i));
    assert c in t.conns && t.conns[c].index == New;
    assert ConnOk(t, c) && WorkOk(t, j, c);
  }

  /** A new connection overwrites nothing: its id is unused and no poller knows its descriptor. */
  lemma AcceptIsFresh(n: nat, steps: seq<Step>, fd: int, io: nat, i: nat)
    requires Reachable(n, steps) && Enabled(Run(Start(n), steps), Accept(fd, io))
    ensures var s := Run(Start(n), steps);
            && s.nextId !in s.conns && s.nextId !in s.connections
            && (i < |s.loops| ==> fd !in s.loops[i].channels && fd !in s.loops[i].kernel)
  {
    ReachableInv(n, steps);
    var s := Run(Start(n), steps);
    AcceptedKeepsPollers(s, fd, io);
    if i < |s.loops| {
      EveryPollerPointerOwned(n, steps, i, fd);
    }
  }

  /** Why a connection must close only once: the close callback of a second `handleClose` leaves two
      functors of one kind, and the second destruction meets a channel that is already new. */
  lemma SecondCloseQueuesTwice(s: Server, i: nat, c: ConnId)
    requires Inv(s) && i < |s.loops|
    requires if i == 0 then Removing(s, c) && s.conns[c].loop == 0 else Closing(s, c)
    ensures var t := RemovalRequested(s, i, c);
            if i == 0 then Left(t.loops[0], ConnectDestroyed(c)) == 2 && Destroyed(t, c).conns[c].index == New
            else Left(t.loops[0], RemoveConnection(c)) == 2
  {
    assert WorkOk(s, 0, c) && ConnOk(s, c);
    if i == 0 {
      PushedLeft(s.(connections := s.connections - {c}), 0, ConnectDestroyed(c), 0, ConnectDestroyed(c));
    } else {
      PushedLeft(s, 0, RemoveConnection(c), 0, RemoveConnection(c));
    }
  }
}
