/** The teardown protocol and the connections themselves, run together: every connection of a server
    lives a legal life. */
module Combined {
  import opened Prelude
  import opened Tasks
  import opened Phases
  import opened Registration
  import T = Teardown
  import TP = TeardownProofs
  import Q = TeardownQueues
  import C = Connection
  import P = ConnectionProofs

  // ----- the record that the protocol moves is the connection's own -----

  function Abstract(c: C.Conn, loop: nat, fd: int): T.Rec {
    T.Rec(loop, fd, c.phase, c.chan.index)
  }

  /** `handleClose`, from a hang-up or an error, or from the end of the stream. */
  predicate Closes(op: C.Op) {
    op.Close? || op == C.Readable(Some([]))
  }

  /** What an entry point does to the record. */
  function Moved(r: T.Rec, op: C.Op): T.Rec {
    if op.Establish? then r.(phase := Connected, index := Added)
    else if Closes(op) then r.(phase := Disconnected, index := Deleted)
    else if op.Destroy? then r.(index := New)
    else if (op.Shutdown? || op.ShutdownElsewhere?) && r.phase == Connected then r.(phase := Disconnecting)
    else r
  }

  /** Each entry point moves the record so, whatever else it does to buffers, kernel and callbacks; and
      the poller's map and the kernel follow `index_`. */
  lemma StepsMatchEffects(c: C.Conn, op: C.Op, loop: nat, fd: int)
    requires C.Inv(c) && C.Legal(c, op)
    ensures var d := C.Step(c, op);
            && Abstract(d, loop, fd) == Moved(Abstract(c, loop, fd), op)
            && d.chan.mapped == (d.chan.index != New)
            && d.chan.kernel.Some? == (d.chan.index == Added)
  {
    P.StepKeepsInv(c, op);
    match op
    case Send(data, offered) => P.SentFrame(c, data, offered);
    case SendFunctor(data, offered) => P.SentFrame(c, data, offered);
    case _ =>
  }

  // ----- the combined system -----

  /** `history[c]` is everything that was ever called on connection `c`. */
  datatype System = System(server: T.Server, conns: map<T.ConnId, C.Conn>, history: map<T.ConnId, seq<C.Op>>)

  /** A protocol step with what it meets in the connection: the kernel's answer to a queued send, and
      whether a close comes from the end of the stream. An accept has the settings of the new connection.
      `Local` is an entry point that the protocol does not see. */
  datatype Step =
    | Accept(fd: int, loop: nat, mark: nat, wantsComplete: bool, wantsHighWater: bool)
    | Protocol(step: T.Step, answer: C.WriteResult, atEnd: bool)
    | Local(c: T.ConnId, op: C.Op)

  function StartSystem(n: nat): System
    requires n > 0
  {
    System(T.Start(n), map[], map[])
  }

  datatype Call = NoCall | On(c: T.ConnId, op: C.Op)

  /** The entry point that running a functor calls; user callbacks are local steps of their own. */
  function CallOf(f: Functor, answer: C.WriteResult): Call {
    match f
    case ConnectEstablished(c) => On(c, C.Establish)
    case ConnectDestroyed(c) => On(c, C.Destroy)
    case SendInLoop(c, payload, _) => On(c, C.SendFunctor(payload, answer))
    case ShutdownInLoop(c) => On(c, C.ShutdownFunctor)
    case _ => NoCall
  }

  /** The entry point that a protocol step calls. */
  function CallBy(s: T.Server, step: T.Step, answer: C.WriteResult, atEnd: bool): Call
    requires T.Enabled(s, step) && !step.Accept?
  {
    match step
    case Close(i) => On(s.loops[i].active[0], if atEnd then C.Readable(Some([])) else C.Close)
    case Execute(i) => CallOf(s.loops[i].batch[s.loops[i].done], answer)
    case HalfClose(c) => On(c, C.ShutdownElsewhere)
    case _ => NoCall
  }

  /** Its loop is inside `handleEvent` of the connection's channel. */
  predicate Handled(s: T.Server, c: T.ConnId) {
    c in s.conns && s.conns[c].loop < |s.loops| &&
    var l := s.loops[s.conns[c].loop];
    l.handling && l.active != [] && l.active[0] == c
  }

  /** User code calls `send`, `shutdown` and `retrieve` at any time; data and EPOLLOUT come by dispatch. */
  predicate LocalOp(s: T.Server, c: T.ConnId, op: C.Op) {
    || op.Send? || op.Shutdown? || op.Retrieve?
    || (Handled(s, c) && (op.Writable? || (op.Readable? && op.received != Some([]))))
  }

  /** Other threads only queue sends and half-closes; the connections themselves queue the notices. */
  predicate Enabled(s: System, step: Step) {
    match step
    case Accept(fd, loop, _, _, _) => T.Enabled(s.server, T.Accept(fd, loop))
    case Protocol(st, _, _) =>
      T.Enabled(s.server, st) && !st.Accept? && (st.Post? ==> st.f.SendInLoop? || st.f.ShutdownInLoop?)
    case Local(c, op) => c in s.conns && c in s.history && c in s.server.conns && LocalOp(s.server, c, op)
  }

  /** The functors that a connection queues go to its own loop. */
  function Noticed(s: T.Server, c: T.ConnId, notices: seq<Functor>): T.Server
    requires c in s.conns
  {
    var l := s.conns[c].loop;
    if notices == [] || l >= |s.loops| then s else T.Push(s, l, notices[0])
  }

  /** `op` is called on connection `c`, in server state `t`. */
  function Called(s: System, t: T.Server, c: T.ConnId, op: C.Op): System {
    if c !in s.conns || c !in s.history || c !in t.conns then s.(server := t) else
    System(Noticed(t, c, P.Notices(s.conns[c], op)), s.conns[c := C.Step(s.conns[c], op)],
           s.history[c := s.history[c] + [op]])
  }

  function Accepted(s: System, fd: int, loop: nat, conn: C.Conn): System
    requires T.Enabled(s.server, T.Accept(fd, loop))
  {
    var id := s.server.nextId;
    System(T.Next(s.server, T.Accept(fd, loop)),
           s.conns[id := if loop == 0 then C.Step(conn, C.Establish) else conn],
           s.history[id := if loop == 0 then [C.Establish] else []])
  }

  function Next(s: System, step: Step): System
    requires Enabled(s, step)
  {
    match step
    case Accept(fd, loop, mark, complete, high) =>
      Accepted(s, fd, loop, C.FreshConn(s.server.nextId, mark, complete, high))
    case Protocol(st, answer, atEnd) =>
      var t := T.Next(s.server, st);
      (match CallBy(s.server, st, answer, atEnd)
       case On(c, op) => Called(s, t, c, op)
       case NoCall => s.(server := t))
    case Local(c, op) => Called(s, if HalfCloses(s, step) then T.Next(s.server, T.HalfClose(c)) else s.server, c, op)
  }

  /** A `shutdown` on the loop thread that has an effect. */
  predicate HalfCloses(s: System, step: Step) {
    step.Local? && step.op.Shutdown? && |s.server.loops| > 0 && T.Enabled(s.server, T.HalfClose(step.c))
  }

  predicate CanRun(s: System, steps: seq<Step>)
    decreases |steps|
  {
    steps == [] || (Enabled(s, steps[0]) && CanRun(Next(s, steps[0]), steps[1..]))
  }

  function Run(s: System, steps: seq<Step>): System
    requires CanRun(s, steps)
    decreases |steps|
  {
    if steps == [] then s else Run(Next(s, steps[0]), steps[1..])
  }

  /** Whatever the protocol can do, the system can do, with any answer of the kernel. */
  lemma ProtocolIsCovered(s: System, st: T.Step, answer: C.WriteResult, atEnd: bool)
    requires T.Enabled(s.server, st)
    requires st.Post? ==> st.f.SendInLoop? || st.f.ShutdownInLoop?
    ensures !st.Accept? ==> Enabled(s, Protocol(st, answer, atEnd))
    ensures st.Accept? ==>
              forall mark, complete, high :: Enabled(s, Accept(st.fd, st.loop, mark, complete, high))
  {
  }

  // ----- what it keeps -----

  function Origin(c: C.Conn): C.Conn {
    C.FreshConn(c.id, c.mark, c.wantsComplete, c.wantsHighWater)
  }

  /** The connection is what its history makes of a fresh one, the history is legal, and the server's
      record is the connection's own. */
  ghost predicate LifeOk(c: T.ConnId, conn: C.Conn, history: seq<C.Op>, r: T.Rec) {
    && conn.id == c && C.Inv(conn) && Abstract(conn, r.loop, r.fd) == r
    && C.LegalRun(Origin(conn), history) && C.Run(Origin(conn), history) == conn
  }

  ghost predicate LivesOk(conns: map<T.ConnId, C.Conn>, history: map<T.ConnId, seq<C.Op>>, recs: map<T.ConnId, T.Rec>) {
    && conns.Keys == recs.Keys && history.Keys == recs.Keys
    && forall c :: c in recs ==> LifeOk(c, conns[c], history[c], recs[c])
  }

  ghost predicate SysInv(s: System) {
    TP.Inv(s.server) && Q.QueueInv(s.server) && LivesOk(s.conns, s.history, s.server.conns)
  }

  lemma LivesUpdated(s: System, c: T.ConnId, conn: C.Conn, h: seq<C.Op>, r: T.Rec)
    requires LivesOk(s.conns, s.history, s.server.conns) && LifeOk(c, conn, h, r)
    ensures LivesOk(s.conns[c := conn], s.history[c := h], s.server.conns[c := r])
  {
    var recs := s.server.conns[c := r];
    forall d | d in recs
      ensures LifeOk(d, s.conns[c := conn][d], s.history[c := h][d], recs[d])
    {
      assert d != c ==> LifeOk(d, s.conns[d], s.history[d], s.server.conns[d]);
    }
  }

  lemma LifeGoesOn(c: T.ConnId, conn: C.Conn, history: seq<C.Op>, r: T.Rec, op: C.Op)
    requires LifeOk(c, conn, history, r) && C.Legal(conn, op)
    ensures LifeOk(c, C.Step(conn, op), history + [op], Moved(r, op))
  {
    P.StepKeepsInv(conn, op);
    P.StepKeepsSettings(conn, op);
    StepsMatchEffects(conn, op, r.loop, r.fd);
    P.LegalRunConcat(Origin(conn), history, [op]);
    C.RunConcat(Origin(conn), history, [op]);
    C.RunOne(conn, op);
  }

  lemma EffectMoves(s: T.Server, f: Functor, answer: C.WriteResult)
    requires f.conn in s.conns ==> s.conns[f.conn].loop < |s.loops|
    ensures T.Effect(s, f).conns
         == match CallOf(f, answer)
            case NoCall => s.conns
            case On(c, op) => if c in s.conns then s.conns[c := Moved(s.conns[c], op)] else s.conns
  {
    match f
    case ShutdownInLoop(c) =>
    case SendInLoop(c, payload, _) =>
    case _ =>
  }

  lemma ExecuteMoves(s: T.Server, i: nat, answer: C.WriteResult)
    requires TP.Inv(s) && T.Enabled(s, T.Execute(i))
    ensures T.Next(s, T.Execute(i)).conns
         == match CallOf(s.loops[i].batch[s.loops[i].done], answer)
            case NoCall => s.conns
            case On(c, op) => if c in s.conns then s.conns[c := Moved(s.conns[c], op)] else s.conns
  {
    var f := s.loops[i].batch[s.loops[i].done];
    if f.conn in s.conns {
      assert TP.ConnOk(s, f.conn);
    }
    EffectMoves(TP.Advanced(s, i), f, answer);
  }

  /** The protocol moves the record of the connection it calls, as the entry point does, and no other. */
  lemma ProtocolMoves(s: T.Server, step: T.Step, answer: C.WriteResult, atEnd: bool)
    requires TP.Inv(s) && T.Enabled(s, step) && !step.Accept?
    ensures T.Next(s, step).conns
         == match CallBy(s, step, answer, atEnd)
            case NoCall => s.conns
            case On(c, op) => if c in s.conns then s.conns[c := Moved(s.conns[c], op)] else s.conns
  {
    match step
    case Close(i) =>
      assert TP.LoopOk(s, i) && TP.Registered(s, i, s.loops[i].active[0]);
      assert TP.ConnOk(s, s.loops[i].active[0]);
    case Execute(i) => ExecuteMoves(s, i, answer);
    case _ =>
  }

  /** A functor finds its connection in a state in which its call is within the source's assumptions. */
  lemma FunctorIsLegal(s: T.Server, i: nat, answer: C.WriteResult, conn: C.Conn, history: seq<C.Op>)
    requires TP.Inv(s) && Q.QueueInv(s) && T.Enabled(s, T.Execute(i))
    requires var f := s.loops[i].batch[s.loops[i].done];
             f.conn in s.conns && LifeOk(f.conn, conn, history, s.conns[f.conn])
    ensures match CallOf(s.loops[i].batch[s.loops[i].done], answer)
            case NoCall => true
            case On(c, op) => C.Legal(conn, op)
  {
    var f := s.loops[i].batch[s.loops[i].done];
    Q.QueuedIsOk(s, i, f);
    TP.AdvancedLeft(s, i, i, f);
    assert TP.WorkOk(s, i, f.conn);
  }

  /** Whatever the protocol calls is within the source's assumptions. */
  lemma CallsAreLegal(s: System, step: T.Step, answer: C.WriteResult, atEnd: bool)
    requires SysInv(s) && T.Enabled(s.server, step) && !step.Accept?
    ensures match CallBy(s.server, step, answer, atEnd)
            case NoCall => true
            case On(c, op) => c in s.conns && C.Legal(s.conns[c], op)
  {
    var t := s.server;
    match step
    case Close(i) =>
      var c := t.loops[i].active[0];
      assert LifeOk(c, s.conns[c], s.history[c], t.conns[c]);
    case Execute(i) =>
      var f := t.loops[i].batch[t.loops[i].done];
      Q.QueuedIsOk(t, i, f);
      assert LifeOk(f.conn, s.conns[f.conn], s.history[f.conn], t.conns[f.conn]);
      FunctorIsLegal(t, i, answer, s.conns[f.conn], s.history[f.conn]);
    case _ =>
  }

  lemma PhasesAgree(c: T.ConnId, conn: C.Conn, history: seq<C.Op>, r: T.Rec)
    requires LifeOk(c, conn, history, r)
    ensures conn.phase == r.phase && conn.chan.index == r.index
  {
  }

  /** So is what user code calls, and what a dispatch calls. */
  lemma LocalIsLegal(s: T.Server, c: T.ConnId, op: C.Op, conn: C.Conn, history: seq<C.Op>)
    requires TP.Inv(s) && c in s.conns && LocalOp(s, c, op) && LifeOk(c, conn, history, s.conns[c])
    ensures C.Legal(conn, op)
    ensures Moved(s.conns[c], op) == if op.Shutdown? && s.conns[c].phase == Connected
                                     then s.conns[c].(phase := Disconnecting) else s.conns[c]
  {
    PhasesAgree(c, conn, history, s.conns[c]);
    if Handled(s, c) {
      HandledIsRegistered(s, c);
    }
  }

  lemma HandledIsRegistered(s: T.Server, c: T.ConnId)
    requires TP.Inv(s) && Handled(s, c)
    ensures s.conns[c].phase != Connecting
  {
    var i := s.conns[c].loop;
    assert TP.LoopOk(s, i) && TP.Registered(s, i, c) && TP.ConnOk(s, c);
  }

  /** The protocol's own steps for what a connection queues. */
  function Posts(t: T.Server, c: T.ConnId, notices: seq<Functor>): seq<T.Step> {
    if notices == [] || c !in t.conns then [] else [T.Post(t.conns[c].loop, notices[0])]
  }

  /** What a connection queues, the protocol allows. */
  lemma NoticesArePosted(t: T.Server, c: T.ConnId, conn: C.Conn, op: C.Op)
    requires TP.Inv(t) && Q.QueueInv(t) && c in t.conns
    requires C.Inv(conn) && C.Legal(conn, op) && conn.id == c && C.Step(conn, op).phase == t.conns[c].phase
    ensures var u := Noticed(t, c, P.Notices(conn, op));
            && TP.Inv(u) && Q.QueueInv(u) && u.conns == t.conns
            && T.CanRun(t, Posts(t, c, P.Notices(conn, op))) && T.Run(t, Posts(t, c, P.Notices(conn, op))) == u
  {
    P.AtMostOneNotice(conn, op);
    assert TP.ConnOk(t, c);
    var notices := P.Notices(conn, op);
    if notices != [] {
      var step := T.Post(t.conns[c].loop, notices[0]);
      TP.NextKeepsInv(t, step);
      Q.StepKeepsQueueInv(t, step);
      T.RunFirst(t, step, []);
      assert [step] + [] == [step];
    }
  }

  /** A call that moves the server's record as it moves the connection keeps the invariant. */
  lemma CalledKeepsInv(s: System, t: T.Server, c: T.ConnId, op: C.Op)
    requires SysInv(s) && TP.Inv(t) && Q.QueueInv(t) && c in s.conns && C.Legal(s.conns[c], op)
    requires t.conns == s.server.conns[c := Moved(s.server.conns[c], op)]
    ensures SysInv(Called(s, t, c, op))
    ensures T.CanRun(t, Posts(t, c, P.Notices(s.conns[c], op)))
    ensures T.Run(t, Posts(t, c, P.Notices(s.conns[c], op))) == Called(s, t, c, op).server
  {
    CallMoves(c, s.conns[c], s.history[c], s.server.conns[c], op);
    LifeGoesOn(c, s.conns[c], s.history[c], s.server.conns[c], op);
    LivesUpdated(s, c, C.Step(s.conns[c], op), s.history[c] + [op], Moved(s.server.conns[c], op));
    NoticesArePosted(t, c, s.conns[c], op);
  }

  lemma CallMoves(c: T.ConnId, conn: C.Conn, history: seq<C.Op>, r: T.Rec, op: C.Op)
    requires LifeOk(c, conn, history, r) && C.Legal(conn, op)
    ensures conn.id == c && C.Inv(conn) && C.Step(conn, op).phase == Moved(r, op).phase
  {
    StepsMatchEffects(conn, op, r.loop, r.fd);
  }

  /** The protocol steps of which the server's part of a step consists. */
  function Projected(s: System, step: Step): seq<T.Step>
    requires Enabled(s, step)
  {
    match step
    case Accept(fd, loop, _, _, _) => [T.Accept(fd, loop)]
    case Protocol(st, answer, atEnd) =>
      [st] + (match CallBy(s.server, st, answer, atEnd)
              case On(c, op) =>
                if c in s.conns then Posts(T.Next(s.server, st), c, P.Notices(s.conns[c], op)) else []
              case NoCall => [])
    case Local(c, op) =>
      if HalfCloses(s, step)
      then [T.HalfClose(c)] + Posts(T.Next(s.server, T.HalfClose(c)), c, P.Notices(s.conns[c], op))
      else Posts(s.server, c, P.Notices(s.conns[c], op))
  }

  /** The server's part of a combined step is a run of the protocol. */
  ghost predicate Follows(s: System, step: Step)
    requires Enabled(s, step)
  {
    T.CanRun(s.server, Projected(s, step)) && T.Run(s.server, Projected(s, step)) == Next(s, step).server
  }

  lemma RunOne(s: T.Server, step: T.Step)
    ensures T.CanRun(s, [step]) <==> T.Enabled(s, step)
    ensures T.Enabled(s, step) ==> T.Run(s, [step]) == T.Next(s, step)
  {
    T.RunFirst(s, step, []);
    assert [step] + [] == [step];
  }

  lemma AcceptedRecords(s: T.Server, fd: int, loop: nat)
    requires T.Enabled(s, T.Accept(fd, loop))
    ensures var r := T.Rec(loop, fd, Connecting, New);
            T.Next(s, T.Accept(fd, loop)).conns
            == s.conns[s.nextId := if loop == 0 then Moved(r, C.Establish) else r]
  {
  }

  /** The first calls of a life: none, or the establishment on the spot. */
  lemma Born(conn: C.Conn, loop: nat, fd: int)
    requires conn == Origin(conn)
    ensures var r := T.Rec(loop, fd, Connecting, New);
            && LifeOk(conn.id, conn, [], r)
            && LifeOk(conn.id, C.Step(conn, C.Establish), [C.Establish], Moved(r, C.Establish))
  {
    var r := T.Rec(loop, fd, Connecting, New);
    assert C.Inv(conn) && C.Run(conn, []) == conn && C.LegalRun(conn, []);
    LifeGoesOn(conn.id, conn, [], r, C.Establish);
    assert [] + [C.Establish] == [C.Establish];
  }

  lemma AcceptKeepsInv(s: System, fd: int, loop: nat, mark: nat, complete: bool, high: bool)
    requires SysInv(s) && Enabled(s, Accept(fd, loop, mark, complete, high))
    ensures var step := Accept(fd, loop, mark, complete, high); SysInv(Next(s, step)) && Follows(s, step)
  {
    var step := T.Accept(fd, loop);
    var conn := C.FreshConn(s.server.nextId, mark, complete, high);
    var r := T.Rec(loop, fd, Connecting, New);
    TP.NextKeepsInv(s.server, step);
    Q.StepKeepsQueueInv(s.server, step);
    RunOne(s.server, step);
    AcceptedRecords(s.server, fd, loop);
    Born(conn, loop, fd);
    LivesUpdated(s, conn.id, if loop == 0 then C.Step(conn, C.Establish) else conn,
                 if loop == 0 then [C.Establish] else [], if loop == 0 then Moved(r, C.Establish) else r);
  }

  lemma ProtocolKeepsInv(s: System, st: T.Step, answer: C.WriteResult, atEnd: bool)
    requires SysInv(s) && Enabled(s, Protocol(st, answer, atEnd))
    ensures var step := Protocol(st, answer, atEnd); SysInv(Next(s, step)) && Follows(s, step)
  {
    var t := T.Next(s.server, st);
    TP.NextKeepsInv(s.server, st);
    Q.StepKeepsQueueInv(s.server, st);
    CallsAreLegal(s, st, answer, atEnd);
    ProtocolMoves(s.server, st, answer, atEnd);
    match CallBy(s.server, st, answer, atEnd)
    case On(c, op) =>
      CalledKeepsInv(s, t, c, op);
      T.RunFirst(s.server, st, Posts(t, c, P.Notices(s.conns[c], op)));
    case NoCall =>
      RunOne(s.server, st);
      assert [st] + [] == [st];
  }

  lemma HalfCloseKeepsInv(s: System, c: T.ConnId, op: C.Op)
    requires SysInv(s) && Enabled(s, Local(c, op)) && HalfCloses(s, Local(c, op))
    ensures SysInv(Next(s, Local(c, op))) && Follows(s, Local(c, op))
  {
    var step := T.HalfClose(c);
    var t := T.Next(s.server, step);
    LocalIsLegal(s.server, c, op, s.conns[c], s.history[c]);
    TP.NextKeepsInv(s.server, step);
    Q.StepKeepsQueueInv(s.server, step);
    CalledKeepsInv(s, t, c, op);
    T.RunFirst(s.server, step, Posts(t, c, P.Notices(s.conns[c], op)));
  }

  lemma LocalKeepsInv(s: System, c: T.ConnId, op: C.Op)
    requires SysInv(s) && Enabled(s, Local(c, op))
    ensures SysInv(Next(s, Local(c, op))) && Follows(s, Local(c, op))
  {
    if HalfCloses(s, Local(c, op)) {
      HalfCloseKeepsInv(s, c, op);
    } else {
      OthersStay(s, c, op);
      CalledKeepsInv(s, s.server, c, op);
    }
  }

  /** A local call that half-closes nothing leaves the server's records alone. */
  lemma OthersStay(s: System, c: T.ConnId, op: C.Op)
    requires SysInv(s) && Enabled(s, Local(c, op)) && !HalfCloses(s, Local(c, op))
    ensures C.Legal(s.conns[c], op)
    ensures s.server.conns == s.server.conns[c := Moved(s.server.conns[c], op)]
  {
    LocalIsLegal(s.server, c, op, s.conns[c], s.history[c]);
    assert Moved(s.server.conns[c], op) == s.server.conns[c];
    SameRecord(s.server.conns, c);
  }

  lemma SameRecord(recs: map<T.ConnId, T.Rec>, c: T.ConnId)
    requires c in recs
    ensures recs[c := recs[c]] == recs
  {
  }

  lemma NextKeepsInv(s: System, step: Step)
    requires SysInv(s) && Enabled(s, step)
    ensures SysInv(Next(s, step)) && Follows(s, step)
  {
    match step
    case Accept(fd, loop, mark, complete, high) => AcceptKeepsInv(s, fd, loop, mark, complete, high);
    case Protocol(st, answer, atEnd) => ProtocolKeepsInv(s, st, answer, atEnd);
    case Local(c, op) => LocalKeepsInv(s, c, op);
  }

  lemma {:induction false} RunKeepsInv(s: System, steps: seq<Step>)
    requires SysInv(s) && CanRun(s, steps)
    ensures SysInv(Run(s, steps))
    decreases |steps|
  {
    if steps == [] {
    } else {
      NextKeepsInv(s, steps[0]);
      RunKeepsInv(Next(s, steps[0]), steps[1..]);
    }
  }

  function ProjectedRun(s: System, steps: seq<Step>): seq<T.Step>
    requires CanRun(s, steps)
    decreases |steps|
  {
    if steps == [] then [] else Projected(s, steps[0]) + ProjectedRun(Next(s, steps[0]), steps[1..])
  }

  /** The server's part of a combined run is a run of the teardown protocol, so everything proved of its
      reachable states holds here. */
  lemma {:induction false} RunFollowsProtocol(s: System, steps: seq<Step>)
    requires SysInv(s) && CanRun(s, steps)
    ensures T.CanRun(s.server, ProjectedRun(s, steps))
    ensures T.Run(s.server, ProjectedRun(s, steps)) == Run(s, steps).server
    decreases |steps|
  {
    if steps == [] {
    } else {
      NextKeepsInv(s, steps[0]);
      RunFollowsProtocol(Next(s, steps[0]), steps[1..]);
      T.RunConcat(s.server, Projected(s, steps[0]), ProjectedRun(Next(s, steps[0]), steps[1..]));
    }
  }

  predicate Reachable(n: nat, steps: seq<Step>) {
    n > 0 && CanRun(StartSystem(n), steps)
  }

  lemma ReachableInv(n: nat, steps: seq<Step>)
    requires Reachable(n, steps)
    ensures SysInv(Run(StartSystem(n), steps))
  {
    TP.StartInv(n);
    Q.StartQueueInv(n);
    RunKeepsInv(StartSystem(n), steps);
  }

  /** Whatever the loops, the threads, the kernel and the users do, as long as no report closes twice, each
      connection of the server lives a legal life: the calls made on it are within the source's assumptions,
      so everything proved of legal runs holds of it, and what the server knows of it is so. */
  lemma EveryLifeIsLegal(n: nat, steps: seq<Step>, c: T.ConnId)
    requires Reachable(n, steps) && c in Run(StartSystem(n), steps).server.conns
    ensures var s := Run(StartSystem(n), steps);
            && c in s.conns && c in s.history
            && C.LegalRun(Origin(s.conns[c]), s.history[c])
            && C.Run(Origin(s.conns[c]), s.history[c]) == s.conns[c]
            && Abstract(s.conns[c], s.server.conns[c].loop, s.server.conns[c].fd) == s.server.conns[c]
  {
    ReachableInv(n, steps);
    var s := Run(StartSystem(n), steps);
    assert LifeOk(c, s.conns[c], s.history[c], s.server.conns[c]);
  }

  /** So for every connection of every server: the user is told of one up and one down at most, and of
      exactly one each once the server has destroyed it, when its channel may be destroyed as well; and the
      bytes on the wire and the pending ones are the payloads that were not dropped. */
  lemma EveryLifeIsComplete(n: nat, steps: seq<Step>, c: T.ConnId)
    requires Reachable(n, steps) && c in Run(StartSystem(n), steps).server.conns
    ensures var s := Run(StartSystem(n), steps);
            && c in s.conns && c in s.history &&
            var conn, made := s.conns[c], multiset(s.conns[c].calls);
            && made[C.Up] <= 1 && made[C.Down] <= made[C.Up] && made[C.CloseRequested] == made[C.Down]
            && (TP.Gone(s.server.conns[c]) ==> made[C.Up] == made[C.Down] == 1 && Destructible(conn.chan))
            && conn.wire + conn.output == P.KeptBy(Origin(conn), s.history[c])
  {
    EveryLifeIsLegal(n, steps, c);
    var s := Run(StartSystem(n), steps);
    var o := Origin(s.conns[c]);
    P.LifecycleComplete(o.id, o.mark, o.wantsComplete, o.wantsHighWater, s.history[c]);
    P.ByteStreamConserved(o, s.history[c]);
    assert o.wire + o.output + P.KeptBy(o, s.history[c]) == P.KeptBy(o, s.history[c]);
  }
}
