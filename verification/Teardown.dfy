/** TcpServer.cpp with its loops: how a connection is handed to an I/O loop, and how it is taken down
    across two loops without ever leaving a dangling channel in a poller. Loop 0 is the server's. */
module Teardown {
  import opened Tasks
  import opened Phases
  import opened Registration

  type ConnId = nat

  /** The parts of a connection that the protocol moves: its loop, descriptor, `state_`, `index_`. */
  datatype Rec = Rec(loop: nat, fd: int, phase: Phase, index: Index)

  datatype Stage = Polling | Dispatching | Running

  /** `batch[..done]` has been run; the vector, and with it its bound pointers, is only destroyed at
      the end of the round. While `handling`, `active[0]` is held by the guard of `handleEvent`. */
  datatype Loop = Loop(stage: Stage, pending: seq<Functor>, batch: seq<Functor>, done: nat,
                       active: seq<ConnId>, handling: bool,
                       channels: map<int, ConnId>, kernel: map<int, ConnId>)

  const IDLE: Loop := Loop(Polling, [], [], 0, [], false, map[], map[])

  datatype Server = Server(loops: seq<Loop>, conns: map<ConnId, Rec>, connections: set<ConnId>, nextId: ConnId)

  function Start(numLoops: nat): Server
    requires numLoops > 0
  {
    Server(seq(numLoops, _ => IDLE), map[], {}, 1)
  }

  // ----- who keeps a connection alive -----

  predicate OwnedIn(fs: seq<Functor>, c: ConnId) {
    exists i :: 0 <= i < |fs| && fs[i].Owns() && fs[i].conn == c
  }

  predicate HeldBy(l: Loop, c: ConnId) {
    OwnedIn(l.pending, c) || OwnedIn(l.batch, c) || (l.handling && l.active != [] && l.active[0] == c)
  }

  /** The connection map, a queued or running functor, or a dispatch guard holds a shared pointer. */
  predicate Alive(s: Server, c: ConnId) {
    c in s.connections || exists l :: 0 <= l < |s.loops| && HeldBy(s.loops[l], c)
  }

  // ----- the effects -----

  function Push(s: Server, l: nat, f: Functor): Server
    requires l < |s.loops|
  {
    s.(loops := s.loops[l := s.loops[l].(pending := s.loops[l].pending + [f])])
  }

  /** `connectEstablished`: `enableReading` on a new channel. */
  function Established(s: Server, c: ConnId): Server {
    if c !in s.conns || s.conns[c].loop >= |s.loops| then s else
    var r := s.conns[c];
    var l := s.loops[r.loop];
    s.(conns := s.conns[c := r.(phase := Connected, index := Added)],
       loops := s.loops[r.loop := l.(channels := l.channels[r.fd := c], kernel := l.kernel[r.fd := c])])
  }

  /** The first half of `handleClose`: the new state, and `disableAll` on an added channel. */
  function Closed(s: Server, c: ConnId): Server {
    if c !in s.conns || s.conns[c].loop >= |s.loops| then s else
    var r := s.conns[c];
    var l := s.loops[r.loop];
    s.(conns := s.conns[c := r.(phase := Disconnected, index := Deleted)],
       loops := s.loops[r.loop := l.(kernel := l.kernel - {r.fd})])
  }

  function RemovedInLoop(s: Server, c: ConnId): Server {
    if c !in s.conns || s.conns[c].loop >= |s.loops| then s else
    Push(s.(connections := s.connections - {c}), s.conns[c].loop, ConnectDestroyed(c))
  }

  /** The close callback: `runInLoop` on the server's loop. */
  function RemovalRequested(s: Server, l: nat, c: ConnId): Server
    requires |s.loops| > 0
  {
    if l == 0 then RemovedInLoop(s, c) else Push(s, 0, RemoveConnection(c))
  }

  /** `connectDestroyed` on a closed connection: `remove`. */
  function Destroyed(s: Server, c: ConnId): Server {
    if c !in s.conns || s.conns[c].loop >= |s.loops| then s else
    var r := s.conns[c];
    var l := s.loops[r.loop];
    s.(conns := s.conns[c := r.(index := New)],
       loops := s.loops[r.loop := l.(channels := l.channels - {r.fd},
                                     kernel := if r.index == Added then l.kernel - {r.fd} else l.kernel)])
  }

  function Effect(s: Server, f: Functor): Server {
    match f
    case ConnectEstablished(c) => Established(s, c)
    case RemoveConnection(c) => RemovedInLoop(s, c)
    case ConnectDestroyed(c) => Destroyed(s, c)
    case _ => s
  }

  // ----- the steps -----

  datatype Step =
    | Accept(fd: int, loop: nat)
    | Poll(l: nat, active: seq<ConnId>)
    | Handle(l: nat)
    | Close(l: nat)
    | EndHandle(l: nat)
    | Swap(l: nat)
    | Execute(l: nat)
    | EndRound(l: nat)
    | Post(l: nat, f: Functor)     // any thread queues a notice, a send or a half-close
    | HalfClose(c: ConnId)         // any thread calls shutdown

  function LoopOf(step: Step): nat {
    match step
    case Accept(_, _) => 0
    case Poll(l, _) => l
    case Handle(l) => l
    case Close(l) => l
    case EndHandle(l) => l
    case Swap(l) => l
    case Execute(l) => l
    case EndRound(l) => l
    case Post(l, _) => l
    case HalfClose(_) => 0
  }

  /** When a notice, a send or a half-close may be queued: notices while the connection is up, by its
      own handlers; a send or a half-close by a thread that has seen `kConnected`, however long ago. */
  predicate Postable(r: Rec, f: Functor) {
    match f
    case WriteComplete(_) => r.phase == Connected || r.phase == Disconnecting
    case HighWater(_, _) => r.phase == Connected || r.phase == Disconnecting
    case SendInLoop(_, _, _) => r.phase != Connecting
    case ShutdownInLoop(_) => r.phase == Disconnecting || r.phase == Disconnected
    case _ => false
  }

  /** `accept` returns a descriptor that is not open: sockets are closed when their connection is
      freed. A poll reports registered descriptors. One dispatch closes a connection at most once. */
  predicate Enabled(s: Server, step: Step) {
    LoopOf(step) < |s.loops| &&
    var l := s.loops[LoopOf(step)];
    match step
    case Accept(fd, io) =>
      && l.stage == Dispatching && !l.handling && io < |s.loops|
      && (forall c :: c in s.conns && Alive(s, c) ==> s.conns[c].fd != fd)
    case Poll(_, active) =>
      && l.stage == Polling
      && (forall i :: 0 <= i < |active| ==>
            exists fd :: fd in l.kernel && l.kernel[fd] == active[i])
    case Handle(_) => l.stage == Dispatching && !l.handling && l.active != []
    case Close(_) =>
      && l.stage == Dispatching && l.handling && l.active != [] && l.active[0] in s.conns
      && (s.conns[l.active[0]].phase == Connected || s.conns[l.active[0]].phase == Disconnecting)
    case EndHandle(_) => l.stage == Dispatching && l.handling && l.active != []
    case Swap(_) => l.stage == Dispatching && !l.handling && l.active == []
    case Execute(_) => l.stage == Running && l.done < |l.batch|
    case EndRound(_) => l.stage == Running && l.done == |l.batch|
    case Post(i, f) => f.conn in s.conns && s.conns[f.conn].loop == i && Postable(s.conns[f.conn], f)
    case HalfClose(c) => c in s.conns && s.conns[c].phase == Connected
  }

  function WithLoop(s: Server, l: nat, loop: Loop): Server
    requires l < |s.loops|
  {
    s.(loops := s.loops[l := loop])
  }

  function Next(s: Server, step: Step): Server
    requires Enabled(s, step)
  {
    var i := LoopOf(step);
    var l := s.loops[i];
    match step
    case Accept(fd, io) =>
      var t := s.(conns := s.conns[s.nextId := Rec(io, fd, Connecting, New)],
                  connections := s.connections + {s.nextId},
                  nextId := s.nextId + 1);
      if io == 0 then Established(t, s.nextId) else Push(t, io, ConnectEstablished(s.nextId))
    case Poll(_, active) => WithLoop(s, i, l.(stage := Dispatching, active := active))
    case Handle(_) =>
      if Alive(s, l.active[0]) then WithLoop(s, i, l.(handling := true))
      else WithLoop(s, i, l.(active := l.active[1..]))
    case Close(_) => RemovalRequested(Closed(s, l.active[0]), i, l.active[0])
    case EndHandle(_) => WithLoop(s, i, l.(active := l.active[1..], handling := false))
    case Swap(_) => WithLoop(s, i, l.(stage := Running, batch := l.pending, pending := [], done := 0))
    case Execute(_) => Effect(WithLoop(s, i, l.(done := l.done + 1)), l.batch[l.done])
    case EndRound(_) => WithLoop(s, i, l.(stage := Polling, batch := [], done := 0))
    case Post(_, f) => Push(s, i, f)
    case HalfClose(c) => s.(conns := s.conns[c := s.conns[c].(phase := Disconnecting)])
  }

  predicate CanRun(s: Server, steps: seq<Step>)
    decreases |steps|
  {
    steps == [] || (Enabled(s, steps[0]) && CanRun(Next(s, steps[0]), steps[1..]))
  }

  function Run(s: Server, steps: seq<Step>): Server
    requires CanRun(s, steps)
    decreases |steps|
  {
    if steps == [] then s else Run(Next(s, steps[0]), steps[1..])
  }

  lemma {:induction false} RunConcat(s: Server, a: seq<Step>, b: seq<Step>)
    ensures CanRun(s, a + b) <==> CanRun(s, a) && CanRun(Run(s, a), b)
    ensures CanRun(s, a + b) ==> Run(s, a + b) == Run(Run(s, a), b)
    decreases |a|
  {
    if a == [] {
      assert a + b == b;
    } else {
      assert (a + b)[1..] == a[1..] + b;
      if Enabled(s, a[0]) {
        RunConcat(Next(s, a[0]), a[1..], b);
      }
    }
  }

  lemma RunFirst(s: Server, step: Step, rest: seq<Step>)
    ensures CanRun(s, [step] + rest) <==> Enabled(s, step) && CanRun(Next(s, step), rest)
    ensures CanRun(s, [step] + rest) ==> Run(s, [step] + rest) == Run(Next(s, step), rest)
  {
    assert ([step] + rest)[1..] == rest;
  }
}
