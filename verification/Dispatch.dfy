/** Channel::handleEventWithGuard on a connection's channel: which callbacks one event set runs. */
module Dispatch {
  import opened Prelude
  import opened Registration
  import opened Phases
  import opened Connection
  import opened ConnectionProofs

  const READABLE: Mask := {IN, PRI, RDHUP}

  predicate ClosesOnHangup(revents: Mask) {
    HUP in revents && IN !in revents
  }

  /** The error callback is bound to `handleClose` as well. */
  predicate ClosesOnError(revents: Mask) {
    ERR in revents
  }

  predicate Reads(revents: Mask) {
    revents * READABLE != {}
  }

  /** A user callback body: sends, shutdowns and consumption of input. */
  predicate UserOp(op: Op) {
    op.Send? || op.Shutdown? || op.Retrieve?
  }

  predicate UserScript(script: seq<Op>) {
    forall i :: 0 <= i < |script| ==> UserOp(script[i])
  }

  function ReadOps(revents: Mask, received: Option<seq<byte>>, script: seq<Op>): seq<Op> {
    if !Reads(revents) then []
    else if received.Some? && received.value != [] then [Readable(received)] + script
    else [Readable(received)]
  }

  /** The steps of one `handleEvent`, in the order of the source's four tests. */
  function EventOps(revents: Mask, received: Option<seq<byte>>, script: seq<Op>, offered: WriteResult): seq<Op> {
    (if ClosesOnHangup(revents) then [Close] else [])
    + (if ClosesOnError(revents) then [Close] else [])
    + ReadOps(revents, received, script)
    + (if OUT in revents then [Writable(offered)] else [])
  }

  /** How many of the tests end in `handleClose`. */
  function CloseTriggers(revents: Mask, received: Option<seq<byte>>): nat {
    (if ClosesOnHangup(revents) then 1 else 0)
    + (if ClosesOnError(revents) then 1 else 0)
    + (if Reads(revents) && received == Some([]) then 1 else 0)
  }

  /** The connection after `closes` runs of `handleClose`. */
  ghost predicate After(c: Conn, d: Conn, closes: nat) {
    && multiset(d.calls)[Down] == multiset(c.calls)[Down] + closes
    && multiset(d.calls)[CloseRequested] == multiset(c.calls)[CloseRequested] + closes
    && d.chan.refused == 0 && d.chan.mapped
    && (closes == 0 ==> Inv(d) && d.Open())
    && (closes > 0 ==>
          && d.phase == Disconnected && d.chan.events == NONE_EVENT
          && (if closes % 2 == 1 then d.chan.index == Deleted && d.chan.kernel == None
              else d.chan.index == Added && d.chan.kernel == Some(NONE_EVENT)))
  }

  lemma CloseOnce(c: Conn, d: Conn, closes: nat)
    requires After(c, d, closes)
    ensures After(c, Step(d, Close), closes + 1)
    ensures Legal(d, Close) <==> closes == 0
  {
    assert (d.calls + [Down, CloseRequested]) == Step(d, Close).calls;
  }

  lemma {:induction false} ScriptKeepsAfter(c: Conn, d: Conn, closes: nat, script: seq<Op>)
    requires After(c, d, closes) && UserScript(script)
    ensures After(c, Run(d, script), closes) && LegalRun(d, script)
    decreases |script|
  {
    if script == [] {
    } else {
      OpKeepsAfter(c, d, closes, script[0]);
      assert forall i :: 0 <= i < |script[1..]| ==> script[1..][i] == script[i + 1];
      ScriptKeepsAfter(c, Step(d, script[0]), closes, script[1..]);
    }
  }

  lemma OpKeepsAfter(c: Conn, d: Conn, closes: nat, op: Op)
    requires After(c, d, closes)
    requires UserOp(op) || op.Writable? || (op.Readable? && op.received != Some([]))
    ensures After(c, Step(d, op), closes) && Legal(d, op)
  {
    if closes == 0 {
      StepKeepsInv(d, op);
    }
    if Quiet(op) {
      QuietStep(d, op);
    } else {
      assert Step(d, op).calls == d.calls || Step(d, op).calls == d.calls + [Message];
    }
  }

  lemma ReadKeepsAfter(c: Conn, d: Conn, closes: nat, revents: Mask, received: Option<seq<byte>>, script: seq<Op>)
    requires After(c, d, closes) && UserScript(script)
    ensures var ends := Reads(revents) && received == Some([]);
            var ops := ReadOps(revents, received, script);
            && After(c, Run(d, ops), if ends then closes + 1 else closes)
            && (LegalRun(d, ops) <==> !ends || closes == 0)
  {
    var op := Readable(received);
    if Reads(revents) {
      RunOne(d, op);
      if received == Some([]) {
        CloseOnce(c, d, closes);
        assert Step(d, op) == Step(d, Close);
      } else {
        OpKeepsAfter(c, d, closes, op);
        if received.Some? {
          MessageKeepsAfter(c, d, closes, op, script);
        }
      }
    }
  }

  lemma MessageKeepsAfter(c: Conn, d: Conn, closes: nat, op: Op, script: seq<Op>)
    requires After(c, Step(d, op), closes) && Legal(d, op) && UserScript(script)
    ensures After(c, Run(d, [op] + script), closes) && LegalRun(d, [op] + script)
  {
    RunOne(d, op);
    ScriptKeepsAfter(c, Step(d, op), closes, script);
    LegalRunConcat(d, [op], script);
    RunConcat(d, [op], script);
  }

  lemma MaybeCloseKeepsAfter(c: Conn, d: Conn, closes: nat, trigger: bool)
    requires After(c, d, closes)
    ensures var ops := if trigger then [Close] else [];
            && After(c, Run(d, ops), if trigger then closes + 1 else closes)
            && (LegalRun(d, ops) <==> !trigger || closes == 0)
  {
    if trigger {
      CloseOnce(c, d, closes);
      RunOne(d, Close);
    }
  }

  /** The operations close `closes` times, legally when that is at most once. */
  ghost predicate Reached(c: Conn, ops: seq<Op>, closes: nat) {
    After(c, Run(c, ops), closes) && (LegalRun(c, ops) <==> closes <= 1)
  }

  lemma ReachedConcat(c: Conn, ops: seq<Op>, closes: nat, more: seq<Op>, closes': nat)
    requires Reached(c, ops, closes) && closes <= closes' <= closes + 1
    requires After(c, Run(Run(c, ops), more), closes')
    requires LegalRun(Run(c, ops), more) <==> closes' == closes || closes == 0
    ensures Reached(c, ops + more, closes')
  {
    RunConcat(c, ops, more);
    LegalRunConcat(c, ops, more);
  }

  lemma AfterKernel(c: Conn, d: Conn, closes: nat)
    requires After(c, d, closes) && closes <= 3
    ensures d.chan.kernel == Some(NONE_EVENT) <==> closes == 2
  {
    assert IN in READ_EVENT && IN in READ_EVENT + WRITE_EVENT;
  }

  lemma EventUpToRead(c: Conn, revents: Mask, received: Option<seq<byte>>, script: seq<Op>)
    requires Inv(c) && c.Open() && UserScript(script)
    ensures Reached(c, (if ClosesOnHangup(revents) then [Close] else [])
                       + (if ClosesOnError(revents) then [Close] else [])
                       + ReadOps(revents, received, script), CloseTriggers(revents, received))
  {
    var hup := if ClosesOnHangup(revents) then [Close] else [];
    var err := if ClosesOnError(revents) then [Close] else [];
    var read := ReadOps(revents, received, script);
    var n1 := if ClosesOnHangup(revents) then 1 else 0;
    var n2 := if ClosesOnError(revents) then n1 + 1 else n1;
    MaybeCloseKeepsAfter(c, c, 0, ClosesOnHangup(revents));
    assert Reached(c, hup, n1);
    MaybeCloseKeepsAfter(c, Run(c, hup), n1, ClosesOnError(revents));
    ReachedConcat(c, hup, n1, err, n2);
    ReadKeepsAfter(c, Run(c, hup + err), n2, revents, received, script);
    ReachedConcat(c, hup + err, n2, read, CloseTriggers(revents, received));
  }

  /** One event set closes an open connection once for each trigger it holds, so the run is within
      the source's assumptions exactly when there is at most one; with two the descriptor is left in
      the kernel with an empty mask, where hang-ups are still reported. */
  lemma EventClosesPerTrigger(c: Conn, revents: Mask, received: Option<seq<byte>>, script: seq<Op>,
                              offered: WriteResult)
    requires Inv(c) && c.Open() && UserScript(script)
    ensures var ops := EventOps(revents, received, script, offered);
            var d := Run(c, ops);
            var n := CloseTriggers(revents, received);
            && (LegalRun(c, ops) <==> n <= 1)
            && After(c, d, n)
            && (d.chan.kernel == Some(NONE_EVENT) <==> n == 2)
  {
    var n := CloseTriggers(revents, received);
    var upToRead := (if ClosesOnHangup(revents) then [Close] else [])
                    + (if ClosesOnError(revents) then [Close] else [])
                    + ReadOps(revents, received, script);
    EventUpToRead(c, revents, received, script);
    var d := Run(c, upToRead);
    if OUT in revents {
      var op := Writable(offered);
      OpKeepsAfter(c, d, n, op);
      RunOne(d, op);
      ReachedConcat(c, upToRead, n, [op], n);
      assert EventOps(revents, received, script, offered) == upToRead + [op];
    } else {
      assert EventOps(revents, received, script, offered) == upToRead + [] == upToRead;
    }
    AfterKernel(c, Run(c, EventOps(revents, received, script, offered)), n);
  }

  lemma ReadsByBits(revents: Mask)
    ensures Reads(revents) <==> IN in revents || PRI in revents || RDHUP in revents
  {
    if IN in revents {
      assert IN in revents * READABLE;
    }
    if PRI in revents {
      assert PRI in revents * READABLE;
    }
    if RDHUP in revents {
      assert RDHUP in revents * READABLE;
    }
  }

  /** The tests, told by event bits: a hang-up without EPOLLIN closes, an error closes, any of EPOLLIN,
      EPOLLPRI and EPOLLRDHUP reads, and EPOLLOUT writes, in this order. */
  lemma TestsByBits(revents: Mask, received: Option<seq<byte>>, script: seq<Op>, offered: WriteResult)
    ensures var toRead := IN in revents || PRI in revents || RDHUP in revents;
            && EventOps(revents, received, script, offered)
               == (if HUP in revents && IN !in revents then [Close] else [])
                  + (if ERR in revents then [Close] else [])
                  + (if toRead then [Readable(received)] else [])
                  + (if toRead && received.Some? && received.value != [] then script else [])
                  + (if OUT in revents then [Writable(offered)] else [])
            && (toRead <==> Reads(revents))
  {
    ReadsByBits(revents);
    var closes := (if ClosesOnHangup(revents) then [Close] else []) + (if ClosesOnError(revents) then [Close] else []);
    if Reads(revents) {
      assert closes + ([Readable(received)] + script) == closes + [Readable(received)] + script;
      assert closes + [Readable(received)] + [] == closes + [Readable(received)];
    }
  }

  /** Whether a report closes an open connection, told by its bits. */
  lemma EventClosesIff(c: Conn, revents: Mask, received: Option<seq<byte>>, script: seq<Op>, offered: WriteResult)
    requires Inv(c) && c.Open() && UserScript(script)
    ensures Run(c, EventOps(revents, received, script, offered)).phase == Disconnected
       <==> (HUP in revents && IN !in revents) || ERR in revents
            || ((IN in revents || PRI in revents || RDHUP in revents) && received == Some([]))
  {
    ReadsByBits(revents);
    EventClosesPerTrigger(c, revents, received, script, offered);
  }

  /** A report that closes nothing and delivers bytes: they are appended and reported, then the user's calls
      follow, and EPOLLOUT is handled after them. */
  lemma EventDelivers(c: Conn, revents: Mask, bytes: seq<byte>, script: seq<Op>, offered: WriteResult)
    requires bytes != [] && ERR !in revents && (HUP in revents ==> IN in revents)
    ensures var told := if IN in revents || PRI in revents || RDHUP in revents
                        then Run(c.(input := c.input + bytes, calls := c.calls + [Message]), script) else c;
            Run(c, EventOps(revents, Some(bytes), script, offered))
            == if OUT in revents then Step(told, Writable(offered)) else told
  {
    ReadsByBits(revents);
    ReadDelivers(c, revents, bytes, script);
    var read := ReadOps(revents, Some(bytes), script);
    OpsWithoutClose(revents, Some(bytes), script, offered);
    if OUT in revents {
      RunThen(c, read, Writable(offered));
    }
  }

  lemma OpsWithoutClose(revents: Mask, received: Option<seq<byte>>, script: seq<Op>, offered: WriteResult)
    requires !ClosesOnHangup(revents) && !ClosesOnError(revents)
    ensures var read := ReadOps(revents, received, script);
            EventOps(revents, received, script, offered) == if OUT in revents then read + [Writable(offered)] else read
  {
    var read := ReadOps(revents, received, script);
    assert [] + [] + read == read && read + [] == read;
  }

  lemma RunThen(c: Conn, ops: seq<Op>, op: Op)
    ensures Run(c, ops + [op]) == Step(Run(c, ops), op)
  {
    RunConcat(c, ops, [op]);
    RunOne(Run(c, ops), op);
  }

  lemma RunAfter(c: Conn, op: Op, ops: seq<Op>)
    ensures Run(c, [op] + ops) == Run(Step(c, op), ops)
  {
    assert ([op] + ops)[1..] == ops;
  }

  lemma ReadDelivers(c: Conn, revents: Mask, bytes: seq<byte>, script: seq<Op>)
    requires bytes != []
    ensures Run(c, ReadOps(revents, Some(bytes), script))
         == if Reads(revents) then Run(c.(input := c.input + bytes, calls := c.calls + [Message]), script) else c
  {
    var op := Readable(Some(bytes));
    if Reads(revents) {
      assert ReadOps(revents, Some(bytes), script) == [op] + script;
      RunAfter(c, op, script);
      assert Step(c, op) == c.(input := c.input + bytes, calls := c.calls + [Message]);
    } else {
      assert ReadOps(revents, Some(bytes), script) == [];
    }
  }

  /** A report with at most one close trigger keeps the connection's invariant. */
  lemma EventKeepsInv(c: Conn, revents: Mask, received: Option<seq<byte>>, script: seq<Op>, offered: WriteResult)
    requires Inv(c) && c.Open() && UserScript(script) && CloseTriggers(revents, received) <= 1
    ensures Inv(Run(c, EventOps(revents, received, script, offered)))
  {
    EventClosesPerTrigger(c, revents, received, script, offered);
    RunKeepsInv(c, EventOps(revents, received, script, offered));
  }

  /** A reset peer: EPOLLERR and EPOLLHUP together close, and tell the user so, twice. */
  lemma ResetClosesTwice()
    ensures var c := Step(FreshConn(1, 0, false, false), Establish);
            var d := Run(c, EventOps({ERR, HUP}, None, [], Failed(EPIPE)));
            multiset(d.calls)[Down] == 2 && d.chan.kernel == Some(NONE_EVENT)
  {
    var f := FreshConn(1, 0, false, false);
    StepKeepsInv(f, Establish);
    EventClosesPerTrigger(Step(f, Establish), {ERR, HUP}, None, [], Failed(EPIPE));
    assert {ERR, HUP} * READABLE == {};
  }

  /** What may run between two reports: the functors that other threads queued, the state change of
      their `shutdown`, and the user's calls in a notice callback or anywhere else on the loop thread. */
  predicate Interlude(op: Op) {
    UserOp(op) || op.SendFunctor? || op.ShutdownElsewhere? || op.ShutdownFunctor?
  }

  predicate AllInterlude(ops: seq<Op>) {
    forall i :: 0 <= i < |ops| ==> Interlude(ops[i])
  }

  /** Nothing between two reports opens or closes a connection. */
  lemma {:induction false} InterludeKeepsOpen(c: Conn, ops: seq<Op>)
    requires Inv(c) && c.phase != Connecting && LegalRun(c, ops) && AllInterlude(ops)
    ensures var d := Run(c, ops); Inv(d) && d.phase != Connecting && (d.Open() <==> c.Open())
    decreases |ops|
  {
    if ops == [] {
    } else {
      assert Interlude(ops[0]);
      StepKeepsInv(c, ops[0]);
      QuietStep(c, ops[0]);
      assert forall i :: 0 <= i < |ops[1..]| ==> ops[1..][i] == ops[i + 1];
      InterludeKeepsOpen(Step(c, ops[0]), ops[1..]);
    }
  }

  /** One report of the kernel about the connection, what ran before it, and what its handling meets. */
  datatype Event = Event(before: seq<Op>, revents: Mask, received: Option<seq<byte>>, script: seq<Op>,
                         offered: WriteResult)
  {
    function Handling(): seq<Op> {
      EventOps(revents, received, script, offered)
    }

    function Triggers(): nat {
      CloseTriggers(revents, received)
    }
  }

  function SessionOps(events: seq<Event>): seq<Op> {
    if events == [] then [] else events[0].before + events[0].Handling() + SessionOps(events[1..])
  }

  /** The kernel only reports on a registered descriptor, and no earlier than the interlude is over. */
  predicate Reported(c: Conn, e: Event) {
    AllInterlude(e.before) && LegalRun(c, e.before) && Run(c, e.before).chan.kernel.Some? && UserScript(e.script)
  }

  predicate Session(c: Conn, events: seq<Event>)
    decreases |events|
  {
    events == []
    || (Reported(c, events[0]) && Session(Run(c, events[0].before + events[0].Handling()), events[1..]))
  }

  /** Any report can come at any time to an open connection, after anything that may run before it. */
  lemma AnyReportFits(c: Conn, e: Event)
    requires Inv(c) && c.Open() && AllInterlude(e.before) && LegalRun(c, e.before) && UserScript(e.script)
    ensures Session(c, [e])
  {
    InterludeKeepsOpen(c, e.before);
    assert [e][1..] == [];
    assert Session(Run(c, e.before + e.Handling()), []);
  }

  predicate OneTriggerEach(events: seq<Event>) {
    forall i :: 0 <= i < |events| ==> events[i].Triggers() <= 1
  }

  lemma OneTriggerSplit(events: seq<Event>)
    requires events != []
    ensures OneTriggerEach(events) <==> events[0].Triggers() <= 1 && OneTriggerEach(events[1..])
  {
    if events[0].Triggers() <= 1 && OneTriggerEach(events[1..]) {
      forall i | 0 <= i < |events|
        ensures events[i].Triggers() <= 1
      {
        if i > 0 {
          assert events[i] == events[1..][i - 1];
        }
      }
    }
    assert forall i :: 0 <= i < |events[1..]| ==> events[1..][i] == events[i + 1];
  }

  /** What one report leaves: an open connection, or a closed one. */
  lemma EventOutcome(c: Conn, e: Event)
    requires Inv(c) && c.Open() && Reported(c, e)
    ensures var d, n := Run(c, e.before + e.Handling()), e.Triggers();
            && (LegalRun(c, e.before + e.Handling()) <==> n <= 1)
            && (n <= 1 ==> Inv(d) && (d.Open() <==> n == 0) && d.phase != Connecting)
  {
    var b := Run(c, e.before);
    InterludeKeepsOpen(c, e.before);
    EventClosesPerTrigger(b, e.revents, e.received, e.script, e.offered);
    LegalRunConcat(c, e.before, e.Handling());
    RunConcat(c, e.before, e.Handling());
    if e.Triggers() <= 1 {
      EventKeepsInv(b, e.revents, e.received, e.script, e.offered);
    }
  }

  /** A closed connection gets no further report: its descriptor stays out of the kernel. */
  lemma NoReportAfterClose(c: Conn, events: seq<Event>)
    requires Inv(c) && c.phase == Disconnected && Session(c, events)
    ensures events == []
  {
    if events != [] {
      InterludeKeepsOpen(c, events[0].before);
    }
  }

  /** The reports of one connection, with whatever runs between them. */
  lemma {:induction false} ReportsLegalIff(c: Conn, events: seq<Event>)
    requires Inv(c) && c.Open() && Session(c, events)
    ensures LegalRun(c, SessionOps(events)) <==> OneTriggerEach(events)
    decreases |events|
  {
    if events == [] {
    } else {
      var e, rest := events[0], events[1..];
      var ops := e.before + e.Handling();
      var d := Run(c, ops);
      EventOutcome(c, e);
      LegalRunConcat(c, ops, SessionOps(rest));
      OneTriggerSplit(events);
      if e.Triggers() == 0 {
        ReportsLegalIff(d, rest);
      } else if e.Triggers() == 1 {
        NoReportAfterClose(d, rest);
        assert SessionOps(rest) == [] && LegalRun(d, []);
      }
    }
  }

  /** Over a whole connection, from its establishment to whatever follows the last report, with sends,
      half-closes, functors of other threads and callbacks between the reports: the run stays within the
      source's assumptions, and with it everything proved of legal runs, exactly when no single report
      holds two close triggers. */
  lemma SessionLegalIff(c: Conn, events: seq<Event>, tail: seq<Op>)
    requires Inv(c) && c.Open() && Session(c, events)
    requires LegalRun(Run(c, SessionOps(events)), tail)
    ensures LegalRun(c, SessionOps(events) + tail) <==> OneTriggerEach(events)
  {
    ReportsLegalIff(c, events);
    LegalRunConcat(c, SessionOps(events), tail);
  }
}
