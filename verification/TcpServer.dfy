/** The names of TcpServer.cpp:84-88: "-%s#%d" printed into 64 bytes. */
module ConnectionNames {
  import opened Prelude

  const BUF_SIZE: nat := 64
  const INT_MAX: nat := 0x7FFF_FFFF
  const DIGITS: string := "0123456789"

  /** The longest address for which the suffix of every positive id fits. */
  const LONGEST_ADDRESS: nat := 51

  function Decimal(n: nat): (s: string)
    ensures s != []
  {
    if n < 10 then [DIGITS[n]] else Decimal(n / 10) + [DIGITS[n % 10]]
  }

  /** `snprintf` keeps the terminator, so at most 63 characters of the text. */
  function Suffix(ipPort: string, id: nat): string {
    var text := "-" + ipPort + "#" + Decimal(id);
    text[..Min(BUF_SIZE - 1, |text|)]
  }

  function ConnName(server: string, ipPort: string, id: nat): string {
    server + Suffix(ipPort, id)
  }

  lemma DigitsDiffer(a: nat, b: nat)
    requires a < 10 && b < 10 && DIGITS[a] == DIGITS[b]
    ensures a == b
  {
  }

  lemma {:induction false} DecimalInjective(m: nat, n: nat)
    requires Decimal(m) == Decimal(n)
    ensures m == n
    decreases m
  {
    var s := Decimal(m);
    if m < 10 && n < 10 {
      DigitsDiffer(m, n);
    } else if m >= 10 && n >= 10 {
      assert s[..|s| - 1] == Decimal(m / 10) == Decimal(n / 10);
      assert s[|s| - 1] == DIGITS[m % 10] == DIGITS[n % 10];
      DigitsDiffer(m % 10, n % 10);
      DecimalInjective(m / 10, n / 10);
    }
  }

  predicate AllDigits(s: string) {
    forall i :: 0 <= i < |s| ==> '0' <= s[i] <= '9'
  }

  /** What a reader makes of a string of digits. */
  function Value(s: string): nat
    requires AllDigits(s)
  {
    if s == [] then 0 else 10 * Value(s[..|s| - 1]) + (s[|s| - 1] as int - '0' as int)
  }

  lemma DigitReads(d: nat)
    requires d < 10
    ensures '0' <= DIGITS[d] <= '9' && DIGITS[d] as int - '0' as int == d
  {
  }

  /** `%d` is read back as the number printed, and has no leading zero. */
  lemma {:induction false} DecimalReads(n: nat)
    ensures var s := Decimal(n); AllDigits(s) && Value(s) == n && (s[0] == '0' ==> n == 0)
  {
    var s := Decimal(n);
    if n < 10 {
      DigitReads(n);
      assert s[..0] == [] && Value([]) == 0;
    } else {
      DecimalReads(n / 10);
      DigitReads(n % 10);
      assert s[..|s| - 1] == Decimal(n / 10);
      assert forall i :: 0 <= i < |s| - 1 ==> s[i] == Decimal(n / 10)[i];
    }
  }

  function Pow10(k: nat): nat {
    if k == 0 then 1 else 10 * Pow10(k - 1)
  }

  lemma {:induction false} DecimalLength(n: nat, k: nat)
    requires k > 0 && n < Pow10(k)
    ensures |Decimal(n)| <= k
    decreases k
  {
    if n >= 10 {
      assert k > 1;
      DecimalLength(n / 10, k - 1);
    }
  }

  lemma IdLength(id: nat)
    requires id <= INT_MAX
    ensures |Decimal(id)| <= 10
  {
    assert Pow10(5) == 100000;
    assert Pow10(10) == 100000 * Pow10(5) by {
      assert Pow10(6) == 10 * Pow10(5) && Pow10(7) == 10 * Pow10(6) && Pow10(8) == 10 * Pow10(7);
    }
    DecimalLength(id, 10);
  }

  lemma SuffixInjective(ipPort: string, i: nat, j: nat)
    requires |ipPort| <= LONGEST_ADDRESS && i <= INT_MAX && j <= INT_MAX
    requires Suffix(ipPort, i) == Suffix(ipPort, j)
    ensures i == j
  {
    IdLength(i);
    IdLength(j);
    var head := "-" + ipPort + "#";
    assert (head + Decimal(i))[|head|..] == Decimal(i);
    assert (head + Decimal(j))[|head|..] == Decimal(j);
    DecimalInjective(i, j);
  }

  /** The name of a connection, which is not cut off for an address of at most 51 characters. */
  lemma NameShape(server: string, ipPort: string, id: nat)
    requires id <= INT_MAX
    ensures |ipPort| <= LONGEST_ADDRESS ==> ConnName(server, ipPort, id) == server + "-" + ipPort + "#" + Decimal(id)
    ensures |ConnName(server, ipPort, id)| <= |server| + 63
  {
    IdLength(id);
    var text := "-" + ipPort + "#" + Decimal(id);
    if |ipPort| <= LONGEST_ADDRESS {
      assert text[..|text|] == text;
      assert server + text == server + "-" + ipPort + "#" + Decimal(id);
    }
  }

  /** Ten digits of which the last is cut off. */
  lemma SuffixCollides(ipPort: string)
    requires |ipPort| > LONGEST_ADDRESS
    ensures Suffix(ipPort, 1000000000) == Suffix(ipPort, 1000000001)
  {
    var head := "-" + ipPort + "#";
    var d := Decimal(100000000);
    assert Decimal(1000000000) == d + ['0'] && Decimal(1000000001) == d + ['1'];
    NineDigits();
    var common := head + d;
    assert |common| >= 63;
    assert head + (d + ['0']) == common + ['0'] && head + (d + ['1']) == common + ['1'];
    assert (common + ['0'])[..63] == common[..63] == (common + ['1'])[..63];
  }

  lemma NineDigits()
    ensures |Decimal(100000000)| == 9
  {
    assert |Decimal(10000)| == 5 by {
      assert |Decimal(100)| == 3;
    }
    assert |Decimal(1000000)| == 7 by {
      assert |Decimal(100000)| == 6;
    }
    assert |Decimal(10000000)| == 8;
  }

  /** Different connections get different names exactly when the address has at most 51 characters;
      a printed IPv4 address and port has at most 21. */
  lemma NamesDistinctIff(server: string, ipPort: string)
    ensures (forall i, j :: 1 <= i < j <= INT_MAX ==> ConnName(server, ipPort, i) != ConnName(server, ipPort, j))
       <==> |ipPort| <= LONGEST_ADDRESS
  {
    if |ipPort| <= LONGEST_ADDRESS {
      forall i, j | 1 <= i < j <= INT_MAX
        ensures ConnName(server, ipPort, i) != ConnName(server, ipPort, j)
      {
        var a, b := Suffix(ipPort, i), Suffix(ipPort, j);
        if ConnName(server, ipPort, i) == ConnName(server, ipPort, j) {
          assert (server + a)[|server|..] == a && (server + b)[|server|..] == b;
          SuffixInjective(ipPort, i, j);
        }
      }
    } else {
      SuffixCollides(ipPort);
      assert ConnName(server, ipPort, 1000000000) == ConnName(server, ipPort, 1000000001);
    }
  }
}

/** TcpServer.cpp: the connection map, and the connections handed to the loops. */
module TcpServers {
  import opened Tasks
  import opened Connection
  import opened Dispatch
  import L = LoopMachine
  import opened EventLoops
  import opened ThreadPools
  import C = TcpConnections
  import opened ConnectionNames

  /** The default of a connection's `highWaterMark_`, 64 MiB. */
  const HIGH_WATER_MARK: nat := 67108864

  class TcpServer {
    const loop: EventLoop<Functor>
    const ipPort: string
    const name: string
    const pool: EventLoopThreadPool<Functor>
    /** `writeCompleteCallback_` is set. */
    const wantsComplete: bool
    var nextConnId: nat
    var connections: map<string, C.TcpConnection>

    /** Every entry is under its own connection's name, and ids only grow. */
    ghost predicate Valid()
      reads this, pool
    {
      && pool.Valid() && pool.baseLoop == loop
      && 1 <= nextConnId && |ipPort| <= LONGEST_ADDRESS
      && (forall key :: key in connections ==>
            1 <= connections[key].id < nextConnId && key == ConnName(name, ipPort, connections[key].id))
    }

    constructor (loop: EventLoop<Functor>, ipPort: string, name: string, wantsComplete: bool)
      requires |ipPort| <= LONGEST_ADDRESS
      ensures Valid() && connections == map[] && nextConnId == 1 && fresh(pool)
      ensures this.loop == loop && this.name == name && this.ipPort == ipPort && this.wantsComplete == wantsComplete
    {
      this.loop, this.ipPort, this.name, this.wantsComplete := loop, ipPort, name, wantsComplete;
      pool := new EventLoopThreadPool(loop);
      nextConnId, connections := 1, map[];
    }

    /** The loop that connection number `nextConnId` goes to. */
    ghost function NextLoop(): EventLoop<Functor>
      reads this, pool
    {
      if pool.loops == [] then loop else pool.loops[pool.calls % |pool.loops|]
    }

    ghost function Unestablished(id: nat): Conn
      reads this
    {
      FreshConn(id, HIGH_WATER_MARK, wantsComplete, false)
    }

    /** The new connection and its entry, under a name that no other connection has. */
    method AddConnection(ioLoop: EventLoop<Functor>, sockfd: int) returns (conn: C.TcpConnection)
      requires Valid() && nextConnId < INT_MAX
      requires ioLoop.poller.Valid() && forall c :: c in ioLoop.poller.known ==> c.fd != sockfd
      modifies this`nextConnId, this`connections, ioLoop.poller`known
      ensures Valid() && nextConnId == old(nextConnId) + 1
      ensures fresh(conn) && fresh(conn.channel) && fresh(conn.socket)
      ensures fresh(conn.inputBuffer) && fresh(conn.inputBuffer.data)
      ensures fresh(conn.outputBuffer) && fresh(conn.outputBuffer.data)
      ensures conn.Valid() && conn.id == old(nextConnId) && conn.loop == ioLoop && conn.channel.fd == sockfd
      ensures conn.View() == Unestablished(conn.id).(posted := ioLoop.pendingFunctors)
      ensures conn.highWaterMark == 64 * 1024 * 1024 && conn.wantsComplete == wantsComplete && !conn.wantsHighWater
      ensures var key := ConnName(name, ipPort, conn.id);
              key !in old(connections) && connections == old(connections)[key := conn]
    {
      var id := nextConnId;
      var connName := ConnName(name, ipPort, id);
      nextConnId := nextConnId + 1;
      NamesDistinctIff(name, ipPort);
      assert connName !in connections;
      conn := new C.TcpConnection(id, ioLoop, sockfd, HIGH_WATER_MARK, wantsComplete, false);
      connections := connections[connName := conn];
    }

    method MakeConnection(sockfd: int) returns (conn: C.TcpConnection)
      requires Valid() && nextConnId < INT_MAX
      requires NextLoop().poller.Valid() && forall c :: c in NextLoop().poller.known ==> c.fd != sockfd
      modifies this`nextConnId, this`connections, pool`next, pool`calls, NextLoop().poller`known
      ensures Valid() && pool.calls == old(pool.calls) + 1 && nextConnId == old(nextConnId) + 1
      ensures fresh(conn) && fresh(conn.channel) && fresh(conn.socket)
      ensures fresh(conn.inputBuffer) && fresh(conn.inputBuffer.data)
      ensures fresh(conn.outputBuffer) && fresh(conn.outputBuffer.data)
      ensures conn.Valid() && conn.id == old(nextConnId) && conn.loop == old(NextLoop()) && conn.channel.fd == sockfd
      ensures conn.View() == Unestablished(conn.id).(posted := conn.loop.pendingFunctors)
      ensures var key := ConnName(name, ipPort, conn.id);
              key !in old(connections) && connections == old(connections)[key := conn]
    {
      var ioLoop := pool.GetNextLoop();
      conn := AddConnection(ioLoop, sockfd);
    }

    /** `runInLoop` of `connectEstablished` on the connection's loop. */
    method HandOver(conn: C.TcpConnection, script: seq<Op>)
      requires conn.Valid() && UserScript(script) && L.UserCode(loop.View())
      modifies conn`state, conn`calls, conn.channel, conn.loop, conn.loop.poller, conn.socket
      modifies conn.inputBuffer, conn.inputBuffer.data, conn.outputBuffer, conn.outputBuffer.data
      ensures conn.Valid()
      ensures conn.loop == loop ==> conn.View() == Run(Step(old(conn.View()), Establish), script)
      ensures conn.loop != loop ==>
                && conn.View() == old(conn.View()).(posted := conn.loop.pendingFunctors)
                && conn.loop.pendingFunctors == old(conn.loop.pendingFunctors) + [ConnectEstablished(conn.id)]
                && Reaches(old(conn.loop.View()), QueueSteps(old(conn.loop.callingPendingFunctors),
                                                             ConnectEstablished(conn.id), Other(0)), conn.loop.View())
                && conn.loop.eventfd > 0
      ensures conn.loop == loop ==> conn.channel.tied && (old(loop.Covers()) ==> loop.Covers())
    {
      if conn.loop == loop {
        conn.ConnectEstablished(script);
      } else {
        conn.loop.QueueInLoop(ConnectEstablished(conn.id), Other(0));
      }
    }

    /** Called by the acceptor on the server's own loop. `connectEstablished` runs inline there, with
        `script` the user's calls in the up callback, and is queued on any other loop. */
    method NewConnection(sockfd: int, script: seq<Op>) returns (conn: C.TcpConnection)
      requires Valid() && nextConnId < INT_MAX && UserScript(script) && L.UserCode(loop.View())
      requires NextLoop().poller.Valid() && forall c :: c in NextLoop().poller.known ==> c.fd != sockfd
      modifies this`nextConnId, this`connections, pool`next, pool`calls, NextLoop(), NextLoop().poller
      ensures Valid() && pool.calls == old(pool.calls) + 1 && nextConnId == old(nextConnId) + 1
      ensures conn.Valid() && conn.id == old(nextConnId) && conn.loop == old(NextLoop()) && conn.channel.fd == sockfd
      ensures var key := ConnName(name, ipPort, conn.id);
              key !in old(connections) && connections == old(connections)[key := conn]
      ensures old(NextLoop()) == loop ==>
                var made := Unestablished(conn.id).(posted := old(loop.pendingFunctors));
                conn.View() == Run(Step(made, Establish), script)
      ensures old(NextLoop()) != loop ==>
                && conn.View() == Unestablished(conn.id).(posted := conn.loop.pendingFunctors)
                && conn.loop.pendingFunctors == old(NextLoop().pendingFunctors) + [ConnectEstablished(conn.id)]
                && conn.loop.eventfd > 0
      ensures old(NextLoop()) == loop ==> conn.channel.tied
    {
      conn := MakeConnection(sockfd);
      assert conn.loop.pendingFunctors == old(NextLoop().pendingFunctors);
      HandOver(conn, script);
    }

    /** The thread that runs the server's code, as another loop sees it. */
    function Caller(target: EventLoop<Functor>): Thread {
      if target == loop then Own else Other(0)
    }

    /** Only this connection's entry goes, and its destruction is always queued, never run inline; its loop
        is woken for it. */
    method RemoveConnectionInLoop(conn: C.TcpConnection)
      requires Valid()
      requires conn.loop == loop ==> L.UserCode(loop.View())
      modifies this`connections, conn.loop
      ensures Valid() && connections == old(connections) - {ConnName(name, ipPort, conn.id)}
      ensures conn.loop.pendingFunctors == old(conn.loop.pendingFunctors) + [ConnectDestroyed(conn.id)]
      ensures Reaches(old(conn.loop.View()),
                      QueueSteps(old(conn.loop.callingPendingFunctors), ConnectDestroyed(conn.id), Caller(conn.loop)),
                      conn.loop.View())
      ensures conn.loop != loop ==> conn.loop.eventfd > 0
      ensures old(conn.loop.Sound()) ==> conn.loop.Sound()
    {
      connections := connections - {ConnName(name, ipPort, conn.id)};
      conn.loop.QueueInLoop(ConnectDestroyed(conn.id), Caller(conn.loop));
    }

    /** Called on the I/O loop's thread by the close callback; it reaches `RemoveConnectionInLoop` at
        once only on the server's own loop, and otherwise wakes that loop. */
    method RemoveConnection(conn: C.TcpConnection, caller: Thread)
      requires Valid()
      requires caller.Own? && conn.loop == loop ==> L.UserCode(loop.View())
      modifies this`connections, loop, conn.loop
      ensures Valid()
      ensures caller.Other? ==>
                && connections == old(connections)
                && loop.pendingFunctors == old(loop.pendingFunctors) + [Functor.RemoveConnection(conn.id)]
                && Reaches(old(loop.View()), QueueSteps(old(loop.callingPendingFunctors),
                                                        Functor.RemoveConnection(conn.id), caller), loop.View())
                && loop.eventfd > 0
                && (conn.loop != loop ==> conn.loop.View() == old(conn.loop.View()))
      ensures caller.Own? ==>
                && connections == old(connections) - {ConnName(name, ipPort, conn.id)}
                && conn.loop.pendingFunctors == old(conn.loop.pendingFunctors) + [ConnectDestroyed(conn.id)]
                && Reaches(old(conn.loop.View()), QueueSteps(old(conn.loop.callingPendingFunctors),
                                                             ConnectDestroyed(conn.id), Caller(conn.loop)),
                           conn.loop.View())
                && (conn.loop != loop ==> conn.loop.eventfd > 0 && loop.View() == old(loop.View()))
      ensures old(loop.Sound()) && old(conn.loop.Sound()) ==> loop.Sound() && conn.loop.Sound()
    {
      if caller.Own? {
        RemoveConnectionInLoop(conn);
      } else {
        loop.QueueInLoop(Functor.RemoveConnection(conn.id), caller);
      }
    }
  }
}
