/** EventLoopThreadPool.cpp: dealing connections to the I/O loops in turn. */
module ThreadPools {
  import L = LoopMachine
  import opened EventLoops

  /** The wrap test as it must be; see `NextAsWritten` for the source's own. */
  function NextIndex(next: nat, n: nat): nat {
    if next + 1 >= n then 0 else next + 1
  }

  /** EventLoopThreadPool.cpp:62 as written: `>` lets the index reach `n`. */
  function NextAsWritten(next: nat, n: nat): nat {
    if next + 1 > n then 0 else next + 1
  }

  function After(calls: nat, n: nat): nat {
    if calls == 0 then 0 else NextIndex(After(calls - 1, n), n)
  }

  function AfterAsWritten(calls: nat, n: nat): nat {
    if calls == 0 then 0 else NextAsWritten(AfterAsWritten(calls - 1, n), n)
  }

  lemma ModSucc(k: nat, n: nat)
    requires n > 0
    ensures (k + 1) % n == (if k % n + 1 == n then 0 else k % n + 1)
    ensures (k + 1) / n == (if k % n + 1 == n then k / n + 1 else k / n)
  {
    var q, r := k / n, k % n;
    assert k == q * n + r;
    if r + 1 == n {
      DivModUnique(k + 1, n, q + 1, 0);
    } else {
      DivModUnique(k + 1, n, q, r + 1);
    }
  }

  lemma MulAtLeast(d: nat, n: nat)
    requires d >= 1
    ensures d * n >= n
  {
    assert d * n == (d - 1) * n + n;
  }

  lemma MulDifference(a: nat, b: nat, n: nat)
    requires a <= b
    ensures b * n - a * n == (b - a) * n
  {
  }

  lemma DivModUnique(k: nat, n: nat, q: nat, r: nat)
    requires n > 0 && r < n && k == q * n + r
    ensures k / n == q && k % n == r
  {
    var q', r' := k / n, k % n;
    assert k == q' * n + r';
    if q' < q {
      MulDifference(q', q, n);
      MulAtLeast(q - q', n);
    } else if q < q' {
      MulDifference(q, q', n);
      MulAtLeast(q' - q, n);
    }
  }

  /** Call number k is answered with loop k mod n. */
  lemma {:induction false} RoundRobin(k: nat, n: nat)
    requires n > 0
    ensures After(k, n) == k % n < n
  {
    if k == 0 {
    } else {
      RoundRobin(k - 1, n);
      ModSucc(k - 1, n);
    }
  }

  /** As written, the calls cycle through n + 1 values, so call k reads past the vector exactly when
      k mod (n + 1) is n: for the first time on call number n. */
  lemma {:induction false} AsWrittenInBoundsIff(k: nat, n: nat)
    requires n > 0
    ensures AfterAsWritten(k, n) == k % (n + 1)
    ensures AfterAsWritten(k, n) < n <==> k % (n + 1) != n
  {
    if k == 0 {
    } else {
      AsWrittenInBoundsIff(k - 1, n);
      ModSucc(k - 1, n + 1);
    }
  }

  /** How many of the first k calls are answered with loop i. */
  function Dealt(k: nat, n: nat, i: nat): nat {
    if k == 0 then 0 else Dealt(k - 1, n, i) + (if After(k - 1, n) == i then 1 else 0)
  }

  lemma {:induction false} DealtExactly(k: nat, n: nat, i: nat)
    requires i < n
    ensures Dealt(k, n, i) == k / n + (if i < k % n then 1 else 0)
  {
    if k > 0 {
      DealtExactly(k - 1, n, i);
      RoundRobin(k - 1, n);
      ModSucc(k - 1, n);
    } else {
      DivModUnique(0, n, 0, 0);
    }
  }

  /** After any number of connections two loops differ by at most one. */
  lemma DealtFairly(k: nat, n: nat, i: nat, j: nat)
    requires i < n && j < n
    ensures Dealt(k, n, i) <= Dealt(k, n, j) + 1
  {
    DealtExactly(k, n, i);
    DealtExactly(k, n, j);
  }

  class EventLoopThreadPool<F(!new)> {
    const baseLoop: EventLoop<F>
    var loops: seq<EventLoop<F>>
    var next: nat
    /** The loops that the thread-init callback was called on, in order. */
    var initialised: seq<EventLoop<F>>
    /** How often `GetNextLoop` was called since `Start`. */
    ghost var calls: nat

    ghost predicate Valid()
      reads this
    {
      && next == (if loops == [] then 0 else After(calls, |loops|)) && (loops != [] ==> next < |loops|)
      && baseLoop !in loops
    }

    constructor (baseLoop: EventLoop<F>)
      ensures Valid() && this.baseLoop == baseLoop && loops == initialised == [] && calls == 0
    {
      this.baseLoop := baseLoop;
      loops, next, initialised, calls := [], 0, [], 0;
    }

    /** Each new thread makes its own loop and calls the init callback before it reports the loop; with
        no threads at all the callback gets the base loop. */
    method Start(numThreads: nat, hasCallback: bool)
      requires Valid() && loops == []
      modifies this
      ensures Valid() && |loops| == numThreads && calls == 0
      ensures forall i :: 0 <= i < numThreads ==>
                && fresh(loops[i]) && loops[i].View() == L.Start()
                && fresh(loops[i].poller) && loops[i].poller.Valid() && loops[i].poller.known == {}
      ensures forall i, j :: 0 <= i < j < numThreads ==>
                loops[i] != loops[j] && loops[i].poller != loops[j].poller
      ensures initialised == if !hasCallback then old(initialised)
                             else old(initialised) + (if numThreads == 0 then [baseLoop] else loops)
    {
      for k := 0 to numThreads
        invariant |loops| == k && baseLoop !in loops && next == 0
        invariant forall i :: 0 <= i < k ==>
                    && fresh(loops[i]) && loops[i].View() == L.Start()
                    && fresh(loops[i].poller) && loops[i].poller.Valid() && loops[i].poller.known == {}
        invariant forall i, j :: 0 <= i < j < k ==> loops[i] != loops[j] && loops[i].poller != loops[j].poller
        invariant initialised == if hasCallback then old(initialised) + loops else old(initialised)
      {
        var loop := new EventLoop<F>();
        if hasCallback {
          initialised := initialised + [loop];
        }
        loops := loops + [loop];
      }
      if numThreads == 0 && hasCallback {
        initialised := initialised + [baseLoop];
      }
      calls := 0;
    }

    method GetNextLoop() returns (loop: EventLoop<F>)
      requires Valid()
      modifies this`next, this`calls
      ensures Valid() && calls == old(calls) + 1
      ensures loop == (if loops == [] then baseLoop else loops[old(calls) % |loops|])
    {
      loop := baseLoop;
      if loops != [] {
        RoundRobin(calls, |loops|);
        RoundRobin(calls + 1, |loops|);
        loop := loops[next];
        next := next + 1;
        if next >= |loops| {
          next := 0;
        }
      }
      calls := calls + 1;
    }
  }
}
