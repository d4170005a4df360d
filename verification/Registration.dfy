/** How one channel is registered: Channel.h's event mask, EpollPoller's `index_` and `channels_`,
    and the kernel's interest set, as a value. */
module Registration {
  import opened Prelude

  /** The epoll event bits the reactor looks at. */
  datatype Bit = IN | PRI | OUT | ERR | HUP | RDHUP

  type Mask = set<Bit>

  const NONE_EVENT: Mask := {}
  const READ_EVENT: Mask := {IN, PRI}
  const WRITE_EVENT: Mask := {OUT}

  /** `kNew`, `kAdded` and `kDeleted`. */
  datatype Index = New | Added | Deleted

  datatype CtlOp = Add | Mod | Del

  /** `refused` counts the `epoll_ctl` calls the kernel rejected. */
  datatype Chan = Chan(events: Mask, index: Index, addedToLoop: bool, mapped: bool,
                       kernel: Option<Mask>, refused: nat)

  const FRESH: Chan := Chan(NONE_EVENT, New, false, false, None, 0)

  /** The kernel refuses to add an fd it has, and to modify or delete one it has not. */
  function Ctl(c: Chan, op: CtlOp): Chan {
    match op
    case Add => if c.kernel.None? then c.(kernel := Some(c.events)) else c.(refused := c.refused + 1)
    case Mod => if c.kernel.Some? then c.(kernel := Some(c.events)) else c.(refused := c.refused + 1)
    case Del => if c.kernel.Some? then c.(kernel := None) else c.(refused := c.refused + 1)
  }

  /** `EpollPoller::updateChannel`. */
  function Updated(c: Chan): Chan {
    if c.index != Added then
      Ctl(c.(mapped := c.mapped || c.index == New, index := Added), Add)
    else if c.events == NONE_EVENT then
      Ctl(c, Del).(index := Deleted)
    else
      Ctl(c, Mod)
  }

  /** The enable/disable methods: a new mask, then `Channel::update`. */
  function WithEvents(c: Chan, events: Mask): Chan {
    Updated(c.(events := events, addedToLoop := true))
  }

  /** `Channel::remove` and `EpollPoller::removeChannel`, after their assertions. */
  function Removed(c: Chan): Chan {
    var r := c.(addedToLoop := false, mapped := false);
    (if c.index == Added then Ctl(r, Del) else r).(index := New)
  }

  /** What the two assertions on the removal path ask for. */
  predicate Removable(c: Chan) {
    c.events == NONE_EVENT && c.index != New
  }

  /** What the assertions of `~Channel` ask for (event handling aside). */
  predicate Destructible(c: Chan) {
    !c.addedToLoop && !c.mapped
  }

  /** Channel, poller map and kernel agree, and the kernel never refused a call. */
  ghost predicate Consistent(c: Chan) {
    && (c.index == Added <==> c.kernel.Some?)
    && (c.kernel.Some? ==> c.kernel.value == c.events)
    && (c.index == New <==> !c.mapped)
    && (c.index != Added ==> c.events == NONE_EVENT)
    && (c.addedToLoop <==> c.mapped)
    && c.refused == 0
  }

  datatype Call = EnableReading | DisableReading | EnableWriting | DisableWriting | DisableAll | Remove

  function NewMask(c: Chan, call: Call): Mask {
    match call
    case EnableReading => c.events + READ_EVENT
    case DisableReading => c.events - READ_EVENT
    case EnableWriting => c.events + WRITE_EVENT
    case DisableWriting => c.events - WRITE_EVENT
    case DisableAll => NONE_EVENT
    case Remove => c.events
  }

  /** One call on a channel; `None` when an assertion on the removal path fails. */
  function Apply(c: Chan, call: Call): Option<Chan> {
    if call.Remove? then (if Removable(c) then Some(Removed(c)) else None)
    else Some(WithEvents(c, NewMask(c, call)))
  }

  function RunCalls(c: Chan, calls: seq<Call>): Option<Chan>
    decreases |calls|
  {
    if calls == [] then Some(c)
    else match Apply(c, calls[0])
         case Some(d) => RunCalls(d, calls[1..])
         case None => None
  }

  /** Any sequence of calls that trips no assertion keeps all three views in agreement. */
  lemma {:induction false} RunKeepsConsistent(c: Chan, calls: seq<Call>)
    requires Consistent(c)
    ensures var r := RunCalls(c, calls); r.Some? ==> Consistent(r.value)
    decreases |calls|
  {
    if calls == [] || Apply(c, calls[0]).None? {
    } else {
      RunKeepsConsistent(Apply(c, calls[0]).value, calls[1..]);
    }
  }

  /** What each call asks the kernel for: reading is EPOLLIN and EPOLLPRI, writing is EPOLLOUT, and any
      mask but the empty one reaches the kernel as it is. */
  lemma CallReachesKernel(c: Chan, call: Call)
    requires Consistent(c)
    ensures Apply(c, call).None? <==> call.Remove? && (c.events != {} || c.index == New)
    ensures Apply(c, call).Some? ==>
              var d := Apply(c, call).value;
              && (call.EnableReading? ==> d.events == c.events + {IN, PRI})
              && (call.DisableReading? ==> d.events == c.events - {IN, PRI})
              && (call.EnableWriting? ==> d.events == c.events + {OUT})
              && (call.DisableWriting? ==> d.events == c.events - {OUT})
              && (call.DisableAll? ==> d.events == {})
              && (!call.Remove? && d.events != {} ==>
                    d.kernel == Some(d.events) && d.index == Added && d.mapped && d.addedToLoop)
              && (!call.Remove? && d.events == {} && c.index == Added ==>
                    d.kernel == None && d.index == Deleted && d.mapped && d.addedToLoop)
              && (call.Remove? ==>
                    d.events == {} && d.kernel == None && d.index == New && !d.mapped && !d.addedToLoop)
  {
  }

  /** The kernel refuses exactly an add of what it has and a change or removal of what it has not; a
      refused call changes nothing there. */
  lemma KernelRefusesIff(c: Chan, op: CtlOp)
    ensures var d := Ctl(c, op);
            && (d.refused > c.refused <==> ((op == Add) <==> c.kernel.Some?))
            && (d.refused > c.refused ==> d.refused == c.refused + 1 && d.kernel == c.kernel)
            && (d.refused <= c.refused ==>
                  d.refused == c.refused && d.kernel == if op == Del then None else Some(c.events))
  {
  }

  /** A second `disableAll` puts the descriptor back into the kernel with an empty mask. */
  lemma DisableAllTwiceReAdds(c: Chan)
    requires Consistent(c)
    ensures var d := WithEvents(c, NONE_EVENT);
            && (c.index == Added <==> d.kernel.None?)
            && (c.index != Added <==> d.kernel == Some(NONE_EVENT))
  {
  }
}
