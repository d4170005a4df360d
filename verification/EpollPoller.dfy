/** Channel.cpp and EpollPoller.cpp. A channel reaches its poller through the owning loop. */
module Pollers {
  import opened Prelude
  import opened Registration

  const INIT_EVENT_LIST_SIZE: nat := 16

  datatype Interest = Interest(events: Mask, channel: Channel)

  datatype Ready = Ready(fd: int, revents: Mask)

  class EpollPoller {
    var channels: map<int, Channel>
    var eventListSize: nat
    /** The kernel's side of this epoll instance. */
    var kernel: map<int, Interest>
    var refused: nat
    /** Every channel constructed for this poller and not destroyed. */
    ghost var known: set<Channel>

    constructor ()
      ensures Valid() && known == {} && eventListSize == 16 && channels == map[]
    {
      channels, kernel, refused, known := map[], map[], 0, {};
      eventListSize := INIT_EVENT_LIST_SIZE;
    }

    /** Map and kernel only mention known channels, under their own descriptors, which are distinct. */
    ghost predicate WellFormed()
      reads this
    {
      && (forall c, d :: c in known && d in known && c.fd == d.fd ==> c == d)
      && (forall c :: c in known ==> c.poller == this)
      && (forall fd :: fd in channels ==> channels[fd] in known && channels[fd].fd == fd)
      && (forall fd :: fd in kernel ==> kernel[fd].channel in known && kernel[fd].channel.fd == fd)
    }

    ghost predicate Valid()
      reads this, known
    {
      WellFormed() && refused == 0 && forall c :: c in known ==> Consistent(View(c))
    }

    ghost function View(c: Channel): Chan
      reads this, c
    {
      Chan(c.events, c.index, c.addedToLoop, c.fd in channels && channels[c.fd] == c,
           if c.fd in kernel then Some(kernel[c.fd].events) else None, refused)
    }

    /** Nothing about any other channel changed. */
    twostate predicate OthersUnchanged(c: Channel)
      reads this, known
    {
      && known == old(known) && refused == old(refused)
      && (forall d :: d in known && d != c ==>
            unchanged(d) && View(d) == old(View(d)))
    }

    method EpollCtl(op: CtlOp, channel: Channel)
      modifies this`kernel, this`refused
      ensures View(channel) == Ctl(old(View(channel)), op)
      ensures forall fd :: fd != channel.fd ==>
                (fd in kernel <==> fd in old(kernel)) && (fd in kernel ==> kernel[fd] == old(kernel)[fd])
      ensures channel.fd in kernel ==>
                kernel[channel.fd].channel == channel
                || (channel.fd in old(kernel) && kernel[channel.fd] == old(kernel)[channel.fd])
    {
      var fd := channel.fd;
      if (op == Add) == (fd in kernel) {
        refused := refused + 1;
      } else if op == Del {
        kernel := kernel - {fd};
      } else {
        kernel := kernel[fd := Interest(channel.events, channel)];
      }
    }

    method UpdateChannel(channel: Channel)
      requires WellFormed() && channel in known
      modifies this`channels, this`kernel, this`refused, channel`index
      ensures WellFormed() && View(channel) == Updated(old(View(channel)))
      ensures channel.events == old(channel.events) && refused == View(channel).refused
      ensures forall d :: d in known && d.fd != channel.fd ==>
                && (d.fd in channels <==> d.fd in old(channels))
                && (d.fd in channels ==> channels[d.fd] == old(channels)[d.fd])
                && (d.fd in kernel <==> d.fd in old(kernel))
                && (d.fd in kernel ==> kernel[d.fd] == old(kernel)[d.fd])
    {
      var index := channel.index;
      if index == New || index == Deleted {
        if index == New {
          channels := channels[channel.fd := channel];
        }
        channel.index := Added;
        EpollCtl(Add, channel);
      } else {
        if channel.IsNoneEvent() {
          EpollCtl(Del, channel);
          channel.index := Deleted;
        } else {
          EpollCtl(Mod, channel);
        }
      }
    }

    method RemoveChannel(channel: Channel)
      requires WellFormed() && channel in known
      requires channel.index == Added || channel.index == Deleted
      modifies this`channels, this`kernel, this`refused, channel`index
      ensures WellFormed()
      ensures View(channel) == Removed(old(View(channel))).(addedToLoop := channel.addedToLoop)
      ensures forall d :: d in known && d.fd != channel.fd ==>
                && (d.fd in channels <==> d.fd in old(channels))
                && (d.fd in channels ==> channels[d.fd] == old(channels)[d.fd])
                && (d.fd in kernel <==> d.fd in old(kernel))
                && (d.fd in kernel ==> kernel[d.fd] == old(kernel)[d.fd])
    {
      var index := channel.index;
      channels := channels - {channel.fd};
      if index == Added {
        EpollCtl(Del, channel);
      }
      channel.index := New;
    }

    /** The channel `epoll_wait` names for a ready descriptor. */
    function Named(r: Ready): Channel
      requires r.fd in kernel
      reads this
    {
      kernel[r.fd].channel
    }

    /** What `epoll_wait` may return: at most the event list's size, each registered fd once. */
    ghost predicate Waitable(ready: seq<Ready>)
      reads this
    {
      && |ready| <= eventListSize
      && (forall i :: 0 <= i < |ready| ==> ready[i].fd in kernel)
      && (forall i, j :: 0 <= i < j < |ready| ==> ready[i].fd != ready[j].fd)
    }

    /** The debug assertions of `fillActiveChannels` are the `channels` clauses below. */
    method FillActiveChannels(ready: seq<Ready>) returns (active: seq<Channel>)
      requires Valid() && Waitable(ready)
      modifies set c | c in known :: c`revents
      ensures Valid() && |active| == |ready|
      ensures forall i :: 0 <= i < |ready| ==>
                && ready[i].fd in channels && channels[ready[i].fd] == active[i]
                && active[i].fd == ready[i].fd
                && active[i].revents == ready[i].revents
      ensures forall c :: c in known && c !in active ==> c.revents == old(c.revents)
    {
      active := [];
      for i := 0 to |ready|
        invariant Valid() && |active| == i
        invariant forall k :: 0 <= k < i ==>
                    active[k] == Named(ready[k]) && active[k].revents == ready[k].revents
        invariant forall c :: c in known && c !in active ==> c.revents == old(c.revents)
      {
        var channel := kernel[ready[i].fd].channel;
        channel.revents := ready[i].revents;
        active := active + [channel];
      }
    }

    /** Each reported channel is active with its events, no other channel is touched, and a full event list
        is doubled for the next time. */
    method Poll(ready: seq<Ready>) returns (active: seq<Channel>)
      requires Valid() && Waitable(ready)
      modifies this`eventListSize, set c | c in known :: c`revents
      ensures Valid() && |active| == |ready|
      ensures forall i :: 0 <= i < |ready| ==>
                && ready[i].fd in channels && channels[ready[i].fd] == active[i]
                && active[i].fd == ready[i].fd
                && active[i].revents == ready[i].revents
      ensures forall c :: c in known && c !in active ==> c.revents == old(c.revents)
      ensures eventListSize == (if |ready| == old(eventListSize) && ready != []
                                then old(eventListSize) * 2 else old(eventListSize))
    {
      active := FillActiveChannels(ready);
      if |ready| == eventListSize && ready != [] {
        eventListSize := eventListSize * 2;
      }
    }

    /** The kernel's non-empty interest is exactly the channels' own event masks. */
    lemma KernelIsTheEventMap(fd: int, mask: Mask)
      requires Valid() && mask != NONE_EVENT
      ensures (fd in kernel && kernel[fd].events == mask)
         <==> (exists c :: c in known && c.fd == fd && c.events == mask)
    {
      if fd in kernel && kernel[fd].events == mask {
        var c := kernel[fd].channel;
        assert Consistent(View(c));
      }
      if exists c :: c in known && c.fd == fd && c.events == mask {
        var c :| c in known && c.fd == fd && c.events == mask;
        assert Consistent(View(c));
      }
    }
  }

  class Channel {
    const fd: int
    const poller: EpollPoller
    var events: Mask
    var revents: Mask
    var index: Index
    var tied: bool
    var eventHandling: bool
    var addedToLoop: bool

    /** The descriptor is open, so no other live channel of the poller has it. */
    constructor (poller: EpollPoller, fd: int)
      requires poller.Valid() && forall c :: c in poller.known ==> c.fd != fd
      modifies poller`known
      ensures this.fd == fd && this.poller == poller && poller.Valid()
      ensures poller.known == old(poller.known) + {this} && poller.View(this) == FRESH
      ensures !tied && !eventHandling && revents == {}
    {
      this.fd, this.poller := fd, poller;
      events, revents, index := NONE_EVENT, {}, New;
      tied, eventHandling, addedToLoop := false, false, false;
      new;
      poller.known := poller.known + {this};
      assert forall c :: c in old(poller.known) ==> poller.View(c) == old(poller.View(c));
    }

    /** `tie`: dispatch will hold the connection, or skip it when it is gone. */
    method Tie()
      modifies this`tied
      ensures tied
    {
      tied := true;
    }

    predicate IsNoneEvent()
      reads this
    {
      events == NONE_EVENT
    }

    predicate IsWriting()
      reads this
    {
      OUT in events
    }

    ghost predicate Registered()
      reads this, poller, poller.known
    {
      poller.Valid() && this in poller.known
    }

    method SetEvents(mask: Mask)
      requires Registered()
      modifies this`events, this`addedToLoop, this`index
      modifies poller`channels, poller`kernel, poller`refused
      ensures Registered() && poller.OthersUnchanged(this)
      ensures poller.View(this) == WithEvents(old(poller.View(this)), mask)
    {
      events := mask;
      addedToLoop := true;
      assert poller.View(this) == old(poller.View(this)).(events := mask, addedToLoop := true);
      poller.UpdateChannel(this);
      forall d | d in poller.known && d != this
        ensures poller.View(d) == old(poller.View(d))
      {
        assert d.fd != fd;
      }
    }

    method EnableReading()
      requires Registered()
      modifies this`events, this`addedToLoop, this`index
      modifies poller`channels, poller`kernel, poller`refused
      ensures Registered() && poller.OthersUnchanged(this)
      ensures poller.View(this) == WithEvents(old(poller.View(this)), old(events) + READ_EVENT)
    {
      SetEvents(events + READ_EVENT);
    }

    method DisableReading()
      requires Registered()
      modifies this`events, this`addedToLoop, this`index
      modifies poller`channels, poller`kernel, poller`refused
      ensures Registered() && poller.OthersUnchanged(this)
      ensures poller.View(this) == WithEvents(old(poller.View(this)), old(events) - READ_EVENT)
    {
      SetEvents(events - READ_EVENT);
    }

    method EnableWriting()
      requires Registered()
      modifies this`events, this`addedToLoop, this`index
      modifies poller`channels, poller`kernel, poller`refused
      ensures Registered() && poller.OthersUnchanged(this)
      ensures poller.View(this) == WithEvents(old(poller.View(this)), old(events) + WRITE_EVENT)
    {
      SetEvents(events + WRITE_EVENT);
    }

    method DisableWriting()
      requires Registered()
      modifies this`events, this`addedToLoop, this`index
      modifies poller`channels, poller`kernel, poller`refused
      ensures Registered() && poller.OthersUnchanged(this)
      ensures poller.View(this) == WithEvents(old(poller.View(this)), old(events) - WRITE_EVENT)
    {
      SetEvents(events - WRITE_EVENT);
    }

    method DisableAll()
      requires Registered()
      modifies this`events, this`addedToLoop, this`index
      modifies poller`channels, poller`kernel, poller`refused
      ensures Registered() && poller.OthersUnchanged(this)
      ensures poller.View(this) == WithEvents(old(poller.View(this)), NONE_EVENT)
    {
      SetEvents(NONE_EVENT);
    }

    method Remove()
      requires Registered() && Removable(poller.View(this))
      modifies this`addedToLoop, this`index
      modifies poller`channels, poller`kernel, poller`refused
      ensures Registered() && poller.OthersUnchanged(this)
      ensures poller.View(this) == Removed(old(poller.View(this)))
      ensures Destructible(poller.View(this))
    {
      addedToLoop := false;
      poller.RemoveChannel(this);
    }

    /** `~Channel`, under its assertions; its descriptor may then be used again. */
    method Destroy()
      requires Registered() && Destructible(poller.View(this)) && !eventHandling
      modifies poller`known
      ensures poller.Valid() && poller.known == old(poller.known) - {this}
      ensures forall c :: c in poller.known ==> c.fd != fd
      ensures forall c :: c in poller.known ==> poller.View(c) == old(poller.View(c))
    {
      assert Consistent(poller.View(this));
      poller.known := poller.known - {this};
      assert forall c :: c in poller.known ==> poller.View(c) == old(poller.View(c));
    }
  }
}
