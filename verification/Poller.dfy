/**
 Channels and the epoll poller. The kernel's interest list is a field of the poller, changed by `Ctl` only,
 whose preconditions are what `epoll_ctl` demands: adding needs an absent descriptor, changing and
 deleting need a present one. Descriptors of different channels are different while the channels live.
 */
module Poller {

  type Mask = bv8

  const NONE_EVENT: Mask := 0
  const READ_EVENT: Mask := 3
  const WRITE_EVENT: Mask := 4

  datatype Index = New | Added | Deleted

  class Channel {
    const fd: int
    var events: Mask
    var revents: Mask
    var index: Index

    constructor (descriptor: int)
      ensures fd == descriptor && events == NONE_EVENT && index == New
    {
      fd, events, revents, index := descriptor, NONE_EVENT, NONE_EVENT, New;
    }

    predicate IsNoneEvent()
      reads this
    {
      events == NONE_EVENT
    }

    predicate IsWriting()
      reads this
    {
      events & WRITE_EVENT != 0
    }
  }

  datatype Interest = Interest(mask: Mask, channel: Channel)

  datatype Operation = CtlAdd | CtlMod | CtlDel

  /** What the index of a channel becomes when it is updated. */
  function NextIndex(index: Index, events: Mask): Index {
    match index
    case Added => if events == NONE_EVENT then Deleted else Added
    case _ => Added
  }

  class EPollPoller {
    var channels: map<int, Channel>
    var kernel: map<int, Interest>
    var capacity: nat              // the length of the event list handed to `epoll_wait`
    ghost var live: set<Channel>   // the channels that exist

    ghost predicate DistinctFds()
      reads this
    {
      forall c, d :: c in live && d in live && c.fd == d.fd ==> c == d
    }

    /** The map holds exactly the channels that are added or deleted. */
    ghost predicate MapOk()
      reads this, live`index
    {
      && (forall fd :: fd in channels ==> channels[fd] in live && channels[fd].fd == fd)
      && (forall c :: c in live ==> (c.index != New <==> c.fd in channels && channels[c.fd] == c))
    }

    /** The kernel holds exactly the added channels, with their current masks. */
    ghost predicate KernelOk()
      reads this, live`index, live`events
    {
      && (forall fd :: fd in kernel ==> kernel[fd].channel in live && kernel[fd].channel.fd == fd)
      && (forall c :: c in live ==> (c.index == Added <==> c.fd in kernel))
      && (forall c :: c in live && c.fd in kernel ==> kernel[c.fd] == Interest(c.events, c))
    }

    /** All but the mask of `except`, which a channel changes just before it asks for an update. */
    ghost predicate KernelOkBut(except: Channel)
      reads this, live`index, live`events
    {
      && (forall fd :: fd in kernel ==> kernel[fd].channel in live && kernel[fd].channel.fd == fd)
      && (forall c :: c in live ==> (c.index == Added <==> c.fd in kernel))
      && (forall c :: c in live && c.fd in kernel && c != except ==> kernel[c.fd] == Interest(c.events, c))
    }

    ghost predicate Valid()
      reads this, live`index, live`events
    {
      DistinctFds() && MapOk() && KernelOk() && capacity > 0
    }

    constructor ()
      ensures Valid() && live == {} && kernel == map[] && channels == map[]
    {
      channels, kernel, capacity, live := map[], map[], 16, {};
    }

    /** A channel comes to life on a descriptor no living channel has. */
    method Create(fd: int) returns (c: Channel)
      requires Valid() && forall d :: d in live ==> d.fd != fd
      modifies this`live
      ensures fresh(c) && c.fd == fd && c.index == New && c.IsNoneEvent()
      ensures Valid() && live == old(live) + {c}
    {
      c := new Channel(fd);
      live := live + {c};
    }

    /** A channel may be destroyed once it is out of the map. */
    ghost method Destroy(c: Channel)
      requires Valid() && c in live && c.index == New
      modifies this`live
      ensures Valid() && live == old(live) - {c}
    {
      live := live - {c};
    }

    method Ctl(operation: Operation, c: Channel)
      requires operation == CtlAdd ==> c.fd !in kernel
      requires operation != CtlAdd ==> c.fd in kernel
      modifies this`kernel
      ensures kernel == if operation == CtlDel then old(kernel) - {c.fd} else old(kernel)[c.fd := Interest(c.events, c)]
    {
      kernel := if operation == CtlDel then kernel - {c.fd} else kernel[c.fd := Interest(c.events, c)];
    }

    /** `updateChannel`, after the channel has set its mask. */
    method UpdateChannel(c: Channel)
      requires c in live && capacity > 0 && DistinctFds() && MapOk() && KernelOkBut(c)
      modifies this`channels, this`kernel, c`index
      ensures Valid() && c.index == NextIndex(old(c.index), c.events)
      ensures kernel - {c.fd} == old(kernel) - {c.fd} && channels - {c.fd} == old(channels) - {c.fd}
    {
      if c.index == New || c.index == Deleted {
        if c.index == New {
          channels := channels[c.fd := c];
        }
        c.index := Added;
        Ctl(CtlAdd, c);
      } else {
        if c.IsNoneEvent() {
          Ctl(CtlDel, c);
          c.index := Deleted;
        } else {
          Ctl(CtlMod, c);
        }
      }
    }

    /** `remove`, which the source allows only without events. */
    method RemoveChannel(c: Channel)
      requires Valid() && c in live && c.IsNoneEvent()
      modifies this`channels, this`kernel, c`index
      ensures Valid() && c.index == New && c.fd !in channels && c.fd !in kernel
      ensures kernel - {c.fd} == old(kernel) - {c.fd} && channels - {c.fd} == old(channels) - {c.fd}
    {
      var index := c.index;
      channels := channels - {c.fd};
      if index == Added {
        Ctl(CtlDel, c);
      }
      c.index := New;
    }

    method SetEvents(c: Channel, events: Mask)
      requires Valid() && c in live
      modifies this`channels, this`kernel, c`index, c`events
      ensures Valid() && c.events == events && c.index == NextIndex(old(c.index), events)
      ensures c.index == Added <==> c.fd in kernel
    {
      c.events := events;
      UpdateChannel(c);
    }

    method EnableReading(c: Channel)
      requires Valid() && c in live
      modifies this`channels, this`kernel, c`index, c`events
      ensures Valid() && c.events == old(c.events) | READ_EVENT
      ensures c.index == Added && c.fd in kernel && kernel[c.fd].mask & READ_EVENT == READ_EVENT
    {
      SetEvents(c, c.events | READ_EVENT);
      MaskSet(old(c.events), READ_EVENT);
    }

    method EnableWriting(c: Channel)
      requires Valid() && c in live
      modifies this`channels, this`kernel, c`index, c`events
      ensures Valid() && c.events == old(c.events) | WRITE_EVENT
      ensures c.index == Added && c.fd in kernel && c.IsWriting() && kernel[c.fd].mask & WRITE_EVENT == WRITE_EVENT
    {
      SetEvents(c, c.events | WRITE_EVENT);
      MaskSet(old(c.events), WRITE_EVENT);
    }

    method DisableWriting(c: Channel)
      requires Valid() && c in live
      modifies this`channels, this`kernel, c`index, c`events
      ensures Valid() && c.events == old(c.events) & !WRITE_EVENT && !c.IsWriting()
      ensures c.index == NextIndex(old(c.index), c.events)
    {
      SetEvents(c, c.events & !WRITE_EVENT);
      MaskCleared(old(c.events));
    }

    method DisableAll(c: Channel)
      requires Valid() && c in live
      modifies this`channels, this`kernel, c`index, c`events
      ensures Valid() && c.IsNoneEvent() && c.index == NextIndex(old(c.index), NONE_EVENT)
    {
      SetEvents(c, NONE_EVENT);
    }

    /** The kernel reports what it was told to watch. */
    predicate Reported(r: Interest)
      reads this
    {
      r.channel.fd in kernel && kernel[r.channel.fd].channel == r.channel
    }

    /**
     `poll`: hand out the channels the kernel reports, each with what was reported for it last, and double a list
     that was filled.
     */
    method Poll(ready: seq<Interest>) returns (active: seq<Channel>)
      requires Valid() && |ready| <= capacity
      requires forall i :: 0 <= i < |ready| ==> Reported(ready[i])
      modifies this`capacity, live`revents
      ensures Valid() && capacity == if |ready| == old(capacity) then 2 * old(capacity) else old(capacity)
      ensures |active| == |ready|
      ensures forall i :: 0 <= i < |active| ==>
                active[i] == ready[i].channel && active[i] in live && active[i].index == Added
                && active[i].fd in channels
      ensures forall i :: 0 <= i < |ready| && (forall j :: i < j < |ready| ==> ready[j].channel != ready[i].channel) ==>
                ready[i].channel.revents == ready[i].mask
      ensures forall c :: c in live && (forall i :: 0 <= i < |ready| ==> ready[i].channel != c) ==>
                c.revents == old(c.revents)
    {
      active := [];
      for i := 0 to |ready|
        invariant Valid() && |active| == i
        invariant forall j :: 0 <= j < i ==> active[j] == ready[j].channel
        invariant capacity == old(capacity) && kernel == old(kernel)
        invariant forall j :: 0 <= j < i && (forall k :: j < k < i ==> ready[k].channel != ready[j].channel) ==>
                    ready[j].channel.revents == ready[j].mask
        invariant forall c :: c in live && (forall j :: 0 <= j < i ==> ready[j].channel != c) ==>
                    c.revents == old(c.revents)
      {
        var channel := ready[i].channel;
        channel.revents := ready[i].mask;
        active := active + [channel];
      }
      if |ready| == capacity {
        capacity := 2 * capacity;
      }
    }
  }

  lemma MaskSet(events: Mask, bits: Mask)
    requires bits != 0
    ensures (events | bits) & bits == bits && events | bits != 0
  {
  }

  lemma MaskCleared(events: Mask)
    ensures (events & !WRITE_EVENT) & WRITE_EVENT == 0
  {
  }

  /** What may happen to the `k`-th of a loop's channels. */
  datatype Request = Reading(k: nat) | Writing(k: nat) | NotWriting(k: nat) | Nothing(k: nat) | Removal(k: nat)

  /** A channel as the poller sees it. */
  datatype Seen = Seen(events: Mask, index: Index)

  /** What one request makes of channel `k`; a removal with events left is one the source asserts never happens. */
  function Asked(s: Seen, r: Request, k: nat): Seen {
    if r.k != k then s
    else match r
      case Reading(_) => Update(s, s.events | READ_EVENT)
      case Writing(_) => Update(s, s.events | WRITE_EVENT)
      case NotWriting(_) => Update(s, s.events & !WRITE_EVENT)
      case Nothing(_) => Update(s, NONE_EVENT)
      case Removal(_) => if s.events == NONE_EVENT then s.(index := New) else s
  }

  function Update(s: Seen, events: Mask): Seen { Seen(events, NextIndex(s.index, events)) }

  function AskedAll(s: Seen, requests: seq<Request>, k: nat): Seen {
    if requests == [] then s
    else Asked(AskedAll(s, requests[..|requests| - 1], k), requests[|requests| - 1], k)
  }

  /**
   Whatever the channels ask for in whatever order, each channel ends as its own requests make it, and the
   kernel holds exactly those that end added, with the masks they end with.
   */
  method Serve(p: EPollPoller, channels: seq<Channel>, requests: seq<Request>)
    requires p.Valid() && forall i :: 0 <= i < |channels| ==> channels[i] in p.live
    requires forall i, j :: 0 <= i < j < |channels| ==> channels[i] != channels[j]
    modifies p`channels, p`kernel, p.live`index, p.live`events
    ensures p.Valid() && p.live == old(p.live)
    ensures forall k :: 0 <= k < |channels| ==>
              var s := AskedAll(old(Seen(channels[k].events, channels[k].index)), requests, k);
              && channels[k].events == s.events && channels[k].index == s.index
              && (s.index == Added <==> channels[k].fd in p.kernel)
              && (s.index == Added ==> p.kernel[channels[k].fd] == Interest(s.events, channels[k]))
  {
    for i := 0 to |requests|
      invariant p.Valid() && p.live == old(p.live)
      invariant forall k :: 0 <= k < |channels| ==>
                  Seen(channels[k].events, channels[k].index)
                  == AskedAll(old(Seen(channels[k].events, channels[k].index)), requests[..i], k)
    {
      assert requests[..i + 1][..i] == requests[..i];
      var k := requests[i].k;
      if k < |channels| {
        var c := channels[k];
        match requests[i]
        case Reading(_) => p.EnableReading(c);
        case Writing(_) => p.EnableWriting(c);
        case NotWriting(_) => p.DisableWriting(c);
        case Nothing(_) => p.DisableAll(c);
        case Removal(_) =>
          if c.IsNoneEvent() {
            p.RemoveChannel(c);
          }
      }
    }
    assert requests[..|requests|] == requests;
  }

  /** A channel that wants any event is in the kernel's list, whatever it asked for before. */
  lemma {:induction false} AddedOrIdle(requests: seq<Request>, k: nat)
    ensures var s := AskedAll(Seen(NONE_EVENT, New), requests, k); s.events != NONE_EVENT ==> s.index == Added
  {
    if requests != [] {
      AddedOrIdle(requests[..|requests| - 1], k);
    }
  }

  /** The mask a request leaves a channel with. */
  function MaskAfter(mask: Mask, r: Request): Mask {
    match r
    case Reading(_) => mask | READ_EVENT
    case Writing(_) => mask | WRITE_EVENT
    case NotWriting(_) => mask & !WRITE_EVENT
    case Nothing(_) => NONE_EVENT
    case Removal(_) => mask
  }

  /**
   What the requests of channel `k` say of it, without any index: its mask, whether it wanted no event
   ever since it was new or last removed, and how many updates in a row have left it wanting none.
   */
  datatype Wish = Wish(mask: Mask, untouched: bool, idle: nat)

  function WishOf(requests: seq<Request>, k: nat): Wish {
    if requests == [] then Wish(NONE_EVENT, true, 0)
    else
      var w, r := WishOf(requests[..|requests| - 1], k), requests[|requests| - 1];
      var mask := MaskAfter(w.mask, r);
      if r.k != k then w
      else if r.Removal? then if w.mask == NONE_EVENT then Wish(NONE_EVENT, true, 0) else w
      else if mask != NONE_EVENT then Wish(mask, false, 0)
      else Wish(mask, w.untouched, w.idle + 1)
  }

  /** An idle channel is put into the kernel's list and taken out again by turns. */
  function IndexOf(w: Wish): Index {
    if w.mask != NONE_EVENT then Added
    else if w.untouched && w.idle == 0 then New
    else if w.untouched == (w.idle % 2 == 1) then Added
    else Deleted
  }

  lemma {:induction false} WishDecides(requests: seq<Request>, k: nat)
    ensures var w := WishOf(requests, k);
            && AskedAll(Seen(NONE_EVENT, New), requests, k) == Seen(w.mask, IndexOf(w))
            && (w.mask != NONE_EVENT ==> w.idle == 0 && !w.untouched)
            && (w.mask == NONE_EVENT ==> w.untouched || w.idle > 0)
  {
    if requests != [] {
      WishDecides(requests[..|requests| - 1], k);
    }
  }

  /**
   Exactly when a channel is in the kernel's list with an empty mask: an odd number of updates in a row
   have left it wanting nothing since it was new or last removed, or an even number, at least two, since
   it last wanted something.
   */
  lemma {:induction false} IdleAddedExactly(requests: seq<Request>, k: nat)
    ensures var w := WishOf(requests, k);
            AskedAll(Seen(NONE_EVENT, New), requests, k) == Seen(NONE_EVENT, Added) <==>
              w.mask == NONE_EVENT && w.idle > 0 && (w.untouched <==> w.idle % 2 == 1)
  {
    WishDecides(requests, k);
  }

  /** Two such inputs: asking for nothing at once, and asking for nothing twice. */
  lemma IdleChannelAdded(k: nat)
    ensures AskedAll(Seen(NONE_EVENT, New), [Nothing(k)], k) == Seen(NONE_EVENT, Added)
    ensures AskedAll(Seen(NONE_EVENT, New), [Reading(k), Nothing(k), Nothing(k)], k) == Seen(NONE_EVENT, Added)
  {
    var three := [Reading(k), Nothing(k), Nothing(k)];
    assert [Nothing(k)][..0] == [];
    assert three[..2] == [Reading(k), Nothing(k)] && three[..2][..1] == [Reading(k)] && [Reading(k)][..0] == [];
    var s := Asked(Seen(NONE_EVENT, New), Reading(k), k);
    assert AskedAll(Seen(NONE_EVENT, New), [Reading(k)], k) == s == Seen(READ_EVENT, Added);
    assert AskedAll(Seen(NONE_EVENT, New), three[..2], k) == Seen(NONE_EVENT, Deleted);
  }
}
