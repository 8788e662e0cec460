/**
 * The single channel slot that `ChatAPI.messageChannel` and
 * `NotificationAPI.realtimeChannel` each keep, seen together with the
 * realtime transport: which channels it opened and which `unsubscribe()`
 * calls it received, in order.
 *
 * Subscribing unsubscribes the channel in the slot (if any) and installs a
 * new one. The disposer handed back by a subscription does not remember
 * which channel it was made for: it unsubscribes and clears whatever is in
 * the slot when it is called.
 */
module Realtime {
  import opened Basics

  /** A channel, numbered in the order the transport opened it. */
  datatype Channel = Channel(serial: nat, topic: string, filter: string)

  /** The slot, the number of channels opened so far, and the channels unsubscribed so far. */
  datatype Slot = Slot(current: Option<Channel>, serials: nat, closed: seq<Channel>)

  /**
   * The closure a subscription returns. `createdFor` is the serial of the
   * channel installed by that subscription; calling the closure ignores it.
   */
  datatype Disposer = Disposer(createdFor: nat)

  const Empty: Slot := Slot(None, 0, [])

  /**
   * No channel leaks and none is unsubscribed twice: every channel ever
   * opened is either in the slot (the newest) or was unsubscribed, once, and
   * they were unsubscribed in the order they were opened.
   */
  predicate NoLeak(s: Slot)
  {
    && |s.closed| + (if s.current.Some? then 1 else 0) == s.serials
    && (forall i :: 0 <= i < |s.closed| ==> s.closed[i].serial == i)
    && (s.current.Some? ==> s.current.value.serial == s.serials - 1)
  }

  /** What the transport receives when the slot is emptied: one `unsubscribe()` if it held a channel. */
  function Unsubscribed(s: Slot): seq<Channel>
  {
    if s.current.Some? then [s.current.value] else []
  }

  /** `subscribeTo…(…)`: unsubscribe the slot's channel, then open and install a new one. */
  function Subscribe(s: Slot, topic: string, filter: string): (r: Slot)
    ensures r.current == Some(Channel(s.serials, topic, filter))
    ensures r.serials == s.serials + 1
    ensures r.closed == s.closed + Unsubscribed(s)
    ensures NoLeak(s) ==> NoLeak(r)
  {
    Slot(Some(Channel(s.serials, topic, filter)), s.serials + 1, s.closed + Unsubscribed(s))
  }

  /** Calling any disposer: if the slot holds a channel, unsubscribe it and clear the slot. */
  function Dispose(s: Slot): (r: Slot)
    ensures r.current.None?
    ensures r.serials == s.serials
    ensures r.closed == s.closed + Unsubscribed(s)
    ensures NoLeak(s) ==> NoLeak(r)
  {
    Slot(None, s.serials, s.closed + Unsubscribed(s))
  }

  /** A second call of a disposer finds the slot empty and does nothing. */
  lemma DisposeTwice(s: Slot)
    ensures Dispose(Dispose(s)) == Dispose(s)
  {
  }

  /**
   * A stale disposer, kept from the subscription to topic `a`, called after
   * a re-subscription to topic `b`, unsubscribes `b`'s channel.
   */
  lemma StaleDisposerClosesNewChannel(s: Slot, a: string, fa: string, b: string, fb: string)
    ensures var stale := Disposer(s.serials);
            var s2 := Subscribe(Subscribe(s, a, fa), b, fb);
            && s2.current.value.serial != stale.createdFor
            && Dispose(s2).current.None?
            && Dispose(s2).closed == s.closed + Unsubscribed(s) + [Channel(s.serials, a, fa), Channel(s.serials + 1, b, fb)]
  {
  }

  /**
   * Disposing before subscribing makes no difference to what the transport
   * sees, because subscribing already unsubscribes the slot's channel.
   */
  lemma SubscribeAfterDispose(s: Slot, topic: string, filter: string)
    ensures Subscribe(Dispose(s), topic, filter) == Subscribe(s, topic, filter)
  {
  }

  /** The operations a client performs on the slot. */
  datatype Op = Sub(topic: string, filter: string) | Disp

  function Apply(s: Slot, op: Op): Slot
  {
    match op
    case Sub(t, f) => Subscribe(s, t, f)
    case Disp => Dispose(s)
  }

  function Run(s: Slot, ops: seq<Op>): Slot
    decreases |ops|
  {
    if ops == [] then s else Run(Apply(s, ops[0]), ops[1..])
  }

  /**
   * Over any sequence of subscriptions and disposals, no channel leaks, no
   * channel is unsubscribed twice, and the transport has seen exactly one
   * `unsubscribe()` per channel that is no longer in the slot.
   */
  lemma {:induction false} RunNoLeak(s: Slot, ops: seq<Op>)
    requires NoLeak(s)
    ensures NoLeak(Run(s, ops))
    ensures Run(s, ops).serials == s.serials + Subscriptions(ops)
    ensures |Run(s, ops).closed| >= |s.closed| && Run(s, ops).closed[..|s.closed|] == s.closed
    decreases |ops|
  {
    if ops != [] {
      var s1 := Apply(s, ops[0]);
      RunNoLeak(s1, ops[1..]);
      assert Run(s1, ops[1..]).closed[..|s.closed|] == Run(s1, ops[1..]).closed[..|s1.closed|][..|s.closed|];
    }
  }

  /** The number of subscriptions in `ops`. */
  function Subscriptions(ops: seq<Op>): nat
  {
    if ops == [] then 0 else (if ops[0].Sub? then 1 else 0) + Subscriptions(ops[1..])
  }
}
