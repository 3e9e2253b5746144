/** The pointer-lock lifecycle of the controller, reduced to whether its
    input listeners are registered with the host and the log of the events
    it dispatched to its own listeners. */
module PointerLock {

  /** Events the controller dispatches: `{ type: 'lock' }`, `{ type: 'unlock' }`. */
  datatype Event = Lock | Unlock

  datatype Lifecycle = Lifecycle(registered: bool, events: seq<Event>)

  const Created: Lifecycle := Lifecycle(false, [])

  /** `connect`: registers the five input listeners (registering the same
      handler twice has no further effect) and asks the host for the lock.
      Dispatches nothing. */
  function Connect(l: Lifecycle): (r: Lifecycle)
    ensures r.registered && r.events == l.events
  {
    l.(registered := true)
  }

  /** `disconnect`: removes the five input listeners; dispatches nothing. */
  function Disconnect(l: Lifecycle): (r: Lifecycle)
    ensures !r.registered && r.events == l.events
  {
    l.(registered := false)
  }

  /** The lock-change handler: when the lock is held by the document body it
      dispatches `lock` and leaves the listeners as they are; otherwise it
      disconnects first and then dispatches `unlock`. */
  function OnLockChange(l: Lifecycle, lockedToBody: bool): (r: Lifecycle)
    ensures |r.events| == |l.events| + 1 && r.events[..|l.events|] == l.events
    ensures r.events[|l.events|] == (if lockedToBody then Lock else Unlock)
    ensures r.registered == (l.registered && lockedToBody)
  {
    if lockedToBody then l.(events := l.events + [Lock])
    else
      var d := Disconnect(l);
      d.(events := d.events + [Unlock])
  }

  /** Connecting and disconnecting are idempotent. */
  lemma ConnectDisconnectIdempotent(l: Lifecycle)
    ensures Connect(Connect(l)) == Connect(l)
    ensures Disconnect(Disconnect(l)) == Disconnect(l)
  {
  }

  /** Number of occurrences of `e` in an event log. */
  function Occurrences(events: seq<Event>, e: Event): nat
    decreases |events|
  {
    if events == [] then 0
    else (if events[0] == e then 1 else 0) + Occurrences(events[1..], e)
  }

  /** Number of `true` notifications. */
  function Locks(notifications: seq<bool>): nat
    decreases |notifications|
  {
    if notifications == [] then 0
    else (if notifications[0] then 1 else 0) + Locks(notifications[1..])
  }

  /** The lifecycle after a sequence of lock-change notifications, each
      saying whether the body holds the lock. */
  function OnLockChanges(l: Lifecycle, notifications: seq<bool>): Lifecycle
    decreases |notifications|
  {
    if notifications == [] then l
    else OnLockChanges(OnLockChange(l, notifications[0]), notifications[1..])
  }

  lemma {:induction false} OccurrencesAppend(events: seq<Event>, more: seq<Event>, e: Event)
    ensures Occurrences(events + more, e) == Occurrences(events, e) + Occurrences(more, e)
    decreases |events|
  {
    if events == [] {
      assert events + more == more;
    } else {
      assert (events + more)[1..] == events[1..] + more;
      OccurrencesAppend(events[1..], more, e);
    }
  }

  /** Over any sequence of lock-change notifications, exactly one `lock` is
      dispatched per notification that finds the lock held and one `unlock`
      per notification that does not; the listeners stay registered only
      if they were and every notification found the lock held. */
  lemma {:induction false} LockChangesDispatchOnePerNotification(l: Lifecycle, notifications: seq<bool>)
    ensures var r := OnLockChanges(l, notifications);
      Occurrences(r.events, Lock) == Occurrences(l.events, Lock) + Locks(notifications) &&
      Occurrences(r.events, Unlock) == Occurrences(l.events, Unlock) + |notifications| - Locks(notifications) &&
      r.registered == (l.registered && forall i :: 0 <= i < |notifications| ==> notifications[i])
    decreases |notifications|
  {
    if notifications != [] {
      var next := OnLockChange(l, notifications[0]);
      var e := if notifications[0] then Lock else Unlock;
      assert next.events == l.events + [e];
      OccurrencesAppend(l.events, [e], Lock);
      OccurrencesAppend(l.events, [e], Unlock);
      assert Occurrences([e], Lock) == (if notifications[0] then 1 else 0);
      assert Occurrences([e], Unlock) == (if notifications[0] then 0 else 1);
      LockChangesDispatchOnePerNotification(next, notifications[1..]);
      assert (forall i :: 0 <= i < |notifications| ==> notifications[i]) <==>
        notifications[0] && forall i :: 0 <= i < |notifications| - 1 ==> notifications[1..][i];
    }
  }

  /** Connecting and then receiving a notification that the body holds the
      lock leaves the listeners registered and dispatches `lock` exactly once. */
  lemma ConnectThenLock()
    ensures OnLockChange(Connect(Created), true) == Lifecycle(true, [Lock])
    ensures Occurrences(OnLockChange(Connect(Created), true).events, Lock) == 1
  {
  }
}
