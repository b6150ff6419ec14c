/** The headless scroll source: an observable (offset, viewport size) pair with subscribers. */
module ScrollSource {

  /** A subscriber callback. Callbacks are compared by identity, as JavaScript compares functions. */
  class Listener {
    constructor () {}
  }

  /** One call of a subscriber with the offset it was given. */
  datatype Notification = Notification(listener: Listener, offset: real)

  /** The handle `subscribe` returns; invoking it removes exactly `callback`. */
  datatype Subscription = Subscription(callback: Listener)

  ghost predicate NoDuplicates(s: seq<Listener>)
  {
    forall i, j :: 0 <= i < j < |s| ==> s[i] != s[j]
  }

  /** `s` with `x` deleted, the others kept in order. */
  function Without(s: seq<Listener>, x: Listener): (r: seq<Listener>)
    ensures |r| <= |s|
  {
    if s == [] then []
    else if s[0] == x then Without(s[1..], x) else [s[0]] + Without(s[1..], x)
  }

  /** Deleting removes `x` and only `x`, and keeps the set free of duplicates. */
  lemma {:induction false} WithoutRemovesExactly(s: seq<Listener>, x: Listener)
    ensures forall y :: y in Without(s, x) <==> y in s && y != x
    ensures NoDuplicates(s) ==> NoDuplicates(Without(s, x))
  {
    if s != [] {
      WithoutRemovesExactly(s[1..], x);
      assert forall y :: y in s <==> y == s[0] || y in s[1..];
      if NoDuplicates(s) {
        assert NoDuplicates(s[1..]) by {
          forall i, j | 0 <= i < j < |s[1..]| ensures s[1..][i] != s[1..][j] {
            assert s[1..][i] == s[i + 1] && s[1..][j] == s[j + 1];
          }
        }
        assert s[0] !in s[1..] by {
          forall k | 0 <= k < |s[1..]| ensures s[1..][k] != s[0] {
            assert s[1..][k] == s[k + 1];
          }
        }
        var rest := Without(s[1..], x);
        if s[0] != x {
          var r := [s[0]] + rest;
          forall i, j | 0 <= i < j < |r| ensures r[i] != r[j] {
            if i == 0 {
              assert r[j] == rest[j - 1] && r[j] in rest;
            } else {
              assert r[i] == rest[i - 1] && r[j] == rest[j - 1];
            }
          }
        }
      }
    }
  }

  /** The calls a notification makes: each listener, in insertion order, with `offset`. */
  function Broadcast(listeners: seq<Listener>, offset: real): (r: seq<Notification>)
  {
    seq(|listeners|, k requires 0 <= k < |listeners| => Notification(listeners[k], offset))
  }

  /** A broadcast calls every listener of a duplicate-free list exactly once, with the given offset, and no one else. */
  lemma BroadcastReachesEachListenerOnce(listeners: seq<Listener>, offset: real, l: Listener)
    requires NoDuplicates(listeners)
    ensures var n := Broadcast(listeners, offset);
            && (forall k :: 0 <= k < |n| ==> n[k].offset == offset && n[k].listener in listeners)
            && (l in listeners <==> exists k :: 0 <= k < |n| && n[k].listener == l)
            && (forall j, k :: 0 <= j < k < |n| ==> n[j].listener != n[k].listener)
  {
    var n := Broadcast(listeners, offset);
    if l in listeners {
      var k :| 0 <= k < |listeners| && listeners[k] == l;
      assert n[k].listener == l;
    }
  }

  /** After an unsubscribe, no broadcast reaches the removed callback; every other subscriber is still reached. */
  lemma UnsubscribedListenerIsNotNotified(listeners: seq<Listener>, removed: Listener, offset: real)
    ensures forall n :: n in Broadcast(Without(listeners, removed), offset) ==> n.listener != removed
    ensures forall y :: y in listeners && y != removed ==> Notification(y, offset) in Broadcast(Without(listeners, removed), offset)
  {
    var rest := Without(listeners, removed);
    var b := Broadcast(rest, offset);
    WithoutRemovesExactly(listeners, removed);
    forall y | y in listeners && y != removed
      ensures Notification(y, offset) in b
    {
      assert y in rest;
      var k :| 0 <= k < |rest| && rest[k] == y;
      assert b[k] == Notification(y, offset);
    }
    forall n | n in b ensures n.listener != removed {
      var k :| 0 <= k < |b| && b[k] == n;
      assert n.listener == rest[k] && rest[k] in rest;
    }
  }

  class VirtualScrollSource {
    var scrollOffset: real
    var viewportSize: real
    /** The listener set, in insertion order (JavaScript sets iterate in that order). */
    var listeners: seq<Listener>

    ghost predicate Valid()
      reads this
    {
      NoDuplicates(listeners)
    }

    constructor ()
      ensures Valid()
      ensures GetScrollOffset() == 0.0 && GetViewportSize() == 0.0
      ensures listeners == []
    {
      scrollOffset := 0.0;
      viewportSize := 0.0;
      listeners := [];
    }

    function GetScrollOffset(): real
      reads this
    {
      scrollOffset
    }

    function GetViewportSize(): real
      reads this
    {
      viewportSize
    }

    /** Stores a new offset; only a changed value notifies the listeners, with the new offset. */
    method SetScrollOffset(offset: real) returns (notified: seq<Notification>)
      requires Valid()
      modifies this
      ensures Valid()
      ensures scrollOffset == offset
      ensures viewportSize == old(viewportSize) && listeners == old(listeners)
      ensures notified == if old(scrollOffset) != offset then Broadcast(listeners, offset) else []
    {
      notified := [];
      if scrollOffset != offset {
        scrollOffset := offset;
        notified := NotifyListeners();
      }
    }

    /** Stores a new viewport size; only a changed value notifies the listeners, with the unchanged offset. */
    method SetViewportSize(size: real) returns (notified: seq<Notification>)
      requires Valid()
      modifies this
      ensures Valid()
      ensures viewportSize == size
      ensures scrollOffset == old(scrollOffset) && listeners == old(listeners)
      ensures notified == if old(viewportSize) != size then Broadcast(listeners, scrollOffset) else []
    {
      notified := [];
      if viewportSize != size {
        viewportSize := size;
        notified := NotifyListeners();
      }
    }

    /** Adds `callback` to the set (a second subscription of the same callback changes nothing). */
    method Subscribe(callback: Listener) returns (unsubscribe: Subscription)
      requires Valid()
      modifies this
      ensures Valid()
      ensures unsubscribe == Subscription(callback)
      ensures listeners == if callback in old(listeners) then old(listeners) else old(listeners) + [callback]
      ensures scrollOffset == old(scrollOffset) && viewportSize == old(viewportSize)
    {
      if callback !in listeners {
        listeners := listeners + [callback];
      }
      unsubscribe := Subscription(callback);
    }

    /** Invokes an unsubscribe handle: deletes that one callback from the set. */
    method Unsubscribe(handle: Subscription)
      requires Valid()
      modifies this
      ensures Valid()
      ensures listeners == Without(old(listeners), handle.callback)
      ensures scrollOffset == old(scrollOffset) && viewportSize == old(viewportSize)
    {
      WithoutRemovesExactly(listeners, handle.callback);
      listeners := Without(listeners, handle.callback);
    }

    /** Calls every listener, in insertion order, with the current offset. */
    method NotifyListeners() returns (notified: seq<Notification>)
      ensures notified == Broadcast(listeners, scrollOffset)
    {
      notified := [];
      for i := 0 to |listeners|
        invariant notified == Broadcast(listeners[..i], scrollOffset)
      {
        notified := notified + [Notification(listeners[i], scrollOffset)];
      }
      assert listeners[..|listeners|] == listeners;
    }
  }

  /** The scroll-source test scenarios: defaults, notify on change only, multiple subscribers, unsubscribe. */
  method ScrollSourceScenario() returns (n1: seq<Notification>, n2: seq<Notification>, n3: seq<Notification>, n4: seq<Notification>)
    ensures n1 == [] && |n2| == 2 && n2[0].offset == 100.0 && n2[1].offset == 100.0
    ensures n3 == [] && |n4| == 1 && n4[0].offset == 200.0
  {
    var source := new VirtualScrollSource();
    assert source.GetScrollOffset() == 0.0 && source.GetViewportSize() == 0.0;
    var a := new Listener();
    var b := new Listener();
    var unsubscribeA := source.Subscribe(a);
    var _ := source.Subscribe(b);
    var _ := source.Subscribe(b);
    assert source.listeners == [a, b];
    n1 := source.SetScrollOffset(0.0);
    n2 := source.SetScrollOffset(100.0);
    assert n2 == [Notification(a, 100.0), Notification(b, 100.0)];
    n3 := source.SetScrollOffset(100.0);
    source.Unsubscribe(unsubscribeA);
    assert source.listeners == [b];
    n4 := source.SetScrollOffset(200.0);
    assert n4 == [Notification(b, 200.0)];
  }
}
