/**
 * Archie's background-mode service (src/services/claraBackgroundService.ts):
 * a small state machine over a boolean mode, a saturating activity counter,
 * a list of mode-change listeners and the id of one persistent notification
 * that the service keeps in the notification centre while Archie runs in the
 * background.
 */
module BackgroundService {
  import opened Wrappers
  import opened Text

  /** Ids handed out by the notification centre. */
  type NotificationId = nat

  /**
   * A subscribed callback. Listeners are compared by identity (`handle`);
   * `throws` says whether calling it raises, which the service catches.
   */
  datatype Listener = Listener(handle: nat, throws: bool)

  /** One call of a listener: who was called, with which mode, and whether it raised. */
  datatype Delivery = Delivery(listener: Listener, isBackground: bool, raised: bool)

  /** The answer of `getStatus`. */
  datatype Status = Status(isBackground: bool, activityCount: nat, hasActivity: bool)

  const ActiveText := "Archie is running in the background and ready to assist you."
  const ReadyText := "Archie is ready to assist you in the background."
  const ProcessingPrefix := "Archie is processing "
  const TaskWord := " background task"

  /** Text of the refreshed persistent notification for a given activity count. */
  function ActivityText(count: nat): string
  {
    if count > 0 then
      ProcessingPrefix + NatToString(count) + TaskWord + (if count > 1 then "s" else "") + "."
    else ReadyText
  }

  /** Reads an activity text back into the count it reports. */
  function ParseActivityText(t: string): Option<nat>
  {
    if t == ReadyText then Some(0)
    else if !(ProcessingPrefix <= t) then None
    else match ReadNat(t[|ProcessingPrefix|..])
      case None => None
      case Some((n, rest)) =>
        if n == 1 && rest == TaskWord + "." then Some(1)
        else if n > 1 && rest == TaskWord + "s." then Some(n)
        else None
  }

  /** A text that starts with the "processing" prefix is not the "ready" text and is read after the prefix. */
  lemma ProcessingText(s: string)
    ensures ProcessingPrefix + s != ReadyText
    ensures ProcessingPrefix <= ProcessingPrefix + s
    ensures (ProcessingPrefix + s)[|ProcessingPrefix|..] == s
  {
    var t := ProcessingPrefix + s;
    assert t[10] == 'p' && ReadyText[10] == 'r';
  }

  /** The activity text reports exactly the count it was built from. */
  lemma ActivityTextRoundTrip(count: nat)
    ensures ParseActivityText(ActivityText(count)) == Some(count)
  {
    if count > 0 {
      var rest := if count > 1 then TaskWord + "s." else TaskWord + ".";
      var digits := NatToString(count);
      assert ActivityText(count) == ProcessingPrefix + (digits + rest);
      ProcessingText(digits + rest);
      ReadNatOfRendered(count, rest);
    }
  }

  /** Different counts give different activity texts. */
  lemma ActivityTextInjective(m: nat, n: nat)
    ensures ActivityText(m) == ActivityText(n) <==> m == n
  {
    ActivityTextRoundTrip(m);
    ActivityTextRoundTrip(n);
  }

  /** The "ready" text is shown exactly when there is no activity. */
  lemma ActivityTextReadyIffIdle(count: nat)
    ensures ActivityText(count) == ReadyText <==> count == 0
  {
    ActivityTextRoundTrip(count);
  }

  /** "task" is pluralised exactly when more than one task is running. */
  lemma ActivityTextPlural(count: nat)
    requires count > 0
    ensures EndsWith(ActivityText(count), "tasks.") <==> count > 1
  {
    var t := ActivityText(count);
    assert t[|t| - 2] == (if count > 1 then 's' else 'k');
  }

  /** The calls `notifyListeners` makes: each listener in order, with the same mode. */
  ghost function Deliveries(listeners: seq<Listener>, isBackground: bool): (r: seq<Delivery>)
    ensures |r| == |listeners|
    ensures forall i :: 0 <= i < |r| ==>
      r[i].listener == listeners[i] && r[i].isBackground == isBackground
  {
    seq(|listeners|, i requires 0 <= i < |listeners| =>
      Delivery(listeners[i], isBackground, listeners[i].throws))
  }

  /** `Array.prototype.indexOf`: the first position of `x` in `s`, or -1. */
  function IndexOf(s: seq<Listener>, x: Listener): (i: int)
    ensures -1 <= i < |s|
    ensures i == -1 <==> x !in s
    ensures i >= 0 ==> s[i] == x && x !in s[..i]
  {
    if s == [] then -1
    else if s[0] == x then 0
    else
      var j := IndexOf(s[1..], x);
      if j == -1 then -1
      else
        assert s[..j + 1] == [s[0]] + s[1..][..j];
        j + 1
  }

  /** The listener list after the unsubscribe closure of `x` has run. */
  function WithoutFirst(s: seq<Listener>, x: Listener): seq<Listener>
  {
    var i := IndexOf(s, x);
    if i > -1 then s[..i] + s[i + 1..] else s
  }

  /** Unsubscribing removes one occurrence of the listener and nothing else. */
  lemma WithoutFirstRemovesOne(s: seq<Listener>, x: Listener)
    ensures x in s ==> multiset(WithoutFirst(s, x)) == multiset(s) - multiset{x}
    ensures x !in s ==> WithoutFirst(s, x) == s
  {
    var i := IndexOf(s, x);
    if i > -1 {
      assert s == s[..i] + [s[i]] + s[i + 1..];
    }
  }

  /** The listeners before the removed one stay in front, those after it keep their order. */
  lemma WithoutFirstKeepsOrder(s: seq<Listener>, x: Listener, i: int)
    requires x in s && i == IndexOf(s, x)
    ensures |WithoutFirst(s, x)| == |s| - 1
    ensures forall j :: 0 <= j < i ==> WithoutFirst(s, x)[j] == s[j]
    ensures forall j :: i <= j < |s| - 1 ==> WithoutFirst(s, x)[j] == s[j + 1]
  {
  }

  /** Subscribing a new listener and running its unsubscribe closure restores the list. */
  lemma SubscribeThenUnsubscribe(s: seq<Listener>, x: Listener)
    requires x !in s
    ensures WithoutFirst(s + [x], x) == s
  {
  }

  /** For a listener subscribed at most once, a second unsubscribe is a no-op. */
  lemma UnsubscribeTwice(s: seq<Listener>, x: Listener)
    requires multiset(s)[x] <= 1
    ensures WithoutFirst(WithoutFirst(s, x), x) == WithoutFirst(s, x)
  {
    WithoutFirstRemovesOne(s, x);
    var t := WithoutFirst(s, x);
    if x in s {
      assert multiset(t)[x] == 0;
    }
    assert x !in t;
    WithoutFirstRemovesOne(t, x);
  }

  /** The set of notification ids an optional held id stands for. */
  function HeldIds(id: Option<NotificationId>): set<NotificationId>
  {
    if id.Some? then {id.value} else {}
  }

  /**
   * The notification centre, reduced to the notifications it shows (id to
   * message) and a counter from which it draws fresh ids.
   */
  class NotificationCenter {
    var live: map<NotificationId, string>
    var issued: nat

    ghost predicate Valid()
      reads this
    {
      forall id :: id in live ==> id < issued
    }

    constructor ()
      ensures Valid() && live == map[]
    {
      live := map[];
      issued := 0;
    }

    /** `addNotification`: shows a message under a fresh id. */
    method AddNotification(message: string) returns (id: NotificationId)
      requires Valid()
      modifies this
      ensures Valid()
      ensures id !in old(live) && live == old(live)[id := message]
      ensures id == old(issued) && issued == old(issued) + 1
    {
      id := issued;
      live := live[id := message];
      issued := issued + 1;
    }

    /** `removeNotification`: hides the notification with that id, if shown. */
    method RemoveNotification(id: NotificationId)
      requires Valid()
      modifies this
      ensures Valid()
      ensures live == old(live) - {id} && issued == old(issued)
    {
      live := live - {id};
    }
  }

  class ArchieBackgroundService {
    var isBackgroundMode: bool
    var backgroundActivityCount: nat
    var listeners: seq<Listener>
    var persistentNotificationId: Option<NotificationId>
    const notifications: NotificationCenter
    /** Every listener call made so far, in order. */
    ghost var delivered: seq<Delivery>

    /** The held persistent notification, if any, is shown in the centre. */
    ghost predicate Valid()
      reads this, notifications
    {
      && notifications.Valid()
      && (persistentNotificationId.Some? ==> persistentNotificationId.value in notifications.live)
    }

    constructor (center: NotificationCenter)
      requires center.Valid()
      ensures Valid() && notifications == center
      ensures !isBackgroundMode && backgroundActivityCount == 0
      ensures listeners == [] && persistentNotificationId == None && delivered == []
    {
      isBackgroundMode := false;
      backgroundActivityCount := 0;
      listeners := [];
      persistentNotificationId := None;
      notifications := center;
      delivered := [];
    }

    /** `hasBackgroundActivity`. */
    function HasBackgroundActivity(): bool
      reads this
    {
      backgroundActivityCount > 0
    }

    /** `getStatus`: a summary consistent with the fields. */
    method GetStatus() returns (s: Status)
      ensures s.isBackground == isBackgroundMode
      ensures s.activityCount == backgroundActivityCount
      ensures s.hasActivity <==> backgroundActivityCount > 0
    {
      s := Status(isBackgroundMode, backgroundActivityCount, HasBackgroundActivity());
    }

    /** `notifyListeners`: calls every listener with the mode; a raising listener does not stop the rest. */
    method NotifyListeners()
      modifies this`delivered
      ensures delivered == old(delivered) + Deliveries(listeners, isBackgroundMode)
    {
      var i := 0;
      while i < |listeners|
        invariant 0 <= i <= |listeners|
        invariant delivered == old(delivered) + Deliveries(listeners[..i], isBackgroundMode)
      {
        var listener := listeners[i];
        // the call's exception, if any, is caught and logged; the loop goes on
        delivered := delivered + [Delivery(listener, isBackgroundMode, listener.throws)];
        i := i + 1;
      }
      assert listeners[..i] == listeners;
    }

    /** `removePersistentNotification`: hides and forgets the held notification, if any. */
    method RemovePersistentNotification()
      requires Valid()
      modifies notifications, this`persistentNotificationId
      ensures Valid()
      ensures persistentNotificationId == None
      ensures notifications.live == old(notifications.live) - HeldIds(old(persistentNotificationId))
      ensures notifications.issued == old(notifications.issued)
    {
      if persistentNotificationId.Some? {
        notifications.RemoveNotification(persistentNotificationId.value);
        persistentNotificationId := None;
      }
    }

    /** `createPersistentNotification`: replaces any held notification by a fresh one. */
    method CreatePersistentNotification()
      requires Valid()
      modifies notifications, this`persistentNotificationId
      ensures Valid()
      ensures persistentNotificationId.Some?
      ensures persistentNotificationId.value !in old(notifications.live)
      ensures notifications.live ==
        (old(notifications.live) - HeldIds(old(persistentNotificationId)))[persistentNotificationId.value := ActiveText]
    {
      RemovePersistentNotification();
      var id := notifications.AddNotification(ActiveText);
      persistentNotificationId := Some(id);
    }

    /**
     * `updatePersistentNotification`: only while a notification is held and
     * the mode is background, replaces it by one showing the activity text.
     */
    method UpdatePersistentNotification()
      requires Valid()
      modifies notifications, this`persistentNotificationId
      ensures Valid()
      ensures old(persistentNotificationId).None? || !isBackgroundMode ==>
        persistentNotificationId == old(persistentNotificationId) && notifications.live == old(notifications.live)
      ensures old(persistentNotificationId).Some? && isBackgroundMode ==>
        && persistentNotificationId.Some?
        && persistentNotificationId.value !in old(notifications.live)
        && notifications.live ==
           (old(notifications.live) - {old(persistentNotificationId).value})[persistentNotificationId.value := ActivityText(backgroundActivityCount)]
    {
      if persistentNotificationId.Some? && isBackgroundMode {
        RemovePersistentNotification();
        var text := ActivityText(backgroundActivityCount);
        var id := notifications.AddNotification(text);
        persistentNotificationId := Some(id);
      }
    }

    /**
     * `setBackgroundMode`: a no-op when the mode does not change; otherwise
     * records the mode, notifies the listeners, and shows (entering) or
     * hides (leaving) the persistent notification.
     */
    method SetBackgroundMode(isBackground: bool)
      requires Valid()
      modifies this, notifications
      ensures Valid()
      ensures backgroundActivityCount == old(backgroundActivityCount) && listeners == old(listeners)
      ensures old(isBackgroundMode) == isBackground ==>
        && isBackgroundMode == old(isBackgroundMode)
        && persistentNotificationId == old(persistentNotificationId)
        && delivered == old(delivered)
        && notifications.live == old(notifications.live)
      ensures old(isBackgroundMode) != isBackground ==>
        && isBackgroundMode == isBackground
        && delivered == old(delivered) + Deliveries(listeners, isBackground)
      ensures old(isBackgroundMode) != isBackground && isBackground ==>
        && persistentNotificationId.Some?
        && persistentNotificationId.value !in old(notifications.live)
        && notifications.live ==
           (old(notifications.live) - HeldIds(old(persistentNotificationId)))[persistentNotificationId.value := ActiveText]
      ensures old(isBackgroundMode) != isBackground && !isBackground ==>
        && persistentNotificationId == None
        && notifications.live == old(notifications.live) - HeldIds(old(persistentNotificationId))
    {
      if isBackgroundMode != isBackground {
        isBackgroundMode := isBackground;
        NotifyListeners();
        if isBackground {
          CreatePersistentNotification();
        } else {
          RemovePersistentNotification();
        }
      }
    }

    /** `incrementBackgroundActivity`: one more task, then refresh the notification. */
    method IncrementBackgroundActivity()
      requires Valid()
      modifies this, notifications
      ensures Valid()
      ensures backgroundActivityCount == old(backgroundActivityCount) + 1
      ensures isBackgroundMode == old(isBackgroundMode) && listeners == old(listeners) && delivered == old(delivered)
      ensures old(persistentNotificationId).None? || !isBackgroundMode ==>
        persistentNotificationId == old(persistentNotificationId) && notifications.live == old(notifications.live)
      ensures old(persistentNotificationId).Some? && isBackgroundMode ==>
        && persistentNotificationId.Some?
        && persistentNotificationId.value !in old(notifications.live)
        && notifications.live ==
           (old(notifications.live) - {old(persistentNotificationId).value})[persistentNotificationId.value := ActivityText(backgroundActivityCount)]
    {
      backgroundActivityCount := backgroundActivityCount + 1;
      UpdatePersistentNotification();
    }

    /** `decrementBackgroundActivity`: one task fewer, never below zero, then refresh the notification. */
    method DecrementBackgroundActivity()
      requires Valid()
      modifies this, notifications
      ensures Valid()
      ensures backgroundActivityCount == if old(backgroundActivityCount) > 0 then old(backgroundActivityCount) - 1 else 0
      ensures isBackgroundMode == old(isBackgroundMode) && listeners == old(listeners) && delivered == old(delivered)
      ensures old(persistentNotificationId).None? || !isBackgroundMode ==>
        persistentNotificationId == old(persistentNotificationId) && notifications.live == old(notifications.live)
      ensures old(persistentNotificationId).Some? && isBackgroundMode ==>
        && persistentNotificationId.Some?
        && persistentNotificationId.value !in old(notifications.live)
        && notifications.live ==
           (old(notifications.live) - {old(persistentNotificationId).value})[persistentNotificationId.value := ActivityText(backgroundActivityCount)]
    {
      // Math.max(0, count - 1)
      backgroundActivityCount := if backgroundActivityCount - 1 > 0 then backgroundActivityCount - 1 else 0;
      UpdatePersistentNotification();
    }

    /** `onBackgroundModeChange`: appends the listener (its unsubscribe closure is `Unsubscribe`). */
    method OnBackgroundModeChange(listener: Listener)
      modifies this`listeners
      ensures listeners == old(listeners) + [listener]
    {
      listeners := listeners + [listener];
    }

    /** The closure `onBackgroundModeChange` returns: splices out the first occurrence of the listener. */
    method Unsubscribe(listener: Listener)
      modifies this`listeners
      ensures listeners == WithoutFirst(old(listeners), listener)
    {
      var index := IndexOf(listeners, listener);
      if index > -1 {
        listeners := listeners[..index] + listeners[index + 1..];
      }
    }

    /** `reset`: foreground, no activity, listeners told; the held notification is left as it is. */
    method Reset()
      requires Valid()
      modifies this
      ensures Valid()
      ensures !isBackgroundMode && backgroundActivityCount == 0
      ensures listeners == old(listeners) && persistentNotificationId == old(persistentNotificationId)
      ensures delivered == old(delivered) + Deliveries(listeners, false)
    {
      isBackgroundMode := false;
      backgroundActivityCount := 0;
      NotifyListeners();
    }
  }

  /**
   * A reset while in background mode keeps the persistent notification
   * shown, and a later switch to the foreground no longer removes it,
   * because the mode is already foreground.
   */
  method ResetKeepsNotification(center: NotificationCenter)
    requires center.Valid()
    modifies center
  {
    var service := new ArchieBackgroundService(center);
    service.SetBackgroundMode(true);
    var held := service.persistentNotificationId.value;
    service.Reset();
    service.SetBackgroundMode(false);
    assert held in center.live && service.persistentNotificationId == Some(held);
  }
}
