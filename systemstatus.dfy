/** The status channel (lib/SystemStatus/SystemStatus.cpp): a 10-slot notification queue and a
    30-slot status update queue, each behind a handle that stays null until `begin` creates it.
    Every send is non-blocking and drops the new item when its queue is full. */
module SystemStatus {
  import opened Wrappers
  import opened StatusTypes
  import Fifo

  const NOTIFICATION_QUEUE_SIZE: nat := 10
  const STATUS_UPDATE_QUEUE_SIZE: nat := 30

  /** The record `sendNotification(type, message)` enqueues: `memcpy` of the first
      min(length, 127) bytes of the message, followed by a NUL. */
  function NotificationFor(kind: NotificationType, message: seq<char>): (n: NotificationData)
    ensures n.kind == kind && |n.message| <= MAX_MESSAGE_LENGTH
    ensures n.message <= message && n.message <= CString(message)
    ensures |n.message| == if |CString(message)| <= MAX_MESSAGE_LENGTH then |CString(message)| else MAX_MESSAGE_LENGTH
    ensures |message| <= MAX_MESSAGE_LENGTH && '\0' !in message ==> n.message == message
    ensures n == SetMessage(DefaultNotification().(kind := kind), Some(message))
  {
    CStringTake(message, MAX_MESSAGE_LENGTH);
    NotificationData(kind, CString(Take(message, MAX_MESSAGE_LENGTH)))
  }

  /** What a status queue holds after `updates` are published one by one, each dropped when the
      queue is full; nothing is queued while the handle is null. */
  function Published(ready: bool, q: seq<StatusUpdateData>, updates: seq<StatusUpdateData>): seq<StatusUpdateData> {
    if ready then Fifo.Offer(q, updates, STATUS_UPDATE_QUEUE_SIZE) else q
  }

  /** The same for notifications. */
  function Notified(ready: bool, q: seq<NotificationData>, notes: seq<NotificationData>): seq<NotificationData> {
    if ready then Fifo.Offer(q, notes, NOTIFICATION_QUEUE_SIZE) else q
  }

  /** Publishing in two batches is publishing their concatenation. */
  lemma PublishedConcat(ready: bool, q: seq<StatusUpdateData>, a: seq<StatusUpdateData>, b: seq<StatusUpdateData>)
    ensures Published(ready, Published(ready, q, a), b) == Published(ready, q, a + b)
  {
    if ready {
      Fifo.OfferConcat(q, a, b, STATUS_UPDATE_QUEUE_SIZE);
    }
  }

  /** Notifying in two batches is notifying their concatenation. */
  lemma NotifiedConcat(ready: bool, q: seq<NotificationData>, a: seq<NotificationData>, b: seq<NotificationData>)
    ensures Notified(ready, Notified(ready, q, a), b) == Notified(ready, q, a + b)
  {
    if ready {
      Fifo.OfferConcat(q, a, b, NOTIFICATION_QUEUE_SIZE);
    }
  }

  /** Published updates never overflow the queue, and those that fit are kept in order. */
  lemma PublishedBounded(ready: bool, q: seq<StatusUpdateData>, updates: seq<StatusUpdateData>)
    requires |q| <= STATUS_UPDATE_QUEUE_SIZE
    ensures |Published(ready, q, updates)| <= STATUS_UPDATE_QUEUE_SIZE
    ensures ready && |q| + |updates| <= STATUS_UPDATE_QUEUE_SIZE ==> Published(ready, q, updates) == q + updates
  {
    Fifo.OfferKeepsPrefix(q, updates, STATUS_UPDATE_QUEUE_SIZE);
    if ready && |q| + |updates| <= STATUS_UPDATE_QUEUE_SIZE {
      Fifo.OfferWithRoom(q, updates, STATUS_UPDATE_QUEUE_SIZE);
    }
  }

  /** Notifications never overflow their queue. */
  lemma NotifiedBounded(ready: bool, q: seq<NotificationData>, notes: seq<NotificationData>)
    requires |q| <= NOTIFICATION_QUEUE_SIZE
    ensures |Notified(ready, q, notes)| <= NOTIFICATION_QUEUE_SIZE
  {
    Fifo.OfferKeepsPrefix(q, notes, NOTIFICATION_QUEUE_SIZE);
  }

  class SystemStatus {
    /** `notificationQueue != nullptr` */
    var notificationsReady: bool
    var notifications: seq<NotificationData>
    /** `statusUpdateQueue != nullptr` */
    var statusUpdatesReady: bool
    var statusUpdates: seq<StatusUpdateData>

    ghost predicate Valid()
      reads this
    {
      && |notifications| <= NOTIFICATION_QUEUE_SIZE
      && |statusUpdates| <= STATUS_UPDATE_QUEUE_SIZE
      && (!notificationsReady ==> notifications == [])
      && (!statusUpdatesReady ==> statusUpdates == [])
    }

    /** Both handles start null. */
    constructor ()
      ensures Valid()
      ensures !notificationsReady && !statusUpdatesReady
      ensures notifications == [] && statusUpdates == []
    {
      notificationsReady, notifications := false, [];
      statusUpdatesReady, statusUpdates := false, [];
    }

    /** `begin()`: creates the notification queue, then the status queue; when the second creation
        fails the first queue is deleted again. `xQueueCreate`'s outcomes are the two inputs; a
        queue created afresh is empty. */
    method Begin(notificationQueueCreated: bool, statusQueueCreated: bool) returns (ok: bool)
      requires Valid()
      modifies this
      ensures Valid()
      ensures ok == (notificationQueueCreated && statusQueueCreated)
      ensures notificationsReady == ok && notifications == []
      ensures notificationQueueCreated ==> statusUpdatesReady == statusQueueCreated && statusUpdates == []
      ensures !notificationQueueCreated ==>
                statusUpdatesReady == old(statusUpdatesReady) && statusUpdates == old(statusUpdates)
    {
      notificationsReady, notifications := notificationQueueCreated, [];
      if !notificationQueueCreated {
        return false;
      }
      statusUpdatesReady, statusUpdates := statusQueueCreated, [];
      if !statusQueueCreated {
        notificationsReady, notifications := false, [];
        return false;
      }
      return true;
    }

    /** `sendNotification(type, message)`: a no-op before `begin`; otherwise the bounded record
        is offered to the notification queue without waiting. */
    method SendNotification(kind: NotificationType, message: seq<char>)
      requires Valid()
      modifies this
      ensures Valid()
      ensures notifications == Notified(notificationsReady, old(notifications), [NotificationFor(kind, message)])
      ensures notifications == if notificationsReady && |old(notifications)| < NOTIFICATION_QUEUE_SIZE
                               then old(notifications) + [NotificationFor(kind, message)]
                               else old(notifications)
      ensures notificationsReady == old(notificationsReady)
      ensures statusUpdatesReady == old(statusUpdatesReady) && statusUpdates == old(statusUpdates)
    {
      if !notificationsReady {
        return;
      }
      var n := NotificationFor(kind, message);
      Fifo.OfferOne(notifications, n, NOTIFICATION_QUEUE_SIZE);
      notifications := Fifo.Push(notifications, n, NOTIFICATION_QUEUE_SIZE);
    }

    /** `getNotification(out)`: a non-blocking pop of the oldest notification; `None` when the
        queue is empty or was never created. */
    method GetNotification() returns (r: Option<NotificationData>)
      requires Valid()
      modifies this
      ensures Valid()
      ensures old(notifications) == [] ==> r == None && notifications == []
      ensures old(notifications) != [] ==> r == Some(old(notifications)[0]) && notifications == old(notifications)[1..]
      ensures notificationsReady == old(notificationsReady)
      ensures statusUpdatesReady == old(statusUpdatesReady) && statusUpdates == old(statusUpdates)
    {
      if !notificationsReady || notifications == [] {
        return None;
      }
      r := Some(notifications[0]);
      notifications := notifications[1..];
    }

    /** `getPendingNotificationCount()`: 0 before `begin`, never above the capacity. */
    function PendingNotificationCount(): (n: nat)
      requires Valid()
      reads this
      ensures n <= NOTIFICATION_QUEUE_SIZE
      ensures notificationsReady ==> n == |notifications|
      ensures !notificationsReady ==> n == 0
    {
      if notificationsReady then |notifications| else 0
    }

    /** `hasNotifications()`: whether a notification is waiting. */
    function HasNotifications(): (b: bool)
      requires Valid()
      reads this
      ensures b <==> PendingNotificationCount() > 0
    {
      notificationsReady && |notifications| > 0
    }

    /** `clearNotifications()`: empties the notification queue only. */
    method ClearNotifications()
      requires Valid()
      modifies this
      ensures Valid()
      ensures notifications == [] && notificationsReady == old(notificationsReady)
      ensures statusUpdatesReady == old(statusUpdatesReady) && statusUpdates == old(statusUpdates)
    {
      if !notificationsReady {
        return;
      }
      notifications := [];
    }

    /** The five `publishStatusUpdate(type, value)` overloads, one per union member: a no-op
        before `begin`; otherwise the update is offered without waiting and dropped when full. */
    method PublishStatusUpdate(kind: StatusUpdateType, value: StatusValue)
      requires Valid()
      modifies this
      ensures Valid()
      ensures statusUpdates == Published(statusUpdatesReady, old(statusUpdates), [StatusUpdateData(kind, value)])
      ensures statusUpdates == if statusUpdatesReady && |old(statusUpdates)| < STATUS_UPDATE_QUEUE_SIZE
                               then old(statusUpdates) + [StatusUpdateData(kind, value)]
                               else old(statusUpdates)
      ensures statusUpdatesReady == old(statusUpdatesReady)
      ensures notificationsReady == old(notificationsReady) && notifications == old(notifications)
    {
      if !statusUpdatesReady {
        return;
      }
      var u := StatusUpdateData(kind, value);
      Fifo.OfferOne(statusUpdates, u, STATUS_UPDATE_QUEUE_SIZE);
      statusUpdates := Fifo.Push(statusUpdates, u, STATUS_UPDATE_QUEUE_SIZE);
    }

    /** `getStatusUpdate(out)`: a non-blocking pop of the oldest update. */
    method GetStatusUpdate() returns (r: Option<StatusUpdateData>)
      requires Valid()
      modifies this
      ensures Valid()
      ensures old(statusUpdates) == [] ==> r == None && statusUpdates == []
      ensures old(statusUpdates) != [] ==> r == Some(old(statusUpdates)[0]) && statusUpdates == old(statusUpdates)[1..]
      ensures statusUpdatesReady == old(statusUpdatesReady)
      ensures notificationsReady == old(notificationsReady) && notifications == old(notifications)
    {
      if !statusUpdatesReady || statusUpdates == [] {
        return None;
      }
      r := Some(statusUpdates[0]);
      statusUpdates := statusUpdates[1..];
    }

    /** `getPendingStatusUpdateCount()`: 0 before `begin`, never above the capacity. */
    function PendingStatusUpdateCount(): (n: nat)
      requires Valid()
      reads this
      ensures n <= STATUS_UPDATE_QUEUE_SIZE
      ensures statusUpdatesReady ==> n == |statusUpdates|
      ensures !statusUpdatesReady ==> n == 0
    {
      if statusUpdatesReady then |statusUpdates| else 0
    }

    /** `hasStatusUpdates()`: whether an update is waiting. */
    function HasStatusUpdates(): (b: bool)
      requires Valid()
      reads this
      ensures b <==> PendingStatusUpdateCount() > 0
    {
      statusUpdatesReady && |statusUpdates| > 0
    }

    /** `clearStatusUpdates()`: empties the status queue only. */
    method ClearStatusUpdates()
      requires Valid()
      modifies this
      ensures Valid()
      ensures statusUpdates == [] && statusUpdatesReady == old(statusUpdatesReady)
      ensures notificationsReady == old(notificationsReady) && notifications == old(notifications)
    {
      if !statusUpdatesReady {
        return;
      }
      statusUpdates := [];
    }
  }
}
