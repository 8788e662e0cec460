/**
 * The notification store of `src/store/notifications.ts`: the signed-in
 * user's notifications, newest first, the count of unread ones shown on the
 * bell, and the disposer of the realtime subscription.
 *
 * Each asynchronous action is one step to its settled state, given the
 * settled responses of the service calls it makes.
 */
module NotificationsStore {
  import opened Basics
  import Lists
  import Realtime
  import opened NotificationsApi

  const FETCH_ERROR: string := "Erro ao carregar notificações"
  const MARK_ERROR: string := "Erro ao atualizar notificação"
  const REMOVE_ERROR: string := "Erro ao deletar notificação"

  predicate IsUnread(n: Notification) { !n.read }

  /** `notifications.filter(n => !n.read).length` */
  function Unread(ns: seq<Notification>): (k: nat)
    ensures k <= |ns|
  {
    Lists.Count(ns, IsUnread)
  }

  function HasId(id: string): Notification -> bool { (n: Notification) => n.id == id }
  function OtherId(id: string): Notification -> bool { (n: Notification) => n.id != id }
  function UnreadOther(id: string): Notification -> bool { (n: Notification) => !n.read && n.id != id }

  /** `notifications.map(n => n.id === id ? { ...n, read: true } : n)` */
  function MarkRead(ns: seq<Notification>, id: string): (r: seq<Notification>)
    ensures |r| == |ns|
    ensures forall i :: 0 <= i < |ns| ==> r[i] == if ns[i].id == id then ns[i].(read := true) else ns[i]
    ensures forall i :: 0 <= i < |r| && r[i].id == id ==> r[i].read
  {
    Lists.MapWhere(ns, HasId(id), (n: Notification) => n.(read := true))
  }

  /** `notifications.filter(n => n.id !== id)` */
  function Remove(ns: seq<Notification>, id: string): (r: seq<Notification>)
    ensures Lists.IsSubsequence(r, ns)
    ensures forall i :: 0 <= i < |r| ==> r[i].id != id
    ensures forall i :: 0 <= i < |ns| && ns[i].id != id ==> ns[i] in r
    ensures forall n :: multiset(r)[n] == if n.id != id then multiset(ns)[n] else 0
  {
    var r := Lists.Filter(ns, OtherId(id));
    assert forall n :: multiset(r)[n] == if n.id != id then multiset(ns)[n] else 0 by {
      forall n ensures multiset(r)[n] == if n.id != id then multiset(ns)[n] else 0 {
        Lists.FilterMultiset(ns, OtherId(id), n);
      }
    }
    r
  }

  /** After marking `id` read, the unread ones are exactly the unread ones with another id. */
  lemma {:induction false} MarkReadUnread(ns: seq<Notification>, id: string)
    ensures Unread(MarkRead(ns, id)) == Lists.Count(ns, UnreadOther(id))
    ensures Unread(MarkRead(ns, id)) <= Unread(ns)
  {
    if ns != [] {
      var r := MarkRead(ns, id);
      assert r[1..] == MarkRead(ns[1..], id);
      MarkReadUnread(ns[1..], id);
    }
  }

  /** A new arrival adds one to the unread count if it is unread, and nothing otherwise. */
  lemma UnreadPrepend(n: Notification, ns: seq<Notification>)
    ensures Unread([n] + ns) == Unread(ns) + (if n.read then 0 else 1)
  {
    assert ([n] + ns)[1..] == ns;
  }

  class NotificationStore {
    var notifications: seq<Notification>
    var unreadCount: nat
    var isLoading: bool
    var error: Option<string>
    var unsubscribeFunction: Option<Realtime.Disposer>
    /** The `notificationAPI` singleton the store talks to. */
    const api: NotificationAPI

    /**
     * The count never exceeds the list, the service's slot is valid, and the
     * stored disposer is there exactly when the service holds a channel, made
     * for that channel.
     */
    predicate Valid()
      reads this, api
    {
      && unreadCount <= |notifications|
      && api.Valid()
      && (unsubscribeFunction.Some? <==> api.realtimeChannel.Some?)
      && (unsubscribeFunction.Some? ==> unsubscribeFunction.value.createdFor == api.realtimeChannel.value.serial)
    }

    /** The bell shows the true number of unread notifications. */
    predicate CountExact()
      reads this
    {
      unreadCount == Unread(notifications)
    }

    constructor (api: NotificationAPI)
      requires api.Valid() && api.realtimeChannel.None?
      ensures this.api == api
      ensures notifications == [] && unreadCount == 0 && !isLoading && error.None? && unsubscribeFunction.None?
      ensures Valid() && CountExact()
    {
      this.api := api;
      notifications := [];
      unreadCount := 0;
      isLoading := false;
      error := None;
      unsubscribeFunction := None;
    }

    /**
     * `subscribeToRealtime(userId)`: the previous disposer is overwritten
     * without being called; the service itself unsubscribes its old channel.
     */
    method SubscribeToRealtime(userId: string)
      requires Valid()
      modifies this, api
      ensures Valid()
      ensures api.Slot() == Realtime.Subscribe(old(api.Slot()), NotificationsTopic, UserFilter(userId))
      ensures unsubscribeFunction == Some(Realtime.Disposer(old(api.channelsOpened)))
      ensures api.writes == old(api.writes)
      ensures notifications == old(notifications) && unreadCount == old(unreadCount)
      ensures isLoading == old(isLoading) && error == old(error)
    {
      var dispose := api.SubscribeToNotifications(userId);
      unsubscribeFunction := Some(dispose);
    }

    /** `unsubscribeFromRealtime()`: call the stored disposer, if any, once, and forget it. */
    method UnsubscribeFromRealtime()
      requires Valid()
      modifies this, api
      ensures Valid()
      ensures unsubscribeFunction.None? && api.realtimeChannel.None?
      ensures api.Slot() == Realtime.Dispose(old(api.Slot()))
      ensures old(unsubscribeFunction).None? ==> api.Slot() == old(api.Slot())
      ensures api.writes == old(api.writes)
      ensures notifications == old(notifications) && unreadCount == old(unreadCount)
      ensures isLoading == old(isLoading) && error == old(error)
    {
      if unsubscribeFunction.Some? {
        api.Dispose(unsubscribeFunction.value);
        unsubscribeFunction := None;
      }
    }

    /**
     * `addNotification(n)`: prepend and add one to the count, read or not.
     * The count stays exact only when the arrival is unread.
     */
    method AddNotification(n: Notification)
      requires Valid()
      modifies this
      ensures Valid()
      ensures notifications == [n] + old(notifications)
      ensures unreadCount == old(unreadCount) + 1
      ensures old(CountExact()) ==> (CountExact() <==> !n.read)
      ensures isLoading == old(isLoading) && error == old(error) && unsubscribeFunction == old(unsubscribeFunction)
    {
      UnreadPrepend(n, notifications);
      notifications := [n] + notifications;
      unreadCount := unreadCount + 1;
    }

    /**
     * `fetchNotifications()`, given the responses of the session call and of
     * the query `findAll` makes. `findAll` never throws, so the store's own
     * failure branch is never taken.
     */
    method FetchNotifications(user: Result<Option<string>>, q: Rows<Notification>)
      requires Valid()
      modifies this
      ensures Valid() && CountExact()
      ensures notifications == FindAll(user, q)
      ensures !isLoading && error.None?
      ensures unsubscribeFunction == old(unsubscribeFunction)
    {
      isLoading, error := true, None;
      var data := FindAll(user, q);
      notifications, unreadCount, error := data, Unread(data), None;
      isLoading := false;
    }

    /**
     * `markAsRead(id)`, given the update's error: on success, the entries
     * with that id are read and the count is recomputed; on failure the list
     * and count stay and `error` holds the service's fixed message.
     */
    method MarkAsRead(id: string, updateError: Option<Thrown>)
      requires Valid()
      modifies this, api
      ensures Valid()
      ensures api.writes == old(api.writes) + [UpdateRead(id, true)]
      ensures updateError.None? ==> notifications == MarkRead(old(notifications), id) && CountExact() && error == old(error)
      ensures updateError.Some? ==>
                notifications == old(notifications) && unreadCount == old(unreadCount) && error == Some(UPDATE_ERROR)
      ensures isLoading == old(isLoading) && unsubscribeFunction == old(unsubscribeFunction) && api.Slot() == old(api.Slot())
    {
      var r := api.MarkAsRead(id, updateError);
      match r {
        case Ok(_) =>
          var marked := MarkRead(notifications, id);
          notifications, unreadCount := marked, Unread(marked);
        case Threw(e) =>
          error := Some(MessageOr(e, MARK_ERROR));
      }
    }

    /**
     * `deleteNotification(id)`, given the delete's error: on success the
     * entries with that id are gone and the count is recomputed.
     */
    method DeleteNotification(id: string, deleteError: Option<Thrown>)
      requires Valid()
      modifies this, api
      ensures Valid()
      ensures api.writes == old(api.writes) + [Write.Delete(id)]
      ensures deleteError.None? ==> notifications == Remove(old(notifications), id) && CountExact() && error == old(error)
      ensures deleteError.Some? ==>
                notifications == old(notifications) && unreadCount == old(unreadCount) && error == Some(DELETE_ERROR)
      ensures isLoading == old(isLoading) && unsubscribeFunction == old(unsubscribeFunction) && api.Slot() == old(api.Slot())
    {
      var r := api.Delete(id, deleteError);
      match r {
        case Ok(_) =>
          var kept := Remove(notifications, id);
          notifications, unreadCount := kept, Unread(kept);
        case Threw(e) =>
          error := Some(MessageOr(e, REMOVE_ERROR));
      }
    }
  }
}
