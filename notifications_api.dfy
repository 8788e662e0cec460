/**
 * The notification service of `src/services/api/notifications.ts`: the one
 * realtime channel (`realtimeChannel`) it keeps for the signed-in user, the
 * writes it sends to the `notifications` table, and how it reports failures:
 * `findAll` never fails, the other calls replace the backend's error with a
 * fixed message.
 */
module NotificationsApi {
  import opened Basics
  import Realtime

  const CREATE_ERROR: string := "Não foi possível criar a notificação"
  const UPDATE_ERROR: string := "Não foi possível atualizar a notificação"
  const DELETE_ERROR: string := "Não foi possível deletar a notificação"

  datatype Kind = Info | Warning | Error | Success

  datatype Notification = Notification(
    id: string,
    userId: string,
    title: string,
    message: string,
    kind: Kind,
    read: bool,
    createdAt: string)

  /** The argument of `create`. */
  datatype CreateNotification = CreateNotification(title: string, message: string, kind: Kind, userId: string)

  /** The row `create` inserts. */
  datatype NotificationRow = NotificationRow(title: string, message: string, kind: Kind, userId: string, read: bool)

  /** A write the service sends to the `notifications` table. */
  datatype Write =
    | Insert(row: NotificationRow)
    | UpdateRead(id: string, read: bool)
    | Delete(id: string)

  /** The row `create` inserts: the fields of the request, and unread. */
  function NewRow(dto: CreateNotification): (row: NotificationRow)
    ensures !row.read
    ensures row.title == dto.title && row.message == dto.message && row.kind == dto.kind && row.userId == dto.userId
  {
    NotificationRow(dto.title, dto.message, dto.kind, dto.userId, false)
  }

  /**
   * Notifications only ever go from unread to read: every row the service
   * inserts is unread and every update it sends sets `read` to true.
   */
  predicate OneWay(writes: seq<Write>)
  {
    forall i :: 0 <= i < |writes| ==>
      (writes[i].Insert? ==> !writes[i].row.read) && (writes[i].UpdateRead? ==> writes[i].read)
  }

  /**
   * `findAll()`: the signed-in user's notifications. `[]` when nobody is
   * signed in, when the session call throws, when the query fails and when
   * it returns no data; it never throws.
   */
  function FindAll(user: Result<Option<string>>, q: Rows<Notification>): (r: seq<Notification>)
    ensures user.Ok? && user.value.Some? && q.Rows? && q.data.Some? ==> r == q.data.value
    ensures user.Threw? || user == Ok(None) ==> r == []
    ensures q.RowsError? ==> r == []
    ensures q.Rows? && q.data.None? ==> r == []
  {
    match user
    case Threw(_) => []
    case Ok(u) =>
      if u.None? then []
      else
        match RowsOrEmpty(q)
        case Threw(_) => []
        case Ok(rows) => rows
  }

  /** The topic and filter of the notification channel. */
  const NotificationsTopic: string := "notifications"
  function UserFilter(userId: string): string { "user_id=eq." + userId }

  /**
   * The service object. Besides `realtimeChannel` it records what the
   * backend saw from it: channels opened and unsubscribed, and writes.
   */
  class NotificationAPI {
    var realtimeChannel: Option<Realtime.Channel>
    var channelsOpened: nat
    var unsubscribed: seq<Realtime.Channel>
    var writes: seq<Write>

    function Slot(): Realtime.Slot
      reads this
    {
      Realtime.Slot(realtimeChannel, channelsOpened, unsubscribed)
    }

    /** No channel leaks, none is unsubscribed twice, and no write marks a notification unread. */
    predicate Valid()
      reads this
    {
      Realtime.NoLeak(Slot()) && OneWay(writes)
    }

    constructor ()
      ensures Slot() == Realtime.Empty && writes == []
      ensures Valid()
    {
      realtimeChannel := None;
      channelsOpened := 0;
      unsubscribed := [];
      writes := [];
    }

    /** `subscribeToNotifications(userId, onNewNotification)`, returning its disposer. */
    method SubscribeToNotifications(userId: string) returns (dispose: Realtime.Disposer)
      modifies this
      ensures Slot() == Realtime.Subscribe(old(Slot()), NotificationsTopic, UserFilter(userId))
      ensures dispose == Realtime.Disposer(old(channelsOpened))
      ensures writes == old(writes)
      ensures old(Valid()) ==> Valid()
    {
      if realtimeChannel.Some? {
        unsubscribed := unsubscribed + [realtimeChannel.value];
      }
      realtimeChannel := Some(Realtime.Channel(channelsOpened, NotificationsTopic, UserFilter(userId)));
      dispose := Realtime.Disposer(channelsOpened);
      channelsOpened := channelsOpened + 1;
    }

    /** Calling a disposer returned by `SubscribeToNotifications`; which one does not matter. */
    method Dispose(dispose: Realtime.Disposer)
      modifies this
      ensures Slot() == Realtime.Dispose(old(Slot()))
      ensures writes == old(writes)
      ensures old(Valid()) ==> Valid()
    {
      if realtimeChannel.Some? {
        unsubscribed := unsubscribed + [realtimeChannel.value];
        realtimeChannel := None;
      }
    }

    /** `create(dto)`, given the insert's response. */
    method Create(dto: CreateNotification, insert: Result<Notification>) returns (r: Result<Notification>)
      modifies this
      ensures writes == old(writes) + [Insert(NewRow(dto))]
      ensures r == ReplaceError(insert, CREATE_ERROR)
      ensures Slot() == old(Slot())
      ensures old(Valid()) ==> Valid()
    {
      writes := writes + [Insert(NewRow(dto))];
      r := ReplaceError(insert, CREATE_ERROR);
    }

    /** `markAsRead(id)`, given the update's error, if any. */
    method MarkAsRead(id: string, error: Option<Thrown>) returns (r: Result<()>)
      modifies this
      ensures writes == old(writes) + [UpdateRead(id, true)]
      ensures r == ReplaceError(RaiseError(error), UPDATE_ERROR)
      ensures Slot() == old(Slot())
      ensures old(Valid()) ==> Valid()
    {
      writes := writes + [UpdateRead(id, true)];
      r := ReplaceError(RaiseError(error), UPDATE_ERROR);
    }

    /** `delete(id)`, given the delete's error, if any. */
    method Delete(id: string, error: Option<Thrown>) returns (r: Result<()>)
      modifies this
      ensures writes == old(writes) + [Write.Delete(id)]
      ensures r == ReplaceError(RaiseError(error), DELETE_ERROR)
      ensures Slot() == old(Slot())
      ensures old(Valid()) ==> Valid()
    {
      writes := writes + [Write.Delete(id)];
      r := ReplaceError(RaiseError(error), DELETE_ERROR);
    }
  }
}
