/**
 * The chat service of `src/services/api/chat.ts`: the rows it writes when a
 * room is created or a message sent, the guards around those writes, and the
 * one realtime channel (`messageChannel`) it keeps for the open room.
 *
 * Each backend call is an input: the settled response of the insert or query.
 */
module ChatApi {
  import opened Basics
  import Realtime

  const NOT_AUTHENTICATED: string := "Usuário não autenticado"
  const DEFAULT_MESSAGE_LIMIT: nat := 50

  datatype RoomType = Direct | Group
  datatype MessageType = Text | Image | File

  datatype ChatRoom = ChatRoom(id: string, name: string, roomType: RoomType, createdAt: string, updatedAt: string)

  datatype ChatMessage = ChatMessage(
    id: string,
    roomId: string,
    userId: string,
    content: string,
    messageType: MessageType,
    createdAt: string,
    updatedAt: string)

  /** The row `createRoom` inserts into `chat_rooms`. */
  datatype RoomRow = RoomRow(name: string, roomType: RoomType, tenantId: string)

  /** A row of `chat_participants`. */
  datatype ParticipantRow = ParticipantRow(roomId: string, userId: string)

  /** The row `sendMessage` inserts into `chat_messages`. */
  datatype MessageRow = MessageRow(roomId: string, userId: string, content: string, messageType: MessageType)

  /** `participants.map(userId => ({ room_id, user_id: userId }))` */
  function ParticipantRows(roomId: string, users: seq<string>): (rows: seq<ParticipantRow>)
    ensures |rows| == |users|
    ensures forall i :: 0 <= i < |users| ==> rows[i] == ParticipantRow(roomId, users[i])
  {
    if users == [] then [] else [ParticipantRow(roomId, users[0])] + ParticipantRows(roomId, users[1..])
  }

  /** What `createRoom` wrote and how it settled. */
  datatype CreateRoomRun = CreateRoomRun(
    room: RoomRow,
    participants: Option<seq<ParticipantRow>>,
    result: Result<ChatRoom>)

  /**
   * `createRoom(name, type, participants)` once the tenant id is resolved:
   * insert the room stamped with that tenant, then one participant row per
   * user; the first error is thrown as it is.
   */
  function CreateRoom(
    tenantId: string, name: string, roomType: RoomType, participants: seq<string>,
    roomInsert: Result<ChatRoom>, participantsError: Option<Thrown>): (r: CreateRoomRun)
    ensures r.room == RoomRow(name, roomType, tenantId)
    ensures r.participants.Some? <==> roomInsert.Ok?
    ensures roomInsert.Ok? ==>
              |r.participants.value| == |participants|
              && forall i :: 0 <= i < |participants| ==>
                   r.participants.value[i] == ParticipantRow(roomInsert.value.id, participants[i])
    ensures roomInsert.Threw? ==> r.result == roomInsert
    ensures roomInsert.Ok? && participantsError.Some? ==> r.result == Threw(participantsError.value)
    ensures r.result.Ok? <==> roomInsert.Ok? && participantsError.None?
    ensures r.result.Ok? ==> r.result == roomInsert
  {
    var room := RoomRow(name, roomType, tenantId);
    match roomInsert
    case Threw(e) => CreateRoomRun(room, None, Threw(e))
    case Ok(created) =>
      var rows := ParticipantRows(created.id, participants);
      if participantsError.Some? then CreateRoomRun(room, Some(rows), Threw(participantsError.value))
      else CreateRoomRun(room, Some(rows), Ok(created))
  }

  /** `getMessages(roomId, limit = 50)`: the row limit of the query, and its result. */
  function GetMessages(limit: Option<nat>, q: Rows<ChatMessage>): (r: (nat, Result<seq<ChatMessage>>))
    ensures limit.None? ==> r.0 == DEFAULT_MESSAGE_LIMIT
    ensures limit.Some? ==> r.0 == limit.value
    ensures r.1.Threw? <==> q.RowsError?
    ensures q.Rows? ==> r.1 == Ok(if q.data.Some? then q.data.value else [])
  {
    (if limit.Some? then limit.value else DEFAULT_MESSAGE_LIMIT, RowsOrEmpty(q))
  }

  /**
   * `sendMessage(roomId, content, type)`: without a signed-in user it
   * throws before any insert; otherwise it inserts the message for that
   * user and returns the stored row or throws the insert's error.
   */
  function SendMessageStep(user: Option<string>, roomId: string, content: string, messageType: MessageType,
                           insert: Result<ChatMessage>): (r: (Option<MessageRow>, Result<ChatMessage>))
    ensures r.0.None? <==> user.None?
    ensures user.None? ==> r.1 == Fail(NOT_AUTHENTICATED)
    ensures user.Some? ==> r.0 == Some(MessageRow(roomId, user.value, content, messageType)) && r.1 == insert
  {
    if user.None? then (None, Fail(NOT_AUTHENTICATED))
    else (Some(MessageRow(roomId, user.value, content, messageType)), insert)
  }

  /** The topic and filter of the room channel. */
  function RoomTopic(roomId: string): string { "room:" + roomId }
  function RoomFilter(roomId: string): string { "room_id=eq." + roomId }

  /**
   * The service object. Besides `messageChannel` it records what the
   * backend saw from it: how many channels were opened, which were
   * unsubscribed, and which message rows were inserted.
   */
  class ChatAPI {
    var messageChannel: Option<Realtime.Channel>
    var channelsOpened: nat
    var unsubscribed: seq<Realtime.Channel>
    var messageInserts: seq<MessageRow>

    function Slot(): Realtime.Slot
      reads this
    {
      Realtime.Slot(messageChannel, channelsOpened, unsubscribed)
    }

    /** No channel leaks and none is unsubscribed twice. */
    predicate Valid()
      reads this
    {
      Realtime.NoLeak(Slot())
    }

    constructor ()
      ensures Slot() == Realtime.Empty && messageInserts == []
      ensures Valid()
    {
      messageChannel := None;
      channelsOpened := 0;
      unsubscribed := [];
      messageInserts := [];
    }

    /** `subscribeToMessages(roomId, onNewMessage)`, returning its disposer. */
    method SubscribeToMessages(roomId: string) returns (dispose: Realtime.Disposer)
      modifies this
      ensures Slot() == Realtime.Subscribe(old(Slot()), RoomTopic(roomId), RoomFilter(roomId))
      ensures dispose == Realtime.Disposer(old(channelsOpened))
      ensures messageInserts == old(messageInserts)
      ensures old(Valid()) ==> Valid()
    {
      if messageChannel.Some? {
        unsubscribed := unsubscribed + [messageChannel.value];
      }
      messageChannel := Some(Realtime.Channel(channelsOpened, RoomTopic(roomId), RoomFilter(roomId)));
      dispose := Realtime.Disposer(channelsOpened);
      channelsOpened := channelsOpened + 1;
    }

    /** Calling a disposer returned by `SubscribeToMessages`; which one does not matter. */
    method Dispose(dispose: Realtime.Disposer)
      modifies this
      ensures Slot() == Realtime.Dispose(old(Slot()))
      ensures messageInserts == old(messageInserts)
      ensures old(Valid()) ==> Valid()
    {
      if messageChannel.Some? {
        unsubscribed := unsubscribed + [messageChannel.value];
        messageChannel := None;
      }
    }

    /** `sendMessage(roomId, content, type)`, given the signed-in user and the insert's response. */
    method SendMessage(user: Option<string>, roomId: string, content: string, messageType: MessageType,
                       insert: Result<ChatMessage>) returns (r: Result<ChatMessage>)
      modifies this
      ensures r == SendMessageStep(user, roomId, content, messageType, insert).1
      ensures user.None? ==> messageInserts == old(messageInserts)
      ensures user.Some? ==> messageInserts == old(messageInserts) + [MessageRow(roomId, user.value, content, messageType)]
      ensures Slot() == old(Slot())
    {
      if user.None? {
        return Fail(NOT_AUTHENTICATED);
      }
      messageInserts := messageInserts + [MessageRow(roomId, user.value, content, messageType)];
      r := insert;
    }
  }

  /**
   * Through the service object a stale disposer, kept from an earlier
   * subscription, unsubscribes the channel of the room opened since.
   */
  method StaleDisposerScenario(api: ChatAPI, first: string, second: string)
    modifies api
    requires api.Valid()
    ensures api.messageChannel.None?
    ensures |api.unsubscribed| == |old(api.unsubscribed)| + (if old(api.messageChannel).Some? then 3 else 2)
    ensures api.unsubscribed[|api.unsubscribed| - 1].topic == RoomTopic(second)
    ensures api.unsubscribed[|api.unsubscribed| - 2].topic == RoomTopic(first)
  {
    var stale := api.SubscribeToMessages(first);
    var _ := api.SubscribeToMessages(second);
    api.Dispose(stale);
  }
}
