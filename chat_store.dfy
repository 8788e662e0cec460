/**
 * The chat store of `src/store/chat.ts`: the room list, the open room, a
 * cache of messages per room id, the loading and error fields, and the
 * disposer of the one message subscription, kept in step with the chat
 * service's channel slot.
 *
 * Each asynchronous action is modelled as one step from the state before it
 * to the state once it settled, given the settled response of the service
 * call; the `isLoading: true` visible while it is pending is not modelled.
 */
module ChatStore {
  import opened Basics
  import Realtime
  import opened ChatApi

  const ROOMS_ERROR: string := "Erro ao carregar salas"
  const MESSAGES_ERROR: string := "Erro ao carregar mensagens"
  const SEND_ERROR: string := "Erro ao enviar mensagem"

  /** `state.messages[roomId] || []` */
  function MessagesOf(messages: map<string, seq<ChatMessage>>, roomId: string): seq<ChatMessage>
  {
    if roomId in messages then messages[roomId] else []
  }

  /**
   * `{ ...state.messages, [roomId]: [message, ...(state.messages[roomId] || [])] }`:
   * the message goes in front of its room's list; every other room's entry is
   * left as it was.
   */
  function PrependMessage(messages: map<string, seq<ChatMessage>>, roomId: string, m: ChatMessage): (r: map<string, seq<ChatMessage>>)
    ensures roomId in r && r[roomId] == [m] + MessagesOf(messages, roomId)
    ensures forall k :: k != roomId ==> (k in r <==> k in messages)
    ensures forall k :: k in messages && k != roomId ==> r[k] == messages[k]
  {
    messages[roomId := [m] + MessagesOf(messages, roomId)]
  }

  /**
   * A message the user sent that also arrives on the room channel is not
   * recognized as the same one: the room's list holds it twice.
   */
  lemma SentMessageEchoedTwice(messages: map<string, seq<ChatMessage>>, roomId: string, m: ChatMessage)
    ensures MessagesOf(PrependMessage(PrependMessage(messages, roomId, m), roomId, m), roomId)
            == [m, m] + MessagesOf(messages, roomId)
  {
  }

  class ChatStore {
    var rooms: seq<ChatRoom>
    var activeRoom: Option<ChatRoom>
    var messages: map<string, seq<ChatMessage>>
    var isLoading: bool
    var error: Option<string>
    var unsubscribeFunction: Option<Realtime.Disposer>
    /** The `chatAPI` singleton the store talks to. */
    const api: ChatAPI

    /**
     * The service's channel slot is valid, and the stored disposer is there
     * exactly when the service holds a channel, and was made for that channel.
     */
    predicate Valid()
      reads this, api
    {
      && api.Valid()
      && (unsubscribeFunction.Some? <==> api.messageChannel.Some?)
      && (unsubscribeFunction.Some? ==> unsubscribeFunction.value.createdFor == api.messageChannel.value.serial)
    }

    constructor (api: ChatAPI)
      requires api.Valid() && api.messageChannel.None?
      ensures this.api == api
      ensures rooms == [] && activeRoom.None? && messages == map[] && !isLoading && error.None? && unsubscribeFunction.None?
      ensures Valid()
    {
      this.api := api;
      rooms := [];
      activeRoom := None;
      messages := map[];
      isLoading := false;
      error := None;
      unsubscribeFunction := None;
    }

    /** `fetchRooms()`, given the response of `getRooms`. */
    method FetchRooms(q: Rows<ChatRoom>)
      modifies this
      ensures !isLoading
      ensures RowsOrEmpty(q).Ok? ==> rooms == RowsOrEmpty(q).value && error.None?
      ensures q.RowsError? ==> rooms == old(rooms) && error == Some(MessageOr(q.error, ROOMS_ERROR))
      ensures activeRoom == old(activeRoom) && messages == old(messages) && unsubscribeFunction == old(unsubscribeFunction)
    {
      isLoading, error := true, None;
      var r := RowsOrEmpty(q);
      match r {
        case Ok(list) => rooms := list;
        case Threw(e) => error := Some(MessageOr(e, ROOMS_ERROR));
      }
      isLoading := false;
    }

    /** `fetchMessages(roomId)`, given the response of `getMessages(roomId)`: only that room's entry changes. */
    method FetchMessages(roomId: string, q: Rows<ChatMessage>)
      modifies this
      ensures !isLoading
      ensures GetMessages(None, q).1.Ok? ==> messages == old(messages)[roomId := GetMessages(None, q).1.value] && error.None?
      ensures q.RowsError? ==> messages == old(messages) && error == Some(MessageOr(q.error, MESSAGES_ERROR))
      ensures rooms == old(rooms) && activeRoom == old(activeRoom) && unsubscribeFunction == old(unsubscribeFunction)
    {
      isLoading, error := true, None;
      var (_, r) := GetMessages(None, q);
      match r {
        case Ok(list) => messages := messages[roomId := list];
        case Threw(e) => error := Some(MessageOr(e, MESSAGES_ERROR));
      }
      isLoading := false;
    }

    /**
     * `sendMessage(content, type)`: nothing happens without an open room;
     * otherwise the sent message goes in front of the open room's list, or
     * the failure is recorded in `error`. It never throws.
     */
    method SendMessage(content: string, messageType: MessageType, user: Option<string>, insert: Result<ChatMessage>)
      modifies this, api
      ensures old(activeRoom).None? ==>
                messages == old(messages) && error == old(error) && api.messageInserts == old(api.messageInserts)
      ensures old(activeRoom).Some? ==>
                var sent := SendMessageStep(user, old(activeRoom).value.id, content, messageType, insert);
                && api.messageInserts == old(api.messageInserts) + (if sent.0.Some? then [sent.0.value] else [])
                && (sent.1.Ok? ==> messages == PrependMessage(old(messages), old(activeRoom).value.id, sent.1.value) && error == old(error))
                && (sent.1.Threw? ==> messages == old(messages) && error == Some(MessageOr(sent.1.thrown, SEND_ERROR)))
      ensures rooms == old(rooms) && activeRoom == old(activeRoom) && isLoading == old(isLoading)
      ensures unsubscribeFunction == old(unsubscribeFunction) && api.Slot() == old(api.Slot())
    {
      if activeRoom.None? {
        return;
      }
      var room := activeRoom.value;
      var r := api.SendMessage(user, room.id, content, messageType, insert);
      match r {
        case Ok(m) => messages := PrependMessage(messages, room.id, m);
        case Threw(e) => error := Some(MessageOr(e, SEND_ERROR));
      }
    }

    /** The callback of the room subscription: a message arriving for `roomId`. */
    method ReceiveMessage(roomId: string, m: ChatMessage)
      modifies this
      ensures messages == PrependMessage(old(messages), roomId, m)
      ensures rooms == old(rooms) && activeRoom == old(activeRoom) && isLoading == old(isLoading)
      ensures error == old(error) && unsubscribeFunction == old(unsubscribeFunction)
    {
      messages := PrependMessage(messages, roomId, m);
    }

    /** `unsubscribeFromMessages()`: call the stored disposer, if any, once, and forget it. */
    method UnsubscribeFromMessages()
      requires Valid()
      modifies this, api
      ensures Valid()
      ensures unsubscribeFunction.None? && api.messageChannel.None?
      ensures api.Slot() == Realtime.Dispose(old(api.Slot()))
      ensures old(unsubscribeFunction).None? ==> api.Slot() == old(api.Slot())
      ensures api.messageInserts == old(api.messageInserts)
      ensures rooms == old(rooms) && activeRoom == old(activeRoom) && messages == old(messages)
      ensures isLoading == old(isLoading) && error == old(error)
    {
      if unsubscribeFunction.Some? {
        api.Dispose(unsubscribeFunction.value);
        unsubscribeFunction := None;
      }
    }

    /** `subscribeToMessages(roomId)`: drop the current subscription, then open the room's channel. */
    method SubscribeToMessages(roomId: string)
      requires Valid()
      modifies this, api
      ensures Valid()
      ensures api.Slot() == Realtime.Subscribe(Realtime.Dispose(old(api.Slot())), RoomTopic(roomId), RoomFilter(roomId))
      ensures unsubscribeFunction.Some?
      ensures api.messageInserts == old(api.messageInserts)
      ensures rooms == old(rooms) && activeRoom == old(activeRoom) && messages == old(messages)
      ensures isLoading == old(isLoading) && error == old(error)
    {
      UnsubscribeFromMessages();
      var dispose := api.SubscribeToMessages(roomId);
      unsubscribeFunction := Some(dispose);
    }

    /**
     * `setActiveRoom(room)`: open a room, load its messages (given the
     * response) and subscribe to it; or close the room and unsubscribe.
     */
    method SetActiveRoom(room: Option<ChatRoom>, q: Rows<ChatMessage>)
      requires Valid()
      modifies this, api
      ensures Valid()
      ensures activeRoom == room
      ensures room.None? ==>
                api.Slot() == Realtime.Dispose(old(api.Slot())) && unsubscribeFunction.None?
                && messages == old(messages) && error == old(error) && isLoading == old(isLoading)
      ensures room.Some? ==>
                && api.Slot() == Realtime.Subscribe(Realtime.Dispose(old(api.Slot())), RoomTopic(room.value.id), RoomFilter(room.value.id))
                && !isLoading
                && (q.Rows? ==> messages == old(messages)[room.value.id := GetMessages(None, q).1.value] && error.None?)
                && (q.RowsError? ==> messages == old(messages) && error == Some(MessageOr(q.error, MESSAGES_ERROR)))
      ensures rooms == old(rooms) && api.messageInserts == old(api.messageInserts)
    {
      activeRoom := room;
      if room.Some? {
        FetchMessages(room.value.id, q);
        SubscribeToMessages(room.value.id);
      } else {
        UnsubscribeFromMessages();
      }
    }
  }
}
