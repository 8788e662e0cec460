/**
 * The chat page of `src/pages/Chat.tsx`: the room search, the messages
 * shown for the open room, and the send box on top of the chat store.
 */
module ChatPage {
  import opened Basics
  import opened Text
  import Lists
  import Search
  import ChatApi
  import ChatStore

  function NameMatches(query: string): ChatApi.ChatRoom -> bool
  {
    (room: ChatApi.ChatRoom) => Search.Matches(room.name, query)
  }

  /**
   * `filteredRooms`: every room for an empty query, otherwise the rooms
   * whose name contains the query, ignoring case, in their order.
   */
  function FilterRooms(rooms: seq<ChatApi.ChatRoom>, query: string): (r: seq<ChatApi.ChatRoom>)
    ensures query == [] ==> r == rooms
    ensures Lists.IsSubsequence(r, rooms)
    ensures query != [] ==> forall room :: room in r <==> room in rooms && Search.Matches(room.name, query)
  {
    if query == [] then
      Lists.SubsequenceRefl(rooms);
      rooms
    else
      var r := Lists.Filter(rooms, NameMatches(query));
      assert forall room :: room in r ==> NameMatches(query)(room) by {
        forall room | room in r ensures NameMatches(query)(room) {
          var i :| 0 <= i < |r| && r[i] == room;
        }
      }
      r
  }

  /** Typing more into a non-empty search can only drop rooms from the list. */
  lemma NarrowingSearch(rooms: seq<ChatApi.ChatRoom>, query: string, more: string)
    requires query != []
    ensures forall room :: room in FilterRooms(rooms, query + more) ==> room in FilterRooms(rooms, query)
  {
    forall room | room in FilterRooms(rooms, query + more) ensures room in FilterRooms(rooms, query) {
      Search.NarrowingQuery(room.name, query, more);
    }
  }

  /** `activeRoomMessages`: the open room's cached list, or nothing. */
  function ActiveRoomMessages(activeRoom: Option<ChatApi.ChatRoom>, messages: map<string, seq<ChatApi.ChatMessage>>)
    : (r: seq<ChatApi.ChatMessage>)
    ensures activeRoom.None? ==> r == []
    ensures activeRoom.Some? && activeRoom.value.id !in messages ==> r == []
    ensures activeRoom.Some? && activeRoom.value.id in messages ==> r == messages[activeRoom.value.id]
  {
    if activeRoom.Some? then ChatStore.MessagesOf(messages, activeRoom.value.id) else []
  }

  /**
   * `handleSendMessage`, given the signed-in user and the insert's
   * response: a blank input sends nothing and stays; otherwise the store
   * sends it as text, and since the store's `sendMessage` never throws the
   * box is cleared whether or not the message was stored.
   */
  method HandleSendMessage(store: ChatStore.ChatStore, input: string, user: Option<string>, insert: Result<ChatApi.ChatMessage>)
    returns (nextInput: string)
    modifies store, store.api
    ensures Blank(input) ==> nextInput == input
    ensures Blank(input) ==>
              store.messages == old(store.messages) && store.error == old(store.error)
              && store.api.messageInserts == old(store.api.messageInserts)
    ensures !Blank(input) ==> nextInput == []
    ensures !Blank(input) && old(store.activeRoom).Some? ==>
              var sent := ChatApi.SendMessageStep(user, old(store.activeRoom).value.id, input, ChatApi.Text, insert);
              && store.api.messageInserts == old(store.api.messageInserts) + (if sent.0.Some? then [sent.0.value] else [])
              && (sent.1.Ok? ==> store.messages == ChatStore.PrependMessage(old(store.messages), old(store.activeRoom).value.id, sent.1.value))
              && (sent.1.Threw? ==> store.messages == old(store.messages)
                                    && store.error == Some(MessageOr(sent.1.thrown, ChatStore.SEND_ERROR)))
    ensures !Blank(input) && old(store.activeRoom).None? ==>
              store.messages == old(store.messages) && store.api.messageInserts == old(store.api.messageInserts)
    ensures !Blank(input) && old(store.activeRoom).Some? &&
            ChatApi.SendMessageStep(user, old(store.activeRoom).value.id, input, ChatApi.Text, insert).1.Ok? ==>
              store.error == old(store.error)
    ensures store.rooms == old(store.rooms) && store.activeRoom == old(store.activeRoom)
    ensures store.isLoading == old(store.isLoading) && store.unsubscribeFunction == old(store.unsubscribeFunction)
    ensures store.api.Slot() == old(store.api.Slot())
    ensures old(store.Valid()) ==> store.Valid()
  {
    if Blank(input) {
      return input;
    }
    store.SendMessage(input, ChatApi.Text, user, insert);
    nextInput := [];
  }
}
