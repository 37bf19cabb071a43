/**
  The message center: a list of conversations with one selected by id, the
  alignment of the open conversation's messages, and a draft box whose text
  is sent only when it holds something other than whitespace.
 */
module Messaging {
  import opened Options
  import opened Text

  datatype Conversation = Conversation(
    id: int,
    name: string,
    service: string,
    lastMessage: string,
    timestamp: string,
    unread: int,
    avatar: string,
    online: bool)

  datatype ChatMessage = ChatMessage(
    id: int,
    senderId: string,
    senderName: string,
    content: string,
    timestamp: string,
    kind: string)

  /** Index `i` holds the first conversation with the id `id`. */
  predicate FirstWithId(conversations: seq<Conversation>, id: int, i: int) {
    0 <= i < |conversations| && conversations[i].id == id &&
    forall j :: 0 <= j < i ==> conversations[j].id != id
  }

  /** `conversations.find(conv => conv.id === id)`: the first conversation
      with that id, or nothing when no conversation has it. */
  function FindConversation(conversations: seq<Conversation>, id: int): (r: Option<Conversation>)
    ensures r.None? <==> forall i :: 0 <= i < |conversations| ==> conversations[i].id != id
    ensures r.Some? ==> exists i :: FirstWithId(conversations, id, i) && conversations[i] == r.value
  {
    if conversations == [] then None
    else if conversations[0].id == id then
      assert FirstWithId(conversations, id, 0);
      Some(conversations[0])
    else
      var r := FindConversation(conversations[1..], id);
      if r.Some? then
        var i :| FirstWithId(conversations[1..], id, i) && conversations[1..][i] == r.value;
        assert FirstWithId(conversations, id, i + 1);
        r
      else r
  }

  /** When the ids are distinct and the lookup finds a conversation, the
      list highlights exactly one entry, the found one. (When the lookup
      finds nothing, no entry has the selected id, so none is highlighted.) */
  lemma HighlightMatchesSelection(conversations: seq<Conversation>, selected: int)
    requires forall i, j :: 0 <= i < j < |conversations| ==> conversations[i].id != conversations[j].id
    ensures FindConversation(conversations, selected).Some? ==>
      exists i :: 0 <= i < |conversations| && conversations[i].id == selected &&
        conversations[i] == FindConversation(conversations, selected).value &&
        forall j :: 0 <= j < |conversations| && j != i ==> conversations[j].id != selected
  {
    var r := FindConversation(conversations, selected);
    if r.Some? {
      var i :| FirstWithId(conversations, selected, i) && conversations[i] == r.value;
      forall j | 0 <= j < |conversations| && j != i ensures conversations[j].id != selected {
        if j > i { assert conversations[i].id != conversations[j].id; }
      }
    }
  }

  /** The alignment class of a message bubble's row: the user's own
      messages are right-aligned, everyone else's left-aligned. */
  function Alignment(m: ChatMessage): (cls: string)
    ensures cls == "justify-end" <==> m.senderId == "user"
    ensures cls in {"justify-end", "justify-start"}
  {
    if m.senderId == "user" then "justify-end" else "justify-start"
  }

  /** The page's state. */
  class MessageCenter {
    const conversations: seq<Conversation>
    var selectedChat: int
    var newMessage: string

    /** The page opens with conversation 1 selected and an empty draft. */
    constructor (conversations: seq<Conversation>)
      ensures this.conversations == conversations
      ensures selectedChat == 1 && newMessage == ""
    {
      this.conversations := conversations;
      selectedChat := 1;
      newMessage := "";
    }

    /** `selectedConversation`. */
    function SelectedConversation(): (r: Option<Conversation>)
      reads this
      ensures r.Some? ==> r.value in conversations && r.value.id == selectedChat
      ensures r.None? <==> forall i :: 0 <= i < |conversations| ==> conversations[i].id != selectedChat
    {
      FindConversation(conversations, selectedChat)
    }

    /** Clicking a conversation in the list selects its id. */
    method SelectChat(c: Conversation)
      modifies this`selectedChat
      ensures selectedChat == c.id
      ensures c in conversations ==> SelectedConversation().Some? && SelectedConversation().value.id == c.id
    {
      selectedChat := c.id;
    }

    /** Typing in the draft box. */
    method EditDraft(text: string)
      modifies this`newMessage
      ensures newMessage == text
    {
      newMessage := text;
    }

    /** `handleSendMessage`: a draft that trims to nothing stays as it is and
        nothing is sent; otherwise the draft is sent as typed and cleared. */
    method HandleSendMessage() returns (sent: Option<string>)
      modifies this`newMessage
      ensures (forall i :: 0 <= i < |old(newMessage)| ==> IsWhitespace(old(newMessage)[i])) ==>
        newMessage == old(newMessage) && sent == None
      ensures (exists i :: 0 <= i < |old(newMessage)| && !IsWhitespace(old(newMessage)[i])) ==>
        newMessage == "" && sent == Some(old(newMessage))
    {
      TrimEmptyIff(newMessage);
      if Trim(newMessage) != "" {
        sent := Some(newMessage);
        newMessage := "";
      } else {
        sent := None;
      }
    }
  }
}
