/** Sending a chat message and the deferred reply that answers it. */
module Chat {
  import opened ProfileState
  import opened JsString

  /** `r`'s chats are `s`'s with `msg` appended to chat `c`, which starts
      out empty if it had no messages; every other chat is untouched. */
  ghost predicate AppendedTo(s: AppState, r: AppState, c: string, msg: Message) {
    && ChatOf(r.chatMessages, c) == ChatOf(s.chatMessages, c) + [msg]
    && forall d :: d != c ==> ChatOf(r.chatMessages, d) == ChatOf(s.chatMessages, d)
  }

  /** The send button (or Enter in the message box). Nothing happens when
      the trimmed input is empty or no chat is selected; otherwise one
      message from me holding the trimmed input joins the selected chat and
      the input box is cleared. */
  function SendMessage(s: AppState, id: nat): (r: AppState)
    ensures IsBlank(s.messageInput) || !IsTruthy(s.selectedChat) ==> r == s
    ensures !IsBlank(s.messageInput) && IsTruthy(s.selectedChat) ==>
      && AppendedTo(s, r, s.selectedChat.value, Message(id, Me, Trim(s.messageInput)))
      && r.messageInput == ""
      && r.(chatMessages := s.chatMessages, messageInput := s.messageInput) == s
  {
    var text := Trim(s.messageInput);
    if text != "" && IsTruthy(s.selectedChat) then
      var c := s.selectedChat.value;
      s.(chatMessages := s.chatMessages[c := ChatOf(s.chatMessages, c) + [Message(id, Me, text)]],
         messageInput := "")
    else
      s
  }

  /** A message that was sent has visible text: it is never blank and
      carries no surrounding white space. */
  lemma SentTextIsTrimmedAndNonEmpty(s: AppState, id: nat)
    requires !IsBlank(s.messageInput) && IsTruthy(s.selectedChat)
    ensures var chat := ChatOf(SendMessage(s, id).chatMessages, s.selectedChat.value);
      && |chat| > 0
      && chat[|chat| - 1].sender == Me
      && chat[|chat| - 1].text != ""
      && IsTrimmed(chat[|chat| - 1].text)
  {
  }

  /** The deferred reply to a message sent to chat `c`: one message from the
      other user joins that chat. The reply goes to the chat it was sent
      from, whatever chat is selected by then. */
  function ReceiveReply(s: AppState, c: string, id: nat, text: string): (r: AppState)
    ensures AppendedTo(s, r, c, Message(id, Them, text))
    ensures r.(chatMessages := s.chatMessages) == s
  {
    s.(chatMessages := s.chatMessages[c := ChatOf(s.chatMessages, c) + [Message(id, Them, text)]])
  }

  /** A send followed by its reply leaves exactly two new messages at the
      end of the chat, mine first, and no other chat changed. */
  lemma SendThenReply(s: AppState, id: nat, replyId: nat, reply: string)
    requires !IsBlank(s.messageInput) && IsTruthy(s.selectedChat)
    ensures var c := s.selectedChat.value;
      var r := ReceiveReply(SendMessage(s, id), c, replyId, reply);
      && ChatOf(r.chatMessages, c)
         == ChatOf(s.chatMessages, c) + [Message(id, Me, Trim(s.messageInput)), Message(replyId, Them, reply)]
      && (forall d :: d != c ==> ChatOf(r.chatMessages, d) == ChatOf(s.chatMessages, d))
  {
    var c := s.selectedChat.value;
    var sent := SendMessage(s, id);
    var mine := Message(id, Me, Trim(s.messageInput));
    var theirs := Message(replyId, Them, reply);
    assert ChatOf(sent.chatMessages, c) == ChatOf(s.chatMessages, c) + [mine];
    assert (ChatOf(s.chatMessages, c) + [mine]) + [theirs] == ChatOf(s.chatMessages, c) + [mine, theirs];
  }

  /** A second press of send right after a successful one does nothing: the
      input box was cleared. */
  lemma SendMessageTwice(s: AppState, id: nat, id2: nat)
    requires !IsBlank(s.messageInput) && IsTruthy(s.selectedChat)
    ensures SendMessage(SendMessage(s, id), id2) == SendMessage(s, id)
  {
  }
}
