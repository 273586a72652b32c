/**
 * The chat page of the client. It keeps the message list it shows, a flag
 * that the assistant is typing, and the text in the input box. It sends the
 * trimmed input optimistically, then shows the server's transcript or keeps
 * its own list when the send fails. It also empties the list whenever the
 * delete request is answered with status 200. The page also derives the
 * user's initials for the avatar.
 */
module ChatPage {
  import opened Wrappers
  import opened JsStrings
  import Conversation

  /** A message as the page holds it: a speaker and the text. */
  datatype Message = Message(role: Conversation.Role, content: string)

  // ---------------------------------------------------------------- initials

  function FirstChar(w: string): (r: string) {
    if w == [] then [] else [w[0]]
  }

  /** `getInitials`: the first character of the first and of the second
      space-separated word, where either word may be empty or missing. */
  function GetInitials(name: string): (r: string)
    ensures |r| <= 2
  {
    var words := Split(name, ' ');
    FirstChar(words[0]) + (if |words| > 1 then FirstChar(words[1]) else "")
  }

  /** A name with no space is one word: its first character, or nothing for
      the empty name. */
  lemma InitialsOfOneWord(word: string)
    requires ' ' !in word
    ensures GetInitials(word) == FirstChar(word)
    ensures GetInitials("") == ""
  {
    SplitWithoutSeparator(word, ' ');
    SplitWithoutSeparator("", ' ');
  }

  /** Two words give their first characters; any later words are ignored. */
  lemma InitialsOfTwoWords(first: string, second: string, rest: string)
    requires ' ' !in first && ' ' !in second
    ensures GetInitials(first + " " + second) == FirstChar(first) + FirstChar(second)
    ensures GetInitials(first + " " + second + " " + rest) == FirstChar(first) + FirstChar(second)
  {
    SplitWithoutSeparator(second, ' ');
    SplitHead(first, ' ', second);
    SplitHead(second, ' ', rest);
    assert first + " " + second + " " + rest == first + [' '] + (second + [' '] + rest);
    SplitHead(first, ' ', second + [' '] + rest);
  }

  /** A doubled space after the first word makes the second word empty, so
      only the first word contributes. */
  lemma InitialsWithDoubledSpace(first: string, rest: string)
    requires ' ' !in first
    ensures GetInitials(first + "  " + rest) == FirstChar(first)
  {
    InitialsOfTwoWords(first, "", rest);
    assert first + "  " + rest == first + " " + "" + " " + rest;
  }

  // ---------------------------------------------------------------- failures

  const DefaultFailure := "Failed to send message."

  const RateLimitToast := "Rate limit exceeded. Please wait a moment and try again."

  /** The error toast shown for a failed send, from the HTTP status of the
      error response and the `message` of its body, either of which may be
      absent: the rate-limit advice for status 429; for any other failure the
      server's message when it is non-empty, otherwise a fixed text. */
  function FailureToast(status: Option<int>, serverMessage: Option<string>): (t: string)
    ensures t != ""
    ensures status == Some(429) ==> t == RateLimitToast
    ensures status != Some(429) && serverMessage.Some? && serverMessage.value != "" ==> t == serverMessage.value
    ensures status != Some(429) && (serverMessage.None? || serverMessage.value == "") ==> t == DefaultFailure
  {
    if status == Some(429) then RateLimitToast
    else if serverMessage.Some? && serverMessage.value != "" then serverMessage.value
    else DefaultFailure
  }

  // ---------------------------------------------------------------- page state

  /** What `sendChatRequest` settles to: the server's transcript, or an
      error with an optional status and an optional server message. */
  datatype SendResult =
    | Delivered(chats: seq<Message>)
    | Rejected(status: Option<int>, serverMessage: Option<string>)

  class ChatView {
    /** The text in the input box. */
    var draft: string
    /** The messages shown, `chatMessages`. */
    var messages: seq<Message>
    var isTyping: bool

    constructor ()
      ensures draft == "" && messages == [] && !isTyping
    {
      draft, messages, isTyping := "", [], false;
    }

    /** The synchronous start of `handleSubmit`: input that trims to nothing
        changes nothing; otherwise the box is cleared, the trimmed text is
        appended as a user message and the typing indicator turns on. The
        trimmed text to send is returned. */
    method BeginSubmit() returns (sent: Option<string>)
      modifies this
      ensures sent.None? <==> AllWhitespace(old(draft))
      ensures sent.None? ==>
        draft == old(draft) && messages == old(messages) && isTyping == old(isTyping)
      ensures sent.Some? ==>
        && sent.value == Trim(old(draft))
        && draft == ""
        && messages == old(messages) + [Message(Conversation.User, sent.value)]
        && isTyping
    {
      var content := Trim(draft);
      TrimEmptyIffAllWhitespace(draft);
      if content == "" {
        return None;
      }
      draft := "";
      messages := messages + [Message(Conversation.User, content)];
      isTyping := true;
      sent := Some(content);
    }

    /** The rest of `handleSubmit` once the request settles: a delivered
        transcript replaces the list; a failure keeps the list, including the
        optimistic message, and yields its error toast. Typing stops either way. */
    method FinishSubmit(result: SendResult) returns (toast: Option<string>)
      modifies this`messages, this`isTyping
      ensures !isTyping
      ensures result.Delivered? ==> messages == result.chats && toast == None
      ensures result.Rejected? ==>
        messages == old(messages) && toast == Some(FailureToast(result.status, result.serverMessage))
    {
      match result {
        case Delivered(chats) =>
          messages := chats;
          toast := None;
        case Rejected(status, serverMessage) =>
          toast := Some(FailureToast(status, serverMessage));
      }
      isTyping := false;
    }

    /** `handleSubmit` from start to end, with `result` the outcome of the
        request it sends. */
    method HandleSubmit(result: SendResult) returns (toast: Option<string>)
      modifies this
      ensures AllWhitespace(old(draft)) ==>
        && draft == old(draft) && messages == old(messages) && isTyping == old(isTyping)
        && toast == None
      ensures !AllWhitespace(old(draft)) ==>
        && draft == ""
        && !isTyping
        && (result.Delivered? ==> messages == result.chats && toast == None)
        && (result.Rejected? ==>
              && messages == old(messages) + [Message(Conversation.User, Trim(old(draft)))]
              && toast == Some(FailureToast(result.status, result.serverMessage)))
    {
      var sent := BeginSubmit();
      if sent.None? {
        return None;
      }
      toast := FinishSubmit(result);
    }

    /** `handleDeleteChats`: `resolved` tells whether the delete request
        resolved, which it does on any status-200 answer. The list is emptied
        when it resolved and kept when it was rejected; the final toast text
        is returned. */
    method HandleDeleteChats(resolved: bool) returns (toast: string)
      modifies this`messages
      ensures resolved ==> messages == [] && toast == "Deleted Chats Successfully"
      ensures !resolved ==> messages == old(messages) && toast == "Deleting chats failed"
    {
      if resolved {
        messages := [];
        toast := "Deleted Chats Successfully";
      } else {
        toast := "Deleting chats failed";
      }
    }
  }

  /** The server reports a failed save of the cleared record as a status-200
      "ERROR" answer, which the delete request treats as resolved. The page
      then empties its list and reports success while the stored transcript
      is unchanged. `deleteUserChats` resolves exactly on status 200. */
  method DeleteWhenSaveFails(service: Conversation.ChatService, view: ChatView,
                             id: Conversation.UserId, cause: string)
    returns (toast: string)
    requires service.Valid() && id in service.users
    modifies service, view
    ensures service.users == old(service.users) && id in service.users
    ensures view.messages == [] && toast == "Deleted Chats Successfully"
  {
    var resp := service.DeleteChats(id, None, Some(cause));
    toast := view.HandleDeleteChats(resp.status == 200);
  }
}
