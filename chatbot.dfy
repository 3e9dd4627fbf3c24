/** The chat view (components/ChatBot.tsx): a conversation that opens with one
    greeting from the assistant, a single-flight send that ignores blank input
    and any send while a reply is pending, and the reply step that ends the
    pending state. The assistant's reply is a parameter. */
module ChatBot {
  import opened Types

  const Greeting: string :=
    "Hello! I'm your AI Buddy. I'm here to listen, offer support, and help you find calm. How's everything going?"

  /** The characters `String.prototype.trim` removes: the ECMAScript
      WhiteSpace and LineTerminator code points. */
  predicate IsTrimmable(c: char) {
    || '\U{0009}' <= c <= '\U{000D}'
    || c == ' ' || c == '\U{00A0}' || c == '\U{1680}'
    || '\U{2000}' <= c <= '\U{200A}'
    || c == '\U{2028}' || c == '\U{2029}' || c == '\U{202F}' || c == '\U{205F}'
    || c == '\U{3000}' || c == '\U{FEFF}'
  }

  function TrimStart(s: string): (r: string)
    ensures |r| <= |s| && r == s[|s| - |r|..]
    ensures r != [] ==> !IsTrimmable(r[0])
    ensures forall i :: 0 <= i < |s| - |r| ==> IsTrimmable(s[i])
  {
    if s != [] && IsTrimmable(s[0]) then TrimStart(s[1..]) else s
  }

  function TrimEnd(s: string): (r: string)
    ensures |r| <= |s| && r == s[..|r|]
    ensures r != [] ==> !IsTrimmable(r[|r| - 1])
    ensures forall i :: |r| <= i < |s| ==> IsTrimmable(s[i])
  {
    if s != [] && IsTrimmable(s[|s| - 1]) then TrimEnd(s[..|s| - 1]) else s
  }

  /** `s.trim()`: the part of `s` left once the trimmable characters at both
      ends are removed. */
  function Trim(s: string): (r: string)
    ensures |r| <= |s|
    ensures r != [] ==> !IsTrimmable(r[0]) && !IsTrimmable(r[|r| - 1])
    ensures var i := |s| - |TrimStart(s)|;
            && i + |r| <= |s| && r == s[i..i + |r|]
            && (forall k :: 0 <= k < i ==> IsTrimmable(s[k]))
            && (forall k :: i + |r| <= k < |s| ==> IsTrimmable(s[k]))
  {
    TrimEnd(TrimStart(s))
  }

  /** `!s.trim()`: the text is empty once trimmed. */
  predicate IsBlank(s: string) {
    Trim(s) == ""
  }

  /** A text is blank exactly when every character of it is trimmable. */
  lemma {:induction false} BlankIffAllTrimmable(s: string)
    ensures IsBlank(s) <==> forall i :: 0 <= i < |s| ==> IsTrimmable(s[i])
  {
    var t := TrimStart(s);
    if exists i :: 0 <= i < |s| && !IsTrimmable(s[i]) {
      var i :| 0 <= i < |s| && !IsTrimmable(s[i]);
      assert |s| - |t| <= i;
      assert t[i - (|s| - |t|)] == s[i];
      assert Trim(s) != "";
    }
  }

  /** `textOverride || input`: a suggestion's text when one is given and
      non-empty, the typed input otherwise. */
  function TextToSend(textOverride: Option<string>, input: string): (t: string)
    ensures textOverride.Some? && textOverride.value != "" ==> t == textOverride.value
    ensures textOverride.None? || textOverride.value == "" ==> t == input
  {
    if textOverride.Some? && textOverride.value != "" then textOverride.value else input
  }

  /** What an accepted send hands to the chat service: the conversation as it
      was before the new message, and the new message's text. */
  datatype ChatRequest = ChatRequest(history: seq<ChatMessage>, newMessage: string)

  class Chat {
    var messages: seq<ChatMessage>
    var input: string
    var isLoading: bool

    /** The conversation opens with exactly one assistant greeting. */
    constructor ()
      ensures messages == [ChatMessage(ModelRole, Greeting)] && input == "" && !isLoading
    {
      messages := [ChatMessage(ModelRole, Greeting)];
      input := "";
      isLoading := false;
    }

    /** The text box's change handler. */
    method Type(text: string)
      modifies this`input
      ensures input == text
    {
      input := text;
    }

    /** `handleSend` up to the service call. A blank text, or a send while a
        reply is pending, changes nothing and sends nothing; otherwise one user
        message is appended, the input is cleared and the reply is pending. */
    method Send(textOverride: Option<string>) returns (request: Option<ChatRequest>)
      modifies this
      ensures var text := TextToSend(textOverride, old(input));
              if IsBlank(text) || old(isLoading) then
                request == None && messages == old(messages) && input == old(input) && isLoading == old(isLoading)
              else
                && request == Some(ChatRequest(old(messages), text))
                && messages == old(messages) + [ChatMessage(UserRole, text)]
                && input == "" && isLoading
    {
      var text := TextToSend(textOverride, input);
      if IsBlank(text) || isLoading {
        request := None;
        return;
      }
      request := Some(ChatRequest(messages, text));
      messages := messages + [ChatMessage(UserRole, text)];
      input := "";
      isLoading := true;
    }

    /** The awaited service call settles: `Some(text)` is a reply, appended as
        one assistant message; `None` is a thrown error, which appends nothing.
        Either way the pending state ends. */
    method ReceiveReply(reply: Option<string>)
      modifies this`messages, this`isLoading
      ensures reply.Some? ==> messages == old(messages) + [ChatMessage(ModelRole, reply.value)]
      ensures reply.None? ==> messages == old(messages)
      ensures !isLoading
    {
      if reply.Some? {
        messages := messages + [ChatMessage(ModelRole, reply.value)];
      }
      isLoading := false;
    }
  }

  /** While a reply is pending, every further send is ignored, so the
      conversation grows by exactly one user and one assistant message per
      accepted exchange. */
  method Exchange(chat: Chat, textOverride: Option<string>, again: Option<string>, reply: string)
    returns (request: Option<ChatRequest>)
    requires !chat.isLoading
    modifies chat
    ensures request.Some? <==> !IsBlank(TextToSend(textOverride, old(chat.input)))
    ensures request.Some? ==>
              && request.value == ChatRequest(old(chat.messages), TextToSend(textOverride, old(chat.input)))
              && chat.input == ""
    ensures request.None? ==> chat.input == old(chat.input)
    ensures request.Some? ==>
              chat.messages == old(chat.messages) + [ChatMessage(UserRole, request.value.newMessage),
                                                     ChatMessage(ModelRole, reply)]
    ensures request.None? ==> chat.messages == old(chat.messages)
    ensures !chat.isLoading
  {
    request := chat.Send(textOverride);
    if request.Some? {
      var ignored := chat.Send(again);
      assert ignored == None;
      chat.ReceiveReply(Some(reply));
    }
  }
}
