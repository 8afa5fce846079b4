/**
 * The chatbot widget: a transcript that starts with one greeting and only
 * grows.  Picking a suggested FAQ appends the question at once and the
 * answer when an 800 ms "typing" timer fires; free text is never added to
 * the transcript but handed to a WhatsApp deep link.
 */
module Chatbot {
  import opened Types

  datatype Sender = Bot | User

  datatype Message = Message(id: int, sender: Sender, text: string)

  const Greeting := "Hello! I'm your AI Wedding Assistant. How can I help you plan your dream day?"

  const WhatsAppPrefix := "https://wa.me/919818868753?text="

  /** The characters String.prototype.trim removes: white space and line terminators. */
  predicate IsTrimmable(c: char)
  {
    || c == '\t' || c == '\n' || c == '\U{B}' || c == '\U{C}' || c == '\r' || c == ' '
    || c == '\U{A0}' || c == '\U{1680}' || ('\U{2000}' <= c <= '\U{200A}')
    || c == '\U{2028}' || c == '\U{2029}' || c == '\U{202F}' || c == '\U{205F}'
    || c == '\U{3000}' || c == '\U{FEFF}'
  }

  function TrimStart(s: string): (r: string)
    ensures |r| <= |s|
  {
    if s != [] && IsTrimmable(s[0]) then TrimStart(s[1..]) else s
  }

  function TrimEnd(s: string): (r: string)
    ensures |r| <= |s|
  {
    if s != [] && IsTrimmable(s[|s| - 1]) then TrimEnd(s[..|s| - 1]) else s
  }

  function Trim(s: string): (r: string)
    ensures |r| <= |s|
  {
    TrimEnd(TrimStart(s))
  }

  lemma {:induction false} TrimStartEmpty(s: string)
    ensures TrimStart(s) == [] <==> forall i :: 0 <= i < |s| ==> IsTrimmable(s[i])
  {
    if s != [] && IsTrimmable(s[0]) {
      TrimStartEmpty(s[1..]);
      assert forall i :: 1 <= i < |s| ==> s[i] == s[1..][i - 1];
    }
  }

  lemma {:induction false} TrimEndEmpty(s: string)
    ensures TrimEnd(s) == [] <==> forall i :: 0 <= i < |s| ==> IsTrimmable(s[i])
  {
    if s != [] && IsTrimmable(s[|s| - 1]) {
      TrimEndEmpty(s[..|s| - 1]);
    }
  }

  lemma {:induction false} TrimStartKeepsSuffix(s: string)
    ensures |TrimStart(s)| <= |s| && TrimStart(s) == s[|s| - |TrimStart(s)|..]
    ensures TrimStart(s) != [] ==> !IsTrimmable(TrimStart(s)[0])
  {
    if s != [] && IsTrimmable(s[0]) {
      TrimStartKeepsSuffix(s[1..]);
    }
  }

  /** The trimmed text is empty exactly when every character is white space. */
  lemma BlankIffAllWhitespace(s: string)
    ensures Trim(s) == [] <==> forall i :: 0 <= i < |s| ==> IsTrimmable(s[i])
  {
    TrimStartEmpty(s);
    TrimStartKeepsSuffix(s);
    var t := TrimStart(s);
    TrimEndEmpty(t);
    if t != [] {
      assert !IsTrimmable(t[0]);
      assert t[0] == s[|s| - |t|];
    }
  }

  /** The link opened for free text; `encode` stands for encodeURIComponent. */
  function WhatsAppUrl(text: string, encode: string -> string): (url: string)
    ensures |url| == |WhatsAppPrefix| + |encode(text)|
    ensures url[..|WhatsAppPrefix|] == WhatsAppPrefix && url[|WhatsAppPrefix|..] == encode(text)
  {
    WhatsAppPrefix + encode(text)
  }

  /**
   * The link determines the encoded text: two messages share a link only
   * when they encode alike, so with an injective encoding every distinct
   * message opens a distinct chat.
   */
  lemma WhatsAppUrlDeterminesText(a: string, b: string, encode: string -> string)
    ensures WhatsAppUrl(a, encode) == WhatsAppUrl(b, encode) ==> encode(a) == encode(b)
  {
    var ua, ub := WhatsAppUrl(a, encode), WhatsAppUrl(b, encode);
    if ua == ub {
      assert encode(a) == ua[|WhatsAppPrefix|..] == ub[|WhatsAppPrefix|..] == encode(b);
    }
  }

  class Widget {
    var isOpen: bool
    var messages: seq<Message>
    var isTyping: bool
    var inputValue: string
    var faqs: seq<FaqItem>
    /** Answers whose typing timers have not fired yet, oldest first. */
    var pendingReplies: seq<string>

    /** The transcript always begins with the greeting. */
    ghost predicate Valid()
      reads this
    {
      |messages| >= 1 && messages[0] == Message(0, Bot, Greeting)
    }

    constructor ()
      ensures Valid()
      ensures messages == [Message(0, Bot, Greeting)]
      ensures !isOpen && !isTyping && inputValue == "" && faqs == [] && pendingReplies == []
    {
      isOpen := false;
      messages := [Message(0, Bot, Greeting)];
      isTyping := false;
      inputValue := "";
      faqs := [];
      pendingReplies := [];
    }

    method FaqsLoaded(data: seq<FaqItem>)
      modifies this
      ensures faqs == data
      ensures messages == old(messages) && isTyping == old(isTyping) && inputValue == old(inputValue)
      ensures isOpen == old(isOpen) && pendingReplies == old(pendingReplies)
    {
      faqs := data;
    }

    /** The launcher button. */
    method OpenChat()
      modifies this
      ensures isOpen
      ensures messages == old(messages) && isTyping == old(isTyping) && inputValue == old(inputValue)
      ensures faqs == old(faqs) && pendingReplies == old(pendingReplies)
    {
      isOpen := true;
    }

    /** The header's close button. */
    method CloseChat()
      modifies this
      ensures !isOpen
      ensures messages == old(messages) && isTyping == old(isTyping) && inputValue == old(inputValue)
      ensures faqs == old(faqs) && pendingReplies == old(pendingReplies)
    {
      isOpen := false;
    }

    /** A suggestion chip: the question is appended at once; its answer is scheduled. */
    method OptionClick(faq: FaqItem, now: int)
      requires Valid()
      modifies this
      ensures Valid()
      ensures messages == old(messages) + [Message(now, User, faq.question)]
      ensures isTyping
      ensures pendingReplies == old(pendingReplies) + [faq.answer]
      ensures isOpen == old(isOpen) && inputValue == old(inputValue) && faqs == old(faqs)
    {
      messages := messages + [Message(now, User, faq.question)];
      isTyping := true;
      pendingReplies := pendingReplies + [faq.answer];
    }

    /** The oldest typing timer firing; `now` is Date.now() at that moment. */
    method ReplyFired(now: int)
      requires Valid() && pendingReplies != []
      modifies this
      ensures Valid()
      ensures !isTyping
      ensures messages == old(messages) + [Message(now + 1, Bot, old(pendingReplies)[0])]
      ensures pendingReplies == old(pendingReplies)[1..]
      ensures isOpen == old(isOpen) && inputValue == old(inputValue) && faqs == old(faqs)
    {
      isTyping := false;
      messages := messages + [Message(now + 1, Bot, pendingReplies[0])];
      pendingReplies := pendingReplies[1..];
    }

    method TypeInput(text: string)
      modifies this
      ensures inputValue == text
      ensures messages == old(messages) && isTyping == old(isTyping) && isOpen == old(isOpen)
      ensures faqs == old(faqs) && pendingReplies == old(pendingReplies)
    {
      inputValue := text;
    }

    /**
     * Send (button or Enter): blank input does nothing; otherwise the input
     * is cleared and the returned link is opened.  The transcript is untouched.
     */
    method SendCustomMessage(encode: string -> string) returns (link: Option<string>)
      modifies this
      ensures Trim(old(inputValue)) == [] ==> link == None && inputValue == old(inputValue)
      ensures Trim(old(inputValue)) != [] ==>
        link == Some(WhatsAppUrl(old(inputValue), encode)) && inputValue == ""
      ensures messages == old(messages) && isTyping == old(isTyping) && isOpen == old(isOpen)
      ensures faqs == old(faqs) && pendingReplies == old(pendingReplies)
    {
      if Trim(inputValue) == [] {
        return None;
      }
      var text := inputValue;
      inputValue := "";
      link := Some(WhatsAppUrl(text, encode));
    }
  }
}
