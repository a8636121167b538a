/** The team chat panel the application shows (components/TeamChat.tsx): a
    message list, an input box, and a send handler that either asks the AI
    assistant or, by chance, schedules a canned reply from a teammate.
    The asynchronous parts are split into separate steps: the AI answer and
    the delayed teammate reply each arrive through their own method. */
module TeamChat {
  import opened Types
  import opened Text

  const AiGreeting: string := "Hello! I am NexusAI. How can I help with your project today?"
  const TeamReplyText: string := "I'll take a look at that shortly."

  /** The two messages the panel starts with, relative to the clock `nowMs`. */
  function SeedMessages(nowMs: int): (r: seq<ChatMessage>)
    ensures |r| == 2 && r[0].isAi == Some(true) && r[0].text == AiGreeting && r[1].senderId == "u2"
  {
    [ ChatMessage("1", "ai", AiGreeting, nowMs, Some(true), None),
      ChatMessage("2", "u2", "Has anyone checked the latest build?", nowMs - 1000 * 60 * 5, None, None) ]
  }

  /** `!text.trim()`: nothing but white space. */
  predicate IsBlank(text: string) {
    Trim(text) == []
  }

  /** A message is for the assistant when its lower-cased text contains
      "@ai" or "nexus". */
  predicate AddressesAi(text: string) {
    Contains(ToLower(text), "@ai") || Contains(ToLower(text), "nexus")
  }

  /** Blank input is exactly input made of white space only. */
  lemma BlankIffAllSpace(text: string)
    ensures IsBlank(text) <==> AllSpace(text)
  {
    TrimEmptyIff(text);
  }

  /** The trigger ignores letter case. */
  lemma AddressesAiIgnoresCase(text: string)
    ensures AddressesAi(ToLower(text)) <==> AddressesAi(text)
  {
    ToLowerIdempotent(text);
  }

  /** Text around a trigger never hides it. */
  lemma AddressesAiInContext(before: string, text: string, after: string)
    requires AddressesAi(text)
    ensures AddressesAi(before + text + after)
  {
    ToLowerAppend(before + text, after);
    ToLowerAppend(before, text);
    if Contains(ToLower(text), "@ai") {
      ContainsInContext(ToLower(before), ToLower(text), ToLower(after), "@ai");
    } else {
      ContainsInContext(ToLower(before), ToLower(text), ToLower(after), "nexus");
    }
  }

  /** The trigger in positional terms: some position of the lower-cased text
      starts "@ai" or "nexus". */
  lemma AddressesAiIff(text: string)
    ensures AddressesAi(text) <==>
            (exists i :: OccursAt(ToLower(text), "@ai", i)) || (exists i :: OccursAt(ToLower(text), "nexus", i))
  {
    ContainsIff(ToLower(text), "@ai");
    ContainsIff(ToLower(text), "nexus");
  }

  /** The message the user sends at clock `nowMs`. */
  function UserMessage(userId: string, text: string, nowMs: nat): (m: ChatMessage)
    ensures m.senderId == userId && m.text == text && m.timestamp == nowMs && m.isAi.None?
    ensures AllDigits(m.id) && DigitsValue(m.id) == nowMs
  {
    NatToStringRoundTrip(nowMs);
    ChatMessage(NatToString(nowMs), userId, text, nowMs, None, None)
  }

  /** The assistant's answer, posted at clock `nowMs`: its id never equals
      that of the user's message sent at the same clock. */
  function AiMessage(answer: string, nowMs: nat): (m: ChatMessage)
    ensures m.senderId == "ai" && m.text == answer && m.isAi == Some(true)
    ensures m.id != NatToString(nowMs)
  {
    NatToStringInjective(nowMs + 1, nowMs);
    ChatMessage(NatToString(nowMs + 1), "ai", answer, nowMs, Some(true), None)
  }

  /** The teammate's canned reply, posted at clock `nowMs`: its id differs
      from those of the user's message and the assistant's answer at that
      clock. */
  function TeamReplyMessage(nowMs: nat): (m: ChatMessage)
    ensures m.senderId == "u2" && m.text == TeamReplyText && m.isAi.None?
    ensures m.id != NatToString(nowMs) && m.id != NatToString(nowMs + 1)
  {
    NatToStringInjective(nowMs + 2, nowMs);
    NatToStringInjective(nowMs + 2, nowMs + 1);
    ChatMessage(NatToString(nowMs + 2), "u2", TeamReplyText, nowMs, None, None)
  }

  /** A reply posted no earlier than the message it answers never reuses that
      message's id. */
  lemma RepliesGetFreshIds(userId: string, text: string, answer: string, sentMs: nat, laterMs: nat)
    requires sentMs <= laterMs
    ensures AiMessage(answer, laterMs).id != UserMessage(userId, text, sentMs).id
    ensures TeamReplyMessage(laterMs).id != UserMessage(userId, text, sentMs).id
  {
    NatToStringInjective(laterMs + 1, sentMs);
    NatToStringInjective(laterMs + 2, sentMs);
  }

  /** What a successful send sets in motion. */
  datatype FollowUp = Nothing | AskAi(prompt: string) | TeamReplyIn3s

  /** The follow-up for sent `text`, with `draw` the value `Math.random()`
      returned: the assistant when addressed; otherwise a teammate's reply
      when the draw exceeds 0.7. */
  function FollowUpFor(text: string, draw: real): (r: FollowUp)
    ensures r.AskAi? <==> AddressesAi(text)
    ensures r.AskAi? ==> r.prompt == text
    ensures r.TeamReplyIn3s? ==> draw > 0.7
  {
    if AddressesAi(text) then AskAi(text)
    else if draw > 0.7 then TeamReplyIn3s
    else Nothing
  }

  /** The assistant is asked, with the sent text, exactly when it is
      addressed; a teammate answers exactly when it is not and the draw
      exceeds 0.7; a draw of at most 0.7 leaves an ordinary message alone. */
  lemma FollowUpForSpec(text: string, draw: real)
    ensures FollowUpFor(text, draw).AskAi? <==> AddressesAi(text)
    ensures FollowUpFor(text, draw).AskAi? ==> FollowUpFor(text, draw).prompt == text
    ensures FollowUpFor(text, draw).TeamReplyIn3s? <==> !AddressesAi(text) && draw > 0.7
    ensures FollowUpFor(text, draw) == Nothing <==> !AddressesAi(text) && draw <= 0.7
  {
  }

  class Chat {
    var messages: seq<ChatMessage>
    var inputText: string
    var isTyping: bool
    const userId: string

    constructor (currentUserId: string, nowMs: int)
      ensures userId == currentUserId
      ensures messages == SeedMessages(nowMs) && inputText == "" && !isTyping
    {
      userId := currentUserId;
      messages := SeedMessages(nowMs);
      inputText := "";
      isTyping := false;
    }

    method SetInput(text: string)
      modifies this`inputText
      ensures inputText == text
    {
      inputText := text;
    }

    /** handleSend up to its first `await`: blank input does nothing; otherwise
        the message is appended, the input is cleared, and the follow-up is
        returned for the caller to complete (typing shows while the assistant
        is asked). */
    method Send(nowMs: nat, draw: real) returns (next: FollowUp)
      requires 0.0 <= draw < 1.0
      modifies this`messages, this`inputText, this`isTyping
      ensures IsBlank(old(inputText)) ==>
                next == Nothing && messages == old(messages) && inputText == old(inputText)
                && isTyping == old(isTyping)
      ensures !IsBlank(old(inputText)) ==>
                messages == old(messages) + [UserMessage(userId, old(inputText), nowMs)]
      ensures !IsBlank(old(inputText)) ==> inputText == "" && next == FollowUpFor(old(inputText), draw)
      ensures !IsBlank(old(inputText)) ==> isTyping == (next.AskAi? || old(isTyping))
    {
      var userText := inputText;
      if IsBlank(userText) {
        return Nothing;
      }
      next := FollowUpFor(userText, draw);
      messages, inputText, isTyping := messages + [UserMessage(userId, userText, nowMs)], "", next.AskAi? || isTyping;
    }

    /** The `await` returns: the answer is appended and typing stops. */
    method ReceiveAiReply(answer: string, nowMs: nat)
      modifies this`messages, this`isTyping
      ensures messages == old(messages) + [AiMessage(answer, nowMs)] && !isTyping
    {
      messages := messages + [AiMessage(answer, nowMs)];
      isTyping := false;
    }

    /** The three-second timer fires. */
    method DeliverTeamReply(nowMs: nat)
      modifies this`messages
      ensures messages == old(messages) + [TeamReplyMessage(nowMs)]
    {
      messages := messages + [TeamReplyMessage(nowMs)];
    }

    /** A whole exchange with the assistant: the sent message, then its answer,
        and the panel is back to idle. */
    method AskAndAnswer(nowMs: nat, answer: string, answeredMs: nat)
      requires !IsBlank(inputText) && AddressesAi(inputText)
      modifies this`messages, this`inputText, this`isTyping
      ensures messages == old(messages) + [UserMessage(userId, old(inputText), nowMs), AiMessage(answer, answeredMs)]
      ensures inputText == "" && !isTyping
    {
      var next := Send(nowMs, 0.0);
      ReceiveAiReply(answer, answeredMs);
    }
  }
}
