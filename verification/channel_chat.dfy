/** The two-channel chat panel (TeamChat.tsx at the repository root): the
    same send flow as the team chat, with every message tagged by the
    channel it was sent in, a view filtered by the active channel, and an
    automatic reply from the administrator in the admin channel. */
module ChannelChat {
  import opened Types
  import opened Text
  import TeamChat

  const AdminReplyText: string := "I've received your message. Will review shortly."

  /** The three messages the panel starts with, relative to the clock `nowMs`. */
  function SeedMessages(nowMs: int): (r: seq<ChatMessage>)
    ensures |r| == 3 && ChannelOf(r[0]) == TeamChannel && ChannelOf(r[1]) == TeamChannel
    ensures ChannelOf(r[2]) == AdminChannel && r[2].senderId == "a1"
  {
    [ ChatMessage("1", "ai", TeamChat.AiGreeting, nowMs, Some(true), Some(TeamChannel)),
      ChatMessage("2", "u2", "Has anyone checked the latest build?", nowMs - 1000 * 60 * 5, None, Some(TeamChannel)),
      ChatMessage("3", "a1", "Please send me the weekly report.", nowMs - 1000 * 60 * 60, None, Some(AdminChannel)) ]
  }

  /** `m.channel || 'team'`: untagged messages belong to the team channel. */
  function ChannelOf(m: ChatMessage): Channel {
    if m.channel.Some? then m.channel.value else TeamChannel
  }

  /** filteredMessages: the messages of channel `c`, in posting order. */
  function VisibleIn(messages: seq<ChatMessage>, c: Channel): (r: seq<ChatMessage>)
    ensures |r| <= |messages|
    ensures forall i :: 0 <= i < |r| ==> ChannelOf(r[i]) == c
  {
    if |messages| == 0 then []
    else (if ChannelOf(messages[0]) == c then [messages[0]] else []) + VisibleIn(messages[1..], c)
  }

  /** A channel shows each of its messages as often as it was posted, and
      nothing from the other channel. */
  lemma {:induction false} VisibleInMultiset(messages: seq<ChatMessage>, c: Channel, m: ChatMessage)
    ensures multiset(VisibleIn(messages, c))[m] == if ChannelOf(m) == c then multiset(messages)[m] else 0
  {
    if |messages| > 0 {
      assert messages == [messages[0]] + messages[1..];
      VisibleInMultiset(messages[1..], c, m);
    }
  }

  /** Filtering works piecewise, so posting appends to exactly one channel. */
  lemma {:induction false} VisibleInAppend(a: seq<ChatMessage>, b: seq<ChatMessage>, c: Channel)
    ensures VisibleIn(a + b, c) == VisibleIn(a, c) + VisibleIn(b, c)
  {
    if |a| > 0 {
      assert (a + b)[1..] == a[1..] + b;
      VisibleInAppend(a[1..], b, c);
    } else {
      assert a + b == b;
    }
  }

  /** A posted message shows at the end of its own channel and leaves the
      other channel as it was. */
  lemma PostedToOneChannel(messages: seq<ChatMessage>, m: ChatMessage, c: Channel)
    ensures VisibleIn(messages + [m], c) ==
            if ChannelOf(m) == c then VisibleIn(messages, c) + [m] else VisibleIn(messages, c)
  {
    VisibleInAppend(messages, [m], c);
    assert [m][1..] == [];
  }

  /** Every message is in exactly one of the two channels. */
  lemma {:induction false} ChannelsPartition(messages: seq<ChatMessage>)
    ensures |VisibleIn(messages, TeamChannel)| + |VisibleIn(messages, AdminChannel)| == |messages|
  {
    if |messages| > 0 {
      ChannelsPartition(messages[1..]);
    }
  }

  /** The user's message, tagged with the channel it was sent in. */
  function UserMessage(userId: string, text: string, nowMs: nat, c: Channel): (m: ChatMessage)
    ensures m.senderId == userId && m.text == text && m.timestamp == nowMs && ChannelOf(m) == c
    ensures AllDigits(m.id) && DigitsValue(m.id) == nowMs
  {
    NatToStringRoundTrip(nowMs);
    ChatMessage(NatToString(nowMs), userId, text, nowMs, None, Some(c))
  }

  /** The assistant's answer, tagged with the channel of the question; its id
      never equals that of the user's message sent at the same clock. */
  function AiMessage(answer: string, nowMs: nat, c: Channel): (m: ChatMessage)
    ensures m.senderId == "ai" && m.text == answer && m.isAi == Some(true) && ChannelOf(m) == c
    ensures m.id != NatToString(nowMs)
  {
    NatToStringInjective(nowMs + 1, nowMs);
    ChatMessage(NatToString(nowMs + 1), "ai", answer, nowMs, Some(true), Some(c))
  }

  /** The administrator's automatic acknowledgement, shown in the admin
      channel only; its id differs from those of the user's message and the
      assistant's answer at the same clock. */
  function AdminReplyMessage(nowMs: nat): (m: ChatMessage)
    ensures m.senderId == "a1" && m.text == AdminReplyText && ChannelOf(m) == AdminChannel
    ensures m.id != NatToString(nowMs) && m.id != NatToString(nowMs + 1)
  {
    NatToStringInjective(nowMs + 2, nowMs);
    NatToStringInjective(nowMs + 2, nowMs + 1);
    ChatMessage(NatToString(nowMs + 2), "a1", AdminReplyText, nowMs, None, Some(AdminChannel))
  }

  /** What a successful send sets in motion. */
  datatype FollowUp = Nothing | AskAi(prompt: string, channel: Channel) | AdminReplyIn2s

  /** The follow-up for `text` sent in channel `c`: the assistant when it is
      addressed (in either channel); otherwise, in the admin channel only,
      the administrator's acknowledgement. */
  function FollowUpFor(text: string, c: Channel): (r: FollowUp)
    ensures r.AskAi? <==> TeamChat.AddressesAi(text)
    ensures r.AskAi? ==> r.prompt == text && r.channel == c
    ensures r.AdminReplyIn2s? ==> c == AdminChannel
  {
    if TeamChat.AddressesAi(text) then AskAi(text, c)
    else if c == AdminChannel then AdminReplyIn2s
    else Nothing
  }

  /** The assistant takes precedence over the acknowledgement, and answers in
      the channel the question was asked in; an ordinary team message gets
      no reply. */
  lemma FollowUpForSpec(text: string, c: Channel)
    ensures FollowUpFor(text, c).AskAi? <==> TeamChat.AddressesAi(text)
    ensures FollowUpFor(text, c).AskAi? ==> FollowUpFor(text, c) == AskAi(text, c)
    ensures FollowUpFor(text, c) == AdminReplyIn2s <==> !TeamChat.AddressesAi(text) && c == AdminChannel
    ensures FollowUpFor(text, c) == Nothing <==> !TeamChat.AddressesAi(text) && c == TeamChannel
  {
  }

  class Chat {
    var activeChannel: Channel
    var messages: seq<ChatMessage>
    var inputText: string
    var isTyping: bool
    const userId: string

    constructor (currentUserId: string, nowMs: int)
      ensures userId == currentUserId && activeChannel == TeamChannel
      ensures messages == SeedMessages(nowMs) && inputText == "" && !isTyping
    {
      userId := currentUserId;
      activeChannel := TeamChannel;
      messages := SeedMessages(nowMs);
      inputText := "";
      isTyping := false;
    }

    /** The messages on screen. */
    function Visible(): (r: seq<ChatMessage>)
      reads this
      ensures forall i :: 0 <= i < |r| ==> ChannelOf(r[i]) == activeChannel
    {
      VisibleIn(messages, activeChannel)
    }

    method SwitchChannel(c: Channel)
      modifies this`activeChannel
      ensures activeChannel == c
    {
      activeChannel := c;
    }

    method SetInput(text: string)
      modifies this`inputText
      ensures inputText == text
    {
      inputText := text;
    }

    /** handleSend up to its first `await`: blank input does nothing;
        otherwise the message is posted in the active channel, the input is
        cleared, and the follow-up (which remembers that channel) is returned. */
    method Send(nowMs: nat) returns (next: FollowUp)
      modifies this`messages, this`inputText, this`isTyping
      ensures TeamChat.IsBlank(old(inputText)) ==>
                next == Nothing && messages == old(messages) && inputText == old(inputText)
                && isTyping == old(isTyping)
      ensures !TeamChat.IsBlank(old(inputText)) ==>
                messages == old(messages) + [UserMessage(userId, old(inputText), nowMs, activeChannel)]
      ensures !TeamChat.IsBlank(old(inputText)) ==>
                inputText == "" && next == FollowUpFor(old(inputText), activeChannel)
      ensures !TeamChat.IsBlank(old(inputText)) ==> isTyping == (next.AskAi? || old(isTyping))
    {
      var userText := inputText;
      if TeamChat.IsBlank(userText) {
        return Nothing;
      }
      next := FollowUpFor(userText, activeChannel);
      messages, inputText, isTyping := messages + [UserMessage(userId, userText, nowMs, activeChannel)], "", next.AskAi? || isTyping;
    }

    /** The `await` returns: the answer is posted in the channel the question
        was sent in, whichever channel is active now, and typing stops. */
    method ReceiveAiReply(answer: string, nowMs: nat, askedIn: Channel)
      modifies this`messages, this`isTyping
      ensures messages == old(messages) + [AiMessage(answer, nowMs, askedIn)] && !isTyping
    {
      messages := messages + [AiMessage(answer, nowMs, askedIn)];
      isTyping := false;
    }

    /** The two-second timer fires. */
    method DeliverAdminReply(nowMs: nat)
      modifies this`messages
      ensures messages == old(messages) + [AdminReplyMessage(nowMs)]
    {
      messages := messages + [AdminReplyMessage(nowMs)];
    }
  }

  /** A question asked in one channel and answered after the user switched to
      the other: the answer is not shown in the channel now open. */
  lemma AnswerStaysInAskedChannel(messages: seq<ChatMessage>, answer: string, nowMs: nat,
                                  askedIn: Channel, nowOpen: Channel)
    requires askedIn != nowOpen
    ensures VisibleIn(messages + [AiMessage(answer, nowMs, askedIn)], nowOpen) == VisibleIn(messages, nowOpen)
    ensures VisibleIn(messages + [AiMessage(answer, nowMs, askedIn)], askedIn) ==
            VisibleIn(messages, askedIn) + [AiMessage(answer, nowMs, askedIn)]
  {
    PostedToOneChannel(messages, AiMessage(answer, nowMs, askedIn), nowOpen);
    PostedToOneChannel(messages, AiMessage(answer, nowMs, askedIn), askedIn);
  }
}
