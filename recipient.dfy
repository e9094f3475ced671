/** The target of an outgoing request: a numeric chat or a named channel
    (model/recipient.go). */
module Recipients {
  import opened Wrappers
  import opened Format
  import opened Incoming

  /** Either pointer may be nil; the constructors set exactly one. */
  datatype Recipient = Recipient(chatId: Option<int>, channelId: Option<string>)
  {
    /** isChat: the chat-ID pointer is not nil. */
    function IsChat(): (b: bool)
      ensures b <==> chatId != None
    {
      chatId.Some?
    }

    /** isChannel: the channel-name pointer is not nil. */
    function IsChannel(): (b: bool)
      ensures b <==> channelId != None
    {
      channelId.Some?
    }
  }

  function NewChatRecipient(id: int): (r: Recipient)
    ensures r.IsChat() && !r.IsChannel() && r.chatId.value == id
  {
    Recipient(Some(id), None)
  }

  function NewChannelRecipient(name: string): (r: Recipient)
    ensures r.IsChannel() && !r.IsChat() && r.channelId.value == name
  {
    Recipient(None, Some(name))
  }

  /** Always a chat recipient with the chat's ID, whatever the chat's type. */
  function NewRecipientFromChat(c: Chat): (r: Recipient)
    ensures r.IsChat() && !r.IsChannel() && r.chatId.value == c.id
  {
    NewChatRecipient(c.id)
  }

  /** The JSON rendering: a channel name wrapped in double quotes, inserted
      verbatim; otherwise the unquoted decimal chat ID. With neither pointer
      set, dereferencing the nil chat ID panics. */
  function MarshalJSON(r: Recipient): (out: Outcome<string>)
    ensures out.Returns? <==> r.IsChannel() || r.IsChat()
    ensures r.IsChannel() ==> out == Returns("\"" + r.channelId.value + "\"")
    ensures !r.IsChannel() && r.IsChat() ==> out == Returns(Decimal(r.chatId.value))
    ensures !r.IsChannel() && r.IsChat() ==>
              out.Returns? && ParseDecimal(out.value) == Some(r.chatId.value) && out.value[0] != '"'
  {
    if r.IsChannel() then Returns("\"" + r.channelId.value + "\"")
    else if r.IsChat() then
      DecimalRoundTrip(r.chatId.value);
      Returns(Decimal(r.chatId.value))
    else Panics("runtime error: invalid memory address or nil pointer dereference")
  }

  /** A reference reader for MarshalJSON's output, with no counterpart in the
      library: a quoted text is a channel name, digits are a chat. */
  function ReadRendering(s: string): (r: Option<Recipient>)
  {
    if |s| >= 2 && s[0] == '"' && s[|s| - 1] == '"' then Some(NewChannelRecipient(s[1..|s| - 1]))
    else match ParseDecimal(s)
      case Some(id) => Some(NewChatRecipient(id))
      case None => None
  }

  /** Every recipient the constructors build survives a JSON round trip, and
      when both pointers are set the channel form wins. */
  lemma MarshalRoundTrip(r: Recipient)
    requires r.IsChat() || r.IsChannel()
    ensures MarshalJSON(r).Returns?
    ensures r.IsChannel() ==> ReadRendering(MarshalJSON(r).value) == Some(NewChannelRecipient(r.channelId.value))
    ensures !r.IsChannel() ==> ReadRendering(MarshalJSON(r).value) == Some(r)
  {
    if r.IsChannel() {
      var s := "\"" + r.channelId.value + "\"";
      assert s[1..|s| - 1] == r.channelId.value;
    } else {
      DecimalRoundTrip(r.chatId.value);
    }
  }
}
