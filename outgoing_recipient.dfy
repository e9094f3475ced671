/** Outgoing requests of the second generation (outgoing.go, with the same
    types in model/outgoingMessage.go, outgoingPhoto.go, outgoingSticker.go,
    outgoingDocument.go and outgoingForward.go): the target is a Recipient and
    optional values are sent when they are non-zero or non-empty. Go's struct
    embedding of OutgoingBase is composition through the `base` field. */
module RecipientOutgoing {
  import opened Wrappers
  import opened Format
  import opened Markup
  import opened Incoming
  import opened Recipients

  type Query = map<string, string>

  const BaseKeys: set<string> := {"chat_id", "reply_to_message_id", "reply_markup"}

  const ModeMarkdown: string := "Markdown"
  const ModeDefault: string := ""

  /** The chat_id parameter: the channel name for a channel, otherwise the
      decimal chat ID; a recipient with neither pointer set panics. */
  function ChatIdParam(r: Recipient): (out: Outcome<string>)
    ensures out.Returns? <==> r.IsChannel() || r.IsChat()
    ensures r.IsChannel() ==> out.Returns? && out.value == r.channelId.value
    ensures !r.IsChannel() && r.IsChat() ==> out == Returns(Decimal(r.chatId.value))
    ensures !r.IsChannel() && r.IsChat() ==> out.Returns? && ParseDecimal(out.value) == Some(r.chatId.value)
  {
    if r.IsChannel() then Returns(r.channelId.value)
    else if r.IsChat() then
      DecimalRoundTrip(r.chatId.value);
      Returns(Decimal(r.chatId.value))
    else Panics("runtime error: invalid memory address or nil pointer dereference")
  }

  /** The query parameter and the JSON rendering of a recipient agree: they
      fail together, and they differ only in the quotes around a channel name. */
  lemma ChatIdParamMatchesJSON(r: Recipient)
    ensures ChatIdParam(r).Returns? <==> MarshalJSON(r).Returns?
    ensures r.IsChannel() ==> MarshalJSON(r).value == "\"" + ChatIdParam(r).value + "\""
    ensures !r.IsChannel() && r.IsChat() ==> MarshalJSON(r).value == ChatIdParam(r).value
  {
  }

  /** Adds `key := value` to a query when `present`; a panic stays a panic. */
  function With(r: Outcome<Query>, present: bool, key: string, value: string): Outcome<Query> {
    if r.Returns? && present then Returns(r.value[key := value]) else r
  }

  class OutgoingBase {
    var recipient: Recipient
    var replyToMessageID: int
    var replyMarkup: Option<ReplyMarkup>
    var replyToMessageIDSet: bool
    var replyMarkupSet: bool

    /** Nothing in this generation ever sets the markup flag. */
    ghost predicate Valid()
      reads this
    {
      !replyMarkupSet
    }

    constructor (recipient: Recipient)
      ensures Valid()
      ensures this.recipient == recipient && replyToMessageID == 0 && replyMarkup == None
      ensures !replyToMessageIDSet
    {
      this.recipient := recipient;
      replyToMessageID := 0;
      replyMarkup := None;
      replyToMessageIDSet := false;
      replyMarkupSet := false;
    }

    method SetReplyToMessageID(to: int)
      modifies this
      ensures replyToMessageID == to && replyToMessageIDSet
      ensures recipient == old(recipient) && replyMarkup == old(replyMarkup)
      ensures replyMarkupSet == old(replyMarkupSet)
    {
      replyToMessageID := to;
      replyToMessageIDSet := true;
    }

    /** Replaces the markup, guarded by a flag that is never set, so on a
        valid request it never panics. */
    method SetReplyKeyboardMarkup(to: ReplyKeyboardMarkup) returns (panicked: bool)
      modifies this
      ensures panicked == old(replyMarkupSet)
      ensures panicked ==> unchanged(this)
      ensures !panicked ==> replyMarkup == Some(Keyboard(to))
      ensures recipient == old(recipient) && replyToMessageID == old(replyToMessageID)
      ensures replyToMessageIDSet == old(replyToMessageIDSet) && replyMarkupSet == old(replyMarkupSet)
    {
      if replyMarkupSet {
        panicked := true;
        return;
      }
      panicked := false;
      replyMarkup := Some(Keyboard(to));
    }

    /** Ignored when HideKeyboard is false; otherwise as SetReplyKeyboardMarkup. */
    method SetReplyKeyboardHide(to: ReplyKeyboardHide) returns (panicked: bool)
      modifies this
      ensures panicked == (to.hideKeyboard && old(replyMarkupSet))
      ensures !to.hideKeyboard || panicked ==> unchanged(this)
      ensures to.hideKeyboard && !panicked ==> replyMarkup == Some(Hide(to))
      ensures recipient == old(recipient) && replyToMessageID == old(replyToMessageID)
      ensures replyToMessageIDSet == old(replyToMessageIDSet) && replyMarkupSet == old(replyMarkupSet)
    {
      panicked := false;
      if !to.hideKeyboard {
        return;
      }
      if replyMarkupSet {
        panicked := true;
        return;
      }
      replyMarkup := Some(Hide(to));
    }

    /** Ignored when ForceReply is false; otherwise as SetReplyKeyboardMarkup. */
    method SetForceReply(to: ForceReply) returns (panicked: bool)
      modifies this
      ensures panicked == (to.forceReply && old(replyMarkupSet))
      ensures !to.forceReply || panicked ==> unchanged(this)
      ensures to.forceReply && !panicked ==> replyMarkup == Some(Force(to))
      ensures recipient == old(recipient) && replyToMessageID == old(replyToMessageID)
      ensures replyToMessageIDSet == old(replyToMessageIDSet) && replyMarkupSet == old(replyMarkupSet)
    {
      panicked := false;
      if !to.forceReply {
        return;
      }
      if replyMarkupSet {
        panicked := true;
        return;
      }
      replyMarkup := Some(Force(to));
    }

    /** chat_id always (channel name or decimal chat ID), reply_to_message_id
        exactly when its flag is set, and reply_markup only under the flag
        that is never set; a recipient with no pointer panics. */
    function BaseQuery(): (r: Outcome<Query>)
      reads this
      ensures r.Returns? <==> recipient.IsChannel() || recipient.IsChat()
      ensures r.Returns? ==> "chat_id" in r.value
      ensures r.Returns? ==> r.value["chat_id"] == ChatIdParam(recipient).value
      ensures r.Returns? ==> ("reply_to_message_id" in r.value <==> replyToMessageIDSet)
      ensures r.Returns? && replyToMessageIDSet ==> r.value["reply_to_message_id"] == Decimal(replyToMessageID)
      ensures r.Returns? ==> ("reply_markup" in r.value <==> replyMarkupSet)
      ensures r.Returns? && Valid() ==> "reply_markup" !in r.value
      ensures r.Returns? ==> r.value.Keys <= BaseKeys
    {
      match ChatIdParam(recipient)
      case Panics(msg) => Panics(msg)
      case Returns(id) =>
        var q := map["chat_id" := id];
        var q := if replyToMessageIDSet then q["reply_to_message_id" := Decimal(replyToMessageID)] else q;
        Returns(if replyMarkupSet then q["reply_markup" := MarkupText()] else q)
    }

    /** json.Marshal of the markup interface: "null" when it is nil. */
    function MarkupText(): string
      reads this
    {
      if replyMarkup.Some? then MarkupJSON(replyMarkup.value) else "null"
    }

    method GetBaseQueryString() returns (r: Outcome<Query>)
      ensures r == BaseQuery()
    {
      var q: Query := map[];
      if recipient.IsChannel() {
        q := q["chat_id" := recipient.channelId.value];
      } else if recipient.IsChat() {
        q := q["chat_id" := Decimal(recipient.chatId.value)];
      } else {
        return Panics("runtime error: invalid memory address or nil pointer dereference");
      }
      if replyToMessageIDSet {
        q := q["reply_to_message_id" := Decimal(replyToMessageID)];
      }
      if replyMarkupSet {
        q := q["reply_markup" := MarkupText()];
      }
      r := Returns(q);
    }
  }

  /** `r` holds every base parameter with its base value, and panics exactly when the base does. */
  ghost predicate Extends(r: Outcome<Query>, b: Outcome<Query>) {
    (r.Returns? <==> b.Returns?)
    && (r.Returns? ==> forall k :: k in b.value ==> k in r.value && r.value[k] == b.value[k])
  }

  class OutgoingAudio {
    const base: OutgoingBase
    var duration: int
    var title: string
    var performer: string

    constructor (recipient: Recipient)
      ensures fresh(base) && base.Valid() && base.recipient == recipient && !base.replyToMessageIDSet
      ensures base.replyToMessageID == 0 && base.replyMarkup == None
      ensures duration == 0 && title == "" && performer == ""
      ensures Query() == base.BaseQuery()
    {
      base := new OutgoingBase(recipient);
      duration, title, performer := 0, "", "";
    }

    method SetDuration(to: int) returns (self: OutgoingAudio)
      modifies this
      ensures self == this && duration == to && title == old(title) && performer == old(performer)
    {
      duration := to;
      self := this;
    }

    method SetPerformer(to: string) returns (self: OutgoingAudio)
      modifies this
      ensures self == this && performer == to && duration == old(duration) && title == old(title)
    {
      performer := to;
      self := this;
    }

    method SetTitle(to: string) returns (self: OutgoingAudio)
      modifies this
      ensures self == this && title == to && duration == old(duration) && performer == old(performer)
    {
      title := to;
      self := this;
    }

    /** The base parameters, plus duration, performer and title exactly when
        they are non-zero / non-empty. */
    function Query(): (r: Outcome<Query>)
      reads this, base
      ensures Extends(r, base.BaseQuery())
      ensures r.Returns? ==> ("duration" in r.value <==> duration != 0)
      ensures r.Returns? && duration != 0 ==> r.value["duration"] == Decimal(duration)
      ensures r.Returns? ==> ("performer" in r.value <==> performer != "")
      ensures r.Returns? && performer != "" ==> r.value["performer"] == performer
      ensures r.Returns? ==> ("title" in r.value <==> title != "")
      ensures r.Returns? && title != "" ==> r.value["title"] == title
      ensures r.Returns? ==> r.value.Keys <= BaseKeys + {"duration", "performer", "title"}
    {
      var r := With(base.BaseQuery(), duration != 0, "duration", Decimal(duration));
      var r := With(r, performer != "", "performer", performer);
      With(r, title != "", "title", title)
    }

    method GetQueryString() returns (r: Outcome<Query>)
      ensures r == Query()
    {
      r := base.GetBaseQueryString();
      if r.Panics? {
        return;
      }
      var q := r.value;
      if duration != 0 {
        q := q["duration" := Decimal(duration)];
      }
      if performer != "" {
        q := q["performer" := performer];
      }
      if title != "" {
        q := q["title" := title];
      }
      r := Returns(q);
    }
  }

  class OutgoingDocument {
    const base: OutgoingBase

    /** A new document: the recipient, no reply-to and no markup. */
    constructor (recipient: Recipient)
      ensures fresh(base) && base.Valid() && base.recipient == recipient && !base.replyToMessageIDSet
      ensures base.replyToMessageID == 0 && base.replyMarkup == None
    {
      base := new OutgoingBase(recipient);
    }

    /** Exactly the base parameters: a document adds none of its own. */
    method GetQueryString() returns (r: Outcome<Query>)
      ensures r == base.BaseQuery()
    {
      r := base.GetBaseQueryString();
    }
  }

  class OutgoingForward {
    const base: OutgoingBase
    var fromChatID: Recipient
    var messageID: int

    /** The origin chat becomes a chat recipient with its ID, even when it is a channel. */
    constructor (recipient: Recipient, origin: Chat, messageID: int)
      ensures fresh(base) && base.Valid() && base.recipient == recipient && !base.replyToMessageIDSet
      ensures base.replyToMessageID == 0 && base.replyMarkup == None
      ensures fromChatID == NewRecipientFromChat(origin)
      ensures fromChatID.IsChat() && !fromChatID.IsChannel() && fromChatID.chatId.value == origin.id
      ensures this.messageID == messageID
    {
      base := new OutgoingBase(recipient);
      fromChatID := NewRecipientFromChat(origin);
      this.messageID := messageID;
    }
  }

  class OutgoingMessage {
    const base: OutgoingBase
    var text: string
    var disableWebPagePreview: bool
    var parseMode: string

    constructor (recipient: Recipient, text: string)
      ensures fresh(base) && base.Valid() && base.recipient == recipient && !base.replyToMessageIDSet
      ensures base.replyToMessageID == 0 && base.replyMarkup == None
      ensures this.text == text && parseMode == ModeDefault && !disableWebPagePreview
    {
      base := new OutgoingBase(recipient);
      this.text := text;
      disableWebPagePreview := false;
      parseMode := ModeDefault;
    }

    /** The parse mode depends on the last call only, so repeating it changes
        nothing and SetMarkdown(false) restores the default. */
    method SetMarkdown(to: bool) returns (self: OutgoingMessage)
      modifies this
      ensures self == this
      ensures parseMode == (if to then "Markdown" else "")
      ensures text == old(text) && disableWebPagePreview == old(disableWebPagePreview)
    {
      if to {
        parseMode := ModeMarkdown;
      } else {
        parseMode := ModeDefault;
      }
      self := this;
    }

    method SetDisableWebPagePreview(to: bool) returns (self: OutgoingMessage)
      modifies this
      ensures self == this && disableWebPagePreview == to
      ensures text == old(text) && parseMode == old(parseMode)
    {
      disableWebPagePreview := to;
      self := this;
    }
  }

  class OutgoingPhoto {
    const base: OutgoingBase
    var caption: string

    constructor (recipient: Recipient)
      ensures fresh(base) && base.Valid() && base.recipient == recipient && !base.replyToMessageIDSet
      ensures base.replyToMessageID == 0 && base.replyMarkup == None
      ensures caption == ""
      ensures Query() == base.BaseQuery()
    {
      base := new OutgoingBase(recipient);
      caption := "";
    }

    method SetCaption(to: string) returns (self: OutgoingPhoto)
      modifies this
      ensures self == this && caption == to
    {
      caption := to;
      self := this;
    }

    /** The base parameters, plus caption exactly when it is non-empty. */
    function Query(): (r: Outcome<Query>)
      reads this, base
      ensures Extends(r, base.BaseQuery())
      ensures r.Returns? ==> ("caption" in r.value <==> caption != "")
      ensures r.Returns? && caption != "" ==> r.value["caption"] == caption
      ensures r.Returns? ==> r.value.Keys <= BaseKeys + {"caption"}
    {
      With(base.BaseQuery(), caption != "", "caption", caption)
    }

    method GetQueryString() returns (r: Outcome<Query>)
      ensures r == Query()
    {
      r := base.GetBaseQueryString();
      if r.Panics? {
        return;
      }
      var q := r.value;
      if caption != "" {
        q := q["caption" := caption];
      }
      r := Returns(q);
    }
  }

  class OutgoingSticker {
    const base: OutgoingBase

    /** A new sticker: the recipient, no reply-to and no markup. */
    constructor (recipient: Recipient)
      ensures fresh(base) && base.Valid() && base.recipient == recipient && !base.replyToMessageIDSet
      ensures base.replyToMessageID == 0 && base.replyMarkup == None
    {
      base := new OutgoingBase(recipient);
    }

    /** Exactly the base parameters: a sticker adds none of its own. */
    method GetQueryString() returns (r: Outcome<Query>)
      ensures r == base.BaseQuery()
    {
      r := base.GetBaseQueryString();
    }
  }

  class OutgoingUserProfilePhotosRequest {
    var userID: int
    var offset: int
    var limit: int

    constructor (userID: int)
      ensures this.userID == userID && offset == 0 && limit == 0
    {
      this.userID := userID;
      offset, limit := 0, 0;
    }

    method SetOffset(to: int) returns (self: OutgoingUserProfilePhotosRequest)
      modifies this
      ensures self == this && offset == to && userID == old(userID) && limit == old(limit)
    {
      offset := to;
      self := this;
    }

    method SetLimit(to: int) returns (self: OutgoingUserProfilePhotosRequest)
      modifies this
      ensures self == this && limit == to && userID == old(userID) && offset == old(offset)
    {
      limit := to;
      self := this;
    }

    /** user_id always, never chat_id; offset and limit only when non-zero. */
    function Query(): (q: Query)
      reads this
      ensures "user_id" in q && q["user_id"] == Decimal(userID)
      ensures "offset" in q <==> offset != 0
      ensures offset != 0 ==> q["offset"] == Decimal(offset)
      ensures "limit" in q <==> limit != 0
      ensures limit != 0 ==> q["limit"] == Decimal(limit)
      ensures q.Keys <= {"user_id", "offset", "limit"}
    {
      var q := map["user_id" := Decimal(userID)];
      var q := if offset != 0 then q["offset" := Decimal(offset)] else q;
      if limit != 0 then q["limit" := Decimal(limit)] else q
    }

    method GetQueryString() returns (q: Query)
      ensures q == Query()
    {
      q := map[];
      q := q["user_id" := Decimal(userID)];
      if offset != 0 {
        q := q["offset" := Decimal(offset)];
      }
      if limit != 0 {
        q := q["limit" := Decimal(limit)];
      }
    }
  }

  class OutgoingVideo {
    const base: OutgoingBase
    var duration: int
    var caption: string

    constructor (recipient: Recipient)
      ensures fresh(base) && base.Valid() && base.recipient == recipient && !base.replyToMessageIDSet
      ensures base.replyToMessageID == 0 && base.replyMarkup == None
      ensures duration == 0 && caption == ""
      ensures Query() == base.BaseQuery()
    {
      base := new OutgoingBase(recipient);
      duration, caption := 0, "";
    }

    method SetCaption(to: string) returns (self: OutgoingVideo)
      modifies this
      ensures self == this && caption == to && duration == old(duration)
    {
      caption := to;
      self := this;
    }

    method SetDuration(to: int) returns (self: OutgoingVideo)
      modifies this
      ensures self == this && duration == to && caption == old(caption)
    {
      duration := to;
      self := this;
    }

    /** The base parameters, plus caption when non-empty and duration when non-zero. */
    function Query(): (r: Outcome<Query>)
      reads this, base
      ensures Extends(r, base.BaseQuery())
      ensures r.Returns? ==> ("caption" in r.value <==> caption != "")
      ensures r.Returns? && caption != "" ==> r.value["caption"] == caption
      ensures r.Returns? ==> ("duration" in r.value <==> duration != 0)
      ensures r.Returns? && duration != 0 ==> r.value["duration"] == Decimal(duration)
      ensures r.Returns? ==> r.value.Keys <= BaseKeys + {"caption", "duration"}
    {
      var r := With(base.BaseQuery(), caption != "", "caption", caption);
      With(r, duration != 0, "duration", Decimal(duration))
    }

    method GetQueryString() returns (r: Outcome<Query>)
      ensures r == Query()
    {
      r := base.GetBaseQueryString();
      if r.Panics? {
        return;
      }
      var q := r.value;
      if caption != "" {
        q := q["caption" := caption];
      }
      if duration != 0 {
        q := q["duration" := Decimal(duration)];
      }
      r := Returns(q);
    }
  }

  class OutgoingVoice {
    const base: OutgoingBase
    var duration: int

    constructor (recipient: Recipient)
      ensures fresh(base) && base.Valid() && base.recipient == recipient && !base.replyToMessageIDSet
      ensures base.replyToMessageID == 0 && base.replyMarkup == None
      ensures duration == 0
      ensures Query() == base.BaseQuery()
    {
      base := new OutgoingBase(recipient);
      duration := 0;
    }

    method SetDuration(to: int) returns (self: OutgoingVoice)
      modifies this
      ensures self == this && duration == to
    {
      duration := to;
      self := this;
    }

    /** The base parameters, plus duration when non-zero. */
    function Query(): (r: Outcome<Query>)
      reads this, base
      ensures Extends(r, base.BaseQuery())
      ensures r.Returns? ==> ("duration" in r.value <==> duration != 0)
      ensures r.Returns? && duration != 0 ==> r.value["duration"] == Decimal(duration)
      ensures r.Returns? ==> r.value.Keys <= BaseKeys + {"duration"}
    {
      With(base.BaseQuery(), duration != 0, "duration", Decimal(duration))
    }

    method GetQueryString() returns (r: Outcome<Query>)
      ensures r == Query()
    {
      r := base.GetBaseQueryString();
      if r.Panics? {
        return;
      }
      var q := r.value;
      if duration != 0 {
        q := q["duration" := Decimal(duration)];
      }
      r := Returns(q);
    }
  }
}
