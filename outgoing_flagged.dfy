/** Outgoing requests of the model/ package's first generation
    (model/outgoingBase.go, outgoingAudio.go, outgoingVideo.go,
    outgoingVoice.go, outgoingUserProfilePhotosRequest.go): the target is a
    plain chat ID and every optional value has an explicit "set" flag, so a
    zero or empty value that was set is still sent. Go's struct embedding of
    OutgoingBase is composition through the `base` field. */
module FlaggedOutgoing {
  import opened Format
  import opened Markup

  /** Query-string parameters: url.Values with one value per key. */
  type Query = map<string, string>

  const BaseKeys: set<string> := {"chat_id", "reply_to_message_id", "reply_markup"}

  class OutgoingBase {
    var chatId: int
    var replyToMessageId: int
    var replyMarkup: string
    var replyToMessageIdSet: bool
    var replyMarkupSet: bool

    /** The stored markup text is non-empty exactly when a markup was set. */
    ghost predicate Valid()
      reads this
    {
      replyMarkupSet <==> replyMarkup != ""
    }

    /** The zero value with a chat ID, as every constructor of this generation builds it. */
    constructor (chatId: int)
      ensures Valid()
      ensures this.chatId == chatId && replyToMessageId == 0 && replyMarkup == ""
      ensures !replyToMessageIdSet && !replyMarkupSet
    {
      this.chatId := chatId;
      replyToMessageId := 0;
      replyMarkup := "";
      replyToMessageIdSet := false;
      replyMarkupSet := false;
    }

    method SetReplyToMessageId(to: int)
      modifies this
      ensures replyToMessageId == to && replyToMessageIdSet
      ensures chatId == old(chatId) && replyMarkup == old(replyMarkup) && replyMarkupSet == old(replyMarkupSet)
      ensures old(Valid()) ==> Valid()
    {
      replyToMessageId := to;
      replyToMessageIdSet := true;
    }

    /** Stores the keyboard's JSON, or panics when a markup is already set. */
    method SetReplyKeyboardMarkup(to: ReplyKeyboardMarkup) returns (panicked: bool)
      modifies this
      ensures panicked == old(replyMarkupSet)
      ensures panicked ==> unchanged(this)
      ensures !panicked ==> replyMarkupSet && replyMarkup == KeyboardJSON(to)
      ensures chatId == old(chatId) && replyToMessageId == old(replyToMessageId)
      ensures replyToMessageIdSet == old(replyToMessageIdSet)
      ensures old(Valid()) ==> Valid()
    {
      if replyMarkupSet {
        panicked := true;
        return;
      }
      panicked := false;
      replyMarkupSet := true;
      replyMarkup := KeyboardJSON(to);
    }

    /** A hide request with HideKeyboard false is ignored before the check;
        otherwise stores its JSON, or panics when a markup is already set. */
    method SetReplyKeyboardHide(to: ReplyKeyboardHide) returns (panicked: bool)
      modifies this
      ensures panicked == (to.hideKeyboard && old(replyMarkupSet))
      ensures !to.hideKeyboard || panicked ==> unchanged(this)
      ensures to.hideKeyboard && !panicked ==> replyMarkupSet && replyMarkup == HideJSON(to)
      ensures chatId == old(chatId) && replyToMessageId == old(replyToMessageId)
      ensures replyToMessageIdSet == old(replyToMessageIdSet)
      ensures old(Valid()) ==> Valid()
    {
      panicked := false;
      if !to.hideKeyboard {
        return;
      }
      if replyMarkupSet {
        panicked := true;
        return;
      }
      replyMarkupSet := true;
      replyMarkup := HideJSON(to);
    }

    /** A force-reply with ForceReply false is ignored before the check;
        otherwise stores its JSON, or panics when a markup is already set. */
    method SetForceReply(to: ForceReply) returns (panicked: bool)
      modifies this
      ensures panicked == (to.forceReply && old(replyMarkupSet))
      ensures !to.forceReply || panicked ==> unchanged(this)
      ensures to.forceReply && !panicked ==> replyMarkupSet && replyMarkup == ForceReplyJSON(to)
      ensures chatId == old(chatId) && replyToMessageId == old(replyToMessageId)
      ensures replyToMessageIdSet == old(replyToMessageIdSet)
      ensures old(Valid()) ==> Valid()
    {
      panicked := false;
      if !to.forceReply {
        return;
      }
      if replyMarkupSet {
        panicked := true;
        return;
      }
      replyMarkupSet := true;
      replyMarkup := ForceReplyJSON(to);
    }

    /** The parameters every request of this generation sends: chat_id always,
        the reply-to ID and the markup exactly when their flags are set. */
    function BaseQuery(): (q: Query)
      reads this
      ensures "chat_id" in q && q["chat_id"] == Decimal(chatId)
      ensures "reply_to_message_id" in q <==> replyToMessageIdSet
      ensures replyToMessageIdSet ==> q["reply_to_message_id"] == Decimal(replyToMessageId)
      ensures "reply_markup" in q <==> replyMarkupSet
      ensures replyMarkupSet ==> q["reply_markup"] == replyMarkup
      ensures Valid() && "reply_markup" in q ==> q["reply_markup"] != ""
      ensures q.Keys <= BaseKeys
    {
      var q := map["chat_id" := Decimal(chatId)];
      var q := if replyToMessageIdSet then q["reply_to_message_id" := Decimal(replyToMessageId)] else q;
      if replyMarkupSet then q["reply_markup" := replyMarkup] else q
    }

    method GetBaseQueryString() returns (q: Query)
      ensures q == BaseQuery()
    {
      q := map[];
      q := q["chat_id" := Decimal(chatId)];
      if replyToMessageIdSet {
        q := q["reply_to_message_id" := Decimal(replyToMessageId)];
      }
      if replyMarkupSet {
        q := q["reply_markup" := replyMarkup];
      }
    }
  }

  /** `q` holds every base parameter with its base value. */
  ghost predicate Extends(q: Query, b: Query) {
    forall k :: k in b ==> k in q && q[k] == b[k]
  }

  class OutgoingAudio {
    const base: OutgoingBase
    var duration: int
    var performer: string
    var title: string
    var durationSet: bool
    var performerSet: bool
    var titleSet: bool

    /** NewOutgoingAudio: only the chat ID is set, so the query is the base query. */
    constructor (chatId: int)
      ensures fresh(base) && base.Valid() && base.chatId == chatId
      ensures !base.replyToMessageIdSet && !base.replyMarkupSet
      ensures !durationSet && !performerSet && !titleSet
      ensures duration == 0 && performer == "" && title == ""
      ensures Query() == base.BaseQuery()
    {
      base := new OutgoingBase(chatId);
      duration, performer, title := 0, "", "";
      durationSet, performerSet, titleSet := false, false, false;
    }

    method SetDuration(to: int) returns (self: OutgoingAudio)
      modifies this
      ensures self == this && duration == to && durationSet
      ensures performer == old(performer) && performerSet == old(performerSet)
      ensures title == old(title) && titleSet == old(titleSet)
    {
      duration := to;
      durationSet := true;
      self := this;
    }

    method SetPerformer(to: string) returns (self: OutgoingAudio)
      modifies this
      ensures self == this && performer == to && performerSet
      ensures duration == old(duration) && durationSet == old(durationSet)
      ensures title == old(title) && titleSet == old(titleSet)
    {
      performer := to;
      performerSet := true;
      self := this;
    }

    method SetTitle(to: string) returns (self: OutgoingAudio)
      modifies this
      ensures self == this && title == to && titleSet
      ensures duration == old(duration) && durationSet == old(durationSet)
      ensures performer == old(performer) && performerSet == old(performerSet)
    {
      title := to;
      titleSet := true;
      self := this;
    }

    /** The base parameters unchanged, plus duration, performer and title
        exactly when their flags are set, even for 0 or the empty string. */
    function Query(): (q: Query)
      reads this, base
      ensures Extends(q, base.BaseQuery())
      ensures "duration" in q <==> durationSet
      ensures durationSet ==> q["duration"] == Decimal(duration)
      ensures "performer" in q <==> performerSet
      ensures performerSet ==> q["performer"] == performer
      ensures "title" in q <==> titleSet
      ensures titleSet ==> q["title"] == title
      ensures q.Keys <= BaseKeys + {"duration", "performer", "title"}
    {
      var q := base.BaseQuery();
      var q := if durationSet then q["duration" := Decimal(duration)] else q;
      var q := if performerSet then q["performer" := performer] else q;
      if titleSet then q["title" := title] else q
    }

    method GetQueryString() returns (q: Query)
      ensures q == Query()
    {
      q := base.GetBaseQueryString();
      if durationSet {
        q := q["duration" := Decimal(duration)];
      }
      if performerSet {
        q := q["performer" := performer];
      }
      if titleSet {
        q := q["title" := title];
      }
    }
  }

  class OutgoingVideo {
    const base: OutgoingBase
    var duration: int
    var durationSet: bool
    var caption: string
    var captionSet: bool

    constructor (chatId: int)
      ensures fresh(base) && base.Valid() && base.chatId == chatId
      ensures !base.replyToMessageIdSet && !base.replyMarkupSet
      ensures !durationSet && !captionSet && duration == 0 && caption == ""
      ensures Query() == base.BaseQuery()
    {
      base := new OutgoingBase(chatId);
      duration, durationSet := 0, false;
      caption, captionSet := "", false;
    }

    method SetCaption(to: string) returns (self: OutgoingVideo)
      modifies this
      ensures self == this && caption == to && captionSet
      ensures duration == old(duration) && durationSet == old(durationSet)
    {
      caption := to;
      captionSet := true;
      self := this;
    }

    method SetDuration(to: int) returns (self: OutgoingVideo)
      modifies this
      ensures self == this && duration == to && durationSet
      ensures caption == old(caption) && captionSet == old(captionSet)
    {
      duration := to;
      durationSet := true;
      self := this;
    }

    /** The base parameters unchanged, plus caption and duration exactly when
        their flags are set, including the empty caption and duration 0. */
    function Query(): (q: Query)
      reads this, base
      ensures Extends(q, base.BaseQuery())
      ensures "caption" in q <==> captionSet
      ensures captionSet ==> q["caption"] == caption
      ensures "duration" in q <==> durationSet
      ensures durationSet ==> q["duration"] == Decimal(duration)
      ensures q.Keys <= BaseKeys + {"caption", "duration"}
    {
      var q := base.BaseQuery();
      var q := if captionSet then q["caption" := caption] else q;
      if durationSet then q["duration" := Decimal(duration)] else q
    }

    method GetQueryString() returns (q: Query)
      ensures q == Query()
    {
      q := base.GetBaseQueryString();
      if captionSet {
        q := q["caption" := caption];
      }
      if durationSet {
        q := q["duration" := Decimal(duration)];
      }
    }
  }

  class OutgoingVoice {
    const base: OutgoingBase
    var duration: int
    var durationSet: bool

    constructor (chatId: int)
      ensures fresh(base) && base.Valid() && base.chatId == chatId
      ensures !base.replyToMessageIdSet && !base.replyMarkupSet
      ensures !durationSet && duration == 0
      ensures Query() == base.BaseQuery()
    {
      base := new OutgoingBase(chatId);
      duration, durationSet := 0, false;
    }

    method SetDuration(to: int) returns (self: OutgoingVoice)
      modifies this
      ensures self == this && duration == to && durationSet
    {
      duration := to;
      durationSet := true;
      self := this;
    }

    /** The base parameters unchanged, plus duration exactly when its flag is set. */
    function Query(): (q: Query)
      reads this, base
      ensures Extends(q, base.BaseQuery())
      ensures "duration" in q <==> durationSet
      ensures durationSet ==> q["duration"] == Decimal(duration)
      ensures q.Keys <= BaseKeys + {"duration"}
    {
      var q := base.BaseQuery();
      if durationSet then q["duration" := Decimal(duration)] else q
    }

    method GetQueryString() returns (q: Query)
      ensures q == Query()
    {
      q := base.GetBaseQueryString();
      if durationSet {
        q := q["duration" := Decimal(duration)];
      }
    }
  }

  class OutgoingUserProfilePhotosRequest {
    var userId: int
    var offset: int
    var limit: int
    var offsetSet: bool
    var limitSet: bool

    constructor (userId: int)
      ensures this.userId == userId && offset == 0 && limit == 0 && !offsetSet && !limitSet
    {
      this.userId := userId;
      offset, limit := 0, 0;
      offsetSet, limitSet := false, false;
    }

    method SetOffset(to: int)
      modifies this
      ensures offset == to && offsetSet
      ensures userId == old(userId) && limit == old(limit) && limitSet == old(limitSet)
    {
      offset := to;
      offsetSet := true;
    }

    method SetLimit(to: int)
      modifies this
      ensures limit == to && limitSet
      ensures userId == old(userId) && offset == old(offset) && offsetSet == old(offsetSet)
    {
      limit := to;
      limitSet := true;
    }

    /** user_id always (and never chat_id); offset and limit exactly when
        their flags are set, including the value 0. */
    function Query(): (q: Query)
      reads this
      ensures "user_id" in q && q["user_id"] == Decimal(userId)
      ensures "offset" in q <==> offsetSet
      ensures offsetSet ==> q["offset"] == Decimal(offset)
      ensures "limit" in q <==> limitSet
      ensures limitSet ==> q["limit"] == Decimal(limit)
      ensures q.Keys <= {"user_id", "offset", "limit"}
    {
      var q := map["user_id" := Decimal(userId)];
      var q := if offsetSet then q["offset" := Decimal(offset)] else q;
      if limitSet then q["limit" := Decimal(limit)] else q
    }

    method GetQueryString() returns (q: Query)
      ensures q == Query()
    {
      q := map[];
      q := q["user_id" := Decimal(userId)];
      if offsetSet {
        q := q["offset" := Decimal(offset)];
      }
      if limitSet {
        q := q["limit" := Decimal(limit)];
      }
    }
  }
}
