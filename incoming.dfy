/** Incoming chats and messages (model/chat.go, model/message.go and their
    copies in incoming.go). Go's nil-able pointer fields are Options. */
module Incoming {
  import opened Wrappers
  import opened Format
  import opened MessageTypes

  // ---------------------------------------------------------------------
  // Payload records: data only, kept so a message can carry its content.
  // ---------------------------------------------------------------------

  datatype FileBase = FileBase(fileId: string, size: int)
  datatype PhotoSize = PhotoSize(file: FileBase, width: int, height: int)
  datatype AudioFile = AudioFile(file: FileBase, duration: int, mimeType: string)
  datatype DocumentFile = DocumentFile(file: FileBase, thumbnail: PhotoSize, name: string, mimeType: string)
  datatype StickerFile = StickerFile(file: FileBase, width: int, height: int, thumbnail: PhotoSize)
  datatype VideoFile = VideoFile(file: FileBase, width: int, height: int, duration: int,
                                 thumbnail: PhotoSize, mimeType: string, caption: string)
  datatype VoiceFile = VoiceFile(file: FileBase, duration: int, mimeType: string)
  datatype ContactCard = ContactCard(phoneNumber: string, firstName: string, lastName: string, userId: int)
  /** The float32 coordinates are kept as reals; only presence matters here. */
  datatype MapPoint = MapPoint(longitude: real, latitude: real)
  datatype User = User(id: int, firstName: string, lastName: string, username: string)

  // ---------------------------------------------------------------------
  // Chat
  // ---------------------------------------------------------------------

  datatype Chat = Chat(id: int, chatType: string, title: Option<string>, username: Option<string>,
                       firstName: Option<string>, lastName: Option<string>)
  {
    predicate IsPrivateChat() { chatType == "private" }
    predicate IsGroupChat() { chatType == "group" }
    predicate IsChannel() { chatType == "channel" }
  }

  /** Each chat predicate recognises exactly its own type string, so at most
      one holds, and none holds for any other type string. */
  lemma ChatKinds(c: Chat)
    ensures c.IsPrivateChat() <==> c.chatType == "private"
    ensures c.IsGroupChat() <==> c.chatType == "group"
    ensures c.IsChannel() <==> c.chatType == "channel"
    ensures !(c.IsPrivateChat() && c.IsGroupChat())
    ensures !(c.IsPrivateChat() && c.IsChannel())
    ensures !(c.IsGroupChat() && c.IsChannel())
    ensures c.chatType !in {"private", "group", "channel"} ==>
              !c.IsPrivateChat() && !c.IsGroupChat() && !c.IsChannel()
  {
  }

  /** The five-character marker after the chat ID: private, group, or
      anything else (channels and unknown types alike). */
  function KindTag(c: Chat): (t: string)
    ensures |t| == 5
  {
    if c.IsPrivateChat() then " (P) " else if c.IsGroupChat() then " (G) " else " (C) "
  }

  /** Title, first name, last name and username parts of the text, each
      empty when the field is absent. */
  function TitlePart(c: Chat): string {
    if c.title.Some? then "\"" + c.title.value + "\" " else ""
  }
  function FirstNamePart(c: Chat): string {
    if c.firstName.Some? then c.firstName.value + " " else ""
  }
  function LastNamePart(c: Chat): string {
    if c.lastName.Some? then c.lastName.value + " " else ""
  }
  function UsernamePart(c: Chat): string {
    if c.username.Some? then "(@" + c.username.value + ")" else ""
  }

  /** The text of `Chat.String`: ID, kind marker, then the quoted title, first
      name, last name and "(@username)", each only when present. */
  ghost function ChatText(c: Chat): string
  {
    Decimal(c.id) + KindTag(c) + TitlePart(c) + FirstNamePart(c) + LastNamePart(c) + UsernamePart(c)
  }

  /** Chat.String, built by successive appends as the source does. */
  method ChatString(c: Chat) returns (s: string)
    ensures s == ChatText(c)
  {
    s := Decimal(c.id);
    if c.IsPrivateChat() {
      s := s + " (P) ";
    } else if c.IsGroupChat() {
      s := s + " (G) ";
    } else {
      s := s + " (C) ";
    }
    assert s == Decimal(c.id) + KindTag(c);
    if c.title.Some? {
      s := s + ("\"" + c.title.value + "\" ");
    }
    assert s == Decimal(c.id) + KindTag(c) + TitlePart(c);
    if c.firstName.Some? {
      s := s + (c.firstName.value + " ");
    }
    assert s == Decimal(c.id) + KindTag(c) + TitlePart(c) + FirstNamePart(c);
    if c.lastName.Some? {
      s := s + (c.lastName.value + " ");
    }
    assert s == Decimal(c.id) + KindTag(c) + TitlePart(c) + FirstNamePart(c) + LastNamePart(c);
    if c.username.Some? {
      s := s + ("(@" + c.username.value + ")");
    }
  }

  /** The text starts with the decimal ID, then " (P) " exactly for private
      chats, " (G) " exactly for group chats, and " (C) " for every other type. */
  lemma ChatTextPrefix(c: Chat)
    ensures var n := |Decimal(c.id)|;
      |ChatText(c)| >= n + 5
      && ChatText(c)[..n] == Decimal(c.id)
      && (ChatText(c)[n..n + 5] == " (P) " <==> c.IsPrivateChat())
      && (ChatText(c)[n..n + 5] == " (G) " <==> c.IsGroupChat())
      && (ChatText(c)[n..n + 5] == " (C) " <==> !c.IsPrivateChat() && !c.IsGroupChat())
  {
    var n := |Decimal(c.id)|;
    var rest := ChatText(c)[n + 5..];
    assert ChatText(c) == Decimal(c.id) + KindTag(c) + rest;
    assert ChatText(c)[n..n + 5] == KindTag(c);
  }

  /** The chat ID can be read back: it is everything before the first space. */
  lemma ChatTextIdRecoverable(c: Chat)
    ensures var s := ChatText(c); var n := |Decimal(c.id)|;
      n < |s| && s[n] == ' ' && (forall i :: 0 <= i < n ==> s[i] != ' ')
      && ParseDecimal(s[..n]) == Some(c.id)
  {
    ChatTextPrefix(c);
    DecimalHasNoSpace(c.id);
    DecimalRoundTrip(c.id);
    var s := ChatText(c);
    var n := |Decimal(c.id)|;
    assert s[n] == s[n..n + 5][0];
    forall i | 0 <= i < n ensures s[i] != ' ' {
      assert s[i] == s[..n][i];
    }
  }

  /** With no optional field present the text is just the ID and the marker;
      a username, when present, closes the text as "(@username)". */
  lemma ChatTextOptionalParts(c: Chat)
    ensures c.title.None? && c.firstName.None? && c.lastName.None? && c.username.None? ==>
              ChatText(c) == Decimal(c.id) + KindTag(c)
    ensures c.username.Some? ==>
              var u := "(@" + c.username.value + ")";
              |ChatText(c)| >= |u| && ChatText(c)[|ChatText(c)| - |u|..] == u
  {
  }

  // ---------------------------------------------------------------------
  // Message
  // ---------------------------------------------------------------------

  /** A message without its reply (the embedded part of Message). */
  datatype MessageBody = MessageBody(
    chat: Chat,
    id: int,
    from: User,
    date: int,
    forwardFrom: Option<User>,
    forwardDate: Option<int>,
    text: Option<string>,
    caption: Option<string>,
    audio: Option<AudioFile>,
    document: Option<DocumentFile>,
    photo: Option<seq<PhotoSize>>,
    sticker: Option<StickerFile>,
    video: Option<VideoFile>,
    voice: Option<VoiceFile>,
    contact: Option<ContactCard>,
    location: Option<MapPoint>,
    newChatParticipant: Option<User>,
    leftChatParticipant: Option<User>,
    newChatTitle: Option<string>,
    newChatPhoto: Option<seq<PhotoSize>>,
    deleteChatPhoto: Option<bool>,
    groupChatCreated: Option<bool>)

  /** A message: its own fields and, if it is a reply, the message replied to. */
  datatype Message = Message(body: MessageBody, replyToMessage: Option<MessageBody>)
  {
    predicate IsForwarded() { body.forwardFrom.Some? }
    predicate IsReply() { replyToMessage.Some? }
  }

  /** No content field (Text through Location) is present. */
  predicate NoContent(b: MessageBody) {
    b.text.None? && b.audio.None? && b.document.None? && b.photo.None? && b.sticker.None?
    && b.video.None? && b.voice.None? && b.contact.None? && b.location.None?
  }

  /** No group-chat event field is present. */
  predicate NoEvent(b: MessageBody) {
    b.newChatParticipant.None? && b.leftChatParticipant.None? && b.newChatTitle.None?
    && b.newChatPhoto.None? && b.deleteChatPhoto.None? && b.groupChatCreated.None?
  }

  /** The kind of the first present field in the fixed priority order. */
  function Type(m: Message): (t: MessageType)
    ensures m.body.text.Some? ==> t == Text
    ensures t == Unknown <==> NoContent(m.body) && NoEvent(m.body)
    ensures IsChatAction(t) <==> NoContent(m.body) && !NoEvent(m.body)
    ensures t in Names && t != ChatActionsBegin && t != ChatActionsEnd
  {
    var b := m.body;
    if b.text.Some? then Text
    else if b.audio.Some? then Audio
    else if b.document.Some? then Document
    else if b.photo.Some? then Photo
    else if b.sticker.Some? then Sticker
    else if b.video.Some? then Video
    else if b.voice.Some? then Voice
    else if b.contact.Some? then Contact
    else if b.location.Some? then Location
    else if b.newChatParticipant.Some? then NewChatParticipant
    else if b.leftChatParticipant.Some? then LeftChatParticipant
    else if b.newChatTitle.Some? then NewChatTitle
    else if b.newChatPhoto.Some? then NewChatPhoto
    else if b.deleteChatPhoto.Some? then DeletedChatPohoto
    else if b.groupChatCreated.Some? then GroupChatCreated
    else Unknown
  }

  // An independent reading of Type: a priority list searched front to back.

  /** Presence of the fifteen fields Type inspects, in priority order. */
  function Presence(b: MessageBody): (p: seq<bool>)
    ensures |p| == |Priority|
  {
    [b.text.Some?, b.audio.Some?, b.document.Some?, b.photo.Some?, b.sticker.Some?,
     b.video.Some?, b.voice.Some?, b.contact.Some?, b.location.Some?,
     b.newChatParticipant.Some?, b.leftChatParticipant.Some?, b.newChatTitle.Some?,
     b.newChatPhoto.Some?, b.deleteChatPhoto.Some?, b.groupChatCreated.Some?]
  }

  /** The kind that each presence flag stands for. */
  const Priority: seq<MessageType> := [
    Text, Audio, Document, Photo, Sticker, Video, Voice, Contact, Location,
    NewChatParticipant, LeftChatParticipant, NewChatTitle, NewChatPhoto,
    DeletedChatPohoto, GroupChatCreated
  ]

  /** The kind of the first set flag at or after position `from`, or Unknown
      when none is set there. */
  function FirstPresent(flags: seq<bool>, kinds: seq<MessageType>, from: nat): (t: MessageType)
    requires |flags| == |kinds| && from <= |flags|
    ensures t == Unknown || t in kinds
    ensures t != Unknown ==> exists i :: from <= i < |flags| && flags[i] && kinds[i] == t
    ensures (forall i :: from <= i < |flags| ==> !flags[i]) ==> t == Unknown
    decreases |flags| - from
  {
    if from == |flags| then Unknown
    else if flags[from] then kinds[from]
    else FirstPresent(flags, kinds, from + 1)
  }

  /** Type is the kind of the first present field in the priority list. */
  lemma TypeIsFirstPresent(m: Message)
    ensures Type(m) == FirstPresent(Presence(m.body), Priority, 0)
  {
    var p, k := Presence(m.body), Priority;
    // Unfold the search one position at a time; each step is one branch of Type.
    assert FirstPresent(p, k, 14) == if p[14] then k[14] else Unknown;
    assert FirstPresent(p, k, 13) == if p[13] then k[13] else FirstPresent(p, k, 14);
    assert FirstPresent(p, k, 12) == if p[12] then k[12] else FirstPresent(p, k, 13);
    assert FirstPresent(p, k, 11) == if p[11] then k[11] else FirstPresent(p, k, 12);
    assert FirstPresent(p, k, 10) == if p[10] then k[10] else FirstPresent(p, k, 11);
    assert FirstPresent(p, k, 9) == if p[9] then k[9] else FirstPresent(p, k, 10);
    assert FirstPresent(p, k, 8) == if p[8] then k[8] else FirstPresent(p, k, 9);
    assert FirstPresent(p, k, 7) == if p[7] then k[7] else FirstPresent(p, k, 8);
    assert FirstPresent(p, k, 6) == if p[6] then k[6] else FirstPresent(p, k, 7);
    assert FirstPresent(p, k, 5) == if p[5] then k[5] else FirstPresent(p, k, 6);
    assert FirstPresent(p, k, 4) == if p[4] then k[4] else FirstPresent(p, k, 5);
    assert FirstPresent(p, k, 3) == if p[3] then k[3] else FirstPresent(p, k, 4);
    assert FirstPresent(p, k, 2) == if p[2] then k[2] else FirstPresent(p, k, 3);
    assert FirstPresent(p, k, 1) == if p[1] then k[1] else FirstPresent(p, k, 2);
  }

  /** Type looks at the message's own content only: a forward origin and a
      replied-to message change neither the kind nor anything but the two flags. */
  lemma TypeIgnoresForwardAndReply(m: Message, origin: Option<User>, reply: Option<MessageBody>)
    ensures var m' := Message(m.body.(forwardFrom := origin), reply);
      Type(m') == Type(m) && (m'.IsForwarded() <==> origin.Some?) && (m'.IsReply() <==> reply.Some?)
  {
  }
}
