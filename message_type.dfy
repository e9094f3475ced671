/** The kinds of incoming message (model/messageType.go; the same table
    appears in incoming.go). A MessageType is a Go `int`, so any integer is a
    value of the type, not only the named constants. */
module MessageTypes {

  type MessageType = int

  const Text: MessageType := 0
  const Audio: MessageType := 1
  const Document: MessageType := 2
  const Photo: MessageType := 3
  const Sticker: MessageType := 4
  const Video: MessageType := 5
  const Voice: MessageType := 6
  const Contact: MessageType := 7
  const Location: MessageType := 8
  /** Sentinel: every chat action lies strictly above it. */
  const ChatActionsBegin: MessageType := 9
  const NewChatParticipant: MessageType := 10
  const LeftChatParticipant: MessageType := 11
  const NewChatTitle: MessageType := 12
  const NewChatPhoto: MessageType := 13
  /** The constant keeps the source's spelling; its name renders correctly. */
  const DeletedChatPohoto: MessageType := 14
  const GroupChatCreated: MessageType := 15
  /** Sentinel: every chat action lies strictly below it. */
  const ChatActionsEnd: MessageType := 16
  const Unknown: MessageType := 17

  /** The name table; the two sentinels have no entry. */
  const Names: map<MessageType, string> := map[
    Text := "Text",
    Audio := "Audio",
    Document := "Document",
    Photo := "Photo",
    Sticker := "Sticker",
    Video := "Video",
    Voice := "Voice",
    Contact := "Contact",
    Location := "Location",
    NewChatParticipant := "NewChatParticipant",
    LeftChatParticipant := "LeftChatParticipant",
    NewChatTitle := "NewChatTitle",
    NewChatPhoto := "NewChatPhoto",
    DeletedChatPohoto := "DeletedChatPhoto",
    GroupChatCreated := "GroupChatCreated",
    Unknown := "UNKNOWN"
  ]

  /** The six group-chat events, listed one by one. */
  const ChatActions: set<MessageType> := {
    NewChatParticipant, LeftChatParticipant, NewChatTitle,
    NewChatPhoto, DeletedChatPohoto, GroupChatCreated
  }

  /** True for the values strictly between the two sentinels, which are
      exactly the six listed chat actions; never a content kind, Unknown or
      a sentinel. */
  function IsChatAction(mt: MessageType): (b: bool)
    ensures b <==> mt in ChatActions
    ensures b ==> mt in Names && mt != Unknown
  {
    mt > ChatActionsBegin && mt < ChatActionsEnd
  }

  /** The table name of a listed value, and "UNKNOWN" for every other integer
      (the sentinels, negatives, anything above Unknown). */
  function String(mt: MessageType): (s: string)
    ensures s != ""
    ensures s == "UNKNOWN" <==> mt !in Names || mt == Unknown
    ensures mt in Names ==> s == Names[mt]
  {
    if mt in Names then Names[mt] else Names[Unknown]
  }

  /** Distinct listed values have distinct names, so String can be read back
      on the table. */
  lemma StringInjective(a: MessageType, b: MessageType)
    requires a in Names && b in Names && a != b
    ensures String(a) != String(b)
  {
  }

  /** The names the table gives, including the corrected spelling of the
      deleted-photo event and the two unnamed sentinels. */
  lemma StringTable()
    ensures String(DeletedChatPohoto) == "DeletedChatPhoto"
    ensures String(ChatActionsBegin) == "UNKNOWN" && String(ChatActionsEnd) == "UNKNOWN"
    ensures String(-1) == "UNKNOWN" && String(Unknown + 1) == "UNKNOWN"
    ensures forall mt :: mt in Names ==> 0 <= mt <= Unknown && mt != ChatActionsBegin && mt != ChatActionsEnd
  {
  }
}
