# tbotapi in Dafny

A verified model of the core of `tbotapi`, a Go client for the Telegram Bot
API. It covers five parts of the library:

- **Update polling** (`api.go`, `model/update.go`). `New` bootstraps the
  client from the `GetMe` answer. `updateLoop` fetches batches of updates,
  sorts each ok batch by update ID, hands the updates to the consumer in that
  order and derives the next request's offset from the last ID delivered.
  `Close` sets the close flag at most once. The loop is a class,
  `Api.TelegramBotAPI`. Its `Step` method is one pass of the loop: it gets
  the result of the previous `getUpdates` call and records the next call in
  `requests`. The Updates and Errors channels become the append-only
  sequences `delivered` and `errors`.
- **Incoming messages** (`model/message.go`, `model/messageType.go`,
  `model/chat.go`, with copies in `incoming.go`). This covers the
  classification of a message by its first present field, the message-type
  enum with its two sentinels and name table, the chat-type predicates and
  the text rendering of a chat.
- **Outgoing requests**, in two generations that are kept apart:
  - `FlaggedOutgoing` models `model/outgoingBase.go` and its Audio, Video,
    Voice and UserProfilePhotos requests. These use a plain chat ID and an
    explicit "set" flag for every optional value.
  - `RecipientOutgoing` models `outgoing.go` and the Message, Photo,
    Sticker, Document and Forward requests of `model/`. These use a
    `Recipient` and send an optional value only when it is non-zero or
    non-empty.

  Each request type is a class whose setters update fields in place. The
  query string is a `map<string, string>`. Go's struct embedding of
  `OutgoingBase` becomes a `base` field.
- **Recipients** (`model/recipient.go`). This covers the chat-or-channel
  target and its hand-written JSON rendering.
- **REST helpers** (`rest.go`). This covers the endpoint table, the lookup
  that panics on an unknown method, and the HTTP status classification. A
  status from 200 to 499 with a JSON body is decoded. A status of 500 or
  more is a server error.

A Go panic is a value, `Outcome.Panics`, or a `panicked` out-parameter. A
nil pointer is `Option.None`. `fmt.Sprint` and `%d` of an int is
`Format.Decimal`, and `Format.ParseDecimal` reads it back.

Where the files disagree with each other, each file's evident intent is
modelled separately:

- `model/recipient.go:23` reads `chat.Id`, but the Chat type declares `ID`.
- `model/message.go:29-60` returns `TextType`, `AudioType`, …,
  `LocationType`, but `model/messageType.go:8-16` declares these constants as
  `Text`, `Audio`, …, `Location`. `Incoming.Type` uses the declared names.
- `api.go:36` reads `user.User.Id`, but `model/user.go:11` declares `ID`.
  `Api.TelegramBotAPI.Start` and `Api.New` use the declared `ID`.
- `api.go:88` reads `update.Id`, but `model/update.go:25` declares `ID`.
  `Api.TelegramBotAPI.PutUpdatesInChannel` uses the declared `ID`.
- The gen-2 files under `model/` (`outgoingPhoto.go` and the others) build an
  `OutgoingBase` with a `Recipient` field. That field exists only in
  `outgoing.go`'s base, so those classes use the gen-2 base.
- In the gen-1 files, `url.Values` is converted to a `map[string]string`
  query. It is modelled as one value per key, which is what `Set` stores.

The update loop (`api.go:56-83`) behaves as follows:

- The offset variable starts at 0 (`api.go:58`), so a failed first fetch is
  repeated with offset 1.
- An empty ok batch sets the offset to -1, and the next fetch then carries no
  offset at all (`api.go:77-81`).
- Every failed or not-ok fetch is sent on the Errors channel
  (`api.go:68-72`), and the fetch is then repeated.

## Model

| member | source | states |
|---|---|---|
| Format.Decimal | model/outgoingBase.go:74 | The decimal rendering of an int (as `fmt.Sprint` writes it) is non-empty and starts with neither a quote nor a space; it has a minus sign exactly for negative numbers and no leading zero (no "-0", no "07") |
| Format.DecimalRoundTrip | model/outgoingBase.go:74 | Decimal rendering is injective: parsing the rendering of any integer gives that integer back |
| MessageTypes.IsChatAction | model/messageType.go:51-54 | True exactly for the six chat-action values strictly between the two sentinels; such a value is never a content kind, Unknown or a sentinel |
| MessageTypes.String | model/messageType.go:30-62 | Never empty; the table name for every listed value (DeletedChatPohoto renders as "DeletedChatPhoto"); "UNKNOWN" exactly for Unknown and every unlisted integer |
| MessageTypes.StringInjective | model/messageType.go:30-49 | Distinct listed values have distinct names |
| MessageTypes.StringTable | model/messageType.go:7-62 | The constants 0..17 with sentinels 9 and 16; the sentinels, negatives and values above Unknown render as "UNKNOWN"; the table lists only values 0..17 other than the sentinels |
| Incoming.ChatKinds | model/chat.go:13-26 | Each chat predicate holds exactly for its type string ("private", "group", "channel"); at most one holds; none holds for any other type |
| Incoming.ChatString | incoming.go:45-72 | The text built by successive appends equals the chat's rendering: ID, kind marker, then quoted title, first name, last name, "(@username)", each only when present |
| Incoming.ChatTextPrefix | incoming.go:45-53 | The text starts with the decimal ID followed by " (P) " exactly for private chats, " (G) " exactly for groups and " (C) " for every other type |
| Incoming.ChatTextIdRecoverable | incoming.go:46-53 | The ID is everything before the first space of the text and parses back to the chat's ID |
| Incoming.ChatTextOptionalParts | incoming.go:55-69 | With no optional field the text is ID plus marker; a present username ends the text as "(@username)" |
| Incoming.Type | model/message.go:25-61 | Text wins over every other field; Unknown iff all fifteen content and event fields are absent; a chat action iff no content field and some event field is present; never a sentinel |
| Incoming.TypeIsFirstPresent | model/message.go:27-60 | Type equals the kind of the first present field in the priority list Text, Audio, …, GroupChatCreated, or Unknown |
| Incoming.TypeIgnoresForwardAndReply | model/message.go:15-27 | Changing the forward origin or the replied-to message keeps the type; IsForwarded iff a forward origin is present, IsReply iff a replied-to message is present |
| Updates.Less | model/update.go:16 | Position i sorts before position j iff its ID is strictly smaller, the comparison SortByID uses; never true of a position against itself |
| Updates.Swap | model/update.go:15 | Exchanges exactly positions i and j, all else unchanged; same multiset |
| Updates.SortByID | model/update.go:18-21 | After sorting, IDs are non-decreasing and the array is a permutation of the original updates (each ID with its own message) |
| Updates.SortedLastIsMax | api.go:73-74 | A sorted permutation of a non-empty batch ends with the batch's largest ID |
| Recipients.Recipient.IsChat | model/recipient.go:26-28 | A chat recipient iff the chat-ID pointer is set |
| Recipients.Recipient.IsChannel | model/recipient.go:30-32 | A channel recipient iff the channel-name pointer is set |
| Recipients.NewChatRecipient | model/recipient.go:10-14 | A chat recipient, not a channel, carrying the ID |
| Recipients.NewChannelRecipient | model/recipient.go:16-20 | A channel recipient, not a chat, carrying the name |
| Recipients.NewRecipientFromChat | model/recipient.go:22-24 | Always a chat recipient with the chat's ID, whatever the chat's type |
| Recipients.MarshalJSON | model/recipient.go:34-44 | A channel (which wins when both are set) renders as its name in double quotes, unescaped; a chat as exactly the decimal rendering of the ID, unquoted, which parses back to the ID; neither pointer set dereferences nil and panics |
| Recipients.MarshalRoundTrip | model/recipient.go:34-44 | Reading a rendering back gives the channel recipient, or the original chat recipient |
| Markup.PlainTextVerbatim | outgoing.go:405 | A keyboard label with no quote, backslash, control character, `<`, `>`, `&`, U+2028 or U+2029 is written unchanged between double quotes |
| Markup.SpecialCharsEscaped | outgoing.go:405 | Each of those special characters is replaced by an escape sequence of at least two characters starting with a backslash; every other character is kept as is |
| Markup.KeyboardJSON | outgoing.go:403-409 | A custom keyboard encodes as text that begins with `{"keyboard":` and ends with `}` |
| Markup.HideJSON | outgoing.go:411-415 | A keyboard hide encodes as text that begins with `{"hide_keyboard":` and ends with `}` |
| Markup.ForceReplyJSON | outgoing.go:397-401 | A forced reply encodes as text that begins with `{"force_reply":` and ends with `}` |
| Markup.MarkupJSON | outgoing.go:388-415 | The encoding of any reply markup begins with `{"` and ends with `}`; its first key starts with k, h or f exactly for a keyboard, a hide or a forced reply |
| Markup.MarkupKindsEncodeDifferently | outgoing.go:388-415 | Markups of different kinds never encode to the same text |
| FlaggedOutgoing.OutgoingBase.constructor | model/outgoingAudio.go:18-24 | The chat ID with every flag false and zero values elsewhere |
| FlaggedOutgoing.OutgoingBase.SetReplyToMessageId | model/outgoingBase.go:17-20 | Stores the ID and sets its flag; nothing else changes |
| FlaggedOutgoing.OutgoingBase.SetReplyKeyboardMarkup | model/outgoingBase.go:22-34 | Panics exactly when a markup is already set, changing nothing; otherwise stores the keyboard's JSON and sets the flag |
| FlaggedOutgoing.OutgoingBase.SetReplyKeyboardHide | model/outgoingBase.go:36-52 | A no-op when HideKeyboard is false, even with a markup set; otherwise panics exactly when a markup is already set, else stores the JSON and sets the flag |
| FlaggedOutgoing.OutgoingBase.SetForceReply | model/outgoingBase.go:54-70 | A no-op when ForceReply is false, even with a markup set; otherwise panics exactly when a markup is already set, else stores the JSON and sets the flag |
| FlaggedOutgoing.OutgoingBase.BaseQuery | model/outgoingBase.go:72-85 | chat_id always; reply_to_message_id iff its flag; reply_markup (the stored text) iff its flag, and never empty while the base is valid; no other key |
| FlaggedOutgoing.OutgoingBase.GetBaseQueryString | model/outgoingBase.go:72-85 | Builds exactly BaseQuery |
| FlaggedOutgoing.OutgoingAudio.constructor | model/outgoingAudio.go:18-24 | The chat ID with all optional flags false, so the query equals the base query |
| FlaggedOutgoing.OutgoingAudio.SetDuration | model/outgoingAudio.go:26-30 | Stores the value, sets the flag, returns the receiver; other fields unchanged |
| FlaggedOutgoing.OutgoingAudio.SetPerformer | model/outgoingAudio.go:32-36 | Stores the value, sets the flag, returns the receiver; other fields unchanged |
| FlaggedOutgoing.OutgoingAudio.SetTitle | model/outgoingAudio.go:38-42 | Stores the value, sets the flag, returns the receiver; other fields unchanged |
| FlaggedOutgoing.OutgoingAudio.Query | model/outgoingAudio.go:44-60 | Every base key unchanged; duration, performer, title present iff their flags are set, even for 0 or "" |
| FlaggedOutgoing.OutgoingAudio.GetQueryString | model/outgoingAudio.go:44-60 | Builds exactly Query |
| FlaggedOutgoing.OutgoingVideo.constructor | model/outgoingVideo.go:16-22 | The chat ID with both flags false; the query equals the base query |
| FlaggedOutgoing.OutgoingVideo.SetCaption | model/outgoingVideo.go:24-28 | Stores the caption, sets its flag, returns the receiver; duration untouched |
| FlaggedOutgoing.OutgoingVideo.SetDuration | model/outgoingVideo.go:30-34 | Stores the duration, sets its flag, returns the receiver; caption untouched |
| FlaggedOutgoing.OutgoingVideo.Query | model/outgoingVideo.go:36-48 | Base keys preserved; caption iff its flag (even ""), duration iff its flag (even 0) |
| FlaggedOutgoing.OutgoingVideo.GetQueryString | model/outgoingVideo.go:36-48 | Builds exactly Query |
| FlaggedOutgoing.OutgoingVoice.constructor | model/outgoingVoice.go:14-20 | The chat ID with the duration flag false; the query equals the base query |
| FlaggedOutgoing.OutgoingVoice.SetDuration | model/outgoingVoice.go:22-26 | Stores the duration, sets its flag, returns the receiver |
| FlaggedOutgoing.OutgoingVoice.Query | model/outgoingVoice.go:28-36 | Base keys preserved; duration iff its flag |
| FlaggedOutgoing.OutgoingVoice.GetQueryString | model/outgoingVoice.go:28-36 | Builds exactly Query |
| FlaggedOutgoing.OutgoingUserProfilePhotosRequest.constructor | model/outgoingUserProfilePhotosRequest.go:16-20 | The user ID with both flags false |
| FlaggedOutgoing.OutgoingUserProfilePhotosRequest.SetOffset | model/outgoingUserProfilePhotosRequest.go:22-25 | Changes only the offset and its flag |
| FlaggedOutgoing.OutgoingUserProfilePhotosRequest.SetLimit | model/outgoingUserProfilePhotosRequest.go:27-30 | Changes only the limit and its flag |
| FlaggedOutgoing.OutgoingUserProfilePhotosRequest.Query | model/outgoingUserProfilePhotosRequest.go:32-45 | user_id always; offset iff its flag, limit iff its flag, including 0; keys within {user_id, offset, limit} |
| FlaggedOutgoing.OutgoingUserProfilePhotosRequest.GetQueryString | model/outgoingUserProfilePhotosRequest.go:32-45 | Builds exactly Query |
| RecipientOutgoing.ChatIdParam | outgoing.go:66-71 | The channel name for a channel recipient, else exactly the decimal rendering of the chat ID (which parses back to it); panics iff neither pointer is set |
| RecipientOutgoing.ChatIdParamMatchesJSON | outgoing.go:66-71 | The chat_id parameter and the recipient's JSON fail together and differ only by the quotes around a channel name |
| RecipientOutgoing.OutgoingBase.constructor | outgoing.go:99-101 | The recipient with no reply-to, no markup and both flags false |
| RecipientOutgoing.OutgoingBase.SetReplyToMessageID | outgoing.go:16-20 | Stores the ID and sets its flag; nothing else changes |
| RecipientOutgoing.OutgoingBase.SetReplyKeyboardMarkup | outgoing.go:22-31 | Panics only under the markup flag, which is never set, so on a valid base it stores the keyboard without setting the flag |
| RecipientOutgoing.OutgoingBase.SetReplyKeyboardHide | outgoing.go:33-46 | No-op when HideKeyboard is false; otherwise as SetReplyKeyboardMarkup |
| RecipientOutgoing.OutgoingBase.SetForceReply | outgoing.go:48-61 | No-op when ForceReply is false; otherwise as SetReplyKeyboardMarkup |
| RecipientOutgoing.OutgoingBase.BaseQuery | outgoing.go:63-86 | Panics iff the recipient has no pointer; otherwise chat_id always, reply_to_message_id iff its flag, reply_markup iff the never-set flag (so never on a valid base), no other key |
| RecipientOutgoing.OutgoingBase.GetBaseQueryString | outgoing.go:63-86 | Builds exactly BaseQuery |
| RecipientOutgoing.OutgoingAudio.constructor | outgoing.go:96-103 | The recipient with zero duration and empty title and performer, so the query equals the base query |
| RecipientOutgoing.OutgoingAudio.SetDuration | outgoing.go:105-109 | Stores the duration and returns the receiver; other fields unchanged |
| RecipientOutgoing.OutgoingAudio.SetPerformer | outgoing.go:111-115 | Stores the performer and returns the receiver; other fields unchanged |
| RecipientOutgoing.OutgoingAudio.SetTitle | outgoing.go:117-121 | Stores the title and returns the receiver; other fields unchanged |
| RecipientOutgoing.OutgoingAudio.Query | outgoing.go:123-140 | Panics with the base; base keys preserved; duration, performer, title present iff non-zero or non-empty |
| RecipientOutgoing.OutgoingAudio.GetQueryString | outgoing.go:123-140 | Builds exactly Query |
| RecipientOutgoing.OutgoingDocument.constructor | model/outgoingDocument.go:8-15 | The recipient with no reply-to and no markup |
| RecipientOutgoing.OutgoingDocument.GetQueryString | model/outgoingDocument.go:17-20 | Exactly the base query, no keys of its own |
| RecipientOutgoing.OutgoingForward.constructor | model/outgoingForward.go:10-19 | The target recipient; the origin as a chat recipient with its ID even when it is a channel; the message ID unchanged; reply-to and markup unset |
| RecipientOutgoing.OutgoingMessage.constructor | model/outgoingMessage.go:14-23 | The recipient and text, the default parse mode, web preview not disabled |
| RecipientOutgoing.OutgoingMessage.SetMarkdown | model/outgoingMessage.go:25-33 | The parse mode is "Markdown" after true and "" after false, whatever it was, so repeating is idempotent and false restores the default; returns the receiver |
| RecipientOutgoing.OutgoingMessage.SetDisableWebPagePreview | model/outgoingMessage.go:35-39 | Stores the flag, changes nothing else, returns the receiver |
| RecipientOutgoing.OutgoingPhoto.constructor | model/outgoingPhoto.go:9-16 | The recipient with an empty caption; the query equals the base query |
| RecipientOutgoing.OutgoingPhoto.SetCaption | model/outgoingPhoto.go:18-22 | Stores the caption and returns the receiver |
| RecipientOutgoing.OutgoingPhoto.Query | model/outgoingPhoto.go:24-33 | Base keys preserved; caption iff non-empty, so an empty caption is not sent |
| RecipientOutgoing.OutgoingPhoto.GetQueryString | model/outgoingPhoto.go:24-33 | Builds exactly Query |
| RecipientOutgoing.OutgoingSticker.constructor | model/outgoingSticker.go:8-15 | The recipient with no reply-to and no markup |
| RecipientOutgoing.OutgoingSticker.GetQueryString | model/outgoingSticker.go:17-20 | Exactly the base query, no keys of its own |
| RecipientOutgoing.OutgoingUserProfilePhotosRequest.constructor | outgoing.go:278-283 | The user ID with zero offset and limit |
| RecipientOutgoing.OutgoingUserProfilePhotosRequest.SetOffset | outgoing.go:285-289 | Stores the offset only and returns the receiver |
| RecipientOutgoing.OutgoingUserProfilePhotosRequest.SetLimit | outgoing.go:291-295 | Stores the limit only and returns the receiver |
| RecipientOutgoing.OutgoingUserProfilePhotosRequest.Query | outgoing.go:297-311 | user_id always and never chat_id; offset and limit iff non-zero |
| RecipientOutgoing.OutgoingUserProfilePhotosRequest.GetQueryString | outgoing.go:297-311 | Builds exactly Query |
| RecipientOutgoing.OutgoingVideo.constructor | outgoing.go:320-327 | The recipient with zero duration and empty caption; the query equals the base query |
| RecipientOutgoing.OutgoingVideo.SetCaption | outgoing.go:329-333 | Stores the caption and returns the receiver; duration untouched |
| RecipientOutgoing.OutgoingVideo.SetDuration | outgoing.go:335-339 | Stores the duration and returns the receiver; caption untouched |
| RecipientOutgoing.OutgoingVideo.Query | outgoing.go:341-354 | Base keys preserved; caption iff non-empty, duration iff non-zero |
| RecipientOutgoing.OutgoingVideo.GetQueryString | outgoing.go:341-354 | Builds exactly Query |
| RecipientOutgoing.OutgoingVoice.constructor | outgoing.go:362-369 | The recipient with zero duration; the query equals the base query |
| RecipientOutgoing.OutgoingVoice.SetDuration | outgoing.go:371-375 | Stores the duration and returns the receiver |
| RecipientOutgoing.OutgoingVoice.Query | outgoing.go:377-386 | Base keys preserved; duration iff non-zero |
| RecipientOutgoing.OutgoingVoice.GetQueryString | outgoing.go:377-386 | Builds exactly Query |
| Rest.CreateEndpoints | rest.go:90-110 | The table's domain is exactly the 15 method names, each mapped to baseURI + "/" + name |
| Rest.GetEndpoint | rest.go:82-88 | The mapped URL for a method in the table; a panic naming the method otherwise |
| Rest.EndpointLookup | rest.go:82-110 | On a table built by CreateEndpoints, a method resolves iff it is one of the 15, and to its own URL |
| Rest.EndpointURLInjective | rest.go:93-107 | Distinct methods get distinct URLs under one base URI |
| Rest.CheckHTTPStatus | rest.go:75-80 | An error iff the status is 500 or more, with the server-error message |
| Rest.DecodesBody | rest.go:60-73 | The body is decoded iff the content type is JSON, a result target exists and 200 <= status <= 499 |
| Rest.StatusClassesDisjoint | rest.go:65-76 | No response is both decoded and a server error; a status below 200 is neither |
| Api.ErrorText | api.go:68-72 | A transport error is reported as is; a not-ok response as "TBotAPI: GetUpdates:<code> - <description>" |
| Api.NextRequest | api.go:77-81 | No offset parameter iff the offset is -1; otherwise offset + 1 |
| Api.UpdatesQuery | api.go:95-113 | timeout 60 always; offset present iff requested, holding exactly the decimal rendering of the offset, which parses back to it |
| Api.TelegramBotAPI.Start | api.go:36-41 | Identity from GetMe, the loop running with one request (no offset) and offset 0 |
| Api.TelegramBotAPI.Close | api.go:46-54 | Sets the flag; reports whether this call closed it (false on a second call); nothing else changes |
| Api.TelegramBotAPI.PutUpdatesInChannel | api.go:85-93 | Appends every update of the array exactly once in array order and nothing else; returns the last update's ID, or -1 for an empty batch |
| Api.TelegramBotAPI.SortAndDeliver | api.go:73-74 | Delivers a sorted permutation of the batch after what was delivered before; returns the batch's largest ID, or -1 when empty |
| Api.TelegramBotAPI.Step | api.go:56-83 | Keeps the loop invariant; once closed, stops before reporting or delivering anything; a failed or not-ok fetch appends one error and keeps the offset; an ok batch is delivered sorted and the offset becomes its largest ID (-1 if empty); the next call uses offset + 1 or no offset after -1; a failed first fetch is retried with offset 1 |
| Api.New | api.go:24-44 | A GetMe transport error gives a null client and that error, and no loop starts; otherwise a fresh running client with the user's ID, first name and username |

## Left out

- The goroutine, the unbuffered Updates and Errors channels, the `select` on
  the close channel and the `sync.WaitGroup` (`api.go:40-41`, `53`, `63`).
  Channels become sequences, the close channel a flag, and `Close` does not
  wait for the loop.
- The HTTP transport: the gopencils calls in `api.go:95-122` and the resty
  requests in `rest.go:35-58`. A fetch result is a parameter of `Step`, and
  the GetMe result a parameter of `New`. The JSON content-type test is a
  boolean parameter of `DecodesBody`.
- JSON decoding with `json.Unmarshal` (`rest.go:67`) and its error.
- The `json.Marshal` error branches (`model/outgoingBase.go:28-30` and the
  others, `outgoing.go:79-81`). They cannot fail on these types.
- Markup.MarkupJSON: states the delimiters and the first key of each kind of
  markup, not the whole text. The encoder follows the struct tags and the
  escaping that encoding/json applies by default; only the verbatim case of
  that escaping is stated (Markup.PlainTextVerbatim). It writes an empty
  keyboard as `[]`, where Go writes a nil slice as `null`. In the gen-2 base, a
  missing markup renders as `null`.
- Format.Decimal: integers are unbounded. Go's 64-bit `int` wrap-around,
  including `offset + 1` in `api.go:80`, is not modelled.
- Api.TelegramBotAPI.Step: the stated next request `Some(MaxID + 1)` assumes
  the batch's largest ID is not -1. An update with ID -1 is taken as the
  empty-batch marker, as in the source.
- Api.New: the Ok flag of the GetMe response is not consulted, as in the
  source. A not-ok answer starts the client with whatever user it carries.
- `OutgoingLocation` (`outgoing.go:179-194`, `model/outgoingLocation.go`).
  Its coordinates are `float32`, rendered by `fmt.Sprint`.
- `User.String` (`incoming.go:313-322`). It formats pointers with `%s`, so
  the output depends on fmt's pointer rendering.
- The `api` field of the gen-2 `OutgoingBase` (`outgoing.go:8`). It is only
  used by the send wrappers.
- `sendable.go`, `ctors.go`, `encodable.go` and `other.go`. They are thin
  wrappers over `api.send`, which is not part of this model.
- `cmd/example.go`, a demo program, and `doc.go`, which holds only a comment.
- The data-only declarations (files, photos, stickers, contacts, locations,
  chat actions, parse modes, responses). They appear as plain datatypes
  where a modelled operation needs them.
- `ByID.Len` (`model/update.go:14`). It is the array's `Length`.
- Updates.SortByID: Go's `sort.Sort` leaves its algorithm open, so an
  insertion sort with the same `Less` and `Swap` stands in for it. Only its
  result (sorted, a permutation) is claimed, not the order of comparisons.
