# Outbound messages of the Telegram desktop client (Api namespace): a Dafny model

This project models two pieces of the client's outbound-message path:

- **The text-entity codec** of `api_text_entities.cpp`. `EntitiesFromMTP` turns the wire list of message entities (`MTPMessageEntity`) into the in-memory `EntitiesInText`. `EntitiesToMTP` turns the in-memory list back into wire entities. The codec's helpers are `CustomEmojiEntity`, `MentionNameEntity` and `CustomEmojiEntityData`.
- **Flag resolution and send bookkeeping** of `api_sending.cpp`:
  - the post-flag resolver `InnerFillMessagePostFlags` / `FillMessagePostFlags`;
  - the local and request flags of `SendExistingMedia` and `SendDice`, with the sender and post author of the new message;
  - dice acceptance;
  - the handling of a failed existing-media request (the `FILE_REFERENCE_` retry);
  - `SendConfirmedFile`: edit or new message, album stamping, flags, edition that keeps counters, history notifications;
  - the request flags and draft clearing of `SendLocationPoint`.

Modules:

- `Wrappers` (`wrappers.dfy`): `Option`.
- `Lists` (`lists.dfy`): the filter-map shape of the two codec loops, with its lemmas.
- `Text` (`text.dfy`): the parts of `QString` the code relies on: `trimmed`, `startsWith`, and the case-insensitive prefix and `.+` of the user-link regular expression.
- `TextEntities` (`text_entities.dfy`): the codec.
- `SendFlags` (`send_flags.dfy`): the value-level decisions of the sending path.
- `Sending` (`sending.dfy`): the send functions. They write to a `Session` class holding:
  - the random-id table of the data session;
  - the local history items, by full message id;
  - an event log of what is handed to the rest of the client, in order: send actions, random-id registrations, local insertions, requests, failures, uploads, editions, notifications, draft clearing.

  `SendingAlbum` and `FilePrepareResult` are classes because `SendConfirmedFile` writes into them: it sets an album item's `msgId` and converts the file's `to.replyTo`.

The session invariant `Session.Valid` says three things:

- every request in the log was preceded, in this order, by the registration of its random id for its message and by the local insertion of that message;
- every message the log reports as added is in the message map;
- every random id the log reports as registered is in the table.

Every method of `Session` that changes its state preserves it.

Code the model cannot see is represented as follows:

- The codec calls helpers whose code is not part of this model: `MentionNameDataFromFields`/`ToFields`, `Data::SerializeCustomEmojiId`/`ParseCustomEmojiData`, `url_parse_params` with the lookup of `id`, and `QString::toLongLong`. They are function-typed fields of `TextEntities.Helpers`.
- What the codec reads from the session (own id and access hash, loaded users) is the value `SessionData`.
- The sending path calls `ShouldSendSilent`, `NewMessageFlags`, caption conversion, `convertTopicReplyToId`, `Ui::Emoji::Find` and the app-config dice list. They are fields of `Sending.Services`.
- Where a property depends on what such a helper does, the lemma states the assumption as a precondition. For example, `CustomEmojiDataRoundTrips` says that a serialized non-zero document id parses back.
- `nextLocalMessageId()` and `base::RandomValue<uint64>()` are parameters.

Peers are records of the booleans the code consults (`amAnonymous`, `isMegagroup`, `isBroadcast`, `isChannel`, `addsSignature`). Message flags and request flags are sets of enumeration values. `ChannelIfAnonymous(peer)` states what the resolver relies on when it reads `peer->asChannel()` for an anonymous post: only a channel posts anonymously.

Some behaviours of the code that the model keeps:

- `EntitiesFromMTP` skips unknown, phone-number and bank-card entities.
- With no session, `EntitiesFromMTP` skips both mention-name variants. It also skips an input mention whose user is neither `inputUserSelf` nor `inputUser`.
- `EntitiesToMTP` skips entities of non-positive length, and under `SkipLocal` every kind outside the server-side list. It has no case for `Invalid` and `Semibold`, so those are never sent.
- A custom URL whose trimmed text is a `tg://user?` link naming oneself or a loaded user is sent as a mention-name. Otherwise it is sent as a text URL carrying the untrimmed address.
- `SendConfirmedFile` can treat a file as an edit (not an audio file, names a message to replace) when the session has no such message. In that case it adds a new message with only the reply, post, schedule and file flags (none of `NewMessageFlags`), and raises no history notification. The model does the same.

## Model

| member | source | states |
|---|---|---|
| Lists.FilterMap | Telegram/SourceFiles/api/api_text_entities.cpp:232-362 | each input element yields at most one output, so the output is never longer than the input |
| Lists.FilterMapPush | Telegram/SourceFiles/api/api_text_entities.cpp:73-224 | converting one more element appends exactly its output, if any, at the end |
| Lists.FilterMapAppend | Telegram/SourceFiles/api/api_text_entities.cpp:234-361 | the conversion preserves order: the output of a concatenation is the concatenation of the outputs |
| Lists.FilterMapTotal | Telegram/SourceFiles/api/api_text_entities.cpp:73-224 | where every element converts, the output has the input's length and element i is what element i converts to |
| Lists.FilterMapSources | Telegram/SourceFiles/api/api_text_entities.cpp:234-361 | every output element is what some input element converted to |
| Text.IsSpace | Telegram/SourceFiles/api/api_text_entities.cpp:263 | QChar::isSpace: among ASCII characters exactly space and tab through carriage return are white space; every other white-space character lies above U+0084 |
| Text.TrimStart | Telegram/SourceFiles/api/api_sending.cpp:272 | the result is a suffix of the text, everything dropped is white space, and the result does not start with white space |
| Text.TrimEnd | Telegram/SourceFiles/api/api_sending.cpp:272 | the result is a prefix of the text, everything dropped is white space, and the result does not end with white space |
| Text.Trim | Telegram/SourceFiles/api/api_text_entities.cpp:263 | the trimmed text has no white space at either end and is never longer; a text without white space at its ends is kept as it is |
| Text.TrimEmpty | Telegram/SourceFiles/api/api_text_entities.cpp:263-266 | trimming yields the empty text exactly when the text is all white space (both directions) |
| Text.TrimIdempotent | Telegram/SourceFiles/api/api_sending.cpp:272 | trimming a trimmed text changes nothing |
| Text.StartsWith | Telegram/SourceFiles/api/api_sending.cpp:174 | a text starts with a prefix exactly when it is that prefix followed by the rest of the text |
| Text.LowerAscii | Telegram/SourceFiles/api/api_text_entities.cpp:267-268 | an upper-case ASCII letter becomes its own lower-case letter (code point plus 32) and every other character is kept |
| Text.TakeLine | Telegram/SourceFiles/api/api_text_entities.cpp:267-268 | the result is the longest prefix without a line feed: what `.+` can capture |
| TextEntities.InputMentionData | Telegram/SourceFiles/api/api_text_entities.cpp:158-173 | an input mention of an empty user or a user from a message gets the empty payload |
| TextEntities.LoadedAccessHash | Telegram/SourceFiles/api/api_text_entities.cpp:142-146 | a loaded user's access hash, and 0 for a user the session has not loaded |
| TextEntities.DecodeEntity | Telegram/SourceFiles/api/api_text_entities.cpp:74-223 | a decoded entity keeps offset and length and has its variant's kind; unknown, phone and bank-card entities are dropped; every other variant except the two mention-name ones is always kept; with no session mention-names are dropped, and so is an input mention of a user that is neither self nor a plain user; Pre keeps its language and TextUrl its address |
| TextEntities.EntitiesFromMTP | Telegram/SourceFiles/api/api_text_entities.cpp:64-226 | the loop's result is the filter-map of the wire list by DecodeEntity, and an empty input gives an empty result |
| TextEntities.CustomEmojiEntity | Telegram/SourceFiles/api/api_text_entities.cpp:29-41 | nothing is sent exactly when the payload does not parse to a document id; otherwise a custom emoji with a non-zero id and the same offset and length |
| TextEntities.MentionNameEntity | Telegram/SourceFiles/api/api_text_entities.cpp:43-60 | an entity is sent exactly when the payload names a user and was made by this session's user; the target is inputUserSelf exactly when that user is oneself, otherwise the payload's user and access hash |
| TextEntities.UserLinkQuery | Telegram/SourceFiles/api/api_text_entities.cpp:267-274 | a match requires the caseless `tg://user?` prefix and yields a non-empty query without line feeds, which is the text right after the prefix; conversely every text with that prefix followed by a character other than a line feed matches, and the query runs up to the first line feed |
| TextEntities.UserLinkId | Telegram/SourceFiles/api/api_text_entities.cpp:263-281 | a user id is found only for a trimmed link that matches, and it is the numeric value of that link's `id` parameter; conversely a matching link with a non-empty `id` parameter yields exactly what toLongLong makes of it |
| TextEntities.LinkInputUser | Telegram/SourceFiles/api/api_text_entities.cpp:262-290 | a link resolves to inputUserSelf exactly when it names oneself, to a loaded user with its access hash, and to inputUserEmpty exactly when there is no id or the id is neither oneself nor loaded |
| TextEntities.EncodeEntity | Telegram/SourceFiles/api/api_text_entities.cpp:234-360 | an entity is sent only with positive length, keeping offset and length; under SkipLocal only server-side kinds, as server-side variants; Invalid and Semibold never; the variant decodes back to the same kind except a custom URL sent as a mention; every kind except mention-name and custom emoji is sent when length and option allow |
| TextEntities.EntitiesToMTP | Telegram/SourceFiles/api/api_text_entities.cpp:228-363 | the loop's result is the filter-map of the in-memory list by EncodeEntity |
| TextEntities.DecodeAllKinds | Telegram/SourceFiles/api/api_text_entities.cpp:73-224 | decoding never yields Invalid or Semibold, and without a session never a mention-name |
| TextEntities.EncodeAllWellFormed | Telegram/SourceFiles/api/api_text_entities.cpp:234-252 | every sent entity has positive length, and under SkipLocal is a server-side wire variant |
| TextEntities.FormattingEntityRoundTrip | Telegram/SourceFiles/api/api_text_entities.cpp:322-350 | a formatting entity of positive length is sent and decodes back to itself: same kind, offset, length, and for Pre the language |
| TextEntities.FormattingRoundTrip | Telegram/SourceFiles/api/api_text_entities.cpp:232-362 | a list of formatting entities of positive length survives encode-then-decode unchanged, in order |
| TextEntities.FormattingPush | Telegram/SourceFiles/api/api_text_entities.cpp:232-362 | appending a formatting entity appends it to the encode-then-decode result |
| TextEntities.SkipLocalRoundTripKinds | Telegram/SourceFiles/api/api_text_entities.cpp:238-252 | after a SkipLocal encode and a decode only server-side kinds remain: mentions, hashtags, cashtags, bot commands, e-mails and bare URLs are gone |
| TextEntities.ServerSideWireDecodes | Telegram/SourceFiles/api/api_text_entities.cpp:73-224 | decoding server-side wire variants yields server-side kinds only |
| TextEntities.WireEntityRoundTrip | Telegram/SourceFiles/api/api_text_entities.cpp:210-216 | a wire formatting entity, or a custom emoji with a document id, decodes and encodes back to itself |
| TextEntities.WireRoundTrip | Telegram/SourceFiles/api/api_text_entities.cpp:64-226 | a list of such wire entities comes back unchanged from decode-then-encode |
| TextEntities.MentionNameRoundTrip | Telegram/SourceFiles/api/api_text_entities.cpp:137-153 | a received mention of a user is sent back as an input mention of the same user: inputUserSelf for oneself, otherwise with the access hash known when it was received |
| TextEntities.InputMentionNameRoundTrip | Telegram/SourceFiles/api/api_text_entities.cpp:154-181 | an input mention of oneself or of another user comes back unchanged from decode-then-encode |
| TextEntities.ForeignMentionDropped | Telegram/SourceFiles/api/api_text_entities.cpp:48-51 | a mention-name payload made by another account is never sent |
| TextEntities.UnparsedCustomEmojiDropped | Telegram/SourceFiles/api/api_text_entities.cpp:351-358 | a custom emoji whose payload does not parse is dropped rather than sent |
| TextEntities.CustomUrlEncoding | Telegram/SourceFiles/api/api_text_entities.cpp:260-296 | a custom URL naming oneself is sent as a mention of inputUserSelf, one naming a loaded user as a mention with its access hash, and any other as a text URL with the untrimmed address |
| TextEntities.UserLinkExampleId | Telegram/SourceFiles/api/api_text_entities.cpp:267-281 | `tg://user?id=12345`, in either letter case of scheme and host, names user 12345 |
| TextEntities.UserLinkQueryExample | Telegram/SourceFiles/api/api_text_entities.cpp:267-274 | the query captured from that link is `id=12345` |
| TextEntities.UserLinkExample | Telegram/SourceFiles/api/api_text_entities.cpp:282-295 | that link becomes a mention of user 12345 when the user is loaded, and the literal text URL when not |
| SendFlags.PostFlags | Telegram/SourceFiles/api/api_sending.cpp:41-64 | only resolver flags; Silent exactly when silent; HasFromId exactly when not anonymous or sending as a peer, and then no Post, HasViews or HasPostAuthor; Post exactly for an anonymous non-megagroup post without send-as; HasViews exactly for such a post that is not scheduled; HasPostAuthor exactly when HasViews and the channel signs |
| SendFlags.InnerFillMessagePostFlags | Telegram/SourceFiles/api/api_sending.cpp:41-64 | the early-returning procedure ORs exactly the post flags into the given flags, clearing none |
| SendFlags.FillMessagePostFlags | Telegram/SourceFiles/api/api_sending.cpp:387-392 | the same flags for a send action's options; the given flags are kept |
| SendFlags.ReplyScheduleFlags | Telegram/SourceFiles/api/api_sending.cpp:131-138 | HasReplyInfo exactly for a reply, IsOrWasScheduled exactly for a scheduled send, ShortcutMessage exactly for a shortcut message, and nothing else |
| SendFlags.MediaLocalFlags | Telegram/SourceFiles/api/api_sending.cpp:92-138 | the local flags of an existing-media or dice send are NewMessageFlags plus the post flags plus the reply, schedule and shortcut flags |
| SendFlags.MediaWireFlags | Telegram/SourceFiles/api/api_sending.cpp:93-138 | each request flag is set exactly when its trigger holds (reply, silent, send-as, schedule, shortcut, non-empty entities), and the draft is never cleared by the request |
| SendFlags.ComposeMediaSendFlags | Telegram/SourceFiles/api/api_sending.cpp:92-138 | the step-by-step computation gives exactly those local and request flags |
| SendFlags.LocalFlagsMatchRequestFlags | Telegram/SourceFiles/api/api_sending.cpp:94-138 | reply, schedule and shortcut are set locally exactly when their request flag is; the local Silent holds exactly when the request is silent or NewMessageFlags set it |
| SendFlags.MessageFromId | Telegram/SourceFiles/api/api_sending.cpp:104-109 | the sender is the send-as peer when one is chosen, nobody (0) for an anonymous post, oneself otherwise |
| SendFlags.FromIdMatchesFlag | Telegram/SourceFiles/api/api_sending.cpp:98-109 | with non-zero ids, the message names a sender exactly when the resolver sets HasFromId |
| SendFlags.PostAuthor | Telegram/SourceFiles/api/api_sending.cpp:113-115 | the post author is one's own name in a broadcast channel and empty elsewhere |
| SendFlags.DiceList | Telegram/SourceFiles/api/api_sending.cpp:279-290 | the configured dice list when set, the hardcoded six otherwise |
| SendFlags.DiceEmoji | Telegram/SourceFiles/api/api_sending.cpp:272-294 | a dice throw is accepted exactly when the trimmed text is one whole emoji, there are no tags and the emoji is in the list; the accepted emoji is the trimmed text |
| SendFlags.TrimPaddedDie | Telegram/SourceFiles/api/api_sending.cpp:272 | a die between a blank and a line feed trims to the bare die |
| SendFlags.DiceExamples | Telegram/SourceFiles/api/api_sending.cpp:272-294 | with the hardcoded list a padded die is thrown and a tagged die is refused |
| SendFlags.ConfiguredDiceExample | Telegram/SourceFiles/api/api_sending.cpp:288-294 | an emoji outside the hardcoded list is refused by default and thrown when the app config lists it |
| SendFlags.ExistingMediaFailure | Telegram/SourceFiles/api/api_sending.cpp:172-186 | a request is repeated only after a 400 error whose type starts with FILE_REFERENCE_ and a refresh that changed the reference; every other failure is reported |
| SendFlags.FailureExamples | Telegram/SourceFiles/api/api_sending.cpp:173-185 | FILE_REFERENCE_EXPIRED with a changed reference retries; an unchanged reference, another code, another case or another error fails |
| SendFlags.IsEditing | Telegram/SourceFiles/api/api_sending.cpp:397-398 | a prepared file is an edit exactly when it is a photo or a plain file and names a message to replace; an audio file never is |
| SendFlags.ConfirmedFileId | Telegram/SourceFiles/api/api_sending.cpp:397-403 | a prepared file lands in the replaced message when editing (not audio, a message to replace) and under the next local id otherwise |
| SendFlags.FileExtraFlags | Telegram/SourceFiles/api/api_sending.cpp:456-472 | HideEdited exactly for a scheduled or shortcut send; MediaIsUnread exactly for audio outside a broadcast channel |
| SendFlags.ConfirmedFileFlags | Telegram/SourceFiles/api/api_sending.cpp:450-472 | a file's flags are the post, reply/schedule and extra flags, plus NewMessageFlags only when not editing |
| SendFlags.ComposeConfirmedFileFlags | Telegram/SourceFiles/api/api_sending.cpp:450-472 | the step-by-step computation of SendConfirmedFile gives exactly those flags |
| SendFlags.EditFlagsOmitNewMessageFlags | Telegram/SourceFiles/api/api_sending.cpp:450 | an edit carries none of NewMessageFlags' own flags (outgoing, being sent, local) |
| SendFlags.NewFileFlagsExtendEditFlags | Telegram/SourceFiles/api/api_sending.cpp:450-472 | the flags of a new file message are exactly the flags the same file would get as an edit, together with NewMessageFlags |
| SendFlags.AlbumIndex | Telegram/SourceFiles/api/api_sending.cpp:406-410 | the position of the first album item of the upload task |
| SendFlags.StampAlbum | Telegram/SourceFiles/api/api_sending.cpp:405-413 | exactly the first item of the task learns the new message id; the album keeps its length, task ids and every other message id |
| SendFlags.FindAlbumItem | Telegram/SourceFiles/api/api_sending.cpp:406-410 | the search loop finds the first item of the task, which the Assert guarantees exists |
| SendFlags.LocationSendFlags | Telegram/SourceFiles/api/api_sending.cpp:581-604 | a location request has reply, clear-draft, send-as, silent and schedule flags exactly when their triggers hold, and never entities or a shortcut |
| SendFlags.LocationTopicRoot | Telegram/SourceFiles/api/api_sending.cpp:585-587 | drafts are cleared in the replied-to topic for a reply and in the main chat otherwise |
| Sending.NewLocalItem | Telegram/SourceFiles/api/api_sending.cpp:142-150 | a new local message has the given id, flags (so its edit mark is hidden exactly when they hold HideEdited), caption and media, no counters and no previous media |
| Sending.ApplyEdition | Telegram/SourceFiles/api/api_sending.cpp:529-542 | an edition sets media and caption, saves the previous media, sets or clears the HideEdited flag as asked while keeping every other flag, and keeps views, forwards, markup, replies, reactions and identity |
| Sending.SendsInOrderConcat | Telegram/SourceFiles/api/api_sending.cpp:140-188 | two logs whose requests were prepared before being sent make such a log when joined |
| Sending.SendsInOrderResend | Telegram/SourceFiles/api/api_sending.cpp:176-178 | repeating a logged request, rebuilt with the same random id for the same message, keeps every request prepared before it is sent |
| Sending.SendEvents | Telegram/SourceFiles/api/api_sending.cpp:82-192 | a media send logs, in this order, the action, the registration of its random id for the new message, the local insertion of that message and the request; a fifth event, the end of forwarding for the action, follows exactly when the send is not part of a forwarding |
| Sending.SendEventsInOrder | Telegram/SourceFiles/api/api_sending.cpp:140-188 | in that log the random id is registered before the message is added, and that before the request is sent |
| Sending.MediaAction | Telegram/SourceFiles/api/api_sending.cpp:80-81 | a media send never clears the draft and always generates a local message; peer, options and reply are kept |
| Sending.SendingAlbum.Stamp | Telegram/SourceFiles/api/api_sending.cpp:405-413 | the album's items become StampAlbum of the old ones |
| Sending.FileMedia | Telegram/SourceFiles/api/api_sending.cpp:483-527 | a photo with its spoiler flag, a document with its spoiler flag, or audio with its voice flag and time-to-live |
| Sending.ConvertedReplyTo | Telegram/SourceFiles/api/api_sending.cpp:421-429 | both the replied-to id and the topic root are converted for forum topics |
| Sending.Session.MediaItem | Telegram/SourceFiles/api/api_sending.cpp:142-150 | the local message of a media send has the media local flags, the sender from MessageFromId, the post author, the reply, the shortcut, the given caption and media, and no album group |
| Sending.Session.MediaRequestOf | Telegram/SourceFiles/api/api_sending.cpp:152-170 | the request has the media request flags for its entities, the peer, the random id, the media, the caption text, the reply, the entities, the schedule date, the send-as peer and the shortcut |
| Sending.Session.SendExistingMedia | Telegram/SourceFiles/api/api_sending.cpp:66-193 | the new id is the given local id or the next one; the random id is registered for it; the request carries the SkipLocal-encoded caption entities while the local message keeps the trimmed caption with its in-memory entities; the log is the ordered media-send log; the invariant is kept |
| Sending.Session.RecordSend | Telegram/SourceFiles/api/api_sending.cpp:140-192 | the table, the map and the log grow by exactly one registration, one message and the media-send log, keeping the invariant |
| Sending.Session.ExistingMediaFailed | Telegram/SourceFiles/api/api_sending.cpp:160-186 | as ExistingMediaFailure decides, a failure either sends the request again rebuilt with the refreshed media (a stored document or photo now carries the refreshed file reference) or logs the failure for its random id; the reference compared is the media's when the error arrives, which may already differ from the one the request carried; only the log changes and the invariant is kept |
| Sending.RefreshedMedia | Telegram/SourceFiles/api/api_sending.cpp:163 | calling inputMedia() again after a refresh gives a stored document or photo the refreshed file reference and leaves every other media as it was |
| Sending.Session.SendWebDocument | Telegram/SourceFiles/api/api_sending.cpp:197-217 | an existing-media send of the external document URL (inputMediaDocumentExternal): the new id is the given local id or the next one; the request is the media request of the action with that media, the trimmed caption and its sendable entities, so its flags are the media send's request flags; the message map gains exactly that id, holding the local item with the media send's flags, sender, post author, caption and media; the random id is registered for the new id; the log gains the send's events |
| Sending.Session.SendExistingDocument | Telegram/SourceFiles/api/api_sending.cpp:219-244 | an existing-media send of the document named with its current file reference (inputMediaDocument): the new id is the given local id or the next one; the request is the media request of the action with that media, the trimmed caption and its sendable entities, so its flags are the media send's request flags; the message map gains exactly that id, holding the local item with the media send's flags, sender, post author, caption and media; the random id is registered for the new id; the log gains the send's events, followed by a sticker-use event exactly for a sticker |
| Sending.Session.SendExistingPhoto | Telegram/SourceFiles/api/api_sending.cpp:246-266 | an existing-media send of the photo named with its current file reference (inputMediaPhoto): the new id is the given local id or the next one; the request is the media request of the action with that media, the trimmed caption and its sendable entities, so its flags are the media send's request flags; the message map gains exactly that id, holding the local item with the media send's flags, sender, post author, caption and media; the random id is registered for the new id; the log gains the send's events |
| Sending.Session.SendDice | Telegram/SourceFiles/api/api_sending.cpp:268-385 | accepted exactly when DiceEmoji accepts; a refusal changes nothing; an acceptance clears the text, registers the random id, adds a dice message with the media flags and sends the dice request in order |
| Sending.Session.DiceFailed | Telegram/SourceFiles/api/api_sending.cpp:378-380 | every dice failure is reported, keeping the invariant |
| Sending.Session.FileEventsSafe | Telegram/SourceFiles/api/api_sending.cpp:431-567 | placing a file sends no request, registers no random id, and reports only its own message as added |
| Sending.Session.StoredFileFrame | Telegram/SourceFiles/api/api_sending.cpp:529-554 | storing a file adds or replaces only the message under its own id and leaves every other message as it was |
| Sending.Session.StoredFileFacts | Telegram/SourceFiles/api/api_sending.cpp:474-554 | an edition keeps counters, saves the old media, hides the edit mark exactly when the resolved flags hold HideEdited and keeps the other flags; a new message has no counters, the resolved file flags, the album's group id, the file's reply, the sender from MessageFromId and the post author from PostAuthor; both show the file and caption |
| Sending.Session.SendConfirmedFile | Telegram/SourceFiles/api/api_sending.cpp:394-568 | the id is ConfirmedFileId; a new file's reply is converted while an edit's is kept; the album is stamped; the random-id table is unchanged; the message is edited or added as StoredFile says; the log is upload, action, edition or insertion, and notifications only for a new file |
| Sending.Session.PlaceFile | Telegram/SourceFiles/api/api_sending.cpp:431-567 | after the reply conversion: the stored messages and the file log, keeping the invariant |
| Sending.Session.StoreFileItem | Telegram/SourceFiles/api/api_sending.cpp:415-554 | an existing message is edited exactly when editing and the session has it; otherwise a new message is added |
| Sending.Session.ResolveFileFlags | Telegram/SourceFiles/api/api_sending.cpp:450-472 | the file's flags are ConfirmedFileFlags for the session's NewMessageFlags and ShouldSendSilent |
| Sending.Session.SendLocationPoint | Telegram/SourceFiles/api/api_sending.cpp:570-638 | the request has the location flags, the peer, the reply, a geo point, no text, entities or shortcut; the log is the action, draft clearing of the topic only when asked, then the request |

## Left out

- Transport, uploader and update application (`sendPreparedMessage`, `api->request`, `uploader().upload`, `applyUpdates`, `refreshFileReference`) are not modelled. They appear only as events in the log, and the refreshed file reference is a parameter.
- `HistoryItem::applyEdition` and `History::addNewLocalMessage` are not part of this model. The model assumes that an edition replaces media and caption, saves the previous media when asked, sets or clears `HideEdited` as `isEditHide` says and keeps the other flags, the counters it is told to keep and the message's identity; and that a new local message holds exactly the fields it is given, with no counters and no previous media.
- `doneCallback`, `done` and `fail` callbacks: not modelled. Their code is not part of this model.
- Sending.Session.ExistingMediaFailed: one failure is handled per call. The source repeats the request with no bound, so no bound on retries is claimed.
- Random ids: collisions of `base::RandomValue` are not modelled. Registration overwrites the table entry, as a map does.
- `nextLocalMessageId` is a parameter, so the model does not prove that local ids are fresh.
- Message dates (`NewMessageDate`), `editDate` and `ttl` of an edition, and the MTP media objects are not modelled. A message's media is a small datatype. The voice flag of audio is a boolean, because the scan of the document's attributes only yields that boolean.
- Location coordinates (doubles) are not modelled.
- Replies to stories and quotes are not modelled: a reply is "set" when it names a message id.
- `SendMediaType` values other than photo, audio and file are not modelled. The source treats them as unexpected.
- The helper functions named above are not modelled. Their code is not part of this model, and each appears only through the assumptions a lemma requires:
  - `Ui::Emoji::Find`, `ShouldSendSilent`, `NewMessageFlags`, `convertTopicReplyToId`, `ConvertTextTagsToEntities`, `TextUtilities::Trim`/`PrepareForSending`;
  - `MentionNameDataFromFields`/`ToFields`, `SerializeCustomEmojiId`/`ParseCustomEmojiData` (`CustomEmojiEntityData` is the serializer applied to the document id), `url_parse_params`, `toLongLong`.
- `chat_helpers/stickers_dice_pack.h` is not part of this model. The six hardcoded dice are the emoji that its names denote: die, dart, slot machine, football, football with the emoji variation selector, basketball.
- Offsets, lengths and emoji lengths count Dafny characters, not UTF-16 code units. Surrogate pairs are not modelled.
- TextEntities.UserLinkQuery: matches the `tg://user?` prefix with ASCII case folding only. The source's regular expression uses Unicode case-insensitivity, so a link that reaches the prefix only through non-ASCII case folding (LATIN SMALL LETTER LONG S for `s`, for instance) is not modelled.
- The codec's `session` argument is an `Option` for `EntitiesFromMTP`. It is always present for `EntitiesToMTP`, which takes a non-null session.
