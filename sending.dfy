/** The send functions of Api (api_sending.cpp) against a small model of the session they
    write to: the random-id table of the data session, the local history items, and a log of
    what was handed to the rest of the client (send actions, requests, notifications). */
module Sending {
  import opened Wrappers
  import opened TextEntities
  import opened SendFlags

  /** A markup tag of a draft text. */
  datatype TextTag = TextTag(offset: int, length: int, id: string)

  /** TextWithTags: the text of a draft with its markup tags. */
  datatype TextWithTags = TextWithTags(text: string, tags: seq<TextTag>)

  /** TextWithEntities: a text with its entities, as a history item keeps it. */
  datatype TextWithEntities = TextWithEntities(text: string, entities: seq<EntityInText>)

  /** MessageToSend: the send action and the text typed for it. */
  datatype MessageToSend = MessageToSend(action: SendAction, textWithTags: TextWithTags)

  /** MTPInputMedia: what a request asks the server to attach. A stored document or photo is
      named with the file reference its mtpInput() carries. */
  datatype InputMedia =
    | InputMediaDocumentExternal(url: string)
    | InputMediaDocument(documentId: int, fileReference: seq<bv8>)
    | InputMediaPhoto(photoId: int, fileReference: seq<bv8>)
    | InputMediaDice(emoticon: string)
    | InputMediaGeoPoint

  /** Whether the media names a stored file by its file reference. */
  predicate HasFileReference(m: InputMedia) {
    m.InputMediaDocument? || m.InputMediaPhoto?
  }

  /** inputMedia() called again after refreshFileReference: a stored document or photo now
      carries the refreshed reference, and every other media is built as before. */
  function RefreshedMedia(m: InputMedia, reference: seq<bv8>): (r: InputMedia)
    ensures HasFileReference(r) <==> HasFileReference(m)
    ensures HasFileReference(m) ==> r.fileReference == reference && r == m.(fileReference := reference)
    ensures !HasFileReference(m) ==> r == m
  {
    match m
    case InputMediaDocument(documentId, _) => InputMediaDocument(documentId, reference)
    case InputMediaPhoto(photoId, _) => InputMediaPhoto(photoId, reference)
    case _ => m
  }

  /** The media of a local history item. */
  datatype Media =
    | ExistingMedia(input: InputMedia)
    | DiceMedia(emoticon: string)
    | PhotoMedia(spoiler: bool)
    | DocumentMedia(spoiler: bool)
    | AudioMedia(voice: bool, ttlSeconds: int)

  /** The server-side state of a message that an edition may keep: views, forwards, reply
      markup, replies and reactions. */
  datatype Counters = Counters(views: int, forwards: int, markup: int, replies: int, reactions: int)

  /** A local message starts with none of them. */
  const NoCounters := Counters(0, 0, 0, 0, 0)

  /** A history item as this path creates and edits it. */
  datatype HistoryItem = HistoryItem(
    id: MsgId,
    flags: set<MessageFlag>,
    from: PeerId,
    replyTo: FullReplyTo,
    shortcutId: int,
    postAuthor: string,
    groupedId: uint64,
    caption: TextWithEntities,
    media: Media,
    counters: Counters,
    previousMedia: Option<Media>)

  /** The item history->addNewLocalMessage creates. */
  function NewLocalItem(id: MsgId, flags: set<MessageFlag>, from: PeerId, replyTo: FullReplyTo,
                        shortcutId: int, postAuthor: string, groupedId: uint64,
                        caption: TextWithEntities, media: Media): (r: HistoryItem)
    ensures r.counters == NoCounters && r.previousMedia.None?
    ensures r.id == id && r.flags == flags && r.media == media && r.caption == caption
  {
    HistoryItem(id, flags, from, replyTo, shortcutId, postAuthor, groupedId, caption, media,
                NoCounters, None)
  }

  /** applyEdition of SendConfirmedFile: new media and caption, the previous media saved,
      the "edited" badge (the HideEdited flag) set or cleared as asked and every other flag
      kept; views, forwards, markup, replies and reactions are kept, and so is everything
      that identifies the message. */
  function ApplyEdition(item: HistoryItem, caption: TextWithEntities, media: Media, hideEdited: bool)
    : (r: HistoryItem)
    ensures r.counters == item.counters
    ensures r.media == media && r.previousMedia == Some(item.media)
    ensures r.caption == caption
    ensures HideEdited in r.flags <==> hideEdited
    ensures r.flags - {HideEdited} == item.flags - {HideEdited}
    ensures && r.id == item.id && r.from == item.from
            && r.replyTo == item.replyTo && r.shortcutId == item.shortcutId
            && r.postAuthor == item.postAuthor && r.groupedId == item.groupedId
  {
    var flags := if hideEdited then item.flags + {HideEdited} else item.flags - {HideEdited};
    item.(caption := caption, media := media, previousMedia := Some(item.media), flags := flags)
  }

  /** An MTPmessages_SendMedia request. */
  datatype MediaRequest = MediaRequest(
    flags: set<RequestFlag>,
    peer: PeerId,
    replyTo: FullReplyTo,
    media: InputMedia,
    message: string,
    randomId: uint64,
    entities: seq<MessageEntity>,
    scheduleDate: int,
    sendAs: Option<PeerId>,
    shortcutId: int)

  /** Data::HistoryUpdate flags raised for a sent file. */
  datatype HistoryUpdate = MessageSent | ScheduledSent

  /** What the send functions hand to the rest of the client, in order. */
  datatype Event =
    | ActionSent(action: SendAction)
    | RandomIdRegistered(randomId: uint64, id: FullMsgId)
    | LocalMessageAdded(id: FullMsgId)
    | RequestSent(id: FullMsgId, request: MediaRequest)
    | SendFailed(randomId: uint64, id: FullMsgId)
    | ForwardingFinished(action: SendAction)
    | StickerUsed(documentId: int)
    | UploadStarted(id: FullMsgId)
    | MessageEdited(id: FullMsgId)
    | HistoryChangeNotificationsSent
    | HistoryUpdated(peer: PeerId, update: HistoryUpdate)
    | LocalDraftCleared(peer: PeerId, topicRootId: MsgId)
    | CloudDraftCleared(peer: PeerId, topicRootId: MsgId)
    | LocationRequestSent(request: MediaRequest)

  /** The request at position `j` of the log was preceded by the registration of its random id
      for its message and by the local insertion of that message, in that order. */
  ghost predicate PreparedBefore(ev: seq<Event>, j: int)
    requires 0 <= j < |ev| && ev[j].RequestSent?
  {
    exists i, k :: 0 <= i < k < j
      && ev[i] == RandomIdRegistered(ev[j].request.randomId, ev[j].id)
      && ev[k] == LocalMessageAdded(ev[j].id)
  }

  /** Every media request in the log was prepared before it was sent. */
  ghost predicate SendsInOrder(ev: seq<Event>) {
    forall j :: 0 <= j < |ev| && ev[j].RequestSent? ==> PreparedBefore(ev, j)
  }

  /** The session invariant: sends are in order, every locally added message is in the
      message map, every registered random id is in the table. */
  ghost predicate Consistent(ev: seq<Event>, randomIds: map<uint64, FullMsgId>,
                             messages: map<FullMsgId, HistoryItem>) {
    && SendsInOrder(ev)
    && (forall j :: 0 <= j < |ev| && ev[j].LocalMessageAdded? ==> ev[j].id in messages)
    && (forall j :: 0 <= j < |ev| && ev[j].RandomIdRegistered? ==> ev[j].randomId in randomIds)
  }

  /** Two logs in order make a log in order. */
  lemma SendsInOrderConcat(a: seq<Event>, b: seq<Event>)
    requires SendsInOrder(a) && SendsInOrder(b)
    ensures SendsInOrder(a + b)
  {
    var c := a + b;
    forall j | 0 <= j < |c| && c[j].RequestSent? ensures PreparedBefore(c, j) {
      if j < |a| {
        assert c[j] == a[j] && PreparedBefore(a, j);
        var i, k :| 0 <= i < k < j
          && a[i] == RandomIdRegistered(a[j].request.randomId, a[j].id)
          && a[k] == LocalMessageAdded(a[j].id);
        assert c[i] == a[i] && c[k] == a[k];
      } else {
        var m := j - |a|;
        assert c[j] == b[m] && PreparedBefore(b, m);
        var i, k :| 0 <= i < k < m
          && b[i] == RandomIdRegistered(b[m].request.randomId, b[m].id)
          && b[k] == LocalMessageAdded(b[m].id);
        assert c[|a| + i] == b[i] && c[|a| + k] == b[k];
      }
    }
  }

  /** Sending a logged request again, possibly rebuilt but with the same random id for the
      same message, keeps the log in order. */
  lemma SendsInOrderResend(a: seq<Event>, j: int, request: MediaRequest)
    requires SendsInOrder(a) && 0 <= j < |a| && a[j].RequestSent?
    requires request.randomId == a[j].request.randomId
    ensures SendsInOrder(a + [RequestSent(a[j].id, request)])
  {
    var c := a + [RequestSent(a[j].id, request)];
    forall n | 0 <= n < |c| && c[n].RequestSent? ensures PreparedBefore(c, n) {
      var m := if n < |a| then n else j;
      assert c[n].id == a[m].id && c[n].request.randomId == a[m].request.randomId;
      assert PreparedBefore(a, m);
      var i, k :| 0 <= i < k < m
        && a[i] == RandomIdRegistered(a[m].request.randomId, a[m].id)
        && a[k] == LocalMessageAdded(a[m].id);
      assert c[i] == a[i] && c[k] == a[k];
    }
  }

  /** The log of one media send: the action, the random id, the local message, the request,
      and the end of forwarding unless the send is part of one. */
  function SendEvents(action: SendAction, randomId: uint64, id: FullMsgId, request: MediaRequest,
                      forwarding: bool): (r: seq<Event>)
    requires request.randomId == randomId
    ensures |r| == if forwarding then 4 else 5
    ensures && r[0] == ActionSent(action) && r[1] == RandomIdRegistered(randomId, id)
            && r[2] == LocalMessageAdded(id) && r[3] == RequestSent(id, request)
    ensures !forwarding ==> r[4] == ForwardingFinished(action)
  {
    [ActionSent(action), RandomIdRegistered(randomId, id), LocalMessageAdded(id), RequestSent(id, request)]
    + (if forwarding then [] else [ForwardingFinished(action)])
  }

  /** In the log of one media send, the random id is registered before the local message is
      added, and that before the request goes out. */
  lemma SendEventsInOrder(action: SendAction, randomId: uint64, id: FullMsgId, request: MediaRequest,
                          forwarding: bool)
    requires request.randomId == randomId
    ensures SendsInOrder(SendEvents(action, randomId, id, request, forwarding))
  {
    var r := SendEvents(action, randomId, id, request, forwarding);
    forall j | 0 <= j < |r| && r[j].RequestSent? ensures PreparedBefore(r, j) {
      assert j == 3;
      assert r[1] == RandomIdRegistered(r[3].request.randomId, r[3].id);
      assert r[2] == LocalMessageAdded(r[3].id);
    }
  }

  /** Appending a log that is in order, adds only messages and random ids that are there,
      and comes with a table and a map that only grew, keeps the session consistent. */
  lemma ConsistentExtend(ev: seq<Event>, randomIds: map<uint64, FullMsgId>,
                         messages: map<FullMsgId, HistoryItem>, added: seq<Event>,
                         randomIds': map<uint64, FullMsgId>, messages': map<FullMsgId, HistoryItem>)
    requires Consistent(ev, randomIds, messages)
    requires randomIds.Keys <= randomIds'.Keys && messages.Keys <= messages'.Keys
    requires SendsInOrder(added)
    requires forall j :: 0 <= j < |added| && added[j].LocalMessageAdded? ==> added[j].id in messages'
    requires forall j :: 0 <= j < |added| && added[j].RandomIdRegistered? ==> added[j].randomId in randomIds'
    ensures Consistent(ev + added, randomIds', messages')
  {
    SendsInOrderConcat(ev, added);
    var c := ev + added;
    forall j | 0 <= j < |c| && c[j].LocalMessageAdded? ensures c[j].id in messages' {
      if j < |ev| { assert c[j] == ev[j]; } else { assert c[j] == added[j - |ev|]; }
    }
    forall j | 0 <= j < |c| && c[j].RandomIdRegistered? ensures c[j].randomId in randomIds' {
      if j < |ev| { assert c[j] == ev[j]; } else { assert c[j] == added[j - |ev|]; }
    }
  }

  /** The services the send functions call whose code is not part of this model. */
  datatype Services = Services(
    /** ShouldSendSilent. */
    shouldSendSilent: (Peer, SendOptions) -> bool,
    /** NewMessageFlags. */
    newMessageFlags: Peer -> set<MessageFlag>,
    /** ConvertTextTagsToEntities followed by TextUtilities::Trim. */
    captionEntities: TextWithTags -> TextWithEntities,
    /** The same with TextUtilities::PrepareForSending between, for a file caption. */
    fileCaption: (Peer, TextWithTags) -> TextWithEntities,
    /** Histories::convertTopicReplyToId. */
    convertTopicReplyToId: (PeerId, MsgId) -> MsgId,
    /** Ui::Emoji::Find: the length of the emoji a text starts with. */
    findEmoji: string -> Option<nat>,
    /** The "emojies_send_dice" list of the app config, when set. */
    diceConfig: Option<seq<string>>)

  /** The action a media send reports and sends with: no draft clearing, a local message. */
  function MediaAction(action: SendAction): (r: SendAction)
    ensures !r.clearDraft && r.generateLocal
    ensures r.peer == action.peer && r.options == action.options && r.replyTo == action.replyTo
  {
    action.(clearDraft := false, generateLocal := true)
  }

  /** FileLoadTo: where a prepared file goes. */
  datatype FileLoadTo = FileLoadTo(peer: Peer, options: SendOptions, replyTo: FullReplyTo,
                                   replaceMediaOf: MsgId)

  /** SendingAlbum: a group of files sent together; each item learns the message it became. */
  class SendingAlbum {
    const groupId: uint64
    var items: seq<AlbumItem>

    constructor(groupId: uint64, items: seq<AlbumItem>)
      ensures this.groupId == groupId && this.items == items
    {
      this.groupId := groupId;
      this.items := items;
    }

    /** Gives the first item of upload task `taskId` the message it became. */
    method Stamp(taskId: int, id: FullMsgId)
      requires HasTask(items, taskId)
      modifies this
      ensures items == StampAlbum(old(items), taskId, id)
    {
      var k := FindAlbumItem(items, taskId);
      items := items[k := items[k].(msgId := id)];
    }
  }

  /** FilePrepareResult: an uploaded file ready to be placed in a message. */
  class FilePrepareResult {
    const taskId: int
    const fileType: SendMediaType
    const caption: TextWithTags
    const spoiler: bool
    /** Whether the document carries an audio attribute with the voice flag. */
    const isVoice: bool
    const album: SendingAlbum?
    var to: FileLoadTo

    constructor(taskId: int, fileType: SendMediaType, caption: TextWithTags, spoiler: bool,
                isVoice: bool, album: SendingAlbum?, to: FileLoadTo)
      ensures this.taskId == taskId && this.fileType == fileType && this.caption == caption
      ensures this.spoiler == spoiler && this.isVoice == isVoice && this.album == album
      ensures this.to == to
    {
      this.taskId := taskId;
      this.fileType := fileType;
      this.caption := caption;
      this.spoiler := spoiler;
      this.isVoice := isVoice;
      this.album := album;
      this.to := to;
    }
  }

  /** The media of the local message for a prepared file. */
  function FileMedia(fileType: SendMediaType, spoiler: bool, isVoice: bool, ttlSeconds: int)
    : (r: Media)
    ensures fileType == Photo ==> r == PhotoMedia(spoiler)
    ensures fileType == File ==> r == DocumentMedia(spoiler)
    ensures fileType == Audio ==> r == AudioMedia(isVoice, ttlSeconds)
  {
    match fileType
    case Photo => PhotoMedia(spoiler)
    case File => DocumentMedia(spoiler)
    case Audio => AudioMedia(isVoice, ttlSeconds)
  }

  /** The reply of a new (not edited) prepared file, with both ids converted for forum
      topics. */
  function ConvertedReplyTo(convert: (PeerId, MsgId) -> MsgId, peer: PeerId, replyTo: FullReplyTo)
    : (r: FullReplyTo)
    ensures r.messageId == convert(peer, replyTo.messageId)
    ensures r.topicRootId == convert(peer, replyTo.topicRootId)
  {
    FullReplyTo(convert(peer, replyTo.messageId), convert(peer, replyTo.topicRootId))
  }

  /** The main session: its user, the services it calls, and the state the send functions
      write: the random-id table, the local messages and the log. */
  class Session {
    const selfPeerId: PeerId
    const selfName: string
    const services: Services
    const entitySession: SessionData
    const helpers: Helpers
    var randomIds: map<uint64, FullMsgId>
    var messages: map<FullMsgId, HistoryItem>
    var events: seq<Event>

    ghost predicate Valid()
      reads this
    {
      Consistent(events, randomIds, messages)
    }

    constructor(selfPeerId: PeerId, selfName: string, services: Services,
                entitySession: SessionData, helpers: Helpers)
      ensures Valid()
      ensures this.selfPeerId == selfPeerId && this.selfName == selfName
      ensures this.services == services && this.entitySession == entitySession
      ensures this.helpers == helpers
      ensures randomIds == map[] && messages == map[] && events == []
    {
      this.selfPeerId := selfPeerId;
      this.selfName := selfName;
      this.services := services;
      this.entitySession := entitySession;
      this.helpers := helpers;
      randomIds := map[];
      messages := map[];
      events := [];
    }

    /** ShouldSendSilent for an action. */
    function Silent(action: SendAction): bool {
      services.shouldSendSilent(action.peer, action.options)
    }

    /** The flags of a media send of this session. */
    function MediaFlags(action: SendAction, hasEntities: bool): SendFlagSets
      requires ChannelIfAnonymous(action.peer)
    {
      MediaSendFlags(services.newMessageFlags(action.peer), action, Silent(action), hasEntities)
    }

    /** The local message of a media send of this session. */
    function MediaItem(action: SendAction, id: MsgId, caption: TextWithEntities, media: Media,
                       hasEntities: bool): (r: HistoryItem)
      requires ChannelIfAnonymous(action.peer)
      ensures r.flags == MediaFlags(action, hasEntities).local
      ensures r.from == MessageFromId(action.peer, action.options.sendAs, selfPeerId)
      ensures r.postAuthor == PostAuthor(action.peer, selfName)
      ensures r.id == id && r.replyTo == action.replyTo && r.groupedId == 0
      ensures r.shortcutId == action.options.shortcutId && r.caption == caption && r.media == media
    {
      NewLocalItem(id, MediaFlags(action, hasEntities).local,
                   MessageFromId(action.peer, action.options.sendAs, selfPeerId), action.replyTo,
                   action.options.shortcutId, PostAuthor(action.peer, selfName), 0, caption, media)
    }

    /** The request of a media send of this session. */
    function MediaRequestOf(action: SendAction, media: InputMedia, text: string, randomId: uint64,
                            entities: seq<MessageEntity>): (r: MediaRequest)
      requires ChannelIfAnonymous(action.peer)
      ensures r.flags == MediaFlags(action, entities != []).wire
      ensures r.peer == action.peer.id && r.randomId == randomId && r.entities == entities
      ensures r.scheduleDate == action.options.scheduled && r.sendAs == action.options.sendAs
      ensures r.media == media && r.message == text && r.replyTo == action.replyTo
      ensures r.shortcutId == action.options.shortcutId
    {
      MediaRequest(MediaFlags(action, entities != []).wire, action.peer.id, action.replyTo, media,
                   text, randomId, entities, action.options.scheduled, action.options.sendAs,
                   action.options.shortcutId)
    }

    /** SendExistingMedia: reports the action, registers the random id for the new message,
        adds the local message with the caption, sends the request, and finishes forwarding
        unless this send is part of one. `nextLocalId` is what nextLocalMessageId would give
        and `randomId` what RandomValue would. */
    method SendExistingMedia(message: MessageToSend, media: InputMedia,
                             localMessageId: Option<MsgId>, nextLocalId: MsgId, randomId: uint64,
                             forwarding: bool)
      returns (newId: FullMsgId, request: MediaRequest)
      requires Valid() && ChannelIfAnonymous(message.action.peer)
      modifies this
      ensures Valid()
      ensures newId == FullMsgId(message.action.peer.id, localMessageId.GetOr(nextLocalId))
      ensures var action := MediaAction(message.action);
        var caption := services.captionEntities(message.textWithTags);
        var entities := EncodeAll(entitySession, helpers, caption.entities, SkipLocal);
        && request == MediaRequestOf(action, media, caption.text, randomId, entities)
        && messages == old(messages)[newId := MediaItem(action, newId.msg, caption,
                                                        ExistingMedia(media), entities != [])]
        && events == old(events) + SendEvents(action, randomId, newId, request, forwarding)
      ensures randomIds == old(randomIds)[randomId := newId]
    {
      var action := MediaAction(message.action);
      newId := FullMsgId(action.peer.id, if localMessageId.Some? then localMessageId.value else nextLocalId);
      var peer := action.peer;
      var silentPost := services.shouldSendSilent(peer, action.options);
      var caption := services.captionEntities(message.textWithTags);
      var sentEntities := EntitiesToMTP(entitySession, helpers, caption.entities, SkipLocal);
      var flags, sendFlags := ComposeMediaSendFlags(services.newMessageFlags(peer), action, silentPost,
                                                    sentEntities != []);
      var messageFromId := MessageFromId(peer, action.options.sendAs, selfPeerId);
      var messagePostAuthor := PostAuthor(peer, selfName);
      var item := NewLocalItem(newId.msg, flags, messageFromId, action.replyTo, action.options.shortcutId,
                               messagePostAuthor, 0, caption, ExistingMedia(media));
      assert item == MediaItem(action, newId.msg, caption, ExistingMedia(media), sentEntities != []);
      request := MediaRequest(sendFlags, peer.id, action.replyTo, media, caption.text, randomId,
                              sentEntities, action.options.scheduled, action.options.sendAs,
                              action.options.shortcutId);
      RecordSend(action, randomId, newId, item, request, forwarding);
    }

    /** What every media send does once its message and request are ready: report the action,
        register the random id for the message, add the local message, send the request, and
        finish forwarding unless the send is part of one. */
    method RecordSend(action: SendAction, randomId: uint64, newId: FullMsgId, item: HistoryItem,
                      request: MediaRequest, forwarding: bool)
      requires Valid() && request.randomId == randomId
      modifies this
      ensures Valid()
      ensures randomIds == old(randomIds)[randomId := newId]
      ensures messages == old(messages)[newId := item]
      ensures events == old(events) + SendEvents(action, randomId, newId, request, forwarding)
    {
      events := events + [ActionSent(action)];
      randomIds := randomIds[randomId := newId];
      events := events + [RandomIdRegistered(randomId, newId)];
      messages := messages[newId := item];
      events := events + [LocalMessageAdded(newId)];
      events := events + [RequestSent(newId, request)];
      if !forwarding {
        events := events + [ForwardingFinished(action)];
      }
      var added := SendEvents(action, randomId, newId, request, forwarding);
      assert events == old(events) + added;
      SendEventsInOrder(action, randomId, newId, request, forwarding);
      ConsistentExtend(old(events), old(randomIds), old(messages), added, randomIds, messages);
    }

    /** The failure handler of an existing-media request: the request is rebuilt with the
        refreshed media and sent again when the error is a stale file reference that the
        refresh changed, and the failure is reported otherwise. `used` is the media's file
        reference when the error arrives, which differs from the one the request carries when
        the media was refreshed elsewhere in between; `refreshed` is its reference after
        refreshFileReference. */
    method ExistingMediaFailed(id: FullMsgId, request: MediaRequest, code: int, errorType: string,
                               used: seq<bv8>, refreshed: seq<bv8>)
      returns (outcome: FailureOutcome)
      requires Valid()
      requires RequestSent(id, request) in events
      modifies this`events
      ensures Valid()
      ensures outcome == ExistingMediaFailure(code, errorType, used, refreshed)
      ensures outcome == Retry ==>
        events == old(events) + [RequestSent(id, request.(media := RefreshedMedia(request.media, refreshed)))]
      ensures outcome == Fail ==> events == old(events) + [SendFailed(request.randomId, id)]
    {
      outcome := Fail;
      if code == 400 && Text.StartsWith(errorType, "FILE_REFERENCE_") {
        if refreshed != used {
          outcome := Retry;
        }
      }
      var j :| 0 <= j < |events| && events[j] == RequestSent(id, request);
      if outcome == Retry {
        var repeated := request.(media := RefreshedMedia(request.media, refreshed));
        SendsInOrderResend(events, j, repeated);
        ConsistentExtend(events, randomIds, messages, [], randomIds, messages);
        events := events + [RequestSent(id, repeated)];
      } else {
        ConsistentExtend(events, randomIds, messages, [SendFailed(request.randomId, id)], randomIds, messages);
        events := events + [SendFailed(request.randomId, id)];
      }
    }

    /** SendWebDocument: an existing-media send of a document by its URL. */
    method SendWebDocument(message: MessageToSend, url: string, localMessageId: Option<MsgId>,
                           nextLocalId: MsgId, randomId: uint64, forwarding: bool)
      returns (newId: FullMsgId, request: MediaRequest)
      requires Valid() && ChannelIfAnonymous(message.action.peer)
      modifies this
      ensures Valid()
      ensures newId == FullMsgId(message.action.peer.id, localMessageId.GetOr(nextLocalId))
      ensures var action := MediaAction(message.action);
        var caption := services.captionEntities(message.textWithTags);
        var entities := EncodeAll(entitySession, helpers, caption.entities, SkipLocal);
        && request == MediaRequestOf(action, InputMediaDocumentExternal(url), caption.text, randomId, entities)
        && messages == old(messages)[newId := MediaItem(action, newId.msg, caption,
                                                        ExistingMedia(InputMediaDocumentExternal(url)), entities != [])]
      ensures randomIds == old(randomIds)[randomId := newId]
      ensures events == old(events) + SendEvents(MediaAction(message.action), randomId, newId, request, forwarding)
    {
      newId, request := SendExistingMedia(message, InputMediaDocumentExternal(url), localMessageId,
                                          nextLocalId, randomId, forwarding);
    }

    /** SendExistingDocument: an existing-media send of a stored document; a sticker also
        counts as recently used. */
    method SendExistingDocument(message: MessageToSend, documentId: int, fileReference: seq<bv8>,
                                isSticker: bool,
                                localMessageId: Option<MsgId>, nextLocalId: MsgId,
                                randomId: uint64, forwarding: bool)
      returns (newId: FullMsgId, request: MediaRequest)
      requires Valid() && ChannelIfAnonymous(message.action.peer)
      modifies this
      ensures Valid()
      ensures newId == FullMsgId(message.action.peer.id, localMessageId.GetOr(nextLocalId))
      ensures var action := MediaAction(message.action);
        var caption := services.captionEntities(message.textWithTags);
        var entities := EncodeAll(entitySession, helpers, caption.entities, SkipLocal);
        && request == MediaRequestOf(action, InputMediaDocument(documentId, fileReference), caption.text, randomId, entities)
        && messages == old(messages)[newId := MediaItem(action, newId.msg, caption,
                                                        ExistingMedia(InputMediaDocument(documentId, fileReference)), entities != [])]
      ensures randomIds == old(randomIds)[randomId := newId]
      ensures events == old(events) + SendEvents(MediaAction(message.action), randomId, newId, request, forwarding)
                        + (if isSticker then [StickerUsed(documentId)] else [])
    {
      newId, request := SendExistingMedia(message, InputMediaDocument(documentId, fileReference), localMessageId,
                                          nextLocalId, randomId, forwarding);
      if isSticker {
        ConsistentExtend(events, randomIds, messages, [StickerUsed(documentId)], randomIds, messages);
        events := events + [StickerUsed(documentId)];
      }
    }

    /** SendExistingPhoto: an existing-media send of a stored photo. */
    method SendExistingPhoto(message: MessageToSend, photoId: int, fileReference: seq<bv8>,
                             localMessageId: Option<MsgId>,
                             nextLocalId: MsgId, randomId: uint64, forwarding: bool)
      returns (newId: FullMsgId, request: MediaRequest)
      requires Valid() && ChannelIfAnonymous(message.action.peer)
      modifies this
      ensures Valid()
      ensures newId == FullMsgId(message.action.peer.id, localMessageId.GetOr(nextLocalId))
      ensures var action := MediaAction(message.action);
        var caption := services.captionEntities(message.textWithTags);
        var entities := EncodeAll(entitySession, helpers, caption.entities, SkipLocal);
        && request == MediaRequestOf(action, InputMediaPhoto(photoId, fileReference), caption.text, randomId, entities)
        && messages == old(messages)[newId := MediaItem(action, newId.msg, caption,
                                                        ExistingMedia(InputMediaPhoto(photoId, fileReference)), entities != [])]
      ensures randomIds == old(randomIds)[randomId := newId]
      ensures events == old(events) + SendEvents(MediaAction(message.action), randomId, newId, request, forwarding)
    {
      newId, request := SendExistingMedia(message, InputMediaPhoto(photoId, fileReference), localMessageId,
                                          nextLocalId, randomId, forwarding);
    }

    /** SendDice: a text that is exactly one dice emoji, without tags, is sent as a dice throw
        and the message is cleared; anything else is refused and changes nothing. */
    method SendDice(message: MessageToSend, nextLocalId: MsgId, randomId: uint64, forwarding: bool)
      returns (accepted: bool, sent: MessageToSend, newId: FullMsgId, request: MediaRequest)
      requires Valid() && ChannelIfAnonymous(message.action.peer)
      modifies this
      ensures Valid()
      ensures var emoji := DiceEmoji(message.textWithTags.text, message.textWithTags.tags != [],
                                     services.findEmoji, services.diceConfig);
        accepted <==> emoji.Some?
      ensures !accepted ==> sent == message && unchanged(this)
      ensures accepted ==>
        var emoji := DiceEmoji(message.textWithTags.text, message.textWithTags.tags != [],
                               services.findEmoji, services.diceConfig).value;
        var action := MediaAction(message.action);
        && sent == MessageToSend(action, TextWithTags([], []))
        && newId == FullMsgId(action.peer.id, nextLocalId)
        && request == MediaRequestOf(action, InputMediaDice(emoji), [], randomId, [])
        && randomIds == old(randomIds)[randomId := newId]
        && messages == old(messages)[newId := MediaItem(action, nextLocalId, TextWithEntities([], []),
                                                        DiceMedia(emoji), false)]
        && events == old(events) + SendEvents(action, randomId, newId, request, forwarding)
    {
      sent := message;
      newId := FullMsgId(message.action.peer.id, nextLocalId);
      request := MediaRequest({}, 0, FullReplyTo(0, 0), InputMediaDice([]), [], randomId, [], 0, None, 0);
      var full := Text.Trim(message.textWithTags.text);
      var found := services.findEmoji(full);
      if found.None? || found.value != |full| || message.textWithTags.tags != [] {
        accepted := false;
        return;
      }
      var list := DiceList(services.diceConfig);
      var emoji := full;
      if emoji !in list {
        accepted := false;
        return;
      }
      accepted := true;
      assert emoji == DiceEmoji(message.textWithTags.text, message.textWithTags.tags != [],
                                services.findEmoji, services.diceConfig).value;
      var action := MediaAction(message.action);
      sent := MessageToSend(action, TextWithTags([], []));
      var peer := action.peer;
      var silentPost := services.shouldSendSilent(peer, action.options);
      var flags, sendFlags := ComposeMediaSendFlags(services.newMessageFlags(peer), action, silentPost, false);
      var messageFromId := MessageFromId(peer, action.options.sendAs, selfPeerId);
      var messagePostAuthor := PostAuthor(peer, selfName);
      var item := NewLocalItem(newId.msg, flags, messageFromId, action.replyTo, action.options.shortcutId,
                               messagePostAuthor, 0, TextWithEntities([], []), DiceMedia(emoji));
      assert item == MediaItem(action, nextLocalId, TextWithEntities([], []), DiceMedia(emoji), false);
      request := MediaRequest(sendFlags, peer.id, action.replyTo, InputMediaDice(emoji), [], randomId,
                              [], action.options.scheduled, action.options.sendAs,
                              action.options.shortcutId);
      RecordSend(action, randomId, newId, item, request, forwarding);
    }

    /** The failure handler of a dice request: every failure is reported. */
    method DiceFailed(id: FullMsgId, request: MediaRequest)
      requires Valid()
      modifies this`events
      ensures Valid()
      ensures events == old(events) + [SendFailed(request.randomId, id)]
    {
      ConsistentExtend(events, randomIds, messages, [SendFailed(request.randomId, id)], randomIds, messages);
      events := events + [SendFailed(request.randomId, id)];
    }

    /** The flags of the message for a prepared file going to `to`. */
    function FileFlags(to: FileLoadTo, editing: bool, fileType: SendMediaType): set<MessageFlag>
      requires ChannelIfAnonymous(to.peer)
    {
      ConfirmedFileFlags(editing, services.newMessageFlags(to.peer), to.peer, to.replyTo, to.options,
                         services.shouldSendSilent(to.peer, to.options), fileType)
    }

    /** The new local message for a prepared file going to `to`. */
    function NewFileItem(to: FileLoadTo, editing: bool, fileType: SendMediaType, caption: TextWithTags,
                         spoiler: bool, isVoice: bool, groupId: uint64, id: MsgId): HistoryItem
      requires ChannelIfAnonymous(to.peer)
    {
      NewLocalItem(id, FileFlags(to, editing, fileType), MessageFromId(to.peer, to.options.sendAs, selfPeerId),
                   to.replyTo, to.options.shortcutId, PostAuthor(to.peer, selfName), groupId,
                   services.fileCaption(to.peer, caption),
                   FileMedia(fileType, spoiler, isVoice, to.options.ttlSeconds))
    }

    /** The log of placing a prepared file: the upload, the action, the edition or insertion,
        and for a new message the history notifications. */
    function FileEvents(to: FileLoadTo, editing: bool, edited: bool, id: FullMsgId): seq<Event> {
      [UploadStarted(id), ActionSent(SendAction(to.peer, to.options, to.replyTo, false, true, to.replaceMediaOf)),
       if edited then MessageEdited(id) else LocalMessageAdded(id)]
      + (if editing then []
         else [HistoryChangeNotificationsSent,
               HistoryUpdated(to.peer.id, if to.options.scheduled != 0 then ScheduledSent else MessageSent)])
    }

    /** Placing a prepared file sends no request and registers no random id; the only
        message it reports as added is its own. */
    lemma FileEventsSafe(to: FileLoadTo, editing: bool, edited: bool, id: FullMsgId)
      ensures var ev := FileEvents(to, editing, edited, id);
        && SendsInOrder(ev)
        && (forall j :: 0 <= j < |ev| ==> !ev[j].RandomIdRegistered? && !ev[j].RequestSent?)
        && (forall j :: 0 <= j < |ev| && ev[j].LocalMessageAdded? ==> ev[j].id == id)
    {
      var ev := FileEvents(to, editing, edited, id);
      forall j | 0 <= j < |ev| ensures !ev[j].RandomIdRegistered? && !ev[j].RequestSent?
        && (ev[j].LocalMessageAdded? ==> ev[j].id == id)
      {
        if j >= 3 { assert ev[j] == ev[3..][j - 3]; }
      }
    }

    /** The messages after a prepared file is stored under `newId`: the message there, when
        editing and the session has one, takes the new caption and media and hides its edit mark
        exactly for a scheduled or shortcut message; otherwise a new local message is added. */
    function StoredFile(messages: map<FullMsgId, HistoryItem>, to: FileLoadTo, editing: bool,
                        fileType: SendMediaType, caption: TextWithTags, spoiler: bool, isVoice: bool,
                        groupId: uint64, newId: FullMsgId): map<FullMsgId, HistoryItem>
      requires ChannelIfAnonymous(to.peer)
    {
      if editing && newId in messages
      then messages[newId := ApplyEdition(
             messages[newId], services.fileCaption(to.peer, caption),
             FileMedia(fileType, spoiler, isVoice, to.options.ttlSeconds),
             HideEdited in FileFlags(to, editing, fileType))]
      else messages[newId := NewFileItem(to, editing, fileType, caption, spoiler, isVoice, groupId, newId.msg)]
    }

    /** Storing a prepared file touches only its own id. */
    lemma StoredFileFrame(messages: map<FullMsgId, HistoryItem>, to: FileLoadTo, editing: bool,
                          fileType: SendMediaType, caption: TextWithTags, spoiler: bool, isVoice: bool,
                          groupId: uint64, newId: FullMsgId)
      requires ChannelIfAnonymous(to.peer)
      ensures var r := StoredFile(messages, to, editing, fileType, caption, spoiler, isVoice, groupId, newId);
        && r.Keys == messages.Keys + {newId}
        && (forall id :: id in messages && id != newId ==> r[id] == messages[id])
    {
    }

    /** The message a prepared file is stored in: an edition keeps the message's counters,
        remembers its old media, hides its edit mark exactly as the resolved flags do and keeps
        its other flags; a new message starts without counters, with the resolved flags, the
        album's group, the reply, the sender and the post author; either way the message shows
        the file and its caption. */
    lemma StoredFileFacts(messages: map<FullMsgId, HistoryItem>, to: FileLoadTo, editing: bool,
                          fileType: SendMediaType, caption: TextWithTags, spoiler: bool, isVoice: bool,
                          groupId: uint64, newId: FullMsgId)
      requires ChannelIfAnonymous(to.peer)
      ensures var r := StoredFile(messages, to, editing, fileType, caption, spoiler, isVoice, groupId, newId);
        && newId in r
        && r[newId].media == FileMedia(fileType, spoiler, isVoice, to.options.ttlSeconds)
        && r[newId].caption == services.fileCaption(to.peer, caption)
        && (editing && newId in messages ==>
              && r[newId].counters == messages[newId].counters
              && r[newId].previousMedia == Some(messages[newId].media)
              && (HideEdited in r[newId].flags <==> HideEdited in FileFlags(to, editing, fileType))
              && r[newId].flags - {HideEdited} == messages[newId].flags - {HideEdited})
        && (!(editing && newId in messages) ==>
              && r[newId].counters == NoCounters && r[newId].flags == FileFlags(to, editing, fileType)
              && r[newId].groupedId == groupId && r[newId].replyTo == to.replyTo
              && r[newId].from == MessageFromId(to.peer, to.options.sendAs, selfPeerId)
              && r[newId].postAuthor == PostAuthor(to.peer, selfName))
    {
    }

    /** SendConfirmedFile: places an uploaded file. A file that names a message to replace,
        unless it is an audio file, edits that message in place (keeping its counters);
        otherwise it becomes a new local message under the next local id, with its reply
        converted for forum topics, followed by the history notifications. An album item of
        the file's upload task learns the message id. */
    method SendConfirmedFile(file: FilePrepareResult, nextLocalId: MsgId) returns (newId: FullMsgId)
      requires Valid() && ChannelIfAnonymous(file.to.peer)
      requires file.album != null ==> HasTask(file.album.items, file.taskId)
      modifies this, file, if file.album != null then {file.album} else {}
      ensures Valid()
      ensures var to := old(file.to);
        var editing := IsEditing(file.fileType, to.replaceMediaOf);
        && newId == ConfirmedFileId(file.fileType, to.peer.id, to.replaceMediaOf, nextLocalId)
        && file.to == (if editing then to
                       else to.(replyTo := ConvertedReplyTo(services.convertTopicReplyToId, to.peer.id,
                                                            to.replyTo)))
      ensures file.to.peer == old(file.to.peer) && file.to.replaceMediaOf == old(file.to.replaceMediaOf)
      ensures file.album != null ==> file.album.items == StampAlbum(old(file.album.items), file.taskId, newId)
      ensures randomIds == old(randomIds)
      ensures var to := file.to;
        var editing := IsEditing(file.fileType, to.replaceMediaOf);
        var edited := editing && newId in old(messages);
        var groupId := if file.album != null then file.album.groupId else 0;
        && messages == StoredFile(old(messages), to, editing, file.fileType, file.caption, file.spoiler,
                                  file.isVoice, groupId, newId)
        && events == old(events) + FileEvents(to, editing, edited, newId)
    {
      var isEditing := file.fileType != Audio && file.to.replaceMediaOf != 0;
      newId := FullMsgId(file.to.peer.id, if isEditing then file.to.replaceMediaOf else nextLocalId);
      var groupId: uint64 := 0;
      if file.album != null {
        groupId := file.album.groupId;
        file.album.Stamp(file.taskId, newId);
      }
      if !isEditing {
        var convert := services.convertTopicReplyToId;
        var peerId := file.to.peer.id;
        file.to := file.to.(replyTo := FullReplyTo(convert(peerId, file.to.replyTo.messageId),
                                                   convert(peerId, file.to.replyTo.topicRootId)));
      }
      PlaceFile(file.to, isEditing, file.fileType, file.caption, file.spoiler, file.isVoice, groupId, newId);
    }

    /** The part of SendConfirmedFile after the reply conversion: the upload starts, the action
        is reported, the message is edited or added, and a new (not edited) file raises the
        history notifications. */
    method PlaceFile(to: FileLoadTo, editing: bool, fileType: SendMediaType, caption: TextWithTags,
                     spoiler: bool, isVoice: bool, groupId: uint64, newId: FullMsgId)
      requires Valid() && ChannelIfAnonymous(to.peer)
      modifies this
      ensures Valid()
      ensures randomIds == old(randomIds)
      ensures var edited := editing && newId in old(messages);
        && messages == StoredFile(old(messages), to, editing, fileType, caption, spoiler, isVoice, groupId,
                                  newId)
        && events == old(events) + FileEvents(to, editing, edited, newId)
    {
      var added := [UploadStarted(newId)];
      var action := SendAction(to.peer, to.options, to.replyTo, false, true, to.replaceMediaOf);
      added := added + [ActionSent(action)];
      var edited := StoreFileItem(to, editing, fileType, caption, spoiler, isVoice, groupId, newId);
      added := added + [if edited then MessageEdited(newId) else LocalMessageAdded(newId)];
      if !editing {
        added := added + [HistoryChangeNotificationsSent,
                          HistoryUpdated(to.peer.id, if to.options.scheduled != 0 then ScheduledSent
                                                     else MessageSent)];
      }
      assert added == FileEvents(to, editing, edited, newId);
      FileEventsSafe(to, editing, edited, newId);
      StoredFileFrame(old(messages), to, editing, fileType, caption, spoiler, isVoice, groupId, newId);
      ConsistentExtend(events, randomIds, old(messages), added, randomIds, messages);
      events := events + added;
    }

    /** The message side of placing a prepared file: the flags are resolved, and the message
        to edit, when the session has it, takes the new media and caption while a new message
        is added otherwise. */
    method StoreFileItem(to: FileLoadTo, editing: bool, fileType: SendMediaType, caption: TextWithTags,
                         spoiler: bool, isVoice: bool, groupId: uint64, newId: FullMsgId)
      returns (edited: bool)
      requires Valid() && ChannelIfAnonymous(to.peer)
      modifies this`messages
      ensures Valid()
      ensures edited == (editing && newId in old(messages))
      ensures messages == StoredFile(old(messages), to, editing, fileType, caption, spoiler, isVoice,
                                     groupId, newId)
    {
      var itemToEdit := if editing && newId in messages then Some(messages[newId]) else None;
      var peer := to.peer;
      var text := services.fileCaption(peer, caption);
      var flags := ResolveFileFlags(to, editing, fileType);
      var media := FileMedia(fileType, spoiler, isVoice, to.options.ttlSeconds);
      edited := itemToEdit.Some?;
      if edited {
        messages := messages[newId := ApplyEdition(itemToEdit.value, text, media, HideEdited in flags)];
      } else {
        var messageFromId := MessageFromId(peer, to.options.sendAs, selfPeerId);
        var messagePostAuthor := PostAuthor(peer, selfName);
        messages := messages[newId := NewLocalItem(newId.msg, flags, messageFromId, to.replyTo,
                                                   to.options.shortcutId, messagePostAuthor, groupId,
                                                   text, media)];
      }
    }

    /** The flags of a prepared file, resolved as SendConfirmedFile does. */
    method ResolveFileFlags(to: FileLoadTo, editing: bool, fileType: SendMediaType)
      returns (flags: set<MessageFlag>)
      requires ChannelIfAnonymous(to.peer)
      ensures flags == FileFlags(to, editing, fileType)
    {
      var action := SendAction(to.peer, to.options, to.replyTo, false, true, to.replaceMediaOf);
      var silent := services.shouldSendSilent(to.peer, to.options);
      flags := ComposeConfirmedFileFlags(editing, services.newMessageFlags(to.peer), action, silent, fileType);
    }

    /** SendLocationPoint: reports the action, clears the drafts of the topic when the action
        asks for it, and sends the location request. The coordinates are not modelled. */
    method SendLocationPoint(action: SendAction, randomId: uint64) returns (request: MediaRequest)
      requires Valid()
      modifies this`events
      ensures Valid()
      ensures request.flags == LocationSendFlags(action, Silent(action))
      ensures && request.peer == action.peer.id && request.replyTo == action.replyTo
              && request.media == InputMediaGeoPoint && request.message == [] && request.entities == []
              && request.randomId == randomId && request.scheduleDate == action.options.scheduled
              && request.sendAs == action.options.sendAs && request.shortcutId == 0
      ensures var topic := LocationTopicRoot(action.replyTo);
        events == old(events) + [ActionSent(action)]
                  + (if action.clearDraft
                     then [LocalDraftCleared(action.peer.id, topic), CloudDraftCleared(action.peer.id, topic)]
                     else [])
                  + [LocationRequestSent(request)]
    {
      var added := [ActionSent(action)];
      var sendFlags: set<RequestFlag> := {};
      if action.replyTo.IsSet() {
        sendFlags := sendFlags + {FlagReplyTo};
      }
      var topicRootId := if action.replyTo.messageId != 0 then action.replyTo.topicRootId else 0;
      if action.clearDraft {
        sendFlags := sendFlags + {FlagClearDraft};
        added := added + [LocalDraftCleared(action.peer.id, topicRootId),
                          CloudDraftCleared(action.peer.id, topicRootId)];
      }
      if action.options.sendAs.Some? {
        sendFlags := sendFlags + {FlagSendAs};
      }
      var silentPost := services.shouldSendSilent(action.peer, action.options);
      if silentPost {
        sendFlags := sendFlags + {FlagSilent};
      }
      if action.options.scheduled != 0 {
        sendFlags := sendFlags + {FlagScheduleDate};
      }
      request := MediaRequest(sendFlags, action.peer.id, action.replyTo, InputMediaGeoPoint, [],
                              randomId, [], action.options.scheduled, action.options.sendAs, 0);
      added := added + [LocationRequestSent(request)];
      ConsistentExtend(events, randomIds, messages, added, randomIds, messages);
      events := events + added;
    }
  }
}
