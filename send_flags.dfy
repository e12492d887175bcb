/** The decisions of Api's sending path (api_sending.cpp) that do not touch the data store:
    which local message flags and which request flags a send carries, who the message is
    from, whether a dice throw is accepted, how a failed request is handled, and how a
    prepared file is placed (edit or new message, album slot). */
module SendFlags {
  import opened Wrappers
  import opened Text

  type PeerId = int
  type MsgId = int

  /** The random id of a request: base::RandomValue<uint64>. */
  newtype uint64 = x: int | 0 <= x < 0x1_0000_0000_0000_0000

  /** A message id qualified by its peer. */
  datatype FullMsgId = FullMsgId(peer: PeerId, msg: MsgId)

  /** The parts of PeerData that the sending path consults. */
  datatype Peer = Peer(
    id: PeerId,
    amAnonymous: bool,
    isMegagroup: bool,
    isBroadcast: bool,
    isChannel: bool,
    addsSignature: bool)

  /** Only a channel (a broadcast, or a megagroup with an anonymous admin) posts
      anonymously: the post-flag resolver reads `asChannel()` of such a peer. */
  predicate ChannelIfAnonymous(peer: Peer) {
    peer.amAnonymous ==> peer.isChannel
  }

  /** SendOptions: `scheduled` is the schedule date (0 when not scheduled), `sendAs` the
      peer chosen to send as, `shortcutId` the quick-reply shortcut (0 when none). */
  datatype SendOptions = SendOptions(
    silent: bool,
    scheduled: int,
    sendAs: Option<PeerId>,
    shortcutId: int,
    ttlSeconds: int)

  /** FullReplyTo: the replied-to message and the forum topic it lives in. */
  datatype FullReplyTo = FullReplyTo(messageId: MsgId, topicRootId: MsgId) {
    /** The `if (replyTo)` test: a reply is set when it names a message. */
    predicate IsSet() {
      messageId != 0
    }
  }

  /** SendAction: where a send goes and how. */
  datatype SendAction = SendAction(
    peer: Peer,
    options: SendOptions,
    replyTo: FullReplyTo,
    clearDraft: bool,
    generateLocal: bool,
    replaceMediaOf: MsgId)

  /** MessageFlag: the local flags of a history item that this path sets. Outgoing,
      BeingSent and Local stand for what NewMessageFlags gives a new outgoing message. */
  datatype MessageFlag =
    | HasFromId
    | HasReplyInfo
    | Post
    | HasViews
    | HasPostAuthor
    | Silent
    | IsOrWasScheduled
    | ShortcutMessage
    | MediaIsUnread
    | HideEdited
    | Outgoing
    | BeingSent
    | Local

  /** MTPmessages_SendMedia::Flag: the request flags this path sets. */
  datatype RequestFlag =
    | FlagReplyTo
    | FlagSilent
    | FlagSendAs
    | FlagScheduleDate
    | FlagQuickReplyShortcut
    | FlagEntities
    | FlagClearDraft

  /** `{f}` when `c` holds, nothing otherwise: one `if (c) { flags |= f; }`. */
  function FlagIf<T>(c: bool, f: T): (r: set<T>)
    ensures f in r <==> c
    ensures r <= {f}
  {
    if c then {f} else {}
  }

  /** The flags the post-flag resolver can add. */
  const PostFlagKinds: set<MessageFlag> := {Silent, HasFromId, Post, HasViews, HasPostAuthor}

  /** The flags InnerFillMessagePostFlags adds for a send with these options to this peer,
      `silent` being ShouldSendSilent(peer, options). A message shows its sender unless the
      peer posts anonymously and no send-as peer is chosen; an anonymous post outside a
      megagroup is a channel post, which shows views (and its author where the channel signs
      messages) unless it is scheduled. */
  function PostFlags(peer: Peer, options: SendOptions, silent: bool): (r: set<MessageFlag>)
    requires ChannelIfAnonymous(peer)
    ensures r <= PostFlagKinds
    ensures Silent in r <==> silent
    ensures HasFromId in r <==> !peer.amAnonymous || options.sendAs.Some?
    ensures Post in r <==> peer.amAnonymous && options.sendAs.None? && !peer.isMegagroup
    ensures HasViews in r <==> Post in r && options.scheduled == 0
    ensures HasPostAuthor in r <==> HasViews in r && peer.addsSignature
    ensures HasFromId in r ==> Post !in r && HasViews !in r && HasPostAuthor !in r
  {
    var fromId := !peer.amAnonymous || options.sendAs.Some?;
    var post := !fromId && !peer.isMegagroup;
    var views := post && options.scheduled == 0;
    FlagIf(silent, Silent) + FlagIf(fromId, HasFromId) + FlagIf(post, Post)
    + FlagIf(views, HasViews) + FlagIf(views && peer.addsSignature, HasPostAuthor)
  }

  /** InnerFillMessagePostFlags: ORs the post flags into `flags`, returning as soon as the
      rest cannot apply. */
  method InnerFillMessagePostFlags(options: SendOptions, peer: Peer, silent: bool,
                                   flags: set<MessageFlag>)
    returns (result: set<MessageFlag>)
    requires ChannelIfAnonymous(peer)
    ensures result == flags + PostFlags(peer, options, silent)
  {
    result := flags;
    var anonymousPost := peer.amAnonymous;
    if silent {
      result := result + {Silent};
    }
    if !anonymousPost || options.sendAs.Some? {
      result := result + {HasFromId};
      return;
    } else if peer.isMegagroup {
      return;
    }
    result := result + {Post};
    if options.scheduled != 0 {
      return;
    }
    result := result + {HasViews};
    if peer.addsSignature {
      result := result + {HasPostAuthor};
    }
  }

  /** FillMessagePostFlags: the resolver applied to the options of a send action. */
  method FillMessagePostFlags(action: SendAction, peer: Peer, silent: bool,
                              flags: set<MessageFlag>)
    returns (result: set<MessageFlag>)
    requires ChannelIfAnonymous(peer)
    ensures result == flags + PostFlags(peer, action.options, silent)
    ensures flags <= result
  {
    result := InnerFillMessagePostFlags(action.options, peer, silent, flags);
  }

  /** The local flags and the request flags of one send. */
  datatype SendFlagSets = SendFlagSets(local: set<MessageFlag>, wire: set<RequestFlag>)

  /** The local flags a send adds beside the post flags: reply info for a reply, the
      scheduled mark for a scheduled send, the shortcut mark for a quick-reply message. */
  function ReplyScheduleFlags(replyTo: FullReplyTo, options: SendOptions): (r: set<MessageFlag>)
    ensures r <= {HasReplyInfo, IsOrWasScheduled, ShortcutMessage}
    ensures HasReplyInfo in r <==> replyTo.IsSet()
    ensures IsOrWasScheduled in r <==> options.scheduled != 0
    ensures ShortcutMessage in r <==> options.shortcutId != 0
  {
    FlagIf(replyTo.IsSet(), HasReplyInfo) + FlagIf(options.scheduled != 0, IsOrWasScheduled)
    + FlagIf(options.shortcutId != 0, ShortcutMessage)
  }

  /** The local flags SendExistingMedia and SendDice give the new message, from the flags
      NewMessageFlags gives the peer (`base`) and ShouldSendSilent (`silent`): `base` plus the
      post flags plus the reply, schedule and shortcut flags. */
  function MediaLocalFlags(base: set<MessageFlag>, action: SendAction, silent: bool)
    : (r: set<MessageFlag>)
    requires ChannelIfAnonymous(action.peer)
    ensures r == base + PostFlags(action.peer, action.options, silent)
                 + ReplyScheduleFlags(action.replyTo, action.options)
  {
    var options := action.options;
    var reply := FlagIf(action.replyTo.IsSet(), HasReplyInfo);
    var post := PostFlags(action.peer, options, silent);
    var scheduled := FlagIf(options.scheduled != 0, IsOrWasScheduled);
    var shortcut := FlagIf(options.shortcutId != 0, ShortcutMessage);
    PostRegroup(base, reply, post, scheduled, shortcut);
    base + reply + post + scheduled + shortcut
  }

  /** The request flags of SendExistingMedia and SendDice, given whether the converted caption
      entities are non-empty (`hasEntities`; a dice throw has none): each is set exactly when
      its trigger holds, and the draft is never cleared by the request. */
  function MediaWireFlags(action: SendAction, silent: bool, hasEntities: bool)
    : (r: set<RequestFlag>)
    ensures FlagReplyTo in r <==> action.replyTo.IsSet()
    ensures FlagSilent in r <==> silent
    ensures FlagSendAs in r <==> action.options.sendAs.Some?
    ensures FlagScheduleDate in r <==> action.options.scheduled != 0
    ensures FlagQuickReplyShortcut in r <==> action.options.shortcutId != 0
    ensures FlagEntities in r <==> hasEntities
    ensures FlagClearDraft !in r
  {
    var options := action.options;
    FlagIf(action.replyTo.IsSet(), FlagReplyTo) + FlagIf(silent, FlagSilent)
    + FlagIf(options.sendAs.Some?, FlagSendAs) + FlagIf(hasEntities, FlagEntities)
    + FlagIf(options.scheduled != 0, FlagScheduleDate)
    + FlagIf(options.shortcutId != 0, FlagQuickReplyShortcut)
  }

  /** The local and request flags of SendExistingMedia and SendDice together. */
  function MediaSendFlags(base: set<MessageFlag>, action: SendAction, silent: bool,
                          hasEntities: bool): SendFlagSets
    requires ChannelIfAnonymous(action.peer)
  {
    SendFlagSets(MediaLocalFlags(base, action, silent), MediaWireFlags(action, silent, hasEntities))
  }

  /** The flag computation SendExistingMedia and SendDice share, step by step as they do it:
      reply, post flags, silence, send-as, entities, schedule, shortcut. */
  method ComposeMediaSendFlags(base: set<MessageFlag>, action: SendAction, silent: bool,
                               hasEntities: bool)
    returns (flags: set<MessageFlag>, sendFlags: set<RequestFlag>)
    requires ChannelIfAnonymous(action.peer)
    ensures flags == MediaLocalFlags(base, action, silent)
    ensures sendFlags == MediaWireFlags(action, silent, hasEntities)
  {
    var options := action.options;
    // After each step an assertion restates the flags so far as a union of named parts; the
    // assertions only keep the solver's work per step small.
    flags, sendFlags := base, {};
    if action.replyTo.IsSet() {
      flags := flags + {HasReplyInfo};
      sendFlags := sendFlags + {FlagReplyTo};
    }
    assert flags == base + FlagIf(action.replyTo.IsSet(), HasReplyInfo);
    assert sendFlags == FlagIf(action.replyTo.IsSet(), FlagReplyTo);
    flags := InnerFillMessagePostFlags(options, action.peer, silent, flags);
    ghost var wire := sendFlags;
    if silent {
      sendFlags := sendFlags + {FlagSilent};
    }
    assert sendFlags == wire + FlagIf(silent, FlagSilent);
    wire := sendFlags;
    if options.sendAs.Some? {
      sendFlags := sendFlags + {FlagSendAs};
    }
    assert sendFlags == wire + FlagIf(options.sendAs.Some?, FlagSendAs);
    wire := sendFlags;
    if hasEntities {
      sendFlags := sendFlags + {FlagEntities};
    }
    assert sendFlags == wire + FlagIf(hasEntities, FlagEntities);
    ghost var local;
    local, wire := flags, sendFlags;
    if options.scheduled != 0 {
      flags := flags + {IsOrWasScheduled};
      sendFlags := sendFlags + {FlagScheduleDate};
    }
    assert flags == local + FlagIf(options.scheduled != 0, IsOrWasScheduled);
    assert sendFlags == wire + FlagIf(options.scheduled != 0, FlagScheduleDate);
    local, wire := flags, sendFlags;
    if options.shortcutId != 0 {
      flags := flags + {ShortcutMessage};
      sendFlags := sendFlags + {FlagQuickReplyShortcut};
    }
    assert flags == local + FlagIf(options.shortcutId != 0, ShortcutMessage);
    assert sendFlags == wire + FlagIf(options.shortcutId != 0, FlagQuickReplyShortcut);
  }

  /** Regrouping the flags a media send adds one by one into the parts that name them. Set
      algebra only, which spares the solver from regrouping the unions itself. */
  lemma PostRegroup<T>(base: set<T>, reply: set<T>, post: set<T>, scheduled: set<T>,
                       shortcut: set<T>)
    ensures base + reply + post + scheduled + shortcut == base + post + (reply + scheduled + shortcut)
  {
  }

  /** When NewMessageFlags sets none of the reply, schedule and shortcut flags, each of those
      local flags is set exactly when its request flag is. */
  lemma LocalFlagsMatchRequestFlags(base: set<MessageFlag>, action: SendAction, silent: bool,
                                    hasEntities: bool)
    requires ChannelIfAnonymous(action.peer)
    requires HasReplyInfo !in base && IsOrWasScheduled !in base && ShortcutMessage !in base
    ensures var r := MediaSendFlags(base, action, silent, hasEntities);
      && (HasReplyInfo in r.local <==> FlagReplyTo in r.wire)
      && (IsOrWasScheduled in r.local <==> FlagScheduleDate in r.wire)
      && (ShortcutMessage in r.local <==> FlagQuickReplyShortcut in r.wire)
      && (Silent in r.local <==> FlagSilent in r.wire || Silent in base)
  {
  }

  /** The `from` of a new local message: the send-as peer when one is chosen, nobody (0) for
      an anonymous post, oneself otherwise. */
  function MessageFromId(peer: Peer, sendAs: Option<PeerId>, selfId: PeerId): (r: PeerId)
    ensures sendAs.Some? ==> r == sendAs.value
    ensures sendAs.None? && peer.amAnonymous ==> r == 0
    ensures sendAs.None? && !peer.amAnonymous ==> r == selfId
  {
    match sendAs
    case Some(id) => id
    case None => if peer.amAnonymous then 0 else selfId
  }

  /** The message names a sender exactly when the resolver sets HasFromId, provided neither
      oneself nor the send-as peer has the empty id. */
  lemma FromIdMatchesFlag(peer: Peer, options: SendOptions, silent: bool, selfId: PeerId)
    requires ChannelIfAnonymous(peer)
    requires selfId != 0 && (options.sendAs.Some? ==> options.sendAs.value != 0)
    ensures MessageFromId(peer, options.sendAs, selfId) != 0
            <==> HasFromId in PostFlags(peer, options, silent)
  {
  }

  /** The post author of a new local message: one's own name in a broadcast channel, empty
      elsewhere. */
  function PostAuthor(peer: Peer, selfName: string): (r: string)
    ensures peer.isBroadcast ==> r == selfName
    ensures !peer.isBroadcast ==> r == []
  {
    if peer.isBroadcast then selfName else []
  }

  /** The dice emoji a client may send when the app config has no "emojies_send_dice" list:
      die, dart, slot machine, football (bare and with the emoji variation selector) and
      basketball. */
  const HardcodedDice: seq<string> :=
    ["\U{1F3B2}", "\U{1F3AF}", "\U{1F3B0}", "\U{26BD}", "\U{26BD}\U{FE0F}", "\U{1F3C0}"]

  /** The dice list in force: the configured one, or the hardcoded six. */
  function DiceList(configured: Option<seq<string>>): (r: seq<string>)
    ensures configured.None? ==> r == HardcodedDice
    ensures configured.Some? ==> r == configured.value
  {
    configured.GetOr(HardcodedDice)
  }

  /** The acceptance test of SendDice: the trimmed text must be exactly one emoji
      (`findEmoji` gives the length of the emoji at the start of a text, None when there is
      none), carry no tags, and be in the dice list. The accepted emoji is the trimmed text. */
  function DiceEmoji(text: string, hasTags: bool, findEmoji: string -> Option<nat>,
                     configured: Option<seq<string>>): (r: Option<string>)
    ensures r.Some? ==> r.value == Trim(text)
    ensures r.Some? ==> findEmoji(r.value) == Some(|r.value|)
    ensures r.Some? ==> !hasTags && r.value in DiceList(configured)
    ensures r.None? ==> || findEmoji(Trim(text)) != Some(|Trim(text)|)
                        || hasTags
                        || Trim(text) !in DiceList(configured)
  {
    var full := Trim(text);
    match findEmoji(full)
    case None => None
    case Some(length) =>
      if length != |full| || hasTags then None
      else if full !in DiceList(configured) then None
      else Some(full)
  }

  /** A die between a blank and a line break trims to the bare die. */
  lemma TrimPaddedDie()
    ensures Trim(" \U{1F3B2}\n") == "\U{1F3B2}"
  {
    var die, tail := "\U{1F3B2}", "\U{1F3B2}\n";
    assert !IsSpace(die[0]) && IsSpace(' ') && IsSpace('\n');
    assert (" " + tail)[1..] == tail;
    assert TrimStart(" " + tail) == TrimStart(tail) == tail;
    assert tail[..|tail| - 1] == die;
    assert TrimEnd(tail) == TrimEnd(die) == die;
    assert " " + tail == " \U{1F3B2}\n";
  }

  /** With the hardcoded list, a die surrounded by blanks is thrown, and a tagged die is not. */
  lemma DiceExamples(findEmoji: string -> Option<nat>)
    requires findEmoji("\U{1F3B2}") == Some(1)
    ensures DiceEmoji(" \U{1F3B2}\n", false, findEmoji, None) == Some("\U{1F3B2}")
    ensures DiceEmoji("\U{1F3B2}", true, findEmoji, None) == None
  {
    TrimPaddedDie();
  }

  /** A smiley is not in the hardcoded list, but is thrown when the app config lists it. */
  lemma ConfiguredDiceExample(findEmoji: string -> Option<nat>)
    requires findEmoji("\U{1F600}") == Some(1)
    ensures DiceEmoji("\U{1F600}", false, findEmoji, None) == None
    ensures DiceEmoji("\U{1F600}", false, findEmoji, Some(["\U{1F600}"])) == Some("\U{1F600}")
  {
    assert "\U{1F600}" !in HardcodedDice;
  }

  /** What becomes of a failed existing-media request. */
  datatype FailureOutcome = Retry | Fail

  /** The failure handler of SendExistingMedia: a 400 error whose type starts with
      "FILE_REFERENCE_" refreshes the file reference and repeats the request when the
      reference changed (`used` is the reference the request carried, `refreshed` the one the
      media has after the refresh); every other failure is reported. */
  function ExistingMediaFailure(code: int, errorType: string, used: seq<bv8>, refreshed: seq<bv8>)
    : (r: FailureOutcome)
    ensures r == Retry ==> code == 400 && StartsWith(errorType, "FILE_REFERENCE_")
    ensures r == Retry ==> refreshed != used
    ensures r == Fail ==> code != 400 || !StartsWith(errorType, "FILE_REFERENCE_") || refreshed == used
  {
    if code == 400 && StartsWith(errorType, "FILE_REFERENCE_") then
      if refreshed != used then Retry else Fail
    else Fail
  }

  /** A stale reference is retried once it changed; a different error, or a reference the
      refresh did not change, is reported. */
  lemma FailureExamples(used: seq<bv8>, refreshed: seq<bv8>)
    requires used != refreshed
    ensures ExistingMediaFailure(400, "FILE_REFERENCE_EXPIRED", used, refreshed) == Retry
    ensures ExistingMediaFailure(400, "FILE_REFERENCE_EXPIRED", used, used) == Fail
    ensures ExistingMediaFailure(403, "FILE_REFERENCE_EXPIRED", used, refreshed) == Fail
    ensures ExistingMediaFailure(400, "file_reference_expired", used, refreshed) == Fail
    ensures ExistingMediaFailure(400, "PEER_FLOOD", used, refreshed) == Fail
  {
    assert "FILE_REFERENCE_EXPIRED"[..|"FILE_REFERENCE_"|] == "FILE_REFERENCE_";
    assert "file_reference_expired"[0] != "FILE_REFERENCE_"[0];
    assert "PEER_FLOOD"[0] != "FILE_REFERENCE_"[0];
  }

  /** SendMediaType: the kinds of prepared file SendConfirmedFile can place. */
  datatype SendMediaType = Photo | Audio | File

  /** A prepared file replaces the media of an existing message, rather than becoming a new
      message, when it names one to replace and is not an audio file. */
  predicate IsEditing(fileType: SendMediaType, replaceMediaOf: MsgId)
    ensures fileType == Audio || replaceMediaOf == 0 ==> !IsEditing(fileType, replaceMediaOf)
    ensures fileType in {Photo, File} && replaceMediaOf != 0 ==> IsEditing(fileType, replaceMediaOf)
  {
    fileType != Audio && replaceMediaOf != 0
  }

  /** The id of the message a prepared file lands in: the replaced message when editing, the
      next local id otherwise. */
  function ConfirmedFileId(fileType: SendMediaType, peer: PeerId, replaceMediaOf: MsgId,
                           nextLocalId: MsgId): (r: FullMsgId)
    ensures r.peer == peer
    ensures IsEditing(fileType, replaceMediaOf) ==> r.msg == replaceMediaOf
    ensures !IsEditing(fileType, replaceMediaOf) ==> r.msg == nextLocalId
  {
    FullMsgId(peer, if IsEditing(fileType, replaceMediaOf) then replaceMediaOf else nextLocalId)
  }

  /** The flags a prepared file gets beside the reply, post and schedule flags: no "edited"
      badge for scheduled and shortcut messages, and a voice message stays unread except in a
      broadcast channel. */
  function FileExtraFlags(fileType: SendMediaType, peer: Peer, options: SendOptions)
    : (r: set<MessageFlag>)
    ensures r <= {HideEdited, MediaIsUnread}
    ensures HideEdited in r <==> options.scheduled != 0 || options.shortcutId != 0
    ensures MediaIsUnread in r <==> fileType == Audio && (!peer.isChannel || peer.isMegagroup)
  {
    FlagIf(options.scheduled != 0, HideEdited) + FlagIf(options.shortcutId != 0, HideEdited)
    + FlagIf(fileType == Audio && (!peer.isChannel || peer.isMegagroup), MediaIsUnread)
  }

  /** The local flags SendConfirmedFile gives a prepared file: none of NewMessageFlags when
      editing, else those; then the reply, post and schedule flags and the file's own. */
  function ConfirmedFileFlags(editing: bool, base: set<MessageFlag>, peer: Peer,
                              replyTo: FullReplyTo, options: SendOptions, silent: bool,
                              fileType: SendMediaType): (r: set<MessageFlag>)
    requires ChannelIfAnonymous(peer)
    ensures editing ==> r == PostFlags(peer, options, silent) + ReplyScheduleFlags(replyTo, options)
                             + FileExtraFlags(fileType, peer, options)
    ensures !editing ==> r == base + PostFlags(peer, options, silent)
                              + ReplyScheduleFlags(replyTo, options) + FileExtraFlags(fileType, peer, options)
  {
    var start := if editing then {} else base;
    var reply := FlagIf(replyTo.IsSet(), HasReplyInfo);
    var post := PostFlags(peer, options, silent);
    var scheduled := FlagIf(options.scheduled != 0, IsOrWasScheduled);
    var scheduledHidden := FlagIf(options.scheduled != 0, HideEdited);
    var shortcut := FlagIf(options.shortcutId != 0, ShortcutMessage);
    var shortcutHidden := FlagIf(options.shortcutId != 0, HideEdited);
    var unread := FlagIf(fileType == Audio && (!peer.isChannel || peer.isMegagroup), MediaIsUnread);
    UnionRegroup(start, reply, post, scheduled, scheduledHidden, shortcut, shortcutHidden, unread);
    start + reply + post + scheduled + scheduledHidden + shortcut + shortcutHidden + unread
  }

  /** The flag computation of SendConfirmedFile, step by step as it does it. */
  method ComposeConfirmedFileFlags(editing: bool, base: set<MessageFlag>, action: SendAction,
                                   silent: bool, fileType: SendMediaType)
    returns (flags: set<MessageFlag>)
    requires ChannelIfAnonymous(action.peer)
    ensures flags == ConfirmedFileFlags(editing, base, action.peer, action.replyTo, action.options,
                                        silent, fileType)
  {
    var options, peer := action.options, action.peer;
    // After each step an assertion restates the flags so far as a union of named parts; the
    // assertions only keep the solver's work per step small.
    flags := if editing then {} else base;
    ghost var start := flags;
    if action.replyTo.IsSet() {
      flags := flags + {HasReplyInfo};
    }
    assert flags == start + FlagIf(action.replyTo.IsSet(), HasReplyInfo);
    flags := FillMessagePostFlags(action, peer, silent, flags);
    ghost var posted := flags;
    if options.scheduled != 0 {
      flags := flags + {IsOrWasScheduled};
      flags := flags + {HideEdited};
    }
    ghost var scheduled := flags;
    assert scheduled == posted + FlagIf(options.scheduled != 0, IsOrWasScheduled)
                       + FlagIf(options.scheduled != 0, HideEdited);
    if options.shortcutId != 0 {
      flags := flags + {ShortcutMessage};
      flags := flags + {HideEdited};
    }
    ghost var shortcut := flags;
    assert shortcut == scheduled + FlagIf(options.shortcutId != 0, ShortcutMessage)
                       + FlagIf(options.shortcutId != 0, HideEdited);
    if fileType == Audio {
      if !peer.isChannel || peer.isMegagroup {
        flags := flags + {MediaIsUnread};
      }
    }
    assert flags == shortcut + FlagIf(fileType == Audio && (!peer.isChannel || peer.isMegagroup), MediaIsUnread);
  }

  /** Regrouping the flags SendConfirmedFile adds one by one into the parts that name them. Set
      algebra only, which spares the solver from regrouping the unions itself. */
  lemma UnionRegroup<T>(start: set<T>, reply: set<T>, post: set<T>, scheduled: set<T>,
                        scheduledHidden: set<T>, shortcut: set<T>, shortcutHidden: set<T>,
                        unread: set<T>)
    ensures start + reply + post + scheduled + scheduledHidden + shortcut + shortcutHidden + unread
            == start + post + (reply + scheduled + shortcut) + (scheduledHidden + shortcutHidden + unread)
  {
  }

  /** An edit carries none of NewMessageFlags' own flags: what it has comes from the reply,
      the post-flag resolver, the schedule and the file. */
  lemma EditFlagsOmitNewMessageFlags(base: set<MessageFlag>, peer: Peer, replyTo: FullReplyTo,
                                     options: SendOptions, silent: bool, fileType: SendMediaType)
    requires ChannelIfAnonymous(peer)
    ensures var r := ConfirmedFileFlags(true, base, peer, replyTo, options, silent, fileType);
      Outgoing !in r && BeingSent !in r && Local !in r
  {
    var post := PostFlags(peer, options, silent);
    var marks := ReplyScheduleFlags(replyTo, options);
    var extra := FileExtraFlags(fileType, peer, options);
    assert ConfirmedFileFlags(true, base, peer, replyTo, options, silent, fileType) == post + marks + extra;
    assert Outgoing !in post && BeingSent !in post && Local !in post;
    assert Outgoing !in marks && BeingSent !in marks && Local !in marks;
    assert Outgoing !in extra && BeingSent !in extra && Local !in extra;
  }

  /** The same file sent as a new message rather than as an edit gets exactly the edit's
      flags together with NewMessageFlags: the two branches differ in nothing else. */
  lemma NewFileFlagsExtendEditFlags(base: set<MessageFlag>, peer: Peer, replyTo: FullReplyTo,
                                    options: SendOptions, silent: bool, fileType: SendMediaType)
    requires ChannelIfAnonymous(peer)
    ensures ConfirmedFileFlags(false, base, peer, replyTo, options, silent, fileType)
            == base + ConfirmedFileFlags(true, base, peer, replyTo, options, silent, fileType)
  {
    var post := PostFlags(peer, options, silent);
    var marks := ReplyScheduleFlags(replyTo, options);
    var extra := FileExtraFlags(fileType, peer, options);
    assert ConfirmedFileFlags(true, base, peer, replyTo, options, silent, fileType) == post + marks + extra;
    assert ConfirmedFileFlags(false, base, peer, replyTo, options, silent, fileType)
           == base + post + marks + extra;
  }

  /** An item of a sending album: the upload task it belongs to and the message it became. */
  datatype AlbumItem = AlbumItem(taskId: int, msgId: FullMsgId)

  /** Whether some item of the album belongs to upload task `taskId`. */
  predicate HasTask(items: seq<AlbumItem>, taskId: int) {
    exists i :: 0 <= i < |items| && items[i].taskId == taskId
  }

  /** The position of the first album item of upload task `taskId`. */
  function AlbumIndex(items: seq<AlbumItem>, taskId: int): (k: nat)
    requires HasTask(items, taskId)
    ensures k < |items| && items[k].taskId == taskId
    ensures forall j :: 0 <= j < k ==> items[j].taskId != taskId
  {
    if items[0].taskId == taskId then 0
    else
      assert HasTask(items[1..], taskId) by {
        var i :| 0 <= i < |items| && items[i].taskId == taskId;
        assert items[1..][i - 1] == items[i];
      }
      1 + AlbumIndex(items[1..], taskId)
  }

  /** The album after its item of upload task `taskId` learnt the message it became: that
      item's `msgId` is `id`, every other item is as it was. */
  function StampAlbum(items: seq<AlbumItem>, taskId: int, id: FullMsgId): (r: seq<AlbumItem>)
    requires HasTask(items, taskId)
    ensures |r| == |items|
    ensures forall j :: 0 <= j < |r| ==> r[j].taskId == items[j].taskId
    ensures forall j :: 0 <= j < |r| ==>
      r[j].msgId == if j == AlbumIndex(items, taskId) then id else items[j].msgId
  {
    var k := AlbumIndex(items, taskId);
    items[k := items[k].(msgId := id)]
  }

  /** The first album item of upload task `taskId`: ranges::find by task id. */
  method FindAlbumItem(items: seq<AlbumItem>, taskId: int) returns (k: nat)
    requires HasTask(items, taskId)
    ensures k < |items| && items[k].taskId == taskId
    ensures forall j :: 0 <= j < k ==> items[j].taskId != taskId
    ensures k == AlbumIndex(items, taskId)
  {
    k := 0;
    while items[k].taskId != taskId
      invariant k < |items|
      invariant forall j :: 0 <= j < k ==> items[j].taskId != taskId
      invariant exists i :: k <= i < |items| && items[i].taskId == taskId
      decreases |items| - k
    {
      k := k + 1;
    }
  }

  /** The request flags of SendLocationPoint: reply, draft clearing, send-as, silence and
      schedule; a location carries no entities and no quick-reply shortcut. */
  function LocationSendFlags(action: SendAction, silent: bool): (r: set<RequestFlag>)
    ensures FlagReplyTo in r <==> action.replyTo.IsSet()
    ensures FlagClearDraft in r <==> action.clearDraft
    ensures FlagSendAs in r <==> action.options.sendAs.Some?
    ensures FlagSilent in r <==> silent
    ensures FlagScheduleDate in r <==> action.options.scheduled != 0
    ensures FlagEntities !in r && FlagQuickReplyShortcut !in r
  {
    FlagIf(action.replyTo.IsSet(), FlagReplyTo) + FlagIf(action.clearDraft, FlagClearDraft)
    + FlagIf(action.options.sendAs.Some?, FlagSendAs) + FlagIf(silent, FlagSilent)
    + FlagIf(action.options.scheduled != 0, FlagScheduleDate)
  }

  /** The topic whose drafts a location send clears: the reply's topic when the send replies
      to a message, the main chat (0) otherwise. */
  function LocationTopicRoot(replyTo: FullReplyTo): (r: MsgId)
    ensures replyTo.messageId != 0 ==> r == replyTo.topicRootId
    ensures replyTo.messageId == 0 ==> r == 0
  {
    if replyTo.messageId != 0 then replyTo.topicRootId else 0
  }
}
