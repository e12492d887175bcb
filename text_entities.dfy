/** The text-entity codec of Api: the wire list of message entities (MTPMessageEntity) to the
    in-memory list (EntitiesInText) and back. */
module TextEntities {
  import opened Wrappers
  import opened Text
  import opened Lists

  /** The kinds of in-memory entity. Invalid and Semibold stand for the local kinds that have
      no wire form (the encoder's switch has no case for them). */
  datatype EntityType =
    | Invalid
    | Url
    | CustomUrl
    | Email
    | Hashtag
    | Cashtag
    | Mention
    | MentionName
    | CustomEmoji
    | BotCommand
    | Bold
    | Semibold
    | Italic
    | Underline
    | StrikeOut
    | Code
    | Pre
    | Blockquote
    | Spoiler

  /** An in-memory entity: offset and length in UTF-16 code units, and a payload (the language
      of a Pre block, the address of a CustomUrl, the serialized target of a MentionName or
      CustomEmoji; empty for the other kinds). */
  datatype EntityInText = EntityInText(kind: EntityType, offset: int, length: int, data: string)

  datatype ConvertOption = WithLocal | SkipLocal

  /** MTPInputUser. */
  datatype InputUser =
    | InputUserEmpty
    | InputUserSelf
    | InputUser(userId: int, accessHash: int)
    | InputUserFromMessage(peerId: int, msgId: int, userId: int)

  /** MTPMessageEntity: every variant carries its offset and length. */
  datatype MessageEntity =
    | MessageEntityUnknown(offset: int, length: int)
    | MessageEntityMention(offset: int, length: int)
    | MessageEntityHashtag(offset: int, length: int)
    | MessageEntityBotCommand(offset: int, length: int)
    | MessageEntityUrl(offset: int, length: int)
    | MessageEntityEmail(offset: int, length: int)
    | MessageEntityBold(offset: int, length: int)
    | MessageEntityItalic(offset: int, length: int)
    | MessageEntityCode(offset: int, length: int)
    | MessageEntityPre(offset: int, length: int, language: string)
    | MessageEntityTextUrl(offset: int, length: int, url: string)
    | MessageEntityMentionName(offset: int, length: int, userId: int)
    | InputMessageEntityMentionName(offset: int, length: int, user: InputUser)
    | MessageEntityPhone(offset: int, length: int)
    | MessageEntityCashtag(offset: int, length: int)
    | MessageEntityUnderline(offset: int, length: int)
    | MessageEntityStrike(offset: int, length: int)
    | MessageEntityBankCard(offset: int, length: int)
    | MessageEntitySpoiler(offset: int, length: int)
    | MessageEntityCustomEmoji(offset: int, length: int, documentId: int)
    | MessageEntityBlockquote(offset: int, length: int)

  /** What the codec reads from the session: the own user id and access hash, and the access
      hash of every user loaded so far. */
  datatype SessionData = SessionData(userId: int, accessHash: int, loadedUsers: map<int, int>)

  /** The fields packed into a MentionName payload. */
  datatype MentionNameFields = MentionNameFields(selfId: int, userId: int, accessHash: int)

  /** The helpers the codec calls but that are defined elsewhere. */
  datatype Helpers = Helpers(
    // MentionNameDataFromFields and MentionNameDataToFields.
    mentionNameDataFromFields: MentionNameFields -> string,
    mentionNameDataToFields: string -> MentionNameFields,
    // Data::SerializeCustomEmojiId and Data::ParseCustomEmojiData (0 when the payload does not parse).
    serializeCustomEmojiId: int -> string,
    parseCustomEmojiData: string -> int,
    // url_parse_params with lower-cased names, then the value of "id" (empty when absent).
    urlParamId: string -> string,
    // QString::toLongLong with its success flag.
    toLongLong: string -> Option<int>)

  /** Assumption: a MentionName payload gives back the fields it was made from. */
  ghost predicate MentionDataRoundTrips(h: Helpers) {
    forall f :: h.mentionNameDataToFields(h.mentionNameDataFromFields(f)) == f
  }

  /** Assumption: a MentionName payload is never the empty string. */
  ghost predicate MentionDataNonEmpty(h: Helpers) {
    forall f :: h.mentionNameDataFromFields(f) != []
  }

  /** Assumption: a serialized non-zero custom emoji id parses back to itself. */
  ghost predicate CustomEmojiDataRoundTrips(h: Helpers) {
    forall id :: id != 0 ==> h.parseCustomEmojiData(h.serializeCustomEmojiId(id)) == id
  }

  /** The kinds EntitiesToMTP keeps under ConvertOption::SkipLocal. */
  const ServerSideKinds: set<EntityType> :=
    {Bold, Italic, Underline, StrikeOut, Code, Pre, Blockquote, Spoiler, MentionName, CustomUrl, CustomEmoji}

  /** The formatting kinds whose wire form carries nothing but offset, length and (for Pre) the
      language. */
  const FormattingKinds: set<EntityType> :=
    {Bold, Italic, Underline, StrikeOut, Code, Pre, Blockquote, Spoiler}

  /** The wire variants that can leave the encoder under ConvertOption::SkipLocal. */
  predicate IsServerSideWire(w: MessageEntity) {
    || w.MessageEntityBold? || w.MessageEntityItalic? || w.MessageEntityUnderline?
    || w.MessageEntityStrike? || w.MessageEntityCode? || w.MessageEntityPre?
    || w.MessageEntityBlockquote? || w.MessageEntitySpoiler?
    || w.InputMessageEntityMentionName? || w.MessageEntityTextUrl? || w.MessageEntityCustomEmoji?
  }

  /** The in-memory kind a wire variant stands for; None for the variants the client drops
      whatever their content (unknown, phone number, bank card). */
  function DecodedKind(w: MessageEntity): Option<EntityType> {
    match w
    case MessageEntityUnknown(_, _) => None
    case MessageEntityMention(_, _) => Some(Mention)
    case MessageEntityHashtag(_, _) => Some(Hashtag)
    case MessageEntityBotCommand(_, _) => Some(BotCommand)
    case MessageEntityUrl(_, _) => Some(Url)
    case MessageEntityEmail(_, _) => Some(Email)
    case MessageEntityBold(_, _) => Some(Bold)
    case MessageEntityItalic(_, _) => Some(Italic)
    case MessageEntityCode(_, _) => Some(Code)
    case MessageEntityPre(_, _, _) => Some(Pre)
    case MessageEntityTextUrl(_, _, _) => Some(CustomUrl)
    case MessageEntityMentionName(_, _, _) => Some(MentionName)
    case InputMessageEntityMentionName(_, _, _) => Some(MentionName)
    case MessageEntityPhone(_, _) => None
    case MessageEntityCashtag(_, _) => Some(Cashtag)
    case MessageEntityUnderline(_, _) => Some(Underline)
    case MessageEntityStrike(_, _) => Some(StrikeOut)
    case MessageEntityBankCard(_, _) => None
    case MessageEntitySpoiler(_, _) => Some(Spoiler)
    case MessageEntityCustomEmoji(_, _, _) => Some(CustomEmoji)
    case MessageEntityBlockquote(_, _) => Some(Blockquote)
  }

  // ---------------------------------------------------------------------------------------
  // Decoding: EntitiesFromMTP
  // ---------------------------------------------------------------------------------------

  /** The MentionName payload made for a wire mention-name entity, or "" for a user variant
      the decoder does not handle. */
  function InputMentionData(s: SessionData, h: Helpers, user: InputUser): (data: string)
    ensures user.InputUserEmpty? || user.InputUserFromMessage? ==> data == []
  {
    match user
    case InputUserSelf =>
      h.mentionNameDataFromFields(MentionNameFields(s.userId, s.userId, s.accessHash))
    case InputUser(userId, accessHash) =>
      h.mentionNameDataFromFields(MentionNameFields(s.userId, userId, accessHash))
    case _ => []
  }

  /** The access hash of a loaded user, 0 for a user that is not loaded. */
  function LoadedAccessHash(s: SessionData, userId: int): (r: int)
    ensures userId in s.loadedUsers ==> r == s.loadedUsers[userId]
    ensures userId !in s.loadedUsers ==> r == 0
  {
    if userId in s.loadedUsers then s.loadedUsers[userId] else 0
  }

  /** One step of EntitiesFromMTP: the entity pushed for `w`, if any. */
  function DecodeEntity(session: Option<SessionData>, h: Helpers, w: MessageEntity): (r: Option<EntityInText>)
    ensures r.Some? ==> r.value.offset == w.offset && r.value.length == w.length
    ensures r.Some? ==> DecodedKind(w) == Some(r.value.kind)
    ensures DecodedKind(w).None? ==> r.None?
    ensures DecodedKind(w).Some? && DecodedKind(w) != Some(MentionName) ==> r.Some?
    ensures session.None? && DecodedKind(w) == Some(MentionName) ==> r.None?
    ensures w.InputMessageEntityMentionName? && !w.user.InputUserSelf? && !w.user.InputUser? ==> r.None?
    ensures w.MessageEntityPre? ==> r == Some(EntityInText(Pre, w.offset, w.length, w.language))
    ensures w.MessageEntityTextUrl? ==> r == Some(EntityInText(CustomUrl, w.offset, w.length, w.url))
  {
    match w
    case MessageEntityUnknown(_, _) => None
    case MessageEntityMention(o, l) => Some(EntityInText(Mention, o, l, []))
    case MessageEntityHashtag(o, l) => Some(EntityInText(Hashtag, o, l, []))
    case MessageEntityBotCommand(o, l) => Some(EntityInText(BotCommand, o, l, []))
    case MessageEntityUrl(o, l) => Some(EntityInText(Url, o, l, []))
    case MessageEntityEmail(o, l) => Some(EntityInText(Email, o, l, []))
    case MessageEntityBold(o, l) => Some(EntityInText(Bold, o, l, []))
    case MessageEntityItalic(o, l) => Some(EntityInText(Italic, o, l, []))
    case MessageEntityCode(o, l) => Some(EntityInText(Code, o, l, []))
    case MessageEntityPre(o, l, language) => Some(EntityInText(Pre, o, l, language))
    case MessageEntityTextUrl(o, l, url) => Some(EntityInText(CustomUrl, o, l, url))
    case MessageEntityMentionName(o, l, userId) =>
      if session.None? then None
      else
        var s := session.value;
        var data := h.mentionNameDataFromFields(
          MentionNameFields(s.userId, userId, LoadedAccessHash(s, userId)));
        Some(EntityInText(MentionName, o, l, data))
    case InputMessageEntityMentionName(o, l, user) =>
      if session.None? then None
      else
        var data := InputMentionData(session.value, h, user);
        if data != [] then Some(EntityInText(MentionName, o, l, data)) else None
    case MessageEntityPhone(_, _) => None
    case MessageEntityCashtag(o, l) => Some(EntityInText(Cashtag, o, l, []))
    case MessageEntityUnderline(o, l) => Some(EntityInText(Underline, o, l, []))
    case MessageEntityStrike(o, l) => Some(EntityInText(StrikeOut, o, l, []))
    case MessageEntityBankCard(_, _) => None
    case MessageEntitySpoiler(o, l) => Some(EntityInText(Spoiler, o, l, []))
    case MessageEntityCustomEmoji(o, l, documentId) =>
      Some(EntityInText(CustomEmoji, o, l, h.serializeCustomEmojiId(documentId)))
    case MessageEntityBlockquote(o, l) => Some(EntityInText(Blockquote, o, l, []))
  }

  /** The conversion EntitiesFromMTP applies to each wire entity. */
  function Decoder(session: Option<SessionData>, h: Helpers): MessageEntity -> Option<EntityInText> {
    w => DecodeEntity(session, h, w)
  }

  /** EntitiesFromMTP as a filter-map over the wire list. */
  function DecodeAll(session: Option<SessionData>, h: Helpers, ws: seq<MessageEntity>): seq<EntityInText> {
    FilterMap(Decoder(session, h), ws)
  }

  /** EntitiesFromMTP: the loop over the wire list, pushing what each entity decodes to. */
  method EntitiesFromMTP(session: Option<SessionData>, h: Helpers, entities: seq<MessageEntity>)
    returns (result: seq<EntityInText>)
    ensures result == DecodeAll(session, h, entities)
    ensures entities == [] ==> result == []
  {
    if entities == [] {
      return [];
    }
    result := [];
    var i := 0;
    while i < |entities|
      invariant 0 <= i <= |entities|
      invariant result == DecodeAll(session, h, entities[..i])
    {
      var decoded := DecodeEntity(session, h, entities[i]);
      assert entities[..i + 1] == entities[..i] + [entities[i]];
      FilterMapPush(Decoder(session, h), entities[..i], entities[i]);
      if decoded.Some? {
        result := result + [decoded.value];
      }
      i := i + 1;
    }
    assert entities[..|entities|] == entities;
  }

  // ---------------------------------------------------------------------------------------
  // Encoding: EntitiesToMTP
  // ---------------------------------------------------------------------------------------

  /** CustomEmojiEntity: the wire custom emoji for a payload, or nothing when it does not parse. */
  function CustomEmojiEntity(h: Helpers, offset: int, length: int, data: string): (r: Option<MessageEntity>)
    ensures r.None? <==> h.parseCustomEmojiData(data) == 0
    ensures r.Some? ==> r.value.MessageEntityCustomEmoji? && r.value.documentId != 0
    ensures r.Some? ==> r.value.offset == offset && r.value.length == length
  {
    var parsed := h.parseCustomEmojiData(data);
    if parsed == 0 then None
    else Some(MessageEntityCustomEmoji(offset, length, parsed))
  }

  /** MentionNameEntity: a mention-name payload is sent only when it names a user and was made
      by this session's user; a mention of oneself goes out as inputUserSelf. */
  function MentionNameEntity(s: SessionData, h: Helpers, offset: int, length: int, data: string)
    : (r: Option<MessageEntity>)
    ensures var f := h.mentionNameDataToFields(data);
      r.Some? <==> f.userId != 0 && f.selfId == s.userId
    ensures var f := h.mentionNameDataToFields(data);
      r.Some? ==> && r.value.InputMessageEntityMentionName?
                  && r.value.offset == offset && r.value.length == length
                  && (r.value.user.InputUserSelf? <==> f.userId == s.userId)
                  && (!r.value.user.InputUserSelf? ==>
                        r.value.user == InputUser(f.userId, f.accessHash))
  {
    var parsed := h.mentionNameDataToFields(data);
    if parsed.userId == 0 || parsed.selfId != s.userId then None
    else
      Some(InputMessageEntityMentionName(offset, length,
        if parsed.userId == parsed.selfId then InputUserSelf
        else InputUser(parsed.userId, parsed.accessHash)))
  }

  /** The prefix the user-link regular expression `^(?i)tg://user\?(.+)` requires. */
  const UserLinkPrefix: string := "tg://user?"

  /** The regular expression step: the captured query of a trimmed user link, or None when the
      text does not match. */
  function UserLinkQuery(trimmed: string): (r: Option<string>)
    ensures r.Some? ==> |trimmed| > |UserLinkPrefix|
    ensures r.Some? ==> CaselessEquals(trimmed[..|UserLinkPrefix|], UserLinkPrefix)
    ensures r.Some? ==> r.value != [] && '\n' !in r.value
    ensures r.Some? ==> && |UserLinkPrefix| + |r.value| <= |trimmed|
                        && r.value == trimmed[|UserLinkPrefix|..|UserLinkPrefix| + |r.value|]
    ensures && |trimmed| > |UserLinkPrefix|
            && CaselessEquals(trimmed[..|UserLinkPrefix|], UserLinkPrefix)
            && trimmed[|UserLinkPrefix|] != '\n'
            ==> r == Some(TakeLine(trimmed[|UserLinkPrefix|..]))
  {
    var n := |UserLinkPrefix|;
    if |trimmed| > n && CaselessEquals(trimmed[..n], UserLinkPrefix) then
      var query := TakeLine(trimmed[n..]);
      if query == [] then None else Some(query)
    else None
  }

  /** The user id a custom URL links to: the "id" parameter of a trimmed `tg://user?` link,
      when present and numeric. */
  function UserLinkId(h: Helpers, url: string): (r: Option<int>)
    ensures r.Some? ==> UserLinkQuery(Trim(url)).Some?
    ensures r.Some? ==> h.toLongLong(h.urlParamId(UserLinkQuery(Trim(url)).value)) == r
    ensures UserLinkQuery(Trim(url)).Some? && h.urlParamId(UserLinkQuery(Trim(url)).value) != [] ==>
              r == h.toLongLong(h.urlParamId(UserLinkQuery(Trim(url)).value))
  {
    var trimmed := Trim(url);
    if trimmed == [] then None
    else
      match UserLinkQuery(trimmed)
      case None => None
      case Some(query) =>
        var idText := h.urlParamId(query);
        if idText == [] then None else h.toLongLong(idText)
  }

  /** The input user the CustomUrl case of EntitiesToMTP resolves a link to: oneself, a loaded
      user with its access hash, or inputUserEmpty. */
  function LinkInputUser(s: SessionData, h: Helpers, url: string): (u: InputUser)
    ensures u.InputUserEmpty? || u.InputUserSelf? || u.InputUser?
    ensures u.InputUserSelf? <==> UserLinkId(h, url) == Some(s.userId)
    ensures u.InputUser? ==> && UserLinkId(h, url) == Some(u.userId) && u.userId != s.userId
                             && u.userId in s.loadedUsers && u.accessHash == s.loadedUsers[u.userId]
    ensures u.InputUserEmpty? <==>
      (UserLinkId(h, url).None?
       || (UserLinkId(h, url).value != s.userId && UserLinkId(h, url).value !in s.loadedUsers))
  {
    match UserLinkId(h, url)
    case None => InputUserEmpty
    case Some(uid) =>
      if uid == s.userId then InputUserSelf
      else if uid in s.loadedUsers then InputUser(uid, s.loadedUsers[uid])
      else InputUserEmpty
  }

  /** One step of EntitiesToMTP: the wire entity pushed for `e`, if any. */
  function EncodeEntity(s: SessionData, h: Helpers, e: EntityInText, option: ConvertOption)
    : (r: Option<MessageEntity>)
    ensures r.Some? ==> e.length > 0
    ensures r.Some? ==> r.value.offset == e.offset && r.value.length == e.length
    ensures r.Some? && option == SkipLocal ==> e.kind in ServerSideKinds && IsServerSideWire(r.value)
    ensures r.Some? ==> DecodedKind(r.value) == Some(e.kind)
                        || (e.kind == CustomUrl && r.value.InputMessageEntityMentionName?)
    ensures e.kind == Invalid || e.kind == Semibold ==> r.None?
    ensures (&& e.length > 0 && (option == WithLocal || e.kind in ServerSideKinds)
             && e.kind !in {Invalid, Semibold, MentionName, CustomEmoji}) ==> r.Some?
  {
    if e.length <= 0 then None
    else if option == SkipLocal && e.kind !in ServerSideKinds then None
    else
      var offset, length := e.offset, e.length;
      match e.kind
      case Url => Some(MessageEntityUrl(offset, length))
      case CustomUrl =>
        var inputUser := LinkInputUser(s, h, e.data);
        if !inputUser.InputUserEmpty? then Some(InputMessageEntityMentionName(offset, length, inputUser))
        else Some(MessageEntityTextUrl(offset, length, e.data))
      case Email => Some(MessageEntityEmail(offset, length))
      case Hashtag => Some(MessageEntityHashtag(offset, length))
      case Cashtag => Some(MessageEntityCashtag(offset, length))
      case Mention => Some(MessageEntityMention(offset, length))
      case MentionName => MentionNameEntity(s, h, offset, length, e.data)
      case BotCommand => Some(MessageEntityBotCommand(offset, length))
      case Bold => Some(MessageEntityBold(offset, length))
      case Italic => Some(MessageEntityItalic(offset, length))
      case Underline => Some(MessageEntityUnderline(offset, length))
      case StrikeOut => Some(MessageEntityStrike(offset, length))
      case Code => Some(MessageEntityCode(offset, length))
      case Pre => Some(MessageEntityPre(offset, length, e.data))
      case Blockquote => Some(MessageEntityBlockquote(offset, length))
      case Spoiler => Some(MessageEntitySpoiler(offset, length))
      case CustomEmoji => CustomEmojiEntity(h, offset, length, e.data)
      case _ => None
  }

  /** The conversion EntitiesToMTP applies to each in-memory entity. */
  function Encoder(s: SessionData, h: Helpers, option: ConvertOption): EntityInText -> Option<MessageEntity> {
    e => EncodeEntity(s, h, e, option)
  }

  /** EntitiesToMTP as a filter-map over the in-memory list. */
  function EncodeAll(s: SessionData, h: Helpers, es: seq<EntityInText>, option: ConvertOption)
    : seq<MessageEntity>
  {
    FilterMap(Encoder(s, h, option), es)
  }

  /** EntitiesToMTP: the loop over the in-memory list, pushing what each entity encodes to. */
  method EntitiesToMTP(s: SessionData, h: Helpers, entities: seq<EntityInText>, option: ConvertOption)
    returns (v: seq<MessageEntity>)
    ensures v == EncodeAll(s, h, entities, option)
  {
    v := [];
    var i := 0;
    while i < |entities|
      invariant 0 <= i <= |entities|
      invariant v == EncodeAll(s, h, entities[..i], option)
    {
      var encoded := EncodeEntity(s, h, entities[i], option);
      assert entities[..i + 1] == entities[..i] + [entities[i]];
      FilterMapPush(Encoder(s, h, option), entities[..i], entities[i]);
      if encoded.Some? {
        v := v + [encoded.value];
      }
      i := i + 1;
    }
    assert entities[..|entities|] == entities;
  }

  // ---------------------------------------------------------------------------------------
  // Properties of the codec
  // ---------------------------------------------------------------------------------------

  /** Decoding never yields a kind without a wire form (Invalid, Semibold), and without a
      session it yields no mention-name. */
  lemma DecodeAllKinds(session: Option<SessionData>, h: Helpers, ws: seq<MessageEntity>)
    ensures var r := DecodeAll(session, h, ws);
      forall j :: 0 <= j < |r| ==> && r[j].kind != Invalid && r[j].kind != Semibold
                                   && (session.None? ==> r[j].kind != MentionName)
  {
    FilterMapSources(Decoder(session, h), ws);
    var f := Decoder(session, h);
    forall j | 0 <= j < |FilterMap(f, ws)|
      ensures var e := FilterMap(f, ws)[j];
        e.kind != Invalid && e.kind != Semibold && (session.None? ==> e.kind != MentionName)
    {
      var i :| 0 <= i < |ws| && f(ws[i]) == Some(FilterMap(f, ws)[j]);
      assert DecodeEntity(session, h, ws[i]) == Some(FilterMap(f, ws)[j]);
    }
  }

  /** Every entity the encoder sends has a positive length, and under SkipLocal is one of
      the server-side wire variants. */
  lemma EncodeAllWellFormed(s: SessionData, h: Helpers, es: seq<EntityInText>, option: ConvertOption)
    ensures var r := EncodeAll(s, h, es, option);
      forall j :: 0 <= j < |r| ==> r[j].length > 0 && (option == SkipLocal ==> IsServerSideWire(r[j]))
  {
    FilterMapSources(Encoder(s, h, option), es);
    var f := Encoder(s, h, option);
    forall j | 0 <= j < |FilterMap(f, es)|
      ensures var w := FilterMap(f, es)[j]; w.length > 0 && (option == SkipLocal ==> IsServerSideWire(w))
    {
      var i :| 0 <= i < |es| && f(es[i]) == Some(FilterMap(f, es)[j]);
      assert EncodeEntity(s, h, es[i], option) == Some(FilterMap(f, es)[j]);
    }
  }

  /** One formatting entity survives encode-then-decode. */
  lemma FormattingEntityRoundTrip(s: SessionData, h: Helpers, e: EntityInText, option: ConvertOption)
    requires e.length > 0 && e.kind in FormattingKinds && (e.kind != Pre ==> e.data == [])
    ensures var w := EncodeEntity(s, h, e, option);
      w.Some? && DecodeEntity(Some(s), h, w.value) == Some(e)
  {
    match e.kind
    case Bold =>
    case Italic =>
    case Underline =>
    case StrikeOut =>
    case Code =>
    case Pre =>
    case Blockquote =>
    case Spoiler =>
  }

  /** Formatting entities survive encode-then-decode: same kind, offset and length, and a Pre
      block keeps its language. */
  lemma {:induction false} FormattingRoundTrip(s: SessionData, h: Helpers, es: seq<EntityInText>,
                                               option: ConvertOption)
    requires forall i :: 0 <= i < |es| ==> es[i].length > 0 && es[i].kind in FormattingKinds
    requires forall i :: 0 <= i < |es| && es[i].kind != Pre ==> es[i].data == []
    ensures DecodeAll(Some(s), h, EncodeAll(s, h, es, option)) == es
  {
    if es != [] {
      var init, last := es[..|es| - 1], es[|es| - 1];
      FormattingRoundTrip(s, h, init, option);
      assert init + [last] == es;
      FormattingPush(s, h, init, last, option);
    }
  }

  /** Appending one formatting entity appends it to the round trip as well. */
  lemma FormattingPush(s: SessionData, h: Helpers, init: seq<EntityInText>, last: EntityInText,
                       option: ConvertOption)
    requires last.length > 0 && last.kind in FormattingKinds && (last.kind != Pre ==> last.data == [])
    ensures DecodeAll(Some(s), h, EncodeAll(s, h, init + [last], option))
            == DecodeAll(Some(s), h, EncodeAll(s, h, init, option)) + [last]
  {
    FormattingEntityRoundTrip(s, h, last, option);
    var w := EncodeEntity(s, h, last, option).value;
    FilterMapPush(Encoder(s, h, option), init, last);
    FilterMapPush(Decoder(Some(s), h), EncodeAll(s, h, init, option), w);
  }

  /** After a SkipLocal round trip only the server-side kinds are left: plain mentions,
      hashtags, cashtags, bot commands, e-mails and bare URLs are gone. */
  lemma SkipLocalRoundTripKinds(s: SessionData, h: Helpers, es: seq<EntityInText>)
    ensures var r := DecodeAll(Some(s), h, EncodeAll(s, h, es, SkipLocal));
      forall i :: 0 <= i < |r| ==> r[i].kind in ServerSideKinds
  {
    EncodeAllWellFormed(s, h, es, SkipLocal);
    ServerSideWireDecodes(s, h, EncodeAll(s, h, es, SkipLocal));
  }

  /** Decoding a list of server-side wire entities yields server-side kinds only. */
  lemma ServerSideWireDecodes(s: SessionData, h: Helpers, ws: seq<MessageEntity>)
    requires forall i :: 0 <= i < |ws| ==> IsServerSideWire(ws[i])
    ensures var r := DecodeAll(Some(s), h, ws); forall i :: 0 <= i < |r| ==> r[i].kind in ServerSideKinds
  {
    FilterMapSources(Decoder(Some(s), h), ws);
    var f := Decoder(Some(s), h);
    forall j | 0 <= j < |FilterMap(f, ws)| ensures FilterMap(f, ws)[j].kind in ServerSideKinds {
      var i :| 0 <= i < |ws| && f(ws[i]) == Some(FilterMap(f, ws)[j]);
      assert DecodeEntity(Some(s), h, ws[i]) == Some(FilterMap(f, ws)[j]);
    }
  }

  /** One wire formatting entity, or custom emoji with a document id, survives
      decode-then-encode. */
  lemma WireEntityRoundTrip(s: SessionData, h: Helpers, w: MessageEntity, option: ConvertOption)
    requires CustomEmojiDataRoundTrips(h)
    requires w.length > 0 && KeptByWireRoundTrip(w)
    ensures var e := DecodeEntity(Some(s), h, w);
      e.Some? && EncodeEntity(s, h, e.value, option) == Some(w)
  {
    match w
    case MessageEntityBold(_, _) =>
    case MessageEntityItalic(_, _) =>
    case MessageEntityUnderline(_, _) =>
    case MessageEntityStrike(_, _) =>
    case MessageEntityCode(_, _) =>
    case MessageEntityPre(_, _, _) =>
    case MessageEntityBlockquote(_, _) =>
    case MessageEntitySpoiler(_, _) =>
    case MessageEntityCustomEmoji(_, _, documentId) =>
      assert h.parseCustomEmojiData(h.serializeCustomEmojiId(documentId)) == documentId;
  }

  /** Wire formatting entities of positive length, and custom emoji with a document id, come
      back unchanged from decode-then-encode. */
  lemma WireRoundTrip(s: SessionData, h: Helpers, ws: seq<MessageEntity>, option: ConvertOption)
    requires CustomEmojiDataRoundTrips(h)
    requires forall i :: 0 <= i < |ws| ==> ws[i].length > 0 && KeptByWireRoundTrip(ws[i])
    ensures EncodeAll(s, h, DecodeAll(Some(s), h, ws), option) == ws
  {
    forall i | 0 <= i < |ws| ensures DecodeEntity(Some(s), h, ws[i]).Some? {
      WireEntityRoundTrip(s, h, ws[i], option);
    }
    FilterMapTotal(Decoder(Some(s), h), ws);
    var decoded := DecodeAll(Some(s), h, ws);
    forall i | 0 <= i < |decoded|
      ensures EncodeEntity(s, h, decoded[i], option) == Some(ws[i])
    {
      WireEntityRoundTrip(s, h, ws[i], option);
    }
    FilterMapTotal(Encoder(s, h, option), decoded);
  }

  /** The wire entities decode-then-encode gives back unchanged: the formatting variants and
      custom emoji with a document id. */
  predicate KeptByWireRoundTrip(w: MessageEntity) {
    DecodedKind(w).Some?
    && (DecodedKind(w).value in FormattingKinds || (w.MessageEntityCustomEmoji? && w.documentId != 0))
  }

  /** A received mention-name entity is re-sent as an input mention of the same user: oneself
      as inputUserSelf, anybody else with the access hash known when it was received. */
  lemma MentionNameRoundTrip(s: SessionData, h: Helpers, offset: int, length: int, userId: int)
    requires MentionDataRoundTrips(h)
    requires userId != 0 && length > 0
    ensures var e := DecodeEntity(Some(s), h, MessageEntityMentionName(offset, length, userId));
      && e.Some?
      && EncodeEntity(s, h, e.value, SkipLocal)
         == Some(InputMessageEntityMentionName(offset, length,
              if userId == s.userId then InputUserSelf
              else InputUser(userId, LoadedAccessHash(s, userId))))
  {
    var f := MentionNameFields(s.userId, userId, LoadedAccessHash(s, userId));
    assert h.mentionNameDataToFields(h.mentionNameDataFromFields(f)) == f;
  }

  /** An input mention of a user other than oneself round-trips unchanged, and so does a
      mention of oneself. */
  lemma InputMentionNameRoundTrip(s: SessionData, h: Helpers, offset: int, length: int, user: InputUser)
    requires MentionDataRoundTrips(h) && MentionDataNonEmpty(h)
    requires length > 0
    requires (user.InputUser? && user.userId != 0 && user.userId != s.userId)
             || (user.InputUserSelf? && s.userId != 0)
    ensures var w := InputMessageEntityMentionName(offset, length, user);
      var e := DecodeEntity(Some(s), h, w);
      e.Some? && EncodeEntity(s, h, e.value, SkipLocal) == Some(w)
  {
    var f := if user.InputUserSelf? then MentionNameFields(s.userId, s.userId, s.accessHash)
             else MentionNameFields(s.userId, user.userId, user.accessHash);
    assert h.mentionNameDataToFields(h.mentionNameDataFromFields(f)) == f;
    assert h.mentionNameDataFromFields(f) != [];
  }

  /** A mention-name payload made by another account is never sent. */
  lemma ForeignMentionDropped(s: SessionData, h: Helpers, e: EntityInText, option: ConvertOption)
    requires e.kind == MentionName
    requires h.mentionNameDataToFields(e.data).selfId != s.userId
    ensures EncodeEntity(s, h, e, option).None?
  {
  }

  /** A custom emoji whose payload does not parse is dropped rather than sent. */
  lemma UnparsedCustomEmojiDropped(s: SessionData, h: Helpers, e: EntityInText, option: ConvertOption)
    requires e.kind == CustomEmoji && h.parseCustomEmojiData(e.data) == 0
    ensures EncodeEntity(s, h, e, option).None?
  {
  }

  /** A custom URL is sent as a mention of the user its `tg://user?id=` link resolves to, and
      otherwise as a text URL carrying the untrimmed address. */
  lemma CustomUrlEncoding(s: SessionData, h: Helpers, e: EntityInText, option: ConvertOption)
    requires e.kind == CustomUrl && e.length > 0
    ensures var r := EncodeEntity(s, h, e, option);
      && (UserLinkId(h, e.data) == Some(s.userId) ==>
            r == Some(InputMessageEntityMentionName(e.offset, e.length, InputUserSelf)))
      && (forall uid :: UserLinkId(h, e.data) == Some(uid) && uid != s.userId && uid in s.loadedUsers ==>
            r == Some(InputMessageEntityMentionName(e.offset, e.length, InputUser(uid, s.loadedUsers[uid]))))
      && (LinkInputUser(s, h, e.data).InputUserEmpty? ==>
            r == Some(MessageEntityTextUrl(e.offset, e.length, e.data)))
  {
  }

  /** The link "tg://user?id=12345", in either letter case of its scheme and host, names
      user 12345 when the parameter parser reads that id from it. */
  lemma UserLinkExampleId(h: Helpers, url: string)
    requires url == "tg://user?id=12345" || url == "TG://User?id=12345"
    requires h.urlParamId("id=12345") == "12345" && h.toLongLong("12345") == Some(12345)
    ensures UserLinkId(h, url) == Some(12345)
  {
    assert !IsSpace(url[0]) && !IsSpace(url[|url| - 1]);
    assert Trim(url) == url;
    UserLinkQueryExample(url);
  }

  /** The query of either spelling of the example link is "id=12345". */
  lemma UserLinkQueryExample(url: string)
    requires url == "tg://user?id=12345" || url == "TG://User?id=12345"
    ensures UserLinkQuery(url) == Some("id=12345")
  {
    var n := |UserLinkPrefix|;
    assert CaselessEquals(url[..n], UserLinkPrefix) by {
      forall i | 0 <= i < n ensures LowerAscii(url[i]) == LowerAscii(UserLinkPrefix[i]) {
        assert url[i] == UserLinkPrefix[i] || url[i] as int == UserLinkPrefix[i] as int - 32;
      }
    }
    var rest := url[n..];
    assert rest == "id=12345";
    assert TakeLine(rest) == rest;
  }

  /** The link "tg://user?id=12345": a mention of user 12345 when that user is loaded, the
      literal text URL when not. */
  lemma UserLinkExample(s: SessionData, h: Helpers, url: string)
    requires url == "tg://user?id=12345" || url == "TG://User?id=12345"
    requires h.urlParamId("id=12345") == "12345" && h.toLongLong("12345") == Some(12345)
    requires s.userId != 12345
    ensures var e := EntityInText(CustomUrl, 0, 5, url);
      && (12345 in s.loadedUsers ==>
            EncodeEntity(s, h, e, SkipLocal)
            == Some(InputMessageEntityMentionName(0, 5, InputUser(12345, s.loadedUsers[12345]))))
      && (12345 !in s.loadedUsers ==>
            EncodeEntity(s, h, e, SkipLocal) == Some(MessageEntityTextUrl(0, 5, url)))
  {
    UserLinkExampleId(h, url);
    CustomUrlEncoding(s, h, EntityInText(CustomUrl, 0, 5, url), SkipLocal);
  }
}
