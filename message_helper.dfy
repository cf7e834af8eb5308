/**
 * The message utilities of the chat kit: at-mention highlighting, the
 * re-edit window of revoked messages, revoke tombstones, reply and
 * at-mention extensions, the merge-forward file and attachment, and the
 * newest-first ordering of message lists.
 */
module MessageHelper {
  import opened Common

  /** Two minutes in milliseconds: how long a self-revoked message may be re-edited. */
  const RevokeTimeInterval: int := 2 * 60 * 1000

  // Keys of the server and local extensions. Their string values live in
  // ChatKitUIConstant and RouterConstant; the model uses each constant's
  // name as its value, which keeps them pairwise distinct.
  const ReplyKey := "REPLY_REMOTE_EXTENSION_KEY"
  const AitKey := "AIT_REMOTE_EXTENSION_KEY"
  const NickKey := "KEY_MERGE_REMOTE_EXTENSION_NICK"
  const AvatarKey := "KEY_MERGE_REMOTE_EXTENSION_AVATAR"
  const ReplyUuidKey := "REPLY_UUID_KEY"
  const ReplyTypeKey := "REPLY_TYPE_KEY"
  const ReplyFromKey := "REPLY_FROM_KEY"
  const ReplyToKey := "REPLY_TO_KEY"
  const ReplyServerIdKey := "REPLY_SERVER_ID_KEY"
  const ReplyTimeKey := "REPLY_TIME_KEY"
  const RevokeTag := "KEY_REVOKE_TAG"
  const RevokeTimeTag := "KEY_REVOKE_TIME_TAG"
  const RevokeContentTag := "KEY_REVOKE_CONTENT_TAG"
  const RevokeRichContentTag := "KEY_REVOKE_RICH_CONTENT_TAG"
  const RevokeEditTag := "KEY_REVOKE_EDIT_TAG"

  // ---------------------------------------------------------------------
  // At-mention highlighting
  // ---------------------------------------------------------------------

  /** A highlight span set on the text, from `start` up to `end`. */
  datatype Span = Span(start: int, end: int)

  /** The UTF-16 code units of one character: two for one outside the Basic Multilingual Plane. */
  function CodeUnits(c: char): nat {
    if c as int > 0xFFFF then 2 else 1
  }

  /**
   * Java's `String.length()`: the text's length in UTF-16 code units, the
   * unit the at-mention segment offsets are counted in.
   */
  function Utf16Length(s: string): (n: nat)
    ensures |s| <= n <= 2 * |s|
    ensures n == 0 <==> s == []
  {
    if s == [] then 0 else Utf16Length(s[..|s| - 1]) + CodeUnits(s[|s| - 1])
  }

  /** On text inside the Basic Multilingual Plane, UTF-16 length is the character count. */
  lemma {:induction false} Utf16LengthOfBmp(s: string)
    requires forall i :: 0 <= i < |s| ==> s[i] as int <= 0xFFFF
    ensures Utf16Length(s) == |s|
  {
    if s != [] {
      Utf16LengthOfBmp(s[..|s| - 1]);
    }
  }

  /** Each character outside the Basic Multilingual Plane adds one unit to the length. */
  lemma {:induction false} Utf16LengthCountsWide(s: string)
    ensures Utf16Length(s) == |s| + |set i | 0 <= i < |s| && s[i] as int > 0xFFFF|
  {
    if s != [] {
      var p := s[..|s| - 1];
      Utf16LengthCountsWide(p);
      var before := set i | 0 <= i < |p| && p[i] as int > 0xFFFF;
      var after := set i | 0 <= i < |s| && s[i] as int > 0xFFFF;
      if s[|s| - 1] as int > 0xFFFF {
        assert after == before + {|s| - 1};
      } else {
        assert after == before;
      }
    }
  }

  /** The range check a segment must pass before it is highlighted. */
  predicate SegmentInRange(seg: AitSegment, contentLength: int) {
    seg.start >= 0 && seg.end > seg.start && seg.end < contentLength
  }

  /** The decoded at-mention entry of a message's server extension, if any. */
  function AitBlocksOf(m: Message): Option<seq<AitBlock>> {
    if m.serverExt.Some? && AitKey in m.serverExt.value && m.serverExt.value[AitKey].AtPayload?
    then Some(m.serverExt.value[AitKey].blocks)
    else None
  }

  /** The spans one block contributes: its in-range segments, in order. */
  function SegmentSpans(segs: seq<AitSegment>, contentLength: int): seq<Span> {
    if segs == [] then []
    else
      (if SegmentInRange(segs[0], contentLength) then [Span(segs[0].start, segs[0].end)] else [])
      + SegmentSpans(segs[1..], contentLength)
  }

  /** Every span highlighted for `blocks` over `content`, block by block. */
  function HighlightSpans(blocks: seq<AitBlock>, content: string): seq<Span> {
    if blocks == [] then []
    else SegmentSpans(blocks[0].segments, Utf16Length(content)) + HighlightSpans(blocks[1..], content)
  }

  /** The spans identifyAtExpression sets for an optional at-mention model. */
  function AtHighlights(model: Option<seq<AitBlock>>, content: string): seq<Span> {
    if model.Some? && content != "" then HighlightSpans(model.value, content) else []
  }

  /** identifyAtExpression on an already decoded at-mention model. */
  method IdentifyAtExpression(model: Option<seq<AitBlock>>, content: string) returns (spans: seq<Span>)
    ensures spans == AtHighlights(model, content)
  {
    spans := [];
    if model.Some? && content != "" {
      var blocks := model.value;
      var length := Utf16Length(content);
      var b := 0;
      while b < |blocks|
        invariant 0 <= b <= |blocks|
        invariant spans + HighlightSpans(blocks[b..], content) == HighlightSpans(blocks, content)
      {
        var segs := blocks[b].segments;
        var k := 0;
        ghost var before := spans;
        while k < |segs|
          invariant 0 <= k <= |segs|
          invariant spans + SegmentSpans(segs[k..], length) == before + SegmentSpans(segs, length)
        {
          var seg := segs[k];
          if seg.start >= 0 && seg.end > seg.start && seg.end < length {
            spans := spans + [Span(seg.start, seg.end)];
          }
          assert segs[k..][1..] == segs[k + 1..];
          k := k + 1;
        }
        assert segs[k..] == [];
        assert spans == before + SegmentSpans(segs, length);
        assert blocks[b..][0] == blocks[b] && blocks[b..][1..] == blocks[b + 1..];
        assert HighlightSpans(blocks[b..], content)
            == SegmentSpans(segs, length) + HighlightSpans(blocks[b + 1..], content);
        b := b + 1;
      }
    }
  }

  /** identifyAtExpression on a message: the model comes from its server extension. */
  method IdentifyAtExpressionInMessage(m: Message, content: string) returns (spans: seq<Span>)
    ensures spans == AtHighlights(AitBlocksOf(m), content)
    ensures AitBlocksOf(m).None? ==> spans == []
  {
    spans := IdentifyAtExpression(AitBlocksOf(m), content);
  }

  lemma {:induction false} SegmentSpansExact(segs: seq<AitSegment>, len: int, sp: Span)
    ensures sp in SegmentSpans(segs, len) <==>
      exists seg :: seg in segs && SegmentInRange(seg, len) && sp == Span(seg.start, seg.end)
  {
    if segs != [] {
      SegmentSpansExact(segs[1..], len, sp);
      assert forall seg :: seg in segs <==> seg == segs[0] || seg in segs[1..];
    }
  }

  /**
   * A span is highlighted exactly when some segment of some block passes
   * the range check and has that span's bounds.
   */
  lemma {:induction false} HighlightSpansExact(blocks: seq<AitBlock>, content: string, sp: Span)
    ensures sp in HighlightSpans(blocks, content) <==>
      exists b, seg :: b in blocks && seg in b.segments && SegmentInRange(seg, Utf16Length(content))
        && sp == Span(seg.start, seg.end)
  {
    if blocks != [] {
      HighlightSpansExact(blocks[1..], content, sp);
      SegmentSpansExact(blocks[0].segments, Utf16Length(content), sp);
      assert forall b :: b in blocks <==> b == blocks[0] || b in blocks[1..];
    }
  }

  /** Every highlighted span lies strictly inside the text, counted in UTF-16 units. */
  lemma HighlightsWithinContent(model: Option<seq<AitBlock>>, content: string)
    ensures forall sp :: sp in AtHighlights(model, content) ==>
      0 <= sp.start < sp.end < Utf16Length(content)
  {
    if model.Some? && content != "" {
      forall sp | sp in HighlightSpans(model.value, content)
        ensures 0 <= sp.start < sp.end < Utf16Length(content)
      {
        HighlightSpansExact(model.value, content, sp);
      }
    }
  }

  /**
   * A mention placed after an emoji: its offsets count the emoji as two
   * units, so it ends inside the five-unit text and is highlighted.
   */
  lemma MentionAfterWideCharacter()
    ensures AtHighlights(Some([AitBlock("ab", [AitSegment(2, 4)])]), "\U{1F600}@ab") == [Span(2, 4)]
  {
    var content := "\U{1F600}@ab";
    assert content[..3][..2][..1][..0] == [];
    assert content[..3][..2][..1] == content[..1] && Utf16Length(content[..1]) == 2;
    assert content[..3][..2] == content[..2] && Utf16Length(content[..2]) == 3;
    assert Utf16Length(content[..3]) == 4;
    assert Utf16Length(content) == 5;
  }

  // ---------------------------------------------------------------------
  // Revoke and re-edit
  // ---------------------------------------------------------------------

  /** A message counts as received when it is not ours and has a sender. */
  predicate IsReceivedMessage(bean: ChatMessageBean) {
    !bean.data.isSelf && bean.data.senderId != ""
  }

  /** Text messages and rich-text custom messages can be re-edited. */
  predicate CanRevokeEdit(m: Message) {
    m.kind == Text || m.attachment.RichText?
  }

  /** Whether a revoked message may still be put back into the input box at time `now`. */
  predicate RevokeMsgIsEdit(bean: ChatMessageBean, now: int) {
    !IsReceivedMessage(bean)
    && CanRevokeEdit(bean.data)
    && now - bean.data.createTime < RevokeTimeInterval
    && bean.revokeMsgEdit
  }

  /**
   * For an editable message of our own whose flag is set, re-editing is
   * offered exactly during the two minutes after its creation time.
   */
  lemma RevokeEditWindow(bean: ChatMessageBean, now: int)
    requires !IsReceivedMessage(bean) && CanRevokeEdit(bean.data) && bean.revokeMsgEdit
    ensures RevokeMsgIsEdit(bean, now) <==> now < bean.data.createTime + 120000
  {
  }

  /** Messages received from others, or without the flag, are never re-editable. */
  lemma RevokeEditNeedsOwnFlaggedMessage(bean: ChatMessageBean, now: int)
    requires IsReceivedMessage(bean) || !bean.revokeMsgEdit || !CanRevokeEdit(bean.data)
    ensures !RevokeMsgIsEdit(bean, now)
  {
  }

  /** A local message insert (ChatRepo.saveLocalMessage) of a revoke tombstone. */
  datatype LocalSave = LocalSave(
    serverExt: Option<ExtMap>,
    localExt: ExtMap,
    conversationId: ConversationId,
    senderId: string,
    createTime: int)

  /** The local extension of a tombstone for a message we revoked. */
  function SelfRevokeRecord(m: Message, canRevokeEdit: bool, clock: int): ExtMap {
    var base := map[RevokeTag := Bool(true), RevokeTimeTag := Num(clock)];
    var withContent :=
      if m.kind == Text then base[RevokeContentTag := Str(m.text)]
      else if m.kind == Custom && m.attachment.RichText? then
        base[RevokeRichContentTag := Obj(map[
          "body" := Str(m.attachment.body.GetOr("")),
          "title" := Str(m.attachment.title.GetOr(""))])]
      else base;
    withContent[RevokeEditTag := Bool(CanRevokeEdit(m) && canRevokeEdit)]
  }

  /**
   * saveLocalRevokeMessage: the tombstone of a message we revoked. It copies
   * the original's server extension and is inserted one millisecond after
   * the original, under the current account; `revokerId` plays no part.
   */
  function SaveLocalRevokeMessage(m: Message, canRevokeEdit: bool, revokerId: string,
                                  account: string, clock: int): (r: LocalSave)
    ensures r.createTime == m.createTime + 1
    ensures r.senderId == account && r.conversationId == m.conversationId
    ensures r.serverExt == m.serverExt
    ensures RevokeTag in r.localExt && r.localExt[RevokeTag] == Bool(true)
    ensures RevokeTimeTag in r.localExt && r.localExt[RevokeTimeTag] == Num(clock)
    ensures RevokeEditTag in r.localExt && r.localExt[RevokeEditTag] == Bool(CanRevokeEdit(m) && canRevokeEdit)
  {
    LocalSave(m.serverExt, SelfRevokeRecord(m, canRevokeEdit, clock), m.conversationId, account, m.createTime + 1)
  }

  /** A revoke notification: the revoked message and who revoked it. */
  datatype RevokeNotification = RevokeNotification(refer: MessageRefer, revokeAccountId: string)

  /**
   * saveLocalMessageForOthersRevokeMessage: the tombstone of a message
   * someone else revoked, at the original's own time, sent by the revoker,
   * never re-editable and without the original content.
   */
  function SaveLocalMessageForOthersRevokeMessage(n: RevokeNotification, clock: int): (r: LocalSave)
    ensures r.createTime == n.refer.createTime && r.senderId == n.revokeAccountId
    ensures r.conversationId == n.refer.conversationId && r.serverExt.None?
    ensures RevokeEditTag in r.localExt && r.localExt[RevokeEditTag] == Bool(false)
    ensures RevokeContentTag !in r.localExt && RevokeRichContentTag !in r.localExt
  {
    LocalSave(None,
      map[RevokeTag := Bool(true), RevokeTimeTag := Num(clock), RevokeEditTag := Bool(false)],
      n.refer.conversationId, n.revokeAccountId, n.refer.createTime)
  }

  /** getMessageRevokeContent: the text kept in a tombstone, or "". */
  function MessageRevokeContent(localExt: Option<ExtMap>): string {
    if localExt.Some? && RevokeContentTag in localExt.value && localExt.value[RevokeContentTag].Str?
    then localExt.value[RevokeContentTag].s
    else ""
  }

  /** getRichMessageRevokeContent: the title/body object kept in a tombstone, if any. */
  function RichMessageRevokeContent(localExt: Option<ExtMap>): Option<map<string, ExtValue>> {
    if localExt.Some? && RevokeRichContentTag in localExt.value && localExt.value[RevokeRichContentTag].Obj?
    then Some(localExt.value[RevokeRichContentTag].fields)
    else None
  }

  /**
   * Reading back a self-revoke tombstone returns the revoked text of a
   * text message, the title and body (absent ones as "") of a rich-text
   * message, and nothing else.
   */
  lemma SelfRevokeContentRoundTrip(m: Message, canRevokeEdit: bool, revokerId: string, account: string, clock: int)
    ensures var t := SaveLocalRevokeMessage(m, canRevokeEdit, revokerId, account, clock);
      && MessageRevokeContent(Some(t.localExt)) == (if m.kind == Text then m.text else "")
      && RichMessageRevokeContent(Some(t.localExt)) ==
           (if m.kind == Custom && m.attachment.RichText?
            then Some(map["body" := Str(m.attachment.body.GetOr("")), "title" := Str(m.attachment.title.GetOr(""))])
            else None)
  {
  }

  /** A tombstone of someone else's revoke gives nothing back to re-edit. */
  lemma OthersRevokeHasNoContent(n: RevokeNotification, clock: int)
    ensures var t := SaveLocalMessageForOthersRevokeMessage(n, clock);
      MessageRevokeContent(Some(t.localExt)) == "" && RichMessageRevokeContent(Some(t.localExt)).None?
  {
  }

  /**
   * Tombstone ordering: our own tombstone sorts strictly after the
   * message it replaces, someone else's takes the message's place.
   */
  lemma TombstoneTimes(m: Message, canRevokeEdit: bool, revokerId: string, account: string, clock: int,
                       n: RevokeNotification)
    requires n.refer == ReferOf(m)
    ensures SaveLocalRevokeMessage(m, canRevokeEdit, revokerId, account, clock).createTime > m.createTime
    ensures SaveLocalMessageForOthersRevokeMessage(n, clock).createTime == m.createTime
  {
  }

  // ---------------------------------------------------------------------
  // Reply and at-mention extensions
  // ---------------------------------------------------------------------

  /** The enum constant name conversationType().toString() yields. */
  function ConversationTypeName(t: ConversationType): string {
    match t
    case P2P => "V2NIM_CONVERSATION_TYPE_P2P"
    case Team => "V2NIM_CONVERSATION_TYPE_TEAM"
    case SuperTeam => "V2NIM_CONVERSATION_TYPE_SUPER_TEAM"
    case UnknownConversation => "V2NIM_CONVERSATION_TYPE_UNKNOWN"
  }

  /** What a reply extension records about the replied-to message. */
  datatype ReplyInfo = ReplyInfo(
    clientId: string, typeName: string, from: string, to: string, serverId: string, time: int)

  function ReplyInfoOfMessage(m: Message): ReplyInfo {
    ReplyInfo(m.clientId, ConversationTypeName(m.conversationId.kind), m.senderId,
      m.conversationId.target, m.serverId, m.createTime)
  }

  function EncodeReplyInfo(info: ReplyInfo): ExtValue {
    Obj(map[
      ReplyUuidKey := Str(info.clientId),
      ReplyTypeKey := Str(info.typeName),
      ReplyFromKey := Str(info.from),
      ReplyToKey := Str(info.to),
      ReplyServerIdKey := Str(info.serverId),
      ReplyTimeKey := Num(info.time)])
  }

  /** Reads a reply entry back from a server extension, if it is well formed. */
  function ReplyInfoOf(ext: Option<ExtMap>): Option<ReplyInfo> {
    if ext.Some? && ReplyKey in ext.value && ext.value[ReplyKey].Obj? then
      var f := ext.value[ReplyKey].fields;
      if ReplyUuidKey in f && f[ReplyUuidKey].Str? && ReplyTypeKey in f && f[ReplyTypeKey].Str?
        && ReplyFromKey in f && f[ReplyFromKey].Str? && ReplyToKey in f && f[ReplyToKey].Str?
        && ReplyServerIdKey in f && f[ReplyServerIdKey].Str? && ReplyTimeKey in f && f[ReplyTimeKey].Num?
      then Some(ReplyInfo(f[ReplyUuidKey].s, f[ReplyTypeKey].s, f[ReplyFromKey].s, f[ReplyToKey].s,
                          f[ReplyServerIdKey].s, f[ReplyTimeKey].n))
      else None
    else None
  }

  /**
   * createReplyExtension: with no message to reply to the extension is
   * returned as it came (possibly absent); otherwise the reply entry is
   * added, or replaced, and every other entry is kept.
   */
  function CreateReplyExtension(remote: Option<ExtMap>, replyMsg: Option<Message>): (r: Option<ExtMap>)
    ensures replyMsg.None? ==> r == remote
    ensures replyMsg.Some? ==>
      && r.Some? && ReplyKey in r.value
      && (forall k :: k in r.value && k != ReplyKey <==> k in remote.GetOr(map[]) && k != ReplyKey)
      && (forall k :: k in r.value && k != ReplyKey ==> r.value[k] == remote.GetOr(map[])[k])
  {
    if replyMsg.None? then remote
    else Some(remote.GetOr(map[])[ReplyKey := EncodeReplyInfo(ReplyInfoOfMessage(replyMsg.value))])
  }

  /** The reply entry written by createReplyExtension reads back as the replied-to message. */
  lemma ReplyExtensionRoundTrip(remote: Option<ExtMap>, replyMsg: Message)
    ensures ReplyInfoOf(CreateReplyExtension(remote, Some(replyMsg))) == Some(ReplyInfoOfMessage(replyMsg))
  {
  }

  /** The entry names the replied-to message by client id and conversation target. */
  lemma ReplyInfoIdentifiesMessage(a: Message, b: Message)
    requires ReplyInfoOfMessage(a) == ReplyInfoOfMessage(b)
    ensures a.clientId == b.clientId && a.serverId == b.serverId && a.conversationId == b.conversationId
    ensures a.senderId == b.senderId && a.createTime == b.createTime
  {
  }

  /**
   * clearAitAndReplyInfo on a forwarded copy: the reply and at-mention
   * entries go, every other entry and every other field stays. An absent
   * or unparsable extension is left alone.
   */
  function ClearAitAndReplyInfo(m: Message): (r: Message)
    ensures r.(serverExt := m.serverExt) == m
    ensures r.serverExt.Some? <==> m.serverExt.Some?
    ensures r.serverExt.Some? ==>
      (forall k :: k in r.serverExt.value <==> k in m.serverExt.value && k != ReplyKey && k != AitKey)
      && (forall k :: k in r.serverExt.value ==> r.serverExt.value[k] == m.serverExt.value[k])
  {
    if m.serverExt.Some? then m.(serverExt := Some(m.serverExt.value - {ReplyKey, AitKey}))
    else m
  }

  /** After clearing, a message neither replies to anything nor mentions anyone. */
  lemma ClearedCarriesNoReplyOrAit(m: Message)
    ensures ReplyInfoOf(ClearAitAndReplyInfo(m).serverExt).None?
    ensures AitBlocksOf(ClearAitAndReplyInfo(m)).None?
  {
  }

  // ---------------------------------------------------------------------
  // Merge-forward file
  // ---------------------------------------------------------------------

  /** Notification, audio/video call and robot messages are never merged. */
  predicate Forwardable(m: Message) {
    m.kind != Notification && m.kind != AvChat && m.kind != Robot
  }

  /** The test createForwardMessageListFileDetail applies to each message. */
  function KeepInFile(c: ConversationId): Message -> bool {
    (m: Message) => m.conversationId == c && Forwardable(m)
  }

  /** The one-line header of a merge-forward file. */
  datatype ForwardHeader = ForwardHeader(version: int, terminal: int, sdkVersion: string, messageCount: int)

  /**
   * The serialisers the file is written with: JSONObject.toString for the
   * header, V2NIMMessageConverter.messageSerialization for each message.
   */
  datatype Serializers = Serializers(header: ForwardHeader -> string, message: Message -> string)

  predicate SingleLine(s: string) {
    forall i :: 0 <= i < |s| ==> s[i] != '\n'
  }

  /** JSON text holds no raw line break, so each record takes one line. */
  ghost predicate WritesSingleLines(z: Serializers) {
    (forall h :: SingleLine(z.header(h))) && (forall m :: SingleLine(z.message(m)))
  }

  /** buildHeader: version, terminal 1 (Android), the SDK version and the count. */
  function BuildHeader(version: int, messageCount: int, sdkVersion: string): (h: ForwardHeader)
    ensures h.terminal == 1 && h.messageCount == messageCount && h.version == version
  {
    ForwardHeader(version, 1, sdkVersion, messageCount)
  }

  function SerializeAll(ms: seq<Message>, ser: Message -> string): (r: seq<string>)
    ensures |r| == |ms| && forall i :: 0 <= i < |ms| ==> r[i] == ser(ms[i])
  {
    if ms == [] then [] else [ser(ms[0])] + SerializeAll(ms[1..], ser)
  }

  /** Lines joined by "\n", with no separator before the first or after the last. */
  function JoinLines(lines: seq<string>): string {
    if lines == [] then ""
    else if |lines| == 1 then lines[0]
    else lines[0] + "\n" + JoinLines(lines[1..])
  }

  /** What the StringBuilder of buildBody holds: "\n" before every line. */
  function Prefixed(lines: seq<string>): string {
    if lines == [] then "" else "\n" + lines[0] + Prefixed(lines[1..])
  }

  /** Splits a text at every "\n"; the inverse of JoinLines on one-line records. */
  function SplitLines(s: string): (r: seq<string>)
    ensures |r| >= 1
  {
    if s == [] then [""]
    else if s[0] == '\n' then [""] + SplitLines(s[1..])
    else
      var rest := SplitLines(s[1..]);
      [[s[0]] + rest[0]] + rest[1..]
  }

  lemma {:induction false} PrefixedSnoc(lines: seq<string>, x: string)
    ensures Prefixed(lines + [x]) == Prefixed(lines) + "\n" + x
  {
    if lines != [] {
      assert (lines + [x])[1..] == lines[1..] + [x];
      PrefixedSnoc(lines[1..], x);
    }
  }

  lemma {:induction false} PrefixedIsJoin(lines: seq<string>)
    requires lines != []
    ensures Prefixed(lines) == "\n" + JoinLines(lines)
  {
    if |lines| > 1 {
      PrefixedIsJoin(lines[1..]);
    }
  }

  /** buildBody: one serialised message per line, in list order. */
  method BuildBody(msgList: seq<Message>, ser: Message -> string) returns (body: string)
    ensures body == JoinLines(SerializeAll(msgList, ser))
  {
    if msgList == [] {
      return "";
    }
    var sb := "";
    for i := 0 to |msgList|
      invariant sb == Prefixed(SerializeAll(msgList[..i], ser))
    {
      PrefixedSnoc(SerializeAll(msgList[..i], ser), ser(msgList[i]));
      assert SerializeAll(msgList[..i + 1], ser) == SerializeAll(msgList[..i], ser) + [ser(msgList[i])];
      sb := sb + "\n" + ser(msgList[i]);
    }
    assert msgList[..|msgList|] == msgList;
    PrefixedIsJoin(SerializeAll(msgList, ser));
    body := sb[1..];
  }

  /** The text of a merge-forward file for `messages`, as a specification. */
  function ForwardFileDetail(messages: seq<Message>, sdkVersion: string, z: Serializers): string {
    if messages == [] then ""
    else
      var kept := Filter(messages, KeepInFile(messages[0].conversationId));
      z.header(BuildHeader(0, |kept|, sdkVersion)) + "\n" + JoinLines(SerializeAll(kept, z.message))
  }

  /**
   * createForwardMessageListFileDetail: keeps the forwardable messages of
   * the first message's conversation and writes the header line, a line
   * break and the body.
   */
  method CreateForwardMessageListFileDetail(messages: seq<Message>, sdkVersion: string, z: Serializers)
    returns (detail: string)
    ensures detail == ForwardFileDetail(messages, sdkVersion, z)
  {
    if messages == [] {
      return "";
    }
    var conversationId := messages[0].conversationId;
    var msgList: seq<Message> := [];
    for i := 0 to |messages|
      invariant msgList == Filter(messages[..i], KeepInFile(conversationId))
    {
      FilterAppend(messages[..i], [messages[i]], KeepInFile(conversationId));
      assert messages[..i + 1] == messages[..i] + [messages[i]];
      var msg := messages[i];
      if msg.conversationId != conversationId {
        continue;
      }
      if msg.kind == Notification || msg.kind == AvChat || msg.kind == Robot {
        continue;
      }
      msgList := msgList + [msg];
    }
    assert messages[..|messages|] == messages;
    var body := BuildBody(msgList, z.message);
    detail := z.header(BuildHeader(0, |msgList|, sdkVersion)) + "\n" + body;
  }

  lemma {:induction false} SplitSingleLine(a: string)
    requires SingleLine(a)
    ensures SplitLines(a) == [a]
  {
    if a != [] {
      SplitSingleLine(a[1..]);
      assert [a[0]] + a[1..] == a;
    }
  }

  lemma {:induction false} SplitAfterLine(a: string, b: string)
    requires SingleLine(a)
    ensures SplitLines(a + "\n" + b) == [a] + SplitLines(b)
  {
    if a == [] {
      assert a + "\n" + b == "\n" + b;
      assert ("\n" + b)[1..] == b;
    } else {
      assert (a + "\n" + b)[1..] == a[1..] + "\n" + b;
      SplitAfterLine(a[1..], b);
      assert [a[0]] + a[1..] == a;
    }
  }

  /** Splitting joined one-line records gives the records back. */
  lemma {:induction false} SplitJoin(lines: seq<string>)
    requires lines != []
    requires forall i :: 0 <= i < |lines| ==> SingleLine(lines[i])
    ensures SplitLines(JoinLines(lines)) == lines
  {
    if |lines| == 1 {
      SplitSingleLine(lines[0]);
    } else {
      SplitAfterLine(lines[0], JoinLines(lines[1..]));
      SplitJoin(lines[1..]);
    }
  }

  /**
   * Reading a merge-forward file back line by line: the first line is the
   * header, whose message count is the number of kept messages, and each
   * further line is one kept message in order. When no message is kept the
   * header is followed by a single empty line.
   */
  lemma ForwardFileLines(messages: seq<Message>, sdkVersion: string, z: Serializers)
    requires WritesSingleLines(z) && messages != []
    ensures var kept := Filter(messages, KeepInFile(messages[0].conversationId));
      SplitLines(ForwardFileDetail(messages, sdkVersion, z))
        == [z.header(BuildHeader(0, |kept|, sdkVersion))]
           + (if kept == [] then [""] else SerializeAll(kept, z.message))
  {
    var kept := Filter(messages, KeepInFile(messages[0].conversationId));
    var h := z.header(BuildHeader(0, |kept|, sdkVersion));
    var lines := SerializeAll(kept, z.message);
    SplitAfterLine(h, JoinLines(lines));
    if kept != [] {
      SplitJoin(lines);
    }
  }

  /** The file holds exactly the forwardable messages of the first message's conversation. */
  lemma ForwardFileKeeps(messages: seq<Message>, m: Message)
    requires messages != []
    ensures m in Filter(messages, KeepInFile(messages[0].conversationId)) <==>
      m in messages && m.conversationId == messages[0].conversationId && Forwardable(m)
  {
  }

  // ---------------------------------------------------------------------
  // Merge-forward message
  // ---------------------------------------------------------------------

  datatype Profile = Profile(name: Option<string>, avatar: Option<string>)

  /** The login state and user caches sender names and avatars are read from. */
  datatype Directory = Directory(
    account: string,
    currentUser: Option<Profile>,
    teamNick: string -> Option<string>,
    teamAvatar: string -> Option<string>,
    friend: string -> Option<Profile>,
    selfName: string,
    contactName: string -> string)

  /**
   * The name and avatar stamped on a merged message: the current user's own
   * for our messages, the team caches in a team, the friend cache
   * otherwise; a missing value becomes "".
   */
  function SenderDisplay(senderId: string, convType: ConversationType, dir: Directory): (string, string) {
    if senderId == dir.account && dir.currentUser.Some? then
      (dir.currentUser.value.name.GetOr(""), dir.currentUser.value.avatar.GetOr(""))
    else if convType == Team then
      (dir.teamNick(senderId).GetOr(""), dir.teamAvatar(senderId).GetOr(""))
    else if dir.friend(senderId).Some? then
      (dir.friend(senderId).value.name.GetOr(""), dir.friend(senderId).value.avatar.GetOr(""))
    else ("", "")
  }

  function ExtOf(m: Message): ExtMap {
    m.serverExt.GetOr(map[])
  }

  /** A message as it is written into the file: no reply, no mention, sender name and avatar added. */
  function WithSenderDisplay(m: Message, convType: ConversationType, dir: Directory): Message {
    var display := SenderDisplay(m.senderId, convType, dir);
    m.(serverExt := Some((ExtOf(m) - {ReplyKey, AitKey})[NickKey := Str(display.0)][AvatarKey := Str(display.1)]))
  }

  /** A message as the caller gets it back: only the name and avatar entries are gone. */
  function WithoutSenderDisplay(m: Message): Message {
    m.(serverExt := Some(ExtOf(m) - {NickKey, AvatarKey}))
  }

  /**
   * A stamped message differs from its original only in the extension,
   * which has the sender's name and avatar, no reply and no at-mention
   * entry, and every other entry of the original.
   */
  lemma StampedShape(m: Message, convType: ConversationType, dir: Directory)
    ensures var r := WithSenderDisplay(m, convType, dir);
      && r.(serverExt := m.serverExt) == m
      && r.serverExt.Some?
      && r.serverExt.value[NickKey] == Str(SenderDisplay(m.senderId, convType, dir).0)
      && r.serverExt.value[AvatarKey] == Str(SenderDisplay(m.senderId, convType, dir).1)
      && ReplyKey !in r.serverExt.value && AitKey !in r.serverExt.value
      && (forall k :: k in ExtOf(m) && k !in {ReplyKey, AitKey, NickKey, AvatarKey} ==>
            k in r.serverExt.value && r.serverExt.value[k] == ExtOf(m)[k])
  {
  }

  /**
   * A restored message differs from its original only in the extension,
   * which is the original's (empty when absent) without name and avatar.
   */
  lemma RestoredShape(m: Message)
    ensures var r := WithoutSenderDisplay(m);
      && r.(serverExt := m.serverExt) == m
      && r.serverExt.Some?
      && (forall k :: k in r.serverExt.value <==> k in ExtOf(m) && k != NickKey && k != AvatarKey)
      && (forall k :: k in r.serverExt.value ==> r.serverExt.value[k] == ExtOf(m)[k])
  {
  }

  /** The messages as they stand when the file is written. */
  function ForwardSnapshots(ms: seq<Message>, convType: ConversationType, dir: Directory): seq<Message> {
    seq(|ms|, j requires 0 <= j < |ms| => WithSenderDisplay(ms[j], convType, dir))
  }

  /** The second loop of createMultiForwardMsg on one message's extension. */
  function RestoreExt(ext: Option<ExtMap>, reply: Option<ExtValue>, at: Option<ExtValue>): Option<ExtMap> {
    var e1 := if reply.Some? then Some(ext.GetOr(map[])[ReplyKey := reply.value]) else ext;
    var e2 := if at.Some? then Some(e1.GetOr(map[])[AitKey := at.value]) else e1;
    if e2.Some? then Some(e2.value - {NickKey, AvatarKey}) else None
  }

  function EntryOf(e: ExtMap, key: string): Option<ExtValue> {
    if key in e then Some(e[key]) else None
  }

  /**
   * Putting back the saved reply and at-mention entries and dropping the
   * name and avatar gives the original extension minus name and avatar,
   * both from the stamped form and from an already restored one.
   */
  lemma RestoreUndoesStamp(m: Message, convType: ConversationType, dir: Directory)
    ensures RestoreExt(WithSenderDisplay(m, convType, dir).serverExt,
                       EntryOf(ExtOf(m), ReplyKey), EntryOf(ExtOf(m), AitKey))
         == WithoutSenderDisplay(m).serverExt
    ensures RestoreExt(WithoutSenderDisplay(m).serverExt,
                       EntryOf(ExtOf(m), ReplyKey), EntryOf(ExtOf(m), AitKey))
         == WithoutSenderDisplay(m).serverExt
  {
    var o := ExtOf(m);
    var r1 := RestoreExt(WithSenderDisplay(m, convType, dir).serverExt, EntryOf(o, ReplyKey), EntryOf(o, AitKey));
    assert r1.Some?;
    assert r1.value == o - {NickKey, AvatarKey};
    var r2 := RestoreExt(WithoutSenderDisplay(m).serverExt, EntryOf(o, ReplyKey), EntryOf(o, AitKey));
    assert r2.Some?;
    assert r2.value == o - {NickKey, AvatarKey};
  }

  /**
   * One step of the first pass on a saved-entry map: when the message's
   * extension holds `key`, its value is saved under the client id.
   */
  function SaveEntry(saved: ExtMap, m: Message, key: string): ExtMap {
    if key in ExtOf(m) then saved[m.clientId := ExtOf(m)[key]] else saved
  }

  /** A client id names one message: equal ids, equal messages. */
  ghost predicate IdsDetermine(ms: seq<Message>) {
    forall j, k {:trigger ms[j].clientId, ms[k].clientId} ::
      0 <= j < |ms| && 0 <= k < |ms| && ms[j].clientId == ms[k].clientId ==> ms[j] == ms[k]
  }

  /** The saved-entry map after the first pass has read the first `n` messages. */
  function SavedUpTo(ms: seq<Message>, n: nat, key: string): ExtMap
    requires n <= |ms|
  {
    if n == 0 then map[] else SaveEntry(SavedUpTo(ms, n - 1, key), ms[n - 1], key)
  }

  /** Each of the first `upTo` messages' `key` entry is what is saved under its client id. */
  ghost predicate SavedExactly(saved: ExtMap, ms: seq<Message>, upTo: int, key: string)
    requires 0 <= upTo <= |ms|
  {
    forall j :: 0 <= j < upTo ==> EntryOf(saved, ms[j].clientId) == EntryOf(ExtOf(ms[j]), key)
  }

  /**
   * When client ids name messages, the map saved from a prefix holds
   * exactly each of its messages' entry under the client id, and nothing
   * under any other id.
   */
  lemma {:induction false} SavePrefixExact(ms: seq<Message>, n: int, key: string)
    requires 0 <= n <= |ms| && IdsDetermine(ms)
    ensures SavedExactly(SavedUpTo(ms, n, key), ms, n, key)
    ensures forall id :: id in SavedUpTo(ms, n, key) ==> exists j :: 0 <= j < n && ms[j].clientId == id
  {
    if n > 0 {
      SavePrefixExact(ms, n - 1, key);
      var m := ms[n - 1];
      forall j | 0 <= j < n
        ensures EntryOf(SavedUpTo(ms, n, key), ms[j].clientId) == EntryOf(ExtOf(ms[j]), key)
      {
        if ms[j].clientId == m.clientId {
          assert ms[j] == m;
          if key !in ExtOf(m) && m.clientId in SavedUpTo(ms, n - 1, key) {
            assert false;
          }
        }
      }
    }
  }

  /** The map saved from all messages holds each message's entry under its client id. */
  lemma SaveAllExact(ms: seq<Message>, key: string)
    requires IdsDetermine(ms)
    ensures SavedExactly(SavedUpTo(ms, |ms|, key), ms, |ms|, key)
  {
    SavePrefixExact(ms, |ms|, key);
  }

  /**
   * When client ids name messages, the second pass restores each stamped
   * message from the maps the first pass saved over all of them.
   */
  lemma RestoreFromSaved(ms: seq<Message>, i: int, convType: ConversationType, dir: Directory)
    requires 0 <= i < |ms| && IdsDetermine(ms)
    ensures RestoreExt(WithSenderDisplay(ms[i], convType, dir).serverExt,
                       EntryOf(SavedUpTo(ms, |ms|, ReplyKey), ms[i].clientId),
                       EntryOf(SavedUpTo(ms, |ms|, AitKey), ms[i].clientId))
         == WithoutSenderDisplay(ms[i]).serverExt
  {
    SaveAllExact(ms, ReplyKey);
    SaveAllExact(ms, AitKey);
    RestoreUndoesStamp(ms[i], convType, dir);
  }

  lemma SavedStep(ms: seq<Message>, i: int, key: string)
    requires 0 <= i < |ms|
    ensures SavedUpTo(ms, i + 1, key) == SaveEntry(SavedUpTo(ms, i, key), ms[i], key)
  {
  }

  /**
   * The first pass of createMultiForwardMsg: saves and strips the reply
   * and at-mention entries, stamps name and avatar, and lists the stamped
   * messages for the file.
   */
  method StampForForward(msgs: array<Message>, convType: ConversationType, dir: Directory)
    returns (messageList: seq<Message>, replyMap: ExtMap, atMap: ExtMap)
    modifies msgs
    ensures messageList == ForwardSnapshots(old(msgs[..]), convType, dir)
    ensures msgs[..] == messageList
    ensures replyMap == SavedUpTo(old(msgs[..]), msgs.Length, ReplyKey)
    ensures atMap == SavedUpTo(old(msgs[..]), msgs.Length, AitKey)
  {
    ghost var olds := msgs[..];
    messageList := [];
    replyMap := map[];
    atMap := map[];
    for i := 0 to msgs.Length
      invariant |messageList| == i
      invariant forall j :: 0 <= j < i ==> msgs[j] == messageList[j] == WithSenderDisplay(olds[j], convType, dir)
      invariant forall j :: i <= j < msgs.Length ==> msgs[j] == olds[j]
      invariant replyMap == SavedUpTo(olds, i, ReplyKey) && atMap == SavedUpTo(olds, i, AitKey)
    {
      var msg := msgs[i];
      assert msg == olds[i];
      SavedStep(olds, i, ReplyKey);
      SavedStep(olds, i, AitKey);
      replyMap := SaveEntry(replyMap, msg, ReplyKey);
      atMap := SaveEntry(atMap, msg, AitKey);
      msgs[i] := WithSenderDisplay(msg, convType, dir);
      messageList := messageList + [msgs[i]];
    }
    assert olds[..msgs.Length] == olds;
    assert msgs[..] == messageList;
  }

  /** Two messages agree on everything but the server extension. */
  predicate SameButExt(a: Message, b: Message) {
    a.(serverExt := b.serverExt) == b
  }

  /** The second pass of createMultiForwardMsg on one message. */
  function RestoredMessage(m: Message, replyMap: ExtMap, atMap: ExtMap): Message {
    var extMap := RestoreExt(m.serverExt, EntryOf(replyMap, m.clientId), EntryOf(atMap, m.clientId));
    if extMap.Some? then m.(serverExt := extMap) else m
  }

  /**
   * Restoring a stamped message changes only its extension; when client
   * ids name messages and the maps are the ones the first pass saved, it
   * gives the original without name and avatar.
   */
  lemma RestoredStamp(ms: seq<Message>, i: int, convType: ConversationType, dir: Directory)
    requires 0 <= i < |ms|
    ensures SameButExt(RestoredMessage(WithSenderDisplay(ms[i], convType, dir),
                                       SavedUpTo(ms, |ms|, ReplyKey), SavedUpTo(ms, |ms|, AitKey)), ms[i])
    ensures IdsDetermine(ms) ==>
      RestoredMessage(WithSenderDisplay(ms[i], convType, dir),
                      SavedUpTo(ms, |ms|, ReplyKey), SavedUpTo(ms, |ms|, AitKey))
      == WithoutSenderDisplay(ms[i])
  {
    if IdsDetermine(ms) {
      RestoreFromSaved(ms, i, convType, dir);
    }
  }

  /**
   * The second pass of createMultiForwardMsg: puts the saved entries back
   * and removes the name and avatar stamp, message by message.
   */
  method RestoreAfterForward(msgs: array<Message>, replyMap: ExtMap, atMap: ExtMap)
    modifies msgs
    ensures forall j :: 0 <= j < msgs.Length ==> msgs[j] == RestoredMessage(old(msgs[j]), replyMap, atMap)
  {
    for i := 0 to msgs.Length
      invariant forall j :: 0 <= j < i ==> msgs[j] == RestoredMessage(old(msgs[j]), replyMap, atMap)
      invariant forall j :: i <= j < msgs.Length ==> msgs[j] == old(msgs[j])
    {
      var msg := msgs[i];
      var extMap := RestoreExt(msg.serverExt, EntryOf(replyMap, msg.clientId), EntryOf(atMap, msg.clientId));
      if extMap.Some? {
        msgs[i] := msg.(serverExt := extMap);
      }
    }
  }

  /**
   * createMultiForwardMsg: the file is written from the stamped messages
   * (no reply, no mention, sender name and avatar added); afterwards only
   * server extensions have changed, and when client ids name messages
   * each one is back to its original minus name and avatar.
   */
  method CreateMultiForwardMsg(msgs: array<Message>, dir: Directory, sdkVersion: string, z: Serializers)
    returns (detail: string)
    modifies msgs
    ensures msgs.Length == 0 ==> detail == ""
    ensures msgs.Length > 0 ==>
      detail == ForwardFileDetail(ForwardSnapshots(old(msgs[..]), old(msgs[0].conversationId.kind), dir), sdkVersion, z)
    ensures forall j :: 0 <= j < msgs.Length ==> SameButExt(msgs[j], old(msgs[j]))
    ensures IdsDetermine(old(msgs[..])) ==>
      forall j :: 0 <= j < msgs.Length ==> msgs[j] == WithoutSenderDisplay(old(msgs[j]))
  {
    if msgs.Length == 0 {
      return "";
    }
    ghost var olds := msgs[..];
    var convType := msgs[0].conversationId.kind;
    var messageList, replyMap, atMap := StampForForward(msgs, convType, dir);
    detail := CreateForwardMessageListFileDetail(messageList, sdkVersion, z);
    RestoreAfterForward(msgs, replyMap, atMap);
    forall j | 0 <= j < msgs.Length
      ensures SameButExt(msgs[j], olds[j])
      ensures IdsDetermine(olds) ==> msgs[j] == WithoutSenderDisplay(olds[j])
    {
      RestoredStamp(olds, j, convType, dir);
    }
  }

  // ---------------------------------------------------------------------
  // Merge-forward attachment
  // ---------------------------------------------------------------------

  /** One line of the preview shown on a merged-forward bubble. */
  datatype Abstract = Abstract(senderNick: string, content: string, senderId: string)

  datatype MultiForwardAttachment = MultiForwardAttachment(
    sessionId: string,
    sessionName: string,
    url: string,
    md5: string,
    depth: int,
    abstracts: seq<Abstract>)

  /**
   * The deepest nesting among the merged-forward messages of `ms`, 0 when
   * there is none.
   */
  function NestedDepth(ms: seq<Message>): (d: int)
    ensures d >= 0
  {
    if ms == [] then 0
    else
      var d0 := NestedDepth(ms[..|ms| - 1]);
      var last := ms[|ms| - 1];
      if last.attachment.MultiForward? && d0 < last.attachment.depth then last.attachment.depth else d0
  }

  /** NestedDepth is the largest nested depth, or 0 when no depth exceeds 0. */
  lemma {:induction false} NestedDepthIsMax(ms: seq<Message>)
    ensures forall i :: 0 <= i < |ms| && ms[i].attachment.MultiForward? ==> ms[i].attachment.depth <= NestedDepth(ms)
    ensures NestedDepth(ms) == 0 ||
      exists i :: 0 <= i < |ms| && ms[i].attachment.MultiForward? && ms[i].attachment.depth == NestedDepth(ms)
  {
    if ms != [] {
      var init := ms[..|ms| - 1];
      NestedDepthIsMax(init);
      assert forall i :: 0 <= i < |init| ==> init[i] == ms[i];
      if NestedDepth(ms) != NestedDepth(init) {
        assert ms[|ms| - 1].attachment.depth == NestedDepth(ms);
      }
    }
  }

  /**
   * The preview line of one message: our own messages, and those without
   * a sender, are named after the current user, the others after the
   * contact cache; `brief` is the message's one-line summary.
   */
  function AbstractOf(m: Message, dir: Directory, brief: Message -> string): Abstract {
    var nick := if m.isSelf || m.senderId == "" then dir.selfName else dir.contactName(m.senderId);
    Abstract(nick, brief(m), m.senderId)
  }

  /** The number of preview lines for `n` messages under `limit`. */
  function AbstractCount(n: int, limit: int): int {
    if limit <= 0 then 0 else if n < limit then n else limit
  }

  /**
   * createMultiTransmitAttachment: nothing without messages or a source
   * session; otherwise the depth is one more than the deepest nested
   * merged-forward message and the previews are those of the first
   * `limit` messages, in order.
   */
  method CreateMultiTransmitAttachment(displayName: string, fromSessionId: Option<string>, url: string,
                                       msgList: seq<Message>, limit: int, dir: Directory,
                                       brief: Message -> string)
    returns (r: Option<MultiForwardAttachment>)
    ensures r.None? <==> msgList == [] || fromSessionId.None?
    ensures r.Some? ==>
      && r.value.sessionId == fromSessionId.value
      && r.value.sessionName == displayName
      && r.value.url == url
      && r.value.md5 == ""
      && r.value.depth == 1 + NestedDepth(msgList)
      && |r.value.abstracts| == AbstractCount(|msgList|, limit)
      && forall k :: 0 <= k < |r.value.abstracts| ==> r.value.abstracts[k] == AbstractOf(msgList[k], dir, brief)
  {
    if msgList == [] || fromSessionId.None? {
      return None;
    }
    var depth := 0;
    var abstractsList: seq<Abstract> := [];
    for index := 0 to |msgList|
      invariant depth == NestedDepth(msgList[..index])
      invariant |abstractsList| == AbstractCount(index, limit)
      invariant forall k :: 0 <= k < |abstractsList| ==> abstractsList[k] == AbstractOf(msgList[k], dir, brief)
    {
      var info := msgList[index];
      assert msgList[..index + 1][..index] == msgList[..index];
      assert msgList[..index + 1][index] == info;
      assert NestedDepth(msgList[..index + 1]) ==
        if info.attachment.MultiForward? && depth < info.attachment.depth then info.attachment.depth else depth;
      if info.attachment.MultiForward? {
        if depth < info.attachment.depth {
          depth := info.attachment.depth;
        }
      }
      if |abstractsList| < limit {
        abstractsList := abstractsList + [AbstractOf(info, dir, brief)];
      }
    }
    assert msgList[..|msgList|] == msgList;
    r := Some(MultiForwardAttachment(fromSessionId.value, displayName, url, "", depth + 1, abstractsList));
  }

  // ---------------------------------------------------------------------
  // Display order
  // ---------------------------------------------------------------------

  /** Puts `x` in front of the first message that is not newer than it. */
  function InsertByTime(x: Message, s: seq<Message>): (r: seq<Message>)
    ensures |r| == |s| + 1
  {
    if s == [] || s[0].createTime <= x.createTime then [x] + s
    else [s[0]] + InsertByTime(x, s[1..])
  }

  /**
   * The list sorted by creation time, newest first; messages created at
   * the same time keep their order (the library sort is stable).
   */
  function NewestFirst(s: seq<Message>): (r: seq<Message>)
    ensures |r| == |s|
  {
    if s == [] then [] else InsertByTime(s[0], NewestFirst(s[1..]))
  }

  predicate NewestFirstOrdered(s: seq<Message>) {
    forall i, j :: 0 <= i < j < |s| ==> s[i].createTime >= s[j].createTime
  }

  /** The messages of `s` created at time `t`, in order. */
  function AtTime(s: seq<Message>, t: int): seq<Message> {
    if s == [] then []
    else if s[0].createTime == t then [s[0]] + AtTime(s[1..], t)
    else AtTime(s[1..], t)
  }

  lemma {:induction false} InsertByTimeOrdered(x: Message, s: seq<Message>)
    requires NewestFirstOrdered(s)
    ensures NewestFirstOrdered(InsertByTime(x, s))
  {
    if s != [] && s[0].createTime > x.createTime {
      InsertByTimeOrdered(x, s[1..]);
      InsertByTimeCount(x, s[1..]);
      var r := InsertByTime(x, s);
      assert r[1..] == InsertByTime(x, s[1..]);
      forall j | 1 <= j < |r| ensures r[0].createTime >= r[j].createTime {
        assert r[j] in multiset(s[1..]) + multiset{x};
      }
    }
  }

  lemma {:induction false} InsertByTimeCount(x: Message, s: seq<Message>)
    ensures multiset(InsertByTime(x, s)) == multiset(s) + multiset{x}
  {
    if s != [] && s[0].createTime > x.createTime {
      InsertByTimeCount(x, s[1..]);
      assert s == [s[0]] + s[1..];
    }
  }

  lemma AtTimeCons(m: Message, s: seq<Message>, t: int)
    ensures AtTime([m] + s, t) == if m.createTime == t then [m] + AtTime(s, t) else AtTime(s, t)
  {
    assert ([m] + s)[1..] == s;
  }

  lemma {:induction false} InsertByTimeAtTime(x: Message, s: seq<Message>, t: int)
    requires NewestFirstOrdered(s)
    ensures AtTime(InsertByTime(x, s), t) == if x.createTime == t then [x] + AtTime(s, t) else AtTime(s, t)
  {
    if s == [] || s[0].createTime <= x.createTime {
      AtTimeCons(x, s, t);
    } else {
      InsertByTimeAtTime(x, s[1..], t);
      assert s == [s[0]] + s[1..];
      AtTimeCons(s[0], s[1..], t);
      AtTimeCons(s[0], InsertByTime(x, s[1..]), t);
    }
  }

  /**
   * convertToChatMessageBean's order: newest first, the same messages,
   * and for each creation time the messages keep their relative order.
   */
  lemma {:induction false} NewestFirstSorts(s: seq<Message>)
    ensures NewestFirstOrdered(NewestFirst(s))
    ensures multiset(NewestFirst(s)) == multiset(s)
  {
    if s != [] {
      NewestFirstSorts(s[1..]);
      InsertByTimeOrdered(s[0], NewestFirst(s[1..]));
      InsertByTimeCount(s[0], NewestFirst(s[1..]));
      assert s == [s[0]] + s[1..];
    }
  }

  lemma {:induction false} NewestFirstStable(s: seq<Message>, t: int)
    ensures AtTime(NewestFirst(s), t) == AtTime(s, t)
  {
    if s != [] {
      NewestFirstStable(s[1..], t);
      NewestFirstSorts(s[1..]);
      InsertByTimeAtTime(s[0], NewestFirst(s[1..]), t);
      assert s == [s[0]] + s[1..];
      AtTimeCons(s[0], s[1..], t);
    }
  }

  /**
   * convertToChatMessageBean: sorts the caller's list in place, newest
   * first, and returns one bean per message in that order; a null list
   * gives null.
   */
  method ConvertToChatMessageBean(messageList: array?<Message>) returns (result: Option<seq<ChatMessageBean>>)
    modifies messageList
    ensures messageList == null <==> result.None?
    ensures messageList != null ==> messageList[..] == NewestFirst(old(messageList[..]))
    ensures messageList != null ==> result.value == Beans(messageList[..])
  {
    if messageList == null {
      return None;
    }
    var sorted := NewestFirst(messageList[..]);
    forall k | 0 <= k < messageList.Length {
      messageList[k] := sorted[k];
    }
    var beans: seq<ChatMessageBean> := [];
    for i := 0 to messageList.Length
      invariant beans == Beans(messageList[..i])
    {
      beans := beans + [NewBean(messageList[i])];
    }
    assert messageList[..messageList.Length] == messageList[..];
    result := Some(beans);
  }
}
