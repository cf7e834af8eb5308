/**
 * The chat page's view model (ChatBaseViewModel): it routes the SDK's
 * message pushes for the open conversation to the page, echoes locally
 * sent messages, revokes and deletes messages and pages through history.
 *
 * Every LiveData `setValue` appends a `ChatEvent` to `events`; every call
 * into the chat repository appends a `ChatRequest` to `requests`; work
 * posted to the main looper is queued in `posted`. An SDK callback is a
 * method of its own, taking what the callback receives.
 */
module ChatTimeline {
  import opened Common
  import MessageHelper

  /** RES_REVOKE_TIMEOUT: the revoke error meaning the message is too old to revoke. */
  const RevokeTimeoutCode := 107314

  /** ChatKitUIConstant.ERROR_CODE_IN_BLACK_LIST; the constant's value is not part of this model. */
  const ErrorCodeInBlackList: int

  /** messagePageSize */
  const MessagePageSize := 100

  datatype Direction = Desc | Asc

  /** MessageRevokeInfo: the revoked message (our own revoke) or the notification (a pushed revoke). */
  datatype RevokeInfo = RevokeInfo(message: Option<Message>, notification: Option<MessageHelper.RevokeNotification>)

  /**
   * The shared `messageFetchResult`, which every page load re-emits after
   * changing some of its fields: the extra scroll anchor and the error are
   * never reset.
   */
  datatype MessagePage = MessagePage(
    status: LoadStatus,
    data: Option<seq<ChatMessageBean>>,
    scrollAnchor: Option<Message>,
    typeIndex: int,
    errorCode: Option<int>)

  /** The shared `sendMessageFetchResult`. */
  datatype SendState = SendState(status: LoadStatus, fetchType: Option<FetchType>, data: Option<ChatMessageBean>)

  /** V2NIMMessageListOption as the view model fills it in. */
  datatype ListOption = ListOption(
    conversationId: ConversationId,
    limit: int,
    anchor: Option<Message>,
    direction: Direction,
    beginTime: Option<int>,
    endTime: Option<int>)

  datatype ChatEvent =
    | AttachmentProgress(clientId: string, progress: int)
    | MessagesUpdated(updateType: int, beans: seq<ChatMessageBean>)
    | MessagesReceived(beans: seq<ChatMessageBean>)
    | MessagesDeleted(refers: seq<MessageRefer>)
    | DeleteFailed(code: int)
    | PinAdded(clientId: string, pin: MessagePin)
    | PinRemoved(clientId: string)
    | RevokesNotified(infos: seq<RevokeInfo>)
    | RevokeSucceeded(info: RevokeInfo)
    | RevokeFailed(code: int, overTime: bool)
    | SendUpdate(state: SendState)
    | PageLoaded(page: MessagePage)

  datatype ChatRequest =
    | ShowReadStatusQuery
    | History(option: ListOption)
    | DeleteOne(message: Message)
    | DeleteMany(messages: seq<Message>, onlyDeleteLocal: bool)
    | RevokeRequest(message: Message)
    | RemovePinRequest(message: Message)
    | SendRequest(message: Message, conversationId: ConversationId, readReceipt: bool, forcePushAccounts: seq<string>)
    | SaveBlackListTip(message: Message)

  /** Work handed to the main looper, run later by `RunPosted`. */
  datatype Deferred =
    | FetchOlder(anchor: Message, needToScrollEnd: bool)
    | SendNote(text: string, sessions: seq<string>, sessionType: ConversationType)

  // ---------------------------------------------------------------------
  // Decisions, as functions
  // ---------------------------------------------------------------------

  /** The deleted references that belong to conversation `c`, in order. */
  function RefersIn(ns: seq<MessageRefer>, c: ConversationId): seq<MessageRefer> {
    if ns == [] then []
    else
      RefersIn(ns[..|ns| - 1], c) + (if ns[|ns| - 1].conversationId == c then [ns[|ns| - 1]] else [])
  }

  lemma {:induction false} RefersInExactly(ns: seq<MessageRefer>, c: ConversationId, r: MessageRefer)
    ensures r in RefersIn(ns, c) <==> r in ns && r.conversationId == c
  {
    if ns != [] {
      RefersInExactly(ns[..|ns| - 1], c, r);
      assert ns == ns[..|ns| - 1] + [ns[|ns| - 1]];
    }
  }

  /** A pushed revoke is shown when it is in `c` and is not the echo of our own revoke `revokedId`. */
  predicate ShownRevoke(n: MessageHelper.RevokeNotification, c: ConversationId, revokedId: Option<string>) {
    revokedId != Some(n.refer.clientId) && n.refer.conversationId == c
  }

  /** The revokes forwarded to the page, in order. */
  function ShownRevokes(ns: seq<MessageHelper.RevokeNotification>, c: ConversationId, revokedId: Option<string>)
    : seq<RevokeInfo>
  {
    if ns == [] then []
    else
      ShownRevokes(ns[..|ns| - 1], c, revokedId)
      + (if ShownRevoke(ns[|ns| - 1], c, revokedId) then [RevokeInfo(None, Some(ns[|ns| - 1]))] else [])
  }

  /**
   * Every forwarded revoke carries only its notification, and a
   * notification is forwarded exactly when it is of the conversation and
   * is not our own last revoke.
   */
  lemma {:induction false} RevokeEchoSuppressed(ns: seq<MessageHelper.RevokeNotification>, c: ConversationId,
                                                revokedId: Option<string>, n: MessageHelper.RevokeNotification)
    ensures RevokeInfo(None, Some(n)) in ShownRevokes(ns, c, revokedId) <==>
      n in ns && n.refer.conversationId == c && revokedId != Some(n.refer.clientId)
    ensures forall i :: 0 <= i < |ShownRevokes(ns, c, revokedId)| ==>
      ShownRevokes(ns, c, revokedId)[i].message.None? && ShownRevokes(ns, c, revokedId)[i].notification.Some?
  {
    if ns != [] {
      RevokeEchoSuppressed(ns[..|ns| - 1], c, revokedId, n);
      assert ns == ns[..|ns| - 1] + [ns[|ns| - 1]];
    }
  }

  /** What a pin notification of conversation `c` shows: PINNED adds, NOT_PINNED removes. */
  function PinEvent(n: Option<PinNotification>, c: ConversationId): (r: Option<ChatEvent>)
    ensures r.Some? <==> n.Some? && n.value.pin.refer.conversationId == c && n.value.state != OtherPinState
    ensures r.Some? && r.value.PinAdded? ==>
      n.value.state == Pinned && r.value.clientId == n.value.pin.refer.clientId && r.value.pin == n.value.pin
    ensures r.Some? && r.value.PinRemoved? ==> n.value.state == NotPinned && r.value.clientId == n.value.pin.refer.clientId
    ensures r.Some? ==> r.value.PinAdded? || r.value.PinRemoved?
  {
    match n
    case None => None
    case Some(p) =>
      if p.pin.refer.conversationId != c then None
      else match p.state
        case Pinned => Some(PinAdded(p.pin.refer.clientId, p.pin))
        case NotPinned => Some(PinRemoved(p.pin.refer.clientId))
        case OtherPinState => None
  }

  /** The history query around `anchor`: older messages end at its time, newer ones begin at it. */
  function MoreOption(c: ConversationId, anchor: Message, direction: Direction): (o: ListOption)
    ensures o.anchor == Some(anchor) && o.direction == direction && o.limit == MessagePageSize
    ensures direction == Desc ==> o.endTime == Some(anchor.createTime) && o.beginTime.None?
    ensures direction == Asc ==> o.beginTime == Some(anchor.createTime) && o.endTime.None?
  {
    var base := ListOption(c, MessagePageSize, Some(anchor), direction, None, None);
    if direction == Desc then base.(endTime := Some(anchor.createTime))
    else base.(beginTime := Some(anchor.createTime))
  }

  /** Whether every message of a batch was never acknowledged by the server. */
  predicate OnlyDeleteLocal(ms: seq<ChatMessageBean>) {
    forall i :: 0 <= i < |ms| ==> ms[i].data.serverId == ""
  }

  function DataOf(ms: seq<ChatMessageBean>): (r: seq<Message>)
    ensures |r| == |ms| && forall i :: 0 <= i < |ms| ==> r[i] == ms[i].data
  {
    seq(|ms|, i requires 0 <= i < |ms| => ms[i].data)
  }

  function RefersOf(ms: seq<ChatMessageBean>): (r: seq<MessageRefer>)
    ensures |r| == |ms| && forall i :: 0 <= i < |ms| ==> r[i] == ReferOf(ms[i].data)
  {
    seq(|ms|, i requires 0 <= i < |ms| => ReferOf(ms[i].data))
  }

  /** The copy of a forwarded message that is sent: a forward without reply and at-mention entries. */
  function ForwardCopy(m: Message): Message {
    MessageHelper.ClearAitAndReplyInfo(m)
  }

  predicate Forwarded(b: ChatMessageBean) {
    !b.revoked && b.data.kind != Audio
  }

  function SendsTo(m: Message, sessions: seq<string>, sessionType: ConversationType, receipt: bool): (r: seq<ChatRequest>)
    ensures |r| == |sessions|
  {
    seq(|sessions|, k requires 0 <= k < |sessions| =>
      SendRequest(m, ConversationId(sessionType, sessions[k]), receipt, []))
  }

  /**
   * The sends of `sendForwardMessages` over `ms`, walked from the last
   * bean to the first: each forwarded bean goes to every session in turn.
   */
  function ForwardSends(ms: seq<ChatMessageBean>, sessions: seq<string>, sessionType: ConversationType, receipt: bool)
    : seq<ChatRequest>
  {
    if ms == [] then []
    else
      ForwardSends(ms[1..], sessions, sessionType, receipt)
      + (if Forwarded(ms[0]) then SendsTo(ForwardCopy(ms[0].data), sessions, sessionType, receipt) else [])
  }

  function CountForwarded(ms: seq<ChatMessageBean>): nat {
    if ms == [] then 0 else CountForwarded(ms[1..]) + (if Forwarded(ms[0]) then 1 else 0)
  }

  /** Whether `sendForwardMessages` skips an audio message of `ms` that is not revoked. */
  predicate SkipsAudio(ms: seq<ChatMessageBean>) {
    ms != [] && ((!ms[0].revoked && ms[0].data.kind == Audio) || SkipsAudio(ms[1..]))
  }

  /** The error flag of a forward is raised exactly when some live message is audio. */
  lemma {:induction false} SkipsAudioExactly(ms: seq<ChatMessageBean>)
    ensures SkipsAudio(ms) <==> exists i :: 0 <= i < |ms| && !ms[i].revoked && ms[i].data.kind == Audio
  {
    if ms != [] {
      SkipsAudioExactly(ms[1..]);
      if exists i :: 0 <= i < |ms| && !ms[i].revoked && ms[i].data.kind == Audio {
        var i :| 0 <= i < |ms| && !ms[i].revoked && ms[i].data.kind == Audio;
        if i > 0 {
          assert ms[1..][i - 1] == ms[i];
        }
      }
      if SkipsAudio(ms[1..]) {
        var i :| 0 <= i < |ms[1..]| && !ms[1..][i].revoked && ms[1..][i].data.kind == Audio;
        assert ms[i + 1] == ms[1..][i];
      }
    }
  }

  /** One step of the walk from the last bean to the first. */
  lemma ForwardStep(ms: seq<ChatMessageBean>, i: int, sessions: seq<string>, sessionType: ConversationType, receipt: bool,
                    start: seq<ChatRequest>, before: seq<ChatRequest>, after: seq<ChatRequest>)
    requires 0 <= i < |ms|
    requires before == start + ForwardSends(ms[i + 1..], sessions, sessionType, receipt)
    requires after == before
      + (if Forwarded(ms[i]) then SendsTo(ForwardCopy(ms[i].data), sessions, sessionType, receipt) else [])
    ensures after == start + ForwardSends(ms[i..], sessions, sessionType, receipt)
    ensures SkipsAudio(ms[i..]) == ((!ms[i].revoked && ms[i].data.kind == Audio) || SkipsAudio(ms[i + 1..]))
  {
    assert ms[i..][0] == ms[i] && ms[i..][1..] == ms[i + 1..];
  }

  lemma MulSucc(a: nat, b: nat)
    ensures (a + 1) * b == a * b + b
  {
  }

  /** `sendForwardMessages` sends each forwarded bean once to every session. */
  lemma {:induction false} ForwardSendsCount(ms: seq<ChatMessageBean>, sessions: seq<string>,
                                             sessionType: ConversationType, receipt: bool)
    ensures |ForwardSends(ms, sessions, sessionType, receipt)| == CountForwarded(ms) * |sessions|
  {
    if ms != [] {
      ForwardSendsCount(ms[1..], sessions, sessionType, receipt);
      if Forwarded(ms[0]) {
        MulSucc(CountForwarded(ms[1..]), |sessions|);
      }
    }
  }

  /** Every send carries the forward copy of a bean that is neither revoked nor audio. */
  lemma {:induction false} ForwardSendsOnlyForwarded(ms: seq<ChatMessageBean>, sessions: seq<string>,
                                                     sessionType: ConversationType, receipt: bool, r: ChatRequest)
    requires r in ForwardSends(ms, sessions, sessionType, receipt)
    ensures r.SendRequest? && r.conversationId.kind == sessionType && r.conversationId.target in sessions
    ensures exists i :: 0 <= i < |ms| && Forwarded(ms[i]) && r.message == ForwardCopy(ms[i].data)
  {
    if r in ForwardSends(ms[1..], sessions, sessionType, receipt) {
      ForwardSendsOnlyForwarded(ms[1..], sessions, sessionType, receipt, r);
      var i :| 0 <= i < |ms[1..]| && Forwarded(ms[1..][i]) && r.message == ForwardCopy(ms[1..][i].data);
      assert ms[i + 1] == ms[1..][i];
    } else {
      var sends := SendsTo(ForwardCopy(ms[0].data), sessions, sessionType, receipt);
      assert Forwarded(ms[0]) && r in sends;
      var k :| 0 <= k < |sends| && sends[k] == r;
      assert r.conversationId.target == sessions[k];
    }
  }

  /** A page the server returns newest first is shown oldest first once reversed. */
  lemma ReversedPageIsChronological(page: seq<Message>)
    requires MessageHelper.NewestFirstOrdered(page)
    ensures forall i, j :: 0 <= i < j < |page| ==> Reversed(page)[i].createTime <= Reversed(page)[j].createTime
  {
    forall i, j | 0 <= i < j < |page| ensures Reversed(page)[i].createTime <= Reversed(page)[j].createTime {
      ReversedAt(page, i);
      ReversedAt(page, j);
    }
  }

  /** `onListFetchSuccess` on the shared page result. */
  function PageAfterSuccess(page: MessagePage, anchor: Option<Message>, needToScrollEnd: bool,
                            beans: Option<seq<ChatMessageBean>>, direction: Direction): (r: MessagePage)
    ensures r.status == (if beans.None? || beans.value == [] then LoadFinish else LoadSuccess)
    ensures r.data == beans
    ensures r.typeIndex == (if direction == Desc then 0 else -1)
    ensures r.scrollAnchor == if anchor.Some? && !needToScrollEnd then anchor else page.scrollAnchor
    ensures r.errorCode == page.errorCode
  {
    page.(status := if beans.None? || beans.value == [] then LoadFinish else LoadSuccess,
          data := beans,
          scrollAnchor := if anchor.Some? && !needToScrollEnd then anchor else page.scrollAnchor,
          typeIndex := if direction == Desc then 0 else -1)
  }

  // ---------------------------------------------------------------------
  // The view model
  // ---------------------------------------------------------------------

  class ChatBaseViewModel {
    var chatAccountId: string
    var conversationId: ConversationId
    var revokedMessageClientId: Option<string>
    var hasLoadMessage: bool
    var needAck: bool
    var showRead: bool
    var page: MessagePage
    var sending: SendState
    var events: seq<ChatEvent>
    var requests: seq<ChatRequest>
    var posted: seq<Deferred>

    /** Fields that only `init`, `revokeMessage` and the first page load set. */
    twostate predicate SessionKept()
      reads this
    {
      && chatAccountId == old(chatAccountId)
      && conversationId == old(conversationId)
      && revokedMessageClientId == old(revokedMessageClientId)
      && hasLoadMessage == old(hasLoadMessage)
      && needAck == old(needAck)
      && showRead == old(showRead)
    }

    twostate predicate ResultsKept()
      reads this
    {
      page == old(page) && sending == old(sending) && posted == old(posted)
    }

    /**
     * The view model bound to one conversation by `init`: nothing revoked
     * or loaded yet, and the read-receipt setting requested.
     */
    constructor (accountId: string, sessionType: ConversationType)
      ensures chatAccountId == accountId && conversationId == ConversationId(sessionType, accountId)
      ensures revokedMessageClientId.None? && !hasLoadMessage && !needAck && showRead
      ensures page == MessagePage(LoadFinish, None, None, -1, None)
      ensures sending == SendState(LoadFinish, None, None)
      ensures events == [] && requests == [ShowReadStatusQuery] && posted == []
    {
      chatAccountId := accountId;
      conversationId := ConversationId(sessionType, accountId);
      revokedMessageClientId := None;
      hasLoadMessage := false;
      needAck := false;
      showRead := true;
      page := MessagePage(LoadFinish, None, None, -1, None);
      sending := SendState(LoadFinish, None, None);
      events := [];
      requests := [ShowReadStatusQuery];
      posted := [];
    }

    /** The read-receipt setting arrives: receipts are requested only on an explicit true. */
    method OnShowReadStatus(param: Option<bool>)
      modifies this
      ensures needAck == (param == Some(true))
      ensures chatAccountId == old(chatAccountId) && conversationId == old(conversationId)
      ensures revokedMessageClientId == old(revokedMessageClientId) && hasLoadMessage == old(hasLoadMessage)
      ensures showRead == old(showRead) && ResultsKept()
      ensures events == old(events) && requests == old(requests)
    {
      needAck := param == Some(true);
    }

    method SetShowReadStatus(show: bool)
      modifies this
      ensures showRead == show
      ensures chatAccountId == old(chatAccountId) && conversationId == old(conversationId)
      ensures revokedMessageClientId == old(revokedMessageClientId) && hasLoadMessage == old(hasLoadMessage)
      ensures needAck == old(needAck) && ResultsKept()
      ensures events == old(events) && requests == old(requests)
    {
      showRead := show;
    }

    // --- message listener ------------------------------------------------

    method OnMessageAttachmentDownloadProgress(message: Message, progress: int)
      modifies this
      ensures SessionKept() && ResultsKept() && requests == old(requests)
      ensures events == old(events) +
        (if message.conversationId == conversationId then [AttachmentProgress(message.clientId, progress)] else [])
    {
      if message.conversationId == conversationId {
        events := events + [AttachmentProgress(message.clientId, progress)];
      }
    }

    /** Updates are shown only for a non-empty batch whose first message is in this conversation. */
    method OnMessagesUpdate(messages: seq<Message>, updateType: int)
      modifies this
      ensures SessionKept() && ResultsKept() && requests == old(requests)
      ensures events == old(events) +
        (if messages != [] && messages[0].conversationId == conversationId
         then [MessagesUpdated(updateType, Beans(messages))] else [])
    {
      if messages == [] {
        return;
      }
      if messages[0].conversationId != conversationId {
        return;
      }
      var beans := Convert(Some(messages));
      events := events + [MessagesUpdated(updateType, beans.value)];
    }

    /** New messages are shown when the batch's first message is in this conversation. */
    method OnReceiveMessages(messages: seq<Message>)
      requires messages != []
      modifies this
      ensures SessionKept() && ResultsKept() && requests == old(requests)
      ensures events == old(events) +
        (if messages[0].conversationId == conversationId then [MessagesReceived(Beans(messages))] else [])
    {
      if messages[0].conversationId != conversationId {
        return;
      }
      var beans := Convert(Some(messages));
      events := events + [MessagesReceived(beans.value)];
    }

    /**
     * Deleted-message notifications: the references of this conversation,
     * in order, shown only when there is at least one.
     */
    method OnMessageDeletedNotifications(notifications: Option<seq<MessageRefer>>)
      modifies this
      ensures SessionKept() && ResultsKept() && requests == old(requests)
      ensures notifications.None? ==> events == old(events)
      ensures notifications.Some? ==>
        var kept := RefersIn(notifications.value, conversationId);
        events == old(events) + (if kept != [] then [MessagesDeleted(kept)] else [])
    {
      if notifications.None? {
        return;
      }
      var ns := notifications.value;
      var deleteList: seq<MessageRefer> := [];
      for i := 0 to |ns|
        invariant deleteList == RefersIn(ns[..i], conversationId)
      {
        assert ns[..i + 1][..i] == ns[..i];
        if ns[i].conversationId == conversationId {
          deleteList := deleteList + [ns[i]];
        }
      }
      assert ns[..|ns|] == ns;
      if |deleteList| > 0 {
        events := events + [MessagesDeleted(deleteList)];
      }
    }

    method OnMessagePinNotification(pinNotification: Option<PinNotification>)
      modifies this
      ensures SessionKept() && ResultsKept() && requests == old(requests)
      ensures var e := PinEvent(pinNotification, conversationId);
        events == old(events) + (if e.Some? then [e.value] else [])
    {
      if pinNotification.Some? && pinNotification.value.pin.refer.conversationId == conversationId {
        var pin := pinNotification.value.pin;
        if pinNotification.value.state == Pinned {
          events := events + [PinAdded(pin.refer.clientId, pin)];
        } else if pinNotification.value.state == NotPinned {
          events := events + [PinRemoved(pin.refer.clientId)];
        }
      }
    }

    /**
     * Pushed revokes: those of this conversation that are not the echo of
     * our own last revoke are shown, as one (possibly empty) batch.
     */
    method OnMessageRevokeNotifications(revokeNotifications: Option<seq<MessageHelper.RevokeNotification>>)
      modifies this
      ensures SessionKept() && ResultsKept() && requests == old(requests)
      ensures revokeNotifications.None? ==> events == old(events)
      ensures revokeNotifications.Some? ==>
        events == old(events) + [RevokesNotified(ShownRevokes(revokeNotifications.value, conversationId, revokedMessageClientId))]
    {
      if revokeNotifications.None? {
        return;
      }
      var ns := revokeNotifications.value;
      var revokedList: seq<RevokeInfo> := [];
      for i := 0 to |ns|
        invariant revokedList == ShownRevokes(ns[..i], conversationId, revokedMessageClientId)
      {
        assert ns[..i + 1][..i] == ns[..i];
        if revokedMessageClientId != Some(ns[i].refer.clientId) && ns[i].refer.conversationId == conversationId {
          revokedList := revokedList + [RevokeInfo(None, Some(ns[i]))];
        }
      }
      assert ns[..|ns|] == ns;
      events := events + [RevokesNotified(revokedList)];
    }

    // --- sending -----------------------------------------------------------

    /** `postMessageSend`: the shared send result becomes a success tagged Add while sending, Update after. */
    method PostMessageSend(message: Message, isSending: bool)
      modifies this
      ensures sending == SendState(LoadSuccess, Some(if isSending then Add else Update), Some(NewBean(message)))
      ensures events == old(events) + [SendUpdate(sending)]
      ensures SessionKept() && page == old(page) && posted == old(posted) && requests == old(requests)
    {
      sending := sending.(status := LoadSuccess);
      if !isSending {
        sending := sending.(fetchType := Some(Update));
      } else {
        sending := sending.(fetchType := Some(Add));
      }
      sending := sending.(data := Some(NewBean(message)));
      events := events + [SendUpdate(sending)];
    }

    /** The sending observer's success: our own message of this conversation is updated in place. */
    method OnSendingSuccess(data: Option<Message>)
      modifies this
      ensures SessionKept() && page == old(page) && posted == old(posted) && requests == old(requests)
      ensures data.Some? && data.value.conversationId == conversationId ==>
        sending == SendState(LoadSuccess, Some(Update), Some(NewBean(data.value)))
        && events == old(events) + [SendUpdate(sending)]
      ensures !(data.Some? && data.value.conversationId == conversationId) ==>
        sending == old(sending) && events == old(events)
    {
      if data.Some? && data.value.conversationId == conversationId {
        PostMessageSend(data.value, false);
      }
    }

    /**
     * The sending observer's progress: progress 0 first adds the message
     * to the page, and every progress of this conversation is reported.
     */
    method OnSendingProgress(progress: int, messageConversationId: ConversationId, data: Option<Message>)
      modifies this
      ensures SessionKept() && page == old(page) && posted == old(posted) && requests == old(requests)
      ensures !(messageConversationId == conversationId && data.Some?) ==>
        sending == old(sending) && events == old(events)
      ensures messageConversationId == conversationId && data.Some? && progress == 0 ==>
        sending == SendState(LoadSuccess, Some(Add), Some(NewBean(data.value)))
        && events == old(events) + [SendUpdate(sending), AttachmentProgress(data.value.clientId, 0)]
      ensures messageConversationId == conversationId && data.Some? && progress != 0 ==>
        sending == old(sending) && events == old(events) + [AttachmentProgress(data.value.clientId, progress)]
    {
      if messageConversationId == conversationId && data.Some? {
        if progress == 0 {
          PostMessageSend(data.value, true);
        }
        events := events + [AttachmentProgress(data.value.clientId, progress)];
      }
    }

    /**
     * `sendMessageStrExtension`: sends with read receipts when both the
     * setting and the page allow them, force-pushing to a non-empty push
     * list and replacing the extension when one is given.
     */
    method SendMessageStrExtension(message: Option<Message>, target: ConversationId,
                                   pushList: Option<seq<string>>, remoteExtension: Option<ExtMap>)
      modifies this`requests
      ensures SessionKept() && ResultsKept() && events == old(events)
      ensures message.None? ==> requests == old(requests)
      ensures message.Some? ==>
        requests == old(requests) + [SendRequest(
          if remoteExtension.Some? then message.value.(serverExt := remoteExtension) else message.value,
          target, needAck && showRead,
          if pushList.Some? then pushList.value else [])]
    {
      if message.Some? {
        var m := message.value;
        var push: seq<string> := [];
        if pushList.Some? && pushList.value != [] {
          push := pushList.value;
        }
        if remoteExtension.Some? {
          m := m.(serverExt := remoteExtension);
        }
        requests := requests + [SendRequest(m, target, needAck && showRead, push)];
      }
    }

    /**
     * A send fails: a black-list refusal also saves the local tip, and the
     * message is shown again as failed.
     */
    method OnSendError(message: Message, errorCode: int)
      modifies this
      ensures SessionKept() && page == old(page) && posted == old(posted)
      ensures requests == old(requests) + (if errorCode == ErrorCodeInBlackList then [SaveBlackListTip(message)] else [])
      ensures sending == SendState(LoadSuccess, Some(Update), Some(NewBean(message.(sendingState := SendFailed))))
      ensures events == old(events) + [SendUpdate(sending)]
    {
      if errorCode == ErrorCodeInBlackList {
        requests := requests + [SaveBlackListTip(message)];
      }
      PostMessageSend(message.(sendingState := SendFailed), false);
    }

    // --- deleting ----------------------------------------------------------

    /**
     * `deleteMessage`: nothing for no messages; one message is deleted on
     * its own; a batch is deleted only locally when none of its messages
     * reached the server.
     */
    method DeleteMessage(messageList: Option<seq<ChatMessageBean>>)
      modifies this
      ensures SessionKept() && ResultsKept() && events == old(events)
      ensures messageList.None? || messageList.value == [] ==> requests == old(requests)
      ensures messageList.Some? && |messageList.value| == 1 ==>
        requests == old(requests) + [DeleteOne(messageList.value[0].data)]
      ensures messageList.Some? && |messageList.value| >= 2 ==>
        requests == old(requests) + [DeleteMany(DataOf(messageList.value), OnlyDeleteLocal(messageList.value))]
    {
      if messageList.None? || messageList.value == [] {
        return;
      }
      var ms := messageList.value;
      if |ms| < 2 {
        requests := requests + [DeleteOne(ms[0].data)];
      } else {
        var deleteList: seq<Message> := [];
        var onlyDeleteLocal := true;
        for i := 0 to |ms|
          invariant deleteList == DataOf(ms[..i])
          invariant onlyDeleteLocal <==> OnlyDeleteLocal(ms[..i])
        {
          deleteList := deleteList + [ms[i].data];
          if ms[i].data.serverId != "" {
            onlyDeleteLocal := false;
          }
          assert ms[..i + 1][i] == ms[i];
        }
        assert ms[..|ms|] == ms;
        requests := requests + [DeleteMany(deleteList, onlyDeleteLocal)];
      }
    }

    method OnDeleteError(errorCode: int)
      modifies this
      ensures SessionKept() && ResultsKept() && requests == old(requests)
      ensures events == old(events) + [DeleteFailed(-1)]
    {
      events := events + [DeleteFailed(-1)];
    }

    /** `doActionAfterDelete`: the references of every deleted message, in order. */
    method OnDeleteSuccess(messageList: seq<ChatMessageBean>)
      modifies this
      ensures SessionKept() && ResultsKept() && requests == old(requests)
      ensures events == old(events) + [MessagesDeleted(RefersOf(messageList))]
    {
      var deleteMessageList: seq<MessageRefer> := [];
      for i := 0 to |messageList|
        invariant deleteMessageList == RefersOf(messageList[..i])
      {
        deleteMessageList := deleteMessageList + [ReferOf(messageList[i].data)];
      }
      assert messageList[..|messageList|] == messageList;
      events := events + [MessagesDeleted(deleteMessageList)];
    }

    // --- revoking ----------------------------------------------------------

    /** `revokeMessage`: remembers the client id before asking to revoke, so the echo is not shown. */
    method RevokeMessage(messageBean: Option<ChatMessageBean>)
      modifies this
      ensures messageBean.None? ==> revokedMessageClientId == old(revokedMessageClientId) && requests == old(requests)
      ensures messageBean.Some? ==>
        revokedMessageClientId == Some(messageBean.value.data.clientId)
        && requests == old(requests) + [RevokeRequest(messageBean.value.data)]
      ensures chatAccountId == old(chatAccountId) && conversationId == old(conversationId)
      ensures hasLoadMessage == old(hasLoadMessage) && needAck == old(needAck) && showRead == old(showRead)
      ensures ResultsKept() && events == old(events)
    {
      if messageBean.Some? {
        revokedMessageClientId := Some(messageBean.value.data.clientId);
        requests := requests + [RevokeRequest(messageBean.value.data)];
      }
    }

    method OnRevokeError(errorCode: int)
      modifies this
      ensures SessionKept() && ResultsKept() && requests == old(requests)
      ensures events == old(events) + [RevokeFailed(errorCode, errorCode == RevokeTimeoutCode)]
    {
      events := events + [RevokeFailed(errorCode, errorCode == RevokeTimeoutCode)];
    }

    /** A revoke succeeded: a pinned message is also unpinned, and the revoke is shown. */
    method OnRevokeSuccess(messageBean: ChatMessageBean)
      modifies this
      ensures SessionKept() && ResultsKept()
      ensures requests == old(requests) +
        (if messageBean.pinAccount != "" then [RemovePinRequest(messageBean.data)] else [])
      ensures events == old(events) + [RevokeSucceeded(RevokeInfo(Some(messageBean.data), None))]
    {
      if messageBean.pinAccount != "" {
        requests := requests + [RemovePinRequest(messageBean.data)];
      }
      events := events + [RevokeSucceeded(RevokeInfo(Some(messageBean.data), None))];
    }

    // --- forwarding --------------------------------------------------------

    /**
     * `sendForwardMessages`: walks the beans from last to first, skips
     * revoked ones, skips audio while noting the error, and sends every
     * other message to each session; the note follows later when it is
     * not blank. Returns whether an audio message was skipped.
     */
    method SendForwardMessages(inputMsg: string, sessionInfo: Option<seq<string>>, sessionType: ConversationType,
                               messages: Option<seq<ChatMessageBean>>)
      returns (hasError: bool)
      modifies this
      ensures SessionKept() && page == old(page) && sending == old(sending) && events == old(events)
      ensures sessionInfo.None? || sessionInfo.value == [] || messages.None? || messages.value == [] ==>
        !hasError && requests == old(requests) && posted == old(posted)
      ensures sessionInfo.Some? && sessionInfo.value != [] && messages.Some? && messages.value != [] ==>
        && requests == old(requests) + ForwardSends(messages.value, sessionInfo.value, sessionType, needAck && showRead)
        && hasError == SkipsAudio(messages.value)
        && posted == old(posted) +
             (if TrimmedLength(inputMsg) > 0 then [SendNote(inputMsg, sessionInfo.value, sessionType)] else [])
    {
      hasError := false;
      if sessionInfo.None? || sessionInfo.value == [] || messages.None? || messages.value == [] {
        return;
      }
      var sessions := sessionInfo.value;
      var ms := messages.value;
      hasError := ForwardEach(ms, sessions, sessionType);
      SendNoteMessage(inputMsg, sessions, sessionType);
    }

    /** The loop of `sendForwardMessages`, from the last bean to the first. */
    method ForwardEach(ms: seq<ChatMessageBean>, sessions: seq<string>, sessionType: ConversationType)
      returns (hasError: bool)
      modifies this`requests
      ensures requests == old(requests) + ForwardSends(ms, sessions, sessionType, needAck && showRead)
      ensures hasError == SkipsAudio(ms)
    {
      hasError := false;
      var index := |ms| - 1;
      assert ms[|ms|..] == [];
      while index >= 0
        invariant -1 <= index < |ms|
        invariant requests == old(requests) + ForwardSends(ms[index + 1..], sessions, sessionType, needAck && showRead)
        invariant hasError == SkipsAudio(ms[index + 1..])
      {
        ghost var before := requests;
        var audio := ForwardOne(ms[index], sessions, sessionType);
        ForwardStep(ms, index, sessions, sessionType, needAck && showRead, old(requests), before, requests);
        hasError := hasError || audio;
        index := index - 1;
      }
      assert ms[0..] == ms;
    }

    /** One bean of `sendForwardMessages`: an audio bean is skipped, a revoked one ignored. */
    method ForwardOne(message: ChatMessageBean, sessions: seq<string>, sessionType: ConversationType)
      returns (audio: bool)
      modifies this`requests
      ensures requests == old(requests)
        + (if Forwarded(message) then SendsTo(ForwardCopy(message.data), sessions, sessionType, needAck && showRead) else [])
      ensures audio == (!message.revoked && message.data.kind == Audio)
    {
      audio := false;
      if !message.revoked {
        if message.data.kind == Audio {
          audio := true;
        } else {
          SendToSessions(ForwardCopy(message.data), sessions, sessionType);
        }
      }
    }

    /** `sendNoteMessage`: a note that is not blank is sent later, to each session. */
    method SendNoteMessage(inputMsg: string, sessions: seq<string>, sessionType: ConversationType)
      modifies this
      ensures SessionKept() && page == old(page) && sending == old(sending)
      ensures events == old(events) && requests == old(requests)
      ensures posted == old(posted) + (if TrimmedLength(inputMsg) > 0 then [SendNote(inputMsg, sessions, sessionType)] else [])
    {
      if inputMsg == "" || TrimmedLength(inputMsg) <= 0 {
        return;
      }
      posted := posted + [SendNote(inputMsg, sessions, sessionType)];
    }

    // --- history -----------------------------------------------------------

    /**
     * `getMessageList`: without an anchor, the newest page of this
     * conversation; with one, the pages on both sides of it.
     */
    method GetMessageList(anchor: Option<Message>, needToScrollEnd: bool)
      modifies this
      ensures SessionKept() && page == old(page) && sending == old(sending) && events == old(events)
      ensures anchor.None? ==>
        requests == old(requests) + [History(ListOption(conversationId, MessagePageSize, None, Desc, None, None))]
        && posted == old(posted)
      ensures anchor.Some? ==>
        requests == old(requests) + [History(MoreOption(conversationId, anchor.value, Asc))]
        && posted == old(posted) + [FetchOlder(anchor.value, needToScrollEnd)]
    {
      if anchor.None? {
        requests := requests + [History(ListOption(conversationId, MessagePageSize, None, Desc, None, None))];
      } else {
        FetchMessageListBothDirect(anchor.value, needToScrollEnd);
      }
    }

    /**
     * The first page arrives newest first: it is reversed in place and
     * shown, and from then on history counts as loaded.
     */
    method OnInitialFetchSuccess(param: array?<Message>)
      modifies this, param
      ensures chatAccountId == old(chatAccountId) && conversationId == old(conversationId)
      ensures revokedMessageClientId == old(revokedMessageClientId)
      ensures needAck == old(needAck) && showRead == old(showRead)
      ensures hasLoadMessage
      ensures sending == old(sending) && posted == old(posted) && requests == old(requests)
      ensures param == null ==> page == old(page) && events == old(events)
      ensures param != null ==>
        param[..] == Reversed(old(param[..]))
        && page == PageAfterSuccess(old(page), None, true, Some(Beans(param[..])), Desc)
        && events == old(events) + [PageLoaded(page)]
    {
      if param != null {
        Reverse(param);
        OnListFetchSuccess(None, true, Some(param[..]), Desc);
      }
      if !hasLoadMessage {
        hasLoadMessage := true;
      }
    }

    /** `fetchMoreMessage`: asks for the page before or after `anchor`. */
    method FetchMoreMessage(anchor: Message, direction: Direction)
      modifies this
      ensures SessionKept() && ResultsKept() && events == old(events)
      ensures requests == old(requests) + [History(MoreOption(conversationId, anchor, direction))]
    {
      var option := ListOption(conversationId, MessagePageSize, Some(anchor), direction, None, None);
      if direction == Desc {
        option := option.(endTime := Some(anchor.createTime));
      } else {
        option := option.(beginTime := Some(anchor.createTime));
      }
      requests := requests + [History(option)];
    }

    method OnFetchMoreError(errorCode: int)
      modifies this
      ensures SessionKept() && sending == old(sending) && posted == old(posted) && requests == old(requests)
      ensures page == old(page).(status := LoadError, errorCode := Some(errorCode), data := None, typeIndex := -1)
      ensures events == old(events) + [PageLoaded(page)]
    {
      OnListFetchFailed(errorCode);
    }

    /**
     * A further page arrives: nothing for an empty or missing page; an
     * older page is reversed in place to oldest first; then it is shown.
     */
    method OnFetchMoreSuccess(anchor: Message, needToScrollEnd: bool, direction: Direction, data: array?<Message>)
      modifies this, data
      ensures SessionKept() && sending == old(sending) && posted == old(posted) && requests == old(requests)
      ensures data == null || data.Length == 0 ==> page == old(page) && events == old(events)
      ensures data != null && data.Length > 0 ==>
        data[..] == (if direction == Desc then Reversed(old(data[..])) else old(data[..]))
        && page == PageAfterSuccess(old(page), Some(anchor), needToScrollEnd, Some(Beans(data[..])), direction)
        && events == old(events) + [PageLoaded(page)]
    {
      if data != null && data.Length > 0 {
        if direction == Desc {
          Reverse(data);
        }
        OnListFetchSuccess(Some(anchor), needToScrollEnd, Some(data[..]), direction);
      }
    }

    /**
     * `fetchMessageListBothDirect`: the newer page is asked for now, the
     * older one only once the main looper runs the posted work.
     */
    method FetchMessageListBothDirect(anchor: Message, needToScrollEnd: bool)
      modifies this
      ensures SessionKept() && page == old(page) && sending == old(sending) && events == old(events)
      ensures posted == old(posted) + [FetchOlder(anchor, needToScrollEnd)]
      ensures requests == old(requests) + [History(MoreOption(conversationId, anchor, Asc))]
    {
      posted := posted + [FetchOlder(anchor, needToScrollEnd)];
      FetchMoreMessage(anchor, Asc);
    }

    /** The main looper runs the oldest posted work. */
    method RunPosted()
      requires posted != []
      modifies this
      ensures SessionKept() && page == old(page) && sending == old(sending) && events == old(events)
      ensures posted == old(posted[1..])
      ensures old(posted[0]).FetchOlder? ==>
        requests == old(requests) + [History(MoreOption(conversationId, old(posted[0]).anchor, Desc))]
      ensures old(posted[0]).SendNote? ==>
        var d := old(posted[0]);
        requests == old(requests) + SendsTo(TextMessage(d.text), d.sessions, d.sessionType, needAck && showRead)
    {
      var work := posted[0];
      posted := posted[1..];
      match work
      case FetchOlder(anchor, _) =>
        FetchMoreMessage(anchor, Desc);
      case SendNote(text, sessions, sessionType) =>
        SendToSessions(TextMessage(text), sessions, sessionType);
    }

    /** Sends `m` to each of `sessions`, in order. */
    method SendToSessions(m: Message, sessions: seq<string>, sessionType: ConversationType)
      modifies this`requests
      ensures requests == old(requests) + SendsTo(m, sessions, sessionType, needAck && showRead)
    {
      ghost var sends := SendsTo(m, sessions, sessionType, needAck && showRead);
      for k := 0 to |sessions|
        invariant requests == old(requests) + sends[..k]
      {
        SendMessageStrExtension(Some(m), ConversationId(sessionType, sessions[k]), None, None);
        assert sends[k] == SendRequest(m, ConversationId(sessionType, sessions[k]), needAck && showRead, []);
        assert sends[..k + 1] == sends[..k] + [sends[k]];
      }
      assert sends[..|sessions|] == sends;
    }

    /** `onListFetchSuccess` */
    method OnListFetchSuccess(anchor: Option<Message>, needToScrollEnd: bool, param: Option<seq<Message>>,
                              direction: Direction)
      modifies this
      ensures SessionKept() && sending == old(sending) && posted == old(posted) && requests == old(requests)
      ensures page == PageAfterSuccess(old(page), anchor, needToScrollEnd,
                                       if param.Some? then Some(Beans(param.value)) else None, direction)
      ensures events == old(events) + [PageLoaded(page)]
    {
      var loadStatus := if param.None? || |param.value| == 0 then LoadFinish else LoadSuccess;
      page := page.(status := loadStatus);
      var beans := Convert(param);
      page := page.(data := beans);
      if anchor.Some? && !needToScrollEnd {
        page := page.(scrollAnchor := anchor);
      }
      page := page.(typeIndex := if direction == Desc then 0 else -1);
      events := events + [PageLoaded(page)];
    }

    /** `onListFetchFailed`: the shared result carries the error, no data and no index. */
    method OnListFetchFailed(code: int)
      modifies this
      ensures SessionKept() && sending == old(sending) && posted == old(posted) && requests == old(requests)
      ensures page == old(page).(status := LoadError, errorCode := Some(code), data := None, typeIndex := -1)
      ensures events == old(events) + [PageLoaded(page)]
    {
      page := page.(status := LoadError, errorCode := Some(code));
      page := page.(data := None);
      page := page.(typeIndex := -1);
      events := events + [PageLoaded(page)];
    }
  }
}
