/**
 * The pinned-messages page's view model (ChatPinViewModel): loads the
 * pins of one conversation, follows pin, delete and revoke pushes for
 * that conversation, unpins and forwards pinned messages.
 */
module PinList {
  import opened Common
  import MessageHelper

  /** ResponseCode.RES_IN_BLACK_LIST; the constant's value is not part of this model. */
  const ResInBlackList: int

  /** IMMessageInfo as this page reads it: the message and its pin, if any. */
  datatype MessageInfo = MessageInfo(message: Message, pinOption: Option<MessagePin>)

  /** The shared `messageFetchResult` and `addFetchResult`. */
  datatype PinPage = PinPage(status: LoadStatus, data: Option<seq<ChatMessageBean>>, errorCode: Option<int>)

  /** The shared `removePinResult`. */
  datatype RemoveResult = RemoveResult(status: LoadStatus, data: Option<string>)

  datatype PinEvent =
    | PinsLoaded(page: PinPage)
    | PinRemoved(result: RemoveResult)
    | PinsAdded(page: PinPage)
    | MessagesRemoved(clientIds: seq<string>)
    | AttachmentProgress(clientId: string, progress: int)
    | UnpinBroadcast(clientId: string)

  datatype PinRequest =
    | FetchPins(sessionId: string, sessionType: ConversationType)
    | RemovePinRequest(refer: MessageRefer)
    | FillPin(pin: MessagePin)
    | SendRequest(message: Message, conversationId: ConversationId, readReceipt: bool)
    | SaveBlackListTip(message: Message)

  /** The follow-up text of a forward, sent later by the main looper. */
  datatype Deferred = SendText(content: string, session: string, sessionType: ConversationType)

  /** The client ids of the references in conversation `c`, in order. */
  function ClientIdsIn(refers: seq<MessageRefer>, c: ConversationId): seq<string> {
    if refers == [] then []
    else
      var last := refers[|refers| - 1];
      ClientIdsIn(refers[..|refers| - 1], c) + (if last.conversationId == c then [last.clientId] else [])
  }

  function RevokedRefers(ns: seq<MessageHelper.RevokeNotification>): (r: seq<MessageRefer>)
    ensures |r| == |ns| && forall k :: 0 <= k < |ns| ==> r[k] == ns[k].refer
  {
    seq(|ns|, k requires 0 <= k < |ns| => ns[k].refer)
  }

  /**
   * The collected client ids are exactly those of the references in the
   * conversation, and there are never more of them than references.
   */
  lemma {:induction false} ClientIdsInExactly(refers: seq<MessageRefer>, c: ConversationId, id: string)
    ensures |ClientIdsIn(refers, c)| <= |refers|
    ensures id in ClientIdsIn(refers, c) <==> exists k :: 0 <= k < |refers| && refers[k].conversationId == c && refers[k].clientId == id
  {
    if refers != [] {
      var p := refers[..|refers| - 1];
      ClientIdsInExactly(p, c, id);
      if exists k :: 0 <= k < |refers| && refers[k].conversationId == c && refers[k].clientId == id {
        var k :| 0 <= k < |refers| && refers[k].conversationId == c && refers[k].clientId == id;
        if k < |p| {
          assert p[k] == refers[k];
        }
      }
      if id in ClientIdsIn(p, c) {
        var k :| 0 <= k < |p| && p[k].conversationId == c && p[k].clientId == id;
        assert refers[k] == p[k];
      }
    }
  }

  class ChatPinViewModel {
    var sessionId: string
    var sessionType: ConversationType
    var needAck: bool
    var showRead: bool
    var messagePage: PinPage
    var removePinResult: RemoveResult
    var addPage: PinPage
    var events: seq<PinEvent>
    var requests: seq<PinRequest>
    var posted: seq<Deferred>

    twostate predicate SettingsKept()
      reads this
    {
      sessionId == old(sessionId) && sessionType == old(sessionType)
      && needAck == old(needAck) && showRead == old(showRead)
    }

    twostate predicate ResultsKept()
      reads this
    {
      messagePage == old(messagePage) && removePinResult == old(removePinResult) && addPage == old(addPage)
    }

    /** `init`: bound to one conversation, read receipts as the setting says. */
    constructor (sessionId: string, sessionType: ConversationType, showReadStatus: bool)
      ensures this.sessionId == sessionId && this.sessionType == sessionType
      ensures needAck == showReadStatus && showRead
      ensures messagePage == PinPage(LoadFinish, None, None) && addPage == PinPage(LoadFinish, None, None)
      ensures removePinResult == RemoveResult(LoadFinish, None)
      ensures events == [] && requests == [] && posted == []
    {
      this.sessionId := sessionId;
      this.sessionType := sessionType;
      needAck := showReadStatus;
      showRead := true;
      messagePage := PinPage(LoadFinish, None, None);
      removePinResult := RemoveResult(LoadFinish, None);
      addPage := PinPage(LoadFinish, None, None);
      events := [];
      requests := [];
      posted := [];
    }

    /** `setShowRead`: only the show-read flag changes. */
    method SetShowRead(show: bool)
      modifies this`showRead
      ensures showRead == show
    {
      showRead := show;
    }

    /** `isSameConversation`: the id names this page's target with this page's conversation type. */
    predicate IsSameConversation(conversationId: ConversationId)
      reads this
      ensures IsSameConversation(conversationId) <==> conversationId == ConversationId(sessionType, sessionId)
    {
      conversationId.target == sessionId && conversationId.kind == sessionType
    }

    method GetPinMessageList()
      modifies this
      ensures SettingsKept() && ResultsKept() && events == old(events) && posted == old(posted)
      ensures requests == old(requests) + [FetchPins(sessionId, sessionType)]
    {
      requests := requests + [FetchPins(sessionId, sessionType)];
    }

    /** The pins failed to load: the shared result carries the error; its data stays. */
    method OnPinListError(errorCode: int)
      modifies this
      ensures SettingsKept() && removePinResult == old(removePinResult) && addPage == old(addPage)
      ensures requests == old(requests) && posted == old(posted)
      ensures messagePage == old(messagePage).(status := LoadError, errorCode := Some(errorCode))
      ensures events == old(events) + [PinsLoaded(messagePage)]
    {
      messagePage := messagePage.(status := LoadError);
      messagePage := messagePage.(errorCode := Some(errorCode));
      events := events + [PinsLoaded(messagePage)];
    }

    /** The pins arrived: sorted newest first in place and shown. */
    method OnPinListSuccess(data: array?<Message>)
      modifies this, data
      ensures SettingsKept() && removePinResult == old(removePinResult) && addPage == old(addPage)
      ensures requests == old(requests) && posted == old(posted)
      ensures data != null ==> data[..] == MessageHelper.NewestFirst(old(data[..]))
      ensures messagePage == old(messagePage).(status := LoadSuccess,
                                               data := if data == null then None else Some(Beans(data[..])))
      ensures events == old(events) + [PinsLoaded(messagePage)]
    {
      messagePage := messagePage.(status := LoadSuccess);
      var beans := MessageHelper.ConvertToChatMessageBean(data);
      messagePage := messagePage.(data := beans);
      events := events + [PinsLoaded(messagePage)];
    }

    /** `removePin`: only a message that is pinned is unpinned. */
    method RemovePin(messageInfo: MessageInfo)
      modifies this
      ensures SettingsKept() && ResultsKept() && events == old(events) && posted == old(posted)
      ensures messageInfo.pinOption.None? ==> requests == old(requests)
      ensures messageInfo.pinOption.Some? ==>
        requests == old(requests) + [RemovePinRequest(messageInfo.pinOption.value.refer)]
    {
      if messageInfo.pinOption.None? {
        return;
      }
      requests := requests + [RemovePinRequest(messageInfo.pinOption.value.refer)];
    }

    /** The unpin succeeded: the message's client id is reported and broadcast. */
    method OnRemovePinSuccess(messageInfo: MessageInfo)
      modifies this
      ensures SettingsKept() && messagePage == old(messagePage) && addPage == old(addPage)
      ensures requests == old(requests) && posted == old(posted)
      ensures removePinResult == RemoveResult(LoadSuccess, Some(messageInfo.message.clientId))
      ensures events == old(events) + [PinRemoved(removePinResult), UnpinBroadcast(messageInfo.message.clientId)]
    {
      removePinResult := removePinResult.(status := LoadSuccess);
      removePinResult := removePinResult.(data := Some(messageInfo.message.clientId));
      events := events + [PinRemoved(removePinResult)];
      events := events + [UnpinBroadcast(messageInfo.message.clientId)];
    }

    /** `sendForwardMessage`: a forward copy without reply and at-mentions goes to the session. */
    method SendForwardMessage(message: Message, session: string, kind: ConversationType)
      modifies this
      ensures SettingsKept() && ResultsKept() && events == old(events) && posted == old(posted)
      ensures requests == old(requests) +
        [SendRequest(MessageHelper.ClearAitAndReplyInfo(message), ConversationId(kind, session), needAck && showRead)]
    {
      var forwardMessage := MessageHelper.ClearAitAndReplyInfo(message);
      requests := requests + [SendRequest(forwardMessage, ConversationId(kind, session), needAck && showRead)];
    }

    /** The forward with a note: the note follows later, and only when it is not blank. */
    method SendForwardMessageWithNote(message: Message, inputMsg: string, session: string, kind: ConversationType)
      modifies this
      ensures SettingsKept() && ResultsKept() && events == old(events)
      ensures requests == old(requests) +
        [SendRequest(MessageHelper.ClearAitAndReplyInfo(message), ConversationId(kind, session), needAck && showRead)]
      ensures posted == old(posted) + (if TrimmedLength(inputMsg) > 0 then [SendText(inputMsg, session, kind)] else [])
    {
      SendForwardMessage(message, session, kind);
      if inputMsg != "" && TrimmedLength(inputMsg) > 0 {
        posted := posted + [SendText(inputMsg, session, kind)];
      }
    }

    method SendTextMessage(content: string, session: string, kind: ConversationType)
      modifies this
      ensures SettingsKept() && ResultsKept() && events == old(events) && posted == old(posted)
      ensures requests == old(requests) + [SendRequest(TextMessage(content), ConversationId(kind, session), needAck && showRead)]
    {
      requests := requests + [SendRequest(TextMessage(content), ConversationId(kind, session), needAck && showRead)];
    }

    /** A text send failed: a black-list refusal saves the local tip. */
    method OnSendTextError(textMessage: Message, errorCode: int)
      modifies this
      ensures SettingsKept() && ResultsKept() && events == old(events) && posted == old(posted)
      ensures requests == old(requests) + (if errorCode == ResInBlackList then [SaveBlackListTip(textMessage)] else [])
    {
      if errorCode == ResInBlackList {
        requests := requests + [SaveBlackListTip(textMessage)];
      }
    }

    /** The main looper runs the oldest posted note. */
    method RunPosted()
      requires posted != []
      modifies this
      ensures SettingsKept() && ResultsKept() && events == old(events)
      ensures posted == old(posted[1..])
      ensures requests == old(requests) +
        [SendRequest(TextMessage(old(posted[0]).content), ConversationId(old(posted[0]).sessionType, old(posted[0]).session),
                     needAck && showRead)]
    {
      var work := posted[0];
      posted := posted[1..];
      SendTextMessage(work.content, work.session, work.sessionType);
    }

    /** After a reconnection the pins are fetched again. */
    method OnLoginStatus(logined: bool)
      modifies this
      ensures SettingsKept() && ResultsKept() && events == old(events) && posted == old(posted)
      ensures requests == old(requests) + (if logined then [FetchPins(sessionId, sessionType)] else [])
    {
      if logined {
        GetPinMessageList();
      }
    }

    /** Download progress is reported for any message, without a conversation check. */
    method OnMessageAttachmentDownloadProgress(message: Message, progress: int)
      modifies this
      ensures SettingsKept() && ResultsKept() && requests == old(requests) && posted == old(posted)
      ensures events == old(events) + [AttachmentProgress(message.clientId, progress)]
    {
      events := events + [AttachmentProgress(message.clientId, progress)];
    }

    /** `removeMessagesByClientId`: announced only when there is something to remove. */
    method RemoveMessagesByClientId(messages: seq<string>)
      modifies this
      ensures SettingsKept() && ResultsKept() && requests == old(requests) && posted == old(posted)
      ensures events == old(events) + (if messages != [] then [MessagesRemoved(messages)] else [])
    {
      if |messages| > 0 {
        events := events + [MessagesRemoved(messages)];
      }
    }

    /** Deleted messages of this conversation leave the pin list. */
    method OnMessageDeletedNotifications(messages: seq<MessageRefer>)
      modifies this
      ensures SettingsKept() && ResultsKept() && requests == old(requests) && posted == old(posted)
      ensures var ids := ClientIdsIn(messages, ConversationId(sessionType, sessionId));
        events == old(events) + (if ids != [] then [MessagesRemoved(ids)] else [])
    {
      var clientIdList: seq<string> := [];
      for i := 0 to |messages|
        invariant clientIdList == ClientIdsIn(messages[..i], ConversationId(sessionType, sessionId))
      {
        assert messages[..i + 1][..i] == messages[..i];
        if IsSameConversation(messages[i].conversationId) {
          clientIdList := clientIdList + [messages[i].clientId];
        }
      }
      assert messages[..|messages|] == messages;
      RemoveMessagesByClientId(clientIdList);
    }

    /** Revoked messages of this conversation leave the pin list. */
    method OnMessageRevokeNotifications(revokeNotifications: Option<seq<MessageHelper.RevokeNotification>>)
      modifies this
      ensures SettingsKept() && ResultsKept() && requests == old(requests) && posted == old(posted)
      ensures revokeNotifications.None? ==> events == old(events)
      ensures revokeNotifications.Some? ==>
        var ids := ClientIdsIn(RevokedRefers(revokeNotifications.value), ConversationId(sessionType, sessionId));
        events == old(events) + (if ids != [] then [MessagesRemoved(ids)] else [])
    {
      if revokeNotifications.None? {
        return;
      }
      var ns := revokeNotifications.value;
      var clientIdList: seq<string> := [];
      for i := 0 to |ns|
        invariant clientIdList == ClientIdsIn(RevokedRefers(ns[..i]), ConversationId(sessionType, sessionId))
      {
        assert RevokedRefers(ns[..i + 1])[..i] == RevokedRefers(ns[..i]);
        if IsSameConversation(ns[i].refer.conversationId) {
          clientIdList := clientIdList + [ns[i].refer.clientId];
        }
      }
      assert ns[..|ns|] == ns;
      RemoveMessagesByClientId(clientIdList);
    }

    /**
     * A pin push: a new pin is filled in whatever its conversation; an
     * unpin of this conversation with a client id is reported on the
     * shared remove result, whose status is left as it was.
     */
    method OnMessagePinNotification(pinNotification: Option<PinNotification>)
      modifies this
      ensures SettingsKept() && messagePage == old(messagePage) && addPage == old(addPage) && posted == old(posted)
      ensures pinNotification.Some? && pinNotification.value.state == Pinned ==>
        requests == old(requests) + [FillPin(pinNotification.value.pin)]
        && removePinResult == old(removePinResult) && events == old(events)
      ensures !(pinNotification.Some? && pinNotification.value.state == Pinned) ==> requests == old(requests)
      ensures pinNotification.Some? && pinNotification.value.state == NotPinned
              && IsSameConversation(pinNotification.value.pin.refer.conversationId)
              && pinNotification.value.pin.refer.clientId != "" ==>
        removePinResult == old(removePinResult).(data := Some(pinNotification.value.pin.refer.clientId))
        && events == old(events) + [PinRemoved(removePinResult)]
      ensures !(pinNotification.Some? && pinNotification.value.state == NotPinned
                && IsSameConversation(pinNotification.value.pin.refer.conversationId)
                && pinNotification.value.pin.refer.clientId != "") ==>
        removePinResult == old(removePinResult) && events == old(events)
    {
      if pinNotification.Some? {
        var n := pinNotification.value;
        if n.state == Pinned {
          requests := requests + [FillPin(n.pin)];
        } else if n.state == NotPinned {
          if IsSameConversation(n.pin.refer.conversationId) {
            var uuid := n.pin.refer.clientId;
            if uuid != "" {
              removePinResult := removePinResult.(data := Some(uuid));
              events := events + [PinRemoved(removePinResult)];
            }
          }
        }
      }
    }

    /** A filled-in pin arrived: sorted newest first in place and added. */
    method OnFillPinSuccess(param: array?<Message>)
      modifies this, param
      ensures SettingsKept() && messagePage == old(messagePage) && removePinResult == old(removePinResult)
      ensures requests == old(requests) && posted == old(posted)
      ensures param != null ==> param[..] == MessageHelper.NewestFirst(old(param[..]))
      ensures addPage == old(addPage).(status := LoadSuccess,
                                       data := if param == null then None else Some(Beans(param[..])))
      ensures events == old(events) + [PinsAdded(addPage)]
    {
      addPage := addPage.(status := LoadSuccess);
      var beans := MessageHelper.ConvertToChatMessageBean(param);
      addPage := addPage.(data := beans);
      events := events + [PinsAdded(addPage)];
    }
  }
}
