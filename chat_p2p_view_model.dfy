/**
 * The one-to-one chat page's additions to the chat view model
 * (ChatP2PViewModel): the read-receipt watermark, the typing indicator
 * carried by custom notifications, the peer's receipts and friend
 * profile.
 *
 * The Java class extends the chat view model; here it is a class of its
 * own holding the inherited fields it reads (`conversationId`,
 * `chatAccountId`, `showRead`), while the inherited behaviour is the
 * `ChatTimeline.ChatBaseViewModel` class.
 */
module P2PChat {
  import opened Common

  /** A P2P read receipt: the conversation and the time up to which the peer has read. */
  datatype ReadReceipt = ReadReceipt(conversationId: ConversationId, timestamp: int)

  /**
   * A custom notification. `typing` is the value of its JSON content's
   * "typing" key read as an integer, `None` when the content is not JSON
   * or has no such integer (the JSONException path).
   */
  datatype CustomNotification = CustomNotification(receiverId: string, conversationType: ConversationType, typing: Option<int>)

  /** The shared `friendInfoFetchResult`. */
  datatype FriendResult = FriendResult(status: LoadStatus, data: Option<UserWithFriend>)

  datatype P2PEvent =
    | ReceiptShown(receipt: ReadReceipt)
    | TypingState(typing: bool)
    | FriendInfo(result: FriendResult)

  datatype P2PRequest =
    | MarkRead(message: Message)
    | SendTyping(conversationId: ConversationId, typing: int)
    | GetFriend(accountId: string)
    | CacheUser(accountId: string, userInfo: Option<UserInfo>)

  // ---------------------------------------------------------------------
  // Typing indicator
  // ---------------------------------------------------------------------

  /** The "typing" value `sendInputNotification` writes: 1 while typing, 0 otherwise. */
  function TypingValue(isTyping: bool): (v: int)
    ensures v == 1 || v == 0
    ensures TypingOf(v) == isTyping
  {
    if isTyping then 1 else 0
  }

  /** How a received "typing" value is shown: typing exactly when it is 1. */
  function TypingOf(v: int): bool {
    v == 1
  }

  predicate AddressedToMe(n: CustomNotification, account: string) {
    n.receiverId == account && n.conversationType == P2P
  }

  /** The position of the first notification that is not a P2P one addressed to `account`, or the length. */
  function FirstForeign(ns: seq<CustomNotification>, account: string): (k: nat)
    ensures k <= |ns|
    ensures forall i :: 0 <= i < k ==> AddressedToMe(ns[i], account)
    ensures k < |ns| ==> !AddressedToMe(ns[k], account)
  {
    if ns == [] || !AddressedToMe(ns[0], account) then 0
    else 1 + FirstForeign(ns[1..], account)
  }

  /** The typing states posted for `ns`, in order; notifications whose content does not decode post nothing. */
  function TypingPosts(ns: seq<CustomNotification>): seq<P2PEvent> {
    if ns == [] then []
    else
      var last := ns[|ns| - 1];
      TypingPosts(ns[..|ns| - 1]) + (if last.typing.Some? then [TypingState(TypingOf(last.typing.value))] else [])
  }

  /** One notification more in the loop of `onReceivedCustomNotification`. */
  lemma TypingStep(ns: seq<CustomNotification>, i: int, start: seq<P2PEvent>, before: seq<P2PEvent>, after: seq<P2PEvent>)
    requires 0 <= i < |ns|
    requires before == start + TypingPosts(ns[..i])
    requires after == before + (if ns[i].typing.Some? then [TypingState(TypingOf(ns[i].typing.value))] else [])
    ensures after == start + TypingPosts(ns[..i + 1])
  {
    assert ns[..i + 1][..i] == ns[..i];
  }

  /** Each decodable notification posts exactly one state. */
  lemma {:induction false} TypingPostsCount(ns: seq<CustomNotification>)
    ensures |TypingPosts(ns)| == |set i | 0 <= i < |ns| && ns[i].typing.Some?|
  {
    if ns != [] {
      var p := ns[..|ns| - 1];
      TypingPostsCount(p);
      var before := set i | 0 <= i < |p| && p[i].typing.Some?;
      var after := set i | 0 <= i < |ns| && ns[i].typing.Some?;
      if ns[|ns| - 1].typing.Some? {
        assert after == before + {|ns| - 1};
      } else {
        assert after == before;
      }
    }
  }

  /** A notification sent by `sendInputNotification` shows the state it was sent with. */
  lemma TypingRoundTrip(isTyping: bool, account: string)
    ensures TypingPosts([CustomNotification(account, P2P, Some(TypingValue(isTyping)))]) == [TypingState(isTyping)]
  {
    assert [CustomNotification(account, P2P, Some(TypingValue(isTyping)))][..0] == [];
  }

  // ---------------------------------------------------------------------
  // Read receipts
  // ---------------------------------------------------------------------

  /**
   * `sendReceipt` as a step on the watermark: the message is marked read
   * when it asks for receipts, receipts are shown and it is newer than
   * the watermark, which then moves to its time.
   */
  function ReceiptStep(receiptTime: int, message: Option<Message>, showRead: bool): (r: (int, bool))
    ensures r.1 <==> message.Some? && message.value.readReceiptEnabled && showRead && message.value.createTime > receiptTime
    ensures r.0 == if r.1 then message.value.createTime else receiptTime
  {
    if message.Some? && message.value.readReceiptEnabled && showRead && message.value.createTime > receiptTime
    then (message.value.createTime, true)
    else (receiptTime, false)
  }

  /** The watermark never goes back. */
  lemma ReceiptTimeMonotone(receiptTime: int, message: Option<Message>, showRead: bool)
    ensures ReceiptStep(receiptTime, message, showRead).0 >= receiptTime
  {
  }

  /** Sending the receipt of the same message twice marks it at most once. */
  lemma ReceiptAtMostOnce(receiptTime: int, message: Option<Message>, showRead: bool)
    ensures var first := ReceiptStep(receiptTime, message, showRead);
      !ReceiptStep(first.0, message, showRead).1
  {
  }

  /**
   * `sendReceipt` over a run of messages from watermark `receiptTime`:
   * the final watermark and the messages marked read, in order.
   */
  function ReceiptRun(receiptTime: int, ms: seq<Option<Message>>, showRead: bool): (int, seq<Message>) {
    if ms == [] then (receiptTime, [])
    else
      var before := ReceiptRun(receiptTime, ms[..|ms| - 1], showRead);
      var step := ReceiptStep(before.0, ms[|ms| - 1], showRead);
      (step.0, before.1 + (if step.1 then [ms[|ms| - 1].value] else []))
  }

  /**
   * Over any run the watermark never goes back, every marked message is
   * newer than the starting watermark and no newer than the final one,
   * and the marked messages are strictly newer one after the other, so
   * no message is marked read twice.
   */
  lemma {:induction false} ReceiptRunMarksIncreasing(receiptTime: int, ms: seq<Option<Message>>, showRead: bool)
    ensures var run := ReceiptRun(receiptTime, ms, showRead);
      && run.0 >= receiptTime
      && (forall i :: 0 <= i < |run.1| ==> receiptTime < run.1[i].createTime <= run.0)
      && (forall i, j :: 0 <= i < j < |run.1| ==> run.1[i].createTime < run.1[j].createTime)
      && (run.1 != [] ==> run.1[|run.1| - 1].createTime == run.0)
  {
    if ms != [] {
      var before := ReceiptRun(receiptTime, ms[..|ms| - 1], showRead);
      var step := ReceiptStep(before.0, ms[|ms| - 1], showRead);
      ReceiptRunMarksIncreasing(receiptTime, ms[..|ms| - 1], showRead);
      var run := ReceiptRun(receiptTime, ms, showRead);
      assert run.0 == step.0 && step.0 >= before.0;
      if step.1 {
        var marked := before.1 + [ms[|ms| - 1].value];
        assert run.1 == marked;
        forall i | 0 <= i < |marked|
          ensures receiptTime < marked[i].createTime <= run.0
        {
          if i < |before.1| {
            assert marked[i] == before.1[i];
          }
        }
        forall i, j | 0 <= i < j < |marked|
          ensures marked[i].createTime < marked[j].createTime
        {
          assert marked[i] == before.1[i];
          if j < |before.1| {
            assert marked[j] == before.1[j];
          }
        }
      } else {
        assert run.1 == before.1;
      }
    }
  }

  /** The receipts of conversation `c`, in order. */
  function ReceiptsIn(rs: seq<ReadReceipt>, c: ConversationId): seq<P2PEvent> {
    if rs == [] then []
    else
      var last := rs[|rs| - 1];
      ReceiptsIn(rs[..|rs| - 1], c) + (if last.conversationId == c then [ReceiptShown(last)] else [])
  }

  /** A receipt is shown exactly when it is of the conversation. */
  lemma {:induction false} ReceiptsInExactly(rs: seq<ReadReceipt>, c: ConversationId, r: ReadReceipt)
    ensures ReceiptShown(r) in ReceiptsIn(rs, c) <==> r in rs && r.conversationId == c
  {
    if rs != [] {
      ReceiptsInExactly(rs[..|rs| - 1], c, r);
      assert rs == rs[..|rs| - 1] + [rs[|rs| - 1]];
    }
  }

  class ChatP2PViewModel {
    var conversationId: ConversationId
    var chatAccountId: string
    var showRead: bool
    var receiptTime: int
    var friendInfo: FriendResult
    var events: seq<P2PEvent>
    var requests: seq<P2PRequest>

    constructor (accountId: string)
      ensures conversationId == ConversationId(P2P, accountId) && chatAccountId == accountId && showRead
      ensures receiptTime == 0 && friendInfo == FriendResult(LoadFinish, None)
      ensures events == [] && requests == []
    {
      conversationId := ConversationId(P2P, accountId);
      chatAccountId := accountId;
      showRead := true;
      receiptTime := 0;
      friendInfo := FriendResult(LoadFinish, None);
      events := [];
      requests := [];
    }

    twostate predicate PeerKept()
      reads this
    {
      conversationId == old(conversationId) && chatAccountId == old(chatAccountId) && showRead == old(showRead)
    }

    /** `sendReceipt`: marks the message read and moves the watermark as `ReceiptStep` says. */
    method SendReceipt(message: Option<Message>)
      modifies this
      ensures PeerKept() && friendInfo == old(friendInfo) && events == old(events)
      ensures receiptTime == ReceiptStep(old(receiptTime), message, showRead).0
      ensures requests == old(requests) +
        (if ReceiptStep(old(receiptTime), message, showRead).1 then [MarkRead(message.value)] else [])
    {
      if message.Some? && message.value.readReceiptEnabled && showRead && message.value.createTime > receiptTime {
        receiptTime := message.value.createTime;
        requests := requests + [MarkRead(message.value)];
      }
    }

    /** The peer's receipts of this conversation are shown one by one, in order. */
    method OnP2PMessageReadReceipts(readReceipts: Option<seq<ReadReceipt>>)
      modifies this
      ensures PeerKept() && receiptTime == old(receiptTime) && friendInfo == old(friendInfo)
      ensures requests == old(requests)
      ensures readReceipts.None? ==> events == old(events)
      ensures readReceipts.Some? ==> events == old(events) + ReceiptsIn(readReceipts.value, conversationId)
    {
      if readReceipts.None? {
        return;
      }
      var rs := readReceipts.value;
      for i := 0 to |rs|
        invariant PeerKept() && receiptTime == old(receiptTime) && friendInfo == old(friendInfo)
        invariant requests == old(requests)
        invariant events == old(events) + ReceiptsIn(rs[..i], conversationId)
      {
        assert rs[..i + 1][..i] == rs[..i];
        if rs[i].conversationId == conversationId {
          events := events + [ReceiptShown(rs[i])];
        }
      }
      assert rs[..|rs|] == rs;
    }

    /**
     * Custom notifications: each posts its typing state until the first
     * one that is not a P2P notification addressed to `account`, where
     * the whole batch stops.
     */
    method OnReceiveCustomNotifications(customNotifications: Option<seq<CustomNotification>>, account: string)
      modifies this`events
      ensures PeerKept() && receiptTime == old(receiptTime) && friendInfo == old(friendInfo)
      ensures requests == old(requests)
      ensures customNotifications.None? ==> events == old(events)
      ensures customNotifications.Some? ==>
        var ns := customNotifications.value;
        events == old(events) + TypingPosts(ns[..FirstForeign(ns, account)])
    {
      if customNotifications.None? {
        return;
      }
      var ns := customNotifications.value;
      var i := 0;
      while i < |ns|
        invariant 0 <= i <= FirstForeign(ns, account)
        invariant events == old(events) + TypingPosts(ns[..i])
      {
        var notification := ns[i];
        if notification.receiverId != account || notification.conversationType != P2P {
          return;
        }
        ghost var before := events;
        if notification.typing.Some? {
          var id := notification.typing.value;
          if id == 1 {
            events := events + [TypingState(true)];
          } else {
            events := events + [TypingState(false)];
          }
        }
        TypingStep(ns, i, old(events), before, events);
        i := i + 1;
      }
    }

    /** `sendInputNotification`: the typing state goes to the peer as 1 or 0. */
    method SendInputNotification(isTyping: bool)
      modifies this
      ensures PeerKept() && receiptTime == old(receiptTime) && friendInfo == old(friendInfo) && events == old(events)
      ensures requests == old(requests) + [SendTyping(conversationId, TypingValue(isTyping))]
    {
      requests := requests + [SendTyping(conversationId, if isTyping then 1 else 0)];
    }

    method GetFriendInfo(accId: string)
      modifies this
      ensures PeerKept() && receiptTime == old(receiptTime) && friendInfo == old(friendInfo) && events == old(events)
      ensures requests == old(requests) + [GetFriend(accId)]
    {
      requests := requests + [GetFriend(accId)];
    }

    /** The friend arrived: its profile is cached and it is shown; nothing happens for none. */
    method OnGetFriendSuccess(accId: string, data: Option<UserWithFriend>)
      modifies this
      ensures PeerKept() && receiptTime == old(receiptTime)
      ensures data.None? ==> friendInfo == old(friendInfo) && events == old(events) && requests == old(requests)
      ensures data.Some? ==>
        friendInfo == FriendResult(LoadSuccess, data)
        && events == old(events) + [FriendInfo(friendInfo)]
        && requests == old(requests) + [CacheUser(accId, data.value.userInfo)]
    {
      if data.Some? {
        requests := requests + [CacheUser(accId, data.value.userInfo)];
        friendInfo := friendInfo.(data := data);
        friendInfo := friendInfo.(status := LoadSuccess);
        events := events + [FriendInfo(friendInfo)];
      }
    }

    /** `notifyFriendChange`: only a change of the peer is shown. */
    method NotifyFriendChange(friend: UserWithFriend)
      modifies this
      ensures PeerKept() && receiptTime == old(receiptTime) && requests == old(requests)
      ensures friend.account == chatAccountId ==>
        friendInfo == FriendResult(LoadSuccess, Some(friend)) && events == old(events) + [FriendInfo(friendInfo)]
      ensures friend.account != chatAccountId ==> friendInfo == old(friendInfo) && events == old(events)
    {
      if friend.account == chatAccountId {
        friendInfo := friendInfo.(data := Some(friend));
        friendInfo := friendInfo.(status := LoadSuccess);
        events := events + [FriendInfo(friendInfo)];
      }
    }
  }
}
