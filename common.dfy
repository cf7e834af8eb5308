/**
 * Values shared by the chat, conversation, team and contact view models:
 * messages as the IM SDK hands them over, conversation ids, the decoded
 * server extension of a message and the references carried by
 * notifications.
 */
module Common {

  datatype Option<T> = None | Some(value: T) {
    function GetOr(default: T): T {
      if Some? then value else default
    }
  }

  /** The outcome an SDK callback reports: success, or an error code. */
  datatype Outcome = Success | Failure(code: int)

  datatype ConversationType = P2P | Team | SuperTeam | UnknownConversation

  /**
   * A conversation id of the logged-in account. The SDK encodes it as a
   * string; the model keeps the two parts the view models read back
   * (conversationType and conversationTargetId). Two ids are equal exactly
   * when both parts are.
   */
  datatype ConversationId = ConversationId(kind: ConversationType, target: string)

  datatype MessageType =
    | Text | Image | Audio | Video | Location | Notification | File
    | AvChat | Tips | Robot | Call | Custom | InvalidType

  datatype SendingState = SendingUnknown | Sending | SendSucceeded | SendFailed

  /** One @-mention range inside a text, as the at-mention payload stores it. */
  datatype AitSegment = AitSegment(start: int, end: int)

  /** All ranges that mention one account. */
  datatype AitBlock = AitBlock(account: string, segments: seq<AitSegment>)

  /**
   * A value inside a message's server extension (a JSON object). The
   * at-mention entry is kept in its decoded form.
   */
  datatype ExtValue =
    | Str(s: string)
    | Num(n: int)
    | Bool(b: bool)
    | Obj(fields: map<string, ExtValue>)
    | AtPayload(blocks: seq<AitBlock>)

  type ExtMap = map<string, ExtValue>

  /**
   * A message attachment as the registered custom parser decodes it.
   * `RichText` title and body may be absent (Java null).
   */
  datatype Attachment =
    | NoAttachment
    | RichText(title: Option<string>, body: Option<string>)
    | MultiForward(depth: int)
    | OtherAttachment

  /**
   * A message. `serverExt` is the parsed server extension: `None` when the
   * extension string is null or does not parse as a JSON object. An empty
   * `serverId` stands for a message the server has not acknowledged.
   */
  datatype Message = Message(
    clientId: string,
    serverId: string,
    conversationId: ConversationId,
    kind: MessageType,
    senderId: string,
    isSelf: bool,
    createTime: int,
    text: string,
    attachment: Attachment,
    serverExt: Option<ExtMap>,
    readReceiptEnabled: bool,
    sendingState: SendingState)

  /** The reference a notification carries to the message it is about. */
  datatype MessageRefer = MessageRefer(
    clientId: string,
    serverId: string,
    conversationId: ConversationId,
    senderId: string,
    createTime: int)

  function ReferOf(m: Message): (r: MessageRefer)
    ensures r.clientId == m.clientId && r.conversationId == m.conversationId
    ensures r.createTime == m.createTime
  {
    MessageRefer(m.clientId, m.serverId, m.conversationId, m.senderId, m.createTime)
  }

  /** The status of a kit `FetchResult`. */
  datatype LoadStatus = Loading | LoadSuccess | LoadError | LoadFinish

  /** The kind of list change a kit `FetchResult` announces. */
  datatype FetchType = Init | Add | Update | Remove

  datatype PinState = Pinned | NotPinned | OtherPinState

  /** A pin of a message: the pinned message and the account that pinned it. */
  datatype MessagePin = MessagePin(refer: MessageRefer, operatorId: string)

  datatype PinNotification = PinNotification(pin: MessagePin, state: PinState)

  /**
   * The UI wrapper around a message: whether it was revoked, the
   * re-edit flag of a revoked message and the account that pinned it
   * ("" when not pinned).
   */
  datatype ChatMessageBean = ChatMessageBean(
    data: Message,
    revoked: bool,
    revokeMsgEdit: bool,
    pinAccount: string)

  /** The bean a message is first shown with: not revoked, not pinned. */
  function NewBean(m: Message): ChatMessageBean {
    ChatMessageBean(m, false, false, "")
  }

  /** One fresh bean per message, in order (the view models' `convert`). */
  function Beans(ms: seq<Message>): (r: seq<ChatMessageBean>)
    ensures |r| == |ms|
    ensures forall i :: 0 <= i < |ms| ==> r[i].data == ms[i] && !r[i].revoked && r[i].pinAccount == ""
  {
    seq(|ms|, i requires 0 <= i < |ms| => NewBean(ms[i]))
  }

  /**
   * `convert`: a null list stays null, otherwise each message is wrapped
   * in a fresh bean.
   */
  method Convert(messageList: Option<seq<Message>>) returns (result: Option<seq<ChatMessageBean>>)
    ensures result.None? <==> messageList.None?
    ensures messageList.Some? ==> result.value == Beans(messageList.value)
  {
    if messageList.None? {
      return None;
    }
    var ms := messageList.value;
    var beans: seq<ChatMessageBean> := [];
    for i := 0 to |ms|
      invariant beans == Beans(ms[..i])
    {
      assert ms[..i + 1] == ms[..i] + [ms[i]];
      beans := beans + [NewBean(ms[i])];
    }
    assert ms[..|ms|] == ms;
    result := Some(beans);
  }

  /** A user's profile; only its presence matters to the view models. */
  datatype UserInfo = UserInfo(accountId: string, name: string)

  /** A friend entry of the contact list. */
  datatype Friend = Friend(accountId: string, alias: string)

  /**
   * UserWithFriend: an account with its profile and, when it is a
   * friend, its friend entry (each may be absent).
   */
  datatype UserWithFriend = UserWithFriend(account: string, userInfo: Option<UserInfo>, friend: Option<Friend>)

  /**
   * The message `V2NIMMessageCreator.createTextMessage` makes; the SDK
   * fills in ids, sender and time when it is sent.
   */
  function TextMessage(text: string): Message {
    Message("", "", ConversationId(UnknownConversation, ""), Text, "", true, 0, text,
            NoAttachment, None, false, SendingUnknown)
  }

  /** `s` back to front. */
  function Reversed<T>(s: seq<T>): (r: seq<T>)
    ensures |r| == |s|
  {
    if s == [] then [] else Reversed(s[1..]) + [s[0]]
  }

  lemma {:induction false} ReversedAt<T>(s: seq<T>, i: int)
    requires 0 <= i < |s|
    ensures Reversed(s)[i] == s[|s| - 1 - i]
  {
    if i < |s| - 1 {
      ReversedAt(s[1..], i);
    }
  }

  lemma ReversedTwice<T>(s: seq<T>)
    ensures Reversed(Reversed(s)) == s
  {
    forall i | 0 <= i < |s| ensures Reversed(Reversed(s))[i] == s[i] {
      ReversedAt(Reversed(s), i);
      ReversedAt(s, |s| - 1 - i);
    }
  }

  /** `Collections.reverse`: reverses the list in place. */
  method Reverse<T>(a: array<T>)
    modifies a
    ensures a[..] == Reversed(old(a[..]))
  {
    ghost var s := a[..];
    var i, j := 0, a.Length - 1;
    while i < j
      invariant 0 <= i && 2 * i <= a.Length && j == a.Length - 1 - i && |s| == a.Length
      invariant forall k :: 0 <= k < i ==> a[k] == s[a.Length - 1 - k] && a[a.Length - 1 - k] == s[k]
      invariant forall k :: i <= k < a.Length - i ==> a[k] == s[k]
    {
      a[i], a[j] := a[j], a[i];
      i, j := i + 1, j - 1;
    }
    forall k | 0 <= k < a.Length ensures a[k] == Reversed(s)[k] {
      ReversedAt(s, k);
    }
  }

  /**
   * Android's `TextUtils.getTrimmedLength`: the length once the leading
   * and trailing characters at or below ' ' are dropped.
   */
  function TrimmedLength(s: string): (n: nat)
    ensures n <= |s|
  {
    if s != [] && s[0] <= ' ' then TrimmedLength(s[1..])
    else if s != [] && s[|s| - 1] <= ' ' then TrimmedLength(s[..|s| - 1])
    else |s|
  }

  /** A text trims to something exactly when one of its characters is above ' '. */
  lemma {:induction false} TrimmedLengthPositive(s: string)
    ensures TrimmedLength(s) > 0 <==> exists i :: 0 <= i < |s| && s[i] > ' '
  {
    if s != [] && s[0] <= ' ' {
      TrimmedLengthPositive(s[1..]);
      if exists i :: 0 <= i < |s| && s[i] > ' ' {
        var i :| 0 <= i < |s| && s[i] > ' ';
        assert s[1..][i - 1] > ' ';
      }
    } else if s != [] && s[|s| - 1] <= ' ' {
      TrimmedLengthPositive(s[..|s| - 1]);
      if exists i :: 0 <= i < |s| && s[i] > ' ' {
        var i :| 0 <= i < |s| && s[i] > ' ';
        assert s[..|s| - 1][i] > ' ';
      }
    } else if s != [] {
      assert s[0] > ' ';
    }
  }

  /** Keeps the elements of `s` that satisfy `p`, in order. */
  function Filter<T>(s: seq<T>, p: T -> bool): (r: seq<T>)
    ensures |r| <= |s|
    ensures forall i :: 0 <= i < |r| ==> r[i] in s && p(r[i])
    ensures forall i :: 0 <= i < |s| && p(s[i]) ==> s[i] in r
  {
    if s == [] then []
    else if p(s[0]) then [s[0]] + Filter(s[1..], p)
    else Filter(s[1..], p)
  }

  lemma {:induction false} FilterAppend<T>(a: seq<T>, b: seq<T>, p: T -> bool)
    ensures Filter(a + b, p) == Filter(a, p) + Filter(b, p)
  {
    if a == [] {
      assert a + b == b;
    } else {
      assert (a + b)[1..] == a[1..] + b;
      FilterAppend(a[1..], b, p);
    }
  }

  /** Filtering by `p` and by its negation splits `s` without loss. */
  lemma {:induction false} FilterPartition<T>(s: seq<T>, p: T -> bool)
    ensures |Filter(s, p)| + |Filter(s, x => !p(x))| == |s|
    ensures multiset(Filter(s, p)) + multiset(Filter(s, x => !p(x))) == multiset(s)
  {
    if s != [] {
      FilterPartition(s[1..], p);
      assert s == [s[0]] + s[1..];
    }
  }
}
