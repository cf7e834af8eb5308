/**
 * The conversation list's view model (ConversationViewModel): pages
 * through the conversation list behind a re-entrancy guard, removes
 * repeated conversations from a page, splits changed conversations into
 * updates and deletions and relays at-mention events.
 */
module ConversationList {
  import opened Common

  /** PAGE_LIMIT */
  const PageLimit := 50

  /**
   * A conversation as the list reads it. `lastIsDismiss` is whether its
   * last message is a team-dismissed or team-left notification
   * (`ConversationUtils.isDismissTeamMsg`, whose code is not part of this
   * model).
   */
  datatype Conversation = Conversation(conversationId: string, lastIsDismiss: bool)

  /** V2NIMConversationResult: the next offset and the page. */
  datatype ConversationResult = ConversationResult(offset: int, conversationList: Option<seq<Conversation>>)

  /** The bean the view-holder factory makes for a conversation (null included). */
  datatype ConversationBean = ConversationBean(data: Option<Conversation>)

  datatype AitEventType = Arrive | Load | Clear | OtherAitEvent

  datatype AitEvent = AitEvent(eventType: AitEventType, aitInfoList: Option<seq<string>>)

  datatype ConversationEvent =
    | QueryResult(fetchType: FetchType, data: Option<seq<ConversationBean>>)
    | Changed(fetchType: FetchType, beans: seq<ConversationBean>)
    | Deleted(conversationIds: seq<string>)
    | AitChanged(fetchType: FetchType, conversationIds: seq<string>)

  datatype ConversationRequest =
    | ListRequest(offset: int, limit: int)
    | DeleteConversation(conversationId: string)

  // ---------------------------------------------------------------------
  // De-duplication
  // ---------------------------------------------------------------------

  function IdsOf(s: seq<Conversation>): set<string> {
    set i | 0 <= i < |s| :: s[i].conversationId
  }

  /** The conversations of `s` whose id has not been seen earlier in `s`, in order. */
  function KeepFirst(s: seq<Conversation>): seq<Conversation> {
    if s == [] then []
    else
      var p := s[..|s| - 1];
      KeepFirst(p) + (if s[|s| - 1].conversationId in IdsOf(p) then [] else [s[|s| - 1]])
  }

  /** Whether `s[i]` is the first conversation of `s` with its id. */
  predicate FirstOccurrence(s: seq<Conversation>, i: int)
    requires 0 <= i < |s|
  {
    forall j :: 0 <= j < i ==> s[j].conversationId != s[i].conversationId
  }

  lemma {:induction false} KeepFirstIds(s: seq<Conversation>)
    ensures IdsOf(KeepFirst(s)) == IdsOf(s)
  {
    if s != [] {
      var p := s[..|s| - 1];
      KeepFirstIds(p);
      assert s == p + [s[|s| - 1]];
      var x := s[|s| - 1];
      var r := KeepFirst(p) + (if x.conversationId in IdsOf(p) then [] else [x]);
      forall c | c in IdsOf(s) ensures c in IdsOf(r) {
        var i :| 0 <= i < |s| && s[i].conversationId == c;
        if i < |s| - 1 {
          assert c in IdsOf(p);
          var k :| 0 <= k < |KeepFirst(p)| && KeepFirst(p)[k].conversationId == c;
          assert r[k] == KeepFirst(p)[k];
        } else if x.conversationId in IdsOf(p) {
          var k :| 0 <= k < |KeepFirst(p)| && KeepFirst(p)[k].conversationId == c;
          assert r[k] == KeepFirst(p)[k];
        } else {
          assert r[|r| - 1] == x;
        }
      }
      forall c | c in IdsOf(r) ensures c in IdsOf(s) {
        var k :| 0 <= k < |r| && r[k].conversationId == c;
        if k < |KeepFirst(p)| {
          assert KeepFirst(p)[k] == r[k];
          assert c in IdsOf(p);
          var i :| 0 <= i < |p| && p[i].conversationId == c;
          assert s[i] == p[i];
        } else {
          assert r[k] == x && s[|s| - 1] == x;
        }
      }
    }
  }

  /** After de-duplication no two conversations share an id. */
  lemma {:induction false} KeepFirstUnique(s: seq<Conversation>)
    ensures forall i, j :: 0 <= i < j < |KeepFirst(s)| ==> KeepFirst(s)[i].conversationId != KeepFirst(s)[j].conversationId
  {
    if s != [] {
      var p := s[..|s| - 1];
      KeepFirstUnique(p);
      KeepFirstIds(p);
      var r := KeepFirst(s);
      forall i, j | 0 <= i < j < |r| ensures r[i].conversationId != r[j].conversationId {
        if j >= |KeepFirst(p)| {
          assert r[i] == KeepFirst(p)[i];
          assert r[i].conversationId in IdsOf(KeepFirst(p));
        } else {
          assert r[i] == KeepFirst(p)[i] && r[j] == KeepFirst(p)[j];
        }
      }
    }
  }

  /** A first occurrence of an id is kept by de-duplication. */
  lemma {:induction false} FirstOccurrenceKept(s: seq<Conversation>, i: int)
    requires 0 <= i < |s| && FirstOccurrence(s, i)
    ensures s[i] in KeepFirst(s)
  {
    var p := s[..|s| - 1];
    var n := |s| - 1;
    if i < n {
      assert FirstOccurrence(p, i) by {
        forall j | 0 <= j < i ensures p[j].conversationId != p[i].conversationId {
          assert p[j] == s[j];
        }
      }
      FirstOccurrenceKept(p, i);
    } else {
      forall j | 0 <= j < |p| ensures p[j].conversationId != s[n].conversationId {
        assert p[j] == s[j];
      }
    }
  }

  /**
   * Only first occurrences are kept; with `FirstOccurrenceKept`, the kept
   * conversations are exactly the first occurrences of their ids, and as
   * `KeepFirst` only ever appends, they keep their relative order.
   */
  lemma {:induction false} KeptIsFirstOccurrence(s: seq<Conversation>, x: Conversation)
    requires x in KeepFirst(s)
    ensures exists i :: 0 <= i < |s| && s[i] == x && FirstOccurrence(s, i)
  {
    var p := s[..|s| - 1];
    var n := |s| - 1;
    if x in KeepFirst(p) {
      KeptIsFirstOccurrence(p, x);
      var i :| 0 <= i < |p| && p[i] == x && FirstOccurrence(p, i);
      assert s[i] == x;
      assert FirstOccurrence(s, i) by {
        forall j | 0 <= j < i ensures s[j].conversationId != s[i].conversationId {
          assert p[j] == s[j];
        }
      }
    } else {
      assert x == s[n] && s[n].conversationId !in IdsOf(p);
      assert FirstOccurrence(s, n) by {
        forall j | 0 <= j < n ensures s[j].conversationId != s[n].conversationId {
          assert s[j] == p[j];
          assert p[j].conversationId in IdsOf(p);
        }
      }
    }
  }

  /** Once conversations are unique by id, de-duplication leaves them as they are. */
  lemma {:induction false} KeepFirstIdempotent(s: seq<Conversation>)
    ensures KeepFirst(KeepFirst(s)) == KeepFirst(s)
  {
    KeepFirstUnique(s);
    KeepFirstOfUnique(KeepFirst(s));
  }

  lemma {:induction false} KeepFirstOfUnique(s: seq<Conversation>)
    requires forall i, j :: 0 <= i < j < |s| ==> s[i].conversationId != s[j].conversationId
    ensures KeepFirst(s) == s
  {
    if s != [] {
      var p := s[..|s| - 1];
      KeepFirstOfUnique(p);
      assert s[|s| - 1].conversationId !in IdsOf(p);
      assert s == p + [s[|s| - 1]];
    }
  }

  /**
   * `checkConversationAndRemove`: walks the page once, removing in place
   * each conversation whose id was already seen.
   */
  method CheckConversationAndRemove(data: seq<Conversation>) returns (result: seq<Conversation>)
    ensures result == KeepFirst(data)
  {
    var conversationIds: set<string> := {};
    var list := data;
    var index := 0;
    ghost var n := 0;
    while index < |list|
      invariant 0 <= index <= |list| && 0 <= n <= |data|
      invariant list[..index] == KeepFirst(data[..n]) && list[index..] == data[n..]
      invariant conversationIds == IdsOf(list[..index])
      decreases |list| - index
    {
      assert data[..n + 1][..n] == data[..n];
      assert list[index] == data[n];
      KeepFirstIds(data[..n]);
      if list[index].conversationId in conversationIds {
        list := list[..index] + list[index + 1..];
        index := index - 1;
      } else {
        conversationIds := conversationIds + {list[index].conversationId};
        assert list[..index + 1] == list[..index] + [list[index]];
      }
      index := index + 1;
      n := n + 1;
    }
    assert data[..n] == data;
    result := list;
  }

  // ---------------------------------------------------------------------
  // Changed conversations
  // ---------------------------------------------------------------------

  predicate IsDismiss(c: Option<Conversation>) {
    c.Some? && c.value.lastIsDismiss
  }

  /** The ids of the changed conversations whose last message dismisses or leaves a team, in order. */
  function DismissedIds(s: seq<Option<Conversation>>): seq<string> {
    if s == [] then []
    else DismissedIds(s[..|s| - 1]) + (if IsDismiss(s[|s| - 1]) then [s[|s| - 1].value.conversationId] else [])
  }

  /** The other changed conversations, in order. */
  function Updated(s: seq<Option<Conversation>>): seq<Option<Conversation>> {
    if s == [] then []
    else Updated(s[..|s| - 1]) + (if IsDismiss(s[|s| - 1]) then [] else [s[|s| - 1]])
  }

  function DeleteRequests(ids: seq<string>): (r: seq<ConversationRequest>)
    ensures |r| == |ids|
  {
    seq(|ids|, k requires 0 <= k < |ids| => DeleteConversation(ids[k]))
  }

  function BeansOf(s: seq<Option<Conversation>>): (r: seq<ConversationBean>)
    ensures |r| == |s| && forall k :: 0 <= k < |s| ==> r[k].data == s[k]
  {
    seq(|s|, k requires 0 <= k < |s| => ConversationBean(s[k]))
  }

  function Somes(s: seq<Conversation>): (r: seq<Option<Conversation>>)
    ensures |r| == |s| && forall k :: 0 <= k < |s| ==> r[k] == Some(s[k])
  {
    seq(|s|, k requires 0 <= k < |s| => Some(s[k]))
  }

  /**
   * Every changed conversation lands in exactly one of the two lists: the
   * dismissed ones among the deletions, every other one among the updates.
   */
  lemma {:induction false} ChangePartition(s: seq<Option<Conversation>>)
    ensures |DismissedIds(s)| + |Updated(s)| == |s|
    ensures forall c :: c in Updated(s) <==> c in s && !IsDismiss(c)
    ensures forall c :: IsDismiss(c) && c in s ==> c.value.conversationId in DismissedIds(s)
    ensures forall id :: id in DismissedIds(s) ==> Some(Conversation(id, true)) in s
  {
    if s != [] {
      var p := s[..|s| - 1];
      ChangePartition(p);
      assert s == p + [s[|s| - 1]];
    }
  }

  // ---------------------------------------------------------------------
  // The view model
  // ---------------------------------------------------------------------

  class ConversationViewModel {
    var offset: int
    var hasMore: bool
    var hasStart: bool
    var events: seq<ConversationEvent>
    var requests: seq<ConversationRequest>

    constructor ()
      ensures offset == 0 && hasMore && !hasStart && events == [] && requests == []
    {
      offset := 0;
      hasMore := true;
      hasStart := false;
      events := [];
      requests := [];
    }

    /** `loadMore`: the next page starts at the offset the last page returned. */
    method LoadMore()
      modifies this
      ensures offset == old(offset) && hasMore == old(hasMore) && events == old(events)
      ensures old(hasStart) ==> hasStart && requests == old(requests)
      ensures !old(hasStart) ==> hasStart && requests == old(requests) + [ListRequest(old(offset), PageLimit)]
    {
      GetConversationByPage(offset);
    }

    /**
     * `getConversationByPage`: while a query is running nothing is asked
     * for; otherwise the query starts and the guard is raised.
     */
    method GetConversationByPage(offSet: int)
      modifies this
      ensures offset == old(offset) && hasMore == old(hasMore) && events == old(events)
      ensures hasStart
      ensures old(hasStart) ==> requests == old(requests)
      ensures !old(hasStart) ==> requests == old(requests) + [ListRequest(offSet, PageLimit)]
    {
      if hasStart {
        return;
      }
      hasStart := true;
      requests := requests + [ListRequest(offSet, PageLimit)];
    }

    /** The page query failed: only the guard drops. */
    method OnPageError(errorCode: int)
      modifies this
      ensures !hasStart
      ensures offset == old(offset) && hasMore == old(hasMore)
      ensures events == old(events) && requests == old(requests)
    {
      hasStart := false;
    }

    /**
     * The page arrived: a page after offset 0 is added, the first one
     * starts the list. With a page, the repeated conversations are
     * dropped, `hasMore` says whether a full page remains and the offset
     * moves on; the guard always drops.
     */
    method OnPageSuccess(offSet: int, data: Option<ConversationResult>)
      modifies this
      ensures !hasStart && requests == old(requests)
      ensures var fetchType := if offSet > 0 then Add else Init;
        if data.Some? && data.value.conversationList.Some? then
          var page := KeepFirst(data.value.conversationList.value);
          && events == old(events) + [QueryResult(fetchType, Some(BeansOf(Somes(page))))]
          && hasMore == (|page| == PageLimit)
          && offset == data.value.offset
        else
          events == old(events) + [QueryResult(fetchType, None)]
          && hasMore == old(hasMore) && offset == old(offset)
    {
      var fetchType := if offSet > 0 then Add else Init;
      var resultData: Option<seq<ConversationBean>> := None;
      if data.Some? && data.value.conversationList.Some? {
        var page := CheckConversationAndRemove(data.value.conversationList.value);
        var beans := CreateConversationBean(Somes(page));
        resultData := Some(beans);
        hasMore := |beans| == PageLimit;
        offset := data.value.offset;
      }
      events := events + [QueryResult(fetchType, resultData)];
      hasStart := false;
    }

    /** `createConversationBean`: one bean per conversation, in order. */
    method CreateConversationBean(data: seq<Option<Conversation>>) returns (resultData: seq<ConversationBean>)
      ensures resultData == BeansOf(data)
    {
      resultData := [];
      for index := 0 to |data|
        invariant resultData == BeansOf(data[..index])
      {
        resultData := resultData + [ConversationBean(data[index])];
      }
      assert data[..|data|] == data;
    }

    /**
     * `onConversationChanged`: conversations whose last message dismisses
     * or leaves a team are deleted (and a deletion is requested for each),
     * the others are updated; each list is announced only when it is not
     * empty.
     */
    method OnConversationChanged(conversationList: Option<seq<Option<Conversation>>>)
      modifies this
      ensures offset == old(offset) && hasMore == old(hasMore) && hasStart == old(hasStart)
      ensures conversationList.None? || conversationList.value == [] ==>
        events == old(events) && requests == old(requests)
      ensures conversationList.Some? && conversationList.value != [] ==>
        var s := conversationList.value;
        && requests == old(requests) + DeleteRequests(DismissedIds(s))
        && events == old(events)
             + (if Updated(s) != [] then [Changed(Update, BeansOf(Updated(s)))] else [])
             + (if DismissedIds(s) != [] then [Deleted(DismissedIds(s))] else [])
    {
      if conversationList.None? || conversationList.value == [] {
        return;
      }
      var s := conversationList.value;
      var changeList: seq<Option<Conversation>> := [];
      var deleteList: seq<string> := [];
      for i := 0 to |s|
        invariant changeList == Updated(s[..i]) && deleteList == DismissedIds(s[..i])
        invariant offset == old(offset) && hasMore == old(hasMore) && hasStart == old(hasStart)
        invariant events == old(events)
        invariant requests == old(requests) + DeleteRequests(deleteList)
      {
        assert s[..i + 1][..i] == s[..i];
        var conversation := s[i];
        if conversation.Some? && conversation.value.lastIsDismiss {
          deleteList := deleteList + [conversation.value.conversationId];
          requests := requests + [DeleteConversation(conversation.value.conversationId)];
        } else {
          changeList := changeList + [conversation];
        }
      }
      assert s[..|s|] == s;
      if |changeList| > 0 {
        var beans := CreateConversationBean(changeList);
        events := events + [Changed(Update, beans)];
      }
      if |deleteList| > 0 {
        events := events + [Deleted(deleteList)];
      }
    }

    /**
     * The at-mention notifier: no list, no event; an arrival or a load is
     * an addition, anything else a removal, of the listed conversations.
     */
    method AitNotify(aitEvent: AitEvent)
      modifies this
      ensures offset == old(offset) && hasMore == old(hasMore) && hasStart == old(hasStart)
      ensures requests == old(requests)
      ensures aitEvent.aitInfoList.None? ==> events == old(events)
      ensures aitEvent.aitInfoList.Some? ==>
        events == old(events) + [AitChanged(AitFetchType(aitEvent.eventType), aitEvent.aitInfoList.value)]
    {
      if aitEvent.aitInfoList.None? {
        return;
      }
      var fetchType := if aitEvent.eventType == Arrive || aitEvent.eventType == Load then Add else Remove;
      var aitInfoList := aitEvent.aitInfoList.value;
      var sessionIdList: seq<string> := [];
      for i := 0 to |aitInfoList|
        invariant sessionIdList == aitInfoList[..i]
      {
        sessionIdList := sessionIdList + [aitInfoList[i]];
      }
      assert aitInfoList[..|aitInfoList|] == aitInfoList;
      events := events + [AitChanged(fetchType, sessionIdList)];
    }
  }

  /** An arrival or a load adds at-mentions; every other event removes them. */
  function AitFetchType(t: AitEventType): (r: FetchType)
    ensures r == Add <==> t == Arrive || t == Load
    ensures r == Remove <==> !(t == Arrive || t == Load)
  {
    if t == Arrive || t == Load then Add else Remove
  }
}
