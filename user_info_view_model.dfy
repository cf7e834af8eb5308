/**
 * The contact profile page's view model (UserInfoViewModel): loads one
 * account with its friend entry, follows friend changes of that account,
 * adds it as a friend (leaving the block list first) and sets its alias.
 */
module UserProfile {
  import opened Common

  datatype FriendChangeType = FriendAdded | FriendDeleted | FriendUpdated | OtherFriendChange

  datatype FriendVerifyType = DirectAdd | Apply | OtherVerify

  /** V2NIMFriendAddMode */
  datatype FriendAddMode = ModeAdd | ModeApply

  /** V2ContactUserInfoBean: the profile, the friend entry and the two relation flags. */
  datatype ContactUserInfo = ContactUserInfo(account: string, user: UserInfo, friendInfo: UserWithFriend, isBlack: bool, isFriend: bool)

  /** The shared `fetchResult`; `setError` marks it failed and keeps the code. */
  datatype ProfileResult = ProfileResult(status: LoadStatus, data: Option<ContactUserInfo>, errorCode: Option<int>)

  /** The shared `friendChangeFetchResult`. */
  datatype FriendChangeResult = FriendChangeResult(status: LoadStatus, data: Option<UserWithFriend>, fetchType: Option<FetchType>)

  /** The shared `userInfoFetchResult`. */
  datatype UsersResult = UsersResult(status: LoadStatus, data: Option<seq<UserInfo>>, fetchType: Option<FetchType>)

  datatype ProfileEvent =
    | ProfileLoaded(result: ProfileResult)
    | UsersChanged(users: UsersResult)
    | FriendChanged(change: FriendChangeResult)
    | AddFriendFailed(code: int)

  datatype ProfileRequest =
    | GetFriend(account: string)
    | UserFromCloud(account: string)
    | AddToBlockList(account: string)
    | RemoveFromBlockList(account: string)
    | DeleteFriendRequest(account: string, deleteAlias: bool)
    | AddFriendRequest(account: string, mode: FriendAddMode)
    | UpdateAliasRequest(account: string, alias: string)

  /** How a friend change is shown: added, removed or updated; other changes are not shown. */
  function ChangeFetchType(t: FriendChangeType): (r: Option<FetchType>)
    ensures r == Some(Add) <==> t == FriendAdded
    ensures r == Some(Remove) <==> t == FriendDeleted
    ensures r == Some(Update) <==> t == FriendUpdated
    ensures r.None? <==> t == OtherFriendChange
  {
    match t
    case FriendAdded => Some(Add)
    case FriendDeleted => Some(Remove)
    case FriendUpdated => Some(Update)
    case OtherFriendChange => None
  }

  /** The add mode: a direct add adds, anything else applies. */
  function AddModeOf(t: FriendVerifyType): (m: FriendAddMode)
    ensures m == ModeAdd <==> t == DirectAdd
  {
    if t == DirectAdd then ModeAdd else ModeApply
  }

  /** `updateAlias`: an absent or empty alias is sent as "", any other as it is. */
  function NormalisedAlias(alias: Option<string>): (r: string)
    ensures alias.None? ==> r == ""
    ensures alias.Some? ==> r == alias.value
  {
    if alias.None? || alias.value == "" then "" else alias.value
  }

  /** The friend-change results shown for `accountId`: one per matching entry, in order. */
  function ChangesFor(friends: seq<UserWithFriend>, accountId: string, fetchType: FetchType): seq<ProfileEvent> {
    if friends == [] then []
    else
      var last := friends[|friends| - 1];
      ChangesFor(friends[..|friends| - 1], accountId, fetchType)
      + (if last.account == accountId then [FriendChanged(FriendChangeResult(LoadFinish, Some(last), Some(fetchType)))] else [])
  }

  /** What `friendChangeFetchResult` holds afterwards: the last entry of the account, or what it held. */
  function LatestChange(friends: seq<UserWithFriend>, accountId: string, fetchType: FetchType,
                        current: FriendChangeResult): FriendChangeResult {
    if friends == [] then current
    else if friends[|friends| - 1].account == accountId then
      FriendChangeResult(LoadFinish, Some(friends[|friends| - 1]), Some(fetchType))
    else
      LatestChange(friends[..|friends| - 1], accountId, fetchType, current)
  }

  /** The result left behind is the last one shown, or the old one when nothing was shown. */
  lemma {:induction false} LatestChangeIsLastShown(friends: seq<UserWithFriend>, accountId: string, fetchType: FetchType,
                                                   current: FriendChangeResult)
    ensures var shown := ChangesFor(friends, accountId, fetchType);
      && (shown == [] ==> LatestChange(friends, accountId, fetchType, current) == current)
      && (shown != [] ==> FriendChanged(LatestChange(friends, accountId, fetchType, current)) == shown[|shown| - 1])
  {
    if friends != [] {
      LatestChangeIsLastShown(friends[..|friends| - 1], accountId, fetchType, current);
    }
  }

  /** Only entries of the page's account are shown, each with the mapped change. */
  lemma {:induction false} ChangesForOnlyAccount(friends: seq<UserWithFriend>, accountId: string, fetchType: FetchType)
    ensures |ChangesFor(friends, accountId, fetchType)| <= |friends|
    ensures forall e :: e in ChangesFor(friends, accountId, fetchType) ==>
      e.FriendChanged? && e.change.data.Some? && e.change.data.value.account == accountId
      && e.change.data.value in friends && e.change.fetchType == Some(fetchType)
  {
    if friends != [] {
      ChangesForOnlyAccount(friends[..|friends| - 1], accountId, fetchType);
      assert friends == friends[..|friends| - 1] + [friends[|friends| - 1]];
    }
  }

  /** An entry of the page's account is always shown. */
  lemma {:induction false} ChangesForShowsAccount(friends: seq<UserWithFriend>, accountId: string, fetchType: FetchType,
                                                  friend: UserWithFriend)
    requires friend in friends && friend.account == accountId
    ensures FriendChanged(FriendChangeResult(LoadFinish, Some(friend), Some(fetchType))) in ChangesFor(friends, accountId, fetchType)
  {
    var p := friends[..|friends| - 1];
    assert friends == p + [friends[|friends| - 1]];
    if friend != friends[|friends| - 1] {
      ChangesForShowsAccount(p, accountId, fetchType, friend);
    }
  }

  class UserInfoViewModel {
    var accountId: string
    var fetchResult: ProfileResult
    var friendChange: FriendChangeResult
    var usersResult: UsersResult
    var events: seq<ProfileEvent>
    var requests: seq<ProfileRequest>

    /** The view model after `init(account)`. */
    constructor (account: string)
      ensures accountId == account
      ensures fetchResult == ProfileResult(LoadFinish, None, None)
      ensures friendChange == FriendChangeResult(LoadFinish, None, None)
      ensures usersResult == UsersResult(LoadFinish, None, None)
      ensures events == [] && requests == []
    {
      accountId := account;
      fetchResult := ProfileResult(LoadFinish, None, None);
      friendChange := FriendChangeResult(LoadFinish, None, None);
      usersResult := UsersResult(LoadFinish, None, None);
      events := [];
      requests := [];
    }

    /**
     * The friend observer: for an add, delete or update, each entry of
     * the page's account is shown in turn; other changes show nothing.
     */
    method OnFriendChange(friendChangeType: FriendChangeType, friendList: seq<UserWithFriend>)
      modifies this
      ensures accountId == old(accountId) && usersResult == old(usersResult) && fetchResult == old(fetchResult) && requests == old(requests)
      ensures ChangeFetchType(friendChangeType).None? ==> events == old(events) && friendChange == old(friendChange)
      ensures ChangeFetchType(friendChangeType).Some? ==>
        var shown := ChangesFor(friendList, accountId, ChangeFetchType(friendChangeType).value);
        && events == old(events) + shown
        && friendChange == LatestChange(friendList, accountId, ChangeFetchType(friendChangeType).value, old(friendChange))
    {
      if friendChangeType == FriendAdded || friendChangeType == FriendDeleted || friendChangeType == FriendUpdated {
        ghost var ft := ChangeFetchType(friendChangeType).value;
        for i := 0 to |friendList|
          invariant accountId == old(accountId) && usersResult == old(usersResult) && fetchResult == old(fetchResult) && requests == old(requests)
          invariant events == old(events) + ChangesFor(friendList[..i], accountId, ft)
          invariant friendChange == LatestChange(friendList[..i], accountId, ft, old(friendChange))
        {
          assert friendList[..i + 1][..i] == friendList[..i];
          var friend := friendList[i];
          if accountId == friend.account {
            friendChange := friendChange.(data := Some(friend));
            friendChange := friendChange.(status := LoadFinish);
            if friendChangeType == FriendAdded {
              friendChange := friendChange.(fetchType := Some(Add));
            } else if friendChangeType == FriendDeleted {
              friendChange := friendChange.(fetchType := Some(Remove));
            } else {
              friendChange := friendChange.(fetchType := Some(Update));
            }
            events := events + [FriendChanged(friendChange)];
          }
        }
        assert friendList[..|friendList|] == friendList;
      }
    }

    /** The user observer: the changed profiles are shown as an update. */
    method OnUserInfoChanged(userList: seq<UserInfo>)
      modifies this
      ensures accountId == old(accountId) && fetchResult == old(fetchResult) && friendChange == old(friendChange)
      ensures requests == old(requests)
      ensures usersResult == UsersResult(LoadFinish, Some(userList), Some(Update))
      ensures events == old(events) + [UsersChanged(usersResult)]
    {
      usersResult := usersResult.(status := LoadFinish);
      usersResult := usersResult.(data := Some(userList));
      usersResult := usersResult.(fetchType := Some(Update));
      events := events + [UsersChanged(usersResult)];
    }

    /** `getUserWithFriend`: nothing is asked for an empty account. */
    method GetUserWithFriend(account: string)
      modifies this
      ensures accountId == old(accountId) && usersResult == old(usersResult) && fetchResult == old(fetchResult) && friendChange == old(friendChange)
      ensures events == old(events)
      ensures requests == old(requests) + (if account == "" then [] else [GetFriend(account)])
    {
      if account == "" {
        return;
      }
      requests := requests + [GetFriend(account)];
    }

    method OnGetUserWithFriendError(errorCode: int)
      modifies this
      ensures accountId == old(accountId) && usersResult == old(usersResult) && friendChange == old(friendChange) && requests == old(requests)
      ensures fetchResult == old(fetchResult).(status := LoadError, errorCode := Some(errorCode))
      ensures events == old(events) + [ProfileLoaded(fetchResult)]
    {
      fetchResult := fetchResult.(status := LoadError, errorCode := Some(errorCode));
      events := events + [ProfileLoaded(fetchResult)];
    }

    /**
     * The account arrived. Without a profile the result is error -1.
     * Otherwise it is shown with the block-list flag, and as a friend only
     * when the contact list says so and the answer carries a friend
     * entry; the profile is then refreshed from the server.
     */
    method OnGetUserWithFriendSuccess(account: string, param: Option<UserWithFriend>, inBlockList: bool, inFriendList: bool)
      modifies this
      ensures accountId == old(accountId) && usersResult == old(usersResult) && friendChange == old(friendChange)
      ensures param.None? || param.value.userInfo.None? ==>
        fetchResult == old(fetchResult).(status := LoadError, errorCode := Some(-1)) && requests == old(requests)
      ensures param.Some? && param.value.userInfo.Some? ==>
        && fetchResult.status == LoadSuccess
        && fetchResult.errorCode == old(fetchResult).errorCode
        && fetchResult.data.Some?
        && fetchResult.data.value.isFriend == (inFriendList && param.value.friend.Some?)
        && fetchResult.data.value.isBlack == inBlockList
        && fetchResult.data.value == ContactUserInfo(param.value.account, param.value.userInfo.value, param.value,
                                                     inBlockList, inFriendList && param.value.friend.Some?)
        && requests == old(requests) + (if account == "" then [] else [UserFromCloud(account)])
      ensures events == old(events) + [ProfileLoaded(fetchResult)]
    {
      if param.Some? && param.value.userInfo.Some? {
        var userInfo := ContactUserInfo(param.value.account, param.value.userInfo.value, param.value,
                                        inBlockList, inFriendList && param.value.friend.Some?);
        fetchResult := fetchResult.(data := Some(userInfo));
        fetchResult := fetchResult.(status := LoadSuccess);
        UpdateUserInfoFromCloud(account);
      } else {
        fetchResult := fetchResult.(status := LoadError, errorCode := Some(-1));
      }
      events := events + [ProfileLoaded(fetchResult)];
    }

    method UpdateUserInfoFromCloud(account: string)
      modifies this
      ensures accountId == old(accountId) && usersResult == old(usersResult) && fetchResult == old(fetchResult) && friendChange == old(friendChange)
      ensures events == old(events)
      ensures requests == old(requests) + (if account == "" then [] else [UserFromCloud(account)])
    {
      if account == "" {
        return;
      }
      requests := requests + [UserFromCloud(account)];
    }

    method AddBlack(account: string)
      modifies this
      ensures accountId == old(accountId) && usersResult == old(usersResult) && fetchResult == old(fetchResult) && friendChange == old(friendChange)
      ensures events == old(events)
      ensures requests == old(requests) + [AddToBlockList(account)]
    {
      requests := requests + [AddToBlockList(account)];
    }

    method RemoveBlack(account: string)
      modifies this
      ensures accountId == old(accountId) && usersResult == old(usersResult) && fetchResult == old(fetchResult) && friendChange == old(friendChange)
      ensures events == old(events)
      ensures requests == old(requests) + [RemoveFromBlockList(account)]
    {
      requests := requests + [RemoveFromBlockList(account)];
    }

    /** `deleteFriend` also deletes the alias. */
    method DeleteFriend(account: string)
      modifies this
      ensures accountId == old(accountId) && usersResult == old(usersResult) && fetchResult == old(fetchResult) && friendChange == old(friendChange)
      ensures events == old(events)
      ensures requests == old(requests) + [DeleteFriendRequest(account, true)]
    {
      requests := requests + [DeleteFriendRequest(account, true)];
    }

    /** A block-list change succeeded: the account is loaded again. */
    method OnBlockChangeSuccess(account: string)
      modifies this
      ensures accountId == old(accountId) && usersResult == old(usersResult) && fetchResult == old(fetchResult) && friendChange == old(friendChange)
      ensures events == old(events)
      ensures requests == old(requests) + (if account == "" then [] else [GetFriend(account)])
    {
      GetUserWithFriend(account);
    }

    /**
     * A block-list change or a friend deletion failed: the result keeps
     * the error, but it is not posted.
     */
    method OnRelationChangeError(errorCode: int)
      modifies this
      ensures accountId == old(accountId) && usersResult == old(usersResult) && friendChange == old(friendChange)
      ensures events == old(events) && requests == old(requests)
      ensures fetchResult == old(fetchResult).(status := LoadError, errorCode := Some(errorCode))
    {
      fetchResult := fetchResult.(status := LoadError, errorCode := Some(errorCode));
    }

    /**
     * `addFriend`: a blocked account is first taken off the block list,
     * and only that is asked for now; any other account is added at once.
     */
    method AddFriend(account: string, verifyType: FriendVerifyType, inBlockList: bool)
      modifies this
      ensures accountId == old(accountId) && usersResult == old(usersResult) && fetchResult == old(fetchResult) && friendChange == old(friendChange)
      ensures events == old(events)
      ensures inBlockList ==> requests == old(requests) + [RemoveFromBlockList(account)]
      ensures !inBlockList ==> requests == old(requests) + [AddFriendRequest(account, AddModeOf(verifyType))]
    {
      var model := if verifyType == DirectAdd then ModeAdd else ModeApply;
      if inBlockList {
        requests := requests + [RemoveFromBlockList(account)];
      } else {
        requests := requests + [AddFriendRequest(account, model)];
      }
    }

    /** The account left the block list: now it is added. */
    method OnUnblockForAddSuccess(account: string, verifyType: FriendVerifyType)
      modifies this
      ensures accountId == old(accountId) && usersResult == old(usersResult) && fetchResult == old(fetchResult) && friendChange == old(friendChange)
      ensures events == old(events)
      ensures requests == old(requests) + [AddFriendRequest(account, AddModeOf(verifyType))]
    {
      requests := requests + [AddFriendRequest(account, AddModeOf(verifyType))];
    }

    /** The account could not leave the block list: the caller hears the error and nothing is added. */
    method OnUnblockForAddError(errorCode: int)
      modifies this
      ensures accountId == old(accountId) && usersResult == old(usersResult) && fetchResult == old(fetchResult) && friendChange == old(friendChange)
      ensures requests == old(requests)
      ensures events == old(events) + [AddFriendFailed(errorCode)]
    {
      events := events + [AddFriendFailed(errorCode)];
    }

    method UpdateAlias(account: string, alias: Option<string>)
      modifies this
      ensures accountId == old(accountId) && usersResult == old(usersResult) && fetchResult == old(fetchResult) && friendChange == old(friendChange)
      ensures events == old(events)
      ensures requests == old(requests) + [UpdateAliasRequest(account, NormalisedAlias(alias))]
    {
      var normalised := if alias.None? || alias.value == "" then "" else alias.value;
      requests := requests + [UpdateAliasRequest(account, normalised)];
    }
  }

  /**
   * Adding a blocked account asks for nothing but the unblock; the add
   * itself follows only the unblock's success, and never its failure.
   */
  method AddFriendSequencing(vm: UserInfoViewModel, account: string, verifyType: FriendVerifyType, unblocked: bool)
    modifies vm
    ensures vm.requests == old(vm.requests) + [RemoveFromBlockList(account)]
      + (if unblocked then [AddFriendRequest(account, AddModeOf(verifyType))] else [])
  {
    vm.AddFriend(account, verifyType, true);
    if unblocked {
      vm.OnUnblockForAddSuccess(account, verifyType);
    } else {
      vm.OnUnblockForAddError(-1);
    }
  }
}
