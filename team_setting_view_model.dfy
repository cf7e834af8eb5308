/**
 * The team settings page's view model (TeamSettingViewModel): leaving a
 * team (an owner hands it over first, or dismisses it when alone),
 * dismissing it, its message reminder and pinning its conversation.
 */
module TeamSettings {
  import opened Common

  /** ChatKitConstant.ERROR_CODE_QUIT_TEAM_NO_MEMBER; the constant's value is not part of this model. */
  const QuitTeamNoMemberCode: int

  /** V2NIMTeam as quitting reads it. */
  datatype TeamInfo = TeamInfo(teamId: string, ownerAccountId: string)

  datatype TeamMember = TeamMember(accountId: string)

  /** V2NIMTeamMessageMuteMode */
  datatype MuteMode = MuteOff | MuteOn

  /** A conversation's pin and mute flags, as `requestStickAndNotify` reads them. */
  datatype ConversationFlags = ConversationFlags(isStickTop: bool, isMute: bool)

  /** A `FetchResult<Void>`: success, or the error code. */
  datatype VoidResult = VoidSuccess | VoidError(code: int)

  /** A `FetchResult<Boolean>`: a value (tagged Update when the conversation reports it), or the error code. */
  datatype BoolResult = BoolValue(value: bool, fetchType: Option<FetchType>) | BoolError(code: int)

  datatype TeamEvent =
    | QuitResult(quit: VoidResult)
    | DismissResult(dismiss: VoidResult)
    | NotifyResult(notify: BoolResult)
    | StickResult(stick: BoolResult)
    | TeamDismissBroadcast(teamId: string)

  datatype TeamRequest =
    | GetMembers(teamId: string)
    | TransferTeam(teamId: string, account: string)
    | LeaveTeam(teamId: string)
    | DismissTeamRequest(teamId: string)
    | SetMuteMode(teamId: string, mode: MuteMode)
    | StickTopRequest(conversationId: ConversationId, stick: bool)
    | GetConversation(conversationId: ConversationId)

  /** The reminder switch: reminding turns muting off, not reminding turns it on. */
  function MuteModeOf(notify: bool): (m: MuteMode)
    ensures m == MuteOff <==> notify
    ensures m == MuteOn <==> !notify
  {
    if notify then MuteOff else MuteOn
  }

  /**
   * The account an owner hands the team to: the first listed member who
   * is not `me`; `me` itself when there is none.
   */
  function TransferTarget(members: seq<Option<TeamMember>>, me: string): string {
    if members == [] then me
    else if members[0].Some? && members[0].value.accountId != me then members[0].value.accountId
    else TransferTarget(members[1..], me)
  }

  /**
   * The target is another member exactly when one exists, and then it is
   * the first such member: every member listed before it is absent or
   * `me`.
   */
  lemma {:induction false} TransferTargetIsFirstOther(members: seq<Option<TeamMember>>, me: string)
    ensures TransferTarget(members, me) == me <==>
      forall i :: 0 <= i < |members| ==> members[i].None? || members[i].value.accountId == me
    ensures TransferTarget(members, me) != me ==>
      exists i :: 0 <= i < |members| && members[i] == Some(TeamMember(TransferTarget(members, me)))
        && forall j :: 0 <= j < i ==> members[j].None? || members[j].value.accountId == me
  {
    if members != [] && !(members[0].Some? && members[0].value.accountId != me) {
      TransferTargetIsFirstOther(members[1..], me);
      if TransferTarget(members, me) == me {
        forall i | 0 <= i < |members| ensures members[i].None? || members[i].value.accountId == me {
          if i > 0 {
            assert members[i] == members[1..][i - 1];
          }
        }
      } else {
        var i :| 0 <= i < |members[1..]| && members[1..][i] == Some(TeamMember(TransferTarget(members, me)))
          && forall j :: 0 <= j < i ==> members[1..][j].None? || members[1..][j].value.accountId == me;
        assert members[i + 1] == members[1..][i];
        forall j | 0 <= j < i + 1 ensures members[j].None? || members[j].value.accountId == me {
          if j > 0 {
            assert members[j] == members[1..][j - 1];
          }
        }
      }
      if forall i :: 0 <= i < |members| ==> members[i].None? || members[i].value.accountId == me {
        forall i | 0 <= i < |members[1..]| ensures members[1..][i].None? || members[1..][i].value.accountId == me {
          assert members[1..][i] == members[i + 1];
        }
      }
    }
  }

  class TeamSettingViewModel {
    /** The team the page shows (a field of TeamBaseViewModel). */
    var teamId: string
    /** The logged-in account (`IMKitClient.account()`). */
    var account: string
    var events: seq<TeamEvent>
    var requests: seq<TeamRequest>

    constructor (teamId: string, account: string)
      ensures this.teamId == teamId && this.account == account && events == [] && requests == []
    {
      this.teamId := teamId;
      this.account := account;
      events := [];
      requests := [];
    }

    /** `quitTeam(team)`: the owner hands the team over first; anyone else just leaves. */
    method QuitTeam(team: TeamInfo)
      modifies this
      ensures teamId == old(teamId) && account == old(account) && events == old(events)
      ensures team.ownerAccountId == account ==>
        requests == old(requests) + (if team.teamId == "" then [] else [GetMembers(team.teamId)])
      ensures team.ownerAccountId != account ==> requests == old(requests) + [LeaveTeam(team.teamId)]
    {
      if team.ownerAccountId == account {
        CreatorQuitTeam(team.teamId);
      } else {
        LeaveTeamById(team.teamId);
      }
    }

    /** `creatorQuitTeam`: nothing for no team; otherwise the members are fetched. */
    method CreatorQuitTeam(id: string)
      modifies this
      ensures teamId == old(teamId) && account == old(account) && events == old(events)
      ensures requests == old(requests) + (if id == "" then [] else [GetMembers(id)])
    {
      if id == "" {
        return;
      }
      requests := requests + [GetMembers(id)];
    }

    /**
     * The members arrived: with at most one member the team is
     * dismissed; otherwise it is handed to the first other member (or,
     * when every other entry is absent, to the owner's own account).
     */
    method OnMembersSuccess(id: string, memberList: Option<seq<Option<TeamMember>>>)
      modifies this
      ensures teamId == old(teamId) && account == old(account)
      ensures memberList.None? || |memberList.value| <= 1 ==>
        events == old(events) + [TeamDismissBroadcast(id)] && requests == old(requests) + [DismissTeamRequest(id)]
      ensures memberList.Some? && |memberList.value| > 1 ==>
        var target := TransferTarget(memberList.value, account);
        events == old(events)
        && requests == old(requests) + (if target == "" then [] else [TransferTeam(id, target)])
    {
      if memberList.None? || |memberList.value| <= 1 {
        DismissTeam(id);
        return;
      }
      var members := memberList.value;
      var target := account;
      var i := 0;
      while i < |members|
        invariant 0 <= i <= |members|
        invariant target == account
        invariant TransferTarget(members[i..], account) == TransferTarget(members, account)
      {
        assert members[i..][1..] == members[i + 1..];
        if members[i].Some? && members[i].value.accountId != target {
          target := members[i].value.accountId;
          break;
        }
        i := i + 1;
      }
      if target != "" {
        requests := requests + [TransferTeam(id, target)];
      }
    }

    method OnMembersError(errorCode: int)
      modifies this
      ensures teamId == old(teamId) && account == old(account) && requests == old(requests)
      ensures events == old(events) + [QuitResult(VoidError(errorCode))]
    {
      events := events + [QuitResult(VoidError(errorCode))];
    }

    /** The hand-over, or the plain leave, succeeded: the team is announced gone and the quit reported. */
    method OnQuitSuccess(id: string)
      modifies this
      ensures teamId == old(teamId) && account == old(account) && requests == old(requests)
      ensures events == old(events) + [TeamDismissBroadcast(id), QuitResult(VoidSuccess)]
    {
      events := events + [TeamDismissBroadcast(id)];
      events := events + [QuitResult(VoidSuccess)];
    }

    method OnTransferError(errorCode: int)
      modifies this
      ensures teamId == old(teamId) && account == old(account) && requests == old(requests)
      ensures events == old(events) + [QuitResult(VoidError(errorCode))]
    {
      events := events + [QuitResult(VoidError(errorCode))];
    }

    /** `quitTeam(teamId)`: leaves the team. */
    method LeaveTeamById(id: string)
      modifies this
      ensures teamId == old(teamId) && account == old(account) && events == old(events)
      ensures requests == old(requests) + [LeaveTeam(id)]
    {
      requests := requests + [LeaveTeam(id)];
    }

    /** Leaving failed: when the team has no other member it is dismissed instead; any other error is reported. */
    method OnLeaveError(id: string, errorCode: int)
      modifies this
      ensures teamId == old(teamId) && account == old(account)
      ensures errorCode == QuitTeamNoMemberCode ==>
        events == old(events) + [TeamDismissBroadcast(id)] && requests == old(requests) + [DismissTeamRequest(id)]
      ensures errorCode != QuitTeamNoMemberCode ==>
        events == old(events) + [QuitResult(VoidError(errorCode))] && requests == old(requests)
    {
      if errorCode == QuitTeamNoMemberCode {
        DismissTeam(id);
        return;
      }
      events := events + [QuitResult(VoidError(errorCode))];
    }

    /** `dismissTeam`: the team is announced gone before the dismissal is even asked for. */
    method DismissTeam(id: string)
      modifies this
      ensures teamId == old(teamId) && account == old(account)
      ensures events == old(events) + [TeamDismissBroadcast(id)]
      ensures requests == old(requests) + [DismissTeamRequest(id)]
    {
      events := events + [TeamDismissBroadcast(id)];
      requests := requests + [DismissTeamRequest(id)];
    }

    method OnDismissResult(outcome: Outcome)
      modifies this
      ensures teamId == old(teamId) && account == old(account) && requests == old(requests)
      ensures events == old(events) +
        [DismissResult(if outcome.Success? then VoidSuccess else VoidError(outcome.code))]
    {
      if outcome.Success? {
        events := events + [DismissResult(VoidSuccess)];
      } else {
        events := events + [DismissResult(VoidError(outcome.code))];
      }
    }

    /** `setTeamNotify`: the reminder switch becomes a mute mode. */
    method SetTeamNotify(id: string, notify: bool)
      modifies this
      ensures teamId == old(teamId) && account == old(account) && events == old(events)
      ensures requests == old(requests) + [SetMuteMode(id, MuteModeOf(notify))]
    {
      var muteMode := if notify then MuteOff else MuteOn;
      requests := requests + [SetMuteMode(id, muteMode)];
    }

    /** The mute mode was set: the requested switch is reported; a failure reports its code. */
    method OnSetTeamNotifyResult(notify: bool, outcome: Outcome)
      modifies this
      ensures teamId == old(teamId) && account == old(account) && requests == old(requests)
      ensures events == old(events) +
        [NotifyResult(if outcome.Success? then BoolValue(notify, None) else BoolError(outcome.code))]
    {
      if outcome.Success? {
        events := events + [NotifyResult(BoolValue(notify, None))];
      } else {
        events := events + [NotifyResult(BoolError(outcome.code))];
      }
    }

    /**
     * `stickTop`: without a session it reports error -1 and asks nothing;
     * otherwise it pins or unpins the conversation of the page's team.
     */
    method StickTop(sessionId: string, stick: bool)
      modifies this
      ensures teamId == old(teamId) && account == old(account)
      ensures sessionId == "" ==> events == old(events) + [StickResult(BoolError(-1))] && requests == old(requests)
      ensures sessionId != "" ==>
        events == old(events) && requests == old(requests) + [StickTopRequest(ConversationId(Team, teamId), stick)]
    {
      if sessionId == "" {
        events := events + [StickResult(BoolError(-1))];
        return;
      }
      requests := requests + [StickTopRequest(ConversationId(Team, teamId), stick)];
    }

    /** The pin switch answered: success reports the requested state, failure the previous one. */
    method OnStickTopResult(stick: bool, outcome: Outcome)
      modifies this
      ensures teamId == old(teamId) && account == old(account) && requests == old(requests)
      ensures events == old(events) + [StickResult(BoolValue(if outcome.Success? then stick else !stick, None))]
    {
      if outcome.Success? {
        events := events + [StickResult(BoolValue(stick, None))];
      } else {
        events := events + [StickResult(BoolValue(!stick, None))];
      }
    }

    method RequestStickAndNotify(id: string)
      modifies this
      ensures teamId == old(teamId) && account == old(account) && events == old(events)
      ensures requests == old(requests) + [GetConversation(ConversationId(Team, id))]
    {
      requests := requests + [GetConversation(ConversationId(Team, id))];
    }

    /** The team conversation arrived: pinned is its stick flag, reminded is not muted. */
    method OnStickAndNotifySuccess(data: Option<ConversationFlags>)
      modifies this
      ensures teamId == old(teamId) && account == old(account) && requests == old(requests)
      ensures data.None? ==> events == old(events)
      ensures data.Some? ==>
        events == old(events) + [StickResult(BoolValue(data.value.isStickTop, Some(Update))),
                                 NotifyResult(BoolValue(!data.value.isMute, Some(Update)))]
    {
      if data.Some? {
        events := events + [StickResult(BoolValue(data.value.isStickTop, Some(Update)))];
        events := events + [NotifyResult(BoolValue(!data.value.isMute, Some(Update)))];
      }
    }
  }
}
