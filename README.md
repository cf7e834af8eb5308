# NIM Android UIKit view models in Dafny

This project models the logic layer of the NetEase IM Android UIKit: the
message utilities of the chat kit and the six view models that sit
between the IM SDK and the pages. In those view models each SDK push or
callback becomes an update of the page's state, an event shown on the
page, or a further SDK request.

- **Chat page** (`ChatBaseViewModel`, module `ChatTimeline`). It routes
  message pushes for the open conversation and suppresses the echo of
  the user's own revokes. It also covers sending, deleting, revoking and
  forwarding, and paging through history.
- **One-to-one chat** (`ChatP2PViewModel`, module `P2PChat`). It keeps
  the read-receipt watermark, decodes typing indicators, filters the
  peer's receipts and tracks the peer's friend profile.
- **Pinned messages** (`ChatPinViewModel`, module `PinList`).
- **Conversation list** (`ConversationViewModel`, module
  `ConversationList`). It pages behind a re-entrancy guard, removes
  repeated conversations from a page in place, and splits changed
  conversations into updates and deletions.
- **Team settings** (`TeamSettingViewModel`, module `TeamSettings`). It
  covers an owner's quit (hand-over or dismissal), leaving, dismissing,
  the reminder switch and pinning the team's conversation.
- **Contact profile** (`UserInfoViewModel`, module `UserProfile`). It
  covers friend-change mapping, loading a profile, the block list and
  add-friend sequencing.
- **Message utilities** (`MessageHelper`, module `MessageHelper`). They
  cover at-mention highlighting, the re-edit window of revoked messages
  and revoke tombstones. They also cover the reply extension and
  reply/at clearing, the merge-forward file and attachment, and the
  newest-first ordering of message lists.
- Values shared by all of these live in module `Common`.

Each view model is a `class`. Its fields are the Java fields the
callbacks update: the conversation, the revoke echo id, the watermark,
the pager's offset and guard, and the shared `FetchResult` objects,
which are re-emitted after changing some of their fields.

- Every LiveData `setValue`/`postValue` appends an event to `events`.
- Every call into a repository (ChatRepo, ConversationRepo, TeamRepo,
  ContactRepo) appends a request to `requests`.
- Work handed to the main looper is queued in `posted` and run by
  `RunPosted`.
- An SDK callback (`onSuccess`, `onError`, a listener method) is a
  method of its own. It takes what the SDK passes to it, so every
  outcome of a request can be followed.

Loops of the source are loops here, and each is proved against a
specification function. The properties the source relies on are lemmas
about those functions. Examples:

- the first occurrence of each conversation id is kept;
- the read-receipt watermark only moves forward and marks messages in
  strictly increasing time;
- forwarding sends each live non-audio message once per session;
- a merge-forward file splits back into its header and one line per
  kept message;
- restoring after a forward gives each message back without the name
  and avatar stamp;
- the newest-first order is a stable sort.

Where the source checks a condition the SDK may violate (a null list, a
missing key, an empty id), the model takes an `Option` or an empty
value and follows the same branch.

## Model

| member | source | states |
|---|---|---|
| Common.Convert | chatkit-ui/src/main/java/com/netease/yunxin/kit/chatkit/ui/page/viewmodel/ChatBaseViewModel.java:1239-1248 | `convert`: a null list gives null; otherwise one bean per message, in order, each unrevoked and unpinned |
| Common.Reverse | chatkit-ui/src/main/java/com/netease/yunxin/kit/chatkit/ui/page/viewmodel/ChatBaseViewModel.java:1119-1122 | `Collections.reverse` on a page: the array afterwards holds its old contents in reverse order |
| Common.TrimmedLengthPositive | chatkit-ui/src/main/java/com/netease/yunxin/kit/chatkit/ui/page/viewmodel/ChatBaseViewModel.java:877-879 | a follow-up note counts as non-blank (`getTrimmedLength > 0`) exactly when one of its characters is above ' ' |
| MessageHelper.Utf16Length | chatkit-ui/src/main/java/com/netease/yunxin/kit/chatkit/ui/common/MessageHelper.java:366 | the length `content.length()` compares against: one unit per character, two for a character outside the Basic Multilingual Plane; between the character count and twice it, and 0 only for empty text |
| MessageHelper.Utf16LengthOfBmp | chatkit-ui/src/main/java/com/netease/yunxin/kit/chatkit/ui/common/MessageHelper.java:414 | on text with no character outside the Basic Multilingual Plane the bound is the character count |
| MessageHelper.Utf16LengthCountsWide | chatkit-ui/src/main/java/com/netease/yunxin/kit/chatkit/ui/common/MessageHelper.java:414 | the bound is the character count plus the number of characters outside the Basic Multilingual Plane |
| MessageHelper.IdentifyAtExpression | chatkit-ui/src/main/java/com/netease/yunxin/kit/chatkit/ui/common/MessageHelper.java:404-422 | the spans set are exactly the segments of every block that pass the range check against the text's UTF-16 length (Java `length()`), block by block; an absent model or empty content sets none |
| MessageHelper.IdentifyAtExpressionInMessage | chatkit-ui/src/main/java/com/netease/yunxin/kit/chatkit/ui/common/MessageHelper.java:355-374 | the same over the at-mention model decoded from the message's server extension; without one no span is set |
| MessageHelper.SegmentSpansExact | chatkit-ui/src/main/java/com/netease/yunxin/kit/chatkit/ui/common/MessageHelper.java:364-371 | a block highlights a span exactly when one of its segments has start >= 0, end > start, end < content length and those bounds |
| MessageHelper.HighlightSpansExact | chatkit-ui/src/main/java/com/netease/yunxin/kit/chatkit/ui/common/MessageHelper.java:410-420 | a span is highlighted exactly when some segment of some block has start >= 0, end > start and end below the UTF-16 length of the content, with that span's bounds |
| MessageHelper.HighlightsWithinContent | chatkit-ui/src/main/java/com/netease/yunxin/kit/chatkit/ui/common/MessageHelper.java:413-418 | every highlighted span has 0 <= start < end < the content's UTF-16 length: a segment ending at the length is dropped, never clamped |
| MessageHelper.MentionAfterWideCharacter | chatkit-ui/src/main/java/com/netease/yunxin/kit/chatkit/ui/common/MessageHelper.java:413-418 | a mention at UTF-16 offsets 2-4 after an emoji ends inside the five-unit text and is highlighted |
| MessageHelper.IsReceivedMessage | chatkit-ui/src/main/java/com/netease/yunxin/kit/chatkit/ui/common/MessageHelper.java:487-490 | definition: a message is received when it is not our own and its sender id is not empty |
| MessageHelper.CanRevokeEdit | chatkit-ui/src/main/java/com/netease/yunxin/kit/chatkit/ui/common/MessageHelper.java:989-992 | definition: text messages and rich-text custom messages can be re-edited after a revoke |
| MessageHelper.RevokeMsgIsEdit | chatkit-ui/src/main/java/com/netease/yunxin/kit/chatkit/ui/common/MessageHelper.java:473-479 | definition: not received, re-editable kind, now - createTime below 120000 ms, and the bean's re-edit flag set; its properties are RevokeEditWindow and RevokeEditNeedsOwnFlaggedMessage |
| MessageHelper.RevokeEditWindow | chatkit-ui/src/main/java/com/netease/yunxin/kit/chatkit/ui/common/MessageHelper.java:473-479 | for an own, flagged text or rich-text message, re-editing is offered exactly while now < createTime + 120000 |
| MessageHelper.RevokeEditNeedsOwnFlaggedMessage | chatkit-ui/src/main/java/com/netease/yunxin/kit/chatkit/ui/common/MessageHelper.java:473-479 | a received message, an unflagged one or one that is neither text nor rich text is never re-editable |
| MessageHelper.SaveLocalRevokeMessage | chatkit-ui/src/main/java/com/netease/yunxin/kit/chatkit/ui/common/MessageHelper.java:659-698 | own tombstone: same conversation, saved under the current account at createTime + 1, server extension copied, revoke and time tags, edit tag = canRevokeEdit(message) && flag |
| MessageHelper.SaveLocalMessageForOthersRevokeMessage | chatkit-ui/src/main/java/com/netease/yunxin/kit/chatkit/ui/common/MessageHelper.java:638-657 | tombstone of another's revoke: the original's conversation and time, the revoker as sender, edit tag false, no kept content |
| MessageHelper.MessageRevokeContent | chatkit-ui/src/main/java/com/netease/yunxin/kit/chatkit/ui/common/MessageHelper.java:268-280 | definition: the string under the revoke-content tag of the local extension, or "" when the extension is absent or the entry is missing or not a string |
| MessageHelper.RichMessageRevokeContent | chatkit-ui/src/main/java/com/netease/yunxin/kit/chatkit/ui/common/MessageHelper.java:288-301 | definition: the object under the rich revoke-content tag of the local extension, or none when the extension is absent or the entry is missing or not an object |
| MessageHelper.SelfRevokeContentRoundTrip | chatkit-ui/src/main/java/com/netease/yunxin/kit/chatkit/ui/common/MessageHelper.java:268-309 | reading an own tombstone back gives the revoked text of a text message, the title and body (absent ones "") of a rich-text one, nothing for others |
| MessageHelper.OthersRevokeHasNoContent | chatkit-ui/src/main/java/com/netease/yunxin/kit/chatkit/ui/common/MessageHelper.java:638-657 | reading back another's tombstone gives "" and no rich content |
| MessageHelper.TombstoneTimes | chatkit-ui/src/main/java/com/netease/yunxin/kit/chatkit/ui/common/MessageHelper.java:638-698 | an own tombstone sorts strictly after the message it replaces; another's takes the message's own time |
| MessageHelper.CreateReplyExtension | chatkit-ui/src/main/java/com/netease/yunxin/kit/chatkit/ui/common/MessageHelper.java:578-597 | no reply message: the extension is returned as it came (possibly null); otherwise the reply entry is set and every other entry kept |
| MessageHelper.ReplyExtensionRoundTrip | chatkit-ui/src/main/java/com/netease/yunxin/kit/chatkit/ui/common/MessageHelper.java:585-594 | the reply entry written reads back as the replied-to message's client id, type, sender, target, server id and time |
| MessageHelper.ReplyInfoIdentifiesMessage | chatkit-ui/src/main/java/com/netease/yunxin/kit/chatkit/ui/common/MessageHelper.java:585-593 | two messages with equal reply entries agree on client id, server id, conversation, sender and time |
| MessageHelper.ClearAitAndReplyInfo | chatkit-ui/src/main/java/com/netease/yunxin/kit/chatkit/ui/common/MessageHelper.java:599-609 | only the server extension changes, exactly the reply and at-mention keys are removed and a null extension stays null |
| MessageHelper.ClearedCarriesNoReplyOrAit | chatkit-ui/src/main/java/com/netease/yunxin/kit/chatkit/ui/common/MessageHelper.java:603-606 | a cleared message replies to nothing and mentions no one |
| MessageHelper.BuildHeader | chatkit-ui/src/main/java/com/netease/yunxin/kit/chatkit/ui/common/MessageHelper.java:843-855 | the header carries the version, terminal 1 (Android) and the message count |
| MessageHelper.BuildBody | chatkit-ui/src/main/java/com/netease/yunxin/kit/chatkit/ui/common/MessageHelper.java:863-873 | the StringBuilder loop yields the serialisations joined by "\n", with no separator first or last and "" for no messages |
| MessageHelper.SplitJoin | chatkit-ui/src/main/java/com/netease/yunxin/kit/chatkit/ui/common/MessageHelper.java:863-873 | when every serialisation is one line, splitting the body at "\n" gives the serialisations back |
| MessageHelper.CreateForwardMessageListFileDetail | chatkit-ui/src/main/java/com/netease/yunxin/kit/chatkit/ui/common/MessageHelper.java:811-834 | the file is "" for no messages; otherwise the header of the kept messages, "\n" and the body of the kept messages |
| MessageHelper.ForwardFileLines | chatkit-ui/src/main/java/com/netease/yunxin/kit/chatkit/ui/common/MessageHelper.java:811-873 | read back line by line: the header with message_count = number kept, then one line per kept message in input order |
| MessageHelper.ForwardFileKeeps | chatkit-ui/src/main/java/com/netease/yunxin/kit/chatkit/ui/common/MessageHelper.java:819-832 | a message is kept exactly when it is in the first message's conversation and is not a notification, audio/video call or robot message |
| MessageHelper.StampedShape | chatkit-ui/src/main/java/com/netease/yunxin/kit/chatkit/ui/common/MessageHelper.java:726-771 | a message as written into the file differs only in its extension: sender name and avatar added, reply and at-mention removed, all else kept |
| MessageHelper.RestoredShape | chatkit-ui/src/main/java/com/netease/yunxin/kit/chatkit/ui/common/MessageHelper.java:774-800 | a message as handed back differs only in its extension: the original's without name and avatar |
| MessageHelper.RestoreUndoesStamp | chatkit-ui/src/main/java/com/netease/yunxin/kit/chatkit/ui/common/MessageHelper.java:774-800 | putting back the saved reply and at-mention entries and dropping name and avatar undoes the stamp |
| MessageHelper.SavePrefixExact | chatkit-ui/src/main/java/com/netease/yunxin/kit/chatkit/ui/common/MessageHelper.java:726-739 | when client ids name messages, the maps saved so far hold each visited message's reply (or at) entry under its client id and nothing else |
| MessageHelper.SaveAllExact | chatkit-ui/src/main/java/com/netease/yunxin/kit/chatkit/ui/common/MessageHelper.java:726-772 | after the first loop the saved maps hold every message's reply and at-mention entry under its client id |
| MessageHelper.RestoreFromSaved | chatkit-ui/src/main/java/com/netease/yunxin/kit/chatkit/ui/common/MessageHelper.java:774-800 | restoring a stamped message from the maps the first loop saved gives its original extension minus name and avatar |
| MessageHelper.RestoredStamp | chatkit-ui/src/main/java/com/netease/yunxin/kit/chatkit/ui/common/MessageHelper.java:774-800 | restoring changes only the extension and, when client ids name messages, gives the original minus name and avatar |
| MessageHelper.StampForForward | chatkit-ui/src/main/java/com/netease/yunxin/kit/chatkit/ui/common/MessageHelper.java:720-772 | the first loop: every message is stamped in place, the file list is the stamped messages, and the maps are the saved reply and at-mention entries |
| MessageHelper.RestoreAfterForward | chatkit-ui/src/main/java/com/netease/yunxin/kit/chatkit/ui/common/MessageHelper.java:774-800 | the second loop: each message becomes its restored form, in place |
| MessageHelper.CreateMultiForwardMsg | chatkit-ui/src/main/java/com/netease/yunxin/kit/chatkit/ui/common/MessageHelper.java:715-803 | "" for no messages; otherwise the file of the stamped messages; afterwards only extensions changed, each back to its original minus name and avatar when client ids name messages |
| MessageHelper.NestedDepthIsMax | chatkit-ui/src/main/java/com/netease/yunxin/kit/chatkit/ui/common/MessageHelper.java:894-902 | the depth found is the largest depth of a nested merged-forward message, or 0 when none exceeds 0 |
| MessageHelper.CreateMultiTransmitAttachment | chatkit-ui/src/main/java/com/netease/yunxin/kit/chatkit/ui/common/MessageHelper.java:884-923 | null exactly for a null or empty list or no source session; otherwise depth = 1 + nested depth and the previews are those of the first min(n, limit) messages, in order |
| MessageHelper.NewestFirstSorts | chatkit-ui/src/main/java/com/netease/yunxin/kit/chatkit/ui/common/MessageHelper.java:1090-1095 | the newest-first order is ordered by createTime, descending, and a permutation of the input |
| MessageHelper.NewestFirstStable | chatkit-ui/src/main/java/com/netease/yunxin/kit/chatkit/ui/common/MessageHelper.java:1090-1095 | messages created at the same time keep their relative order (the library sort is stable) |
| MessageHelper.ConvertToChatMessageBean | chatkit-ui/src/main/java/com/netease/yunxin/kit/chatkit/ui/common/MessageHelper.java:1087-1102 | null gives null; otherwise the caller's list is sorted newest first in place and one bean per message is returned in that order |
| ChatTimeline.RefersInExactly | chatkit-ui/src/main/java/com/netease/yunxin/kit/chatkit/ui/page/viewmodel/ChatBaseViewModel.java:223-236 | a deleted reference is shown exactly when it is in the batch and of the open conversation |
| ChatTimeline.RevokeEchoSuppressed | chatkit-ui/src/main/java/com/netease/yunxin/kit/chatkit/ui/page/viewmodel/ChatBaseViewModel.java:277-291 | a pushed revoke is shown exactly when it is of the open conversation and its client id is not the one revoked here |
| ChatTimeline.PinEvent | chatkit-ui/src/main/java/com/netease/yunxin/kit/chatkit/ui/page/viewmodel/ChatBaseViewModel.java:248-265 | a pin push of the open conversation shows a pin add for PINNED and a removal for NOT_PINNED; anything else shows nothing |
| ChatTimeline.MoreOption | chatkit-ui/src/main/java/com/netease/yunxin/kit/chatkit/ui/page/viewmodel/ChatBaseViewModel.java:1145-1155 | history query: the anchor, the direction, 100 messages; older pages end at the anchor's time, newer ones begin at it |
| ChatTimeline.SkipsAudioExactly | chatkit-ui/src/main/java/com/netease/yunxin/kit/chatkit/ui/page/viewmodel/ChatBaseViewModel.java:773-805 | the forward error flag is raised exactly when some unrevoked message is audio |
| ChatTimeline.ForwardSendsCount | chatkit-ui/src/main/java/com/netease/yunxin/kit/chatkit/ui/page/viewmodel/ChatBaseViewModel.java:773-805 | forwarding sends each unrevoked non-audio message once to every session |
| ChatTimeline.ForwardSendsOnlyForwarded | chatkit-ui/src/main/java/com/netease/yunxin/kit/chatkit/ui/page/viewmodel/ChatBaseViewModel.java:773-805 | every send is the forward copy of an unrevoked non-audio message, to one of the chosen sessions of the chosen type |
| ChatTimeline.ReversedPageIsChronological | chatkit-ui/src/main/java/com/netease/yunxin/kit/chatkit/ui/page/viewmodel/ChatBaseViewModel.java:1119-1122 | a page that arrives newest first is oldest first once reversed |
| ChatTimeline.PageAfterSuccess | chatkit-ui/src/main/java/com/netease/yunxin/kit/chatkit/ui/page/viewmodel/ChatBaseViewModel.java:1200-1227 | status Finish for a null or empty page and Success otherwise, the beans as data, index 0 for older pages and -1 for newer, the anchor kept only when not scrolling to the end |
| ChatTimeline.ChatBaseViewModel.constructor | chatkit-ui/src/main/java/com/netease/yunxin/kit/chatkit/ui/page/viewmodel/ChatBaseViewModel.java:606-622 | `init`: bound to the peer's or team's conversation, nothing revoked or loaded, the read-receipt setting requested |
| ChatTimeline.ChatBaseViewModel.OnShowReadStatus | chatkit-ui/src/main/java/com/netease/yunxin/kit/chatkit/ui/page/viewmodel/ChatBaseViewModel.java:612-621 | read receipts are asked for only when the setting answers true |
| ChatTimeline.ChatBaseViewModel.SetShowReadStatus | chatkit-ui/src/main/java/com/netease/yunxin/kit/chatkit/ui/page/viewmodel/ChatBaseViewModel.java:642-644 | only the show-read flag changes |
| ChatTimeline.ChatBaseViewModel.OnMessageAttachmentDownloadProgress | chatkit-ui/src/main/java/com/netease/yunxin/kit/chatkit/ui/page/viewmodel/ChatBaseViewModel.java:164-176 | progress is shown as an update only for a message of the open conversation |
| ChatTimeline.ChatBaseViewModel.OnMessagesUpdate | chatkit-ui/src/main/java/com/netease/yunxin/kit/chatkit/ui/page/viewmodel/ChatBaseViewModel.java:178-196 | updates are shown only for a non-empty batch whose first message is of the open conversation |
| ChatTimeline.ChatBaseViewModel.OnReceiveMessages | chatkit-ui/src/main/java/com/netease/yunxin/kit/chatkit/ui/page/viewmodel/ChatBaseViewModel.java:198-211 | new messages are shown as an addition only when the first message is of the open conversation |
| ChatTimeline.ChatBaseViewModel.OnMessageDeletedNotifications | chatkit-ui/src/main/java/com/netease/yunxin/kit/chatkit/ui/page/viewmodel/ChatBaseViewModel.java:217-239 | the references of the open conversation are shown, in order, only when there is at least one |
| ChatTimeline.ChatBaseViewModel.OnMessagePinNotification | chatkit-ui/src/main/java/com/netease/yunxin/kit/chatkit/ui/page/viewmodel/ChatBaseViewModel.java:245-268 | shows exactly the event PinEvent names |
| ChatTimeline.ChatBaseViewModel.OnMessageRevokeNotifications | chatkit-ui/src/main/java/com/netease/yunxin/kit/chatkit/ui/page/viewmodel/ChatBaseViewModel.java:270-293 | the revokes shown are the pushed ones of the open conversation that are not the echo of the last own revoke |
| ChatTimeline.ChatBaseViewModel.PostMessageSend | chatkit-ui/src/main/java/com/netease/yunxin/kit/chatkit/ui/page/viewmodel/ChatBaseViewModel.java:1012-1025 | the shared send result becomes a success tagged Add while sending and Update afterwards, and is shown |
| ChatTimeline.ChatBaseViewModel.OnSendingSuccess | chatkit-ui/src/main/java/com/netease/yunxin/kit/chatkit/ui/page/viewmodel/ChatBaseViewModel.java:325-332 | a sent message of the open conversation is shown again as an update; others change nothing |
| ChatTimeline.ChatBaseViewModel.OnSendingProgress | chatkit-ui/src/main/java/com/netease/yunxin/kit/chatkit/ui/page/viewmodel/ChatBaseViewModel.java:344-372 | progress 0 first adds the message; every progress of the open conversation is reported |
| ChatTimeline.ChatBaseViewModel.SendMessageStrExtension | chatkit-ui/src/main/java/com/netease/yunxin/kit/chatkit/ui/page/viewmodel/ChatBaseViewModel.java:1039-1083 | a null message sends nothing; otherwise one send with read receipts iff needAck && showRead, force-push for a non-empty push list and the given extension |
| ChatTimeline.ChatBaseViewModel.OnSendError | chatkit-ui/src/main/java/com/netease/yunxin/kit/chatkit/ui/page/viewmodel/ChatBaseViewModel.java:1084-1096 | a black-list refusal also saves the local tip; the message is shown again as failed |
| ChatTimeline.ChatBaseViewModel.DeleteMessage | chatkit-ui/src/main/java/com/netease/yunxin/kit/chatkit/ui/page/viewmodel/ChatBaseViewModel.java:479-534 | nothing for a null or empty list; one message is deleted on its own; a batch is deleted in one request, local-only exactly when none of its messages has a server id |
| ChatTimeline.ChatBaseViewModel.OnDeleteError | chatkit-ui/src/main/java/com/netease/yunxin/kit/chatkit/ui/page/viewmodel/ChatBaseViewModel.java:490-497 | a failed deletion is shown as error -1 |
| ChatTimeline.ChatBaseViewModel.OnDeleteSuccess | chatkit-ui/src/main/java/com/netease/yunxin/kit/chatkit/ui/page/viewmodel/ChatBaseViewModel.java:536-547 | the references of every deleted message are shown, in order |
| ChatTimeline.ChatBaseViewModel.RevokeMessage | chatkit-ui/src/main/java/com/netease/yunxin/kit/chatkit/ui/page/viewmodel/ChatBaseViewModel.java:552-562 | the client id is remembered before the revoke is asked for; a null message changes nothing |
| ChatTimeline.ChatBaseViewModel.OnRevokeError | chatkit-ui/src/main/java/com/netease/yunxin/kit/chatkit/ui/page/viewmodel/ChatBaseViewModel.java:564-575 | the failure is shown with its code, marked as a timeout exactly for code 107314 |
| ChatTimeline.ChatBaseViewModel.OnRevokeSuccess | chatkit-ui/src/main/java/com/netease/yunxin/kit/chatkit/ui/page/viewmodel/ChatBaseViewModel.java:577-591 | a pinned message is also unpinned, and the revoke is shown |
| ChatTimeline.ChatBaseViewModel.SendForwardMessages | chatkit-ui/src/main/java/com/netease/yunxin/kit/chatkit/ui/page/viewmodel/ChatBaseViewModel.java:767-806 | nothing for no sessions or no messages; otherwise the sends ForwardSends names, the error flag SkipsAudio names, and the note queued when not blank |
| ChatTimeline.ChatBaseViewModel.ForwardEach | chatkit-ui/src/main/java/com/netease/yunxin/kit/chatkit/ui/page/viewmodel/ChatBaseViewModel.java:773-805 | the loop from the last message to the first issues exactly ForwardSends and returns SkipsAudio |
| ChatTimeline.ChatBaseViewModel.ForwardOne | chatkit-ui/src/main/java/com/netease/yunxin/kit/chatkit/ui/page/viewmodel/ChatBaseViewModel.java:781-800 | one bean of the loop: a revoked bean sends nothing, a live audio bean sends nothing and raises the error flag, any other bean sends its forward copy to every session |
| ChatTimeline.ChatBaseViewModel.SendNoteMessage | chatkit-ui/src/main/java/com/netease/yunxin/kit/chatkit/ui/page/viewmodel/ChatBaseViewModel.java:875-894 | a note is queued for later sending exactly when it is not blank |
| ChatTimeline.ChatBaseViewModel.GetMessageList | chatkit-ui/src/main/java/com/netease/yunxin/kit/chatkit/ui/page/viewmodel/ChatBaseViewModel.java:1104-1133 | without an anchor, the newest page of the open conversation is asked for; with one, the pages on both sides of it |
| ChatTimeline.ChatBaseViewModel.OnInitialFetchSuccess | chatkit-ui/src/main/java/com/netease/yunxin/kit/chatkit/ui/page/viewmodel/ChatBaseViewModel.java:1119-1128 | a page is reversed in place and shown as PageAfterSuccess says; history counts as loaded afterwards either way |
| ChatTimeline.ChatBaseViewModel.FetchMoreMessage | chatkit-ui/src/main/java/com/netease/yunxin/kit/chatkit/ui/page/viewmodel/ChatBaseViewModel.java:1141-1158 | asks for the page MoreOption names |
| ChatTimeline.ChatBaseViewModel.OnFetchMoreError | chatkit-ui/src/main/java/com/netease/yunxin/kit/chatkit/ui/page/viewmodel/ChatBaseViewModel.java:1161-1164 | the shared result carries the error, no data and index -1, and is shown |
| ChatTimeline.ChatBaseViewModel.OnFetchMoreSuccess | chatkit-ui/src/main/java/com/netease/yunxin/kit/chatkit/ui/page/viewmodel/ChatBaseViewModel.java:1167-1175 | an empty or null page shows nothing; an older page is reversed in place; then it is shown as PageAfterSuccess says |
| ChatTimeline.ChatBaseViewModel.FetchMessageListBothDirect | chatkit-ui/src/main/java/com/netease/yunxin/kit/chatkit/ui/page/viewmodel/ChatBaseViewModel.java:1183-1194 | the newer page is asked for now, the older one queued for the main looper |
| ChatTimeline.ChatBaseViewModel.RunPosted | chatkit-ui/src/main/java/com/netease/yunxin/kit/chatkit/ui/page/viewmodel/ChatBaseViewModel.java:1186-1193 | running the queued work asks for the older page, or sends the queued note to each session |
| ChatTimeline.ChatBaseViewModel.SendToSessions | chatkit-ui/src/main/java/com/netease/yunxin/kit/chatkit/ui/page/viewmodel/ChatBaseViewModel.java:884-892 | one text send to each session, in order |
| ChatTimeline.ChatBaseViewModel.OnListFetchSuccess | chatkit-ui/src/main/java/com/netease/yunxin/kit/chatkit/ui/page/viewmodel/ChatBaseViewModel.java:1200-1227 | the shared result becomes PageAfterSuccess of the page and is shown |
| ChatTimeline.ChatBaseViewModel.OnListFetchFailed | chatkit-ui/src/main/java/com/netease/yunxin/kit/chatkit/ui/page/viewmodel/ChatBaseViewModel.java:1231-1237 | the shared result carries the error, no data and index -1, and is shown |
| P2PChat.TypingValue | chatkit-ui/src/main/java/com/netease/yunxin/kit/chatkit/ui/page/viewmodel/ChatP2PViewModel.java:201-230 | typing is sent as 1, not typing as 0, and each reads back as the state it was sent with |
| P2PChat.FirstForeign | chatkit-ui/src/main/java/com/netease/yunxin/kit/chatkit/ui/page/viewmodel/ChatP2PViewModel.java:70-75 | the batch stops at the first notification that is not a P2P one addressed to the current account |
| P2PChat.TypingPostsCount | chatkit-ui/src/main/java/com/netease/yunxin/kit/chatkit/ui/page/viewmodel/ChatP2PViewModel.java:76-88 | each decodable notification posts exactly one state; one whose content does not decode posts none |
| P2PChat.TypingRoundTrip | chatkit-ui/src/main/java/com/netease/yunxin/kit/chatkit/ui/page/viewmodel/ChatP2PViewModel.java:76-88 | a notification sent by sendInputNotification shows the typing state it was sent with |
| P2PChat.ReceiptStep | chatkit-ui/src/main/java/com/netease/yunxin/kit/chatkit/ui/page/viewmodel/ChatP2PViewModel.java:174-190 | a message is marked read iff present, asking for receipts, showRead set and newer than the watermark, which then moves to its time |
| P2PChat.ReceiptTimeMonotone | chatkit-ui/src/main/java/com/netease/yunxin/kit/chatkit/ui/page/viewmodel/ChatP2PViewModel.java:183-189 | the watermark never goes back |
| P2PChat.ReceiptAtMostOnce | chatkit-ui/src/main/java/com/netease/yunxin/kit/chatkit/ui/page/viewmodel/ChatP2PViewModel.java:183-189 | sending the receipt of the same message twice marks it at most once |
| P2PChat.ReceiptRunMarksIncreasing | chatkit-ui/src/main/java/com/netease/yunxin/kit/chatkit/ui/page/viewmodel/ChatP2PViewModel.java:174-190 | over any run the watermark never goes back, marked messages are newer than the start and strictly increasing, and the last one is the final watermark |
| P2PChat.ReceiptsInExactly | chatkit-ui/src/main/java/com/netease/yunxin/kit/chatkit/ui/page/viewmodel/ChatP2PViewModel.java:143-159 | a receipt is shown exactly when it is of the open conversation |
| P2PChat.ChatP2PViewModel.constructor | chatkit-ui/src/main/java/com/netease/yunxin/kit/chatkit/ui/page/viewmodel/ChatP2PViewModel.java:43-55 | bound to the peer's conversation, watermark 0, no friend yet |
| P2PChat.ChatP2PViewModel.SendReceipt | chatkit-ui/src/main/java/com/netease/yunxin/kit/chatkit/ui/page/viewmodel/ChatP2PViewModel.java:174-190 | the watermark moves as ReceiptStep says and a receipt is sent exactly for a marked message |
| P2PChat.ChatP2PViewModel.OnP2PMessageReadReceipts | chatkit-ui/src/main/java/com/netease/yunxin/kit/chatkit/ui/page/viewmodel/ChatP2PViewModel.java:143-159 | the receipts of the open conversation are shown one by one, in order |
| P2PChat.ChatP2PViewModel.OnReceiveCustomNotifications | chatkit-ui/src/main/java/com/netease/yunxin/kit/chatkit/ui/page/viewmodel/ChatP2PViewModel.java:60-89 | the typing states of the notifications before the first foreign one are posted, in order |
| P2PChat.ChatP2PViewModel.SendInputNotification | chatkit-ui/src/main/java/com/netease/yunxin/kit/chatkit/ui/page/viewmodel/ChatP2PViewModel.java:201-230 | the typing state goes to the peer's conversation as TypingValue |
| P2PChat.ChatP2PViewModel.GetFriendInfo | chatkit-ui/src/main/java/com/netease/yunxin/kit/chatkit/ui/page/viewmodel/ChatP2PViewModel.java:117-126 | the friend is asked for |
| P2PChat.ChatP2PViewModel.OnGetFriendSuccess | chatkit-ui/src/main/java/com/netease/yunxin/kit/chatkit/ui/page/viewmodel/ChatP2PViewModel.java:128-136 | a returned friend is stored and shown; none changes nothing |
| P2PChat.ChatP2PViewModel.NotifyFriendChange | chatkit-ui/src/main/java/com/netease/yunxin/kit/chatkit/ui/page/viewmodel/ChatP2PViewModel.java:193-199 | only a change of the peer's own account is shown |
| PinList.ClientIdsInExactly | chatkit-ui/src/main/java/com/netease/yunxin/kit/chatkit/ui/page/viewmodel/ChatPinViewModel.java:320-326 | the collected client ids are exactly those of references in the page's conversation, never more than the references |
| PinList.ChatPinViewModel.constructor | chatkit-ui/src/main/java/com/netease/yunxin/kit/chatkit/ui/page/viewmodel/ChatPinViewModel.java:99-105 | `init`: bound to one conversation, read receipts as the setting says |
| PinList.ChatPinViewModel.SetShowRead | chatkit-ui/src/main/java/com/netease/yunxin/kit/chatkit/ui/page/viewmodel/ChatPinViewModel.java:107-109 | the show-read flag becomes the given value and nothing else changes, so later sends ask for receipts iff needAck && show |
| PinList.ChatPinViewModel.IsSameConversation | chatkit-ui/src/main/java/com/netease/yunxin/kit/chatkit/ui/page/viewmodel/ChatPinViewModel.java:417-421 | holds exactly when the id's target is the page's session and its type the page's type |
| PinList.ChatPinViewModel.GetPinMessageList | chatkit-ui/src/main/java/com/netease/yunxin/kit/chatkit/ui/page/viewmodel/ChatPinViewModel.java:137-141 | the conversation's pins are asked for |
| PinList.ChatPinViewModel.OnPinListError | chatkit-ui/src/main/java/com/netease/yunxin/kit/chatkit/ui/page/viewmodel/ChatPinViewModel.java:143-149 | the shared result carries the error and is shown; its data stays |
| PinList.ChatPinViewModel.OnPinListSuccess | chatkit-ui/src/main/java/com/netease/yunxin/kit/chatkit/ui/page/viewmodel/ChatPinViewModel.java:151-156 | the pins are sorted newest first in place and shown |
| PinList.ChatPinViewModel.RemovePin | chatkit-ui/src/main/java/com/netease/yunxin/kit/chatkit/ui/page/viewmodel/ChatPinViewModel.java:161-176 | a message without a pin is not unpinned; otherwise the unpin is asked for |
| PinList.ChatPinViewModel.OnRemovePinSuccess | chatkit-ui/src/main/java/com/netease/yunxin/kit/chatkit/ui/page/viewmodel/ChatPinViewModel.java:177-188 | the message's client id is reported and broadcast |
| PinList.ChatPinViewModel.SendForwardMessage | chatkit-ui/src/main/java/com/netease/yunxin/kit/chatkit/ui/page/viewmodel/ChatPinViewModel.java:193-207 | one send of the forward copy without reply and at-mentions, receipts iff needAck && showRead |
| PinList.ChatPinViewModel.SendForwardMessageWithNote | chatkit-ui/src/main/java/com/netease/yunxin/kit/chatkit/ui/page/viewmodel/ChatPinViewModel.java:210-217 | the forward is sent now; the note is queued exactly when it is not blank |
| PinList.ChatPinViewModel.SendTextMessage | chatkit-ui/src/main/java/com/netease/yunxin/kit/chatkit/ui/page/viewmodel/ChatPinViewModel.java:220-237 | one text send, receipts iff needAck && showRead |
| PinList.ChatPinViewModel.OnSendTextError | chatkit-ui/src/main/java/com/netease/yunxin/kit/chatkit/ui/page/viewmodel/ChatPinViewModel.java:251-256 | a black-list refusal saves the local tip; other errors do nothing |
| PinList.ChatPinViewModel.RunPosted | chatkit-ui/src/main/java/com/netease/yunxin/kit/chatkit/ui/page/viewmodel/ChatPinViewModel.java:214-216 | running a queued note sends it |
| PinList.ChatPinViewModel.OnLoginStatus | chatkit-ui/src/main/java/com/netease/yunxin/kit/chatkit/ui/page/viewmodel/ChatPinViewModel.java:263-268 | on login the pins are fetched again |
| PinList.ChatPinViewModel.OnMessageAttachmentDownloadProgress | chatkit-ui/src/main/java/com/netease/yunxin/kit/chatkit/ui/page/viewmodel/ChatPinViewModel.java:291-301 | progress is reported for any message, without a conversation check |
| PinList.ChatPinViewModel.RemoveMessagesByClientId | chatkit-ui/src/main/java/com/netease/yunxin/kit/chatkit/ui/page/viewmodel/ChatPinViewModel.java:402-409 | a removal is shown exactly when the list is not empty |
| PinList.ChatPinViewModel.OnMessageDeletedNotifications | chatkit-ui/src/main/java/com/netease/yunxin/kit/chatkit/ui/page/viewmodel/ChatPinViewModel.java:317-327 | the deleted messages of the page's conversation leave the list, in order |
| PinList.ChatPinViewModel.OnMessageRevokeNotifications | chatkit-ui/src/main/java/com/netease/yunxin/kit/chatkit/ui/page/viewmodel/ChatPinViewModel.java:363-377 | the revoked messages of the page's conversation leave the list, in order |
| PinList.ChatPinViewModel.OnMessagePinNotification | chatkit-ui/src/main/java/com/netease/yunxin/kit/chatkit/ui/page/viewmodel/ChatPinViewModel.java:334-360 | a new pin is filled in whatever its conversation; an unpin of the page's conversation with a client id is reported |
| PinList.ChatPinViewModel.OnFillPinSuccess | chatkit-ui/src/main/java/com/netease/yunxin/kit/chatkit/ui/page/viewmodel/ChatPinViewModel.java:424-441 | the filled pin is sorted newest first in place and added |
| ConversationList.KeepFirstIds | conversationkit-ui/src/main/java/com/netease/yunxin/kit/conversationkit/ui/page/viewmodel/ConversationViewModel.java:442-458 | the ids kept are the ids of the input |
| ConversationList.KeepFirstUnique | conversationkit-ui/src/main/java/com/netease/yunxin/kit/conversationkit/ui/page/viewmodel/ConversationViewModel.java:442-458 | no two kept conversations share an id |
| ConversationList.FirstOccurrenceKept | conversationkit-ui/src/main/java/com/netease/yunxin/kit/conversationkit/ui/page/viewmodel/ConversationViewModel.java:442-458 | the first occurrence of every id is kept |
| ConversationList.KeptIsFirstOccurrence | conversationkit-ui/src/main/java/com/netease/yunxin/kit/conversationkit/ui/page/viewmodel/ConversationViewModel.java:442-458 | only first occurrences are kept, in input order |
| ConversationList.KeepFirstIdempotent | conversationkit-ui/src/main/java/com/netease/yunxin/kit/conversationkit/ui/page/viewmodel/ConversationViewModel.java:442-458 | removing repeats twice is removing them once |
| ConversationList.KeepFirstOfUnique | conversationkit-ui/src/main/java/com/netease/yunxin/kit/conversationkit/ui/page/viewmodel/ConversationViewModel.java:442-458 | a list without repeats is left as it is |
| ConversationList.CheckConversationAndRemove | conversationkit-ui/src/main/java/com/netease/yunxin/kit/conversationkit/ui/page/viewmodel/ConversationViewModel.java:442-458 | the in-place index-- loop leaves exactly the first occurrence of every id, in order |
| ConversationList.ChangePartition | conversationkit-ui/src/main/java/com/netease/yunxin/kit/conversationkit/ui/page/viewmodel/ConversationViewModel.java:335-365 | every changed conversation is either deleted (a dismiss or leave) or updated, never both and never lost |
| ConversationList.AitFetchType | conversationkit-ui/src/main/java/com/netease/yunxin/kit/conversationkit/ui/page/viewmodel/ConversationViewModel.java:96-101 | an arrival or a load adds at-mentions; any other event removes them |
| ConversationList.ConversationViewModel.constructor | conversationkit-ui/src/main/java/com/netease/yunxin/kit/conversationkit/ui/page/viewmodel/ConversationViewModel.java:73-79 | offset 0, more to load, no query running |
| ConversationList.ConversationViewModel.LoadMore | conversationkit-ui/src/main/java/com/netease/yunxin/kit/conversationkit/ui/page/viewmodel/ConversationViewModel.java:167-170 | the next page is asked for from the stored offset |
| ConversationList.ConversationViewModel.GetConversationByPage | conversationkit-ui/src/main/java/com/netease/yunxin/kit/conversationkit/ui/page/viewmodel/ConversationViewModel.java:177-186 | while a query runs nothing is asked; otherwise the guard is raised and one page of 50 asked for |
| ConversationList.ConversationViewModel.OnPageError | conversationkit-ui/src/main/java/com/netease/yunxin/kit/conversationkit/ui/page/viewmodel/ConversationViewModel.java:189-192 | only the guard drops |
| ConversationList.ConversationViewModel.OnPageSuccess | conversationkit-ui/src/main/java/com/netease/yunxin/kit/conversationkit/ui/page/viewmodel/ConversationViewModel.java:195-219 | Add after offset 0, else Init; with a page: repeats dropped, hasMore iff 50 remain, offset moved on; the guard always drops |
| ConversationList.ConversationViewModel.CreateConversationBean | conversationkit-ui/src/main/java/com/netease/yunxin/kit/conversationkit/ui/page/viewmodel/ConversationViewModel.java:431-440 | one bean per conversation, in order |
| ConversationList.ConversationViewModel.OnConversationChanged | conversationkit-ui/src/main/java/com/netease/yunxin/kit/conversationkit/ui/page/viewmodel/ConversationViewModel.java:329-366 | null or empty does nothing; dismissed ones are deleted with a request each, others updated; each list is shown only when not empty |
| ConversationList.ConversationViewModel.AitNotify | conversationkit-ui/src/main/java/com/netease/yunxin/kit/conversationkit/ui/page/viewmodel/ConversationViewModel.java:90-108 | no list, no event; otherwise the listed conversations with AitFetchType |
| TeamSettings.MuteModeOf | teamkit-ui/src/main/java/com/netease/yunxin/kit/teamkit/ui/viewmodel/TeamSettingViewModel.java:362-365 | reminding maps to mute OFF and not reminding to mute ON |
| TeamSettings.TransferTargetIsFirstOther | teamkit-ui/src/main/java/com/netease/yunxin/kit/teamkit/ui/viewmodel/TeamSettingViewModel.java:263-268 | the target is the first present member other than the owner; the owner's own account when there is none |
| TeamSettings.TeamSettingViewModel.QuitTeam | teamkit-ui/src/main/java/com/netease/yunxin/kit/teamkit/ui/viewmodel/TeamSettingViewModel.java:231-238 | the owner takes the hand-over path, anyone else leaves |
| TeamSettings.TeamSettingViewModel.CreatorQuitTeam | teamkit-ui/src/main/java/com/netease/yunxin/kit/teamkit/ui/viewmodel/TeamSettingViewModel.java:245-253 | nothing for an empty team id; otherwise the members are fetched |
| TeamSettings.TeamSettingViewModel.OnMembersSuccess | teamkit-ui/src/main/java/com/netease/yunxin/kit/teamkit/ui/viewmodel/TeamSettingViewModel.java:255-290 | null or at most one member dismisses the team; otherwise it is handed, leaving, to TransferTarget when that is not empty |
| TeamSettings.TeamSettingViewModel.OnMembersError | teamkit-ui/src/main/java/com/netease/yunxin/kit/teamkit/ui/viewmodel/TeamSettingViewModel.java:293-296 | the error is reported as the quit result |
| TeamSettings.TeamSettingViewModel.OnQuitSuccess | teamkit-ui/src/main/java/com/netease/yunxin/kit/teamkit/ui/viewmodel/TeamSettingViewModel.java:276-281 | the team is announced gone and the quit reported |
| TeamSettings.TeamSettingViewModel.OnTransferError | teamkit-ui/src/main/java/com/netease/yunxin/kit/teamkit/ui/viewmodel/TeamSettingViewModel.java:284-287 | the error is reported as the quit result |
| TeamSettings.TeamSettingViewModel.LeaveTeamById | teamkit-ui/src/main/java/com/netease/yunxin/kit/teamkit/ui/viewmodel/TeamSettingViewModel.java:305-309 | the leave is asked for |
| TeamSettings.TeamSettingViewModel.OnLeaveError | teamkit-ui/src/main/java/com/netease/yunxin/kit/teamkit/ui/viewmodel/TeamSettingViewModel.java:318-324 | the no-other-member code dismisses the team instead; any other code is reported |
| TeamSettings.TeamSettingViewModel.DismissTeam | teamkit-ui/src/main/java/com/netease/yunxin/kit/teamkit/ui/viewmodel/TeamSettingViewModel.java:334-352 | the team is announced gone before the dismissal is asked for |
| TeamSettings.TeamSettingViewModel.OnDismissResult | teamkit-ui/src/main/java/com/netease/yunxin/kit/teamkit/ui/viewmodel/TeamSettingViewModel.java:341-350 | success or the error code is reported |
| TeamSettings.TeamSettingViewModel.SetTeamNotify | teamkit-ui/src/main/java/com/netease/yunxin/kit/teamkit/ui/viewmodel/TeamSettingViewModel.java:360-370 | the mute mode MuteModeOf names is asked for |
| TeamSettings.TeamSettingViewModel.OnSetTeamNotifyResult | teamkit-ui/src/main/java/com/netease/yunxin/kit/teamkit/ui/viewmodel/TeamSettingViewModel.java:372-381 | success reports the requested switch, failure its code |
| TeamSettings.TeamSettingViewModel.StickTop | teamkit-ui/src/main/java/com/netease/yunxin/kit/teamkit/ui/viewmodel/TeamSettingViewModel.java:391-400 | no session: error -1 and no request; otherwise the team's conversation is pinned or unpinned |
| TeamSettings.TeamSettingViewModel.OnStickTopResult | teamkit-ui/src/main/java/com/netease/yunxin/kit/teamkit/ui/viewmodel/TeamSettingViewModel.java:402-411 | success reports the requested state, failure the previous one |
| TeamSettings.TeamSettingViewModel.RequestStickAndNotify | teamkit-ui/src/main/java/com/netease/yunxin/kit/teamkit/ui/viewmodel/TeamSettingViewModel.java:90-99 | the team's conversation is asked for |
| TeamSettings.TeamSettingViewModel.OnStickAndNotifySuccess | teamkit-ui/src/main/java/com/netease/yunxin/kit/teamkit/ui/viewmodel/TeamSettingViewModel.java:101-108 | pinned is the conversation's stick flag and reminded is its negated mute flag |
| UserProfile.ChangeFetchType | contactkit-ui/src/main/java/com/netease/yunxin/kit/contactkit/ui/userinfo/UserInfoViewModel.java:73-86 | add shows Add, delete Remove, update Update; any other change shows nothing |
| UserProfile.AddModeOf | contactkit-ui/src/main/java/com/netease/yunxin/kit/contactkit/ui/userinfo/UserInfoViewModel.java:229-232 | a direct add adds; anything else applies |
| UserProfile.NormalisedAlias | contactkit-ui/src/main/java/com/netease/yunxin/kit/contactkit/ui/userinfo/UserInfoViewModel.java:267 | a null or empty alias is sent as "" |
| UserProfile.LatestChangeIsLastShown | contactkit-ui/src/main/java/com/netease/yunxin/kit/contactkit/ui/userinfo/UserInfoViewModel.java:76-88 | the friend-change result left behind is the last one shown, or the old one when nothing was shown |
| UserProfile.ChangesForOnlyAccount | contactkit-ui/src/main/java/com/netease/yunxin/kit/contactkit/ui/userinfo/UserInfoViewModel.java:76-88 | only entries of the page's account are shown, each from the list and with the mapped change |
| UserProfile.ChangesForShowsAccount | contactkit-ui/src/main/java/com/netease/yunxin/kit/contactkit/ui/userinfo/UserInfoViewModel.java:76-88 | every entry of the page's account is shown |
| UserProfile.UserInfoViewModel.constructor | contactkit-ui/src/main/java/com/netease/yunxin/kit/contactkit/ui/userinfo/UserInfoViewModel.java:49-55 | `init(account)`: nothing loaded yet |
| UserProfile.UserInfoViewModel.OnFriendChange | contactkit-ui/src/main/java/com/netease/yunxin/kit/contactkit/ui/userinfo/UserInfoViewModel.java:69-91 | an add, delete or update shows ChangesFor and leaves LatestChange; any other change does nothing |
| UserProfile.UserInfoViewModel.OnUserInfoChanged | contactkit-ui/src/main/java/com/netease/yunxin/kit/contactkit/ui/userinfo/UserInfoViewModel.java:57-64 | the changed profiles are shown as a finished update |
| UserProfile.UserInfoViewModel.GetUserWithFriend | contactkit-ui/src/main/java/com/netease/yunxin/kit/contactkit/ui/userinfo/UserInfoViewModel.java:111-119 | nothing is asked for an empty account |
| UserProfile.UserInfoViewModel.OnGetUserWithFriendError | contactkit-ui/src/main/java/com/netease/yunxin/kit/contactkit/ui/userinfo/UserInfoViewModel.java:121-125 | the shared result carries the error and is posted |
| UserProfile.UserInfoViewModel.OnGetUserWithFriendSuccess | contactkit-ui/src/main/java/com/netease/yunxin/kit/contactkit/ui/userinfo/UserInfoViewModel.java:128-147 | no result or no profile: error -1; otherwise success with isFriend = repo says friend and a friend entry exists, then a refresh from the server |
| UserProfile.UserInfoViewModel.UpdateUserInfoFromCloud | contactkit-ui/src/main/java/com/netease/yunxin/kit/contactkit/ui/userinfo/UserInfoViewModel.java:152-158 | nothing for an empty account; otherwise a refresh of that one account |
| UserProfile.UserInfoViewModel.AddBlack | contactkit-ui/src/main/java/com/netease/yunxin/kit/contactkit/ui/userinfo/UserInfoViewModel.java:170-175 | adding to the block list is asked for |
| UserProfile.UserInfoViewModel.RemoveBlack | contactkit-ui/src/main/java/com/netease/yunxin/kit/contactkit/ui/userinfo/UserInfoViewModel.java:189-194 | removal from the block list is asked for |
| UserProfile.UserInfoViewModel.DeleteFriend | contactkit-ui/src/main/java/com/netease/yunxin/kit/contactkit/ui/userinfo/UserInfoViewModel.java:208-213 | the friend is deleted together with the alias |
| UserProfile.UserInfoViewModel.OnBlockChangeSuccess | contactkit-ui/src/main/java/com/netease/yunxin/kit/contactkit/ui/userinfo/UserInfoViewModel.java:181-185 | the account is loaded again |
| UserProfile.UserInfoViewModel.OnRelationChangeError | contactkit-ui/src/main/java/com/netease/yunxin/kit/contactkit/ui/userinfo/UserInfoViewModel.java:176-179 | the shared result keeps the error but is not posted |
| UserProfile.UserInfoViewModel.AddFriend | contactkit-ui/src/main/java/com/netease/yunxin/kit/contactkit/ui/userinfo/UserInfoViewModel.java:227-254 | a blocked account is only taken off the block list now; any other is added at once with AddModeOf |
| UserProfile.UserInfoViewModel.OnUnblockForAddSuccess | contactkit-ui/src/main/java/com/netease/yunxin/kit/contactkit/ui/userinfo/UserInfoViewModel.java:246-249 | after the unblock the account is added with AddModeOf |
| UserProfile.UserInfoViewModel.OnUnblockForAddError | contactkit-ui/src/main/java/com/netease/yunxin/kit/contactkit/ui/userinfo/UserInfoViewModel.java:239-243 | the caller hears the error and nothing is added |
| UserProfile.UserInfoViewModel.UpdateAlias | contactkit-ui/src/main/java/com/netease/yunxin/kit/contactkit/ui/userinfo/UserInfoViewModel.java:265-269 | the alias NormalisedAlias names is set |
| UserProfile.AddFriendSequencing | contactkit-ui/src/main/java/com/netease/yunxin/kit/contactkit/ui/userinfo/UserInfoViewModel.java:233-253 | for a blocked account the requests are the unblock, then the add only when the unblock succeeded |

## Left out

- The IM SDK and the repositories behind it are not part of this model: ChatRepo, ConversationRepo, TeamRepo, ContactRepo, SettingRepo and the login state. Each call is an entry in `requests`, and each outcome is a separate callback method the caller invokes with any result.
- Listener registration and removal (`addListener`, `removeListener`, `registerObserver`, `onCleared`) is left out. Every push is assumed to reach the view model.
- Timing is not modelled. The 500 ms delay of follow-up notes and `Handler.post`/`postDelayed` become an ordered `posted` queue. `SystemClock.elapsedRealtime` and `System.currentTimeMillis` are parameters (`clock`, `now`).
- `P2PChat.ChatP2PViewModel.OnReceiveCustomNotifications` logs every typing `postValue` when it is called. LiveData delivers only the latest value still pending when the main thread runs, so observers of one batch may see only its last state; that coalescing is not modelled. The same holds for the `postValue` calls of `UserProfile.UserInfoViewModel.OnGetUserWithFriendError` and `UserProfile.UserInfoViewModel.OnGetUserWithFriendSuccess`.
- `ChatTimeline.ChatBaseViewModel.SendMessageStrExtension` sends a copy carrying the server extension. The source writes the extension onto the caller's message object, which the caller then sees; that in-place change is not modelled.
- Logging (`ALog`), toasts and Android string resources are left out. Error messages are dropped and only error codes are kept.
- The extension keys, `ChatKitUIConstant.CHAT_FORWARD_ABSTRACTS_LIMIT`, `ERROR_CODE_IN_BLACK_LIST`, `ResponseCode.RES_IN_BLACK_LIST` and `ERROR_CODE_QUIT_TEAM_NO_MEMBER` are defined outside the modelled files. The keys are strings named after their constants, the error codes are constants without a value, and the abstracts limit is a parameter.
- `FetchResult` is not part of this model. `setError` is taken to set the status to error and keep the code, as its name and its uses say.
- Conversation ids are a pair of type and target rather than the SDK's string encoding. `V2NIMConversationIdUtil` is not part of this model.
- JSON is not interpreted. A server or local extension is an `Option` of a key-to-value map. An absent, empty or unparsable extension is `None`.
- The typing notification's content is the integer under "typing", or `None` when it does not decode (the JSONException path).
- `MessageHelper.CreateForwardMessageListFileDetail` treats the serialisers (`V2NIMMessageConverter.messageSerialization`, the header's `JSONObject.toString`, `NIMClient.getSDKVersion`) as parameters. The line-splitting lemmas assume their output holds no raw line break, which JSON text guarantees.
- `MessageHelper.CreateMultiForwardMsg` reads names and avatars from a `Directory` value standing for the current user, `ChatUserCache` and `FriendUserCache`. The null pointer the team branch would raise for a sender without a team-member entry is not modelled. The message list is an array of message values: two entries that are the same Java object are not modelled as aliases.
- `MessageHelper.CreateMultiTransmitAttachment`: `ChatBriefUtils.customContentText` is a parameter (`brief`).
- `MessageHelper.IdentifyAtExpression` returns the highlighted spans instead of setting `ForegroundColorSpan`s. Emoji replacement (`replaceEmoticons`, `identifyExpression`) is left out. Text is a sequence of Unicode scalar values; `MessageHelper.Utf16Length` recovers Java's UTF-16 `length()` from it, so the range check counts as the source does.
- `MessageHelper.IdentifyAtExpressionInMessage`: `getAitBlockFromMsg` is modelled as reading the at-mention entry of the server extension.
- `MessageHelper.CanRevokeEdit`: the rich-text test (`isRichTextMsg`) is an attachment tag on the message.
- `ChatTimeline.ChatBaseViewModel.SendForwardMessages`, `PinList.ChatPinViewModel.SendForwardMessage`: `V2NIMMessageCreator.createForwardMessage` is modelled as a copy of the message. Its reply and at-mention entries are then cleared.
- `ConversationList.ConversationViewModel.OnPageSuccess` assumes no comparator is set. Sorting with a custom comparator (`setComparator`) is left out, and it does not change the page size that `hasMore` reads.
- `ConversationList.ConversationViewModel.OnConversationChanged`: `ConversationUtils.isDismissTeamMsg` is a flag on the conversation. The conversation factory's beans only carry the conversation.
- Other conversation-list operations are left out because they only forward to the SDK or show the result: `getUnreadCount`, `getConversationData`, `addStickTop`, `removeStick`, `onConversationCreated`, `onConversationDeleted`, the team listener with its delayed deletion, and `onTotalUnreadCountChanged`.
- `ChatTimeline.ChatBaseViewModel.OnReceiveMessages` requires a non-empty batch, because the source reads the first message without a check.
- Other chat-page operations are left out because they only build a message and send it: the media and text send variants, `sendMultiForwardMessage`, `replyMessage`, `addMessagePin`/`removeMsgPin`, the friend and user listeners, and `addMsgCollection`.
- `ChatP2PViewModel` extends `ChatBaseViewModel`. Here `P2PChat.ChatP2PViewModel` holds only the inherited fields it reads, and the inherited behaviour is `ChatTimeline.ChatBaseViewModel`.
- The team id of `TeamSettingViewModel` comes from `TeamBaseViewModel`, which is not part of this model, and `IMKitClient.account()` is a field. Team name, introduction, nickname, icon and mute-all updates are left out; they forward one request each.
- `UserProfile.UserInfoViewModel.AddFriend` takes the block-list answer (`isBlackList`) as a parameter. The caller's callback is an event (`AddFriendFailed`) on failure, and the add request itself on success.
- `P2PChat.ReceiptTimeMonotone`, `P2PChat.ReceiptAtMostOnce`, `MessageHelper.RevokeEditWindow` and the tombstone lemmas state properties that follow directly from their definitions. They are kept as the statements the source promises, and `P2PChat.ReceiptRunMarksIncreasing` carries the proof over whole runs.
- `ChatTimeline.ChatBaseViewModel.OnListFetchSuccess`: history pages are sometimes described as tagged Init or Add. The code never sets a fetch type on `messageFetchResult`, only the index hint (0 for older pages, -1 for newer), and the model follows the code.
