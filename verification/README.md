# lan-chat: a verified model

lan-chat is a group chat for local networks. A gateway keeps groups, rooms, members and encrypted messages in one
SQLite database and serves any number of sessions; members of a group also open encrypted private links to each other,
without the gateway. This project models the parts of it whose correctness is a matter of protocol and state, and
proves what they promise.

- **Private chat** (`src/direct.rs`). `DirectHub` is one client's hub: a class whose handlers update its links in place,
  proved against a step function. `DirectGate` lets the peers send anything at all and bounds what one hub sends and
  shows per link. `DirectNetwork` puts any number of honest hubs and connections together, with simultaneous opens,
  stale links, refused connections and streams cut anywhere; `DirectConversation` shows that its states are reached, and
  `DirectEvents` says what each user is told: from whom and to whom a message is, why one was refused, what is over.
- **The gateway store** (`src/storage.rs`). `Store` is the relational state machine: tables, constraints, and each
  operation as one step under the store's mutex. `GatewayStore` is the object whose methods run the statements one by
  one and roll back. `StoreCredentials`, `StoreAdmission`, `StoreApprovals`, `StoreMembers`, `StoreLimits`, `StoreRooms`
  and `StoreMessages` prove what holds over every run of operations; `StoreAnswers` gives the meaning of every answer
  and `StoreRotation` says who may replace which token. `BodyCipher` is the encryption of message bodies.
- **The gateway's memory** (`src/server.rs`). `RoomCreation` interleaves any number of room creators at await points,
  with the store's own `create_room` inside. `Sessions` is the registry of joined rooms, as functions and as a class
  that uses the store object, `SessionGuarantees` what it promises over whole runs, and `SessionAnswers` what each
  answer to a session means and what then takes effect. `HistoryFitting`, `Frames` and `Json` are the history budget and
  the byte bounds of frames, which `GatewayFrames` proves of every frame built in a reachable state; `JsonReading` and
  `FrameReading` read frames back. `HistoryPaging` is the history queries, the pages and a client reading them.
  `RateLimiter` is the fixed-window limiter.
- **The text sanitizer** (`src/security.rs`), in `Sanitizer` and `Text`, on which the others rely.

Identifiers and tokens drawn at random are inputs; theorems that need them to be unique say so (`FreshRun`, `FreshOp`,
`FreshMembership`). The credential hash is injective and the body cipher ideal. The clock, the network, dialling and the
outcome of queueing are inputs of the steps that ask for them. `dafny verify dfyconfig.toml` checks the whole project.

Four claims one might make about the code are false, and are recorded with their exact conditions:

- Sanitizing a single line twice can change it, because it is trimmed before it is filtered
  (`Sanitizer.LineSanitizerIsNotIdempotent`); `Sanitizer.LineSanitizerFixpoint` says exactly when a second pass changes nothing.
- A banned member's room grants can change: the store lets it open a private room of its own, and that is the only way
  (`StoreMembers.ABannedMemberCanGainAGrant`, `StoreMembers.BannedGrantsChangeOnlyByOwnRoom`).
- An approval does not always admit its holder. With a fresh membership drawn it admits if and only if the group has
  room, and is gone either way (`StoreLimits.ApprovalAdmitsUnlessFull`, with a full group in
  `StoreLimits.AnApprovalCanAdmitNobody`); the conservation law counts the approvals lost this way.
- A group can pass 10,000 rows. It does so if and only if it is full, has an administrator hash but no administrator row,
  and the administrator's token is presented (`StoreLimits.OnlyTheFirstAdministratorPassesTheLimit`, with a run to row
  10,001 in `StoreLimits.TheLimitCanBePassed`); a group created here never does
  (`StoreMembers.CreatedGroupsStayWithinLimit`).

## Model

| member | source | states |
|---|---|---|
| DirectNetwork.JointStates | src/direct.rs:218-381 | in every reachable state of any number of hubs, a connection installed at both ends is in one of four joint states, with exactly what may be in flight in each |
| DirectNetwork.ShownIsAPrefixOfSent | src/direct.rs:287-306 | on every connection and in both directions the messages shown are a prefix of those queued: same ids, times and text, also across cuts |
| DirectNetwork.LiveEndsShowEveryMessage | src/direct.rs:334-370 | between honest ends no dropping branch runs on a live link: the next message is shown unchanged, and an uncut stream loses nothing |
| DirectNetwork.ActiveMeansAnswered | src/direct.rs:338-355 | an initiator is Active only if the responder installed this very connection and answered on it, simultaneous opens included |
| DirectNetwork.DeadStaysDead | src/direct.rs:327-337 | a connection end whose hub refused or removed the link shows nothing more and is never installed again, in every later run |
| DirectNetwork.RefusedConnectionIsInert | src/direct.rs:318-326 | a responder that finds its slot occupied leaves the connection dead: its stream changes no link of any hub and its initiator never becomes Active |
| DirectNetwork.StepKeepsInvariant | src/direct.rs:202-381 | every step of the network keeps the invariant that ties link states to streams and histories |
| DirectConversation.ConversationCanBeEstablished | src/direct.rs:218-381 | any two members and clean texts have a run that ends Active at both ends with exactly the opening and the answer shown |
| DirectGate.InitiatorWaitsForReply | src/direct.rs:255-285 | whatever the peer sends, a link opened here carries no second message before one arrived on it, and never rests in state New |
| DirectGate.RecipientIsNotFlooded | src/direct.rs:338-355 | whatever the peer sends, a link opened by the peer sends nothing before a message arrived and shows at most one before this side answers |
| DirectGate.RemovedLinkIsInert | src/direct.rs:334-337 | once a drawn link id has no link it never has one again, and nothing under it is sent or shown |
| DirectGate.InertStep | src/direct.rs:334-377 | a message or disconnect under a stale link id changes nothing and emits nothing |
| DirectHub.Hub.HandleSend | src/direct.rs:218-306 | the send branch: sanitize, dial if needed, gate, queue, show, in that order and with each failure's event |
| DirectHub.Hub.HandlePeerLeft | src/direct.rs:308-315 | a departed member's link is removed and reported |
| DirectHub.Hub.HandleConnected | src/direct.rs:318-326 | an announced link is installed only in an empty slot |
| DirectHub.Hub.HandleIncoming | src/direct.rs:327-371 | the receive branch: link id, gate, sanitize, show |
| DirectHub.Hub.HandleDisconnected | src/direct.rs:372-378 | only the link with this id is removed |
| DirectHub.Hub.Loop | src/direct.rs:202-381 | the event loop computes links, events and queued messages of the whole run |
| DirectEvents.ReceivedMessagesAreAttributed | src/direct.rs:327-371 | in every run of the network, a message a delivery shows names as sender the member at the other end of its connection and as recipient the receiving hub, is the next message of its stream, and awaits the reader exactly if the reader was written to and has not sent |
| DirectEvents.OnlyArrivalsAreShown | src/direct.rs:327-371 | nothing but a message arriving on the link in place is shown as received |
| DirectEvents.SentMessagesAreAttributed | src/direct.rs:218-306 | in every run, a queued message is shown to its sender as the same message, from the sender to the member meant, on a connection between those two, and awaits an answer exactly if it opened the conversation |
| DirectEvents.RefusalsTellTheReason | src/direct.rs:218-306 | over every run of a hub against any peers each failure of a send is reported exactly in its own case, and a message is queued exactly in the remaining one |
| DirectEvents.ClosingsAreReported | src/direct.rs:308-381 | a conversation is reported closed if and only if its link goes without a send of this side at fault |
| Sanitizer.SanitizeChatText | src/security.rs:84-112 | the loop computes the loop-free definition, with both early errors |
| Sanitizer.AcceptedChatIsClean | src/security.rs:84-112 | an accepted text has no forbidden character, no blank end, at most 4096 bytes and 40 lines |
| Sanitizer.SanitizingFixesExactlyCleanChat | src/security.rs:84-112 | the texts left unchanged are exactly the clean ones |
| Sanitizer.SanitizingChatIsIdempotent | src/security.rs:84-112 | re-sanitizing an accepted text neither changes nor rejects it |
| Sanitizer.AcceptedChatIsTheInput | src/security.rs:84-112 | an accepted text is its input at strictly ascending positions: every chat character of the input is kept but the whitespace before the first and behind the last one kept |
| Sanitizer.ChatIsRefusedExactly | src/security.rs:84-112 | a text is refused for its size, its lines or for having nothing to show, each exactly in its case, and accepted otherwise |
| Sanitizer.KeptRanges | src/security.rs:128-133 | the characters a message and a line keep, as ranges of code points |
| Sanitizer.AcceptedLine | src/security.rs:61-82 | an accepted line has 1 to the limit characters and no control character |
| Sanitizer.LineIsTheTrimmedInput | src/security.rs:61-82 | a line is the permitted characters of the trimmed input, all of them and in order, with breaks and tabs as spaces, refused exactly if there are none or too many |
| Sanitizer.LineSanitizerIsNotIdempotent | src/security.rs:61-82 | an input whose sanitized line is changed by a second pass |
| Sanitizer.LineSanitizerFixpoint | src/security.rs:61-82 | a second pass changes nothing if and only if the first and last surviving characters are not whitespace |
| Store.PerformKeepsConstraints | src/storage.rs:1313-1395 | no operation, whatever ids it is given, leaves tables the schema would refuse |
| Store.JoinEffect | src/storage.rs:285-405 | a join renames the row its credential is on, admits one row, spends a request or changes nothing, each only when justified and with its answer |
| GatewayStores.GatewayStore.CreateGroupWithAccess | src/storage.rs:185-262 | the statements in order, rolled back on failure, compute the specified tables and answer |
| GatewayStores.GatewayStore.Authorize | src/storage.rs:285-409 | the member lookup, the administrator fallback and the access modes in the source's order compute the specified tables and answer |
| GatewayStores.GatewayStore.Issue | src/storage.rs:1551-1571 | a new ordinary row below the limit of 10,000 |
| GatewayStores.GatewayStore.RequestToJoin | src/storage.rs:411-456 | a pending request below the limit of 256 in an approval group |
| GatewayStores.GatewayStore.Decide | src/storage.rs:516-535 | only a pending request of the group is decided, and the answer says whether one was |
| GatewayStores.GatewayStore.Rename | src/storage.rs:458-481 | only an existing row of the group is renamed |
| GatewayStores.GatewayStore.Ban | src/storage.rs:759-779 | only an ordinary row of the group changes its status |
| GatewayStores.GatewayStore.Rotate | src/storage.rs:781-861 | the permitted kind of token is replaced in group and row together |
| GatewayStores.GatewayStore.AddRoom | src/storage.rs:620-679 | the room and its owner's entry are inserted together or not at all |
| GatewayStores.GatewayStore.ShareRoom | src/storage.rs:955-1025 | the checks in order, then at most the target's entry |
| GatewayStores.GatewayStore.Append | src/storage.rs:1027-1083 | count, seal, insert; a refused insert takes the count back |
| StoreCredentials.CredentialsHaveASingleHome | src/storage.rs:185-251 | in every reachable store each live hash belongs to one group and one purpose, and administrator rows are active and match their group |
| StoreCredentials.EmptyDatabaseIsOpened | src/storage.rs:1313-1395 | an empty database is a start from which the run theorems hold |
| StoreCredentials.RetiredTokensNeverReturn | src/storage.rs:304-405 | once a hash has no home, no later run lets its token into any group |
| StoreCredentials.RotationRetiresTheOldToken | src/storage.rs:781-861 | a rotation retires exactly the token it replaces and installs the new one in the same place |
| StoreCredentials.AdmissionSpendsTheRequest | src/storage.rs:385-392 | an approved request presented is gone and its token retired, also when the member limit is answered |
| StoreCredentials.FallbackRunsOnlyWithoutAdminRow | src/storage.rs:330-349 | the step that inserts an administrator row by fallback finds the group without one and leaves it with one |
| StoreCredentials.FallbackMakesTheAdminRow | src/storage.rs:330-349 | a join makes an administrator row if and only if the administrator's token is on no row and the row id is unused |
| StoreCredentials.FallbackRunsAtMostOnce | src/storage.rs:330-349 | over every run the fallback runs at most once per group, and never for one that has its administrator row |
| StoreCredentials.CreatedGroupNeverFallsBack | src/storage.rs:211-251 | a created group never uses the fallback in any later run |
| StoreCredentials.AdminRowStays | src/storage.rs:765-776 | a group with an administrator row has exactly one in every later state, active and with the group's hash |
| StoreCredentials.CreatedGroupHasAdminRow | src/storage.rs:211-251 | a created group has its administrator row from the start |
| StoreAdmission.AllowedExactlyForLiveCredentials | src/storage.rs:285-405 | a join is allowed if and only if the credential is live for the group and, for new memberships, the group has room |
| StoreAdmission.BanRefusesForGood | src/storage.rs:314-322 | after a ban the member's token is answered Banned through every run without an unban |
| StoreAnswers.AnswersWithoutACredential | src/storage.rs:351-384 | a join without a credential is let in, answered MemberLimit, InviteRequired or ApprovalRequired as the group's mode and room say |
| StoreAnswers.AnswersAreExact | src/storage.rs:304-405 | every answer to a join with a credential is given if and only if the token is what that answer says: on a banned row, meaningless, the token of this pending request, of a rejected one, the administrator's, an active member's, or one that entitles with or without room |
| StoreAnswers.CasesExclude | src/storage.rs:304-405 | a token is never in two of those cases |
| StoreAnswers.AllowedMemberHasItsRow | src/storage.rs:310-330 | whoever is let in has an active row under the name it came with and the role and token it was told, and no other row moved |
| StoreAnswers.IssuedTokenComesBack | src/storage.rs:1551-1571 | the token issued with a membership lets its holder come back as the same member |
| StoreAnswers.RenameReadsBack | src/storage.rs:458-481 | a rename is read back on that row alone, and fails only for a member the group does not have |
| StoreAnswers.BanReadsBack | src/storage.rs:759-779 | a ban or unban is confirmed exactly for an ordinary member of the group and is then what its row says |
| StoreAnswers.AskingWorks | src/storage.rs:411-456 | with a fresh id and token asking to join works exactly in an approval group with fewer than 256 pending requests |
| StoreAnswers.NewRequestIsPending | src/storage.rs:411-456 | a new request bears its name and its token is answered Pending with this request |
| StoreAnswers.DecisionIsAnswered | src/storage.rs:516-535 | after a decision the token is answered Rejected, or admits a new member while there is room |
| StoreAnswers.OnlyPendingRequestsAreDecided | src/storage.rs:516-535 | a decision is confirmed exactly for a pending request of the group, and otherwise changes nothing |
| StoreAnswers.CreatingWorks | src/storage.rs:185-262 | with fresh ids and tokens a group is made if and only if no group has its name in any case of letters |
| StoreAnswers.TokensOfANewGroupWork | src/storage.rs:253-262 | the administrator token of a new group lets its creator in as administrator, and its invitation anybody as a member |
| StoreRotation.RotatingWorks | src/storage.rs:788-861 | with a fresh token a rotation succeeds if and only if the actor may make it: its own token for an active ordinary member, administrator token and invitation for an active administrator |
| StoreRotation.RotatedTokenWorks | src/storage.rs:781-861 | the token answered then lets in the same member, the administrator, or anybody while there is room |
| StoreRotation.OnlyThePermittedReplaceTokens | src/storage.rs:797-802 | over every operation a group's administrator token, its invitation and an ordinary member's token change if and only if one who may rotates that token |
| StoreApprovals.ApprovalsAreConserved | src/storage.rs:371-405 | approvals granted are rows admitted, approved requests stored or approvals spent on a full group, over every run |
| StoreApprovals.SpendingIsAnsweredMemberLimit | src/storage.rs:385-392 | in an approval group MemberLimit is answered if and only if the token is that of an approved request, of nothing else, and the group is full |
| StoreLimits.ApprovalAdmitsUnlessFull | src/storage.rs:385-392 | presenting an approval leaves the member rows as they are if and only if the group is full, and removes the request either way |
| StoreLimits.AnApprovalCanAdmitNobody | src/storage.rs:385-392 | a full approval group in which presenting an approval deletes the request and admits nobody |
| StoreApprovals.PendingNeverExceedsTheLimit | src/storage.rs:431-451 | pending requests of a group never exceed 256 |
| StoreApprovals.RejectionIsFinal | src/storage.rs:522-532 | a rejected request stays rejected with its token forever |
| StoreApprovals.RejectedRequestNeverAdmits | src/storage.rs:400-402 | its holder is answered Rejected in every later state |
| StoreMembers.RowsStayBounded | src/storage.rs:1551-1571 | ordinary rows never exceed 10,000 and all rows 10,001 |
| StoreMembers.CreatedGroupsStayWithinLimit | src/storage.rs:211-251 | a created group never exceeds 10,000 rows in all |
| StoreLimits.OnlyTheFirstAdministratorPassesTheLimit | src/storage.rs:330-349 | a step takes a group past 10,000 rows if and only if it is the administrator's first join to a full group without an administrator row |
| StoreLimits.TheLimitCanBePassed | src/storage.rs:1551-1571 | in any opened public group with an administrator hash and no rows, 10,000 guests and then the administrator make 10,001 rows |
| StoreLimits.AMigratedGroupIsOpened | src/storage.rs:330-349 | such a group exists |
| StoreMembers.OnlyAnUnbanEndsABan | src/storage.rs:759-779 | a ban ends if and only if the step is an explicit unban of this member in its group |
| StoreMembers.BanLasts | src/storage.rs:759-779 | status, credential, role and group of a banned row stay through every run without an unban |
| StoreMembers.BannedTokenIsAlwaysRefused | src/storage.rs:314-322 | meanwhile its token is answered Banned |
| StoreMembers.BannedGrantsChangeOnlyByOwnRoom | src/storage.rs:661-674 | a banned member's room grants change if and only if it opens a private room of its own in an existing group, under a free name and id |
| StoreMembers.GuardsOpenTheRoom | src/storage.rs:627-674 | for an existing member these guards are all a private room needs |
| StoreMembers.ABannedMemberCanGainAGrant | src/storage.rs:661-674 | a store in which that happens |
| StoreRooms.RoomListsHold | src/storage.rs:661-674 | in every reachable store public rooms are unlisted and every private room has exactly one owner |
| StoreRooms.OwnersAreFixed | src/storage.rs:989-1019 | the owner of a private room never changes |
| StoreRooms.SharingChangesOneEntry | src/storage.rs:964-1022 | sharing succeeds if and only if the room is private, the actor its owner or an administrator and the target an active ordinary member; it changes at most the target's entry and answers true if and only if it did |
| StoreRooms.CreationAnswers | src/storage.rs:620-679 | a room is created if and only if its name is free ignoring case, its id new and a private room's creator has a row; each refusal in its own case |
| StoreRooms.AccessViewsAgree | src/storage.rs:880-922 | room listing, access check and the lines of the member listing agree, and the lines are the active members with their names and roles |
| StoreRooms.AccessEndsOnlyByRemoval | src/storage.rs:687-706 | access ends if and only if the step takes the member off the room's list |
| StoreRooms.ShutOutStays | src/storage.rs:989-1019 | an ordinary member not on a private room's list stays off it unless included |
| StoreMessages.MessagesStayNumberedAndReadable | src/storage.rs:1036-1081 | sequences of each room are exactly 1 to next_sequence - 1, each once, and every stored row reads back as the record of the message appended, over every run |
| StoreMessages.AppendOutcome | src/storage.rs:1036-1072 | an append fails if and only if the room is unknown, the id used or the numbers exhausted, and then changes nothing |
| StoreMessages.AppendedReadsBack | src/storage.rs:1052-1143 | a message reads back whole: number, id, sender, room, time and text, but for the sender's private-chat address and a time beyond SQLite's integers |
| StoreMessages.EmptyStoreIsReadable | src/storage.rs:1313-1395 | an empty store satisfies the message invariant |
| StoreMessages.StoredMessagesStay | src/storage.rs:1052-1072 | stored messages never change, nor do the records they read back as |
| StoreMessages.SwappedBodyIsRejected | src/storage.rs:1622-1644 | a stored body put into another message's row is rejected |
| BodyCipher.AadIsInjective | src/storage.rs:1646-1653 | the associated data determines group, room, message and sequence although the room id has no delimiter |
| BodyCipher.BigEndianRoundTrip | src/storage.rs:1646-1653 | a number survives its big-endian bytes |
| BodyCipher.EncryptBody | src/storage.rs:1594-1620 | the body made decrypts to the text at the same coordinates |
| BodyCipher.DecryptBody | src/storage.rs:1622-1644 | a text is answered if and only if the body is that text encrypted at these coordinates |
| BodyCipher.BodyOpensOnlyWhereItWasStored | src/storage.rs:1594-1653 | decryption inverts encryption at the same coordinates and fails at any others |
| RoomCreation.CacheAndTableAgree | src/server.rs:1228-1275 | under any interleaving of creators the table is the cache and at most the lock holder's uncached room, and both hold at most 64 |
| RoomCreation.RoomNamesAreDistinct | src/server.rs:1240-1250 | no two rooms of the group have the same name ignoring ASCII case |
| RoomCreation.PersistNeverMeetsAUsedName | src/storage.rs:627-638 | between check and persist the store's own name check cannot fail |
| RoomCreation.HolderFinishesAlone | src/server.rs:1228-1289 | the lock holder reaches the end of its handler without anyone else |
| RoomCreation.HolderCreatesExactly | src/server.rs:1228-1289 | from every reachable state its four actions persist and cache the room, owned by its creator if private, if and only if there are fewer than 64 rooms, the name and id are free and the owner has a row; otherwise nothing changes |
| RoomCreation.GroupsKeepTheirRooms | src/storage.rs:627-638 | in every reachable store each group, also one made on the way, has its public general room and names distinct ignoring ASCII case |
| RoomCreation.ReloadedGroupIsLoaded | src/server.rs:217-229 | a group read back from any reachable store starts with cache and table in agreement, if it has at most 64 rooms |
| RoomCreation.CreatedGroupIsLoaded | src/server.rs:475-485 | a created group starts with cache and table in agreement |
| Sessions.SessionsStayInOrder | src/server.rs:1292-1371 | in every reachable state each session has joined general, and each joined room exists and is one the member may enter |
| SessionGuarantees.ChatNeverMeetsAnUnknownRoom | src/server.rs:1179-1186 | from any start with numbered rooms the room_not_found branch of a chat is unreachable, and persisting fails only for a used id or exhausted numbers |
| SessionGuarantees.OnlyTheAdmittedAreHeard | src/server.rs:1158-1209 | a delivered message names the peer its session was admitted as, that member may enter the room, and the text is clean |
| SessionGuarantees.RemovalLasts | src/server.rs:1104-1126 | after a confirmed removal, through every run that does not include the member again, no session of it, old or new, can speak in or join the room |
| SessionGuarantees.RoomsStayNumbered | src/server.rs:1187-1207 | every event keeps the rooms numbered without gap or repeat |
| SessionAnswers.ChatAnswers | src/server.rs:1145-1210 | every answer to a chat exactly in its case; a delivered message has the room's next number and its stored row reads back as it |
| SessionAnswers.JoinAnswers | src/server.rs:1292-1372 | every answer to a join request exactly in its case, in terms of the store |
| SessionAnswers.WhatJoiningTakes | src/server.rs:1368-1371 | the rooms a session has joined change exactly by its entry, an answered join or creation, leaving, departing, and a confirmed removal |
| SessionAnswers.AnsweredJoinIsHeard | src/server.rs:1368-1371 | after an answered join every storable clean message of the session in the room is delivered, through every run until one of those events |
| SessionAnswers.CreatorIsHeard | src/server.rs:1264-1289 | the same for the creator of a room, which is in the table from then on |
| SessionAnswers.LeavingSilences | src/server.rs:1433-1451 | after leaving or departing every message there is refused through every run until the session joins again |
| SessionAnswers.EnteredIsHeardInGeneral | src/server.rs:315-325 | while a session stays connected what it says in general is delivered under the sanitized nickname of its hello and the member it was authorized as |
| SessionAnswers.CreateAnswers | src/server.rs:1212-1290 | every answer to a room creation exactly in its case; a free name below the limit succeeds |
| SessionAnswers.ShareAnswers | src/server.rs:1090-1143 | every answer to a change of a private room's list exactly in its case, and the list it leaves |
| SessionAnswers.IncludedMayJoin | src/server.rs:1104-1126 | after a confirmed inclusion every session of the member is let into the room, through every run until it is taken off the list |
| SessionAnswers.AdministratorsMayJoin | src/storage.rs:691-706 | an administrator's sessions are let into every room of the group that there ever is |
| SessionAnswers.DrawnRoomsCanBeNamed | src/storage.rs:643 | every room id the store draws passes the identifier check of requests |
| Sessions.StoreKeepsOrder | src/storage.rs:1238-1253 | no other store operation disturbs a session |
| Sessions.CreatedGroupIsInOrder | src/server.rs:475-485 | a created group satisfies the session invariant before anybody enters |
| Sessions.ReloadedGroupIsInOrder | src/server.rs:217-229 | and so does a group read back from any reachable store |
| Sessions.GroupState.Disconnect | src/server.rs:810-815 | only the departing session leaves the registry |
| Sessions.GroupState.EnterGroup | src/server.rs:555-573 | a session starts in general |
| Sessions.GroupState.HandleJoinRoom | src/server.rs:1292-1345 | the checks in order, then the room is joined |
| Sessions.GroupState.HandleLeaveRoom | src/server.rs:1433-1451 | general cannot be left |
| Sessions.GroupState.HandleCreateRoom | src/server.rs:1212-1290 | limit, name, persist, cache, join, taken as one step |
| Sessions.GroupState.RemoveRoomFromMember | src/server.rs:1543-1555 | every session of the member loses the room, and nothing else changes |
| Sessions.GroupState.HandleSetRoomMember | src/server.rs:1090-1143 | the list changes and the member's sessions follow |
| Sessions.GroupState.HandleRoomChat | src/server.rs:1145-1210 | joined, clean, existing, persisted; never an unknown room |
| HistoryFitting.FitToBudget | src/server.rs:1574-1591 | the greedy pass from the newest message finds the longest fitting suffix |
| HistoryFitting.FittedIsTheLongestFittingSuffix | src/server.rs:1574-1591 | the result is a suffix within 12288 bytes or one message, not empty for a non-empty history, and no longer suffix fits |
| Frames.FitHistoryToFrame | src/server.rs:1574-1591 | the same with the JSON length of each record |
| Frames.RecordBytes | src/protocol.rs:127-135 | a sanitized record takes at most 11,000 bytes of JSON |
| Frames.ChatFrameFits | src/crypto.rs:261-266 | a chat frame fits 16,384 bytes |
| Frames.RoomJoinedFrameFits | src/crypto.rs:261-266 | a room-joined frame with fitted history fits |
| Frames.HistoryPageFrameFits | src/crypto.rs:261-266 | a history page with fitted history fits |
| GatewayFrames.EveryRoomJoinedFrameFits | src/server.rs:1347-1372 | in every reachable state of a group's sessions the reply to joining a room fits its frame |
| GatewayFrames.EveryHistoryPageFrameFits | src/server.rs:1404-1430 | so does every page of older history |
| GatewayFrames.EveryChatFrameFits | src/server.rs:1187-1209 | and every message broadcast |
| GatewayFrames.GroupsStayPresentable | src/server.rs:315-325 | stored rows, admitted peers and cached rooms stay sanitized over every run of events |
| GatewayFrames.CreatedGroupIsPresentable | src/server.rs:475-485 | a created group starts so |
| Frames.DirectChatFrameFits | src/crypto.rs:261-266 | a private message fits |
| Json.QuotedAtMostDouble | src/security.rs:84-133 | text without control characters other than newline and tab at most doubles when quoted |
| JsonReading.StringReadsBack | src/protocol.rs:127-135 | a quoted string is read back as it was, whatever characters it holds |
| FrameReading.RecordReadsBack | src/protocol.rs:127-135 | an encoded record is read back whole |
| FrameReading.ChatFrameReadsBack | src/protocol.rs:252-254 | a broadcast frame is read back as its message |
| FrameReading.RoomJoinedFrameReadsBack | src/protocol.rs:258-261 | the reply to a join is read back as its room and messages in order |
| FrameReading.HistoryPageFrameReadsBack | src/protocol.rs:265-269 | a page is read back as its room, messages in order and flag |
| FrameReading.FittedHistoryArrives | src/server.rs:1574-1591 | the client reads exactly the newest end of the history that was fitted, and at least one message of a non-empty one |
| FrameReading.DirectChatFrameReadsBack | src/direct.rs:154-158 | a private message is read back as it was written |
| HistoryPaging.QueryIsASlice | src/storage.rs:1085-1236 | a history query answers exactly the `limit` messages before its bound, as whole records and in order |
| HistoryPaging.LogOnlyGrows | src/storage.rs:1036-1081 | later operations only lengthen a room's history |
| HistoryPaging.HistoryIsWhatWasAppended | src/storage.rs:1036-1159 | after every run a room's history is what it was before and then, in order, the records of the messages the run appended there |
| HistoryPaging.EveryPageIsTheFittedSlice | src/server.rs:1404-1430 | for every limit a page holds as many as fit of the last 1 to 100 messages before the bound, and says whether there are more |
| HistoryPaging.EveryJoinShowsTheFittedEnd | src/server.rs:1347-1372 | a room is joined with as many as fit of its last 200 messages |
| HistoryPaging.PageStep | src/server.rs:1384-1430 | one request brings the reader strictly further back, with no gap and no message twice |
| HistoryPaging.PagingLeavesNoGap | src/tui.rs:1452-1470 | at every moment of paging the reader holds an unbroken end of the history and knows whether it is all |
| HistoryPaging.PagingReadsEverything | src/server.rs:1384-1430 | within as many requests as there were messages at joining the reader holds exactly messages 1 to n in order, whatever is appended meanwhile |
| HistoryPaging.RoomView.PageUp | src/tui.rs:1452-1470 | asks for what precedes the oldest message held, if more is known and no request is under way |
| HistoryPaging.RoomView.ReceivePage | src/tui.rs:868-891 | puts the messages not held yet in front, in order |
| HistoryPaging.RoomView.TurnPage | src/tui.rs:868-891 | request and page together are one step of the reader |
| RateLimiter.BurstBound | src/server.rs:148-155 | for any clock that does not go back at most twice the limit is allowed in any half-open second |
| RateLimiter.BurstBoundIsReached | src/server.rs:148-155 | a trace in which 48 messages pass within one nanosecond |
| RateLimiter.ViolationsCountTheExcess | src/server.rs:627-648 | the violation counter is the excess over 24, the session closes exactly at the 29th message of a window, and no window counts further |
| RateLimiter.SessionBurstBound | src/server.rs:627-648 | a session has at most 48 messages handled in any second |
| RateLimiter.FixedWindowRateLimiter.Allow | src/server.rs:148-155 | one message: window restarted or not, counted, allowed up to 24 |
| RateLimiter.RunSession | src/server.rs:627-648 | the receive loop computes window, violations and closing of the whole trace |
| RateLimiter.ForwardIncoming | src/direct.rs:573-597 | the link forwards messages up to the first beyond 32 in a window and ends there |
| RateLimiter.LinkBurstBound | src/direct.rs:585-592 | a link forwards at most 64 messages in any second |

## Left out

- The terminal and command-line interfaces, except the paging of one room; a room view that also receives live messages and drops its oldest beyond its limit is not modelled, so paging is that of a view fed by history alone.
- FrameReading.RecordReadsBack: identifiers have 128 bits, and the reader takes fields in the order they are written.
- Noise handshakes, the cipher and the hash themselves: a link is authenticated, the cipher ideal and symbolic, the hash injective.
- Sockets, timeouts, discovery, file permissions, backup and the migration statements; a run starts from any store that meets the stated invariant, such as an empty or freshly created one.
- Crashes between statements and other processes on the database: a store operation is one step.
- Await-level interleaving of handlers other than room creation: each is one step in `Sessions`.
- Delivery and order of gateway broadcasts, `Welcome` and listing frames, and the size of those frames.
- The clocks stored in rows, and the order and pages of listings; listings are sets.
- SQLite failures other than constraint violations and an exhausted sequence number.
- Kicking the sessions of a banned or rotated member: only its token, row and grants are followed.
- `src/credentials.rs`, `src/identity.rs`: map persistence and word lists.
- StoreCredentials.RetiredTokensNeverReturn: assumes that random tokens never repeat a token seen before, which the source leaves to chance.
- HistoryPaging.PagingReadsEverything: the `join` flag of the session is checked in `Sessions`, and the query functions are ghost because they choose rows by their order.
- Frames.ChatFrameFits: takes the bounds of the record as an assumption, as the other two bounds of records and histories there do; `GatewayFrames` proves them of every reachable state.
- GatewayFrames.EveryChatFrameFits: a socket address prints in at most 58 characters, the id drawn for a room is a proper identifier and the clock is a `u64`; these are assumptions on the events.
- Sessions.GroupState.HandleRoomChat: takes the sender from the registry entry, of which the handler's own peer is a copy.
- Sessions.GroupState.HandleCreateRoom: the creation lock is not part of this step; `RoomCreation` has it.
- DirectNetwork.JointStates: the hub's step is atomic, a random link id is the pair of connection and end, and dialling is part of the send that needs it.
