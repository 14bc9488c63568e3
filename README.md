# Kreedia dashboard core, modelled in Dafny

Kreedia is a web dashboard for environmental missions. NGOs propose missions, contributors apply,
carry them out, prove completion with photos, and are paid in stablecoins held by an on-chain
escrow contract that also mints proof NFTs. This project models the logic at the core of the
dashboard and proves what that logic promises:

- `Contract` — the on-chain read layer (`ContractService`). The deployed contract is an oracle
  from call arguments to `Option` values (None: the call failed) behind an optional contract
  handle. The module covers the token resolver (case-insensitive over ASCII letters) and the
  all-or-nothing multi-token earnings aggregation with its last-writer-wins symbol map. It also
  covers the three-key projection that defaults to `"0"` and the single-call accessors, each with
  its own failure default.
- `Store` — the document-store semantics the Firestore services rely on. A collection is a
  map from numeric ids (handed out in creation order) to documents. A query is a conjunction of
  equality filters, an optional order on one numeric field with an optional `startAfter` cursor,
  and an optional limit.
- `MissionUsers` — the `mission_users` collection and its participation state machine
  (APPLIED, ACCEPTED, IN_PROGRESS, COMPLETED, REJECTED, WITHDRAWN). Each service is a
  read-check-write method of `MissionUserService`. The module also covers the derived listings
  and statistics.
- `Missions`, `Users`, `Notifications` — the other three Firestore collections. They cover
  creation defaults, partial updates, listings, the `validatedAt` rule and the expiry sweep, the
  search merge, the notification factories, mark-all-read, the unread count and the age-based
  cleanup.
- `Upload`, `FileUploadHook`, `UploadRoute` — the upload validation guard chains of the client
  service, of the upload hook (with its uploaded-files state) and of the `/api/upload` route.
- `AuthMissionsRoute` — the guard chain and payload of the `/api/auth-missions` route.
- `NotificationsHook` — the notification list state of the notifications hook.
- `UserRoles` — the NGO / contributor role classifier.
- `Wrappers`, `Text`, `Units` — `Option`/`Result`/`Outcome`, decimal rendering and parsing of
  integers, and a reference rendering of `ethers.formatUnits` with its round trip.

Every backend the core talks to is a parameter of the model:
- the blockchain node (`Contract.Chain`);
- the upload server's reply (`Upload.Reply`);
- the mission backend (`AuthMissionsRoute.Post`'s `send`);
- the REST notification calls (`Outcome`/`Result` arguments);
- the clock (`now: nat`, in milliseconds).

Concurrent batches (`Promise.all`) are modelled in their sequential order, which keeps the order
of their results.

## Model

| member | source | states |
|---|---|---|
| Contract.TokenSymbol | lib/blockchain/services/contract.ts:163-173 | UNKNOWN exactly when the address matches none of the three configured addresses, ignoring case |
| Contract.TokenSymbolResolution | lib/blockchain/services/contract.ts:163-173 | the checks run in the order USDC, USDT, DAI: each symbol exactly when its address matches and no earlier one does |
| Contract.TokenDecimals | lib/blockchain/services/contract.ts:151-173 | 6 exactly for the USDC and USDT addresses (ignoring case) and 18 for every other address, so 6 exactly when the resolved symbol is USDC or USDT and 18 otherwise (UNKNOWN included) |
| Contract.ResolutionIgnoresCase | lib/blockchain/services/contract.ts:151-173 | addresses equal after lower-casing get the same symbol and decimals |
| Contract.DefaultAddressesDistinct | lib/api/config.ts:12-16 | the three default token addresses differ even ignoring case |
| Contract.ConfiguredResolution | lib/blockchain/services/contract.ts:151-173 | with distinct addresses, USDC resolves to (USDC, 6), USDT to (USDT, 6) and DAI to (DAI, 18) |
| Contract.MakeTokenInfo | lib/blockchain/services/contract.ts:95-107 | an entry carries its address, the resolved symbol and decimals, and `formatUnits(raw, decimals)` |
| Contract.QueryTokens | lib/blockchain/services/contract.ts:95-109 | a result exactly when every per-token query answers; then one entry per address, in list order, built from that address's raw earnings |
| Contract.SymbolTotals | lib/blockchain/services/contract.ts:112-115 | the key set of the symbol map is the set of the entries' symbols |
| Contract.SymbolTotalsLastWriter | lib/blockchain/services/contract.ts:112-115 | an entry that no later entry shares its symbol with is the value the map keeps: the last writer wins |
| Contract.EarningsAllOrNothing | lib/blockchain/services/contract.ts:89-127 | the empty result exactly when there is no contract or a query fails; otherwise three entries in configured order and the symbol map over their symbols |
| Contract.EarningsSymbols | lib/blockchain/services/contract.ts:95-115 | the symbol map never holds UNKNOWN |
| Contract.ReferenceFormatterRoundTrips | lib/blockchain/services/contract.ts:99 | the reference rendering of `formatUnits` parses back to the amount at every number of decimals |
| Contract.EarningsReadBack | lib/blockchain/services/contract.ts:95-109 | with a round-tripping formatter, each entry's earnings read back at its decimals as the raw amount the chain reported |
| Contract.SharedSymbolKeepsLast | lib/blockchain/services/contract.ts:112-115 | when the USDT address resolves to USDC, the map has keys {USDC, DAI} and USDC holds the USDT entry's earnings |
| Contract.OrZero | lib/blockchain/services/contract.ts:136-138 | a missing or empty map entry reads as "0", any other as itself |
| Contract.ProjectionOnFailure | lib/blockchain/services/contract.ts:131-148 | without a contract or with a failed query the projection is ("0", "0", "0") |
| Contract.ProjectionOnSuccess | lib/blockchain/services/contract.ts:131-148 | with distinct addresses and every query answered, each field is its own token's formatted earnings at 6, 6 and 18 decimals |
| Contract.ContractService.constructor | lib/blockchain/services/contract.ts:45-47 | the handle is whatever provider and contract construction produced |
| Contract.ContractService.InitializeProvider | lib/blockchain/services/contract.ts:49-60 | a failed construction leaves the handle null |
| Contract.ContractService.EnsureContract | lib/blockchain/services/contract.ts:63-68 | the handle when there is one, else the configuration error with its message |
| Contract.ContractService.GetAcceptedTokens | lib/blockchain/services/contract.ts:71-86 | [USDC, USDT, DAI] addresses in that order with a contract, [] without one |
| Contract.ContractService.GetDynamicWorkerEarnings | lib/blockchain/services/contract.ts:89-127 | the two loops compute exactly `DynamicEarnings`, the all-or-nothing aggregation above |
| Contract.ContractService.GetWorkerTotalEarned | lib/blockchain/services/contract.ts:131-148 | the three-key projection of the dynamic earnings, with no chain call of its own |
| Contract.ContractService.GetUserNFTCount | lib/blockchain/services/contract.ts:176-185 | the balance the chain reports, 0 without a contract or on a failed call |
| Contract.ContractService.GetMissionDetails | lib/blockchain/services/contract.ts:188-208 | null exactly on failure; otherwise every struct field copied, the amount, ids and timestamp as decimal strings that parse back to the chain's numbers |
| Contract.ContractService.GetMissionProgress | lib/blockchain/services/contract.ts:211-227 | null exactly on failure; otherwise the flags copied and both NFT ids as decimal strings that parse back |
| Contract.ContractService.HasUserMissionNFT | lib/blockchain/services/contract.ts:230-238 | true exactly when there is a contract and it answers true |
| Contract.ContractService.GetNFTDetails | lib/blockchain/services/contract.ts:241-255 | null exactly on failure; otherwise mission id, photo type (a number) and owner as returned |
| Contract.ContractService.GetTotalSupply | lib/blockchain/services/contract.ts:258-267 | the total supply, 0 without a contract or on a failed call |
| Contract.ContractService.IsTokenAccepted | lib/blockchain/services/contract.ts:270-278 | true exactly when there is a contract and its `acceptedTokens` answers true |
| MissionUsers.Updated | lib/firebase/services/missionUsers.ts:92-101 | `updatedAt` is the new stamp and `createdAt` is kept; every field the patch gives takes the given value (an optional field becomes present) and every field it does not give is unchanged |
| MissionUsers.UpdatedWithNothing | lib/firebase/services/missionUsers.ts:92-101 | an empty patch only moves `updatedAt` |
| MissionUsers.NewMissionUser | lib/firebase/services/missionUsers.ts:32-52 | APPLIED, `appliedAt`, `createdAt` and `updatedAt` all `now`, with `additionalData` spread last so it can override status, ids and `appliedAt` |
| MissionUsers.FreshApplication | lib/firebase/services/missionUsers.ts:37-51 | without additional data the record is a bare application with three equal stamps and no optional field set |
| MissionUsers.NotFound | lib/firebase/services/missionUsers.ts:201-308 | accept and reject report "Mission application not found", the other services "Mission participation not found" |
| MissionUsers.Perform | lib/firebase/services/missionUsers.ts:201-341 | fails exactly when a guarded service finds the wrong status, with that service's message; otherwise the ids and `createdAt` are kept and `updatedAt` is `now` |
| MissionUsers.UnguardedTransitions | lib/firebase/services/missionUsers.ts:201-237 | accept, reject and withdraw succeed from every status, setting ACCEPTED (+`acceptedAt`), REJECTED (+`rejectedAt`, reason) or WITHDRAWN and nothing else |
| MissionUsers.StartTransition | lib/firebase/services/missionUsers.ts:242-256 | start succeeds exactly from ACCEPTED and then only sets IN_PROGRESS |
| MissionUsers.CompleteTransition | lib/firebase/services/missionUsers.ts:261-293 | complete needs IN_PROGRESS, sets COMPLETED and `completedAt`, and stores a stamped proof only when one is supplied |
| MissionUsers.RateTransition | lib/firebase/services/missionUsers.ts:313-341 | rating needs COMPLETED; a proposer's rating goes to `userRating`, any other rater's to `proposerRating`, with the feedback |
| MissionUsers.FindPair | lib/firebase/services/missionUsers.ts:70-87 | none exactly when no record has the pair; otherwise a stored record of the pair, the one with the smallest id |
| MissionUsers.Step | lib/firebase/services/missionUsers.ts:201-341 | a failed call leaves the collection unchanged; no call adds or removes a record |
| MissionUsers.StepOutcome | lib/firebase/services/missionUsers.ts:201-341 | not-found exactly without a record, the status error exactly for the wrong status, otherwise that one record rewritten and every other record untouched |
| MissionUsers.StatsOf | lib/firebase/services/missionUsers.ts:378-404 | `totalApplied` is the number of records, each total counts its status, and the average times the number of truthy ratings is their sum (0 when there are none) |
| MissionUsers.CountsPartition | lib/firebase/services/missionUsers.ts:378-394 | the six per-status counts add up to the number of records |
| MissionUsers.StatsCountsBounded | lib/firebase/services/missionUsers.ts:378-394 | accepted + completed + rejected never exceeds the applications |
| MissionUsers.AverageWithinBounds | lib/firebase/services/missionUsers.ts:396-402 | when every truthy rating lies in [lo, hi], so does the average |
| MissionUsers.ActiveConcat | lib/firebase/services/missionUsers.ts:366-373 | the concatenation holds only records of the two queries, all active and of the user, with every IN_PROGRESS one before every ACCEPTED one |
| MissionUsers.MissionUserService.constructor | lib/firebase/services/missionUsers.ts:26-30 | an empty collection |
| MissionUsers.MissionUserService.ApplyForMission | lib/firebase/services/missionUsers.ts:32-52 | a new record under a fresh id, every other record untouched, the id returned |
| MissionUsers.MissionUserService.GetMissionUserById | lib/firebase/services/missionUsers.ts:57-65 | the stored record exactly when the id exists |
| MissionUsers.MissionUserService.GetMissionUserByUserAndMission | lib/firebase/services/missionUsers.ts:70-87 | none exactly when no record has the pair; otherwise a stored record of that pair |
| MissionUsers.MissionUserService.UpdateMissionUser | lib/firebase/services/missionUsers.ts:92-101 | an existing record gets `Updated`; a missing one is the store's error and nothing changes |
| MissionUsers.MissionUserService.DeleteMissionUser | lib/firebase/services/missionUsers.ts:106-109 | the record is gone, every other record is kept |
| MissionUsers.MissionUserService.Transition | lib/firebase/services/missionUsers.ts:201-341 | the read-check-write does exactly `Step` on the collection |
| MissionUsers.MissionUserService.AcceptApplication | lib/firebase/services/missionUsers.ts:201-216 | exactly `Step` with accept |
| MissionUsers.MissionUserService.RejectApplication | lib/firebase/services/missionUsers.ts:221-237 | exactly `Step` with reject and the reason |
| MissionUsers.MissionUserService.StartMission | lib/firebase/services/missionUsers.ts:242-256 | exactly `Step` with start |
| MissionUsers.MissionUserService.CompleteMission | lib/firebase/services/missionUsers.ts:261-293 | exactly `Step` with complete and the proof |
| MissionUsers.MissionUserService.WithdrawFromMission | lib/firebase/services/missionUsers.ts:298-308 | exactly `Step` with withdraw |
| MissionUsers.MissionUserService.RateMissionParticipant | lib/firebase/services/missionUsers.ts:313-341 | exactly `Step` with the rating, feedback and rater (proposer by default) |
| MissionUsers.MissionUserService.HasUserApplied | lib/firebase/services/missionUsers.ts:346-349 | true exactly when a record exists for the pair |
| MissionUsers.MissionUserService.GetMissionUsers | lib/firebase/services/missionUsers.ts:114-153 | stored records matching every given filter, sorted by the requested field (`createdAt` descending by default), at most `limit` of them |
| MissionUsers.MissionUserService.GetMissionUsersTopN | lib/firebase/services/missionUsers.ts:114-153 | a matching record that carries the order field and is missing means the limit is reached and every listed record precedes it in the requested order: the listing is the first `limit` matches |
| MissionUsers.MissionUserService.GetMissionUsersComplete | lib/firebase/services/missionUsers.ts:114-153 | without a limit and ordered by a field every record has, every matching record comes back |
| MissionUsers.MissionUserService.GetUserMissionsByStatus | lib/firebase/services/missionUsers.ts:158-166 | only the user's stored records with that status |
| MissionUsers.MissionUserService.UserMissionsByStatusComplete | lib/firebase/services/missionUsers.ts:158-166 | every record of the user with that status comes back |
| MissionUsers.MissionUserService.GetMissionApplicants | lib/firebase/services/missionUsers.ts:171-176 | only APPLIED records of the mission; with MissionListingsComplete, every one of them |
| MissionUsers.MissionUserService.GetMissionParticipants | lib/firebase/services/missionUsers.ts:181-186 | only ACCEPTED records of the mission; with MissionListingsComplete, every one of them |
| MissionUsers.MissionUserService.GetCompletedMissionParticipants | lib/firebase/services/missionUsers.ts:191-196 | only COMPLETED records of the mission; with MissionListingsComplete, every one of them |
| MissionUsers.MissionUserService.MissionListingsComplete | lib/firebase/services/missionUsers.ts:171-196 | every record of the mission with status APPLIED, ACCEPTED or COMPLETED is in the applicants, participants or completed listing respectively |
| MissionUsers.MissionUserService.GetUserMissionHistory | lib/firebase/services/missionUsers.ts:354-361 | the user's records, `appliedAt` descending, at most 20 by default; with UserMissionHistoryTopN, the user's latest ones |
| MissionUsers.MissionUserService.UserMissionHistoryTopN | lib/firebase/services/missionUsers.ts:354-361 | a record of the user that is missing means the history holds `limitResults` records, each applied for no earlier than the missing one |
| MissionUsers.MissionUserService.GetUserActiveMissions | lib/firebase/services/missionUsers.ts:366-373 | only the user's IN_PROGRESS and ACCEPTED records, every IN_PROGRESS one first |
| MissionUsers.MissionUserService.ActiveMissionsComplete | lib/firebase/services/missionUsers.ts:366-373 | every active record of the user is listed |
| MissionUsers.MissionUserService.AllOf | lib/firebase/services/missionUsers.ts:385 | `getMissionUsers({ userId })`: exactly the user's stored records |
| MissionUsers.MissionUserService.AllOfCounts | lib/firebase/services/missionUsers.ts:385-393 | that listing holds each of the user's records once: its length is the number of the user's records, and its count of a status the number of the user's records with that status |
| MissionUsers.MissionUserService.GetUserMissionStats | lib/firebase/services/missionUsers.ts:378-404 | `totalApplied` is the number of the user's records and each of `totalAccepted`, `totalCompleted`, `totalRejected` the number of the user's records with that status; the average is 0 when no record of the user carries a truthy rating, and otherwise times their number equals the sum of those ratings; the three totals never exceed `totalApplied` |
| MissionUsers.MissionUserService.StatsAverageWithinBounds | lib/firebase/services/missionUsers.ts:396-402 | when the user has a truthy rating and all of them lie in [lo, hi], the reported average lies in [lo, hi] |
| Missions.NewMission | lib/firebase/services/missions.ts:37-56 | PENDING unless a status is given, visible unless `isVisible` is given, `currentParticipants` 0, both stamps `now`, every other field as given |
| Missions.Updated | lib/firebase/services/missions.ts:82-98 | `updatedAt` is the new stamp and `createdAt` is kept; every field the patch gives takes the given value (an optional field becomes present) and every field it does not give is unchanged |
| Missions.StatusPatch | lib/firebase/services/missions.ts:227-239 | the status always, `validatedAt = now` exactly when the status is VERIFIED and `validatedBy` is truthy, nothing else |
| Missions.StatusUpdate | lib/firebase/services/missions.ts:227-239 | a status update changes the status, `updatedAt` and, for a verification by someone, `validatedAt` only |
| Missions.Expire | lib/firebase/services/missions.ts:299-307 | an expired mission gets status EXPIRED and a new `updatedAt`, nothing else |
| Missions.Swept | lib/firebase/services/missions.ts:299-307 | the sweep keeps the set of missions |
| Missions.SweepLeavesNoneExpired | lib/firebase/services/missions.ts:272-307 | after the sweep no mission is expired |
| Missions.SweepIdempotent | lib/firebase/services/missions.ts:299-307 | a second sweep with the same clock changes nothing |
| Missions.SweepChangesExactlyExpired | lib/firebase/services/missions.ts:272-307 | a mission ends EXPIRED exactly when it was EXPIRED or expired; any other mission is untouched |
| Missions.LastOf | lib/firebase/services/missions.ts:168 | the cursor is the last element of the page, none for an empty page |
| Missions.MissionService.constructor | lib/firebase/services/missions.ts:31-35 | an empty collection |
| Missions.MissionService.CreateMission | lib/firebase/services/missions.ts:37-56 | `NewMission` stored under a fresh id, every other mission untouched |
| Missions.MissionService.GetMissionById | lib/firebase/services/missions.ts:61-77 | the stored mission exactly when the id exists |
| Missions.MissionService.UpdateMission | lib/firebase/services/missions.ts:82-98 | an existing mission gets `Updated`; a missing one is the store's error and nothing changes |
| Missions.MissionService.DeleteMission | lib/firebase/services/missions.ts:103-106 | the mission is gone, every other one kept |
| Missions.MissionService.UpdateMissionStatus | lib/firebase/services/missions.ts:227-239 | the update with `StatusPatch` |
| Missions.MissionService.GetMissions | lib/firebase/services/missions.ts:111-171 | stored missions matching all filters, sorted by the requested field (`createdAt` descending by default), past the cursor, at most `limit`, cursor = last of the page |
| Missions.MissionService.GetMissionsTopN | lib/firebase/services/missions.ts:111-171 | a mission that matches every filter, carries the order field and lies past the cursor yet is missing means the page holds `limit` missions, each preceding it in the order: the page is the first `limit` such missions |
| Missions.MissionService.GetMissionsComplete | lib/firebase/services/missions.ts:111-171 | without a limit or a cursor, every mission matching all filters and carrying the order field is on the page |
| Missions.MissionService.GetAvailableMissions | lib/firebase/services/missions.ts:176-183 | only stored ACTIVE visible missions, newest first, at most 20 by default; with AvailableMissionsTopN, the newest ones |
| Missions.MissionService.AvailableMissionsTopN | lib/firebase/services/missions.ts:176-183 | an ACTIVE visible mission that is missing means the listing holds `limitResults` missions, each created no earlier |
| Missions.MissionService.GetMissionsByProposer | lib/firebase/services/missions.ts:188-194 | only the proposer's stored missions, newest first, at most 20 by default; with MissionsByProposerTopN, the newest ones |
| Missions.MissionService.MissionsByProposerTopN | lib/firebase/services/missions.ts:188-194 | a mission of the proposer that is missing means the listing holds `limitResults` missions, each created no earlier |
| Missions.MissionService.GetExpiredMissions | lib/firebase/services/missions.ts:272-294 | exactly the stored missions with `deadline <= now` that are neither COMPLETED nor EXPIRED |
| Missions.MissionService.MarkExpiredMissions | lib/firebase/services/missions.ts:299-307 | the update loop leaves the collection equal to `Swept` of the old one |
| Users.NewUser | lib/firebase/services/users.ts:32-45 | ACTIVE unless a status is given, `createdAt = updatedAt = now`, every other field as given |
| Users.Updated | lib/firebase/services/users.ts:77-83 | `updatedAt` is the new stamp and `createdAt` is kept; every field the patch gives takes the given value (an optional field becomes present) and every field it does not give is unchanged |
| Users.StatusUpdate | lib/firebase/services/users.ts:130-132 | a status update changes the status and `updatedAt` only |
| Users.FirstIds | lib/firebase/services/users.ts:161-166 | the merged ids are exactly the ids that occur in the matches |
| Users.LastDocs | lib/firebase/services/users.ts:161-166 | one kept document per id that occurs |
| Users.Merged | lib/firebase/services/users.ts:161-168 | one row per distinct id |
| Users.FirstIdsDistinct | lib/firebase/services/users.ts:161-168 | no id is listed twice |
| Users.FirstIdsPrefix | lib/firebase/services/users.ts:161-168 | the ids of the e-mail matches keep their positions when the name matches are added |
| Users.LastDocsLast | lib/firebase/services/users.ts:161-166 | the kept document is that of the id's last occurrence |
| Users.NameMatchKeepsDoc | lib/firebase/services/users.ts:161-168 | a user matched by a name keeps the document of its last name match, whatever the e-mail matches held |
| Users.SearchMerge | lib/firebase/services/users.ts:137-169 | the merge lists every matched user once, the e-mail matches first in their own order, and a user matched by name keeps its name match's document |
| Users.UserService.constructor | lib/firebase/services/users.ts:26-30 | an empty collection |
| Users.UserService.CreateUser | lib/firebase/services/users.ts:32-45 | `NewUser` stored under a fresh id, every other user untouched |
| Users.UserService.GetUserById | lib/firebase/services/users.ts:50-58 | the stored user exactly when the id exists |
| Users.UserService.GetUserByEmail | lib/firebase/services/users.ts:63-72 | null exactly when no user has the e-mail; otherwise the stored user with it and the smallest id |
| Users.UserService.UpdateUser | lib/firebase/services/users.ts:77-83 | an existing user gets `Updated`; a missing one is the store's error and nothing changes |
| Users.UserService.UpdateUserStatus | lib/firebase/services/users.ts:130-132 | an existing user gets the new status and stamp only; a missing one is the store's error |
| Users.UserService.DeleteUser | lib/firebase/services/users.ts:88-91 | the user is gone, every other one kept |
| Users.UserService.GetUsers | lib/firebase/services/users.ts:96-125 | stored users with the given status, sorted only when an order field is given and in document order otherwise, at most `limit`; with GetUsersTopN, the first `limit` of them |
| Users.UserService.GetUsersTopN | lib/firebase/services/users.ts:96-125 | a user with the status (carrying the order field when one is given) that is missing means the listing holds `limit` users, each preceding it in the order, or with a smaller id when there is no order field |
| Users.UserService.GetUsersUnordered | lib/firebase/services/users.ts:96-125 | with no order and no limit, exactly the users with the status |
| Users.UserService.SearchUsers | lib/firebase/services/users.ts:137-169 | the `Map` loop yields exactly the merge of the e-mail then name matches, cut to `limitResults` |
| Users.UserService.UserExists | lib/firebase/services/users.ts:193-196 | true exactly when `getUserById` finds the user |
| Users.UserService.EmailExists | lib/firebase/services/users.ts:201-204 | true exactly when `getUserByEmail` finds a user, exactly when some user has the e-mail |
| Notifications.Stored | lib/firebase/services/notifications.ts:32-48 | the given data unchanged plus both stamps `now` |
| Notifications.WelcomeMessage | lib/firebase/services/notifications.ts:216-229 | the message embeds the user name after the greeting |
| Notifications.WelcomeMessageInjective | lib/firebase/services/notifications.ts:216-229 | two welcome messages are equal exactly when the names are |
| Notifications.LevelUpMessage | lib/firebase/services/notifications.ts:282-298 | the message embeds the level in decimal |
| Notifications.LevelUpMessageInjective | lib/firebase/services/notifications.ts:282-298 | two level-up messages are equal exactly when the levels are |
| Notifications.WelcomeNotification | lib/firebase/services/notifications.ts:216-229 | WELCOME, NORMAL, unread, '/dashboard', `welcomeUser` metadata, the welcome message for the name |
| Notifications.MissionNotification | lib/firebase/services/notifications.ts:234-254 | the given type, title and message, NORMAL by default, unread, `actionUrl = '/missions/' + missionId`, `metadata.missionId` |
| Notifications.MissionLinkRoundTrip | lib/firebase/services/notifications.ts:234-254 | the mission id reads back from the action URL |
| Notifications.RewardNotification | lib/firebase/services/notifications.ts:259-277 | REWARD_EARNED, HIGH, unread, '/profile', `rewardAmount` metadata |
| Notifications.LevelUpNotification | lib/firebase/services/notifications.ts:282-298 | LEVEL_UP, HIGH, unread, '/profile', `newLevel` metadata, the level-up message |
| Notifications.Updated | lib/firebase/services/notifications.ts:161-177 | `updatedAt` is the new stamp and `createdAt` is kept; every field the patch gives takes the given value (an optional field becomes present) and every field it does not give is unchanged |
| Notifications.MarkedRead | lib/firebase/services/notifications.ts:114-127 | read and stamped, nothing else changed |
| Notifications.AllRead | lib/firebase/services/notifications.ts:132-156 | marking all read keeps the set of notifications |
| Notifications.AllReadEffect | lib/firebase/services/notifications.ts:132-156 | afterwards none of the user's notifications is unread, exactly the previously unread ones are marked, and other users' notifications are untouched |
| Notifications.AllReadIdempotent | lib/firebase/services/notifications.ts:132-156 | marking all read a second time changes nothing |
| Notifications.Cutoff | lib/firebase/services/notifications.ts:305-308 | a non-negative number of days never puts the cutoff after `now` |
| Notifications.Cleaned | lib/firebase/services/notifications.ts:303-325 | exactly the user's notifications created before the cutoff are removed; the kept ones are unchanged |
| Notifications.CleanedKeeps | lib/firebase/services/notifications.ts:303-325 | another user's notification or a recent one survives the cleanup unchanged |
| Notifications.NotificationService.constructor | lib/firebase/services/notifications.ts:26-30 | an empty collection |
| Notifications.NotificationService.CreateNotification | lib/firebase/services/notifications.ts:32-48 | `Stored` under a fresh id, every other notification untouched |
| Notifications.NotificationService.GetNotificationById | lib/firebase/services/notifications.ts:53-66 | the stored notification exactly when the id exists |
| Notifications.NotificationService.GetUserNotifications | lib/firebase/services/notifications.ts:71-109 | an error exactly for a zero limit; otherwise only the user's stored notifications (unread ones if asked), `createdAt` non-increasing, at most `limitCount` |
| Notifications.NotificationService.UserNotificationsTopN | lib/firebase/services/notifications.ts:71-109 | a qualifying notification left out means the page is full and every listed one is at least as recent |
| Notifications.NotificationService.MarkAsRead | lib/firebase/services/notifications.ts:114-127 | an existing notification becomes `MarkedRead`; a missing one is the store's error |
| Notifications.NotificationService.UnreadRows | lib/firebase/services/notifications.ts:197-211 | exactly the user's stored unread notifications, in document order |
| Notifications.NotificationService.GetUnreadCount | lib/firebase/services/notifications.ts:197-211 | the number of the user's unread notifications, 0 exactly when there is none |
| Notifications.NotificationService.MarkAllAsRead | lib/firebase/services/notifications.ts:132-156 | the update loop leaves the collection equal to `AllRead` of the old one, and the unread count is then 0 |
| Notifications.NotificationService.UpdateNotification | lib/firebase/services/notifications.ts:161-177 | an existing notification gets `Updated`; a missing one is the store's error |
| Notifications.NotificationService.DeleteNotification | lib/firebase/services/notifications.ts:182-192 | the notification is gone, every other one kept |
| Notifications.NotificationService.CleanupOldNotifications | lib/firebase/services/notifications.ts:303-325 | the deletion loop leaves the collection equal to `Cleaned` at `now - daysOld` days (30 by default) |
| Upload.OrElse | lib/upload/api.ts:52-58 | `result.message \|\| 'Upload failed'`: the message when present and non-empty, else the fallback |
| Upload.ToFixed2Reading | lib/upload/api.ts:128 | the size in MB renders as a whole part without superfluous zero, a point and two digits that read back as the hundredths |
| Upload.ValidateFile | lib/upload/api.ts:122-133 | valid exactly up to 10 MB inclusive; the error is present exactly when invalid and names the size |
| Upload.PerFileErrors | lib/upload/api.ts:149-154 | at most one error per file |
| Upload.PerFileErrorsEmpty | lib/upload/api.ts:149-154 | no per-file error exactly when no file is over 10 MB |
| Upload.ValidateFilesMeaning | lib/upload/api.ts:138-160 | no error exactly for one to ten files none over 10 MB; 'No files provided' alone for none; 'Maximum 10 files allowed' first for more than ten |
| Upload.ValidateFiles | lib/upload/api.ts:138-160 | the loop pushes exactly the count errors then the per-file errors with 1-based positions; valid exactly when there is none |
| Upload.IsImageFile | lib/upload/api.ts:178-180 | true exactly when the MIME type starts with 'image/' |
| Upload.ReplyBody | lib/upload/api.ts:45-69 | a body exactly when the request and parse succeed, the status is ok and `success` is true; a failed request or an unparsable body keeps its own message; a non-ok or unsuccessful reply gives the server's message or "Upload failed" |
| Upload.UploadSingleFile | lib/upload/api.ts:40-71 | the returned file exactly when the reply is ok, successful and carries a file; otherwise the error `ReplyBody` gives, or "No file returned from upload" for a successful reply without a file |
| Upload.UploadMultipleFiles | lib/upload/api.ts:76-117 | refused for zero or more than ten files; otherwise the files list exactly when the reply is ok, successful and the list is non-empty, the error `ReplyBody` gives when the reply fails its checks |
| Upload.UploadRefusesBeforeRequest | lib/upload/api.ts:76-83 | a refused batch gets the same answer whatever the server would say, the first error `validateFiles` reports |
| FileUploadHook.ValidateFile | hooks/useFileUpload.ts:50-72 | size first, then the accepted types when a list is given, then the service's check; the first failing check gives the error |
| FileUploadHook.AcceptedMeansAllChecks | hooks/useFileUpload.ts:50-72 | accepted exactly within min(maxFileSize, 10) MB and of an accepted type (any type for an empty list), and then the service accepts too |
| FileUploadHook.TicksBounded | hooks/useFileUpload.ts:89-97 | from 0 the simulated progress after n ticks is min(10n, 90), never above 90 |
| FileUploadHook.WithoutMeaning | hooks/useFileUpload.ts:180-182 | removing an index removes exactly that element and keeps the rest in order; an out-of-range index changes nothing |
| FileUploadHook.UploadManyOutcome | hooks/useFileUpload.ts:131-156 | more than `maxFiles` files are refused before any file is validated; then the first invalid file's error; otherwise the service's batch upload decides |
| FileUploadHook.FirstInvalid | hooks/useFileUpload.ts:137-142 | no error exactly when every file passes the hook's validation |
| FileUploadHook.FirstInvalidIsEarliest | hooks/useFileUpload.ts:137-142 | the error is that of the earliest refused file |
| FileUploadHook.UploadManySucceeds | hooks/useFileUpload.ts:124-177 | a successful upload had one to `maxFiles` (and at most ten) files, each within both size caps |
| FileUploadHook.FileUpload.constructor | hooks/useFileUpload.ts:36-47 | not uploading, no files, no error, progress 0 |
| FileUploadHook.FileUpload.UploadSingleFile | hooks/useFileUpload.ts:75-121 | a refused file records its error; a successful upload makes the list that one file at progress 100; a failed upload records its error at progress 0; never left uploading |
| FileUploadHook.FileUpload.UploadMultipleFiles | hooks/useFileUpload.ts:124-177 | the loop decides as `UploadManyOutcome`: the list and progress 100 on success, the error and progress 0 otherwise |
| FileUploadHook.FileUpload.RemoveFile | hooks/useFileUpload.ts:180-182 | the list without that index; nothing else changes |
| FileUploadHook.FileUpload.ClearFiles | hooks/useFileUpload.ts:185-189 | no files, no error, progress 0; the uploading flag kept |
| FileUploadHook.FileUpload.Reset | hooks/useFileUpload.ts:192-197 | as clearing, and not uploading |
| NotificationsHook.ErrorText | hooks/useNotifications.ts:56-58 | an `Error`'s message, else the fixed loading message |
| NotificationsHook.ReadOne | hooks/useNotifications.ts:75-81 | the notifications with the id get the stamp, all others are unchanged |
| NotificationsHook.ReadOneMarks | hooks/useNotifications.ts:75-81 | after marking, the id is read and nothing became unread |
| NotificationsHook.ReadAll | hooks/useNotifications.ts:99-101 | every notification gets the stamp |
| NotificationsHook.ReadAllAbsorbs | hooks/useNotifications.ts:75-101 | marking all after marking one is marking all |
| NotificationsHook.Decremented | hooks/useNotifications.ts:84 | `max(0, prev - 1)`: never negative, one less when positive |
| NotificationsHook.NotificationList.constructor | hooks/useNotifications.ts:24-30 | the initial state: empty, loading, page 1, more pages assumed |
| NotificationsHook.NotificationList.Refresh | hooks/useNotifications.ts:33-62 | both calls answering replaces the list and sets the counters with `hasMore = current_page < last_page`; a thrown error is recorded and nothing else changes; never left loading; the request is page 1 with `limitCount` per page |
| NotificationsHook.NotificationList.MarkAsRead | hooks/useNotifications.ts:70-91 | on success `ReadOne` and the decremented counter; on failure nothing changes and the failure is passed on |
| NotificationsHook.NotificationList.MarkAllAsRead | hooks/useNotifications.ts:94-109 | on success `ReadAll` and counter 0; on failure nothing changes and the failure is passed on |
| NotificationsHook.NotificationList.LoadMore | hooks/useNotifications.ts:112-134 | nothing while loading or with no page left; otherwise page `currentPage + 1` is requested with `limitCount` per page and appended, with `hasMore = current_page < last_page` |
| UserRoles.RolesExclusive | lib/utils/user.ts:6-15 | no user is both an NGO and a contributor |
| UserRoles.GetUserType | lib/utils/user.ts:20-25 | ngo exactly for `isNgo`, contributor exactly for `isContributor`, unknown for no user or any other role |
| UserRoles.GetUserTypeLabel | lib/utils/user.ts:30-37 | 'Organisation' exactly for an NGO, 'Contributeur' exactly for a contributor, 'Utilisateur' otherwise |
| AuthMissionsRoute.Check | app/api/auth-missions/route.ts:7-44 | token (401), body parse, pictures, location (a zero coordinate counts as missing), address (400) in that order; forwarded exactly when all pass |
| AuthMissionsRoute.Payload | app/api/auth-missions/route.ts:49-56 | exactly the pictures, the two coordinates and the address |
| AuthMissionsRoute.FromBackend | app/api/auth-missions/route.ts:84-108 | an error status is passed on with the backend's message, "Failed to create mission" when it has none and "Unknown error" when its body does not parse; an ok reply gives 200 with the data exactly on `success`, 500 with the backend's message (or "Failed to create mission") on `success: false`, and 500 with the parse message when its body does not parse |
| AuthMissionsRoute.Post | app/api/auth-missions/route.ts:7-120 | the first failing check's response, then 500 without an API URL, then the backend call at `/auth-missions` with the token and the payload |
| AuthMissionsRoute.RefusedBeforeBackend | app/api/auth-missions/route.ts:7-44 | a refused request gets the same response whatever the backend and configuration, with status 401, 400 or 500 |
| AuthMissionsRoute.ZeroCoordinateRefused | app/api/auth-missions/route.ts:30-36 | a latitude of exactly 0 gives the 400 location response |
| AuthMissionsRoute.SuccessCarriesData | app/api/auth-missions/route.ts:64-108 | a successful response means every check passed, the backend answered ok with success, and its data is passed on |
| UploadRoute.Copy | app/api/upload/route.ts:58-65 | the six file fields copied one to one |
| UploadRoute.Check | app/api/upload/route.ts:8-30 | no file, not an image, above 10 MB (400, in that order); the file goes on exactly when all pass |
| UploadRoute.FromBackend | app/api/upload/route.ts:34-79 | an unparsable reply body is 500 "Internal server error"; a non-ok status is passed through with the backend's message or "Upload failed"; success exactly for an ok successful reply whose file has a url, then 200 with the copied file; any other parsed ok reply is 500 "Invalid response from server" |
| UploadRoute.Post | app/api/upload/route.ts:1-80 | an unreadable form is 500, a refused file its 400, otherwise the backend reply's mapping |
| UploadRoute.SizeBoundary | app/api/upload/route.ts:24-30 | exactly 10 MB is accepted, one byte more refused |
| UploadRoute.AgreesWithClient | app/api/upload/route.ts:16-30 | the route accepts exactly the images the client-side validation accepts |
| UploadRoute.RefusedBeforeBackend | app/api/upload/route.ts:8-30 | a refused file gets the same 400 response whatever the backend |

## Left out

- Provider and contract construction, ABI encoding and the RPC transport are foreign code: the contract is the `Contract.Chain` oracle and construction is only its outcome (`Contract.ContractService.constructor`).
- `ethers.formatUnits` is a parameter of `Contract.Config`; `Units.FormatUnits` is a reference rendering with a proved round trip, not a re-derivation of ethers' exact output.
- `getMissionDetails` and `getMissionProgress` render the chain's unsigned integers with `NatToString`, standing in for `BigInt.toString()`; the progress struct's `exists` flag is named `missionExists`.
- The Firestore SDK is replaced by `Store`. Document ids are numbers in creation order, `serverTimestamp`/`Timestamp.now` are one abstract clock `now`, and query results without an explicit order come in id order.
- Missions.MissionService.GetExpiredMissions: lists its missions in id order, while Firestore orders a query with a range filter on `deadline` by `deadline`; `MarkExpiredMissions` reaches the same collection whatever the order, so only the listing's order differs.
- Ordering by a string or floating-point field (`totalRewardsEarned`) is not modelled; every order field is an integer or a timestamp.
- `searchMissions` and the two string range queries of `searchUsers` are left out: `Users.UserService.SearchUsers` takes their results as inputs and models the merge and the cut.
- `getMissionsNearLocation`, `calculateDistance` and `toRad` are floating-point geometry and are left out.
- `formatFileSize` is floating-point code: `FileUploadHook.ValidateFile` takes it as a parameter. `Upload.SizeMessage` renders `toFixed(2)` by rounding the size to hundredths of a MiB with halves up, which matches the floating-point result for realistic file sizes only.
- The `getUserStats` and `getMissionStats` stubs only return constant zeros and are left out.
- `Promise.all` batches become sequential loops; an error thrown part-way through a concurrent batch is not modelled. The store methods in the model do not fail except for updating a missing document.
- An `undefined` field in an update is taken as not written, as under Firestore's `ignoreUndefinedProperties`. This applies to a missing `rejectionReason` and to the rating `feedback`. The client configuration is not part of this model.
- MissionUsers.RateTransition: the feedback is written only when it is given; an absent feedback keeps the stored one, because an `undefined` field is taken as not written.
- Limits are natural numbers with 0 meaning "no limit" where the source tests truthiness; negative or fractional limits and a fractional `maxFileSize` are not modelled. `getUserNotifications` passes its limit straight to the SDK, which refuses 0.
- `cleanupOldNotifications` moves the date back by whole days with `setDate`; the model takes every day as 24 hours, so daylight-saving changes are not modelled.
- The open `[key: string]: any` part of notification metadata and the REST notification's `data` field are not modelled.
- `AuthMissionsRoute`: of the falsy JSON values a coordinate can take, only absence and 0 are modelled (not `NaN`, `""` or `false`); a `pictures` array's items are taken as strings.
- Timers are left out: the `setInterval` progress ticks (`FileUploadHook.TicksBounded` states what they reach) and the `setTimeout` that resets the progress to 0 one second after a successful upload.
- The `onSuccess`/`onError` callbacks of the upload hook, the `console` logging and the 30-day default's `Date` arithmetic beyond whole-day subtraction have no modelled effect.
- A thrown value that is not an `Error` is modelled as in each source: "Upload failed" in the upload hook, "Failed to load notifications" in the notifications hook.
- File sizes are taken below 2^53 bytes, so JavaScript's number arithmetic on them is exact.
- `generateImagePreview` uses `FileReader` and is left out.
- Contract.ContractService.GetUserNFTCount and Contract.ContractService.GetTotalSupply return the chain's integer exactly; the source converts it with `Number(...)`, which rounds above 2^53.
- MissionUsers.StatsOf, MissionUsers.RateTransition, Missions.NewMission and Users.Updated hold ratings, amounts and sums as exact reals; the source uses IEEE doubles, so its sums and its average `ratingsSum / ratingsCount` round where the model does not.
- Contract.TokenSymbol and Contract.TokenDecimals compare addresses through `Text.Lower`, which folds only the ASCII letters A-Z; `toLowerCase` also folds other Unicode letters. Hexadecimal addresses contain only ASCII, so the two agree on well-formed addresses.
- AuthMissionsRoute.Check: a request body that parses to JSON `null` (or any non-object) makes the source throw on `body.pictures` and answer 500; the model's `Body` is always an object, so that path is not modelled.
- UploadRoute.Check: a `file` form entry that is a string rather than a `File` makes the source throw on `file.type.startsWith` and answer 500; the model's form entry is a file or absent.
- Missions.MissionService.GetExpiredMissions models the query as written: a range filter on `deadline` with two `!=` filters on `status`. Whether the Firestore SDK accepts that combination is not modelled; the model assumes the query runs as written.
