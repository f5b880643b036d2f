# Crash Team Racing server state: a Dafny model

This project models the server-side state of Crash Team Racing in a Demonware game server written
in Go, and proves what that state keeps over whole runs. `dafny verify dfyconfig.toml` checks all of it.

Four parts, hardest first.

**Asynchronous matchmaking with the two-phase lobby merge** (`match_*.dfy`). A queue of searches and a
table of rooms, changed by four calls under one lock: a search arrives, is cancelled, a connection
leaves, a host syncs its document. `MatchTypes` has the values, `MatchSteps` each call as a function from
state to state and notices, `MatchInvariant` and `MatchSync` the invariant and its preservation,
`MatchProgress` what only ever grows, `MatchRuns` the theorems over every run, `MatchMerge` what a commit
does, `MatchSeating` who gets a seat and who is told, `MatchSilence` who is never told
again, `MatchWitness` one concrete run. Three modules say what a whole call does in terms of seats, people,
versions and told lists alone: `MatchAdmission` a search and leaving, `MatchSynced` a host's document and
`MatchNotices` everything it sends; `MatchTold` has the run theorem about guests who were cut. `MatchRoom` and `Matchmaker` are the
same state as the server keeps it: classes `CtrRoom` and `Matchmaker`, with rooms that point at each
other, edited in place by loops; every method is proved equal to its function in `MatchSteps`, with
`MatchLoops` for what the loops over the table add up to.
Rooms that have left the table are kept in `gone`, because a pending merge may still point at one of them.

**Economy** (`economy_*.dfy`). Race payouts, the daily Pit Stop refresh, challenges with partial progress,
purchases, and the ledger over all of them. A report runs three separately saved steps; `Fault` says what
the disk does at each, and `Repeats` what becomes of a report that is sent again. `ChallengeEvents` says from
an event's own values when it moves a challenge and by how much, `RaceAwards` what a race pays, `Bundles` what a
bundle costs. `EconomyStore` holds the loops, proved equal to the functions.

**Relay ports, leaderboards, session directory** (`relay_*.dfy`, `leaderboard*.dfy`, `session_*.dfy`). Each is a
set of rules as functions with theorems over every run, and a class that works in place and is proved
equal to the rules. `LeaderboardSums` has the boards on which scores are replaced or added, `SessionRequests`
what each request does to each session.

**Parsers** (`wire_*.dfy`, `jsonc.dfy`). The protobuf writer and reader (Protocol Buffers Encoding
specification, sections "Base 128 Varints" and "Message Structure"), the reward report on top of them, the
rewritten rift configuration, and the scanner that strips comments from JSON. `common.dfy` holds what several
parts share.

Where the code and its comments differ, or where a property one would expect fails, the exact condition is proved:

- `jsonc.go:7-8` says line breaks are kept. `JsonComments.LinesKept` gives the one exception, an unclosed
  block comment that ends the input with a line break; `UnclosedLosesLine` is the smallest case.
- `leave` does not take the connection off the room's list of told connections, while eviction and rejection
  do. `MatchSeating.ToldAfterSeating` says exactly when a newly seated guest is told to join by the next sync.
  `MatchSilence.SilentUntilItAsks` shows that a connection which waits for no notice gets none in any
  continuation until it searches again, `MatchWitness.RejoinedGuestIsNeverTold` is a run that leads there, and
  `MatchWitness.AskingAgainIsTold` shows that one more search gets it told.
- Buying the same list twice is free exactly when its SKUs without items cost nothing
  (`Purchases.RepeatPurchase`); otherwise they are charged each time (`Purchases.ItemlessChargedEveryTime`,
  smallest case `Purchases.ItemlessChargedTwice`). Every SKU of the shipped catalogue has items, so this is
  about catalogues it may be replaced by.
- The field writers put the field number in one byte. A field reads back exactly for numbers 1 to 15
  (`WireCodec.NumberRange`, `WireCodec.BytesNumberRange`).
- A client that asks for friend id 0 can be shown its own game if it made that game before it was
  identified, and only then (`SessionRules.WhatIsShown`; `SessionRules.OwnGameShown` is a run that leads there).

## Model

| member | source | states |
|---|---|---|
| MatchRuns.StepKeeps | ctr_async.go:217-486 | Every call keeps the global invariant of queue, rooms and merge links |
| MatchRuns.SeatSafety | ctr_async.go:145-170 | In every reachable state a room's people with reserved seats fit its capacity, capacity is at most 8 and at most each seated search's maximum, and no seated non-host member is marked failed |
| MatchRuns.MergeLinks | ctr_merge.go:32-114 | In every reachable state both ends of a live reservation name each other, no room is source and destination at once, a source has no source and serves one live destination |
| MatchRuns.OneSearchPerAccount | ctr_async.go:221-244 | In every reachable state no account leads two searches in queue and rooms together, hosts sit in their rooms, and a room's searches share the host's filter |
| MatchRuns.RunAdvances | ctr_async.go:282-288 | Versions never fall, ids are never reused, and nobody starts waiting for a notice while the version stands still |
| MatchRuns.ReservationVersion | ctr_merge.go:62-75 | While a reservation stands its destination keeps the version it was reserved at |
| MatchRuns.SyncJoins | ctr_async.go:447-453 | An accepted sync tells to join exactly the surviving guests not told before, each once |
| MatchRuns.JoinNoticeIsFresh | ctr_async.go:393-413 | A join notice is sent by a sync whose version is newer than every version the room had while the guest was not seated |
| MatchMerge.CommittedMerge | ctr_merge.go:100-113 | A commit moves exactly the source's searches, in order, none lost or doubled; each gets one merge event naming search, old and new lobby, and no join notice in that sync |
| MatchMerge.MergeEventMeansCommit | ctr_merge.go:78-99 | A merge event only comes from the destination host's sync with the room's current version, and the reservation still standing |
| MatchMerge.SyncReserves | ctr_async.go:482-484 | Only a sync that sends nothing else reserves; then the version rises by one and one update notice carries it |
| MatchMerge.ReservationBumps | ctr_merge.go:62-75 | A live room gains a source only by its own host's sync, with the version raised by one |
| MatchProgress.SyncResolves | ctr_merge.go:78-114 | A sync of a room with a reservation always ends the reservation, by commit or by cancelling |
| MatchProgress.SettleOthers | ctr_async.go:414-480 | A sync leaves every other room as it is, but for a merge target it may free |
| MatchSeating.SeatingBumps | ctr_async.go:275-288 | Taking a seat in an existing room, by queueing or backfill, always raises the room's version |
| MatchSeating.ToldAfterSeating | ctr_async.go:346-369 | A guest just seated is told by the next accepted sync if and only if its connection is not on the told list already |
| MatchSilence.SilentUntilItAsks | ctr_async.go:217-486 | Over every run: a connection with no search in the queue and told wherever it is seated gets no join notice in any continuation until it searches again |
| MatchWitness.RejoinedGuestIsNeverTold | ctr_async.go:362-367 | A run from the empty server in which a guest leaves and is seated again over the same connection; in no continuation in which it does not search once more is it told |
| MatchWitness.AskingAgainIsTold | ctr_async.go:237-243 | After that run, one more search takes the guest off the told list, and the host's next sync tells it |
| MatchSeating.ConsiderDecides | ctr_async.go:299-305 | The grouping loop takes a search exactly when it is compatible with those taken so far |
| MatchSeating.GreedyMaximal | ctr_async.go:291-306 | The group is compatible, and no search of the filter left out could be added |
| MatchSeating.OpenedRoom | ctr_async.go:217-333 | Whenever a call opens a room it is a search; the room's people lie between every member's minimum and maximum, come from the queue as eviction left it plus the new search, the others keep their order, and nobody left could have been added |
| MatchAdmission.EvictExactly | ctr_async.go:220-244 | A search that arrives first takes its account's rooms off the table, its search out of every other room, off its told list, and out of the queue, and nothing else |
| MatchAdmission.AskExactly | ctr_async.go:217-333 | After eviction a search is seated if and only if some room is open, has its filter, no source and no live target, and seats for it within the room's and the search's limit; then in the one with most people, the oldest among equals, which gets one version more, an update notice to its host, the smaller capacity and the states of the search's members cleared. Otherwise it waits or its group opens a room |
| MatchAdmission.SeatedOnlyIfWelcome | ctr_async.go:256-275 | Whoever ends up in a room that was there before was welcome in it; the room was open in particular |
| MatchAdmission.GatherExactly | ctr_async.go:291-333 | The waiting searches of the filter that agree open a room with exactly them, the first as host, and leave the queue, if they are people enough; otherwise the search waits |
| MatchAdmission.WithdrawExactly | ctr_async.go:335-345 | Cancelling takes exactly the search of that connection and id out of the queue |
| MatchAdmission.QuitExactly | ctr_async.go:346-369 | Leaving takes the connection's searches out of the queue, its search out of the room named or of all, and the rooms it hosts among them off the table; every other room, and every told list, is unchanged |
| MatchAdmission.GoneForGood | ctr_async.go:346-369 | After leaving with 0, as a closing connection does, the connection is in no queue and no room |
| MatchSynced.SyncedExactly | ctr_async.go:383-486 | What a document does and nothing else, in order: a pending merge is carried out exactly if the source is still on the table, document and source are open, everybody in the source is connected, nobody is in both rooms and none of the source is in state 3, or else called off; members in state 3 other than the host's leave, and searches left without anyone go and are off the told list; the rest is told; the queue boards in order within seats if the room is open and free; if all that sent nothing, the fullest room that may join is reserved. A document that is refused changes nothing |
| MatchSynced.RejectedIsOff | ctr_async.go:417-432 | A seated search whose members are all other than the host and in state 3 is out of the room after an accepted document, and its connection is off the told list |
| MatchSynced.LostIsNotMoved | ctr_merge.go:78-99 | A search of the source with a member in state 3 stays where it was and its room on the table |
| MatchTold.RejectedIsToldAgain | ctr_async.go:428-453 | Over every run: a guest cut by a document and seated again over the same connection is told by the next accepted document that does not cut it again, with the ids of its new search and the room |
| MatchNotices.SyncSends | ctr_async.go:414-484 | All notices of an accepted document, in order, with receivers, events, ids and expected accounts |
| MatchSeating.OccupancyIsPeople | ctr_async.go:145-170 | A room's occupancy is the number of its places held by accounts not reported as timed out, the host's never, and with a pending merge those of the source as its own host reports them |
| MatchRoom.CtrRoom.Occupancy | ctr_async.go:145-158 | People in the room that have not failed, a pending source's included; the recursion ends at depth one |
| MatchRoom.CtrRoom.Connected | ctr_async.go:171-181 | Members the host reports as connected |
| MatchRoom.CtrRoom.Reject | ctr_async.go:417-439 | The rejection loop equals the rejection function, told list included; what that function does is in `MatchSynced.SyncedExactly` |
| MatchRoom.CtrRoom.Release | ctr_async.go:448-453 | The release loop tells exactly the searches not told, in order |
| MatchRoom.CtrRoom.FillFrom | ctr_async.go:458-475 | The backfill loop seats what the backfill function seats and returns the rest in order |
| Matchmaker.Matchmaker.Enqueue | ctr_async.go:217-333 | The loops of enqueue leave the state and send the notices of the search call, over shared room objects; what that call does is in `MatchAdmission.AskExactly` |
| Matchmaker.Matchmaker.Cancel | ctr_async.go:335-345 | Takes one waiting search of the connection and says whether there was one |
| Matchmaker.Matchmaker.Leave | ctr_async.go:346-369 | The two loops of leave, rooms deleted while walking over them included |
| Matchmaker.Disjoint | ctr_merge.go:15-30 | True exactly when no account is in both parties |
| Matchmaker.Matchmaker.IsMergeOpen | ctr_merge.go:10-13 | Open, everybody connected, not empty |
| Matchmaker.Matchmaker.StartMerge | ctr_merge.go:32-76 | The candidate loop and sort choose and reserve what the specification says |
| Matchmaker.Matchmaker.FinishMerge | ctr_merge.go:78-114 | Cancels or commits as the specification says, source deleted from the table included |
| Matchmaker.Matchmaker.SyncDoc | ctr_async.go:383-486 | finishMerge, rejection, release, backfill and startMerge in the code's order equal the document call; what that call does is in `MatchSynced.SyncedExactly` and `MatchNotices.SyncSends` |
| RaceAwards.RacesPaidOnce | ctr_rewards.go:187-193 | No event is paid twice, and every qualifying event of the report has a receipt afterwards |
| RaceAwards.RacesSettled | ctr_rewards.go:157-234 | Running the step again at the same time pays nothing and changes nothing |
| RaceAwards.RacesPaidExactly | ctr_rewards.go:171-226 | One report pays exactly its races that are in order and not paid before, each once, in order, each at its fare: the place's entry, the fourth from the fifth place on, a third of it for each of at most 8 laps in mode 15, five times that online while the day's earlier online races are under 1800 seconds, twice on a weekend, and 200 more for a Golden Wumpa; and it adds up online seconds |
| RaceAwards.WeekendPaysDouble | ctr_rewards.go:213-223 | Two offline races equal but for the time: one between Friday 17:00 and Monday 08:00 UTC pays twice what one outside pays, the Golden Wumpa aside; two inside or two outside pay the same |
| RaceAwards.OnlinePaysFive | ctr_rewards.go:206-212 | The same race online pays five times as much while the day's earlier online races are under 1800 seconds, and the same after that |
| RaceAwards.SecondRaceOfDay | ctr_rewards.go:206-212 | Of two online races of a day the second is paid with the first one's seconds counted on top of what the account had that day |
| RaceAwards.PaymentsNonNegative | ctr_rewards.go:194-226 | With non-negative rates no payment is negative |
| RaceAwards.WeekendWindow | ctr_rewards.go:213-219 | The weekday test holds exactly from Friday 17:00 to Monday 08:00 UTC, for every timestamp |
| PitStopRefresh.DayContainsNow | ctr_refresh.go:37-41 | The daily window contains the present |
| PitStopRefresh.OneRequest | ctr_refresh.go:56-100 | What one event does to account and count shown, on the day from 15:00 to 15:00 UTC that holds the present: a request with value 1, inside that day and at most five minutes ahead, opens the day's record or adds one to it, once each and up to two; anything else changes nothing |
| PitStopRefresh.RefreshSettled | ctr_refresh.go:56-100 | Running the step again at the same time changes nothing |
| PitStopRefresh.RefreshCount | ctr_refresh.go:56-100 | Over every history, on whatever days and from whatever record, the refreshes shown as spent are those of the record the day opened with plus one for each distinct request since that it did not hold, at most two in all; a request of another day opens a new record |
| PitStopRefresh.TodaysCount | ctr_refresh.go:56-92 | When the clock never falls back to an earlier day, that is every request of today, counted from the account's own record of today |
| Challenges.WindowContainsNow | ctr_challenge_rules.go:55-76 | In the c-th cycle, c from 0, a rule is active exactly inside one of its periods counted from that cycle's start, and its window is that of the first such period; before the first cycle it is not |
| Challenges.SameKeySamePeriod | ctr_challenge_rules.go:77 | Two times share a record exactly when they lie in the same period of the same cycle |
| Challenges.TrackSeen | ctr_challenge_rules.go:151-198 | What tracking a report leaves in receipts, and that it completes only by a counted event, at that event's time |
| Challenges.AllSettled | ctr_challenge_rules.go:141-206 | Every rule is settled by one run of the step |
| Challenges.ChallengesSettled | ctr_challenge_rules.go:128-215 | Running the step again at the same time changes nothing, even after other steps |
| ChallengeProgress.BestIsHighest | ctr_challenge_rules.go:167-171 | The multiplicity credited to an event is its highest in any one report |
| ChallengeProgress.CreditKeeps | ctr_challenge_rules.go:174-197 | With 64-bit subtraction and addition written out, nothing wraps, and a record completes exactly at the target |
| ChallengeProgress.ProgressIsScore | ctr_challenge_rules.go:141-206 | After every history of reports, whenever they arrive, a period's record is complete exactly when the score of the events counted in that period reaches the target, and progress is the score, at most the target; for the battle rule the score is the number of distinct modes |
| ChallengeProgress.HistoryCredits | ctr_challenge_rules.go:141-206 | The same from an account that already has partial credit in the period |
| ChallengeProgress.ReportMoves | ctr_challenge_rules.go:141-147 | A report that arrives outside a period, or in another cycle, leaves that period's record alone |
| ChallengeProgress.CompletedStays | ctr_challenge_rules.go:143-145 | A completed record never changes again over any history, old ones without progress included |
| ChallengeEvents.RecordMovesExactly | ctr_challenge_rules.go:79-173 | The unfinished record of an active rule moves if and only if the report holds, more often than credited, an event of the rule's name inside the window, with every filtered field allowed, X and Y at or above their thresholds (X above 0 and below it for the two time rules) and an increment that is not 0 |
| ChallengeEvents.EventsIgnored | ctr_challenge_rules.go:154-164 | A report of events that each break one of these for every active rule leaves the account exactly as it was |
| ChallengeEvents.BrokenEventIgnored | ctr_challenge_rules.go:79-123 | Condition by condition: an event of the rule's name that misses the window, a filter field or value, X or Y, a threshold, or the increment field changes nothing |
| ChallengeEvents.EventScored | ctr_challenge_rules.go:158-198 | One new event that moves a rule adds its value ("value" for visits, one for a battle mode from 9 to 13 not won before, "Progress" otherwise) to that record, completes it at its target, pays the reward then, and changes nothing else |
| Purchases.PurchaseExact | ctr_economy.go:178-199 | The debit is non-negative, within the balance and equals the balance drop; exactly the SKUs' items are granted, said item by item |
| Bundles.PlainCost | ctr_economy.go:149-155 | A SKU that is no bundle costs its price, or nothing if owned, and is refused exactly if unknown, priced below 0 or too dear |
| Bundles.BundleIsParts | ctr_economy.go:156-167 | A bundle not owned can be bought exactly if its parts, one after the other, can, at the same total; parts are known, have items, no parts, and share no item |
| Bundles.PartOwnedPartOff | ctr_economy.go:163-165 | Owning one more part lowers a bundle's debit by exactly that part's price |
| Bundles.UnknownPartRefused | ctr_economy.go:158-162 | A bundle not owned with an unknown part is refused |
| Bundles.OwnedIsFree | ctr_economy.go:137-152 | A bundle whose items are all owned costs nothing |
| Purchases.OwningMoreIsCheaper | ctr_economy.go:149-168 | With non-negative prices, owning more never raises a price and never turns it into an error |
| Purchases.RepeatPurchase | ctr_economy.go:137-147 | The same list bought again is free if and only if its SKUs without items are free by then |
| Purchases.ItemlessChargedEveryTime | ctr_economy.go:137-168 | For every catalogue, account, list and number of repetitions: each repetition costs the prices of the list's SKUs without items, all others being free |
| Purchases.ItemlessChargedTwice | ctr_economy.go:138-140 | The smallest case: one SKU without items, bought twice |
| Repeats.RetryEqualsOnce | ctr_achievements.go:24-57 | However the steps fail in between, and at whatever times of the same day and challenge periods at which the same events qualify the report is sent, once an attempt succeeds the stored account is that of one failure-free delivery |
| Repeats.RepeatsDropped | ctr_achievements.go:24-57 | Once a report has been taken, its repetition at any such time, after any purchases and other reports and however its steps fail, leaves the books as they are and everything after it as if it had not been sent; reports in between may ask for a refresh on the same day only |
| Ledger.BooksAreStored | ctr_achievements.go:24-57 | The bookkeeping's account is the one really stored |
| Ledger.FailureKeepsEarlier | ctr_achievements.go:33-49 | What an earlier step saved stays when a later one fails, and nothing of the later ones is stored; a report without a refresh request does not fail at the refresh |
| Ledger.LedgerBalances | ctr_rewards.go:224-226 | Over any interleaving of reports with failures and purchases the balance is start plus payouts of distinct races plus one reward per newly completed rule and period minus debits, and never negative from a non-negative start |
| Ledger.LedgerPriced | ctr_rewards.go:171-223 | Every payment is for an event in order when its report came, at its fare with the online seconds of the account's earlier payments of that day; every award is a rule's reward for the period it was in when a report came |
| EconomyStore.Store.Load | ctr_economy.go:65-105 | Loads the account, making it from the player's old wallet and SKU list the first time; an unknown old SKU or a failure changes nothing |
| EconomyStore.Store.FirstAccount | ctr_economy.go:80-104 | A player without an account file has the old wallet's coins or the starting balance, exactly the items of the old SKUs, and no history; an unknown old SKU stops it |
| EconomyStore.Store.Save | ctr_economy.go:107-129 | All or nothing |
| EconomyStore.Store.Pay | ctr_rewards.go:194-223 | The fare of one race as `RaceAwards.RacesPaidExactly` has it, and the day's online time |
| EconomyStore.Store.AwardRaces | ctr_rewards.go:157-234 | The loop and one save equal the step that `RaceAwards.RacesPaidExactly` is about |
| EconomyStore.Store.ReportRefresh | ctr_refresh.go:56-100 | The loop and one save equal the step |
| EconomyStore.Store.AwardChallenges | ctr_challenge_rules.go:128-215 | The nested loops and one save equal the step that `ChallengeEvents` is about; the returned credit is what the balance grew by |
| EconomyStore.Store.OnReport | ctr_achievements.go:33-49 | Three saved steps in order, the first failure returned; on success the announced credit is what the stored balance grew by |
| EconomyStore.Store.OnAchievements | ctr_achievements.go:24-57 | From the client's bytes to the stored account: an unreadable report changes nothing, a readable one does what its events do |
| EconomyStore.Store.Purchase | ctr_economy.go:170-200 | Success exactly when every SKU is known and affordable in turn and the save succeeds; any error leaves the stored account as it was |
| EconomyStore.Store.SkuPrice | ctr_economy.go:149-168 | The loop over parts equals the price function, whose prices are those of `Bundles` |
| RelayPorts.PairKeyInjective | ctr_relay.go:165-167 | Two ordered pairs of accounts share a key only if they are equal |
| RelayPorts.SearchFindsFirst | ctr_relay.go:179-189 | The round-robin search finds the first usable port in turn and moves on behind it |
| RelayPorts.RefusedExactlyWhenFull | ctr_relay.go:170-199 | A pair is refused exactly when it is new and every port in range is busy or cannot be opened |
| RelayPorts.GivenPort | ctr_relay.go:170-196 | A new pair's port is free, openable, in range and the first in turn; a known pair's is its own; nobody else's changes |
| RelayPorts.KnownPairKeepsPort | ctr_relay.go:174-177 | Over any run in which no sweep finds it quiet, a pair keeps its port and nobody shares it |
| RelayPorts.SweptPortIsFree | ctr_relay.go:239-246 | After a sweep a port is free exactly if its pair had been quiet for two minutes |
| Relay.RelayTable.PairFor | ctr_relay.go:170-199 | The loop on both indexes equals the rule; a known pair's object is reused, a new one is fresh |
| Relay.RelayTable.FindPort | ctr_relay.go:179-189 | The allocation loop equals the search |
| Relay.RelayTable.Heard | ctr_relay.go:218 | A packet refreshes its pair and nothing else |
| Relay.RelayTable.Reap | ctr_relay.go:235-246 | Removes exactly the quiet pairs from both indexes and closes exactly their sockets |
| RelaySlots.SlotRoundTrip | ctr_relay.go:105-123 | A written slot reads back exactly when the port fits 16 bits and is not 0 and the address is not the empty mark |
| RelaySlots.OfferFillsOneSlot | ctr_relay.go:150-162 | An offer changes the first free slot, which then reads the address, and nothing else |
| RelaySlots.OffersGoOn | ctr_relay.go:150-160 | A second offer takes a later slot and keeps the first |
| RelaySlots.OnlyTheRelaySlot | ctr_relay.go:136-163 | The joiner's copy differs only in one relay slot, which holds this pair's port; it is unchanged exactly when not eligible, refused, or full |
| RelaySlots.TableAfter | ctr_relay.go:136-199 | Who is served, told from the blob's bytes and the accounts; a known pair keeps its port with address and time brought up to date, a new one gets a port in range that nobody has and that opens, if there is one, and the next search starts behind it |
| RelaySlots.CopyIs | ctr_relay.go:150-163 | The copy holds the relay's address and the pair's port, low byte first, in the first of slots 1 to 9 without an address, and every other byte is the host's; with no such slot it is the host's blob |
| Relay.RelayTable.WithRelay | ctr_relay.go:136-163 | The whole request on the table's objects equals the rule |
| Relay.WriteAddrSlot | ctr_relay.go:119-123 | Writing byte by byte replaces exactly one slot |
| Leaderboard.ParseWrites | ctr_stats.go:43-88 | The cursor loop over the request's bytes equals the parser: 1 to 128 acceptable writes, ended by the end of the buffer or one zero byte |
| Leaderboard.ReadsWhatWasSent | ctr_stats.go:44-88 | Encoding any submissions and parsing them gives their writes exactly if there are 1 to 128 and each is acceptable |
| Leaderboard.ParsedAreProper | ctr_stats.go:57-87 | Whatever the bytes, accepted writes are 1 to 128, the caller's own, and on time and ring boards always operation 4 with a score of at least 0 |
| LeaderboardSums.OneSubmission | ctr_stats.go:53-87 | A request with one submission is accepted exactly if it is the caller's own and its operation, board number and score are allowed together |
| Leaderboard.RefusedExactlyOnOverflow | ctr_stats.go:129-133 | An addition is refused exactly when the sum leaves 64 bits |
| Leaderboard.StoredExactlyWhen | ctr_stats.go:113-163 | A batch is stored exactly when nothing in it overflows in its turn and the file is replaced; otherwise nothing changes |
| LeaderboardSums.OneWrite | ctr_stats.go:120-141 | What one write makes of the row, for each operation, and exactly when it is stored |
| LeaderboardSums.ReplacedThenAdded | ctr_stats.go:126-140 | Over every history: after a replacement and any number of additions the row has the score sent by the replacement plus all added since, and otherwise what the last of these writes sent |
| LeaderboardSums.OnlyAdded | ctr_stats.go:129-133 | Over every history an account that only added has the sum of what it added, and no row if it added nothing |
| Leaderboard.StoredIsBest | ctr_stats.go:134-140 | On time and ring boards the stored row is the first best of all accepted submissions over any history |
| Leaderboard.BestIsFirstHighest | ctr_stats.go:134-138 | "First best" means no score above it and none before it as high |
| Leaderboard.BoardsHoldTheBest | ctr_stats.go:113-163 | From empty boards, a row exists exactly if something was accepted, and is its maximum |
| Leaderboard.OthersUntouched | ctr_stats.go:65-67 | No call changes another account's row |
| Leaderboard.HistoryKeepsFiled | ctr_stats.go:120-141 | Rows stay stored under their own board and account |
| LeaderboardRanks.RankingIsUnique | ctr_stats.go:175-180 | Score then account is a total order, so a board has one ranking |
| LeaderboardRanks.PagesTile | ctr_stats.go:287-291 | Consecutive pages tile the board |
| LeaderboardRanks.PageOf | ctr_stats.go:285-295 | The paging loop returns exactly the slice of ranks asked for |
| LeaderboardRanks.StatsStore.Write | ctr_stats.go:113-163 | The write loop equals the batch rule, on a copy until saved, and keeps rows under their own board and account |
| LeaderboardRanks.StatsStore.Report | ctr_stats.go:229-242 | A report is parsed whole, then stored whole |
| LeaderboardRanks.StatsStore.Read | ctr_stats.go:164-185 | Every row of the board once, by score then account, whatever the file holds; the one ranking when rows are stored under their own accounts |
| SessionRules.RunKeepsInv | matchmaking.go:178-357 | Over every run each session has a live owning connection or waits with a known account |
| SessionRules.OnlyTheHostChangesIt | matchmaking.go:70-76 | Nobody but the owning connection or account changes a session; a sweep only takes expired ones |
| SessionRules.GoneExactlyWhen | matchmaking.go:85-93 | The exact cases in which a session disappears |
| SessionRequests.UpdatedSession | matchmaking.go:299-342 | What an update, an initialize request and a count of players make of the host's session, field by field, and that they reach no other |
| SessionRequests.NewSession | matchmaking.go:248-287 | What a reservation and a created game start as |
| SessionRequests.NothingElse | matchmaking.go:70-93 | No action has any other effect on any session, and sessions go in exactly the five ways named |
| SessionRequests.OpenedIsSeen | matchmaking.go:195-221 | A game just created or published is found by exactly the clients that search its context and are neither its connection nor its account, and listed exactly for its host's account to others |
| SessionRequests.ShownForFriend | matchmaking.go:199-221 | The games shown for a friend id: published ones of the context, of the account online under the id or else of the id itself, never the asker's own |
| SessionRequests.ReservedThenOpened | matchmaking.go:248-316 | Over every run between a reservation and the request that publishes it nobody finds it; afterwards others do, with what was published |
| SessionRules.OrphanWaits | matchmaking.go:178-191 | An orphan stays unchanged until its account acts or a sweep comes after the grace period |
| SessionRules.ConnectedStays | matchmaking.go:85-93 | A session with a connected owner is never reaped |
| SessionRules.ReapedExactlyAfterGrace | matchmaking.go:85-93 | Over every run a sweep takes a session if and only if its owner's connection closed more than the grace period ago and nothing has touched it since |
| SessionRules.ReadoptionRestartsGrace | matchmaking.go:303-305 | Taking a session over on a new connection and losing that one starts the grace period afresh |
| SessionRules.PublishedExactlyBy | matchmaking.go:303-313 | A reservation is published exactly by its host's initialize request |
| SessionRules.ReservationStaysHidden | matchmaking.go:248-262 | Over any run without that request it stays reserved |
| SessionRules.WhatIsShown | matchmaking.go:214-221 | What the two listings can show a client, and never a reservation |
| SessionRules.OwnGameShown | matchmaking.go:202-221 | A reachable state in which asking for friend id 0 shows a client its own game |
| SessionRules.AnswersAreRight | matchmaking.go:195-226 | Whatever changes between the lookups of two friends, no game is listed twice, each was published and hosted by the account asked for when it was looked up, and all such are listed |
| SessionDirectory.Directory.RequestSessionId | matchmaking.go:248-262 | Removes the host's other reservations of the context and enters the new one |
| SessionDirectory.Directory.CreateSession | matchmaking.go:263-287 | Replaces the account's games of the context |
| SessionDirectory.Directory.UpdateSession | matchmaking.go:299-316 | Updates in place and takes ownership over if allowed, fails otherwise |
| SessionDirectory.Directory.UpdatePlayers | matchmaking.go:326-342 | Sets the player count, and the information if it was readable |
| SessionDirectory.Directory.DeleteSession | matchmaking.go:344-356 | Deletes only for the host |
| SessionDirectory.Directory.DropSessionsOf | matchmaking.go:178-191 | A closed connection's games are orphaned, or deleted without an account |
| SessionDirectory.Directory.ReapSessionsOnce | matchmaking.go:85-93 | Deletes exactly the expired orphans |
| SessionRules.ReadsAreRight | matchmaking.go:381-391 | Whatever happens between the search and the moment a field of a found game is read, it is a field of that game, in the context asked for and published, and as it was found unless the game's host has acted since |
| SessionDirectory.Directory.FindSessions | matchmaking.go:358-380 | Only findable games, none twice, as many as start and limit leave, at most 50 |
| SessionDirectory.Directory.OneFriend | matchmaking.go:213-221 | The lookup of one friend under the lock adds exactly the published games it hosts that are not listed yet |
| SessionDirectory.Directory.FriendSessions | matchmaking.go:195-226 | The lookups in the order asked, when nobody else comes in between |
| WireVarint.VarintRoundTrip | services.go:119-125 | Reading undoes writing at any position, for every 64-bit value |
| WireVarint.VarintGroups | services.go:119-125 | The bytes are the value's seven-bit groups, lowest first, marked on all but the last, and no more than needed |
| Common.LittleDigit | services.go:93-117 | Byte k of a little-endian number is its k-th digit to base 256 |
| WireVarint.UvarintFits | riftdata.go:88-94 | Whatever is read fits 64 bits |
| WireCodec.NumberRange | ctr_marketplace.go:60-63 | A varint field reads back as written if and only if its number is 1 to 15 |
| WireCodec.BytesNumberRange | ctr_marketplace.go:72-76 | A bytes field reads back as written if and only if its number is 1 to 15 and it is within the size limit |
| WireCodec.ProtoRoundTrip | ctr_rewards.go:65-100 | Parsing undoes printing for every list of fields numbered 1 to 15 in at most 1 MiB and 4096 fields, and refuses it beyond |
| WireVarint.AppendVarint | services.go:119-125 | The loop equals the varint |
| WireVarint.DecodeVarint | riftdata.go:88-94 | The loop equals the reader, ten bytes at most |
| WireCodec.ParseProto | ctr_rewards.go:65-100 | The cursor loop equals the parser, in bounds and terminating on every input |
| WireEvents.StructRoundTrip | ctr_marketplace.go:215-225 | The struct buffer reads back whatever stands around it |
| WireEvents.DraftRoundTrip | ctr_rewards.go:119-151 | One event's parts read back as the event, or are refused exactly if a key is empty, over 100 bytes or there twice, or there are over 4093 values |
| WireEvents.ParseUndoesPrint | ctr_rewards.go:101-155 | For every list of events with 64-bit numbers, parsing the encoded payload returns the same events in order if it is within the limits and every key is distinct in its event and of 1 to 100 bytes, and refuses the whole report otherwise |
| WireFields.EventsAre | ctr_rewards.go:110-154 | For any fields: a report is accepted exactly if each of its fields 2 with bytes is an event that is understood, and gives these in order; other fields are skipped |
| WireFields.EventValues | ctr_rewards.go:128-150 | An event is understood exactly if each of its values is readable with a key of 1 to 100 bytes and no key comes twice, and holds those values only |
| WireFields.EventHead | ctr_rewards.go:120-127 | Of repeated names, times and ids the last one counts, and a missing one is empty or 0 |
| WireFields.EntryIs | ctr_rewards.go:133-142 | Of a value's repeated keys and numbers the last ones count |
| WireEvents.ParseEntry | ctr_rewards.go:129-145 | The loop over one key and value pair, its errors included |
| WireEvents.ParseEvent | ctr_rewards.go:119-151 | The loop over one event's fields, its errors included |
| WireEvents.ParseReport | ctr_rewards.go:101-155 | The whole parser, total on every byte string |
| RiftConfig.PatchTwice | riftdata.go:96-127 | Patching again gives what patching the original would have: the hash and only the hash survives |
| RiftConfig.PatchIs | riftdata.go:99-127 | The bytes of the rewritten configuration: the number, two zeros, an end that never comes, and the value of the last field 5 or 0 |
| RiftConfig.BytesRefused | riftdata.go:106-108 | A configuration with a field of bytes anywhere in it is refused |
| RiftConfig.PatchChallengeConfig | riftdata.go:99-127 | The loops equal the function |
| JsonComments.StripTwice | jsonc.go:9-49 | Stripping is idempotent on every input |
| JsonComments.LiteralVerbatim | jsonc.go:14-23 | A string literal is copied verbatim, escapes included |
| JsonComments.PlainVerbatim | jsonc.go:44-46 | Text outside strings and comments is copied verbatim |
| JsonComments.OpenAtTheEnd | jsonc.go:14-34 | What is open when the input ends: a line comment goes, an unclosed string is copied |
| JsonComments.LineCommentDropped | jsonc.go:28-34 | A line comment goes, its line break stays |
| JsonComments.BlockCommentDropped | jsonc.go:35-43 | A closed block comment leaves exactly its line breaks |
| JsonComments.LinesKept | jsonc.go:7-49 | The number of line breaks is kept if and only if the input does not end, with a line break, inside an unclosed block comment |
| JsonComments.UnclosedLosesLine | jsonc.go:35-43 | The smallest input that loses one |
| JsonComments.StripJsonComments | jsonc.go:9-49 | The scanning loop equals the function |

## Left out

- Integer widths: ids, versions and balances are unbounded, so a wrap-around after 2^63 or 2^64 is not modelled. Challenge progress and leaderboard scores are 64 bits wide with their wrap-around or overflow test written out.
- JSON: documents, searches and accounts are values. The host document is reduced to whether it is complete, whether the lobby is open, and the players' states; a fresh room's states read as empty because the code stores them under another type (ctr_async.go:314 and 163).
- Accounts of connections: in the matchmaker a connection's account is fixed when its search is accepted; in the session directory a connection is identified at most once.
- The shared id counter is also used by requests that are then refused; a run may draw ids at any point.
- Receipts: SHA-256 of an event's JSON is taken as injective, so the event itself is the receipt, and the JSON encoding of invalid UTF-8 is ignored.
- Filter hashes: a filter is the set of hash values it allows; `challengeNameHash` is not part of the model.
- Thresholds X and Y are 64-bit floats in the code and real numbers here.
- Currencies other than Wumpa Coins, the version stamp of an account file, and telling an unreadable file from a disk that fails: both are a load that fails.
- Facts of the shipped catalogue, such as race rates, positive targets, disjoint periods and rule names used once, are preconditions where a theorem needs them.
- The clock, the disk, the ports the system will open and random ids are parameters of each step. A random session id is one not in use.
- MatchSeating.GreedyMaximal: the group is maximal, not the largest; the code does not look for the largest.
- LeaderboardRanks.StatsStore.Read: the library sort is modelled as insertion; the result is unique, so another correct sort gives the same. A store file that cannot be read fails the call before anything else and is not modelled.
- Lookup of leaderboard rows by account and the reply's encoding.
- SessionDirectory.Directory.FindSessions: the method gives the ids of the page; their fields are read after the lock is released, each possibly at its own moment, which `SessionRules.ReadsAreRight` is about.
- SessionDirectory.Directory.FriendSessions: the method runs without interruption, while the code releases the lock between two ids; `SessionRules.AnswersAreRight` covers every interleaving of such lookups. The relay address written into each result is modelled on its own in `RelaySlots`.
- Relay packet forwarding and the joiner's address; the list of accounts allowed to use the relay is a flag.
- Sending of notices, the documents a client fetches, inventory pages, balance payloads, zigzag encoding, progress updates pushed to the client, and the filter of requested achievement states: easy members beside the ones here.
- TLS, HTTP, PROXY protocol, sockets, cryptography, identity, friends, presence, publisher files and the dashboard.
