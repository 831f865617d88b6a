# Verified model of the community system

Two services share one ledger of people and money. The **fraud engine** records who
joins and leaves which community, keeps counters beside the membership records, and
turns both into trust scores for users and quality scores for communities. The
**community service** receives campaign revenue, splits it between owner, members and
platform, scales it by the community's quality score and divides the members' pool by
activity. Quality scores travel from the first to the second over a message channel.

The project models the stores as classes holding maps and sequences, the handlers as
methods on them, and proves properties of whole runs over the functions those methods
are proved equal to.

| file | content |
|---|---|
| `Seqs.dfy`, `Numbers.dfy` | queries, counts, totals and permutations of sequences; Go's numeric conversions |
| `FraudModels.dfy`, `FraudStore.dfy` | documents and store of the fraud engine, one function and one method per store call |
| `LedgerInterleaving.dfy`, `ProfileInterleaving.dfy` | joins and leaves as interleaved store calls: records and statistics, and the counters of a profile |
| `UserScorer.dfy`, `CommunityScorer.dfy` | the two scores |
| `Processor.dfy`, `FraudRuns.dfy`, `Announcements.dfy` | the fraud engine's handlers as atomic steps, what every run keeps, and what it announces |
| `UserPoints.dfy`, `CommunityPoints.dfy` | both scores as tables of points and closed formulas, for the scorers and for every snapshot of a run |
| `ProfileTrace.dfy`, `RecordTrace.dfy` | profiles, activity documents and membership records, read off the events of a run |
| `LeaveMonotone.dfy`, `JoinLoop.dfy`, `Pages.dfy`, `BatchRecalc.dfy` | effect of a leave, join-loop detection, the user query and the recalculation over its pages |
| `CommunityModels.dfy`, `CommunityStore.dfy` | rows and store of the community service |
| `RefIds.dfy`, `Rewards.dfy` | payout references; division of the members' pool |
| `RevenueEngine.dfy`, `MoneySafety.dfy`, `PayoutRefs.dfy`, `RewardLedger.dfy`, `MemberCounter.dfy`, `Registration.dfy` | the revenue engine and what every run of it keeps |
| `PaymentTerms.dfy`, `ActivityWeights.dfy`, `JoinTrace.dfy` | who is paid what, what a member's activity earns and which joins count, each in numbers of its own and from the trace |
| `ScoreLink.dfy`, `ScoreAnswers.dfy`, `AdminRoute.dfy` | both services over a first-in first-out channel; the two ways of asking for a score; what the admin's community route can do to them |
| `LinkRuns.dfy`, `Divergence.dfy` | runs of both services built from any run of the fraud engine, and the reachable states that show the conditions of the theorems at work |

## Reading the model

- Amounts and scores are exact reals, integers are unbounded, `int(x)` truncates toward
  zero. Instants are integers in nanoseconds, a day is 86400 seconds, and the clock
  never goes back. One handler reads the clock once.
- Stored datetimes have millisecond precision, so two snapshots of a community can easily
  carry the same instant. The query for the latest score may then return either;
  `ScoreLink.UniqueLatest` is the assumption that there is no such tie.
- What the stores leave open is part of the event: which open record a leave measures
  and which one the update closes, the order in which active members are listed,
  whether a profile write is accepted. Every general theorem holds for every such choice; a
  run given as an example in `Divergence` makes its own, and `Divergence.AdminRecalcDiverges`
  is the one example that needs a profile write to be accepted.
- `LedgerInterleaving` has one atomic step per store call and any number of joins and
  leaves in flight, while all other handlers may rewrite anything but membership
  records and community statistics. Everywhere else a handler is one atomic step;
  `FraudRuns.AtomicRunIsInterleaving` shows that such runs are among the interleavings.
- The functions the methods are proved equal to carry the constants of the source. The
  modules `UserPoints`, `CommunityPoints`, `PaymentTerms`, `ActivityWeights`, `JoinTrace`,
  `ProfileTrace` and `RecordTrace` write thresholds, weights, shares and counts a second
  time, as tables, formulas and facts about the trace, and prove that scorers, store and
  every run agree with them.
- Communities are looked up by their chat id under the model's `chatId`. The stored
  column named in the queries and the field declared in the row type differ in name.

## What the proofs found

- `active_members` is read by the community score and written nowhere, so no reachable
  score exceeds 75: the status "normal" and the multiplier 1.0 are never published, and
  at most four fifths of the accepted revenue is ever paid
  (`ScoreLink.AtMostFourFifthsIsPaid`).
- Revenue of a frozen community (score below 30), and of no other, is marked distributed
  with nothing paid and never comes back; it is not held for review
  (`PayoutRefs.PaysNothingIffFrozen`). Such payments are reached
  (`Divergence.FrozenPaymentIsReachable`).
- A score that arrives before its community is registered is lost. Once the channel is
  drained and the latest snapshot was published, the two services stand at the same
  multiplier exactly when some score arrived after the registration or the latest lies
  in the band of the initial 50 (`ScoreLink.MultiplierAgreesIff`).
  `Divergence.LateRegistrationDiverges` is a run in which the community service stands at
  0.8 while the latest snapshot says 0.
- The admin route that recalculates a community stores a snapshot and publishes nothing.
  As long as no profile write is accepted this does no harm: the last message always
  carries the last snapshot's score (`AdminRoute.AdminRouteIsHarmless`). With one accepted
  write it can: in `Divergence.AdminRecalcDiverges` the community hears every message and
  stands at 0.8 while the latest snapshot says 0.5. The write names `first_seen` in two
  update operators, a conflict the document store may answer by rejecting it, so that run
  is an input only where such a write goes through. The admin route for users announces
  nothing either (`Announcements.ScoresAreAnnouncedIff`).
- The only route that registers a community leaves the invite hash empty, and the hash
  carries a unique index: through that route one community can be registered and no
  second one (`Registration.RouteRegistrationIff`). The engine's own registration, which
  fills the hash, has no caller. All other results hold for any registrations.
- A leave can raise a community score, from 45 to the neutral 50 in
  `Divergence.LeaveCanRaiseScore`; `CommunityScorer.LeaveRaisesScoreIff` says for which
  counters and trust.
- For a community nobody has scored the message request answers 70 and the HTTP route 50,
  with the same status and multiplier. For a scored one the two may choose different
  snapshots of one instant: `Divergence.TiedAnswersDisagree` is a run of three events after
  which one answer can be Monitored with 0.8 and the other Frozen with 0
  (`ScoreAnswers.AnswersAgreeIff`).
- When a leave overlaps a join, the record it closes can get a negative duration, which
  one reader takes for "still a member" and the other does not.
  `LedgerInterleaving.AgreementExec` says exactly which interleavings do this.
- A custom revenue split is not checked to add up to 100
  (`MoneySafety.AnnouncedSplitIsExactIff`). No path sets one, which is why whole runs are
  safe.

Where documentation and code differ, the model follows the code:
`community-service/NEEDS.md` says that the member count is never incremented, that a
missing document store stops the service, and that member rewards go out as
`community.reward.created`. In the code the join handler increments the count, the store
answers with nothing, and rewards go out as `earning.created`. The user score speaks of
active days but counts activity documents, one per community and day.

## Model

| member | source | states |
|---|---|---|
| LedgerInterleaving.LedgerAgreesInEveryInterleaving | fraud-engine/internal/store/store.go:124-197 | in every state reachable by interleaving the store calls of any joins and leaves, member count = joins - leaves, the join counter is ahead of the records by exactly the joins between counter step and insert, and a community without statistics has no records |
| LedgerInterleaving.LedgerWhenQuiescent | fraud-engine/internal/store/store.go:124-197 | with nothing in flight the join counter equals the number of records and at least member-count many of them are open |
| LedgerInterleaving.RejoinNeverOvercounts | fraud-engine/internal/store/store.go:128-151 | under every interleaving a record's rejoin count is at most the number of records of its key inserted before it |
| LedgerInterleaving.AgreementStep | fraud-engine/internal/store/store.go:155-182 | one store call keeps "open iff negative duration" exactly when it is not a close with a record joined a second or more after the leave's clock reading |
| LedgerInterleaving.AgreementExec | fraud-engine/internal/store/store.go:155-182 | an interleaving ends with both readers of every record in agreement if and only if it contains no such late close |
| LedgerInterleaving.LateCloseIsReachable | fraud-engine/internal/store/store.go:155-182 | a concrete reachable state in which a closed record has a negative duration |
| ProfileInterleaving.EveryCallCounts | fraud-engine/internal/store/store.go:124-197 | from any state and under every interleaving, as long as no other handler rewrites a user's counters, each join and each leave that begins is counted for the user exactly once, what is still ahead of its profile call included on both sides |
| ProfileInterleaving.QuietGrowth | fraud-engine/internal/store/store.go:124-197 | from quiet to quiet the join and leave counters grow by exactly the joins and leaves begun in between |
| FraudStore.Store.RecordJoin | fraud-engine/internal/store/store.go:124-153 | the whole new store content: user counter without upsert, statistics with upsert, record with its rejoin count |
| FraudStore.Store.RecordLeave | fraud-engine/internal/store/store.go:155-197 | the whole new store content for some latest open record measured and some open record closed, or for none open; what this makes of counters, statistics and records over whole runs is in ProfileTrace, CommunityPoints and RecordTrace |
| FraudStore.Store.GetMembershipHistory | fraud-engine/internal/store/store.go:212-223 | exactly the records of the key, latest join first |
| FraudStore.Store.UpdateTrustScore | fraud-engine/internal/store/store.go:93-114 | trust score written to an existing profile only, snapshot always appended |
| FraudStore.Store.UpdateCommunityScore | fraud-engine/internal/store/store.go:254-265 | snapshot appended with the revenue status of its score |
| UserScorer.AvgMembershipDays | fraud-engine/internal/scorer/user_scorer.go:151-160 | the loop computes the mean duration in days, 0 for no memberships |
| UserScorer.CalcRetentionScore | fraud-engine/internal/scorer/user_scorer.go:162-174 | the loop computes 20 times the share of open memberships, 10 for none |
| UserScorer.UniqueCommunities | fraud-engine/internal/scorer/user_scorer.go:176-182 | the loop collects exactly the communities of the memberships |
| UserScorer.Scorer.Calculate | fraud-engine/internal/scorer/user_scorer.go:29-147 | score and breakdown are those of the store content at this instant, which UserPoints.ScoreByTable gives in numbers |
| UserScorer.BreakdownInRange | fraud-engine/internal/store/models.go:103-111 | every component is in its documented range and their sum is in 0..100 |
| UserScorer.UserScoreInRange | fraud-engine/internal/scorer/user_scorer.go:132-146 | the score is in 0..100 and neither the cap at 100 nor the floor at 0 ever acts |
| UserPoints.ScoreByTable | fraud-engine/internal/scorer/user_scorer.go:29-147 | what the scorer returns, factor by factor and if and only if: duration 25, 20, 15, 10, 5, 0 for a mean stay of at least 30, 14, 7, 3, 1 days and below over the joins of the last 90 days; ratio points by comparing 10 leaves with 9, 7, 5, 3 joins, 10 without joins; 0.67 an active day of the last 30 up to 20; 20 times the open share, 10 for none; 0, 3, 7, 10, 3 for 0, 1-2, 3-5, 6-20, over 20 communities; 5 times completions over campaigns; the sum cut to an integer, 85 percent for a profile without photo and name, half for a bot; 50 and zeros for an unknown user |
| UserPoints.SnapshotsFromTrace | fraud-engine/internal/processor/processor.go:187-209 | in every run the user snapshots are, in order, one for each event that scores a user, of that user and time, by that table over the records, profile and activity the event leaves |
| CommunityScorer.Scorer.Calculate | fraud-engine/internal/scorer/community_scorer.go:23-94 | score and breakdown are those of the statistics and the average trust in the store, which CommunityPoints.ScoreByFormula gives in numbers |
| CommunityScorer.RetentionPlusLeaveRateIsOne | fraud-engine/internal/scorer/community_scorer.go:64-105 | for counters that joins and leaves can produce and a nonzero count: retention rate + leave rate = 1, the cap on retention never acts and the branches without joins are not taken |
| FraudRuns.DualRatesAfterEveryRun | fraud-engine/internal/scorer/community_scorer.go:23-105 | in every run each stored snapshot has retention rate + leave rate = 1, or is the neutral 50 of an empty or unknown community; so does the next breakdown of every community with a nonzero count |
| CommunityScorer.CommunityScoreInRange | fraud-engine/internal/scorer/community_scorer.go:23-94 | the score is in 0..75 for every sign of the member count, so its multiplier is at most 0.8 |
| CommunityPoints.ScoreByFormula | fraud-engine/internal/scorer/community_scorer.go:23-94 | for counters joins and leaves can produce: 30 (J-L)/J + 0.3 T + b + 5 cut to an integer and at 0, with b = 0 iff 10 L > 9 J, 3 iff 7 J < 10 L <= 9 J, 6 iff 5 J < 10 L <= 7 J, else 10; every rate of the breakdown; 50 and zeros for J = L |
| CommunityPoints.AnyScoreByFormula | fraud-engine/internal/scorer/community_scorer.go:23-105 | the same for any statistics: 0.5 retention and 5 points without joins, retention capped at 1, 20 times the active share capped at 20, the score between 0 and 100 |
| CommunityPoints.StatsFromTrace | fraud-engine/internal/store/store.go:140-194 | in every run a community's statistics hold the joins of the trace, the leaves after its first join, and their difference |
| CommunityPoints.AverageOverMembers | fraud-engine/internal/store/store.go:288-314 | the average ranges over the open memberships of this community whose user has a profile, one vote each, of the stored trust scores; 50 for none |
| CommunityPoints.SnapshotsFromTrace | fraud-engine/internal/processor/processor.go:211-228 | in every run the community snapshots are, in order, one for each join, leave and community recalculation, by the formula over the joins and leaves of the trace up to it and the mean trust of the open members, with the status of the score |
| CommunityPoints.MessagesAreRated | fraud-engine/internal/processor/processor.go:211-228 | each message of any run carries status and multiplier 1, 0.8, 0.5, 0 exactly for scores from 80, 50, 30 and below |
| CommunityScorer.LeaveRaisesScoreIff | fraud-engine/internal/scorer/community_scorer.go:23-94 | at fixed average trust a leave raises the score if and only if the last member leaves and the joins are at least 4, or are 3, 2 or 1 with three times the trust below 290, 200 or 50 |
| Divergence.LeaveCanRaiseScore | fraud-engine/internal/scorer/community_scorer.go:23-94 | a reachable state in which a leave raises the score from 45 to 50 with the average trust unchanged |
| CommunityScorer.AvgTrustInRange | fraud-engine/internal/store/store.go:288-314 | the average trust of open memberships with a profile is in 0..100, 50 for none |
| Processor.Processor.HandleJoin | fraud-engine/internal/processor/processor.go:107-124 | the handler's whole effect on store, messages and clock: record, detection, user score, community score |
| Processor.Processor.HandleLeave | fraud-engine/internal/processor/processor.go:126-131 | the handler's whole effect, for the records the store picked |
| Processor.Processor.HandleProfileUpdate | fraud-engine/internal/processor/processor.go:133-167 | the profile is replaced or untouched, then the user is rescored and the score announced |
| Processor.Processor.HandleCampaignComplete | fraud-engine/internal/processor/processor.go:169-183 | one more campaign for a known user, completions kept only on a stay, then the user is rescored |
| Processor.Processor.RecalcUserScore | fraud-engine/internal/processor/processor.go:187-209 | score and breakdown computed, stored and announced |
| Processor.Processor.RecalcCommunityScore | fraud-engine/internal/processor/processor.go:211-228 | snapshot stored and published with its status and multiplier |
| Processor.Processor.AdminRecalc | fraud-engine/internal/api/api.go:129-147 | snapshot stored, nothing published |
| Processor.Processor.AdminRecalcUserScore | fraud-engine/internal/api/api.go:108-127 | score and snapshot stored, nothing published |
| Processor.Processor.DetectJoinLoopFraud | fraud-engine/internal/processor/processor.go:232-268 | a fraud event is recorded and announced exactly when at least three records of the key joined after the cutoff |
| Processor.HistoryCount | fraud-engine/internal/processor/processor.go:234-246 | the history query loses no recent join, and the early exit on fewer than three rows loses no event |
| FraudRuns.AtomicRunIsInterleaving | fraud-engine/internal/store/store.go:124-197 | every run of atomic handlers ends in a store content the interleaving model reaches with nothing in flight |
| FraudRuns.LedgerAfterEveryRun | fraud-engine/internal/store/store.go:124-197 | after every run counters, records and open memberships agree for every community |
| ProfileTrace.ProfilesFromTrace | fraud-engine/internal/store/store.go:69-82 | in every run a user has a profile exactly when a profile update of it was accepted, and its counters are the numbers of join and leave events of the user after its last accepted profile write |
| ProfileTrace.EventDescribed | fraud-engine/internal/processor/processor.go:169-183 | one event keeps that description: campaigns count one up at each accepted campaign write, completions are the last streak of stays, name and photo are those last written and gone after a campaign write |
| ProfileTrace.TrustFromSnapshots | fraud-engine/internal/store/store.go:93-114 | in every run the stored trust score is that of the user's last snapshot |
| ProfileTrace.ActivityFromTrace | fraud-engine/internal/store/store.go:227-252 | in every run a document of a user, community and day was touched since an instant exactly when an activity event of them on that day came at or after it |
| ProfileTrace.ActivityTotalsFromTrace | fraud-engine/internal/store/store.go:227-242 | and holds the totals of the messages, replies and reactions of its day |
| RecordTrace.RecordsAreJoins | fraud-engine/internal/store/store.go:124-153 | in every run the records are, in order, those of the join events: user, community, time |
| RecordTrace.ClosedByLeaves | fraud-engine/internal/store/store.go:155-182 | in every run a closed record carries the time of a leave of its own user and community |
| RecordTrace.OpenIsStanding | fraud-engine/internal/store/store.go:155-182 | in every run, whichever records the leaves picked, a user's open records of a community number the joins not left yet, a leave of nothing not counted |
| FraudRuns.ScoresInRangeAfterEveryRun | fraud-engine/internal/store/models.go:33-121 | after every run all profiles keep completions <= campaigns, and all trust scores, snapshots and breakdown components are in range |
| FraudRuns.FullPayoutIsNeverPublished | fraud-engine/internal/processor/processor.go:211-228 | no message of any run carries a score above 75, the status normal or a multiplier above 0.8 |
| FraudRuns.RecordsAfterEveryRun | fraud-engine/internal/store/store.go:124-182 | in every run a record is open iff its duration is -1, a closed one has 0 <= duration <= leave - join, and rejoin counts of a key are exactly 0, 1, 2, ... |
| FraudRuns.DurationsExactWithoutOverlap | fraud-engine/internal/store/store.go:158-182 | on runs that never join while a member, stored durations d satisfy d <= leave - join < d + 1 in seconds |
| Announcements.LoopsAreAnnounced | fraud-engine/internal/processor/processor.go:247-267 | in every run the loops announced are, in order, exactly the fraud events stored |
| Announcements.ScoresAreAnnouncedIff | fraud-engine/internal/processor/processor.go:187-203 | the user scores announced in a run are, in order, exactly the snapshots stored if and only if nobody used the admin route |
| LeaveMonotone.LeaveNeverRaisesTrust | fraud-engine/internal/scorer/user_scorer.go:29-147 | a leave, matched or spurious and whichever record is closed, raises no user's trust score at any later instant |
| LeaveMonotone.LeaveNeverRaisesTrustInAnyRun | fraud-engine/internal/processor/processor.go:126-131 | the same in every reachable state |
| LeaveMonotone.WeakerBreakdown | fraud-engine/internal/scorer/user_scorer.go:38-130 | factor by factor: duration, ratio and retention cannot rise, the others are unchanged |
| JoinLoop.DetectionRefinesTrace | fraud-engine/internal/processor/processor.go:107-124 | the fraud events of a run are exactly those its event history calls for |
| JoinLoop.JoinRaisesEventIff | fraud-engine/internal/processor/processor.go:232-268 | a join raises an event if and only if the third most recent join of its key is later than seven days ago |
| Pages.ListUsersForRecalc | fraud-engine/internal/store/store.go:339-355 | ascending ids above the cursor, at most the limit, and an id is left out only behind a full page of smaller ones |
| Pages.FirstIds | fraud-engine/internal/store/store.go:339-355 | taking smallest ids one at a time gives the first ones of the whole ascending order |
| BatchRecalc.BatchRecalcUsers | fraud-engine/internal/processor/processor.go:287-319 | terminates under any change of the user set between pages; visits a prefix of the full order and rescores exactly the visited users in that order; stops with a store error exactly when the last query it made failed, finishes only after the whole order and all its queries, and stops early only on cancellation |
| Pages.VisitsAscend | fraud-engine/internal/processor/processor.go:287-319 | visited ids are strictly ascending and above the cursor |
| Pages.PresentIsVisited | fraud-engine/internal/processor/processor.go:287-319 | an id present at every query the batch makes is visited |
| Pages.VisitedWasPresent | fraud-engine/internal/processor/processor.go:287-319 | a visited id was present at some query the batch makes |
| Pages.StaticSetIsVisitedExactly | fraud-engine/internal/processor/processor.go:286-319 | on an unchanging user set exactly the positive ids are visited, in order |
| Pages.HundredAPage | fraud-engine/internal/processor/processor.go:287-319 | under any change of the user set every page but the last brings a hundred users and the last fewer |
| BatchRecalc.VisitedIsFresh | fraud-engine/internal/processor/processor.go:187-209 | after the visits every visited user with a profile has a stored trust score equal to the computed one, which no visit of another user changes |
| BatchRecalc.StaticBatchRefreshesAll | fraud-engine/internal/processor/processor.go:286-319 | a batch over unchanging profiles leaves the stored score of every user with a positive id equal to the computed one |
| CommunityStore.Store.CreateCommunity | community-service/internal/store/store.go:26-28 | succeeds exactly when id, chat id, invite link and invite hash are all free |
| RevenueEngine.Engine.RegisterCommunity | community-service/internal/api/api.go:53-95 | a pending community at score 50 if nothing is taken, otherwise no change |
| Registration.InvitesUniqueAfterEveryRun | community-service/internal/store/models.go:39-40 | in every run no two communities share an invite link or an invite hash |
| Registration.RouteRegistersAtMostOne | community-service/internal/api/api.go:76-89 | in a run that registers through the route only, there is at most one community |
| Registration.RouteRegistrationIff | community-service/internal/api/api.go:76-89 | in such a run a registration takes effect if and only if no community is registered yet |
| CommunityStore.Store.GetActiveMembers | community-service/internal/store/store.go:186-200 | every recent activity row of the chat once, in some order; none without a document store |
| CommunityStore.Store.DecrementMemberCount | community-service/internal/store/store.go:249-254 | the count falls by one but not below zero, nothing else changes |
| RevenueEngine.Engine.DistributeRevenue | community-service/internal/engine/engine.go:108-158 | a pending revenue of a known community is paid, recorded and marked; anything else is left alone; both not-found results are returned exactly when the revenue or the community of a pending revenue is missing; PaymentTerms.ClaimTerms gives the parts in numbers |
| RevenueEngine.Engine.DistributeMemberRewards | community-service/internal/engine/engine.go:160-199 | the published rewards and written rows are those of one division of the pool among the active members; ActivityWeights.PaidByWorth gives the weights in numbers |
| ActivityWeights.ScoreByCounters | community-service/internal/store/store.go:203-213 | 2 a message up to 40, 3 a reply up to 30, 1 a reaction up to 15, 5 a day up to 15 |
| ActivityWeights.ScoreFromTrace | community-service/internal/store/store.go:171-213 | in every run a member's score is 2, 3 and 1 times its messages, replies and reactions of the trace, capped at 40, 30 and 15 |
| ActivityWeights.ListedIff | community-service/internal/store/store.go:186-200 | the members a pool is divided among are exactly those whose last activity in the group is at most thirty days old |
| ActivityWeights.PaidByWorth | community-service/internal/engine/engine.go:165-183 | any two members one distribution of a run pays are paid in the proportion of what their activity is worth by the trace |
| ActivityWeights.RowsByWorth | community-service/internal/engine/engine.go:193-197 | it writes one row for each payout: revenue, community, user, amount and what the user's activity is worth |
| ActivityWeights.PaidIff | community-service/internal/engine/engine.go:177-182 | a listed member has a payout if and only if its score is positive and its share of the pool is at least 0.0001 |
| RevenueEngine.Engine.OnRevenueGenerated | community-service/internal/engine/nats_handler.go:92-146 | rejects bad amounts, unknown communities, bad campaigns and duplicates; otherwise creates and distributes |
| RevenueEngine.Engine.HandleJoin | community-service/internal/engine/engine.go:51-88 | one participant row and one more member for an active community and a campaign new to the user, otherwise nothing |
| JoinTrace.StatusFromTrace | community-service/internal/store/store.go:227-230 | in every run a community's status is the last one set since its registration, Pending if none was |
| JoinTrace.EnteredFromTrace | community-service/internal/store/store.go:80-93 | in every run a participant row exists exactly for the users and campaigns that entered a community active by then |
| JoinTrace.JoinCountsIff | community-service/internal/engine/engine.go:51-72 | in every run a join to the chat of a registered community whose last status is Active, with a campaign the user has not entered, adds exactly one member and one row; any other join changes nothing |
| RevenueEngine.Engine.HandleLeave | community-service/internal/engine/engine.go:240-260 | the count of a registered community falls by one, not below zero |
| JoinTrace.LeaveCounts | community-service/internal/engine/engine.go:240-260 | in every run a leave takes one member from the community of its chat, active or not, stops at zero and changes nothing else |
| RevenueEngine.Engine.OnScoreUpdated | community-service/internal/engine/nats_handler.go:149-159 | the score of the community with this chat id is set, if there is one |
| RevenueEngine.Engine.TriggerDistribute | community-service/internal/api/api.go:173-187 | the admin route hands its id to the distribution as a revenue id |
| Rewards.CollectScores | community-service/internal/engine/engine.go:165-175 | the loop keeps exactly the members with a positive score and their total |
| Rewards.RoundingBound | community-service/internal/engine/engine.go:177-198 | paid nanos never exceed the pool, and less than one nano per paid member plus 100000 per skipped member is missing |
| Rewards.PayoutsIgnoreOrder | community-service/internal/engine/engine.go:160-199 | the multiset of payouts is the same for every order of the members |
| Rewards.SharesProportional | community-service/internal/engine/engine.go:177-198 | any two members paid by one distribution are paid in the proportion of their positive scores |
| Rewards.BetterScoreIsPaidMore | community-service/internal/engine/engine.go:177-198 | in one distribution every active member scoring at least as much as a paid one has a payout of at least as many nanos |
| Rewards.LargePoolPaysSomeone | community-service/internal/engine/engine.go:177-198 | a pool of at least 0.0001 per scoring member pays someone |
| RefIds.RefIdInjective | community-service/internal/engine/engine.go:189-189 | a payout reference determines revenue and user, negative ids included |
| RefIds.RefIdParts | community-service/internal/engine/engine.go:189-189 | 36 characters of revenue id, "_m_", and decimal text that reads back as the user |
| MoneySafety.PaymentsAreClaims | community-service/internal/engine/nats_handler.go:104-145 | the payments of a run are exactly the first well-formed revenue events per pair, found from the trace without the revenue table |
| PaymentTerms.ClaimTerms | community-service/internal/engine/engine.go:116-155 | in every run each claim is answered by exactly one block of messages: owner, pool and platform get 0.5, 0.4, 0.1 of amount times multiplier for a group, 0.9, 0, 0.1 for a channel, 0.8, 0, 0.2 otherwise, the income goes to the claim's community, and the multiplier is 1, 0.8, 0.5 or 0 by the score held |
| PaymentTerms.CustomTerms | community-service/internal/store/models.go:55-58 | a split of the community's own gives owner, pool and platform their own percentage, and outside groups no member is paid |
| PaymentTerms.RowsComeFromRegistrations | community-service/internal/engine/engine.go:26-48 | in every run a community carries the id, chat, kind and invite of a registration event, and no split of its own |
| PaymentTerms.ResolvesIff | community-service/internal/engine/nats_handler.go:112-121 | in every run a revenue names a community exactly by its id or its chat |
| MoneySafety.EachPairPaidAtMostOnce | community-service/internal/engine/nats_handler.go:126-145 | all published messages are the blocks of payments with pairwise different revenues and pairs, replays and admin triggers included |
| MoneySafety.AdminTriggerChangesNothing | community-service/internal/api/api.go:173-187 | in every run the admin route, given any id, leaves the whole state unchanged |
| MoneySafety.MoneySafety | community-service/internal/engine/engine.go:108-158 | all earnings of a run never exceed the sum over distinct pairs of accepted amount times multiplier in force |
| MoneySafety.PaymentParts | community-service/internal/engine/engine.go:116-141 | the three parts add up to amount times multiplier, and what is paid is two of them plus the rounded rewards |
| MoneySafety.PaymentOutsideGroupsIsExact | community-service/internal/engine/engine.go:131-141 | outside groups the multiplied amount is paid exactly |
| MoneySafety.GroupPaymentShortfall | community-service/internal/engine/engine.go:131-141 | in groups with a scoring member only rounding and dust are missing |
| MoneySafety.AnnouncedSplitIsExactIff | community-service/internal/store/models.go:55-66 | the parts add up to the multiplied amount if and only if the community is frozen, the split is a default or its percentages sum to 100 |
| PayoutRefs.RewardRefsAreUnique | community-service/internal/engine/engine.go:185-191 | no two member rewards of any run share a reference |
| RewardLedger.RowsMatchRewards | community-service/internal/engine/engine.go:177-198 | in every run the published member rewards are, in order, exactly those the distribution rows call for, each nano value its row's amount truncated; each row is above the dust limit and belongs to a distributed revenue of its own community |
| PayoutRefs.PaysNothingIffFrozen | community-service/internal/engine/engine.go:116-143 | a payment of any run pays nothing if and only if the score was below 30; its revenue is marked distributed and its pair is never paid again |
| Divergence.FrozenPaymentIsReachable | community-service/internal/engine/engine.go:116-143 | a run of both services that delivers a score below 30 and then accepts a revenue |
| MemberCounter.SaturatedIsMaxSuffix | community-service/internal/store/store.go:249-262 | a counter floored at zero equals the largest total of any suffix of its changes |
| MemberCounter.CounterAfterEveryRun | community-service/internal/engine/engine.go:51-88 | after every run the member count is that maximum over the effective joins and leaves, and at most the number of participant rows |
| MemberCounter.ParticipantsAreUnique | community-service/internal/engine/engine.go:60-72 | at most one participant row per campaign and user |
| MemberCounter.ActivityIsTotal | community-service/internal/store/store.go:171-184 | an activity row holds the totals of the increments that reached it, and its day count stays 0 |
| MemberCounter.ActivityIgnoresOrder | community-service/internal/store/store.go:171-184 | runs with the same increments in another order leave the same counters and score |
| MemberCounter.ActivityScoreGrows | community-service/internal/store/store.go:203-213 | under nonnegative increments the score never falls and stays in 0..85, so its cap never acts |
| ScoreLink.AlwaysInStep | community-service/internal/engine/nats_handler.go:149-159 | in all runs of both services a community holds the last score delivered since its registration, or 50 |
| ScoreLink.SnapshotsArePublished | fraud-engine/internal/processor/processor.go:211-228 | unless the admin route wrote last, the last message about a community carries its last snapshot's score |
| ScoreLink.LatestInRun | fraud-engine/internal/store/store.go:267-277 | the latest-score query returns the last snapshot stored when no two carry the same instant, with the status of its score |
| ScoreLink.LastHeardIsLastDelivered | community-service/internal/engine/nats_handler.go:149-159 | a community that has heard a score of its own holds the last one delivered, whatever was lost before |
| ScoreLink.MultiplierAgreesIff | community-service/internal/engine/engine.go:116-116 | once drained, the multiplier applied is that of a latest snapshot, and the score held is in the band of its status, if and only if the last score published (for a community that has heard one since its registration) or the initial 50 (for one that has not) is in the snapshot's band; if it is the only latest one and was published: if and only if the community has heard one or the snapshot is in the band of 50 |
| LinkRuns.InTimeAgrees | community-service/internal/engine/engine.go:116-116 | once drained, multiplier and status agree for every community registered before its first score arrives whose one latest snapshot was published |
| ScoreAnswers.HandleScoreRequest | fraud-engine/internal/processor/processor.go:356-389 | the answer is that of a latest snapshot, or unknown with 70 |
| ScoreAnswers.GetCommunityScore | fraud-engine/internal/api/api.go:75-107 | the answer is that of a latest snapshot, or unknown with 50 |
| ScoreAnswers.AnswersAgreeIff | fraud-engine/internal/processor/processor.go:356-389 | in every run, two queries that each choose among the latest snapshots both carry the status and multiplier of their score; they agree on status and multiplier if and only if there is no snapshot or the two chosen lie in one band, and on everything if and only if there is one and the two carry one score |
| ScoreAnswers.AnswersAgreeOnUniqueLatest | fraud-engine/internal/store/store.go:267-277 | with only one latest snapshot both answers are equal |
| Divergence.TiedAnswersDisagree | fraud-engine/internal/store/store.go:267-277 | a reachable store with two latest snapshots from which one answer is 0.8 and the other 0 |
| ScoreAnswers.UnscoredCommunity | fraud-engine/internal/processor/processor.go:368-378 | in every run of both services a community never scored is answered as unknown, monitored, 0.8 both ways, with 70 on request and 50 on the route, and if registered holds a score of that status and multiplier |
| ScoreAnswers.PaidAtHeldRate | community-service/internal/engine/engine.go:116-116 | in every run of both services an accepted revenue is paid at the multiplier of the score held |
| ScoreAnswers.UnheardIsPaidAtInitialRate | community-service/internal/engine/engine.go:116-116 | a revenue accepted for a community that has heard no score of its own is paid at 0.8 |
| ScoreAnswers.HeardIsPaidAtLatestRate | community-service/internal/engine/engine.go:116-116 | a revenue accepted with the channel drained, for a community that has heard one, is paid at the multiplier of its one latest snapshot if that was published |
| ScoreLink.AtMostFourFifthsIsPaid | community-service/internal/engine/engine.go:116-141 | over all runs of both services at most 0.8 of the accepted revenue is paid |
| AdminRoute.AdminRouteIsHarmless | fraud-engine/internal/api/api.go:128-147 | in every run without an accepted profile write the last message about a community carries its last snapshot's score, admin recalculations included |
| AdminRoute.AgreementWithoutProfileWrites | fraud-engine/internal/api/api.go:128-147 | so in such runs a drained community stands at the multiplier of its one latest snapshot, whoever stored it, if and only if it has heard a score or the snapshot is in the band of 50 |
| Divergence.AdminRecalcDiverges | fraud-engine/internal/api/api.go:128-147 | given one accepted profile write: a drained run of both services in which the community hears every message and stands at 0.8 while its only latest snapshot says 0.5 |
| Divergence.LateRegistrationDiverges | community-service/internal/store/store.go:222-225 | a drained run in which a community registered after its scores went by stands at 0.8 while its only latest snapshot, a published one, says 0 |
| LinkRuns.EverythingHeard | community-service/internal/engine/nats_handler.go:149-159 | every run of the fraud engine extends to a drained run of both services in which a community registered first hears every message |
| LinkRuns.NothingHeard | community-service/internal/engine/nats_handler.go:149-159 | and to one in which it registers after the last delivery and hears none |

## Left out

- HTTP and JSON handling, admin keys, database and message connections, logging, configuration and the retry wrapper: plumbing without state of its own.
- Rounding of float64 and integer overflow: amounts are exact reals, integers unbounded; a not-a-number or infinite revenue, which the handler rejects, has no counterpart.
- Store and network failures, and crashes between publishing and marking: calls succeed, except the constraint violations that the model states. The at-most-once results are about handlers run one at a time; the pending check and the mark are not one transaction.
- Reason texts of both breakdowns, the label in `user.score.updated`, label functions and the weighted member count: explanatory or easy.
- The exact outcome of a profile write, which names one field in two update operators: every general result covers both acceptance and rejection; `Divergence.AdminRecalcDiverges` is a run with one accepted write.
- Source and campaign of a membership record, names other than the username, the validation window and the making of invite hashes: read by nothing modelled.
- Participant validation, its timers and the periodic worker, and the listener set that is never registered: no terminal participant states are claimed.
- Processor.Processor.HandleProfileUpdate: does not record the history of user names and first names, which no handler reads.
- Processor.Processor.HandleJoin: reads the clock once, where the source reads it for the record, the cutoff and each score; so do the other handlers.
- BatchRecalc.BatchRecalcUsers: one clock reading for the whole batch; what other handlers write between its visits is in the user sets of its queries, not in the store it rescores.
- Equality of the announced members' part with what members received: with no active members, or without a document store, nothing is paid from the pool.
