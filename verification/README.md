# SocTalk: a verified model

SocTalk triages security alerts for managed-security providers. This project models the parts
of it that decide what happens to an alert, and proves what the rest of the system relies on.

- **Alert ingest.** An adapter polls a sorted index by a keyset cursor, cuts each page with a
  token bucket, posts the events to a control plane that deduplicates by event id, and saves a
  durable cursor. Any call may be lost before or after its effect, or arrive late; the process
  may restart at any time. `Adapter.dfy`, `TokenBucket.dfy` and `ControlPlane.dfy` hold the
  classes; `AdapterSpec.dfy` the transitions they are proved against; `IngestProtocol.dfy`,
  `IngestProgress.dfy`, `DrainRate.dfy`, `CheckpointSync.dfy`, `CheckpointResume.dfy`, `ShedMode.dfy`
  and `ShedRestart.dfy` the properties of whole runs.
- **Authorization.** An evaluator decides from grants, prohibitions, freezes and trust-ranked
  entity records whether an activity was expected. `AuthorizationEngine.dfy` and `EntityKey.dfy`
  hold the evaluator and the JSON tiebreak; `AuthorizationOrder.dfy`, `AuthorizationCoverage.dfy`,
  `AuthorizationMonotone.dfy`, `AuthorizationRules.dfy` and `AuthorizationBlocks.dfy` its properties;
  `AskOnce.dfy` the question put to an analyst and the grant that answers it; `OrgState.dfy` and
  `Stackless.dfy` the rows facts are made of and their projection; `RowVerdicts.dfy` the verdict read
  off the rows.
- **Smaller cores.** The setup wizard's rate limiter (`RateLimiter.dfy`, whole runs in
  `LimiterRuns.dfy`) and env file (`ShellQuote.dfy`, read back by sections 2.2 and 2.3 of the Shell
  Command Language in POSIX.1-2017), the correlation attach rule (`Correlation.dfy`), the structured-output retry loop
  (`StructuredRetry.dfy`), the Luhn check (`Luhn.dfy`) and the balanced picker (`CherryPick.dfy`).

`dafny verify dfyconfig.toml` checks the whole project.

## Where the code departs from its documentation, or may surprise

The model follows the code. Each point is a lemma with the exact condition or a concrete case.

- The checkpoint upsert overwrites the event id on an equal timestamp, so a stale save can move
  the durable cursor back (`ControlPlanes.MergeMovesBackIff`), and an adapter that reports `ok` can
  be ahead of it (`CheckpointSync.StalePutRun`).
- A backlog is promised to drain at the configured rate. It does, except where a full page fits
  into the bucket and the rate exceeds a page per interval: then it drains by one page per
  interval, because a poll that defers nothing sleeps the whole interval
  (`DrainRate.RateIsKeptIff`, `DrainRate.DrainsByThePage`).
- The drop counter of shed mode can exceed what is lost: it counts events that had been accepted
  before a restart lost its place, and what a poll cut off before its post failed
  (`ShedMode.LossIsExact`, `ShedMode.CounterIsLossIff`, `ShedRestart.RestartRedoes`).
- The correlation replay attaches to the investigation of the first bound key, not to the oldest one
  that shares a key (`Correlation.FollowsStatedRuleIff`, `Correlation.NotAlwaysTheOldest`), not even
  for an event with a single key (`Correlation.SingleKeyMissesTheOldest`); and events that share a
  key may end up apart once an event bridges two investigations (`Correlation.SharersTogetherIff`).
- On the FIM track several tickets may be needed, one for each freeze
  (`AuthorizationCoverage.FimOneGrantIff`, `AuthorizationCoverage.FimMayNeedTwoGrants`).
- The minted FIM grant can be a wildcard (`AskOnce.MintedFimGrantIsExactIff`), and any grant of
  the tenant and track ends the asking for all activities (`AskOnce.AnyGrantEndsAsking`).
- A recurring window across midnight never matches (`AuthorizationRules.WindowMatchesIff`).
- A reasoning turn that calls a tool is followed by the extraction prompt, not by tool results
  (`StructuredRetry.ExtractBasePaired`); the usage returned misses the retries
  (`StructuredRetry.UsageMissesRetries`).
- The wizard's limiter locks each call, not each request, so requests of one address that overlap
  escape it: with c requests in flight an hour holds up to 9 + c failures, not ten, so without a
  bound on c there is no budget at all (`LimiterRuns.HourlyBudgetIff`); failures keep their 30
  seconds exactly for c <= 1 (`LimiterRuns.SpacedIff`); and an expired block leaves an empty
  history exactly for c <= 2, because a success in between forgets the history but not the
  block (`LimiterRuns.ExpiryIff`).

## Model

| member | source | states |
|---|---|---|
| Adapters.QueryAlerts | src/soctalk_adapter/main.py:537-583 | a poll returns exactly the first `limit` documents that sort after the keyset cursor |
| Adapters.Adapter.constructor | src/soctalk_adapter/main.py:68-105 | a new process starts at the initial timestamp, with zero counters and a full bucket |
| Adapters.Adapter.Load | src/soctalk_adapter/main.py:586-605 | loading is the specified transition; `CheckpointResume.RestartResumes` says where a restarted process then stands |
| Adapters.Adapter.Save | src/soctalk_adapter/main.py:608-631 | a save sets the sync flags by its outcome and reaches the control plane unless it was lost before |
| Adapters.Adapter.MapHits | src/soctalk_adapter/main.py:833-839 | the mapping loop keeps exactly the mappable hits, in order |
| Adapters.Adapter.CutToCapacity | src/soctalk_adapter/main.py:844-865 | the bucket decides how many events go out; the rest is booked as deferred or dropped by mode |
| Adapters.Adapter.Post | src/soctalk_adapter/main.py:867-886 | a failed post raises and counts nothing; a delivered one splits the batch into forwarded and duplicate |
| Adapters.Adapter.MoveCursor | src/soctalk_adapter/main.py:898-904 | a new cursor is adopted and saved; the old one is not saved again |
| Adapters.Adapter.PostAndAdvance | src/soctalk_adapter/main.py:867-904 | posting and moving the cursor together are the specified delivery step, for every fault of the two calls |
| Adapters.Adapter.Ingest | src/soctalk_adapter/main.py:805-912 | one ingest is the specified transition of adapter and control plane, for every fault of every call |
| Adapters.Adapter.Poll | src/soctalk_adapter/main.py:732-774 | one poll cycle is the specified transition, failure count, last success and repeated save included |
| Adapters.Adapter.ComputeHealth | src/soctalk_adapter/main.py:113-157 | `ok` exactly when the adapter is disabled or all health conditions hold; each reason is listed exactly when it applies |
| Keyset.RankSplits | src/soctalk_adapter/main.py:537-583 | the cursor splits the sorted index into what it has passed and what is ahead |
| Keyset.RankOfKey | src/soctalk_adapter/main.py:893-900 | a cursor at a document has passed exactly the documents up to it |
| Keyset.EventPosition | src/soctalk_adapter/main.py:833-896 | the m-th event of a page and where it stands among the hits |
| Keyset.PassedEvents | src/soctalk_adapter/main.py:833-896 | the first m events of a page are exactly the events between the cursor and the last of them |
| Keyset.GrowthKeepsRank | src/soctalk_adapter/main.py:537-583 | documents that appear past the cursor leave what it has passed alone |
| ControlPlanes.ControlPlane.IngestEvents | src/soctalk/core/api/adapter.py:102-180 | a batch adds exactly the unseen ids and reports the others as duplicates |
| ControlPlanes.ControlPlane.PutCheckpoint | src/soctalk/core/api/adapter.py:225-261 | the upsert of the cursor as the SQL performs it |
| ControlPlanes.AcceptsOnce | alembic/versions/v1_0018_source_events_and_checkpoints.py:102-107 | no id is ever accepted twice, whatever batches arrive |
| ControlPlanes.AcceptMembers | src/soctalk/core/api/adapter.py:102-180 | an id is accepted after a batch exactly when it was before or is in the batch |
| ControlPlanes.AcceptExtends | src/soctalk/core/api/adapter.py:102-180 | nothing accepted is forgotten; new and duplicate events add up to the batch |
| ControlPlanes.MergeMovesBackIff | src/soctalk/core/api/adapter.py:232-247 | the durable cursor is promised never to move back; it does exactly on a put with the stored timestamp and a smaller id |
| ControlPlanes.MergeReachesPut | src/soctalk/core/api/adapter.py:232-247 | right after a put the durable cursor is at or past what was put |
| IngestProtocol.ForwardingCovers | src/soctalk_adapter/main.py:867-904 | moving the cursor to the last forwarded event leaves nothing unaccepted behind it |
| IngestProtocol.PollKeepsSafe | src/soctalk_adapter/main.py:732-912 | a poll keeps the safety invariant under every combination of faults |
| IngestProtocol.StepKeepsSafe | src/soctalk_adapter/main.py:586-912 | so does every step: growth, restart, load, poll, a post or a save that arrives late |
| IngestProtocol.RunIsSafe | src/soctalk_adapter/main.py:586-912 | the safety invariant holds in every state of every run |
| IngestProtocol.NothingLostNothingTwice | src/soctalk_adapter/main.py:805-912 | defer mode, every run: each event at or before the in-memory or durable cursor is accepted, none twice, and nothing else is |
| IngestProgress.PollProgress | src/soctalk_adapter/main.py:833-904 | a fault-free poll moves the cursor exactly when the page has an event and the bucket a token; it then moves forward and cuts the backlog by what it forwards |
| IngestProgress.ForwardsExactly | src/soctalk_adapter/main.py:833-904 | with k whole tokens and backlog B it forwards exactly min(batch, k, B), however many events share a timestamp |
| IngestProgress.BacklogShrinks | src/soctalk_adapter/main.py:893-904 | forwarding m events of a page cuts the backlog by exactly m |
| IngestProgress.Drains | src/soctalk_adapter/main.py:826-904 | B fault-free polls with a token drain a backlog of B |
| IngestProgress.EverythingIsDelivered | src/soctalk_adapter/main.py:683-912 | from any safe state, as many fault-free polls as there is backlog leave every event accepted |
| IngestProgress.GapGivesToken | src/soctalk_adapter/main.py:181-193 | 1/rate seconds after the last touch there is a whole token |
| IngestProgress.EventlessPageStallsForever | src/soctalk_adapter/main.py:833-839 | were a full page to hold no mappable document, the cursor would never move again, whatever is appended |
| IngestProgress.PostedBound | src/soctalk_adapter/main.py:841-865 | between restarts, what polls post in a stretch of time is at most burst + rate × elapsed, whatever the network does and however the loop sleeps |
| DrainRate.RoundIsRun | src/soctalk_adapter/main.py:726-730 | a round of the loop, poll, pacing and growth, is three steps of the protocol |
| DrainRate.TokensKept | src/soctalk_adapter/main.py:790-802 | unless the poll empties the backlog, the next one finds what it left and at least r tokens for each second of the sleep |
| DrainRate.DrainsAtRate | src/soctalk_adapter/main.py:790-802 | a backlog no poll has emptied is at most what it was plus what arrived, less r per second, plus one burst, for every r the limiter grants and, where a page fits into the bucket, a page per interval allows |
| DrainRate.BacklogIsDelivered | src/soctalk_adapter/main.py:726-731 | once r × elapsed exceeds backlog, arrivals and burst together, some poll has left every event indexed by then accepted |
| DrainRate.DrainsByThePage | src/soctalk_adapter/main.py:790-802 | where the page fits into the bucket and the rate is no less than a page per interval, a backlog drains by exactly a page per interval as long as more than a page is ahead |
| DrainRate.FallingBehind | src/soctalk_adapter/main.py:790-802 | where a page fits into the bucket and the rate exceeds a page per interval, a process that starts polling a large enough index with a full bucket falls behind the configured rate |
| DrainRate.RateIsKeptIff | src/soctalk_adapter/main.py:790-802 | promised for every configuration, the configured rate drains the backlog in every run exactly when a page does not fit into the bucket or a page per interval is not less than the rate |
| CheckpointSync.StepSyncIff | src/soctalk_adapter/main.py:608-631 | a step breaks the sync exactly when it is a late save with the stored timestamp and an id before the cursor of a synced adapter that has moved |
| CheckpointSync.SyncedMeansDurable | src/soctalk_adapter/main.py:608-631 | every run: a synced adapter has its cursor durable, or has not moved, throughout, exactly as long as no such save arrives |
| CheckpointSync.StalePutRun | src/soctalk/core/api/adapter.py:232-247 | a run that ends `ok` and synced with the durable cursor behind the in-memory one |
| CheckpointSync.CompletesIffResult | src/soctalk_adapter/main.py:732-774 | a poll completes exactly when token, query and needed post succeed; only then the failure count is reset |
| CheckpointSync.HealthTracksPolls | src/soctalk_adapter/main.py:732-774 | over every run the failure count is the streak of failed polls and the last success the last completed poll of the process |
| CheckpointSync.OkMeansFlowing | src/soctalk_adapter/main.py:113-157 | an adapter that polls and says `ok` has no failure since the last completed poll, is fresh, and, unless such a save arrived, its cursor is durable |
| CheckpointSync.HealthyIff | src/soctalk_adapter/main.py:113-157 | `ok` in the readings of the process, the stale window written out: two minutes or three intervals, whichever is longer |
| CheckpointResume.RestartResumes | src/soctalk_adapter/main.py:586-605 | a restarted process that loads stands at the stored cursor, or at the start if none is stored; one whose load fails stands at the start and does not count as loaded; a failed load changes nothing |
| CheckpointResume.LoadedPostsAhead | src/soctalk_adapter/main.py:586-912 | over every run: from the load of a stored cursor until the next restart, the process stays at or past it and posts only events past it |
| CheckpointResume.NothingPostedTwice | src/soctalk_adapter/main.py:586-912 | every run from the start, restarts included, in which nothing comes between the adapter and its checkpoint: no poll posts an event accepted before, and no duplicate is counted |
| CheckpointResume.IngestSavesWhenMoved | src/soctalk_adapter/main.py:898-904 | an ingest saves exactly when it moved the cursor, and reports that as `advanced` |
| CheckpointResume.SavesWhenDue | src/soctalk_adapter/main.py:754-774 | a completed poll sends its cursor exactly when the cursor moved, the last save had failed, or the process has neither loaded nor saved; if what it sends is confirmed, the process is in sync and the durable cursor at or past its own |
| ShedMode.PollAccounts | src/soctalk_adapter/main.py:844-886 | every completed poll: mapped = forwarded + deferred + dropped, and each counter moves by its share |
| ShedMode.FailedPollCountsNothing | src/soctalk_adapter/main.py:732-774 | a failed poll leaves the forwarding counters, the cursor and the durable cursor alone |
| ShedMode.CountersSumBatches | src/soctalk_adapter/main.py:882-886 | within one process, start-up included, forwarded + duplicate grow by the sum of the forwarded batches |
| ShedMode.LossIsBounded | src/soctalk_adapter/main.py:844-904 | shed mode, every run of one started process: events passed but never accepted number at most `alerts_dropped_rate_limit` |
| ShedMode.LossIsExact | src/soctalk_adapter/main.py:844-904 | and exactly, whatever fails: the counter gains the loss, plus shed events that the control plane holds, plus what polls with a failed post booked, plus lost events whose ids a post brought |
| ShedMode.AdvanceLosesExactly | src/soctalk_adapter/main.py:844-904 | one advance loses exactly the unsent events of its page that the log does not hold, and what was lost stays lost unless the page brings its id |
| ShedMode.CounterIsLossIff | src/soctalk_adapter/main.py:844-904 | if no post fails and ids are distinct, the counter gains exactly the loss if and only if no poll sheds an event accepted before |
| ShedMode.FreshStartCountsItsLoss | src/soctalk_adapter/main.py:844-904 | so it does in a process that starts with nothing accepted ahead of its cursor |
| ShedRestart.RestartRedoes | src/soctalk_adapter/main.py:844-904 | a run without a failed post in which a restart after lost saves makes the counter count an accepted event |
| TokenBuckets.TokenBucket.constructor | src/soctalk_adapter/main.py:172-180 | a fresh bucket is full |
| TokenBuckets.TokenBucket.DoRefill | src/soctalk_adapter/main.py:181-184 | the in-place refill is the specified one |
| TokenBuckets.TokenBucket.DoTake | src/soctalk_adapter/main.py:186-193 | the in-place take is the specified one; allowed and excess add up to n |
| TokenBuckets.TokenBucket.DoSecondsUntil | src/soctalk_adapter/main.py:195-203 | `seconds_until` as specified, its refill included |
| TokenBuckets.TakeStaysWithinBurst | src/soctalk_adapter/main.py:181-193 | 0 <= tokens <= burst is kept and 0 to n events are admitted |
| TokenBuckets.AdmissionBound | src/soctalk_adapter/main.py:160-203 | over any stretch of any run of an enabled limiter at most burst + rate × elapsed is admitted |
| TokenBuckets.DisabledAdmitsEverything | src/soctalk_adapter/main.py:186-193 | everything is admitted exactly when the rate is not positive, so there no such bound holds |
| TokenBuckets.WaitThenTake | src/soctalk_adapter/main.py:195-203 | after exactly `seconds_until(n)` the next take admits min(n, burst), or all of n when disabled |
| TokenBuckets.ShorterWaitIsTooShort | src/soctalk_adapter/main.py:195-203 | any shorter wait is not enough |
| TokenBuckets.WholeTokenAdmits | src/soctalk_adapter/main.py:186-193 | a take admits something exactly when disabled or holding a whole token |
| TokenBuckets.ComputeNextSleep | src/soctalk_adapter/main.py:790-802 | the sleep after a poll, and its effect on the bucket |
| TokenBuckets.RefillTwice | src/soctalk_adapter/main.py:181-203 | the refill done for the pacing changes nothing for the next poll |
| TokenBuckets.EarlyRepollIsWorthIt | src/soctalk_adapter/main.py:790-802 | the loop sleeps at most the interval, and if less, the next poll finds the tokens it woke up for |
| EntityKey.EntityResolutionKey | src/soctalk/authorization/engine.py:109-124 | the tiebreak is the canonical JSON text of attributes and trust in field order, defaults filled; id and envelope play no part |
| EntityKey.EscapeDelimits | src/soctalk/authorization/engine.py:124 | an escaped JSON string ends where its text says, for all Unicode text |
| EntityKey.MembersDelimit | src/soctalk/authorization/engine.py:112-124 | JSON objects of one shape have equal text only when all members are equal |
| EntityKey.EqualKeysAgree | src/soctalk/authorization/engine.py:109-124 | records of one kind with equal trust and equal keys agree on every attribute of the field order |
| EntityKey.TextLessTransitive | src/soctalk/authorization/engine.py:170 | the order of keys is transitive |
| EntityKey.TextLessTotal | src/soctalk/authorization/engine.py:170 | and total, so that ties are equal keys |
| EntityKey.TextLessIff | src/soctalk/authorization/engine.py:170 | one text is before another exactly when it has the smaller character where they first differ, or is a proper beginning of it |
| EntityKey.AssetKeyText | src/soctalk/authorization/engine.py:70-78 | the key of an asset record, member by member, defaults filled in |
| EntityKey.PathKeyText | src/soctalk/authorization/engine.py:79-87 | the same for a watched path |
| EntityKey.AccountKeyText | src/soctalk/authorization/engine.py:88-96 | the same for an account |
| EntityKey.OrgKeyText | src/soctalk/authorization/engine.py:97-100 | the same for an organisation |
| EntityKey.GreaterOwnerText | src/soctalk/authorization/engine.py:109-124 | two asset records alike but for the owner: the greater owner makes the greater key |
| AuthorizationEngine.ComputeAccountComponents | src/soctalk/authorization/engine.py:326-401 | the loops of `_acct_components` compute the specified components, which `AuthorizationBlocks` and `RowVerdicts` pin down in the fields of facts and rows |
| AuthorizationEngine.ComputeFimComponents | src/soctalk/authorization/engine.py:435-491 | the loops of `_fim_components` compute the specified components, likewise |
| AuthorizationOrder.MaxIsGreatest | src/soctalk/authorization/engine.py:160-188 | no record outranks the one `max` picks; `AuthorizationOrder.GreatestSpeaks` says so of trust and key text |
| AuthorizationOrder.GreatestSpeaks | src/soctalk/authorization/engine.py:160-170 | of all facts about an entity none has more trust than the record that speaks for it, none of the same trust a key text that comes after its key text, and the record is that of one of them |
| AuthorizationOrder.GreatestAccountSpeaks | src/soctalk/authorization/engine.py:173-188 | the same for an account, among its records of known type |
| AuthorizationOrder.GreaterOwnerSpeaks | src/soctalk/authorization/engine.py:160-170 | two records of one asset alike in trust and in all but the owner: the greater owner speaks |
| AuthorizationOrder.GreatestTie | src/soctalk/authorization/engine.py:160-188 | whatever the order of the records, the resolved ones tie in trust and key |
| AuthorizationOrder.ViewsAgree | src/soctalk/authorization/engine.py:160-248 | lists with the same entity facts show the same asset, account, path, links and actor |
| AuthorizationOrder.OrderDoesNotMatter | src/soctalk/authorization/engine.py:521-600 | every permutation and repetition of the facts gives the same components and the same class |
| AuthorizationOrder.InertFactsDoNotMatter | src/soctalk/authorization/engine.py:127-145 | interleaving wrong-track, foreign-tenant, unscoped or superseded facts changes nothing |
| AuthorizationCoverage.InScopeIsSanctioned | src/soctalk/authorization/engine.py:266-341 | what is in scope is sanctioned, on both tracks |
| AuthorizationCoverage.AccountInScopeIff | src/soctalk/authorization/engine.py:538-562 | account track: in scope exactly when `find_covering_grants` finds something and the organisations are linked |
| AuthorizationCoverage.AccountNeedsOneGrant | src/soctalk/authorization/engine.py:10-11 | account track: in scope exactly when some one grant, kept alone, still gives in scope |
| AuthorizationCoverage.FimInScopeIff | src/soctalk/authorization/engine.py:456-468 | FIM track: in scope exactly when something covers and each active freeze is excepted by a covering ticket |
| AuthorizationCoverage.FimOneGrantIff | src/soctalk/authorization/engine.py:456-468 | FIM track: a single grant suffices exactly when one covering ticket excepts all active freezes, or none is active and a baseline covers |
| AuthorizationCoverage.FimMayNeedTwoGrants | src/soctalk/authorization/engine.py:10-15 | the single-record rule is stated for both tracks; on FIM two tickets may be in scope together though neither is alone |
| AuthorizationCoverage.ClassIff | src/soctalk/authorization/engine.py:568-600 | `absent` exactly when no selected grant and no applicable prohibition, `covered` exactly when in scope and allowed, else `contradicted` |
| AuthorizationMonotone.GrantsNeverHurt | src/soctalk/authorization/engine.py:326-491 | adding any grants never turns a component false nor loses `covered` |
| AuthorizationMonotone.BlocksNeverHelp | src/soctalk/authorization/engine.py:254-484 | adding any freezes and prohibitions never turns a component true nor gains `covered` |
| AuthorizationRules.LowTrustDoesNotSpeak | src/soctalk/authorization/engine.py:160-248 | records outranked by trust change nothing, links included, unless they flag an account as compromised |
| AuthorizationRules.FlagIsNeverOutranked | src/soctalk/authorization/engine.py:191-200 | one selected record that flags the account suffices to make the actor not genuine |
| AuthorizationRules.BreakGlassNeedsCoveringEmergency | src/soctalk/authorization/engine.py:364-394 | an applicable prohibition is overcome only if it allows break-glass, the account has it, and an emergency change is among the covering grants |
| AuthorizationRules.FreezesGateTicketsOnly | src/soctalk/authorization/engine.py:254-263 | account track: the covering grants are those without freezes, less the tickets a freeze blocks |
| AuthorizationRules.WindowMatchesIff | src/soctalk/authorization/engine.py:211-231 | a recurring window matches on the clock of the activity, inclusive to the microsecond at both ends; one across midnight never does |
| AuthorizationBlocks.ProhibitionDecides | src/soctalk/authorization/engine.py:362-394 | account track: a prohibition on file decides policy and nothing else; with it the activity is allowed exactly when it is without it and the prohibition is waived, not high, for another action, account kind, environment, criticality or data class, or overcome by break-glass |
| AuthorizationBlocks.StandingProhibitionContradicts | src/soctalk/authorization/engine.py:362-394 | one that applies and is not overcome makes the class `contradicted`, whatever grants there are |
| AuthorizationBlocks.IdleProhibition | src/soctalk/authorization/engine.py:362-394 | one without occasion can be taken off file without changing components or class |
| AuthorizationBlocks.ChangeProhibitionDecides | src/soctalk/authorization/engine.py:472-484 | FIM track: the same over waiver, priority, class, no class listed meaning any, and kind of change; break-glass needs only a covering emergency change |
| AuthorizationBlocks.StandingChangeProhibitionContradicts | src/soctalk/authorization/engine.py:472-484 | FIM track: one that applies and is not overcome makes the class `contradicted` |
| AuthorizationBlocks.IdleChangeProhibition | src/soctalk/authorization/engine.py:472-484 | FIM track: one without occasion can be taken off file |
| AuthorizationBlocks.FreezeBlocksExactly | src/soctalk/authorization/engine.py:254-263 | account track: a freeze takes out of the covering grants exactly the change tickets it does not except, from its start to its end, both included, and in the environments it lists |
| AuthorizationBlocks.IdleFreeze | src/soctalk/authorization/engine.py:254-263 | one that has not begun, is over or is for other environments can be taken off file without changing components or class |
| AuthorizationBlocks.ChangeFreezeDecides | src/soctalk/authorization/engine.py:456-468 | FIM track: a freeze decides scope and nothing else; with it the change is in scope exactly when it is without it and the freeze is for other classes, not begun, over, or excepted by a covering ticket |
| AuthorizationBlocks.StandingChangeFreezeBlocks | src/soctalk/authorization/engine.py:456-468 | FIM track: one that is on, for the class, and excepted by no covering ticket takes the change out of scope |
| AuthorizationBlocks.IdleChangeFreeze | src/soctalk/authorization/engine.py:456-468 | FIM track: one that has not begun, is over or is for other classes can be taken off file |
| Glob.LiteralMatchesOnlyItself | src/soctalk/authorization/engine.py:417 | a pattern without wildcards matches only itself |
| Glob.WildcardMatchesAnother | src/soctalk/authorization/engine.py:417 | a pattern with a wildcard matches some other name too |
| AskOnce.AskedIff | src/soctalk/authorization/question.py:72-106 | the question is asked exactly on needs_more_info, without malicious signal, grant on file or prohibition, and with a genuine actor |
| AskOnce.QuestionAsks | src/soctalk/authorization/question.py:55-106 | what is asked about is the activity's own subject, target and action, or path and kind of change, and nothing wider |
| AskOnce.AnyGrantEndsAsking | src/soctalk/authorization/question.py:95-97 | a live grant of the tenant and track ends the asking for every activity of the track |
| AskOnce.AbsentAgainIffForeign | src/soctalk/authorization/question.py:109-137 | after the grant is added the class is `absent` again exactly when it is not stamped with the tenant of the context |
| AskOnce.AnswerSettles | src/soctalk/core/api/authorization.py:293-301 | a stamped answer makes the activity `covered` exactly when no active freeze stands against it and, by track, the organisations link or the path matches itself; else `contradicted` |
| AskOnce.MintedAccountGrantIsExact | src/soctalk/authorization/question.py:55-59 | account: the minted grant covers exactly the same subject, target and action up to its expiry |
| AskOnce.AnswerAcceptedIff | src/soctalk/core/api/authorization.py:293-301 | an answer is accepted exactly when the same activity, an instant later, is still in scope by its grant alone |
| AskOnce.MintedFimGrantCovers | src/soctalk/authorization/question.py:55-59 | FIM: the minted grant covers what its path matches as a pattern, with the same kind of change unless that is `any`, up to its expiry |
| AskOnce.MintedFimGrantIsExactIff | src/soctalk/authorization/question.py:55-59 | promised never to be a wildcard, it covers another path or kind of change exactly when the path has `*` or `?` or the kind is `any` |
| OrgState.FactsFromAccountState | src/soctalk/authorization/adapter.py:102-241 | the loops turn the account-track rows into the specified facts, in order; `RowVerdicts.AccountVerdict` says what those facts amount to |
| OrgState.FactsFromFimState | src/soctalk/authorization/adapter.py:244-320 | the same for the FIM track, with `RowVerdicts.FimVerdict` |
| RowVerdicts.AccountVerdict | src/soctalk/authorization/adapter.py:102-241 | turning rows into facts and evaluating those: each of the four components holds exactly under its condition on the fields of the ticket, baseline, sighting, policy, freeze, asset, account and organisation rows |
| RowVerdicts.FimVerdict | src/soctalk/authorization/adapter.py:244-320 | the same over change requests, baselines, freezes, policies and path rows |
| Stackless.ProjectionIsIdempotent | src/soctalk/authorization/adapter.py:326-366 | projecting twice is projecting once |
| Stackless.ProjectsAlikeIff | src/soctalk/authorization/adapter.py:340-355 | two account-track states project alike exactly when they agree on host, sightings, compromised accounts, names and kinds of accounts, and names, compromise and reliability of assets |
| Stackless.PathsProjectAlikeIff | src/soctalk/authorization/adapter.py:356-366 | two FIM states exactly when they agree on the path and on names, compromise and reliability of the path rows |
| Stackless.StacklessInScopeIff | src/soctalk/authorization/adapter.py:326-376 | account track: the projection is in scope exactly through non-IOC sightings of the tuple seen at least five times, and policy allows |
| Stackless.InScopeCarriesOver | src/soctalk/authorization/adapter.py:326-376 | what the projection has in scope is in scope in the full state exactly when the organisations are linked there |
| Stackless.GenuineIff | src/soctalk/authorization/adapter.py:326-376 | with unique names the full actor is genuine exactly when the projected one is and it is not a privileged person off call without break-glass |
| Stackless.FlaggedIffListed | src/soctalk/authorization/adapter.py:197-228 | an account is flagged exactly when it is on the list of compromised accounts, with or without a row |
| Stackless.FimGenuineIff | src/soctalk/authorization/adapter.py:356-366 | with unique paths the FIM actor is genuine alike in both |
| Stackless.StacklessFimIsAbsent | src/soctalk/authorization/adapter.py:356-376 | FIM track: after the projection nothing is in scope or sanctioned, policy allows, and the class is `absent` |
| RateLimiter.Compact | setup-wizard/auth.go:52-59 | the in-place compaction leaves exactly the filtered attempts and the rest of the buffer alone |
| RateLimiter.RateLimiter.constructor | setup-wizard/auth.go:29-34 | a new limiter knows nobody |
| RateLimiter.RateLimiter.PruneOwn | setup-wizard/auth.go:51-60 | pruning one address touches no other history |
| RateLimiter.RateLimiter.AllowAttempt | setup-wizard/auth.go:39-69 | state and verdict are the specified ones: expired block lifted, block, window, spacing |
| RateLimiter.RateLimiter.CheckBlock | setup-wizard/auth.go:44-49 | a standing block is reported, an expired one is lifted, and nothing else changes |
| RateLimiter.RateLimiter.CheckGate | setup-wizard/auth.go:62-68 | the interval to the last attempt still in the window decides |
| RateLimiter.RateLimiter.RecordFailure | setup-wizard/auth.go:71-78 | the failure is appended and the tenth one blocks |
| RateLimiter.RateLimiter.RecordSuccess | setup-wizard/auth.go:80-84 | success forgets the address and nothing else |
| LimiterRuns.OthersUntouched | setup-wizard/auth.go:39-84 | events of one address never change another |
| LimiterRuns.PruneIsSuffix | setup-wizard/auth.go:52-59 | on an ordered history pruning keeps the recent end |
| LimiterRuns.LetThroughIff | setup-wizard/auth.go:39-69 | an attempt is let through exactly when no block stands and every recorded failure is 30 s back |
| LimiterRuns.RetryAfterIsExact | setup-wizard/auth.go:44-68 | the wait a refusal names is exact: without a failure in between, a later attempt passes exactly when that wait is over and every recorded failure is 30 s back, which after a refusal for spacing is the same |
| LimiterRuns.EventKeeps | setup-wizard/handlers.go:112-143 | every event keeps the invariant of an address with at most c requests in flight |
| LimiterRuns.RunKeeps | setup-wizard/handlers.go:112-143 | it holds after every such run, whatever other addresses do |
| LimiterRuns.FailureBudget | setup-wizard/auth.go:36-78 | with at most c requests in flight an hour without a success holds at most 9 + c failures, and once ten fill an hour all but the next c - 1 come an hour later |
| LimiterRuns.HourlyBudgetIff | setup-wizard/auth.go:36-78 | that is tight: every run keeps to a budget exactly when the budget is at least 9 + c, so the ten an hour hold for one request at a time only |
| LimiterRuns.SequentialBudget | setup-wizard/auth.go:36-78 | one request at a time: failures are 30 s apart and at most ten fit in an hour with both its ends |
| LimiterRuns.SpacedIff | setup-wizard/auth.go:36-68 | every run keeps failures 30 s apart exactly when at most one request is in flight |
| LimiterRuns.ExpiryIff | setup-wizard/auth.go:44-60 | every expired block leaves an empty history exactly when at most two requests are in flight |
| ShellQuote.ReadQuoted | setup-wizard/install.go:90-95 | a shell reads a quoted value back as exactly its characters, all of them literal |
| ShellQuote.ReadEntries | setup-wizard/install.go:77-84 | it reads a rendered list of assignments line by line |
| ShellQuote.AssignmentOf | setup-wizard/install.go:77-84 | and each word as the assignment it was written as |
| ShellQuote.RenderRoundTrip | setup-wizard/install.go:77-95 | any list of assignments is read back unchanged, for all values |
| ShellQuote.EnvRoundTrip | setup-wizard/install.go:72-95 | sourcing onboard.env makes exactly the five assignments: the credentials as entered, the host name or `soctalk.local`, the slug `demo`, and the name of the demo tenant |
| ShellQuote.QuoteInjective | setup-wizard/install.go:90-95 | no two values are quoted alike |
| Correlation.SightKeys | evals/nessus_replay.py:115-122 | the counting loop yields the sightings and the eligible keys of an event |
| Correlation.FindBound | evals/nessus_replay.py:124-128 | the search finds the first bound key |
| Correlation.BindKeys | evals/nessus_replay.py:132-133 | `setdefault` binds only what is unbound |
| Correlation.Replay | evals/nessus_replay.py:109-135 | the loop over the events computes the specified run |
| Correlation.NeverRebound | evals/nessus_replay.py:132-133 | a bound key is never rebound |
| Correlation.BoundByAnEarlierEvent | evals/nessus_replay.py:124-133 | a bound key names an investigation where an earlier event landed under it |
| Correlation.FoundsIffNothingShared | evals/nessus_replay.py:124-131 | an event founds an investigation exactly when no earlier event shares an eligible key |
| Correlation.JoinsThroughSharedKey | evals/nessus_replay.py:124-131 | every other event shares an eligible key with an earlier event of its investigation |
| Correlation.RowsCountEvents | evals/nessus_replay.py:135 | an investigation's rows are the number of events that landed in it |
| Correlation.RowsSumToEvents | evals/nessus_replay.py:135 | the rows of all investigations sum to the number of events |
| Correlation.KeysOfInvestigation | evals/nessus_replay.py:134 | the keys of an investigation are exactly those under which the events that landed in it were eligible |
| Correlation.HubDemotion | evals/nessus_replay.py:115-122 | a weak key is never eligible, a strong one always, a conditional one exactly for its first sightings up to the hub threshold |
| Correlation.EligibleIff | evals/nessus_replay.py:115-122 | an event is eligible under exactly the host names and hashes it lists and the addresses and domains sighted less than 200 times before it, never under any other key |
| Correlation.WeakNeverBinds | evals/nessus_replay.py:118-119 | no weak key is ever bound |
| Correlation.LandsWithItsLeader | evals/nessus_replay.py:124-133 | an event lands with its leader, the first event that was eligible under the first key it lists that was seen before |
| Correlation.OldestForThisListing | evals/nessus_replay.py:95-134 | said to attach to the oldest investigation sharing an eligible key, an event does exactly when no earlier event it shares a key with landed in an older one than its leader |
| Correlation.FollowsStatedRuleIff | evals/nessus_replay.py:95-134 | over a whole run, the replay lands every event where the stated rule does exactly when that holds of every event |
| Correlation.SingleKeyMissesTheOldest | evals/nessus_replay.py:95-134 | four events of which the last, with a single key, misses the oldest investigation holding it |
| Correlation.OldestForEveryListing | evals/nessus_replay.py:95-128 | it does for every listing of its keys exactly when the bound keys agree |
| Correlation.SharersTogetherIff | evals/nessus_replay.py:95-133 | over a run, events that share an eligible key share the investigation exactly when no event bridges two investigations |
| Correlation.NotAlwaysTheOldest | evals/nessus_replay.py:95-128 | three events of which the third attaches to the newer of two investigations |
| StructuredRetry.InvokeStructured | src/soctalk/inference.py:458-522 | requests, result, attempts and tracking of the call and its retry loop are the specified exchange, for every model and budget |
| StructuredRetry.HasJsonMarker | src/soctalk/inference.py:427-439 | the loop finds out whether some message says "json", in whatever case |
| StructuredRetry.ModeAdds | src/soctalk/inference.py:463-477 | json mode adds one prompt, strict mode one exactly when no message says "json", other modes none; the caller's messages stay in front, and what is added says it |
| StructuredRetry.EveryRequestSaysJson | src/soctalk/inference.py:458-477 | in json and in strict mode every request of every exchange says "json" |
| StructuredRetry.Retry | src/soctalk/inference.py:487-522 | the retry loop alone |
| StructuredRetry.BuildRetry | src/soctalk/inference.py:494-514 | the retry transcript: the answer, then one tool result per call id or one human message |
| StructuredRetry.Track | src/soctalk/inference.py:409-412 | a non-null response is tracked once, if there is a budget |
| StructuredRetry.ReasonThenExtract | src/soctalk/inference.py:684-709 | a reasoning call that raises ends it; otherwise all responses are tracked, usage adds the reasoning, attempts one more |
| StructuredRetry.CallsAreBounded | src/soctalk/inference.py:478-522 | at most 1 + budget calls; only the last may settle, and it does unless the budget is spent |
| StructuredRetry.RequestsAreTranscripts | src/soctalk/inference.py:480-522 | the i-th request is the i-th transcript |
| StructuredRetry.RetryAnswersTheLast | src/soctalk/inference.py:487-516 | a retry repeats the original messages and then only the last answer, with the validation error as the result of each of its calls, valid ones first, or in a human turn |
| StructuredRetry.EndsWithReply | src/soctalk/inference.py:478-522 | after k replies that parsed nothing, the next decides: an exception or a parsed value ends the exchange with what that reply carried, anything else ends it exactly when the budget is spent |
| StructuredRetry.ResultCounts | src/soctalk/inference.py:478-522 | a result reports as many attempts as requests were sent and the usage of the last answer |
| StructuredRetry.ReasonedResultCounts | src/soctalk/inference.py:684-709 | after reasoning, one attempt and the usage of the reasoning more |
| StructuredRetry.RequestsStartWithReasoning | src/soctalk/inference.py:685-695 | every extraction request starts with the caller's messages, the reasoning and the prompt to extract |
| StructuredRetry.UsageMissesRetries | src/soctalk/inference.py:728-739 | the usage returned equals the tracked tokens exactly when the earlier responses used none |
| StructuredRetry.RetryTailPaired | src/soctalk/inference.py:494-514 | a retry answers every tool call once exactly when the call ids are distinct |
| StructuredRetry.RetryTranscriptPaired | src/soctalk/inference.py:494-514 | the same for the whole transcript |
| StructuredRetry.EveryRequestPaired | src/soctalk/inference.py:458-522 | every request of every exchange is well paired exactly when the input is and the answers have distinct ids |
| StructuredRetry.ExtractBasePaired | src/soctalk/inference.py:685-695 | after reasoning the transcript is well paired exactly when the reasoning called no tool |
| Luhn.CollectDigits | src/soctalk_wire/redaction.py:59-70 | the decimal digits of a text, in order, unless `int` fails on a character that `isdigit` accepts |
| Luhn.LuhnOk | src/soctalk_wire/redaction.py:59-70 | accepts exactly 13 to 19 digits with checksum 0 modulo 10, or fails where `int` does |
| Luhn.PairsFromTheRight | src/soctalk_wire/redaction.py:59-70 | of each pair of digits from the right, the right one counts as it is and the left one by the digit sum of its double |
| Luhn.ChecksumUpdate | src/soctalk_wire/redaction.py:59-70 | changing a digit moves the checksum by the change of its weight |
| Luhn.SubstitutionDetected | src/soctalk_wire/redaction.py:59-70 | every single-digit substitution changes the checksum modulo 10 |
| Luhn.SwapDetected | src/soctalk_wire/redaction.py:59-70 | a swap of neighbours goes unnoticed exactly when they are equal or are 0 and 9 |
| Luhn.CheckDigitExistsAndIsUnique | src/soctalk_wire/redaction.py:59-70 | at any length exactly one final digit makes the checksum 0 modulo 10 |
| Luhn.CheckDigitIsAccepted | src/soctalk_wire/redaction.py:59-70 | of the final digits exactly one value is accepted after a payload of 12 to 18 digits, and none after any other |
| Luhn.SeparatorsDoNotMatter | src/soctalk_wire/redaction.py:59-70 | separators never matter |
| Luhn.NoTwoSubstitutionNeighbours | src/soctalk_wire/redaction.py:59-70 | no two numbers one substitution apart are both accepted |
| Luhn.SwapNeighbours | src/soctalk_wire/redaction.py:59-70 | two numbers one swap apart are both accepted exactly when the swap is of 0 with 9 |
| CherryPick.FillBuckets | bench/goldens_to_triage.py:83-88 | each bucket holds the eligible ids of its key, in id order |
| CherryPick.BucketsPartition | bench/goldens_to_triage.py:83-88 | every eligible case is in exactly one bucket |
| CherryPick.OneRound | bench/goldens_to_triage.py:93-97 | one pass takes one id per non-empty bucket until n are picked |
| CherryPick.RoundRobin | bench/goldens_to_triage.py:92-97 | the rounds terminate with min(n, total) distinct ids, each bucket contributing a prefix |
| CherryPick.CherryPick | bench/goldens_to_triage.py:79-98 | exactly min(n, eligible) distinct ids; two buckets' shares differ by at most 1 unless the smaller is exhausted |

## Left out

- HTTP, asyncio, token files, TLS and Kubernetes plumbing: a remote call is delivered, lost before it has an effect, or lost after it; late copies of posts and checkpoint saves are steps of their own.
- one poll is one step of the protocol: the calls inside it happen in order, with nothing in between.
- timestamps and document ids are integers standing for the texts in their sort order; `cursor_event_id` and the keyset use the same order.
- assumptions on the index, in `IngestProtocol.Enabled`: a new document sorts after every cursor in play, all documents are at or after the fixed initial timestamp, keys are distinct; late-arriving documents and an initial timestamp of `now` are outside.
- bucket arithmetic is over real numbers, without rounding; the clock of a bucket does not run backwards.
- Adapters.Adapter.Load: the restored batch number is not part of the state.
- Adapters.Adapter.Save: the batch number and the dropped total that go with the cursor are not part of the model.
- Adapters.Adapter.Post: the batch number and the text of the last error are not part of the state.
- Adapters.Adapter.Ingest: nor are they in the transition it is proved against.
- Adapters.Adapter.Poll: nor here.
- retention and the heartbeat.
- ShedMode.CounterIsLossIff: assumes distinct event ids, and a process that has loaded its checkpoint; `ShedMode.LossIsExact` needs no distinct ids.
- ShedMode.FreshStartCountsItsLoss: likewise.
- ShellQuote.EnvRoundTrip: the reader takes NUL for an ordinary character, while no shell word can hold one.
- event mapping, severity, entities, IOC and title extraction (one flag says whether a hit can be mapped); regular expressions of the redaction rules.
- IngestProgress.EventlessPageStallsForever: a hypothesis on the mapping, not a state of a real index: a hit is unmappable only with neither `_source.id` nor `_id`, and a search hit always has an `_id`.
- IngestProgress.ForwardsExactly: assumes that every document of the index maps to an event; `PollProgress` says what happens otherwise.
- IngestProgress.Drains: on a frozen index, and counted in polls; `DrainRate.DrainsAtRate` has arrivals and time.
- IngestProgress.EverythingIsDelivered: likewise; `DrainRate.BacklogIsDelivered` bounds the time.
- DrainRate.RateIsKeptIff: as `DrainRate.DrainsAtRate`, with every document mapping to an event.
- DrainRate.DrainsAtRate: fault-free polls that take no time of their own, and sleeps of exactly the length asked for.
- the validators of the fact models: facts and rows are taken as already accepted, windows as parsed; keys of a row that are missing and keys that are empty are alike where the source treats them alike.
- bracket classes of `fnmatch`: every evaluator result holds for any matcher, and `MintedFimGrantIsExactIff` assumes a path without `[`; a path with brackets need not match itself, which `AnswerSettles` accounts for.
- lone surrogates in entity texts, which the fact models reject.
- prompt texts, `has_malicious_signal` and the review life cycle around an answer: parameters or left out; grant ids are parameters in place of random ones.
- Stackless.GenuineIff: assumes unique asset and account names.
- RowVerdicts.AccountVerdict: assumes unique names of assets, accounts and organisations; between several rows of one name `AuthorizationOrder.GreatestSpeaks` decides.
- RowVerdicts.FimVerdict: assumes unique paths, likewise.
- CheckpointResume.NothingPostedTwice: assumes distinct event ids, and that no accepted post goes unanswered, no save is lost on its way, no late save moves the durable cursor back, no late post brings new events, and polling begins only once loaded; without that `IngestProtocol.NothingLostNothingTwice` still says that none is accepted twice.
- AuthorizationOrder.GreaterOwnerSpeaks: speaks of owners that first differ in characters JSON leaves unescaped.
- the limiter's clock does not run backwards, and each failure is that of an allowed request, as in `handleAuth`.
- host-key extraction and the sort of the replayed events: the correlation model takes key lists in processing order.
- the wording of the feedback and of the schema prompts, which is shortened; message contents that are lists of blocks: a content is one text.
- tool-call ids that are missing, guided decoding, and usage split into input and output tokens: ids are strings, usage is one number.
- the sort of the bucket keys in `cherry_pick`: the result holds for every listing of the keys; the conversion of the picked cases.
- which characters are digits is a parameter of the Luhn check, as Unicode says it.
- `renderValues` and the other files of the installer.
- configuration, LLM providers, alembic DDL apart from the idempotency constraint, row-level security, chat, frontend and benches.
