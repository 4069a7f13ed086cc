# Live captions: replication, scheduling, billing and audio

A Dafny model of the parts of a live captioning service that carry state, concurrency or arithmetic, with proofs of
what they guarantee over every run.

- **Caption replication.** `Engine` turns recogniser events into card operations, `Relay` stamps them into a log, serves
  snapshots or backfill and queues translations, and `CaptionStore` folds messages into what a projector shows.
  `Replication` puts them together: one relay, any number of projectors, connections that may lose whatever is in
  flight. Each turn of the event loop is one atomic step. `EngineObject.CaptionEngine` and `ActorObject.SessionActor`
  are the same things as objects updated in place, each method tied to its step. `Departures` and `Races` build runs in
  which a projector shows what the engine does not hold; `Marks` and `MarkRuns` say when its final marks are the
  engine's.
- **Translation scheduling.** `Scheduler` follows the keyed queue and its two slots over whole runs, with replies in any
  order and failures. `ReplyOrder` shows exactly when the engine's state does not depend on the order or timing of
  replies, `RelayReplies` carries that over to the relay, and `Races` has two sessions of which it fails.
- **Billing.** `Metering` splits a meter's ticks and close wherever they wait; `MeterRuns` proves what holds over
  every interleaving; `MeterObject.Meter` is the object. `Ledger`, `LedgerTable` and `Bank` model prices, the spend
  plan, the append-only ledger, the materialised balance and the hold; `Billing` and `BillingRuns` run any number of
  sessions against them, and `Refreshes` webhooks and balance refreshes as well. `Holds` says what a session leaves on
  hold and when the balance covers it, `HoldSign` when a hold can become negative; `Promises` and `PromisesBroken` say
  exactly when no credit is promised to two sessions, with runs built second by second (`Seconds`) that keep the time
  (`Timeline`); `GatewayObject.LedgerGateway` is the gateway step by step. `Paddle` models webhook grants, `PlanChanges`
  what the same webhooks do to plans.
- **Text and audio.** `Stability`, `LineBreak` and `Worklet` (with `WorkletObject.Pcm16Downsampler`) model the stable
  prefix, line breaking and the streaming resampler, and `Blocks` the resampler as a browser feeds it.
- **Limits and caches.** `Translation` has the LRU cache and the context window, `Limits` the handshake limiter and the
  frame cap.

Credits are integers in ten-thousandths, the unit the source rounds to; times are integers in milliseconds; billed time
and resampling positions are exact reals. The clock, the identifier generator, translator and gateway replies, and the
balances a gateway call has read are parameters chosen by the environment; identifiers are fresh and the clock never
runs backwards.

Where the code and what is said about it part, the model follows the code, and the exact condition is proved; where the
failure needs a run of the whole system, that run is built.

- Two sessions can be promised the same credits, against `apps/relay/src/metering.ts:316-317`, even when every gateway
  call reads current balances: no session's initial reservation is ever put on hold
  (`apps/web/app/api/session/start/route.ts:106-122`). While holds are kept, no credit is promised twice if and only if
  what a user's sessions start with was on hold (`PromisesBroken.NoDoublePromiseIff`), and a session started as the
  route does it breaks this by itself (`PromisesBroken.StartedSessionOverdraws`,
  `PromisesBroken.TwoStartsPromiseTwice`). A session that falls silent writes no hold for a quarter of an hour, so the
  hold lapses and the balance is granted again (`PromisesBroken.LapseOverdraws`). Reads that are out of date break it as
  well (`Holds.StaleReadsPromiseTwice`, `Holds.GrantIsBackedIff`).
- For the same reason a hold becomes negative. While holds are kept, and whatever calls read and however they fail, it
  never does if and only if what the user's sessions start with was on hold (`HoldSign.HoldNonNegativeIff`); closing
  them before their first ticks is enough otherwise (`HoldSign.UnusedSessionsLowerHold`).
- A settlement is complete only if no top-up is in flight, and a session can settle with one in flight
  (`MeterRuns.SettlementIsCompleteIff`, `MeterRuns.LateGrantIsKept`).
- A flush written twice lowers the balance twice, although its sequence number is meant to make that harmless
  (`Bank.WriteKeepsBalancesIff`, `Bank.WrittenTwice`, `Bank.PaidTwice`, against `apps/relay/src/metering.ts:28`).
- A refresh takes the balance from the ledger (`apps/web/lib/server/paddle.ts:159`), but in a statement of its own: it
  is right if and only if what is committed between its reading and its writing, and what is given later, come to
  nothing (`Refreshes.UpToDateIff`). A flush in between is forgotten, and its credits come back
  (`Refreshes.RefreshForgetsFlush`).
- Webhooks grant credits once however often they are delivered, but a plan follows whatever was delivered last: a
  repeated activation brings a canceled plan back (`PlanChanges.RedeliveryKeepsPlanIff`,
  `PlanChanges.RedeliveryRevivesPlan`).
- The end of a card a projector has dropped shows it again, blank, and pushes out a card the engine still holds
  (`Agreement.EndOfUnshownCard`, `Departures.EndOfUnshownCardHappens`).
- The projector's final mark mirrors the engine's only as long as no late speculative translation is taken: over every
  run, a caught-up projector marks besides exactly the cards for which one was taken since its last snapshot, and none
  for good (`MarkRuns.MarksDifferIff`, `Agreement.FlagAgreesIff`, `Races.FinalMarksPart`).
- The order of replies shows when a speculative translation is taken and never answered for good
  (`ReplyOrder.RepliesCanWaitIff`, `Races.OrderCanMatter`).
- Streaming equals one pass on every split only up to a ratio of two (`Worklet.StreamingIsOneShotIff`). On blocks of 128
  samples, all a browser delivers, it does if and only if no position of one pass is followed by one more than a sample
  beyond the end of a block (`Blocks.BlocksAreOneShotIff`); at 48 and 44.1 kHz one is (`Blocks.CommonRatesDisagree`),
  against `apps/web/lib/studio/mic.ts:44-45`.
- The hard ceiling of sixty frames a second (`apps/relay/src/config.ts:76-77`, `docs/SECURITY.md:87`) is one per window.
  It holds for a second if and only if that begins no later than the session or exactly one second after
  (`Limits.SixtyPerSecondIff`); every other second can see one hundred and nineteen or one hundred and twenty
  (`Limits.SecondIsBoundedIff`).

## Model

| member | source | states |
|---|---|---|
| Replication.ReplicaAgreement | apps/relay/src/session-actor.ts:244-379 | In every reachable state of engine, relay log, lossy connections and projectors, a captions projector that has received all it was sent holds, for every card the engine also holds, the same text, stable count, live/settled state and translations, and shows the live card |
| Replication.GapFreeResume | apps/relay/src/session-actor.ts:240-297 | For every run and every loss of messages in flight, what a reattached projector has received since its last snapshot plus what is in flight is exactly the role-allowed log from that snapshot on, so it ends in the state of a projector that never disconnected |
| Replication.AttachKeepsClient | apps/relay/src/session-actor.ts:244-297 | An attach, with any resume point, sends exactly what is missing or the whole state: the delivery invariant holds again |
| Replication.DeliverKeepsClient | apps/web/app/projector/lib/caption-store.ts:42-55 | Receiving the next message on the wire keeps the delivery invariant, whether it is a snapshot or a frame |
| CaptionStore.ReplayIsHarmless | apps/web/app/projector/lib/caption-store.ts:53-55 | Replaying frames already seen, in any order and number, changes nothing |
| Turns.StepFollows | apps/relay/src/session-actor.ts:301-379 | The messages of one turn of the relay take any projector that agreed with the engine before it to one that agrees with the engine after it |
| Agreement.AppendKeepsLive | apps/web/app/projector/lib/caption-store.ts:105-108 | A settled card shown anew never pushes the live card out of the eight cards kept, because at most seven settled cards can follow it |
| Agreement.SnapshotAgrees | apps/web/app/projector/lib/caption-store.ts:43-51 | A snapshot brings a projector into agreement whatever it showed before |
| Agreement.FlagAgreesIff | packages/caption-engine/src/engine.ts:239-246 | The projector's final mark equals the engine's after a translation if and only if the translation is final and the card settled, or neither |
| Races.FinalMarksPart | apps/relay/src/session-actor.ts:383-430 | In a session with two languages and the relay's own engine settings, a speculative translation that lands after the commit leaves a caught-up projector's card marked final and the engine's not |
| MarkRuns.MarksDifferIff | apps/web/app/projector/lib/caption-store.ts:60-88 | Over every run of relay, connections and projectors: a captions projector that has received all it was sent marks final every card the engine does, and of the cards the engine holds exactly those besides for which a translation was taken since the projector's last snapshot but none for good |
| Marks.StepRecords | apps/relay/src/session-actor.ts:301-430 | Over every turn the log tells of exactly the translations taken for a settled card, the engine marks it exactly when one was final, and none is taken for a card before it is settled |
| Agreement.EndOfUnshownCard | apps/web/app/projector/lib/caption-store.ts:88-108 | The end of a card leaves all other cards on screen if and only if the card was shown or the list had room; a card already dropped comes back blank, at the price of the oldest of a full list |
| Departures.EndOfUnshownCardHappens | apps/relay/src/session-actor.ts:301-347 | Whatever the settings: after seven sentences, a card that was never committed and one more sentence, a captions projector attached all along that received everything is told of the end of a card it has dropped, shows it again blank, and drops one the engine still holds |
| Wire.VisibleGrows | apps/relay/src/session-actor.ts:571-573 | What a role may see of a longer log is what it may see of the shorter one followed by the visible part of the addition |
| ActorObject.SessionActor.Emit | apps/relay/src/session-actor.ts:511-525 | A message with a sequence number is stamped with the next one and remembered; the studio gets every message, a projector only those of the allowlist that its role permits |
| ActorObject.SessionActor.Notice | apps/relay/src/session-actor.ts:537-543 | A notice reaches the studio unless its code was told within fifteen seconds, and never a projector or the log |
| ActorObject.SessionActor.Remember | apps/relay/src/session-actor.ts:532-535 | The history is the last five hundred stamped messages of the whole log |
| ActorObject.SessionActor.AttachProjector | apps/relay/src/session-actor.ts:244-259 | A reattaching projector is sent the missed frames when the history reaches back to its resume point, and a snapshot otherwise |
| ActorObject.SessionActor.BackfillFrom | apps/relay/src/session-actor.ts:281-297 | Filtering the bounded history yields the role-allowed suffix of the whole log, or nothing when the log has moved on too far |
| ActorObject.SessionActor.BuildSnapshot | apps/relay/src/session-actor.ts:269-279 | A snapshot carries the engine's cards and render settings under the current sequence number, not a new one |
| ActorObject.SessionActor.ApplyOps | apps/relay/src/session-actor.ts:327-356 | The log grows by the wire events of the operations in order, every projector gets the news its role may see, each request is queued for every language, and the voice is asked to say what the engine wants spoken |
| ActorObject.SessionActor.EmitTranslation | apps/relay/src/session-actor.ts:362-379 | A translation restates the whole card the engine holds, as a partial while it is live and as a retraction afterwards, or nothing when it is gone |
| ActorObject.SessionActor.EnqueueTranslation | apps/relay/src/session-actor.ts:383-398 | Every language gets a job under its card-and-language key, a committed one never displaced by a speculative one, and the free slots are filled |
| ActorObject.SessionActor.PumpTranslations | apps/relay/src/session-actor.ts:400-413 | Jobs leave the queue in order while fewer than two are in flight and the session is not closed |
| ActorObject.SessionActor.TranslationSettled | apps/relay/src/session-actor.ts:415-430 | A reply is applied unless the session is closed, a failure changes no card and tells the studio unless it was told lately; either way the slot is freed and the queue advances |
| ActorObject.SessionActor.OnSttEvent | apps/relay/src/session-actor.ts:301-304 | One recogniser event is one transition of the relay, and the projectors receive exactly its news |
| ActorObject.SessionActor.ApplyConfigure | apps/relay/src/session-actor.ts:229-236 | The render settings named are replaced, the others kept, and the result put on the log; asking for another language or voice only gets a notice |
| ActorObject.SessionActor.OnTtsAudio | apps/relay/src/session-actor.ts:315-325 | Voice chunks go on the log until the session is closed |
| ActorObject.SessionActor.BeginDrain | apps/relay/src/session-actor.ts:468-482 | Beginning to close stops the clock, the recogniser and the voice and discards the queued jobs, once, and sends nothing |
| ActorObject.SessionActor.Finish | apps/relay/src/session-actor.ts:496-507 | The end and its reason reach the studio alone; all projectors are closed without it and detached, and the session is no longer registered |
| ActorObject.SessionActor.AcceptFrame | apps/relay/src/session-actor.ts:455-464 | A frame is accepted if and only if it is among the first sixty of its window, a window older than a second is replaced, and a refusal tells the studio unless it was told lately |
| EngineObject.CaptionEngine.Push | packages/caption-engine/src/engine.ts:61-70 | One event takes the object through the engine's transition and returns its operations |
| EngineObject.CaptionEngine.OnPartial | packages/caption-engine/src/engine.ts:72-146 | A partial opens a card if none is live, updates text and stable count, and asks for a speculative translation when the stable prefix has grown enough |
| EngineObject.CaptionEngine.OnCommitted | packages/caption-engine/src/engine.ts:148-224 | A sentence settles its card, asks for its translation, merges short speech forward and drops the oldest card of a full list; an empty one closes the live card |
| EngineObject.CaptionEngine.CloseLive | packages/caption-engine/src/engine.ts:230-236 | Closing drops the live card and resets the rewrite window, or does nothing |
| EngineObject.CaptionEngine.ApplyTranslation | packages/caption-engine/src/engine.ts:239-254 | A result is applied to the live card or the first settled one with its id unless it would downgrade a final translation |
| EngineObject.CaptionEngine.Snapshot | packages/caption-engine/src/engine.ts:257-261 | The settled cards in order, then the live one |
| Engine.PushValid | packages/caption-engine/src/engine.ts:72-236 | Every event keeps the engine's invariant: at most seven settled cards, distinct ids, a live card that is not settled, and cards committed equal to settled plus dropped |
| Engine.ApplyTranslationValid | packages/caption-engine/src/engine.ts:239-254 | A translation result keeps the same invariant |
| Lifecycle.CardLifecycle | packages/caption-engine/src/engine.ts:72-254 | Over every run each card id's operations are open, updates, then a close or exactly one commit or retraction, then at most one close, and none after a close; the trace always agrees with the engine's own state, so only one card is open |
| Lifecycle.CardsAccountedFor | packages/caption-engine/src/engine.ts:209-220 | Over every run cards committed are settled plus dropped, at most seven stay settled, and a snapshot has at most the eight cards a projector keeps |
| Lifecycle.FinalFlagStays | packages/caption-engine/src/engine.ts:239-246 | Over every run a card with a final translation never loses the mark while the engine holds it, also from live to settled |
| Lifecycle.SpeculationBudget | packages/caption-engine/src/engine.ts:123-143 | Over every run a card gets at most its largest stable count divided by the growth threshold speculative requests, consecutive ones at least the minimum interval apart |
| Lifecycle.SpeculativeTextIsStable | packages/caption-engine/src/engine.ts:99-141 | The text of a speculative request is whole leading words of the newest hypothesis on which every hypothesis of the stability window agrees |
| Lifecycle.DefaultIdsDistinct | packages/caption-engine/src/engine.ts:57-58 | The default identifier generator never repeats an id |
| Scheduler.QueueDiscipline | apps/relay/src/session-actor.ts:383-430 | At every turn boundary of every run at most two translations are in flight, the queue is empty unless both slots are taken or the session is closed, and each committed request per card and language is in exactly one of queued, in flight, answered, or discarded by a close |
| Scheduler.FinalTranslationWins | apps/relay/src/session-actor.ts:383-430 | After any run and whatever order later replies land in, once the committed reply for a card and language is applied the card shows exactly that text, marked final, for as long as the engine holds it |
| Scheduler.UpsertCount | apps/relay/src/session-actor.ts:385-395 | Queueing a job adds a committed request unless one is queued, and never displaces one |
| Scheduler.CommitAsksEveryLanguage | apps/relay/src/session-actor.ts:383-398 | A committed sentence asks for its translation into every language of the session |
| Scheduler.KeyInjective | apps/relay/src/session-actor.ts:385-386 | Queue keys identify card and language |
| Scheduler.StepKeepsQueue | apps/relay/src/session-actor.ts:301-430 | Every turn keeps the books of the translate queue |
| ReplyOrder.ReplyOrderIsIrrelevant | packages/caption-engine/src/engine.ts:239-254 | Two engine runs that hear the same speech and get the same final results end in the same state, however those results are ordered and timed and whatever speculative ones land in between, provided those taken for cards still held are answered for good |
| ReplyOrder.RepliesCanWaitIff | packages/caption-engine/src/engine.ts:72-254 | Any run ends where it would have had the engine heard all the speech first and then got only the final results, if and only if every speculative result it took for a card it still holds has been answered for good |
| ReplyOrder.EventSwapsAll | packages/caption-engine/src/engine.ts:72-254 | Any recogniser event may overtake any number of final results without changing the state, through updates, commits, drops and closes |
| ReplyOrder.RepliesInAnyOrder | packages/caption-engine/src/engine.ts:239-246 | Final results for different cards or languages may be applied in any order |
| ReplyOrder.SpeculationTradesIff | packages/caption-engine/src/engine.ts:243 | A speculative result trades places with a final one for another language of the same unmarked card if and only if it says nothing new, so order does matter for one that is never answered |
| Races.OrderCanMatter | apps/relay/src/session-actor.ts:383-430 | Two sessions with the relay's own engine settings hear the same speech and get the same committed answer and end with different cards: a speculative translation whose committed request failed landed before that answer or after it |
| RelayReplies.SessionsAgree | apps/relay/src/session-actor.ts:383-430 | Two sessions that hear the same speech and whose committed requests get the same answers hold the same cards with the same translations, whatever the queue, the order of replies and their interleaving with speech |
| RelayReplies.RunHears | apps/relay/src/session-actor.ts:301-430 | The engine of a relay is always the one that ran on what the relay fed it, with fresh identifiers, results only for cards already opened, and at most one final result per card and language |
| MeterRuns.MeterConservation | apps/relay/src/metering.ts:152-240 | For every interleaving of ticks, audio marks, a close and gateway replies: spent equals flushed plus dropped plus in flight plus pending, never exceeds what is reserved, does not change once a close has begun, and flushes are numbered one by one |
| MeterRuns.BillingFollowsTime | apps/relay/src/metering.ts:152-240 | Over every run credits differ from the exact price of the billed time by at most half a unit per charge, the seconds handed over are the whole billed seconds once closed, and less than the silence pause is billed after the last audio mark |
| MeterRuns.ChargeDrift | apps/relay/src/metering.ts:181-190 | One charge is off by at most half a ten-thousandth from the price of the time it bills, however much of it the reservation could cover |
| MeterRuns.Settlement | apps/relay/src/metering.ts:170-212 | After settlement the initial reservation plus all grants equal spent plus released plus what was granted too late, and exactly that late grant stays reserved, none if no top-up was in flight |
| MeterRuns.SettlementIsCompleteIff | apps/relay/src/metering.ts:170-212 | Nothing can stay reserved after the settlement, whatever happens later, if and only if no top-up is in flight when it is made |
| MeterRuns.LateGrantIsKept | apps/relay/src/metering.ts:152-212 | A session that begins short of a top-up and is closed while its first one is in flight settles and keeps all of the grant |
| MeterRuns.CutOff | apps/relay/src/metering.ts:242-256 | The cut-off is told at the end of a tick, for the first time, after exactly one critical notice, and at least sixty seconds after credits were refused with none granted since |
| MeterRuns.CutOffIsNotLate | apps/relay/src/metering.ts:251-256 | A tick that ends sixty seconds or more after a refusal with no grant since leaves the session cut off |
| MeterRuns.NoticesAreGivenOnce | apps/relay/src/metering.ts:242-280 | Over every run the critical notice is given at most once, and the cut-off at most once and never without it |
| MeterRuns.GraceOrigin | apps/relay/src/metering.ts:181-212 | A running grace period began with a charge the reservation could not cover or a top-up that granted nothing, and nothing has been granted since |
| MeterObject.Meter.Charge | apps/relay/src/metering.ts:181-194 | A charge moves credits, pending credits and billed time together, no further than the reservation, and enters grace when it falls short |
| MeterObject.Meter.BeginTick | apps/relay/src/metering.ts:152-162 | A tick charges the time since the last one unless the microphone is idle, and asks for a top-up below 34% of a window unless already cut off |
| MeterObject.Meter.TopUpReplied | apps/relay/src/metering.ts:202-211 | A positive grant raises the reservation and ends grace; none starts it |
| MeterObject.Meter.FlushNow | apps/relay/src/metering.ts:219-230 | Everything pending is handed over under the next sequence number and cleared before the write, or nothing when there is nothing |
| MeterObject.Meter.MaybeFlush | apps/relay/src/metering.ts:214-217 | A tick flushes once the flush interval has passed since the last flush |
| MeterObject.Meter.EmitCredits | apps/relay/src/metering.ts:258-281 | Each tick reports remaining credits, seconds and the rate per minute; the critical and low notices come once |
| MeterObject.Meter.EndTick | apps/relay/src/metering.ts:165-167 | A tick ends by reporting credits and cutting off when grace is over |
| MeterObject.Meter.BeginClose | apps/relay/src/metering.ts:170-173 | The first close flushes what is pending; a second does nothing |
| MeterObject.Meter.Settle | apps/relay/src/metering.ts:174-178 | What is reserved and unspent is released, once |
| Ledger.SecondsMatchMinutes | packages/billing/src/pricing.ts:14-25 | The rate per second is positive and a minute of it is within half a unit per second of the advertised rate per minute |
| Ledger.PlanMeaning | packages/billing/src/ledger.ts:78-95 | A plan covers as much of the amount as there is, covered plus shortfall is the amount, the parts sum to what is covered, each stays within its bucket, and a later bucket is touched only when the earlier ones are used up |
| Ledger.PlanSpend | packages/billing/src/ledger.ts:78-95 | The loop over the spend order computes the plan |
| Ledger.BucketBalances | packages/billing/src/ledger.ts:48-61 | The balance of a bucket is the sum of its entries that are not expired grants, with the soonest expiry among them; buckets are listed in the order of their first such entry, and those without one are absent |
| Ledger.BucketsAndExpiredAreAll | packages/billing/src/ledger.ts:43-61 | The sum of all entries is the bucket balances plus the expired grants |
| Bank.FlushKeyInjective | apps/relay/src/metering.ts:355 | A flush key identifies session, sequence number and bucket, whatever the session id contains |
| Bank.WriteMovesDrift | apps/relay/src/metering.ts:339-371 | The transaction of a flush moves a balance column away from the ledger sum of its bucket by exactly the part whose key was in the ledger already, planned on a balance however stale |
| Bank.WriteKeepsBalancesIff | apps/relay/src/metering.ts:344-371 | A flush keeps every bucket column with its ledger sum if and only if none of its keys is in the ledger; a retry of a written flush lowers the balance again |
| Bank.WrittenTwice | apps/relay/src/metering.ts:339-371 | A flush written again by a retry that reads the balance the first write left adds nothing to the ledger in a bucket that paid the first time, and lowers its balance once more by what the second plan takes |
| Bank.PaidTwice | apps/relay/src/metering.ts:339-371 | With credits for two in the first bucket, a flush written twice takes its credits twice from the balance and once from the ledger |
| Bank.WriteKeepsTotal | apps/relay/src/metering.ts:361-370 | A flush keeps the total equal to the sum of the buckets, relative to where it was |
| BillingRuns.BalancesFollowLedger | apps/relay/src/metering.ts:326-382 | For any number of sessions with distinct ids, any interleaving of their meters and gateway calls, stale reads and partial failures: every bucket column moves exactly as its ledger sum, and the total as the sum of the buckets |
| Refreshes.BalanceSinceRefresh | apps/web/lib/server/paddle.ts:159-185 | For any interleaving of sessions, webhooks and refreshes, with refreshes that write what they read however long ago: a balance is the live sum of the ledger rows the user's last refresh saw and what sessions used since that refresh wrote |
| Refreshes.UpToDateIff | apps/web/lib/server/paddle.ts:159-185 | By the clock of the last refresh a balance is the live sum of the whole ledger if and only if what was committed between what the refresh read and when it wrote, and what was given since, come to nothing |
| Refreshes.RefreshForgetsFlush | apps/web/lib/server/paddle.ts:159-185 | A refresh that read before a flush was committed and writes after it leaves every bucket that paid above its live sum by exactly what it paid |
| Refreshes.TotalSinceRefresh | apps/web/lib/server/paddle.ts:161-185 | Over the same runs the total is the sum of the buckets once the user's balance has been refreshed |
| BillingRuns.FinishedHold | apps/relay/src/metering.ts:326-382 | A finished session has changed the hold by the credits of failed or uncovered flushes minus its initial reservation, plus whatever a late grant, a lost grant or a lost release left behind, minus what lapsed |
| BillingRuns.HoldIsSumOfSessions | apps/relay/src/metering.ts:326-382 | In every reachable state a user's hold is its initial value plus what each of the user's sessions did to it |
| Holds.SessionHold | apps/relay/src/metering.ts:170-382 | When gateway calls happen entirely or not at all and no top-up is in flight at the settlement, a finished session has changed the hold by exactly the credits of its failed and uncovered flushes minus its initial reservation |
| Holds.HoldIsBacked | apps/relay/src/metering.ts:326-382 | Over every run of any number of sessions whose gateway calls read current balances, what is on hold for a user never exceeds the user's balance |
| Promises.PromisesFollowHold | apps/relay/src/metering.ts:313-382 | Over every run, stale reads, failures and lapses included, what a user's sessions may still take is the hold, plus what they started with beyond the hold there was, plus what lapsed, less what was lost on the way, which is never negative |
| Promises.NoDoublePromise | apps/relay/src/metering.ts:313-382 | Over every run whose gateway calls read current balances and whose holds do not lapse, a user's sessions together may take no more than the user has, when what they started with was on hold |
| PromisesBroken.NoDoublePromiseIff | apps/relay/src/metering.ts:313-382 | For every start and every user with a session: no run with current reads and without a lapse promises a credit twice if and only if what the sessions started with was on hold from the start; the same if time must not run back and holds must be written often enough |
| PromisesBroken.HearsTooMuch | apps/relay/src/metering.ts:152-240 | When sessions started with more than was on hold, one of them that hears sound, its meter ticking once a second, promises credits twice in some such run |
| PromisesBroken.LapseOverdraws | apps/relay/src/metering.ts:310-336 | A session that started above the low mark of a window falls silent and ticks once a second without a call; a quarter of an hour after the hold was written it lapses, and some run that goes on from there in time and with current reads promises more than the user has, even if all that was started with was on hold |
| PromisesBroken.StartedSessionOverdraws | apps/web/app/api/session/start/route.ts:106-122 | A session started with the window or all the user has, and nothing on hold, is promised more than the user has in some run with current reads |
| PromisesBroken.TwoStartsPromiseTwice | apps/web/app/api/session/start/route.ts:106-122 | Two such sessions of a user with no more than a window are promised everything twice before either makes a call |
| Holds.UnusedSessionLowersHold | apps/relay/src/metering.ts:170-178 | A session closed before its first tick finishes with its user's hold lower by its whole initial reservation |
| HoldSign.HoldNonNegativeIff | apps/relay/src/metering.ts:313-382 | For every start and every user: in no run without a lapse, whatever calls read and however they fail, is the hold negative if and only if what the user's sessions started with was on hold from the start |
| HoldSign.UnusedSessionsLowerHold | apps/relay/src/metering.ts:170-178 | When every session of a user is closed before its first tick the hold falls by all they started with, and nothing is read or fails on the way |
| Holds.GrantIsBackedIff | apps/relay/src/metering.ts:326-337 | A grant leaves the hold within the balance if and only if what was read as available, or the amount asked for, is no more than what is free when it takes hold |
| Holds.StaleReadsPromiseTwice | apps/relay/src/metering.ts:326-337 | Two sessions that read the same free balance before either reserves end with twice that balance on hold |
| GatewayObject.LedgerGateway.Reserve | apps/relay/src/metering.ts:326-337 | The grant is the amount capped by the positive balances less the hold, the hold rises by it and is good for another quarter of an hour, and grant plus remaining balance is what was available |
| GatewayObject.LedgerGateway.ReadHold | apps/relay/src/metering.ts:310-328 | A hold that was not written for a quarter of an hour is gone and reads as nothing, and any other as it is |
| GatewayObject.LedgerGateway.IncrementHold | apps/relay/src/metering.ts:333-334 | A write adds to the hold, or to nothing when it has lapsed, and gives it another quarter of an hour |
| GatewayObject.LedgerGateway.Flush | apps/relay/src/metering.ts:339-376 | A flush inserts one row per part, lowers the balance columns and the total, then the hold by what was covered, which renews it; an empty one does nothing |
| GatewayObject.LedgerGateway.Release | apps/relay/src/metering.ts:378-382 | A release lowers the hold by a positive amount and renews it |
| LedgerTable.InsertsCommute | apps/web/lib/server/paddle.ts:95-112 | Inserts that name the same rows under a unique key leave the same balances whatever their order and repetition |
| Paddle.ExactlyOnce | apps/web/lib/server/paddle.ts:86-112 | For any webhook deliveries with repeats and in any order, two histories that deliver the same events leave every user's buckets at the same balance |
| Paddle.FirstDeliveryCounts | apps/web/lib/server/paddle.ts:86-112 | The first delivery of an event grants all of its rows, and another delivery, at any later time, adds nothing |
| Paddle.KeysAreInjective | packages/billing/src/paddle.ts:123-165 | Keys of grants and refunds identify event and item even when event ids contain colons |
| Paddle.NoFlushKey | packages/billing/src/paddle.ts:123-165 | Keys of Paddle events never meet those of session flushes in the shared index |
| Paddle.EventKeysDistinct | packages/billing/src/paddle.ts:144-168 | Every line item of an event has a key of its own |
| Paddle.KeyFixesRow | packages/billing/src/paddle.ts:76-180 | When an event id fixes its content, a key fixes user, bucket and amount of its row |
| Paddle.EventRowsTimeless | packages/billing/src/paddle.ts:150-167 | What an event writes to the ledger sum does not depend on when it is handled |
| Paddle.CompletedTransaction | packages/billing/src/paddle.ts:136-180 | Each known item grants its credits times its quantity, at least once, in the bucket of its kind; the last plan bought becomes the plan |
| Paddle.HandleEvent | packages/billing/src/paddle.ts:76-134 | Each event type yields its grants, its refund, its plan change or a note |
| PlanChanges.WhatEventsMove | packages/billing/src/paddle.ts:76-134 | Only completed transactions and refunds write to the ledger, a refund moves no plan, and a note is left only where nothing is written |
| PlanChanges.PlanWasBought | packages/billing/src/paddle.ts:81-112 | A plan changes to one that was bought, or to the trial after a cancellation or a failed payment; only a cancellation cancels |
| PlanChanges.PlanFollowsLastDelivery | apps/web/lib/server/paddle.ts:114-116 | Whatever was delivered, in any order and with any repeats, a user is on the plan the last delivery named |
| PlanChanges.RedeliveryKeepsPlanIff | apps/web/lib/server/paddle.ts:114-116 | Another delivery leaves its user's plan alone if and only if it names none or the one named last |
| PlanChanges.RedeliveryRevivesPlan | apps/web/lib/server/paddle.ts:80-142 | An activation delivered again after the cancellation writes nothing to the ledger and brings the paid plan back |
| Paddle.PaddleStore.ApplyOutcome | apps/web/lib/server/paddle.ts:86-157 | Every intent is applied, adding one row, or skipped because its key exists, and the two counts add up; the plan, the subscription and the audit log change whether or not anything was applied |
| Worklet.StreamingIsOneShot | apps/web/lib/studio/worklet.ts:29-61 | For every ratio up to two and every split of the input into chunks, the samples emitted are those of one pass over the whole input |
| Worklet.StreamingIsOneShotIff | apps/web/lib/studio/worklet.ts:29-61 | For positive integer rates every split gives the samples of one pass if and only if the device rate is at most twice the target rate |
| Blocks.BlocksAreOneShotIff | apps/web/lib/studio/worklet.ts:29-61 | For every ratio: all streams of 128-sample blocks give the samples of one pass if and only if no position of one pass inside some number of blocks is followed by one more than a sample beyond them |
| Blocks.CommonRatesDisagree | apps/web/lib/studio/worklet.ts:19-61 | At 48, 44.1 and 96 kHz a block of silence and a block with a step come out other than in one pass |
| Blocks.FourFoldAgrees | apps/web/lib/studio/worklet.ts:29-61 | At four times the target rate every stream of blocks gives the samples of one pass, although the ratio is above two |
| Worklet.EmitAt | apps/web/lib/studio/worklet.ts:40-57 | Sample k of one pass interpolates the input at k times the ratio, and exists exactly when that position lies between two input samples |
| Worklet.ProcessTracks | apps/web/lib/studio/worklet.ts:36-61 | One call keeps the stream where one pass over everything heard so far would stand |
| Worklet.LoudestIsLargest | apps/web/lib/studio/worklet.ts:41-47 | The peak after a call is the largest magnitude among its samples and the peak before |
| WorkletObject.Pcm16Downsampler.Process | apps/web/lib/studio/worklet.ts:29-70 | One call advances cursor, tail and output as the stream does, posting frames of exactly the frame size; posted frames and the filled part of the next are the output; the peak is posted and reset once enough input has come in |
| WorkletObject.Pcm16Downsampler.Push | apps/web/lib/studio/worklet.ts:49-55 | A sample goes to the end of the output, and a full frame is posted |
| LineBreak.BreakIntoLines | packages/caption-engine/src/linebreak.ts:37-55 | Terminates with at most the allowed number of lines, overflow only when all are used, and every line ended at the break the rule demands |
| LineBreak.ChooseBreak | packages/caption-engine/src/linebreak.ts:58-88 | The break has the highest score, then the fullest width, among positive-score breaks in the last 40% of the line; without one the line is as full as it gets; a word too long stands alone |
| LineBreak.LayoutKeepsWords | packages/caption-engine/src/linebreak.ts:42-54 | The words of all lines followed by those of the overflow are the input words in order |
| LineBreak.BreakIsUnique | packages/caption-engine/src/linebreak.ts:58-88 | The rule determines the break: no other satisfies it |
| LineBreak.LineFits | packages/caption-engine/src/linebreak.ts:63-75 | A line is wider than allowed only if it is a single word |
| LineBreak.NumberKeptWithUnit | packages/caption-engine/src/linebreak.ts:79-99 | A line of several words ends on a number that is not the last word only if every break in the last 40% of the line would |
| Stability.StablePrefixTokens | packages/caption-engine/src/stability.ts:20-39 | The loop with its early exits computes the common prefix of the window cut at the volatile tail |
| Stability.AgreedTokensIsGreatest | packages/caption-engine/src/stability.ts:29-36 | A number of leading tokens is agreed by the whole window if and only if it is at most the computed one |
| Stability.StableTokensMeaning | packages/caption-engine/src/stability.ts:20-39 | A positive number of leading tokens is at most the stable count if and only if the last hypotheses all agree on it and it stays clear of the volatile tail |
| Stability.StableCharsCut | packages/caption-engine/src/stability.ts:42-48 | The character count cuts the joined text exactly after the stable tokens |
| Stability.RewriteTracker.Record | packages/caption-engine/src/stability.ts:60-71 | The window remembers whether a partial changed a token already emitted, for at most its capacity of partials |
| Translation.HitIsLastSet | packages/caption-engine/src/translation.ts:75-95 | Every hit returns the value last set for its key |
| Translation.ContentsUnique | packages/caption-engine/src/translation.ts:75-95 | The cache never holds a key twice nor more entries than its capacity |
| Translation.CapacityInclusion | packages/caption-engine/src/translation.ts:75-95 | Under the same operations a smaller cache is always part of a larger one, in the same order and with the same values |
| Translation.HitsMonotone | packages/caption-engine/src/translation.ts:75-86 | Extra capacity never loses a hit |
| Translation.TranslationCache.Get | packages/caption-engine/src/translation.ts:75-86 | A hit refreshes the entry's recency and counts, a miss only counts |
| Translation.TranslationCache.Set | packages/caption-engine/src/translation.ts:88-95 | A value becomes the newest entry, and the oldest goes when the capacity is exceeded |
| Translation.ContextWindow.Push | packages/caption-engine/src/translation.ts:44-49 | The window keeps the last non-blank sentences, trimmed |
| Limits.HandshakeLimiter.Allow | apps/relay/src/server.ts:390-400 | A handshake is admitted if and only if fewer than the limit were admitted in the window ending now, judged on the whole history of the key although old entries are forgotten |
| Limits.AtMostLimitPerWindow | apps/relay/src/server.ts:390-400 | For a clock that never runs back, no sixty-second window contains more than the limit of admissions of a key |
| Limits.AtMostTwoWindows | apps/relay/src/session-actor.ts:455-464 | However frames arrive, at most twice the cap of sixty are accepted in any half-open second |
| Limits.SecondIsBoundedIff | apps/relay/src/session-actor.ts:455-464 | A number bounds the frames accepted in a given half-open second, however frames arrive, if and only if it is at least sixty for a second that begins no later than the session or one second after, one hundred and twenty for one that begins between, one hundred and nineteen for a later one, and nothing for one that is over before the session |
| Limits.SixtyPerSecondIff | apps/relay/src/config.ts:76-77 | At most sixty frames are accepted in a given second, however frames arrive, if and only if it begins no later than the session or exactly one second after |
| Limits.FullestIsMost | apps/relay/src/session-actor.ts:455-464 | Two bursts around the boundary of a window are all accepted and reach that number |

## Left out

- Replication.ReplicaAgreement: says nothing about the projector's final mark, revision, time and card order, because the code does not keep them in step with the engine; `MarkRuns.MarksDifferIff` says when the marks differ.
- BillingRuns.FinishedHold: `unlowered`, `lostGrants` and `lostReleases` are tallies of what the environment made of the gateway calls, since a call may fail half way; `Holds.SessionHold` has none of them.
- Holds.HoldIsBacked: a call that stops between its transaction and the hold is excluded, here and in `Promises.NoDoublePromise`, because it lowers the balance and leaves the hold.
- Sockets, HTTP, JSON, Postgres and Redis: lists of sent messages, a ledger with a unique key, a balance row and a hold counter stand for them; serialisation and the schemas' validation are not modelled.
- EngineObject.CaptionEngine.OnPartial: the `lines` of a card, which the relay drops, are not a field of it, nor are the samples behind the stabilisation metric; line breaking is modelled by itself.
- EngineObject.CaptionEngine.OnCommitted: nor are `lines`, the speech queue with its length limit, and the metrics of reading speed and display time.
- Timeline: a gateway call takes effect at the moment of the turn before it, and a hold there is at the start counts as written when the session starts.
- Refreshes: a statement reads a prefix of the ledger in the order rows were committed; the audit trail and plan changes of a webhook are not steps of it.
- PlanChanges.PlanFollowsLastDelivery: the two clock readings of one delivery are taken as one.
- Heartbeat, the INIT state, recogniser reconnects and the connection limit across an asynchronous handshake.
- The class of leading words and Unicode letters in line breaking: a parameter; number, sentence end and pause are modelled on characters.
- White space and trimming: the blank characters of the model are a fixed set.
- Floating point: credits are integers, and resampling positions and billed time exact reals.
- Block layout, line parts and query overrides of the projector page.
- Aliasing of the arrays and views that `snapshot()` and `get()` hand out: values in the model.
- Token verification, encryption, hashing and webhook signatures; plan tables, airtime formatting and configuration parsing.
- Expiry of credits as a ledger entry, and how a webhook finds its user.
