# Crypto screener: a verified model of the signal pipeline

The screener turns market ticks into arbitrage signals. Ticks pass a coalescer and a dispatcher,
reach a sharded aggregator that searches the exchange pairs of a symbol, and leave it as
OPENED/UPDATED/CLOSED events per route. A tracker turns the events into signals, a buffer carries
the newest snapshot of each signal to the database, and a router tells the users. This project
models that chain, and the parts it rests on, and proves what each part and the chain as a whole keep.

## How the model is built

- Parts that change their fields step by step are classes with the same fields, and each method
  states its whole new state. The state is tied to functions of values (`Handle`, `RouteStep`,
  `Ingest`, `Meaning`, ...), and the laws are lemmas about those functions.
- Concurrent parts are also state machines (`Shutdown`, `PersistenceProtocol`, `RouterProtocol`,
  `IngressProtocol`, `ConnectorProtocol`, `Dispatch`, and `Runs` for the aggregator). One step is one
  locked section, one channel operation or one call to the outside, and the theorems hold for every
  list of steps, for any number of workers, producers and callers. For each machine it is also proved
  that work in it can be brought to its end (`RouterDelivery`, `ShutdownServes`, `IngressProgress`,
  `Dispatch.AllCanBeDelivered`, `ConnectorProgress`).
- What a step computes is stated a second time by what it means: `OpenRoutes` and `FundingVerdicts` say
  when a route is open in terms of quotes, fees and rates, `VolumeWindows` what a volume is in terms of
  candles, `RoutePeaks` and `Episodes` what is remembered and reported in terms of observations and events,
  `Audience` who is told, and `FeeTexts` what a text charges.
- The bridge between the aggregator and everything after it is the route. `Commits` says what a
  locked section does to every single route; `Runs.RunIsRoutes` shows that any run of all shards,
  seen from one route, is a run of the small machine in `Routes`, and the theorems about whole runs
  follow from that machine.
- Time is an integer number of nanoseconds with 0 as the zero time. Decimals are reals; division
  keeps sixteen digits and rounds half away from zero, as the decimal library does. crc32 is an
  arbitrary function. The order of a map iteration is arbitrary. What a locked section reads from
  other parts (settings, funding, users, volumes) is one value, `Env`. Clock readings, fresh signal
  identifiers, the result of a save, the revalidator's answer and the users chosen at a moment are
  parameters.

## What the proofs found

- The mirror between aggregator and tracker holds exactly when no event of a route is stamped before
  its opening (`Routes.MirrorExactly`); times that never fall per symbol are enough
  (`Pipeline.TrackerMirrorsAggregator`). `Routes.DisorderBreaksTheMirror` and
  `Routes.LateCloseBreaksTheMirror` are the short traces that break it, the second by a close that is
  sent after the event that reopens its route. Whatever follows such a late close, the tracker has lost
  the reopened episode until the next opening (`Routes.LateCloseLosesTheEpisode`), so the delay is
  harmless exactly when nothing was overtaken (`Routes.LateCloseHarmlessExactly`).
- A deletion in the volume engine is invisible exactly for the queries that cannot reach a minute that
  may be gone (`Volume.PruningInvisibleExactly`): up to 180 seconds behind the pruning clock for the
  four-hour window (`Volume.PruningInvisible`), more for shorter ones.
- The evicting funding manager holds the same usable records as one that never evicts exactly when no
  update is older than an evicted record of its key (`Funding.EvictionAgreesExactly`); such an update is
  refused by the record and accepted after its eviction (`Funding.RevivalIsVisible`). In those histories
  no verdict tells the two apart exactly when the moment judged is not before the latest eviction, or no
  record can be old enough for that eviction (`Funding.EvictionInvisibleExactly`): a tick that waited in its queue
  during an eviction can be judged differently (`Funding.EarlyVerdictTells`).
- Buffer versions start again at 1 after an acknowledgement. No snapshot is lost exactly with at most one
  worker (`PersistenceProtocol.CrowdIsSafeExactly`); the application starts one
  (`PersistenceProtocol.NoSnapshotLost`).
- Update thresholds lie in (opening spread, peak] and updates stay within floor((peak - opening) / step)
  for figures of at most sixteen digits (`UpdatePrecision`). The settings accept fees with more digits;
  then a quotient within half a unit of the sixteenth digit counts as the next whole step.
  `UpdatePolicy.ThresholdAtMostPeak` gives the exact condition and
  `UpdatePrecision.ThresholdCanExceedPeak` an input.
- The point query answers what the full search over the quotes under the normal form of its symbol
  contains (`Search.RevalidateIsSearch`), so it agrees with the search of the symbol itself exactly for
  symbols that are their own normal form (`Search.QueryIsSearchExactly`). Normalizing is not idempotent, so
  a tick for the raw symbol "- A" opens routes that the query does not find
  (`Aggregator.AcceptedRouteIsNotFoundAgain`).
- Without a volume engine the prefilters and the router measure differently, and the prefilters hide no
  accepted route exactly when every user is covered by one who is measured alike and asks for no more
  (`Search.PrefiltersExactlyForCovered`). The application always passes an engine
  (internal/app/app.go:89-91), so the running program never builds a configuration in which a route is
  hidden.
- Route keys are injective for exchange names without colons, whatever the symbol. The key of a route
  with a colon-free symbol determines the route exactly when both exchange names are free of colons
  (`Domain.KeyDeterminesExactly`).
- The coalescer's put-back is dead code in effect: whenever it can run the stop is already in force,
  and it writes nothing (`IngressProtocol.PutBackWritesNothing`).
- A tick evaluates only its own exchange's intra-exchange route, but the close sweep covers all routes
  of the symbol. An active route stays active exactly when this tick observes it above the closing
  threshold (`Runs.TickKeepsExactly`), so a route that the search still holds there stays exactly when it
  crosses exchanges or the tick is of its own exchange (`Runs.OpenRouteStaysExactly`). A tick of another
  exchange closes it although nothing about it changed (`Runs.OtherExchangeCloses`).
- No route is found with a spread between the closing and the opening threshold exactly when the funding
  threshold is at least the opening one (`Search.NeverInBandExactly`). The application sets both to the
  same value, but in two steps (internal/app/app.go:451-454, 611-614): while the floor is being lowered
  the funding threshold is the smaller one, and a tick can land in the band (`Search.BandRoute`).

## Files

`Wrappers`, `Numbers`, `Text`, `Domain`: shared values. `Config`, `FeeTexts`, `Funding`, `FundingVerdicts`,
`Volume`, `VolumeWindows`: the aggregator's collaborators, each with what its figures mean. `Search`,
`OpenRoutes`, `Aggregator`, `Shards`, `Sharding`, `Quotes`, `Runs`, `Routes`, `RoutePeaks`: the aggregator,
from the search over one book to runs of all shards. `Tracking`, `Episodes`, `Pipeline`: the tracker, what its
signals say, and the mirror. `Persistence`, `PersistenceProtocol`, `Shutdown`, `ShutdownServes`: the buffer, the
worker, and the whole application up to the end of its shutdown. `Notifications`, `Audience`, `UpdatePolicy`,
`UpdatePrecision`, `RouterProtocol`, `RouterDelivery`: the router. `Ingress`, `IngressProtocol`,
`IngressProgress`, `Dispatch`: the way in. `MexcProto`: the protobuf reader. `Connectors`, `ConnectorProtocol`,
`ConnectorProgress`: the connector manager.

## Model

| member | source | states |
|---|---|---|
| Domain.RouteKeyInjective | internal/app/sharded_aggregator.go:400-409 | for colon-free exchange names and any symbols a route key determines symbol, kind, both exchanges and both markets |
| Domain.KeyDeterminesExactly | internal/app/sharded_aggregator.go:400-409 | for a colon-free symbol no other route has the key exactly when both exchange names are free of colons |
| Domain.ColonMoves | internal/app/sharded_aggregator.go:400-409 | for every route with a colon in an exchange name another route of the same symbol with the same key |
| Domain.PrefixMeansSymbol | internal/app/sharded_aggregator.go:152-170 | the sweep's test for the prefix "SYMBOL:" selects exactly the keys of that symbol |
| Text.NormalNameIdempotent | internal/app/connector_manager.go:154 | a trimmed and upper-cased name is its own normal form |
| Text.NormalNameSpelled | internal/app/connector_manager.go:154 | the normal name is the name without the spaces around it, character by character in upper case |
| Text.NormalSymbolSpelled | internal/app/sharded_aggregator.go:411-415 | a normal symbol has no separator and no small letter, and every other character of the trimmed symbol |
| Text.NormalSymbolNotIdempotent | internal/app/sharded_aggregator.go:411-415 | deleting separators can expose a space, so a normal symbol need not be normal again |
| Funding.FundingManager.UpdateFunding | internal/app/funding_manager.go:176-195 | stores the record and marks the exchange healthy, refuses empty keys, and leaves everything unchanged for an event older than the stored one |
| Funding.FundingManager.SetExchangeStreamHealth | internal/app/funding_manager.go:149-159 | sets the health of the normalized name and nothing else |
| Funding.FundingManager.EvictStale | internal/app/funding_manager.go:238-254 | removes exactly the records stale for their own exchange, in any iteration order |
| Funding.EvictionAgreesExactly | internal/app/funding_manager.go:176-254 | over any history of updates, health changes and evictions, the evicting manager differs from one that never evicts only in stale records, at every moment exactly when no update is older than an evicted record of its key |
| Funding.EvictionInvisible | internal/app/funding_manager.go:238-344 | over such a history evictions change no profitable verdict and none of its figures, at any moment not before the latest eviction, or at any moment when no record can be old enough for it; updates may come later than that moment |
| Funding.EvictionInvisibleExactly | internal/app/funding_manager.go:238-344 | for every configuration, latest eviction and moment judged: no such history can be told by a verdict exactly when that condition holds |
| Funding.EarlyVerdictTells | internal/app/funding_manager.go:238-344 | for every earlier moment and exchange whose records can expire, a history after which only the manager that never evicts says profitable |
| Funding.RevivalIsVisible | internal/app/funding_manager.go:176-195 | an update older than the evicted record is accepted after the eviction, refused without it, and the verdicts differ |
| FundingVerdicts.PairVerdict | internal/app/funding_manager.go:293-344 | a futures pair is profitable exactly when both records are healthy, dated and within their budget and the spread less the buyer's rate plus the seller's reaches the minimum; each leg's rate and time in its own field |
| FundingVerdicts.LoneVerdict | internal/app/funding_manager.go:260-291 | for spot and futures only the seller's record and rate count |
| FundingVerdicts.SenselessIsRefused | internal/app/funding_manager.go:260-303 | nothing without names, a time or a spread that is not negative is profitable |
| FundingVerdicts.SwappedPair | internal/app/funding_manager.go:256-258 | the two directions of a pair have net spreads that add up to twice the spread |
| FundingVerdicts.RecordIsNewest | internal/app/funding_manager.go:176-195 | over any history the record of a key is that of the newest dated event told of it, and of the latest telling among equal ones |
| FundingVerdicts.HealthIsLastWord | internal/app/funding_manager.go:149-195 | over any history a stream is healthy exactly when the last word on it was an accepted update or a good report |
| Config.CloseBelowOpen | internal/domain/config.go:65-67 | the closing threshold is positive and below the opening one, rounding included |
| Config.ClampedIsNearest | internal/domain/config.go:106-114 | a fee is set to the number of the allowed range nearest to the one given |
| FeeTexts.NumberReads | internal/domain/config.go:179 | every text of an optional sign, digits, a fraction and an exponent is read as the number it writes |
| FeeTexts.ScaledIsExact | internal/domain/config.go:179 | an exponent multiplies by that power of ten, and is refused exactly outside 32 bits |
| FeeTexts.OnlyNumbersRead | internal/domain/config.go:179-182 | an empty text, or one with any other character, is no number |
| FeeTexts.PartReadsExactly | internal/domain/config.go:171-182 | a part is read exactly when it is a name before its first colon and a fee in [0, 0.01] after it |
| FeeTexts.FeesReadExactly | internal/domain/config.go:164-186 | a text is accepted exactly when every part between commas is blank or such an entry, and then gives every exchange the fee of its last entry and names no other |
| FeeTexts.EveryTextHasParts | internal/domain/config.go:166 | every text has such parts |
| FeeTexts.ChargedFee | internal/domain/config.go:124-140 | the search charges the fee set for the exchange in any spelling, else the default entry, else 0.0005 |
| Config.DefaultIsCharged | internal/domain/config.go:45-54 | the default fee map charges every exchange 0.0005 |
| FeeTexts.TextIsCharged | internal/domain/config.go:193-205 | what an accepted text gives an exchange is what the search charges afterwards |
| Config.ScreenerConfig.SetFee | internal/domain/config.go:101-120 | clamps into [0, 0.01] under the normalized name, ignores an empty name, and so keeps every fee of the map in that range |
| Config.ScreenerConfig.SetHardMinSpread | internal/domain/config.go:69-79 | the threshold never falls below the hard floor |
| Config.ScreenerConfig.Read | internal/domain/config.go:164-186 | the loop over the parts computes the parse of the whole text and rejects at the first bad part |
| Config.ScreenerConfig.ApplyFees | internal/domain/config.go:193-205 | replaces the whole map by the parsed one, keeps every fee in range and every key normal, leaves the map unchanged for a rejected or empty text, and leaves what the search reads unchanged for the printed form of the map |
| Config.ScreenerConfig.SetFees | internal/app/app.go:715-722 | the operator's command overlays the parsed entries and keeps the map restorable |
| Config.ParseOfPrint | internal/domain/config.go:144-162 | a printed decimal reads back as the same number |
| Config.FeesSurviveRestart | internal/domain/config.go:144-186 | for every order of printing, the printed fee map reads back with the same keys and numbers |
| Config.SettingsSurviveRestart | internal/app/app.go:461-468 | the settings that the search reads are the same after the printed fees were read back |
| Config.ParsedFeesAreGood | internal/domain/config.go:164-186 | every accepted text gives a map that can be printed and restored |
| Volume.VolumeEngine.UpdateCandle | internal/app/volume_engine.go:47-74 | the new data are those of the pruning specification, with the thousandth update's sweep |
| Volume.VolumeEngine.Janitor | internal/app/volume_engine.go:185-203 | drops expired series and old buckets, in any iteration order |
| Volume.VolumeEngine.EstimateMarketVolume | internal/app/volume_engine.go:96-153 | the two backward scans compute the estimate defined by the newest run of known minutes |
| Volume.VolumeEngine.SumRun | internal/app/volume_engine.go:129-138 | adds up exactly the run of known minutes that ends at the newest one |
| Volume.PruningInvisible | internal/app/volume_engine.go:60-69 | no history of updates and sweeps can be told from one that never deletes, for queries within 180 s of the latest clock |
| Volume.PruningInvisibleExactly | internal/app/volume_engine.go:60-153 | for every timeframe, minute and pruning clock: deletion is invisible exactly when the oldest minute of the window is retained or no known run can end at its newest minute |
| Volume.PruningVisible | internal/app/volume_engine.go:185-203 | otherwise a completely received window is reported as incomplete |
| VolumeWindows.SeriesOfOneMarket | internal/app/volume_engine.go:43-45 | with bar-free exchange names two markets share a series exactly when they are the same but for upper case |
| VolumeWindows.KeepsLastQuotes | internal/app/volume_engine.go:47-74 | of every minute of every market the last complete candle counts |
| VolumeWindows.EstimateFromCandles | internal/app/volume_engine.go:96-153 | what the engine answers, deletion included, from the candles: with the newest k of n minutes known the volume times k is within half a unit of the sixteenth digit per minute of n times their sum, the sum itself for k = n, and nothing without the newest minute |
| VolumeWindows.ConstantTurnover | internal/app/volume_engine.go:148-152 | a constant turnover per minute is projected to n times itself |
| VolumeWindows.WindowLength | internal/app/volume_engine.go:76-95 | the window has the length its timeframe names |
| VolumeWindows.RouteIsThinnerLeg | internal/app/volume_engine.go:158-169 | a route's volume is that of its thinner leg, and nothing when one leg has none |
| VolumeWindows.SweepKeepsExactly | internal/app/volume_engine.go:185-203 | the sweep keeps exactly the series updated within four hours and two minutes, and their buckets of that time |
| VolumeWindows.UpdateLeavesNothingOld | internal/app/volume_engine.go:60-69 | an update leaves no bucket older than that in its series |
| Search.RevalidateIsSearch | internal/app/sharded_aggregator.go:478-534 | for every symbol the point query succeeds exactly when the search over the quotes under its normal form contains the route, with the spread, volume and funding of that search |
| OpenRoutes.CrossEventExactly | internal/app/sharded_aggregator.go:203-262 | a cross route is found exactly when both quotes were received within the time to live, both records are reliable, the prices gain after the fees, and the gain less the buyer's rate plus the seller's reaches the minimum; the event carries exactly those figures |
| OpenRoutes.IntraEventExactly | internal/app/sharded_aggregator.go:264-294 | the same for spot and futures of one exchange |
| OpenRoutes.GainIsExact | internal/app/sharded_aggregator.go:235-240 | the gain is the relative price difference less both fees, up to half a unit of the sixteenth digit |
| OpenRoutes.CrossEventAfterUpdates | internal/app/sharded_aggregator.go:242-258 | over any funding history that ends with accepted updates of both exchanges: found exactly when the gain plus the seller's told rate less the buyer's reaches the minimum, with that spread |
| OpenRoutes.AgeDecides | internal/app/sharded_aggregator.go:417-422 | a route that would be open on renewed quotes is open exactly when both quotes are recent |
| OpenRoutes.QueryAgeDecides | internal/app/sharded_aggregator.go:478-534 | the same for the point query |
| OpenRoutes.QueryAnswersInPresentFigures | internal/app/sharded_aggregator.go:524-533 | the answer is the signal with the spread, volume and funding that the route has now, whatever they were, and everything else unchanged |
| OpenRoutes.OpenedIsFoundAgain | internal/app/sharded_aggregator.go:478-534 | a signal opened from a found route of a normal symbol is found again at that moment, unchanged |
| Search.FoundReachesMinimum | internal/app/sharded_aggregator.go:242-258 | every route found reaches the funding threshold |
| Search.NeverInBandExactly | internal/app/app.go:611-614 | no search finds a spread between the closing and the opening threshold exactly when the funding threshold is at least the opening one |
| Search.BandRoute | internal/app/app.go:611-614 | for all thresholds and every spread from the funding threshold on, quotes of which the search finds a route with that spread |
| Search.QueryIsSearchExactly | internal/app/sharded_aggregator.go:478-534 | the point query answers as the full search for all states and times exactly for the symbols that are their own normal form |
| Search.QueryMisses | internal/app/sharded_aggregator.go:478-485 | for every other symbol there is a state in which the search holds a route of that symbol and the query finds nothing |
| Aggregator.AcceptedRouteIsNotFoundAgain | internal/app/sharded_aggregator.go:84-105 | two valid ticks for the raw symbol "- A" open a route that the point query does not find |
| Search.PrefiltersHideNothing | internal/app/sharded_aggregator.go:326-398 | a route that passes some user's router volume test passes both prefilters, when both measure alike |
| Audience.EligibleExactly | internal/app/sharded_aggregator.go:370-398 | the route prefilter passes a route exactly when some user's own volume test accepts it, if users are measured alike |
| Audience.TooThinForAll | internal/app/sharded_aggregator.go:326-368 | when no recent leg reaches any user's minimum the tick observes nothing |
| Search.PrefiltersExactlyForCovered | internal/app/notification_router.go:336-348 | for any users, the prefilters hide no accepted route, whatever the quotes, fees and funding, exactly when every user is covered by one who is measured alike and asks for no more |
| Search.HiddenRoute | internal/app/sharded_aggregator.go:326-398 | without a volume engine, a route that an uncovered user accepts and the prefilters hide |
| Aggregator.CrossCandidates | internal/app/sharded_aggregator.go:203-262 | returns exactly the open ordered pairs, each once, for every enumeration order; the i<j loop with its else-if misses no direction |
| Aggregator.ExaminePair | internal/app/sharded_aggregator.go:222-258 | of one pair the direction whose prices cross is found, and the other cannot be open |
| Aggregator.CandidatesDiffer | internal/app/sharded_aggregator.go:105-131 | two candidates of one tick never share a key |
| Aggregator.SymbolMayPassVolume | internal/app/sharded_aggregator.go:326-368 | the maximum over fresh legs decides whether some leg reaches some user's minimum |
| Aggregator.MaxOverLegs | internal/app/sharded_aggregator.go:334-360 | the largest figure of any fresh leg, or zero |
| Shards.Shard.ObserveRoute | internal/app/sharded_aggregator.go:296-324 | opens above the opening threshold, closes at the closing one, raises the peak and emits accordingly |
| Shards.Shard.Tick | internal/app/sharded_aggregator.go:84-177 | for any names: an outdated tick changes nothing; any other stores its quote, observes exactly the candidate routes, each once, in some order, and sweeps its symbol; with colon-free names it moves every route by its own observation or absence |
| Shards.Shard.ObserveAll | internal/app/sharded_aggregator.go:105-151 | the observed list holds exactly the candidates, each once, and memory and events are those of observing them one after the other |
| Shards.TickIsCommit | internal/app/sharded_aggregator.go:84-177 | with colon-free names the order of the list leaves no trace: per route exactly its own step and event |
| Shards.Shard.SweepSymbol | internal/app/sharded_aggregator.go:152-170 | for any names closes exactly the active routes under the prefix of the symbol that were not observed, one event each |
| Shards.Shard.Janitor | internal/app/sharded_aggregator.go:536-585 | deletes old quotes and empty maps, and closes exactly the expired routes |
| Quotes.JanitorKeepsExactly | internal/app/sharded_aggregator.go:536-585 | kept are exactly the routes seen within ten minutes and the quotes received within twelve lifetimes, as they were, and no empty map |
| Quotes.NormalTickHasTimes | internal/app/sharded_aggregator.go:84-104 | known times are kept, a tick that knows when it was received or happened gets all its times, and nothing else changes but the spelling |
| Quotes.AcceptedExactly | internal/app/sharded_aggregator.go:423-433 | a tick is accepted exactly when its names and time are known, its market is one of the two and its prices are in order |
| Quotes.QuoteIsLatest | internal/app/sharded_aggregator.go:84-105 | of every market a shard quotes the tick received latest, the last among those received at one time |
| Shards.Shard.FlushActive | internal/app/sharded_aggregator.go:179-201 | closes every active route at the given moment |
| Shards.ShardedAggregator.ProcessTick | internal/app/sharded_aggregator.go:84-177 | invalid ticks change nothing; any other tick runs in the shard of its normalized symbol, for any names, and leaves the other shards alone |
| Shards.ShardedAggregator.FlushActive | internal/app/sharded_aggregator.go:179-201 | one flush commit per shard, events in that order |
| Shards.ShardedAggregator.Janitor | internal/app/sharded_aggregator.go:536-585 | one janitor commit per shard, all events sent afterwards |
| Shards.ShardedAggregator.RevalidateSignal | internal/app/sharded_aggregator.go:478-534 | answers from the shard of the signal's symbol: success exactly when the search over the quotes under the normal form there contains the route, and the answer carries that search's figures |
| Sharding.ShardingInvisible | internal/app/sharded_aggregator.go:78-170 | for every hash and number of shards a tick emits the same multiset of events as a single shard, and the shards go on splitting its state |
| Sharding.PassInvisible | internal/app/sharded_aggregator.go:179-201 | the same for a flush or janitor pass over all shards |
| Sharding.ShardingInvisibleThroughout | internal/app/sharded_aggregator.go:78-585 | over whole runs of ticks, janitor passes and flushes every call emits what a single shard emits, as a multiset and route by route |
| Sharding.CommitElsewhere | internal/app/sharded_aggregator.go:78-170 | a commit leaves alone every route that lives in another shard |
| Sharding.CommitKeepsHoused | internal/app/sharded_aggregator.go:78-170 | shards hold only their own symbols and routes, under their own keys |
| Runs.RunIsRoutes | internal/app/sharded_aggregator.go:84-201 | any run of all shards, seen from one route, is a run of the route machine |
| Runs.EveryRouteLogsEpisodes | internal/app/sharded_aggregator.go:131-201 | over any run the tags of a route form (Opened Updated* Closed)*, spreads rise within an episode, and the route is active exactly while its last tag is not Closed |
| Runs.ActiveMeansObservedNow | internal/app/sharded_aggregator.go:105-170 | after an accepted tick every active route of its symbol was found at that moment: fresh legs, positive after fees, funded, above the closing threshold |
| OpenRoutes.ActiveRestsOnRecentQuotes | internal/app/sharded_aggregator.go:105-170 | after an accepted tick both legs of every active route of its symbol were received within the time to live and not in the future, and gain after the fees up to rounding |
| OpenRoutes.OldQuoteClosesTheRoute | internal/app/sharded_aggregator.go:152-170 | an active route one of whose quotes is missing or too old is closed by the next accepted tick of its symbol |
| OpenRoutes.TickOpensExactly | internal/app/sharded_aggregator.go:296-309 | an accepted tick opens a route exactly when it observes it at or above the opening threshold |
| Runs.TickKeepsExactly | internal/app/sharded_aggregator.go:105-170 | an active route of the symbol stays active under an accepted tick exactly when the tick observes it above the closing threshold |
| Runs.OpenRouteStaysExactly | internal/app/sharded_aggregator.go:131-170 | an active route that the search still holds above the closing threshold, past the prefilters, stays exactly when it crosses exchanges or the tick is of its own exchange |
| Runs.OtherExchangeCloses | internal/app/sharded_aggregator.go:141-170 | after two ticks of A open an intra route of A, a tick of B closes it although the search still holds it with the same spread |
| Runs.RunThreeTicks | internal/app/sharded_aggregator.go:84-177 | a shard really goes through these three ticks |
| Runs.InputsAreGood | internal/app/sharded_aggregator.go:84-201 | every observation a run makes has a real time, a symbol and a spread that is not negative, and times that never fall per symbol give every route inputs in order of time |
| Routes.RouteGrammar | internal/app/sharded_aggregator.go:296-324 | every run of one route logs whole episodes with rising spreads |
| RoutePeaks.RouteRemembers | internal/app/sharded_aggregator.go:296-324 | in every run the memory of a route is of its first, its last and its highest sighting since it opened |
| RoutePeaks.RouteEmits | internal/app/sharded_aggregator.go:296-324 | each input emits what it does to the sightings: an update exactly for one above all before it, a close with its own figures |
| Routes.OutputsAccepted | internal/app/tracker.go:89-96 | no event of a route is stopped by the tracker's guards on time, symbol and spread |
| Routes.MirrorExactly | internal/app/tracker.go:97-148 | tracker and aggregator agree at every moment exactly when no event precedes its route's opening |
| Routes.OrderedMirror | internal/app/tracker.go:97-148 | inputs in order of time leave both with the same activity, opening time and peak |
| Routes.DisorderBreaksTheMirror | internal/app/tracker.go:117-122 | a close stamped before the opening is dropped by the tracker |
| Routes.LateCloseBreaksTheMirror | internal/app/sharded_aggregator.go:580-584 | a close sent after the event that reopens its route ends the new episode |
| Routes.LateCloseLosesTheEpisode | internal/app/tracker.go:97-148 | for every run in order of time: a close delivered after the events that follow it leaves the tracker without an entry, and nothing but the next opening brings one back |
| Routes.LateCloseHarmlessExactly | internal/app/tracker.go:97-148 | delaying the last close of a log behind all that follows leaves tracker and aggregator in agreement exactly when nothing follows it |
| Tracking.Tracker.HandleEvent | internal/app/tracker.go:89-191 | the new signals and the calls to persistence and router, in order, for every tag and every guard |
| Episodes.TrackedTellEpisodes | internal/domain/signal.go:71-107 | over any log every tracked signal names the very route it is filed under, with the spread of the first event of its episode, the funding of the last, the highest spread and volume of all, and the chats told of it |
| Episodes.EveryEventIsReported | internal/app/tracker.go:89-191 | every event is handed on by what it does to its episode: the new signal, the raised one exactly for a spread above all before, the ended one to those told of the opening, nothing otherwise |
| Episodes.NewestIsCurrent | internal/app/tracker.go:109-116 | no tracked signal has risen above its newest persisted snapshot |
| Tracking.ReplayIsTrack | internal/app/tracker.go:89-148 | the tracker's entry for a route depends on that route's events alone |
| Tracking.ReplayAccounts | internal/app/tracker.go:89-191 | the newest persisted snapshots are active exactly for the tracked signals, identifiers are unique, closed ones carry a matching duration that is not negative |
| Tracking.ReplayIsGuarded | internal/app/tracker.go:181-184 | a close is announced only after the invalidation of its signal |
| Tracking.ReplayIsNamed | internal/app/tracker.go:178-184 | every announced close names a signal |
| Tracking.ReplayClearsLast | internal/app/tracker.go:178-190 | over any log no update of a signal is announced after its thresholds were cleared |
| Pipeline.TrackerMirrorsAggregator | internal/app/tracker.go:89-148 | after any ordered run whose events arrive in commit order per route, the tracked routes are exactly those active in some shard, with equal peaks and opening times |
| Pipeline.LogIsSound | internal/app/tracker.go:89-96 | no event of such a log is dropped by the tracker's guards, and each has a tag |
| Pipeline.NothingLeftOpen | internal/app/app.go:244-261 | after a run that ends with the flush no route and no signal is active, and the newest snapshot of every signal is closed with a duration that is not negative |
| Persistence.SignalPersistenceBuffer.Put | internal/app/signal_persistence_buffer.go:33-53 | stores the snapshot under the next version; refused once closed; without identifier ignored |
| Persistence.SignalPersistenceBuffer.SnapshotBatch | internal/app/signal_persistence_buffer.go:55-72 | up to the limit distinct items as they are, none for a limit of zero |
| Persistence.SignalPersistenceBuffer.Ack | internal/app/signal_persistence_buffer.go:74-85 | removes exactly the items still at their batch version |
| Persistence.SignalPersistenceBuffer.Close | internal/app/signal_persistence_buffer.go:97-107 | sets the closed flag; items and wake-up stay |
| Persistence.BufferedPersistenceWorker.SaveBatch | internal/app/signal_persistence_buffer.go:149-160 | saves in order up to the first failure; the rows are the saved prefix |
| Persistence.BufferedPersistenceWorker.Flush | internal/app/signal_persistence_buffer.go:143-164 | always stops; the buffer ends empty exactly when no save failed, and then every item is stored; in any case no snapshot is in neither place |
| PersistenceProtocol.NoSnapshotLost | internal/app/signal_persistence_buffer.go:33-164 | in every interleaving with one worker the newest snapshot of every signal is buffered or stored |
| PersistenceProtocol.RowsNeverGoBack | internal/app/signal_persistence_buffer.go:143-164 | no step takes a stored row back to an older snapshot |
| PersistenceProtocol.TwoWorkersLoseASnapshot | internal/app/signal_persistence_buffer.go:43-82 | for any number of workers from two on and any two snapshots of a signal, a run after which the newer one is neither in the buffer nor in the repository |
| PersistenceProtocol.CrowdIsSafeExactly | internal/app/signal_persistence_buffer.go:33-164 | no run of n workers loses a snapshot exactly when n is at most one |
| PersistenceProtocol.DrainTerminates | internal/app/signal_persistence_buffer.go:143-164 | with nobody writing and saves succeeding, the rounds of the worker end: their number is bounded by the size of the buffer |
| PersistenceProtocol.DrainGoesOn | internal/app/signal_persistence_buffer.go:143-164 | they can always go on until the buffer is empty |
| Shutdown.ShutdownStoresOnlyClosedSignals | internal/app/app.go:219-291 | in every interleaving of workers, janitor, tracker, persistence worker and cleanup: after a finished shutdown in which nothing timed out no route and no signal is active and the repository holds exactly the newest snapshots of the run, all closed with durations that are not negative |
| Shutdown.ShutdownCanFinish | internal/app/app.go:219-291 | for any number of shards and senders there is a run whose shutdown finishes without giving up |
| ShutdownServes.EveryRunCanEndWell | internal/app/app.go:219-291 | any run of ticks and janitor passes can be served, its events sent and handled, and the application then shut down without giving up |
| Shutdown.CarryingStep | internal/app/sharded_aggregator.go:580-592 | prompt sending keeps the channel in commit order per route |
| Shutdown.FlushStep | internal/app/app.go:244-261 | the cleanup flushes every shard after all workers are gone, so the flush commits are the last |
| Shutdown.PutsStep | internal/app/tracker.go:159-164 | the buffer receives what the handled events persist, in order, and is closed after the last of it |
| Shutdown.FinalFlushGoesOn | internal/app/signal_persistence_buffer.go:131-141 | until it has finished the final flush can take a step |
| Shutdown.FinalFlushTerminates | internal/app/signal_persistence_buffer.go:131-164 | while saves succeed it takes at most three steps for each buffered signal and one more |
| Notifications.NotificationRouter.Enqueue | internal/app/notification_router.go:148-164 | replaces the whole pending job of the key and leaves a token; refused when closed or without chats |
| Notifications.NotificationRouter.TakePending | internal/app/notification_router.go:138-146 | hands out one pending job and removes it; nothing exactly when none is pending |
| Notifications.NotificationRouter.InvalidateSignal | internal/app/notification_router.go:418-425 | adds the identifier, if there is one |
| Notifications.NotificationRouter.DropPending | internal/app/notification_router.go:427-434 | removes exactly the job of the key |
| Notifications.NotificationRouter.ClearSignalUpdates | internal/app/notification_router.go:436-447 | forgets exactly the thresholds of the signal |
| Notifications.NotificationRouter.OpenTargets | internal/app/notification_router.go:334-350 | lists exactly the users whose gates the signal passes, each once, in any order |
| Audience.WantsExactly | internal/app/notification_router.go:294-350 | a user is told exactly when the spread, every known funding time and the volume of every leg meet his settings |
| Notifications.NotificationRouter.CurrentEligibleChatIDs | internal/app/notification_router.go:241-264 | of the chats of a job exactly those whose users still want the signal, each once |
| Notifications.NotificationRouter.Rejudge | internal/app/notification_router.go:176-199 | an opening or update goes to exactly those, and is given up when the route, the floor or all of them are gone; a close passes |
| Audience.JudgementIsAllowed | internal/app/notification_router.go:176-199 | what the second look decides is a step of the worker |
| Audience.OpeningSurvivesItsSecondLook | internal/app/notification_router.go:176-199 | an opening judged at the moment it was found goes to everybody it was announced for |
| Notifications.NotificationRouter.ProcessSignal | internal/app/notification_router.go:322-364 | openings go to those users, closes to the chats told of the opening; the queue gets exactly that job |
| Notifications.NotificationRouter.ProcessSignalUpdate | internal/app/notification_router.go:370-416 | lists exactly the users whose next threshold is crossed, raises exactly their thresholds, queues one job |
| UpdatePolicy.ThresholdsRise | internal/app/notification_router.go:393-407 | whatever the user does with the step, announced thresholds strictly rise |
| UpdatePolicy.WholeSteps | internal/app/notification_router.go:393 | the integer part of the rounded quotient is the floor, or one more inside the last half unit |
| UpdatePolicy.ThresholdAtMostPeak | internal/app/notification_router.go:393-397 | an announced threshold is above the opening spread, and at most the peak exactly when rounding stays clear |
| UpdatePrecision.ThresholdInRange | internal/app/notification_router.go:393-397 | with spreads of at most sixteen digits and a step of at most 100 percentage points every threshold lies above the opening spread and at most at the peak |
| UpdatePrecision.FoundSpreadIsSixteen | internal/app/sharded_aggregator.go:235-258 | with fees and funding rates of at most sixteen digits every spread the search finds has at most sixteen |
| UpdatePrecision.StepIsSixteen | internal/app/app.go:664-668 | the step set by the command has at most sixteen digits and is at most 1 |
| UpdatePrecision.ToldWithinExactSteps | internal/app/notification_router.go:366-407 | with such spreads a user is told of a signal at most floor((peak - initial) / step) times |
| UpdatePrecision.StepsFitAWord | internal/app/notification_router.go:393 | with a step of sixteen digits and a peak of at most 922 above the opening spread the number of steps fits the 64-bit integer the code takes it to |
| UpdatePrecision.ThresholdCanExceedPeak | internal/app/notification_router.go:393-397 | a fee with eighteen digits, which the settings accept, and quotes with which a threshold exceeds the peak |
| UpdatePolicy.UpdatesBounded | internal/app/notification_router.go:366-407 | with a fixed step at most as many updates as whole steps, however far one peak jumps |
| UpdatePolicy.NeverAStepBehind | internal/app/notification_router.go:393-407 | with a fixed step a user whose gates are open at the newest peak has been told of its last whole step, so the peak is less than a step above what he was told |
| UpdatePolicy.LedgerIsIssued | internal/app/notification_router.go:397-447 | with updates of other signals and clears in between: the user is told once per announcement, and until the signal is cleared the ledger holds the last announced threshold |
| UpdatePolicy.ClearsForgetLast | internal/app/tracker.go:178-190 | when the tracker announces no update after a clear, no update round of the signal follows the clearing of its thresholds |
| UpdatePolicy.ClosedLeavesNothing | internal/app/notification_router.go:436-447 | a cleared signal leaves no thresholds behind |
| UpdatePolicy.ReplayClimbs | internal/app/tracker.go:109-116 | the peaks announced for one signal start above its opening spread, strictly rise, and stay at or below the peak of its newest snapshot |
| UpdatePolicy.ToldWithinSteps | internal/app/tracker.go:186-190 | over any log, users and volumes, a user with a fixed step is told of a signal, tracked or closed, at most once per whole step between opening and peak |
| RouterProtocol.NothingFollowsClose | internal/app/notification_router.go:166-239 | in every interleaving no OPEN or UPDATE is sent after the invalidation, the CLOSE only after it, and nothing but a CLOSE follows a CLOSE |
| RouterProtocol.OneOpenOneClose | internal/app/notification_router.go:120-239 | a signal is sent at most one OPEN and one CLOSE message |
| RouterProtocol.MessagesWithinNotices | internal/app/notification_router.go:120-164 | messages sent, in hand and pending never exceed the announcements of their signal and kind |
| RouterProtocol.ReplayAnnouncesOnce | internal/app/tracker.go:89-191 | the tracker announces each signal open at most once, and closed at most once, when it leaves |
| RouterProtocol.StepKeeps | internal/app/notification_router.go:166-239 | every step keeps the lock discipline, the order of the trace and the soundness of queued closes |
| RouterDelivery.QuietMeansTold | internal/app/notification_router.go:120-239 | with the router open, all workers asleep and no token on the way nothing is pending, every close asked for was sent to all its chats, and the newest opening and update asked for of every signal were sent unless revalidation refused that very message or the signal was invalidated |
| RouterDelivery.StepKeepsOnItsWay | internal/app/notification_router.go:120-239 | every step keeps a message pending, in a worker's hands or sent, but for a refusal, an invalidation, a newer message of its kind or the end of the router |
| RouterDelivery.OwnStepWorks | internal/app/notification_router.go:120-239 | every step of its own brings an open router nearer to rest |
| RouterDelivery.RouterGoesOn | internal/app/notification_router.go:120-239 | until it is at rest an open router with a transport can take a step of its own that refuses nothing |
| RouterDelivery.EveryRequestCanBeTold | internal/app/notification_router.go:120-239 | from every reached state every message asked for, unless refused or called off, can still be sent |
| Ingress.Coalescer.Submit | internal/ingress/latest.go:31-56 | the latest tick of a market wins; nothing is written after the stop |
| Ingress.Coalescer.Flush | internal/ingress/latest.go:98-111 | of every market the tick is forwarded once, kept, or is the one dropped by the stop |
| Ingress.Coalescer.DrainAndStop | internal/ingress/latest.go:123-139 | stopped, signalled, map empty |
| Ingress.Coalescer.Next | internal/ingress/latest.go:80-88 | takes one tick out of the map |
| Ingress.Coalescer.Put | internal/ingress/latest.go:90-96 | writes back only before the stop |
| IngressProtocol.ForwardedIsSubsequence | internal/ingress/latest.go:31-111 | per market the forwarded ticks are a subsequence of the submitted ones, in every interleaving |
| IngressProtocol.QuietMeansForwarded | internal/ingress/latest.go:46-111 | before the stop, a sleeping forwarder without a token or a producer about to signal has an empty map and has forwarded, of every submission, that tick or a newer one |
| IngressProgress.RestMeansForwarded | internal/ingress/latest.go:31-111 | at rest before the stop every submission begun was stored, and that tick or a newer one of its market forwarded |
| IngressProgress.CoalescerComesToRest | internal/ingress/latest.go:31-111 | from every reached state before the stop the coalescer can come to rest by itself |
| IngressProtocol.PutBackWritesNothing | internal/ingress/latest.go:90-111 | the put-back never overwrites a newer tick; it never writes at all |
| IngressProtocol.NothingAfterStop | internal/ingress/latest.go:123-139 | once a stop has returned the map stays empty and nothing is forwarded, whatever late producers do |
| IngressProtocol.ComesStep | internal/ingress/latest.go:46-78 | a map that is not empty has a token, an active forwarder or a producer about to signal |
| Dispatch.SymbolOrderKept | internal/app/app.go:386-428 | for any hash and interleaving the aggregator is given the ticks of each symbol in arrival order without a gap |
| Dispatch.RestMeansDelivered | internal/app/app.go:386-428 | with all workers idle and nothing queued every tick received was given to the aggregator, in order per symbol |
| Dispatch.AllCanBeDelivered | internal/app/app.go:386-428 | from every reached state before the stop all ticks received can be delivered, however full the queues are |
| Dispatch.ConservedStep | internal/app/app.go:397-424 | every step conserves the ticks of a symbol between channel, dispatcher, queue, worker and aggregator |
| MexcProto.ReadVarint | internal/adapters/mexc/proto.go:150-162 | computes the little-endian groups of seven bits modulo 2^64, and errs exactly on more than ten bytes or a missing end |
| MexcProto.ReadKey | internal/adapters/mexc/proto.go:137-148 | field number and wire type, field number zero refused |
| MexcProto.ReadBytes | internal/adapters/mexc/proto.go:164-174 | the announced bytes, or an error when they are not there |
| MexcProto.SkipBytes | internal/adapters/mexc/proto.go:176-182 | what follows the byte string |
| MexcProto.DecodePayload | internal/adapters/mexc/proto.go:98-135 | the last value of every known field; other wire types refused |
| MexcProto.DecodeWrapper | internal/adapters/mexc/proto.go:21-96 | exactly what the message means: the last value of every known field and the kline of field 308, every malformed field and a missing or empty kline as an error |
| MexcProto.AppendVarint | internal/adapters/mexc/proto_test.go:9-15 | appends the base-128 groups of the value |
| MexcProto.AppendBytes | internal/adapters/mexc/proto_test.go:17-21 | appends one length-delimited field |
| MexcProto.AppendInt64 | internal/adapters/mexc/proto_test.go:27-30 | appends one number field in two's complement |
| MexcProto.VarintRoundTrip | internal/adapters/mexc/proto.go:150-162 | every 64-bit value is read back from its encoding, whatever follows |
| MexcProto.FieldsRoundTrip | internal/adapters/mexc/proto.go:98-182 | every list of fields is read back in order |
| MexcProto.UnknownFieldsChangeNothing | internal/adapters/mexc/proto.go:64-91 | any bytes that read as fields the reader does not use, at any field boundary of any wrapper, valid or not, change nothing |
| MexcProto.UnknownPayloadFieldsChangeNothing | internal/adapters/mexc/proto.go:98-135 | the same for the kline payload |
| MexcProto.EncodedFieldIsUnused | internal/adapters/mexc/proto_test.go:17-30 | what the encoder writes for a field is such an insertion exactly when the reader does not use the field |
| MexcProto.KlineRoundTrip | internal/adapters/mexc/proto_test.go:32-57 | a kline survives encoding and decoding |
| Connectors.ConnectorManager.AddConnector | internal/app/connector_manager.go:151-188 | a running connector of the exchange is stopped first; if it does not end nothing changes and nothing starts |
| Connectors.ConnectorManager.RemoveConnector | internal/app/connector_manager.go:190-221 | removes a connector that ended; one that did not stays registered |
| Connectors.ConnectorManager.StopAll | internal/app/connector_manager.go:223-260 | reports exactly the connectors that did not end; no report means that none runs; later calls repeat the first |
| Connectors.ConnectorManager.StopEntry | internal/app/connector_manager.go:61-75 | a stop succeeds exactly when the connector has ended |
| ConnectorProtocol.OneConnectorPerExchange | internal/app/connector_manager.go:61-221 | in every interleaving at most one connector runs per exchange, and until stop-all a running one, timed out or not, is registered |
| ConnectorProtocol.NoneStartsAfterStop | internal/app/connector_manager.go:223-232 | once stop-all marked the manager no connector starts |
| ConnectorProtocol.CleanReportMeansNoneRuns | internal/app/connector_manager.go:233-260 | a report without failures means that no connector runs |
| ConnectorProgress.AddCanSucceed | internal/app/connector_manager.go:151-188 | with the lock free and the manager not stopped a caller can put a new connector of any exchange in place of the old one |
| ConnectorProgress.LockCanBeFreed | internal/app/connector_manager.go:61-75 | whoever holds the lock can give it back without waiting for a connector |
| ConnectorProgress.StopAllCanReport | internal/app/connector_manager.go:233-260 | stop-all can report whatever the connectors do |

## Left out

- Exchange connectors, REST and WebSocket code, the Postgres and Telegram clients, HTTP, metrics and logging: input and output around the modelled parts; saves may fail and sends are a trace.
- Message texts and command replies; only the jobs, their chats and their order are modelled.
- The user manager, the bot pool, the symbol cache and the environment parser.
- The channel-based persistence worker, which the running pipeline does not use.
- Names and symbols outside ASCII: upper-casing is modelled for the letters a to z, trimming for ASCII white space.
- The 64-bit wrap of a step count: with spreads that rise by more than 92200 percentage points, or a stored step with more than sixteen digits, the integer part of the quotient can exceed the range; below that it cannot (`UpdatePrecision.StepsFitAWord`).
- Saturation of time differences beyond 292 years and wrap-around of the 64-bit buffer versions.
- Signals are values, not shared objects: a snapshot is the value itself. The two legacy exchange fields of a signal are not carried.
- Absent collaborators of the router and the tracker (no user manager, no revalidator, no configuration); the aggregator's absent funding manager, user manager and volume engine are modelled.
- A database save that completes after its timeout was reported, other than at the moment of the failure.
- Persistence.BufferedPersistenceWorker.Flush: the flush as one piece, with nobody writing; each save may fail on its own; writers in between are in PersistenceProtocol.
- Shutdown.ShutdownStoresOnlyClosedSignals: conditional on what a caller can see of the run: no time-out of the flush or of the final save, commit times that never go back per symbol, and no commit of a route while another sender still holds an event of it. The wait of sixty seconds for the worker is not modelled, nor are the connectors that are stopped in between.
- Pipeline.TrackerMirrorsAggregator: assumes that events of one route arrive in commit order, because the janitor sends after it releases the lock and the channel does not restore the order.
- RouterProtocol.NothingFollowsClose: a message counts as sent when the transport call returns; retries inside the transport are not visible.
- RouterDelivery.QuietMeansTold: what the second look at a job decides is left open in the interleavings, because users, prices and volumes change meanwhile; `Notifications.NotificationRouter.Rejudge` is the look itself.
- RouterDelivery.StepKeepsOnItsWay: a pending job that is replaced by a newer one of the same key is gone with its chats; the promise is about the newest.
- Config.FeesSurviveRestart: decimals are printed with the scale they carry; texts in scientific notation are read but never printed.
- MexcProto.ReadVarint: groups of seven bits are joined by addition, which equals the bitwise or because they do not overlap.
- Ingress.Coalescer.Flush: as one piece the reader takes a fixed number of ticks; readers and producers in between are in IngressProtocol.
- The registry that maps channels to coalescers and `Forget`.
- Dispatch.SymbolOrderKept: the order is that of the symbol as received; spellings that the aggregator normalizes to one symbol may take different queues.
