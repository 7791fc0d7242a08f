# Verification of the agent's traffic pipeline and pod controller

These Dafny modules model the parts of the agent that carry state from one event to the next, and
prove what holds of them for every input, every run or every interleaving.

Captured bytes become parsed messages (`TcpFlow`, `TcpFlowCauses`), messages pass request filters, a shared rate
limiter and a sampler (`Pipeline`, `RateLimit`, `RateLimitRuns`, `RateLimitCollectors`), TCP packets become
connection summaries (`TcpConns`), requests are paired with responses and flushed (`PairCache`,
`FlushRace`), redacted (`Redaction`, `PathTemplates`), counted (`Stats`) and uploaded in batches
(`ReportBuffers`). `StripReader` is the reader in front of the JSON parser, `Luhn` the check of card
numbers. `PodState` is the life of one monitored pod, on which event handlers, the health worker,
shutdown and process exit race. `Traffic` holds the packets that several modules share.

Most modules have three layers: pure step functions on the state; lemmas about them over whole runs;
and a class with the source's fields whose methods, with the source's loops and branches, are proved to
make exactly those steps. Concurrent parts (`PodState`, `FlushRace`, `ReportBuffers`) are transition
systems in which each locked section, map operation and channel operation is one atomic step, and
any thread may go next.

`dafny verify dfyconfig.toml` checks everything.

## Findings

- Rate limiter: the configured weight is not checked. The estimate is safe exactly when
  alpha * (2 * epoch - 2) < epoch (in nanoseconds), which every weight up to 1/2 satisfies, including the
  default 0.3. For any other weight in (0, 1] `RateLimit.UndampedRunPanics` builds the run that makes the
  random draw panic.
- TCP flows: the comment at pcap/stream.go:65-70 says that bytes left unused while no parser is selected
  are flushed when the flow closes. Bytes kept after a finished parse (pcap/stream.go:194-196) are not
  copied to that buffer, so they are in no emitted piece if the flow closes without a delivery marked as
  the end. `TcpFlow.UnmarkedFlowCoveredIff` is the exact condition and `TcpFlow.KeptByteIsLost` the input.
- Pairing: a request with an empty method loses its path and host if it arrives before its response and
  keeps them otherwise; `PairCache.OrderIndependentIff` is the exact condition.
- Repeated messages: a second request under the key of a cached request is merged like a response. Its data
  is lost and the report shows source and destination exchanged; `PairCache.RepeatedMessage`.
- Redaction: the regular expressions that the back end calls field-name expressions are applied to values
  as well as to names (data_masks/user_redaction_config.go:45, data_masks/redactor.go:243); the model
  follows the code.

## Assumptions

- Rate limiter: integer nanoseconds on an idealised clock. Ticks fall at multiples of the epoch, a timer
  fires exactly at its deadline, and both come before a request with the same time stamp. The average is
  computed over the reals and truncated.
- Parser selector and parsers (library code): the contracts in `TcpFlow.Contract`. Reject discards everything offered,
  NeedMoreData is not answered at the end, an error reports all bytes fed so far, a finished parse
  consumes at least one byte and its unused part is a suffix of the latest input, and at the end a parser
  finishes or fails.
- Regular expressions are predicates on strings, lower-casing, witness-ID and sampling hashes are functions.
- The wrapped reader of `StripReader` may deliver any number of bytes up to the number asked for, with or
  without an error.

## Model

| member | source | states |
|---|---|---|
| `RateLimit.WitnessBudget` | trace/rate_limit.go:300-307 | The budget of an epoch is the rate times the epoch length, truncated to whole witnesses, and at least one. |
| `RateLimit.EstimateBelowEpoch` | trace/rate_limit.go:83-148 | In every timed run with a weight of at most 1/2 the estimated sample interval stays in [0, epoch), so the upper bound given to the random draw is positive and an armed timer fires before the next tick. |
| `RateLimit.IntervalLength` | trace/rate_limit.go:83-85 | An interval can outlive the epoch that started it, but then lasts less than two epochs minus the estimate; one that ends in its own epoch lasts less than an epoch. |
| `RateLimit.AverageStaysBelow` | trace/rate_limit.go:89-97 | One averaging step keeps the estimate in [0, epoch) for every interval up to the longest possible one. |
| `RateLimit.UndampedRunPanics` | trace/rate_limit.go:145-146 | When alpha * (2 * epoch - 2) >= epoch there is a run after which the random draw gets an upper bound of zero or less, on which it panics. |
| `RateLimit.NeverPanicsIffDamped` | trace/rate_limit.go:127-148 | No run ever offers the draw an empty range if and only if alpha * (2 * epoch - 2) < epoch; alpha may be any weight in (0, 1]. |
| `RateLimit.RequestsWithinBudget` | trace/rate_limit.go:63-73 | While an interval is active its count is in [0, WitnessesPerEpoch); requests admitted over all child collectors are at most WitnessesPerEpoch per interval start, at most n times it in the first n epochs, and at most twice it in any one epoch. |
| `RateLimit.FirstEstimateIsLength` | trace/rate_limit.go:89-91 | The first interval that ends sets the estimate to its own length. |
| `RateLimit.NextEstimateMovesToLength` | trace/rate_limit.go:92-97 | Each later one moves the estimate toward its own length and never past it: of the distance the fraction 1 - alpha remains, rounded down to a nanosecond, so an interval as long as the estimate leaves it unchanged. |
| `RateLimit.EstimateWithinLengths` | trace/rate_limit.go:83-98 | In every run the estimate lies between the shortest and the longest interval that has ended, and there is one exactly if some interval has. |
| `RateLimit.RepeatedLengthConverges` | trace/rate_limit.go:92-97 | In every run, while intervals keep ending with one length, the distance of the estimate to it shrinks by the factor 1 - alpha each time, up to less than 1 / alpha nanoseconds of rounding. |
| `RateLimit.ActiveIffBudgetLeft` | trace/rate_limit.go:165-177 | In every run an interval is active exactly if the timer has fired and fewer requests than the budget came since, and its count is the number of these. |
| `RateLimit.AdmittedIsGranted` | trace/rate_limit.go:165-177 | Exactly the requests that come while budget is left are admitted. |
| `RateLimit.TicksAtMultiples` | trace/rate_limit.go:103-121 | The last tick was at a multiple of the epoch. |
| `RateLimitRuns.HandedOnIsAdmitted` | trace/rate_limit.go:239-255 | In every run of the limiter with any number of child collectors, the requests that these have handed on are as many as the limiter admitted. |
| `RateLimitRuns.RequestsThroughWithinBudget` | trace/rate_limit.go:63-73 | So all collectors together hand on at most one budget of requests per interval start, n budgets in the first n epochs, and two budgets since the last tick. |
| `RateLimitRuns.HandsOnIff` | trace/rate_limit.go:239-268 | In every run a collector hands on a request, or content other than HTTP, exactly if the timer has fired and fewer requests than the budget came since, to any collector; a response exactly if its request was handed on and still waits; no other collector changes. |
| `RateLimitRuns.ExpiryFromTick` | trace/rate_limit.go:150-161 | In every run a request is forgotten only by a threshold that is the start of some epoch minus the maximum duration. |
| `RateLimitCollectors.SharedRateLimit.constructor` | trace/rate_limit.go:299-317 | A new limiter shows the start of a run: no estimate, no active interval, timer due at once, no children. |
| `RateLimitCollectors.SharedRateLimit.StartInterval` | trace/rate_limit.go:63-73 | Moves the limiter along the Fire event of a run. |
| `RateLimitCollectors.SharedRateLimit.EndInterval` | trace/rate_limit.go:83-98 | Ends the interval: the first one sets the estimate to its length, each later one moves the estimate toward its length by the weight; timer and children stay. |
| `RateLimitCollectors.SharedRateLimit.StartNewEpoch` | trace/rate_limit.go:127-162 | Moves the limiter along the Tick event; every child whose one-slot channel was empty receives the expiry threshold, a full channel keeps the older one, and no child changes otherwise. |
| `RateLimitCollectors.SharedRateLimit.AllowHTTPRequest` | trace/rate_limit.go:165-177 | Admits exactly while the interval is active, counts the request, and ends the interval on the last one of the budget. |
| `RateLimitCollectors.SharedRateLimit.AllowOther` | trace/rate_limit.go:185-189 | Other packets pass exactly while the interval is active and are not counted. |
| `RateLimitCollectors.SharedRateLimit.NewCollector` | trace/rate_limit.go:214-226 | A fresh child with an empty map joins the end of the list. |
| `RateLimitCollectors.SharedRateLimit.OnCollectorClose` | trace/rate_limit.go:228-237 | Removes the first occurrence of the closed child and keeps the order of the others. |
| `RateLimitCollectors.RateLimitCollector.Process` | trace/rate_limit.go:239-279 | A request or other packet is handed on exactly if the interval is active, a response exactly if its key is in the map; what is remembered, expired and counted as rate limited is what the pure steps say. |
| `RateLimitCollectors.RateLimitCollector.ExpireRequests` | trace/rate_limit.go:288-297 | Exactly the requests observed before the threshold leave the map, in whatever order it is walked. |
| `RateLimitCollectors.RateLimitCollector.Close` | trace/rate_limit.go:281-285 | A closed collector leaves the list of children, so it gets no further thresholds; nothing else of the limiter changes. |
| `Pipeline.RequestFilter.Process` | trace/filters.go:108-130 | A rejected request is dropped and its witness ID remembered; a response is dropped exactly when its ID was remembered; everything else is forwarded. |
| `Pipeline.StackStepIsFused` | trace/filters.go:108-130 | On one packet a stack of filters decides and remembers what one filter with the conjunction of the predicates and the union of the ID sets does. |
| `Pipeline.StackIsFused` | trace/filters.go:108-130 | On every traffic sequence a stack of k filters forwards exactly what the one conjunction filter forwards, including which responses are suppressed, and its ID set is the union of the layers' sets. |
| `Pipeline.StackForwardsPassing` | trace/filters.go:108-130 | On every traffic sequence a stack of filters forwards exactly the requests that all of them keep, the responses before which no request with their witness ID was rejected, and everything else. |
| `Pipeline.KeepUnlessPathMatches` | trace/filters.go:14-28 | Keeps a request exactly if it has no URL or no matcher accepts its path. |
| `Pipeline.KeepIfPathMatches` | trace/filters.go:47-61 | Keeps a request exactly if it has a URL and some matcher accepts its path. |
| `Pipeline.MapHoldsWaiting` | trace/rate_limit.go:239-296 | After any traffic the map of arrival times holds a key exactly if an admitted request with that key has since been neither answered, superseded nor expired, with that request's observation time. |
| `Pipeline.ResponseForwardedIffWaiting` | trace/rate_limit.go:256-263 | A response passes the rate limiter if and only if its admitted request still waits. |
| `Pipeline.HandsOnIffAdmitted` | trace/rate_limit.go:239-268 | Over every input sequence the limiter's collector hands on a request or other packet exactly if the limiter admits it, and a response exactly if its request waits. |
| `Pipeline.OwedStep` | trace/collector.go:57-83 | One packet through filters, limiter and sampler keeps the balance: for a sampled key, forwarded responses plus a waiting request are at most the forwarded requests; a key that is sampled out leaves no trace. |
| `Pipeline.NoOrphanResponses` | apidump/apidump.go:933-951 | In the composed pipeline every response that reaches the back end follows a request with the same key that also reached it, and per key responses never outnumber requests at any prefix. |
| `Pipeline.ReachesBackEndIff` | apidump/apidump.go:933-951 | After any traffic a packet reaches the back end exactly if all filters pass it, the limiter admits it or its request waits, and the hash of its key is below the sampling threshold. |
| `TcpFlow.Reassembled` | pcap/stream.go:96-203 | Handling a delivery terminates, also through the tail recursion at the end of the stream, and keeps no more than was delivered. |
| `TcpFlow.ReassembledTiles` | pcap/stream.go:96-203 | One delivery only moves bytes: emitted pieces, then the bytes the live parser holds, then the kept bytes are the same stretch of the stream before and after; at the end mark no parser is left and nothing is kept. |
| `TcpFlow.KeptIsSuffix` | pcap/stream.go:113-119 | What is kept for the next delivery is a suffix of this one, so an offset names it. |
| `TcpFlow.ReassembledFaithful` | pcap/stream.go:154-184 | Every dropped count is the size of the stretch it stands for, and every parsed content is what a parser returned for exactly its stretch followed by the unused bytes. |
| `TcpFlow.RunTiles` | pcap/stream.go:96-203 | For every sequence of deliveries the emitted pieces, the parser's bytes and the kept bytes tile the delivered stream in order, with no gap and no overlap. |
| `TcpFlow.RunFaithful` | pcap/stream.go:96-203 | In every run dropped counts have the size of their stretch and parsed contents come from a parser fed with theirs. |
| `TcpFlow.OriginDoesNotMatter` | pcap/stream.go:128-144 | Offsets with a usable context may be counted from the start of the delivery, as the source does, or of the stream. |
| `TcpFlowCauses.RunCaused` | pcap/stream.go:104-203 | In every run each piece has a cause at the stream offset where it begins: a front that the selector discarded, an input accepted without a usable context or not supported, everything fed to a parser that failed, or what a parser finished with that the selector accepted for exactly these bytes; a parser is fed the stream in order and needed more before its last input. Bytes left by a finished parse at the end mark are therefore the next input of the selector. |
| `TcpFlowCauses.ClosedFlowCaused` | pcap/stream.go:206-228 | The same for closed flows whose pieces cover the stream: closing acts as a last empty delivery with the end mark, and otherwise only bytes for which the selector asked for more are dropped. |
| `TcpFlow.CompleteCoversIff` | pcap/stream.go:206-228 | Closing the flow accounts for every byte if and only if a parser is live or the undecided buffer equals the kept bytes. |
| `TcpFlow.EndMarkedFlowIsCovered` | pcap/stream.go:185-228 | When the last delivery is marked as the end, the emitted pieces alone cover the whole stream. |
| `TcpFlow.UnmarkedFlowCoveredIff` | pcap/stream.go:194-196 | Without an end mark the pieces cover the stream if and only if nothing is kept or the kept bytes are in the undecided buffer. |
| `TcpFlow.KeptByteIsLost` | pcap/stream.go:194-227 | A concrete flow of two bytes whose second byte is kept after a finished parse and is in no emitted piece. |
| `TcpFlow.TcpFlow.SelectParser` | pcap/stream.go:104-152 | The object follows each branch of the selector's decision: keep, reject, accept with or without a usable context, unsupported. |
| `TcpFlow.TcpFlow.ParseStep` | pcap/stream.go:154-202 | Error, finished and unfinished parse have the effect of the pure step. |
| `TcpFlow.TcpFlow.Handle` | pcap/stream.go:104-202 | Selecting, parsing and starting over at the end mark together are the pure handling of the delivery. |
| `TcpFlow.TcpFlow.ReassembledWithIgnore` | pcap/stream.go:96-203 | The offset given to KeepFrom is in range and marks exactly the bytes that the pure handling keeps. |
| `TcpFlow.TcpFlow.ReassemblyComplete` | pcap/stream.go:206-228 | Gives up a live parser or flushes the undecided buffer, as the pure step does. |
| `PodState.PodArgs.ChangePodTrafficMonitorState` | cmd/internal/kube/daemonset/pod_args.go:96-119 | The change is refused in a final state, from a state that is not allowed, and to the current state; otherwise it is made. |
| `PodState.PodArgs.MarkAsPruneReady` | cmd/internal/kube/daemonset/pod_args.go:134-147 | Only Ended and Failed become RemovePodFromMap; every other state is left and reported as an error. |
| `PodState.StepInv` | cmd/internal/kube/daemonset/kube_events_worker.go:122-200 | Each atomic step of an event handler, the health worker, the shutdown or a process keeps the invariant. |
| `PodState.FirstStateInv` | cmd/internal/kube/daemonset/daemonset.go:321-335 | The first state is set in a step of its own after the object is in the map; the invariant survives whatever another thread did to the object in between. |
| `PodState.StartInv` | cmd/internal/kube/daemonset/apidump_process.go:19-34 | Claiming the running state and starting the goroutine keep the invariant: a process is claimed at most once. |
| `PodState.ProcessInv` | cmd/internal/kube/daemonset/apidump_process.go:34-60 | The deferred exit transition keeps the invariant: it is never refused. |
| `PodState.PruneInv` | cmd/internal/kube/daemonset/pods_healthcheck_worker.go:150-170 | Each step of the pruner keeps the invariant, with any number of handlers in between. |
| `PodState.OneProcessPerPodArgs` | cmd/internal/kube/daemonset/apidump_process.go:19-60 | Under every interleaving at most one process is ever started for one PodArgs object; until it has exited the state is one from which its exit transition is allowed, and that transition has never been refused. |
| `PodState.ChannelClosedAfterExit` | cmd/internal/kube/daemonset/pods_healthcheck_worker.go:163-167 | Each stop channel is closed at most once, only in the removal state, and only after the object's process was started and has exited. |
| `PodState.FinalStatesGuarded` | cmd/internal/kube/daemonset/pod_args.go:122-147 | Ended and Failed are entered only by the process's own exit, RemovePodFromMap is entered only by the pruner and from those two, and nothing leaves it. |
| `PodState.AddedOncePerUid` | cmd/internal/kube/daemonset/daemonset.go:321-335 | Adding a pod changes nothing if its UID is in the map; otherwise its object is stored and, undisturbed, gets its first state. |
| `PodState.AddedPodIsMonitored` | cmd/internal/kube/daemonset/daemonset.go:400-409 | From a reachable state the creator of an untouched object that is in the map, by its own steps, ends with a live process and the running state. |
| `PodState.PendingPodIsMonitored` | cmd/internal/kube/daemonset/kube_events_worker.go:160-200 | For a pending pod the event that it runs, undisturbed and with a complete environment, ends with a live process. |
| `PodState.UnmonitoredPodIsStarted` | cmd/internal/kube/daemonset/pods_healthcheck_worker.go:131-145 | The health check, undisturbed, starts a process for a running pod without one. |
| `PodState.StopRequestTakesEffect` | cmd/internal/kube/daemonset/pods_healthcheck_worker.go:102-120 | A stop request with an empty list changes every object that is neither final nor in the requested state already; one that asks for a running process changes exactly those; only a change is followed by the signal. |
| `PodState.ExitIsRecorded` | cmd/internal/kube/daemonset/apidump_process.go:40-55 | A leaving process ends in Failed if it failed and in Ended if it did not. |
| `PodState.ExitedPodIsPruned` | cmd/internal/kube/daemonset/pods_healthcheck_worker.go:147-170 | Two undisturbed visits of the pruner mark an exited object, then close its channel and take it out of the map. |
| `PairCache.PairedReport` | trace/backend_collector.go:92-128 | For a request with a method and the response to it, both orders of arrival report the request's arguments, method, path and host, the response's data, the latency between them, and the client as source. |
| `PairCache.OrderIndependentIff` | learn/learn.go:8-29 | Pairing does not depend on the order of arrival if and only if the request has a method or carries no metadata at all. |
| `PairCache.FirstArrivalShows` | trace/backend_collector.go:249-293 | The observation time and the interface of a pair are those of whichever message came first. |
| `PairCache.LatencyIsElapsedTime` | trace/backend_collector.go:119-119 | The latency is the time between the two packets in whole microseconds, cut off toward zero, in milliseconds. |
| `PairCache.CachedUntilTouched` | trace/backend_collector.go:274-289 | In every run a message that finds no entry stays cached, as it came, until a step on its key. |
| `PairCache.FirstIsCached` | trace/backend_collector.go:274-289 | A message that finds no entry is only cached. |
| `PairCache.PairIsReportedOnce` | trace/backend_collector.go:249-273 | In every run, when a request and its response arrive in either order with no step on their key before or between, the second one adds exactly one upload or refused witness, with the arguments, response, method, latency, addresses, time and interface of the two messages. |
| `PairCache.FlushReports` | trace/backend_collector.go:416-434 | A flush uploads or refuses each entry older than the cutoff once, as it is in the cache, and no other. |
| `PairCache.UnpairedIsReportedAlone` | trace/backend_collector.go:416-434 | In every run a message whose counterpart has not come when its entry is flushed is reported with its own data, addresses and time only. |
| `PairCache.RepeatedMessage` | trace/backend_collector.go:249-273 | Two messages of one kind under one key: the report has the data of the first only and no latency, and a repeated request is reported with its addresses exchanged. |
| `PairCache.BackendCollector.MergeWitness` | learn/learn.go:8-29 | Branch by branch, the merged witness is the one the pairing laws speak about. |
| `PairCache.BackendCollector.Process` | trace/backend_collector.go:249-294 | A message either completes the cached pair with its key, which leaves the cache for upload, or is cached. |
| `PairCache.BackendCollector.QueueUpload` | trace/backend_collector.go:348-380 | A witness is uploaded exactly if the plugins accept it. |
| `PairCache.BackendCollector.FlushPairCache` | trace/backend_collector.go:416-434 | In whatever order the cache is walked, exactly the entries older than the cutoff are queued and removed. |
| `PairCache.RunAccounts` | trace/backend_collector.go:249-434 | Over every sequence of Process calls and flushes each message is in exactly one upload, one refused witness or one cache entry. |
| `PairCache.ClosedRunUploadsAll` | trace/backend_collector.go:382-388 | If plugins succeed and all observation times precede Close, every message ends in exactly one upload and the cache is empty. |
| `FlushRace.StepInv` | trace/backend_collector.go:348-428 | Each step of Process or of a flush (map operation, lock, check, upload, mark, delete, unlock) keeps the invariant of the flushed flag. |
| `FlushRace.UploadedAtMostOnce` | trace/backend_collector.go:348-355 | Under every interleaving of Process calls and flushes no cached witness is uploaded twice, and no two threads are in queueUpload for the same witness. |
| `FlushRace.DoneOnceQueued` | trace/backend_collector.go:348-380 | A thread that leaves queueUpload leaves the witness uploaded or refused exactly once, by itself or an earlier thread. |
| `Stats.TrackedSum` | trace/stats.go:267-275 | Each tracked key holds the exact sum, in every numeric field, of all updates ever made to it. |
| `Stats.OverflowSums` | trace/stats.go:267-275 | The overflow holds exactly the sum over all keys that are not tracked. |
| `Stats.TracksUpToLimit` | trace/stats.go:267-275 | The tracked keys never exceed the limit, and below the limit every key is tracked. |
| `Stats.RefinesUnbounded` | trace/stats.go:236-275 | The bounded counter refines an unbounded one. |
| `Stats.TrackedKeysFreeze` | trace/stats.go:329-331 | Once the limit is reached the set of tracked keys never changes again. |
| `Stats.PortsConserve` | trace/stats.go:95-131 | In every numeric field the total is the sum of all packets and the port entries with their overflow are twice that. |
| `Stats.InterfacesConserve` | trace/stats.go:119-128 | The interface entries with their overflow are the sum of all packets. |
| `Stats.HostsConserve` | trace/stats.go:69-93 | The host entries with their overflow hold each packet once for each host it names. |
| `Stats.PortEntry` | trace/stats.go:95-117 | A tracked port holds exactly what was counted from it and to it. |
| `Stats.InterfaceEntry` | trace/stats.go:119-128 | A tracked interface holds exactly what was counted on it. |
| `Stats.HostEntry` | trace/stats.go:69-93 | A tracked host holds exactly what was counted from it and to it, and packets without a host are under no name. |
| `Stats.WindowsTileTotal` | trace/stats.go:213-216 | The observation windows of all summaries and the current one together are the total: no packet is missed or counted twice. |
| `Stats.BoundedPacketCounter.AddOrInsert` | trace/stats.go:267-275 | The three cases of an update, on the counter's own state. |
| `Stats.BoundedPacketCounter.TopN` | trace/stats.go:303-327 | Returns the entries of rank below n under (projection descending, key ascending): exactly min(n, size) of them, unchanged, each preceding every omitted one; and the overflow exactly if the limit is reached. |
| `Stats.TopIsUnique` | trace/stats.go:298-300 | The result of TopN does not depend on the order in which the map is iterated. |
| `Stats.PositionIsRank` | trace/stats.go:311-319 | In the sorted list the position of a key is the number of entries that precede it. |
| `Stats.SortKeys` | trace/stats.go:306-319 | Every key is in the list once, in strict order. |
| `Stats.PacketCounter.Update` | trace/stats.go:65-132 | One update reaches total, window, both ports, the interface and each named host. |
| `Stats.PacketCounter.Summary` | trace/stats.go:190-229 | Reports the totals, the window and the top entries by their projections, and starts a new window. |
| `TcpConns.AugmentSummarises` | tcp_conn_tracker/tcp_conn_tracker.go:203-242 | Updating the information for a packet gives the summary of all packets with that one: first and last time, end state, and initiator. |
| `TcpConns.SummaryIsUnique` | tcp_conn_tracker/tcp_conn_tracker.go:188-200 | The packets of a connection determine its report completely. |
| `TcpConns.SummaryIgnoresOrder` | tcp_conn_tracker/tcp_conn_tracker.go:203-242 | First and last times and the end state (Open below Closed below Reset) do not depend on the order of the packets after the first. |
| `TcpConns.RunRefines` | tcp_conn_tracker/tcp_conn_tracker.go:46-160 | In every run the collector refines one that remembers all packets: each active connection and each report is the summary of the packets of that lifetime, in the same order of reports. |
| `TcpConns.ReportsBalanceAdds` | tcp_conn_tracker/tcp_conn_tracker.go:61-160 | For every ID, reports plus one if the connection is active equal the number of times it was added. |
| `TcpConns.ClosedMeansEmpty` | tcp_conn_tracker/tcp_conn_tracker.go:102-132 | The collector is closed exactly if Close was called, and then no connection is active. |
| `TcpConns.ClosedReportsAll` | tcp_conn_tracker/tcp_conn_tracker.go:102-132 | After Close every connection was reported exactly as often as it was added. |
| `TcpConns.ForwardsExactly` | tcp_conn_tracker/tcp_conn_tracker.go:46-86 | In every run exactly these go on to the next collector, in order: other content and the packets of known connections; never the packet that opens one, an ignored one, or a TCP packet after Close. |
| `TcpConns.OpensUnlessIgnored` | tcp_conn_tracker/tcp_conn_tracker.go:61-83 | A packet of an unknown connection opens it exactly if it is neither a reset nor a bare acknowledgement without payload. |
| `TcpConns.Collector.Process` | tcp_conn_tracker/tcp_conn_tracker.go:46-86 | Closed, unknown with ignored packet, unknown with added packet, and known: each has its effect, and only the last and other content are forwarded. |
| `TcpConns.Collector.FlushConnection` | tcp_conn_tracker/tcp_conn_tracker.go:137-159 | Reports and removes an active connection, and says whether there was one. |
| `TcpConns.Collector.Close` | tcp_conn_tracker/tcp_conn_tracker.go:102-132 | Reports every active connection once, in the order in which the map happens to be walked, and empties the map. |
| `ReportBuffers.BuffersConserved` | trace/report_buffer.go:42-65 | In every interleaving each of the N buffers is exactly one of active, free or in flight, and returning a buffer never has to wait for room in the channel. |
| `ReportBuffers.WaitingFlushProgresses` | trace/report_buffer.go:125-161 | A Flush that waits has a free buffer to take or a buffer in flight; every upload goroutine can take its next step, and each such step lessens the work left before a buffer comes back. |
| `ReportBuffers.BatchesTile` | trace/report_buffer.go:67-81 | The batches between flushes, in order, are all reports added, in order. |
| `ReportBuffers.HoldsStep` | trace/report_buffer.go:125-161 | Each step keeps the contents right: the active buffer holds the current batch, a buffer before its upload holds its own batch whole, a returned buffer is empty. |
| `ReportBuffers.EveryBatchUploadedOnce` | trace/report_buffer.go:125-161 | No batch is uploaded twice, each upload is one batch whole, and once no upload is pending every report added before the last flush is in exactly one upload. |
| `ReportBuffers.ReportBuffer.constructor` | trace/report_buffer.go:42-65 | N empty buffers, the first active and the others in the channel in order. |
| `ReportBuffers.ReportBuffer.Append` | trace/report_buffer.go:67-81 | The reports go to the end of the active buffer. |
| `ReportBuffers.ReportBuffer.StartFlush` | trace/report_buffer.go:125-134 | An empty buffer is not flushed; otherwise it goes in flight and Flush waits. |
| `ReportBuffers.ReportBuffer.EndFlush` | trace/report_buffer.go:158-158 | Flush takes the buffer that has been in the channel longest. |
| `ReportBuffers.ReportBuffer.UploadReports` | trace/report_buffer.go:134-152 | The goroutine uploads what its own buffer holds. |
| `ReportBuffers.ReportBuffer.ClearBuffer` | trace/report_buffer.go:154-155 | The goroutine empties its own buffer and no other. |
| `ReportBuffers.ReportBuffer.ReturnBuffer` | trace/report_buffer.go:156-157 | The buffer goes to the end of the channel. |
| `Redaction.RedactAt` | data_masks/redactor.go:189-220 | For every path: a primitive is redacted if its own string is sensitive or some datum on the path has a sensitive field name, and is unchanged otherwise. |
| `Redaction.RedactAllAt` | data_masks/redactor.go:270-283 | Below credentials and sensitive names every primitive is redacted, whatever its type. |
| `Redaction.HiddenIffBelow` | data_masks/redactor.go:206-217 | A datum is hidden exactly if the innermost field name of it or of some datum above it is sensitive, where elements and variants have no name. |
| `Redaction.ArgumentAt` | data_masks/redactor.go:189-220 | For every path in an argument: the primitive becomes the redaction string below authorization and cookies, if a default or user pattern matches its string, or below a field whose lower-case name is listed or whose name a user pattern matches; otherwise it is unchanged. |
| `Redaction.RedactShape` | data_masks/redactor.go:189-220 | The skeleton of structs, lists, optionals and variants, their labels and the headers never change. |
| `Redaction.NonInterference` | data_masks/redactor.go:189-220 | Two trees redact to the same tree if and only if they differ at most in values that are to be hidden. |
| `Redaction.RedactIsClean` | data_masks/redactor.go:247-255 | Every string that survives is not sensitive, or is the redaction string. |
| `Redaction.UnchangedIffClean` | data_masks/redactor.go:189-220 | Redaction leaves a tree alone if and only if nothing in it is to be redacted. |
| `Redaction.RedactTwice` | data_masks/redactor.go:189-220 | Redacting twice is redacting once. |
| `Redaction.MethodNonInterference` | data_masks/redactor.go:132-140 | Two whole methods redact to the same method if and only if they differ at most in auth and cookie data, values under sensitive names, and sensitive strings and path segments. |
| `Redaction.RedactMethodTwice` | data_masks/redactor.go:132-140 | Redacting a whole method twice is redacting it once. |
| `Redaction.RedactedPathUnique` | data_masks/redactor.go:222-234 | The redacted path is determined by the path: same number of segments, sensitive ones replaced, the others in place. |
| `Redaction.RedactPathTwice` | data_masks/redactor.go:222-234 | Redacting a path twice is redacting it once. |
| `Redaction.PathNonInterference` | data_masks/redactor.go:222-234 | Two paths redact to the same path if and only if they differ at most in masked segments. |
| `Redaction.ZeroNonInterference` | data_masks/redactor.go:307-328 | Zeroing gives the same tree if and only if shapes, value types and trace context headers agree. |
| `Redaction.ZeroAt` | data_masks/redactor.go:295-328 | For every path: a primitive is kept in a traceparent or tracestate header, dropped if it has no value, and otherwise becomes the zero of its type. |
| `Redaction.UserRedactionConfig.RedactStringRegex` | data_masks/user_redaction_config.go:48-57 | True exactly if some pattern of the user matches. |
| `Redaction.UserRedactionConfig.RedactFieldsNamed` | data_masks/user_redaction_config.go:40-46 | True exactly if the lower-case name is listed or some pattern of the user matches the name. |
| `Redaction.Redactor.RedactFieldsNamed` | data_masks/redactor.go:156-168 | True exactly if the name is sensitive by default or by the user's configuration. |
| `Redaction.Redactor.IsSensitiveString` | data_masks/redactor.go:237-244 | True exactly if a default pattern or a pattern of the user matches. |
| `Redaction.Redactor.RedactPathTemplate` | data_masks/redactor.go:222-234 | Splitting, replacing in a loop and joining gives the path with exactly its sensitive segments replaced. |
| `PathTemplates.JoinSplit` | data_masks/redactor.go:223-232 | Joining the segments of a path gives the path back, and no segment has a slash. |
| `PathTemplates.SplitJoin` | data_masks/redactor.go:223-232 | Splitting joined segments without slashes gives the segments back. |
| `StripReader.StripControlCharactersReader.Copy` | learn/json_preprocessor.go:40-64 | What is written from one chunk, and the flag afterwards, are those of the pure pass over the chunk; the rest of the buffer is untouched. |
| `StripReader.StripControlCharactersReader.Read` | learn/json_preprocessor.go:32-73 | For every behaviour of the wrapped reader the output is the pure pass over the bytes consumed, the rest of the buffer is untouched, and a buffer that is not filled means an error or a short read. |
| `StripReader.CallsStripWhole` | learn/json_preprocessor.go:24-73 | The outputs of any number of calls with any buffer sizes, together, are one pure pass over the whole input. |
| `StripReader.ChunksDoNotMatter` | learn/json_preprocessor.go:24-73 | Two ways to read the same input give the same output. |
| `StripReader.NoControlCharacters` | learn/json_preprocessor.go:17-18 | No output byte is 0x1f or less. |
| `StripReader.Idempotent` | learn/json_preprocessor.go:24-73 | Stripping the output again changes neither bytes nor flag. |
| `StripReader.EscapesAgree` | learn/json_preprocessor.go:20-22 | The escape automaton of section 7 of RFC 8259 ends in the same state on the output as the reader's flag does on the input. |
| `StripReader.ByteBecomes` | learn/json_preprocessor.go:41-60 | Each control character becomes a backslash if the output so far ends inside an escape and nothing otherwise; every other byte is copied. |
| `StripReader.StripIsRemovalIff` | learn/json_preprocessor.go:43-53 | The output is the input without its control characters if and only if none of them comes inside an escape. |
| `Luhn.ValidLuhn` | learn/luhn.go:9-37 | The loop accepts exactly the strings of at least 13 ASCII digits whose sum in the sense of Annex B of ISO/IEC 7812-1 is divisible by 10. |
| `Luhn.DoubledIsDigitSum` | learn/luhn.go:24-30 | Subtracting 9 from a double above 9 is adding its decimal digits. |
| `Luhn.DetectsSingleChange` | learn/luhn.go:9-37 | A valid number with one character changed to any other is not valid. |
| `Luhn.DetectsTransposition` | learn/luhn.go:9-37 | A valid number with two neighbours swapped is valid if and only if they are equal or are 0 and 9. |
| `Luhn.OneCheckDigit` | learn/luhn.go:9-37 | Every payload of at least 12 digits has exactly one check digit. |

## Left out

- Luhn.ValidLuhn: takes the string as characters; a byte that is not ASCII is rejected either way.
- Pipeline.NoOrphanResponses: needs the rate limiter in the pipeline, which is optional in the source. Without it a
  response whose request came before the capture started passes.
- Pipeline.KeepUnlessPathMatches, with Pipeline.KeepIfPathMatches: the two host filters are the same loops
  over the host, and the tracker filter is one library call; only the path filters are modelled.
- RateLimitCollectors.SharedRateLimit.StartNewEpoch: the select loop that calls it and the goroutine it runs in are the event
  order of `RateLimit.Run`.
- TcpFlowCauses.ClosedFlowCaused: for a flow that closes with bytes that are lost, or a selector with decisions the
  library does not document, only the pieces emitted before closing have their causes (TcpFlowCauses.RunCaused).
- TcpFlow.KeptByteIsLost: the example fixes a library; the general statement is TcpFlow.UnmarkedFlowCoveredIff.
- TcpFlow.TcpFlow.HandleUnparseable: time stamps of emitted pieces, and the conversion that orders and labels them (toPNT), are not
  modelled.
- PodState.OneProcessPerPodArgs: handlers are any number of threads, more than the source runs; reads of the
  state without the lock are atomic; the wait group and what the process does are not modelled.
- PodState.AddedPodIsMonitored: with PodState.PendingPodIsMonitored and PodState.UnmonitoredPodIsStarted, progress is stated for
  a handler that no other thread disturbs; another thread may stop or remove the pod first.
- PodState.ChannelClosedAfterExit: sends on the stop channel are steps without effect. Whether a send finds
  the two-slot buffer full or the channel closed is not modelled.
- PairCache.ClosedRunUploadsAll: each flush is one step here. No such claim is made for flushes that
  interleave with Process, where a flush can delete a newer entry with the same key.
- PairCache.BackendCollector.Process: witnesses are values, so aliasing between a cached and an uploaded
  witness is not captured; FlushRace models their identity. HTTP parsing gives its result as input, and the
  latency is a real number instead of a 32-bit float. Messages that are not HTTP go to other reports.
- PairCache.BackendCollector.QueueUpload: the plugins together are one predicate on the witness; they do not
  change it. Obfuscation and redaction before the upload are the subject of `Redaction`.
- ReportBuffers.ReportBuffer.Append: obfuscating and dropping oversized witnesses, and the size in bytes that
  makes a buffer full, decide what is added and when Flush is called; both are arbitrary here. The buffers are values
  under buffer numbers instead of objects in the heap.
- ReportBuffers.ReportBuffer.constructor: zero buffers, with which the source waits forever, are excluded.
- Redaction.RedactAt: trees are values rewritten by functions, where the source overwrites them in place, so
  aliasing and the order of overwriting are not captured. The traversal and the field path are library code; a
  top-level datum brings the name under which it is visited.
- Redaction.ZeroNonInterference: the zero of each value type is taken to be the empty string or the number 0; zeroing also
  redacts the path template with the same code as above.
- Redaction.UserRedactionConfig.RedactFieldsNamed: fetching and comparing new configurations in the background, under a
  lock, is not modelled.
- TcpConns.Collector.Process: errors of the next collector are not modelled; a timeout may fire at any time,
  which is more than the timers of the source allow. IP addresses are equal when they denote the same address.
- Stats.BoundedPacketCounter.AddOrInsert: the labels of the counts (interface, hosts and ports) are not modelled.
- Stats.SortKeys: the library sort is modelled as insertion sort.
- StripReader.Wrapped.Read: the input is finite, so that reading ends.
- Packet capture, TCP reassembly, TLS tracking, HTTP bodies, the network namespace, REST clients, telemetry and
  logging, command-line flags, and the Kubernetes and container-runtime calls, whose answers are arbitrary inputs here.
