# EventEdge, verified

EventEdge is an asynchronous HTTP reverse proxy: it caches safe `GET` responses, collapses simultaneous misses into one
upstream fetch, rotates over healthy upstreams, probes them in the background and counts what it does. This project
models that behaviour in Dafny and proves what holds in every run.

## How it is organised

The parts that one thread works on at a time are classes whose methods are proved against functions on values; the
protocol between sessions is a transition system built from those same functions.

| file | what it holds |
|---|---|
| `Http`, `HopByHop` | messages and field names, and the hop-by-hop filter with its tokenising loop |
| `StoragePolicy`, `CacheControl` | the decision to store, against what the upstream sent and against the directives it gave |
| `Endpoints` | `host:port` printing and parsing, ports, metrics labels |
| `RecencyList`, `CacheTraces`, `LruLaws` | the cache as a plain list, whole traces of lookups and stores, and laws over all traces |
| `ResponseCaching` | the cache as built: list nodes, a map, stored positions; it refines `RecencyList` |
| `UpstreamPools`, `PoolFairness` | the rotation as built, and its fairness while health flags change |
| `Coalescing`, `Metrics`, `Proxying`, `HealthMonitoring` | the table of flights, the counters, one upstream fetch, and the probes |
| `FlightProtocol` | the coalescing protocol on its own: leaders, waiters, posted deliveries |
| `Session` | the request path: one step per critical section, counter update or handler, interleaved in every way |
| `SessionInvariants`, `FlightRefinement`, `SessionSteps` | the invariant and its preservation; each step is a step of `FlightProtocol` or none |
| `Conservation`, `Quiescence` | counter laws exact at every step; a measure that every piece of work lowers |
| `RequestViews` | what a request carries with it: the flight it joined and the fetch made for it |
| `SessionTheorems` | what every reachable state and every run guarantees |
| `LateFlights` | how many flights can start for a key that the cache holds |
| `OperationTimes` | the cache's history in the order of the clock |
| `LateMissRun`, `SharedFetchRun`, `CachedAnswerRun` | the run in which a miss comes late, and the runs in which a waiter or a later request gets what was fetched for another |
| `Collections` | a fact about finite sets |

In `Session`, a state holds the shared objects (cache, table of flights, pool, counters, clock) and every session with its
place in the program, its current request and the queue of deliveries posted to its strand. It also keeps histories that no
step reads: every request with its answers and where they came from, every flight, every cache operation and every pool
operation, with the request or flight it was made for. Reads, writes, upstream operations, health changes and the clock are free choices of the environment.

## Where the code and its promises differ

- Storage is decided after hop-by-hop fields are removed, so a `Set-Cookie` or `Cache-Control` field that the upstream's
  own `Connection` field lists does not prevent storing. `StoragePolicy.FilterAndDecision` gives the exact condition.
- Only the first `Cache-Control` field is read, and it is searched for the marks as lower-case substrings, not read as
  directives. `CacheControl.DecisionAgainstDirectives` gives the exact conditions under which a mark is missed or misread.
- An upstream argument such as `[[a]:8` is accepted, and its printed form is not accepted again. `Endpoints.ParseThenPrint`
  gives the exact condition.
- One fetch per key and time to live is not guaranteed, because lookup and join are separate critical sections.
  `LateMissRun.LateMissHappens` gives the run, `SessionTheorems.LateMiss` exactly when it happens, and
  `LateFlights.LateFlightsBounded` how often.
- Entries are found by target alone, so a response that names request fields in `Vary` is also served to requests that differ
  in them. `CachedAnswerRun.VaryIsIgnored` gives the run; `SessionTheorems.LiveEntryIsHit` says exactly when a lookup hits.
- A flight's result is shared with its waiters whether or not it may be stored. `SharedFetchRun.SharedFetchHappens` gives
  the run, `SessionTheorems.SharedWhetherStorable` the exact condition.

## Model

| member | source | states |
|---|---|---|
| `SessionTheorems.RunInv` | src/http_session.cpp:40-138 | every legal run, in any interleaving, keeps the protocol invariant and all counter laws |
| `SessionTheorems.RequestInOnePlace` | src/http_session.cpp:40-138 | in every reachable state a request is held by exactly one session and unanswered, or answered exactly once and held by none |
| `SessionTheorems.WaiterInOnePlace` | src/request_coalescer.cpp:7-32 | a waiting request is in one flight's list once, among those its leader still has to call once, or in its own strand's queue once, and in only one of these |
| `SessionTheorems.KeyHasLeader` | src/request_coalescer.cpp:7-15 | every key in flight has a session leading it, under the flight now registered |
| `SessionTheorems.LeaderHasKey` | src/request_coalescer.cpp:7-15 | every leading session has its own target in flight, as its own flight |
| `SessionTheorems.OneLeaderPerKey` | src/request_coalescer.cpp:7-27 | two sessions that lead flights for one key are the same session |
| `SessionTheorems.OneFetchPerKey` | src/http_session.cpp:83-112 | at most one coalesced upstream fetch per key is under way |
| `SessionTheorems.CompletionRemovesOwnFlight` | src/http_session.cpp:130-138 | the flight a leader completes is its own, never a later one, and exactly its waiters are taken |
| `SessionTheorems.FlightAgreement` | src/http_session.cpp:83-138 | any two requests that joined one flight, as leader or waiter, are both answered from that flight with the status, fields and body of its result, each with its own request's version and keep-alive; whoever opened the flight is one of them |
| `SessionTheorems.AnswerExplained` | src/http_session.cpp:51-128 | every answer is what its source says: a local route's response, the cache's answer to this request's own lookup, the result of the flight it joined, its own fetch's outcome, or a 503 when nothing could be selected; it comes from a flight exactly if the request joined that flight |
| `SessionTheorems.SharedWhetherStorable` | src/http_session.cpp:130-138 | a request that joined a flight gets the status, fields and body fetched for the opener's request; they are storable, and were stored, if and only if the four phases went well and the upstream's answer is a 200 whose Set-Cookie field and storage mark, if any, are listed by its Connection field |
| `SharedFetchRun.SharedFetchHappens` | src/http_session.cpp:83-138 | for every configuration, two cacheable requests for one target and any upstream response there is a run in which the second is answered with the status, body and end-to-end fields fetched for the first, storable or not |
| `RequestViews.ViewsStep` | src/http_session.cpp:83-138 | each step keeps every request in the flight it joined from its join to its answer, and every selection with the fetch of the request that made it |
| `RequestViews.DeliverCarries` | src/http_session.cpp:84-88 | a delivery that runs comes from the flight its session joined, also when a later flight for the key is under way |
| `SessionTheorems.LocalAnswers` | src/http_session.cpp:54-69 | the local routes answer a GET with 200, with the content type and text of the health or metrics page, and any other method with 405 and an Allow field |
| `SessionTheorems.ResultExplained` | src/http_session.cpp:95-110 | a flight's result is the outcome of the fetch made for its leader's own request, or a 503 when no upstream could be selected |
| `SessionTheorems.FlightWentToHealthy` | src/http_session.cpp:95-110 | a flight's fetch goes to an upstream marked healthy when it was selected; a flight refused without a fetch found all upstreams unhealthy |
| `SessionTheorems.BypassWentToHealthy` | src/http_session.cpp:114-127 | the same for requests that bypass the cache, which are answered in no other way |
| `SessionTheorems.StoredBeforeRelease` | src/http_session.cpp:130-138 | when the first waiter of a flight is released, its result has been stored exactly once under its key if it was fetched and may be stored, and never otherwise |
| `SessionTheorems.AnswersFit` | src/http_session.cpp:167-171 | every answer's version is its own request's version, and its keep-alive its own request's keep-alive |
| `Http.FitMeans` | src/http_session.cpp:167-171 | fitting sets version and keep-alive and leaves status, fields and body |
| `SessionTheorems.FetchAsksTheSame` | src/upstream_proxy.cpp:77-90 | every fetch under way asks its upstream with the method, target and body of its session's own request |
| `SessionTheorems.FetchBrings` | src/http_session.cpp:104-110 | what a fetch came to is the upstream's answer, field by field, if all four phases went well, and a gateway error otherwise |
| `SessionTheorems.Routing` | src/http_session.cpp:54-77 | a request goes to the cache if and only if it is a GET, has no field called Authorization in any letter case and is for neither local target; to a local response if and only if it is for one of them; and upstream past cache and coalescer otherwise |
| `SessionTheorems.CacheProvenance` | src/http_session.cpp:130-152 | every cached entry is what the upstream answered to a GET of exactly that target, asked on behalf of a client without credentials: its status, its body and its end-to-end fields; it is a 200 without cookies or storage marks, stored last for its key and `ttl` before its expiry |
| `SessionTheorems.HitIsFresh` | src/http_session.cpp:71-77 | every hit serves the latest store of its key, younger than the time to live |
| `SessionTheorems.CachedAnswer` | src/http_session.cpp:71-76 | every answer from the cache was stored before its lookup, less than the time to live earlier, by a flight that another request for the same target opened; it has the status, body and end-to-end fields of the upstream's answer to that request, and its own request's version and keep-alive |
| `OperationTimes.HistoryIsTimed` | src/response_cache.cpp:14-44 | in every reachable state the cache's operations are in the order of their times, and none is later than now |
| `OperationTimes.CachedAnswerIsYoung` | src/http_session.cpp:71-76 | so every answer from the cache was stored at most at, and less than the time to live before, the moment of its lookup |
| `OperationTimes.StoredEntryExpires` | src/http_session.cpp:130-133 | a store makes an entry for its target that expires the time to live after the moment it is made |
| `CachedAnswerRun.CachedForAnother` | src/http_session.cpp:71-76 | for every positive time to live, two cacheable requests for one target and a storable response there is a run in which the second is answered from the cache with the status, body and end-to-end fields fetched for the first |
| `CachedAnswerRun.VaryIsIgnored` | src/http_session.cpp:71-76 | also when the response names in Vary a field in which the two differ (section 4.1 of RFC 9111) |
| `CachedAnswerRun.VaryCase` | src/http_session.cpp:140-152 | two requests and a storable response of that kind |
| `SessionTheorems.LiveEntryIsHit` | src/http_session.cpp:72-76 | a request is answered from the cache if and only if it is a GET without credentials for neither local target and the cache holds an unexpired entry for its target |
| `SessionTheorems.BypassTouchesNothing` | src/http_session.cpp:114-143 | no step of a request that is not a GET or carries credentials touches the cache or the table of flights |
| `SessionTheorems.LateMiss` | src/http_session.cpp:71-93 | for a session about to join, the cache holds its key if and only if the key was stored after this session's lookup and nothing has removed it since, and holds it unexpired if and only if that store is also younger than the time to live; the store is of a flight that another request opened |
| `LateFlights.LateFlightsBounded` | src/http_session.cpp:71-93 | in every run throughout which the cache holds a key, at most as many flights start for it as there were sessions that had missed it and not joined at the start |
| `LateFlights.StepTrades` | src/http_session.cpp:71-93 | while the key is held, no step raises the number of its flights plus the number of such sessions |
| `LateMissRun.LateMissHappens` | src/http_session.cpp:71-112 | for every configuration, cacheable request and storable response there is a run in which a second flight for the key is about to start beside an entry with its whole time to live ahead of it, unexpired if and only if that is positive |
| `SessionTheorems.GaugeCountsProxies` | src/metrics.cpp:27-28 | the in-flight gauge is the number of sessions holding a live proxy, so it never underflows |
| `SessionTheorems.CountersLag` | src/http_session.cpp:51-127 | in every reachable state no counter has run ahead of what it counts |
| `SessionTheorems.AtRest` | src/http_session.cpp:51-156 | when every session is between requests: no flights, gauge zero, every request answered once, and every counter equal to what the histories say |
| `SessionTheorems.WorkIsBounded` | src/http_session.cpp:40-186 | in every run the work done is bounded by what was left to do and the requests read |
| `SessionTheorems.ComesToRest` | src/http_session.cpp:40-186 | from every reachable state, work alone leads to rest, within the measure |
| `SessionTheorems.HealthyIsServed` | include/eventedge/upstream_config.hpp:32-42 | in any stretch of a run with as many selections as upstreams, one that stays healthy is fetched from, for a request that made its selection in that stretch |
| `SessionTheorems.SelectionIsUsed` | src/http_session.cpp:95-127 | no selection is wasted: the request that made it fetches, or has fetched, from the upstream selected |
| `SessionTheorems.BalancedCounters` | src/metrics.cpp:30 | at rest, selection counters of distinct upstreams never marked unhealthy agree to within one |
| `SessionSteps.StepKeeps` | src/http_session.cpp:40-186 | each step of any session keeps what every session, flight, request and cache operation is known to satisfy |
| `FlightRefinement.FlightsStep` | src/request_coalescer.cpp:7-32 | each step of the session protocol is the named, enabled step of the flight protocol, or leaves its state as it is |
| `FlightProtocol.StepKeeps` | src/request_coalescer.cpp:7-32 | every enabled step of the flight protocol keeps its invariant |
| `FlightProtocol.LeadKeeps` | src/request_coalescer.cpp:7-15 | starting a flight keeps the flight invariant |
| `FlightProtocol.FollowKeeps` | src/request_coalescer.cpp:7-15 | joining a flight keeps the flight invariant |
| `FlightProtocol.CloseKeeps` | src/request_coalescer.cpp:17-27 | taking out a flight's waiters keeps the flight invariant, also while earlier deliveries are pending |
| `FlightProtocol.PostKeeps` | src/request_coalescer.cpp:29-31 | calling one waiter keeps the flight invariant |
| `FlightProtocol.TakeKeeps` | src/http_session.cpp:84-88 | running a posted delivery keeps the flight invariant |
| `FlightProtocol.WaiterHasLeader` | src/request_coalescer.cpp:17-32 | a waiter to which nothing was posted has a leader still at work on its own flight |
| `Conservation.LawsStep` | src/http_session.cpp:51-127 | each step keeps every counter law exactly, up to what sessions are about to count |
| `Conservation.RouteLawKept` | src/http_session.cpp:54-77 | each request is counted under its own route, told by its target, its method and whether it has an Authorization field: health, metrics, cache or bypass |
| `Conservation.LookupLawKept` | src/http_session.cpp:73-77 | hits and misses are counted as the cache answered |
| `Conservation.CoalescingLawKept` | src/http_session.cpp:77-93 | misses are leaders plus waiters, and leaders are flights |
| `Conservation.FetchLawKept` | src/http_session.cpp:95-102 | proxied requests are the sum of the selections, and are the selections the pool made |
| `Conservation.UpstreamLawKept` | src/http_session.cpp:100-102 | each selection counter is its own upstream's share of the pool's choices, when endpoints differ |
| `Conservation.StatusLawKept` | src/http_session.cpp:154-156 | gateway counters count the answers written with their status, and durations count all answers |
| `Quiescence.MeasureMoves` | src/http_session.cpp:40-186 | every piece of work strictly lowers the measure, a new request raises it by a constant, nothing else moves it |
| `Quiescence.Progress` | src/http_session.cpp:83-138 | in every state that is not at rest some piece of work can be done |
| `ResponseCaching.ResponseCache.constructor` | src/response_cache.cpp:8-12 | a new cache is empty and coherent |
| `ResponseCaching.MakeCache` | src/response_cache.cpp:8-12 | a capacity of zero is refused, and nothing else is |
| `ResponseCaching.ResponseCache.Get` | src/response_cache.cpp:14-27 | list, map and stored positions stay coherent, and answer and contents are those of the recency list |
| `ResponseCaching.ResponseCache.Put` | src/response_cache.cpp:29-44 | the same for a store, with eviction of the least recent entry only when a new key finds the cache full |
| `ResponseCaching.ResponseCache.Size` | src/response_cache.cpp:46-49 | the size is the list's, and never exceeds the capacity |
| `ResponseCaching.UnlinkView` | include/eventedge/response_cache.hpp:28-37 | erasing through a stored position removes exactly that key |
| `RecencyList.LookupAfterPut` | src/response_cache.cpp:29-44 | what any key finds after a store: the new entry under its own key, the old one under any other still present |
| `RecencyList.LookupAfterGet` | src/response_cache.cpp:14-27 | what any key finds after a lookup |
| `CacheTraces.EntryIsLastStore` | src/response_cache.cpp:14-44 | on every trace an entry is its key's latest store, with that store's expiry |
| `CacheTraces.HitIsFreshLastStore` | src/response_cache.cpp:14-27 | on every trace a hit returns its key's latest store before its time to live has run out |
| `CacheTraces.StoreFollowsMiss` | src/response_cache.cpp:14-44 | a key that missed and is present later was stored after the miss |
| `LruLaws.Inclusion` | src/response_cache.cpp:14-44 | on every trace a smaller cache's list is a subsequence of a larger one's, short by at most the extra room |
| `LruLaws.HitsAreIncluded` | src/response_cache.cpp:14-44 | every hit of the smaller cache is the same hit of the larger |
| `LruLaws.Survival` | src/response_cache.cpp:14-44 | a key just used stays, with its entry, while fewer than `capacity` distinct other keys are used and it has not expired |
| `LruLaws.SurvivorIsHit` | src/response_cache.cpp:14-44 | so a lookup of it before its expiry is a hit on that entry, in every trace |
| `LruLaws.SurvivalExact` | src/response_cache.cpp:14-44 | where nothing expires it stays if and only if fewer than `capacity` other keys are used |
| `LruLaws.PresentExactly` | src/response_cache.cpp:14-44 | on every trace a key is present if and only if it was stored and no operation since its last store looked it up too late or evicted it |
| `Coalescing.FirstLeadsOthersWait` | src/request_coalescer.cpp:7-32 | in every run a key is in flight exactly if someone joined it since it last completed; the first leads and the others wait in order |
| `Coalescing.RequestCoalescer.JoinOrStart` | src/request_coalescer.cpp:7-15 | a new key makes a leader and an empty flight, a known key a waiter at the end of its flight |
| `Coalescing.RequestCoalescer.Complete` | src/request_coalescer.cpp:17-32 | the key goes, and each of its waiters is called once, in the order they joined, with the response; nobody is called for an absent key |
| `Coalescing.RequestCoalescer.WaiterCount` | src/request_coalescer.cpp:39-43 | the number of callbacks a completion would make |
| `UpstreamPools.ChoiceIsNearest` | include/eventedge/upstream_config.hpp:32-42 | selection takes the healthy upstream nearest after the start of the rotation, and fails exactly when none is healthy |
| `UpstreamPools.SelectMovesStart` | include/eventedge/upstream_config.hpp:32-42 | a selection moves the start just behind its choice, and one that fails leaves the pool as it is |
| `UpstreamPools.UpstreamPool.Select` | include/eventedge/upstream_config.hpp:32-42 | the loop makes that choice and the rotation moves behind it |
| `UpstreamPools.UpstreamPool.SetHealthy` | include/eventedge/upstream_config.hpp:58-66 | one flag is set, and the result says whether it changed; an index out of range changes nothing |
| `UpstreamPools.UpstreamPool.IsHealthy` | include/eventedge/upstream_config.hpp:53-56 | the flag, or an error for an index out of range |
| `UpstreamPools.MakePool` | include/eventedge/upstream_config.hpp:21-30 | an empty list of endpoints is refused; otherwise all start healthy, in order |
| `PoolFairness.ChosenWithinPoolSize` | include/eventedge/upstream_config.hpp:32-42 | whatever happens to other flags, an upstream that stays healthy is selected within as many selections as there are upstreams |
| `PoolFairness.HealthyHasOp` | include/eventedge/upstream_config.hpp:32-42 | after any run, a run with as many selections as upstreams has an operation that selects one that stays healthy |
| `PoolFairness.NoOvertaking` | include/eventedge/upstream_config.hpp:32-66 | and at least once between any two selections of any other |
| `PoolFairness.EqualShares` | include/eventedge/upstream_config.hpp:32-66 | two upstreams that stay healthy are selected equally often to within one, in every run |
| `PoolFairness.RoundIsExact` | include/eventedge/upstream_config.hpp:32-42 | with fixed health, a round as long as the healthy set selects each healthy upstream exactly once and no other |
| `Proxying.DriveMeetsOutcome` | src/upstream_proxy.cpp:92-173 | for every sequence of phase outcomes the fetch is done exactly when the outcome told by the first failure is settled, with that response, and until then exactly one operation is pending |
| `Proxying.StatusTellsFirstFailure` | src/upstream_proxy.cpp:134-159 | 504 exactly when the first failing phase timed out, 502 for any other first failure, otherwise the status, body and end-to-end fields the upstream sent, with the client's version and keep-alive |
| `Proxying.ForwardedHeader` | src/upstream_proxy.cpp:77-83 | the forwarded header as the filter leaves it, with the upstream's Host and a closing Connection at its end |
| `Proxying.ForwardedFields` | src/upstream_proxy.cpp:77-83 | it is exactly the client's surviving fields other than Host, in order and unchanged, then the upstream's Host and a closing Connection |
| `Proxying.ForwardedRequest` | src/upstream_proxy.cpp:77-83 | what is sent has the client's method, target and body, version 1.1 and no keep-alive |
| `Proxying.ReturnedRelays` | src/upstream_proxy.cpp:134-146 | what is passed on has the status, body and end-to-end fields of what was read |
| `Proxying.OutcomeRelays` | src/upstream_proxy.cpp:92-173 | a fetch brings what the upstream sent if all four phases went well, and a 502 or 504 otherwise |
| `Proxying.Fetch` | src/upstream_proxy.cpp:77-173 | whatever the phases report, the completion handler is called exactly once, with the outcome; without failure that is what the upstream sent |
| `Proxying.UpstreamProxy.OnResolve` | src/upstream_proxy.cpp:92-104 | one operation pending until completion, one completion after; the handler takes the specified step |
| `Proxying.UpstreamProxy.OnConnect` | src/upstream_proxy.cpp:106-119 | the same for the connect |
| `Proxying.UpstreamProxy.OnWrite` | src/upstream_proxy.cpp:121-132 | the same for the write |
| `Proxying.UpstreamProxy.OnRead` | src/upstream_proxy.cpp:134-147 | the same for the read, which passes on the status, body and end-to-end fields with the client's version and keep-alive |
| `Proxying.UpstreamProxy.Complete` | src/upstream_proxy.cpp:161-173 | only the first completion reaches the handler |
| `HopByHop.RemoveHopByHop` | src/upstream_proxy.cpp:15-51 | the in-place removal, token by token and name by name, keeps exactly the surviving fields, each once, in order and unchanged |
| `HopByHop.ScanTokens` | src/upstream_proxy.cpp:22-37 | the scanning loop yields exactly what stands in the value between commas or its ends once blanks are skipped |
| `HopByHop.TokensMeaning` | src/upstream_proxy.cpp:22-37 | the tokens are what the value lists, told on its characters |
| `HopByHop.PaddedToken` | src/upstream_proxy.cpp:28-32 | blanks around a token go and nothing else does |
| `HopByHop.SplitJoins` | src/upstream_proxy.cpp:22-37 | the pieces contain no comma and joined by commas give the value back |
| `HopByHop.CutIsTrim` | src/upstream_proxy.cpp:28-32 | cutting at the first and last non-blank characters is trimming |
| `HopByHop.FilterMeaning` | src/upstream_proxy.cpp:15-51 | a field survives exactly when its name is neither fixed nor stands in a Connection field between commas and blanks (section 7.6.1 of RFC 9110), and survivors keep order, value and multiplicity |
| `HopByHop.FixedNames` | src/upstream_proxy.cpp:43-50 | the fixed names are the eight of the source |
| `HopByHop.PassedOnIsUnique` | src/upstream_proxy.cpp:15-51 | only one list of fields meets that description |
| `HopByHop.FilterIdempotent` | src/upstream_proxy.cpp:15-51 | filtering twice is filtering once |
| `StoragePolicy.DecisionAfterFilter` | src/http_session.cpp:145-152 | the decision on the filtered response in terms of the one the upstream sent |
| `StoragePolicy.FilterAndDecision` | src/http_session.cpp:145-152 | filtering never blocks storing, and changes the decision exactly when the Connection field lists the field that forbade it |
| `StoragePolicy.FilterCanPermitStorage` | src/http_session.cpp:145-152 | a response for which the two decisions differ |
| `CacheControl.WordInToken` | src/http_session.cpp:149-151 | a value contains a word without commas or blanks if and only if one of its trimmed tokens does |
| `CacheControl.DecisionByDirective` | src/http_session.cpp:145-152 | the code's decision, directive by directive: a 200 without cookies none of whose first field's directives shows a mark |
| `CacheControl.DecisionAgainstDirectives` | src/http_session.cpp:145-152 | it stores against the directives (section 5.2 of RFC 9111) exactly when the first field shows no mark but forbids in other letter case or a later field forbids, and refuses without one exactly when a directive of the first field only contains a mark and no field forbids |
| `CacheControl.CapitalIsMissed` | src/http_session.cpp:149-151 | every spelling of `private` without its lower-case p is missed |
| `CacheControl.LaterIsMissed` | src/http_session.cpp:149-151 | `private` in a second field is missed behind any unmarked word |
| `CacheControl.LongerWordIsMisread` | src/http_session.cpp:149-151 | every longer word with a mark in it is misread |
| `CacheControl.CapitalCase` | src/http_session.cpp:149-151 | a response stored though it says `Private` |
| `CacheControl.LaterCase` | src/http_session.cpp:149-151 | a response stored though its second field says `private` |
| `CacheControl.LongerCase` | src/http_session.cpp:149-151 | a response refused for the word `privateer` |
| `Endpoints.PrintThenParse` | src/upstream_proxy.cpp:53-58 | parsing a printed endpoint gives it back if and only if the port is usable and the host printable |
| `Endpoints.ParseThenPrint` | src/main.cpp:44-69 | an accepted argument, parsed, printed and parsed again, gives the same endpoint if and only if it is not doubly bracketed |
| `Endpoints.DoublyBracketedIsAccepted` | src/main.cpp:44-69 | a doubly bracketed argument that is accepted |
| `Endpoints.PortAccepted` | src/main.cpp:22-29 | a port is accepted if and only if it is all digits with a value from 1 to 65535, and is that value |
| `Endpoints.AcceptedExactly` | src/main.cpp:44-69 | an argument is accepted as an endpoint if and only if it is its host in brackets, without a closing one, or its host without a colon and a leading bracket, then a colon and the port in digits |
| `Endpoints.EmptyHostExactly` | src/main.cpp:44-69 | an argument is refused for its host if and only if nothing stands before the colon in one of these shapes |
| `Endpoints.DecimalRoundTrip` | src/upstream_proxy.cpp:53-58 | printed decimals read back as the number and have no leading zero |
| `Endpoints.LabelInjective` | src/metrics.cpp:9 | distinct endpoints have distinct metrics labels |
| `Http.LowerCharMeans` | src/upstream_proxy.cpp:18-41 | names compare with the 26 capitals taken as small letters and nothing else changed |
| `Metrics.SelectionFindsItsEndpoint` | src/metrics.cpp:30 | a selection is counted under the first upstream with its endpoint, its own when endpoints differ |
| `Metrics.GaugeIsTrue` | src/metrics.cpp:27-28 | the 64-bit gauge shows the true count exactly while that is neither negative nor too large |
| `Metrics.MetricsRegistry.ProxyStarted` | src/metrics.cpp:27 | the gauge cell follows the true count up |
| `Metrics.MetricsRegistry.ProxyCompleted` | src/metrics.cpp:28 | and down, with wrap-around |
| `Metrics.MetricsRegistry.RecordHealthTransition` | src/metrics.cpp:26 | the transition cell follows the true count |
| `Metrics.MetricsRegistry.RecordResponseStatus` | src/metrics.cpp:29 | exactly the cell of a 502, 503 or 504 moves |
| `Metrics.MetricsRegistry.RecordUpstreamSelection` | src/metrics.cpp:30 | the search moves only the first cell with the label |
| `HealthMonitoring.CheckCompletesOnce` | src/upstream_health_monitor.cpp:37-90 | in every order of timeout, lookup and connect at most three handlers run and the completion handler is called once |
| `HealthMonitoring.ConnectFollowsLookup` | src/upstream_health_monitor.cpp:49-66 | in every legal sequence of events a connect ends only after a lookup that succeeded |
| `HealthMonitoring.FirstEventDecides` | src/upstream_health_monitor.cpp:37-90 | the first deciding event settles the verdict, healthy exactly if it is a successful connect |
| `HealthMonitoring.HealthCheck.Decide` | src/upstream_health_monitor.cpp:70-90 | the first decision stands, tells the pool about this check's own upstream once, and counts a transition exactly if the pool's flag changed |
| `HealthMonitoring.HealthCheck.OnTimer` | src/upstream_health_monitor.cpp:38-46 | the timeout decides against the upstream unless it was cancelled or came too late |
| `HealthMonitoring.HealthCheck.OnResolve` | src/upstream_health_monitor.cpp:49-66 | a failed lookup decides, a successful one starts the connect, a late one does nothing |
| `HealthMonitoring.HealthCheck.OnConnect` | src/upstream_health_monitor.cpp:60-65 | the connect decides by its result |
| `HealthMonitoring.UpstreamHealthMonitor.RunChecks` | src/upstream_health_monitor.cpp:141-151 | unless stopped, one new check per upstream, each for its own index |
| `HealthMonitoring.UpstreamHealthMonitor.ScheduleNextCheck` | src/upstream_health_monitor.cpp:128-139 | a new wait replaces the pending one, unless stopped |
| `HealthMonitoring.UpstreamHealthMonitor.StopMonitor` | src/upstream_health_monitor.cpp:121-126 | the pending wait is cancelled for good |
| `HealthMonitoring.UpstreamHealthMonitor.OnCheckComplete` | src/upstream_health_monitor.cpp:153-160 | the last check of a round schedules the next, unless stopped |
| `HealthMonitoring.MonitorSafety` | src/upstream_health_monitor.cpp:115-160 | in every run the remaining count is the undecided checks of the one current round, exactly one of round and scheduled wait is under way while running, and the flags are the latest verdicts |
| `HealthMonitoring.TransitionsCounted` | src/upstream_health_monitor.cpp:79-83 | in every run the transition counter is the number of steps that changed a flag |
| `HealthMonitoring.TransitionsTellParity` | src/upstream_health_monitor.cpp:79-83 | and it tells whether an even number of upstreams is marked unhealthy |
| `HealthMonitoring.RoundsDoNotOverlap` | src/upstream_health_monitor.cpp:141-160 | a round starts only when every earlier check is decided |
| `HealthMonitoring.NoRoundAfterStop` | src/upstream_health_monitor.cpp:121-151 | in every run no round starts after a stop |
| `HealthMonitoring.MonitorProgress` | src/upstream_health_monitor.cpp:128-160 | a running monitor always has a wait or a check pending |

## Left out

- Sockets, resolvers, strands, timers and threads as Boost implements them: they are free events; a posted delivery runs only after the session's current handler has returned.
- HTTP wire parsing and serialisation, payload preparation and body framing; whether a connection stays open after a write is a free choice.
- The interplay of keep-alive with the Connection field inside the message library: keep-alive is a field of its own.
- The session object: its handlers update fields in place, but sessions run concurrently, so it is modelled as a transition system on values, not as a class.
- Status and duration are recorded in one step of the session protocol; the source makes two counter updates there.
- The coalescer is assumed to outlive its sessions; the 503 answered when it does not is not modelled. Its total number of flights in progress is not modelled as an operation.
- A second start of the health monitor and stopping the whole I/O context during a run are excluded.
- The plain counters (requests, routes, hits, misses, leaders, waiters, proxied requests) are counted without bound; only the gauge, the status counters, the selection counters and the health transitions are modelled as 64-bit cells.
- Duration buckets, floating-point sums and the Prometheus text: the body of the metrics page is a free string.
- The accept loop, signals, worker count and argument handling around `parse_upstream`, and the connect, write and read time limits beyond the fact that a phase may time out.
- The constant bodies of the gateway and not-found responses are defined as in the source; no lemma is about them.
- Quoted strings in Cache-Control: the directives it is compared with are the pieces between commas, also inside quotes.
- The form of `private` with field names, which limits only those fields (section 5.2.2.7 of RFC 9111): it counts as forbidding storage.
- Fields that occur more than once in a request: in the lemmas on Vary only the first of a name is compared.
- Log output, Docker fixtures, scripts and benchmarks.
