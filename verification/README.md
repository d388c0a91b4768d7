# Verification of MyCache and MyRPC

A Dafny model of the two cores of this repository and of its service discovery,
with proofs about every run of them. `dafny verify dfyconfig.toml` checks all of it.

## What is modelled

**MyCache.** The LRU cache is a class over a doubly linked list of heap elements and
a key index (`LinkedList.dfy`, `Lru.dfy`), proved against a plain recency list
(`RecencyList.dfy`). On that list stand the theorems about the byte-weighted LRU
behind a read-through `Group.Get` (`ReadThrough.dfy`, `Group.dfy`): the cache is always
the longest prefix of the unbounded move-to-front list that fits the budget, which
gives a stack-distance criterion for hits and monotonicity in the budget. The
consistent-hash ring (`ConsistentHash.dfy`) is a sorted array searched by bisection,
proved to find the clockwise successor; every node's pool (`HttpPool.dfy`) and
a cluster of nodes use it, serving one request at a time (`Cluster.dfy`) or any number at
once (`ConcurrentCluster.dfy`, with `ClusterProgress.dfy` on whether they come to an end).
Concurrent use is a transition system:
`SingleFlight.dfy` for the deduplication alone (`SingleFlightGroup.dfy` is its code on
the mutable map and call records), `ConcurrentGroup.dfy` for any number of
`Get` calls on one node over the locked cache, with byte slices as addresses that user
code may share and overwrite.

**MyRPC.** One connection is a transition system (`Rpc.dfy`): any number of calls that
share a client, the receive loop, the server's read loop, and a handler and a method
goroutine per request. A step is a lock region, a channel rendezvous, or one frame
written to or read from the connection. A frame can get through, be lost (and all after
it), or fail; reading can fail at any time. The invariants are split into the client
(`RpcCalls.dfy`), the server (`RpcServer.dfy`), the two wires (`RpcWires.dfy`) and
the end-to-end statements (`RpcMatching.dfy`; `RpcOutcomes.dfy` on which error or reply a
call is left with; `RpcRuns.dfy`, `RpcFailures.dfy` and `RpcRefusals.dfy` on what callers of
good, failing and unknown methods are told, with runs for each). `Formatting.dfy` is what
`fmt.Errorf` makes of a text that is its format. `RpcClient.dfy` is the client's own code
on mutable objects and `RpcConnection.dfy` the server's; `RpcEffects.dfy` and
`RpcAnswers.dfy` prove that what their methods do is a sequence of the client's and the
server's steps in the transition system.

**Discovery.** The registry with lazy expiry (`Registry.dfy`), the comma-joined server
list (`ServerList.dfy`) and the round-robin and registry-backed discoveries
(`Discovery.dfy`).

A `Run` is a sequence of steps from the initial state, each possible in its turn; a
theorem with a hypothesis `Run(w, acts).Some?` holds in every reachable state.

### Readings of the source

- `maxBytes` 0 is no limit; a negative `maxBytes` would make the eviction loop of
  `Add` run forever, so `Add` asks for a non-negative one.
- The comment on `singleflight.Do` says that `fn` is called once per key however often
  `Do` is called. The code promises less: a `Do` that comes when the first is over calls
  `fn` again (`CalledTwice`). It is called once for a key if and only if no `Do` of
  the key starts after one that called it has returned. A waiter may join after `wg.Done`
  and before `delete`.
- The cache probe of `Group.Get` is outside singleflight, so a `Get` that missed can load a
  key again that another one has cached meanwhile (`LoadedTwice`). At most one load per key
  is running, and a key is loaded once if and only if no such `Get` comes too late.
- A node that forwards a request waits for the answer inside singleflight. When the pools
  of some nodes name each other in a circle for a key, because their peer lists differ or
  peers collide, a request that is passed round comes back to the node it started from and
  waits there for itself: nothing but a lost answer ends that. Every request of the key can
  end if and only if there is no such circle.
- A method that fails with an empty error text produces a response header with an empty
  error, and the client takes the success branch with no reply. The theorem
  that success means holding the result is therefore an equivalence: it holds of a method
  and its arguments if and only if the method does not fail in this way. The placeholder
  body decodes into a struct reply, which the run of the counterexample uses; a reply of
  another kind turns it into a decoding error, which is the `Misfit` outcome.
- `receive` passes the error text of a response through `fmt.Errorf` as the format, with
  no operands (MyRPC/client.go:118). A method that fails with `100%` leaves its caller with
  `100%!(NOVERB)`. The caller holds the method's own text if and only if there is no percent
  sign in it. The scan of flags, width, precision, index and verb follows the documented
  behaviour of the fmt package. The refusal of an unknown method repeats the name that was
  asked for and takes the same way.
- A request for an unknown method is answered without reading its body. The next header
  the server tries to decode is that body, so this request is the last one it decodes.
- `terminateCalls` leaves its entries in `pend`. That it takes `send` first is what keeps
  the error path of a `Send` from finding and completing one of them again.
- `aliveServers` reads the clock once per address. The clock does not go back, but may
  advance during one query.
- A discovery that was never refreshed has the zero time as its date. It is modelled as
  always stale, which it is for every timeout that fits a `time.Duration`.
- Two peers that collide on a ring point make the ring depend on the order in which they
  were given. Agreement of the nodes is proved for peer lists without such collisions, and
  order independence is shown to hold exactly then. The replica number stands directly in
  front of the name, so two peers of which one is the other with a digit more in front, as
  `1.2.3.4:80` and `11.2.3.4:80`, collide under every hash function.

### Assumptions

Method results are a function of method name and arguments; the source of a cache group
is a function of the key; peers answer truthfully or not at all. A getter's slice is not
written by user code between the getter's return and the clone a few statements later.
Done channels are private to their call and buffered, as `Call` and `Go(nil)` make them.
Call numbers do not wrap. Frames are typed: decoding a body as a header always fails, which
gob would not do for the body of an empty struct. Where no handle timeout is configured,
that a draining server closes rests on every method returning.

## Model

| member | source | states |
|---|---|---|
| `LinkedList.List.MoveToFront` | MyCache/lru/lru.go:35-38 | Relinking one element moves it to the front of the listed elements and of the entries they hold; no other element moves |
| `LinkedList.List.PushFront` | MyCache/lru/lru.go:65 | A fresh element is linked in front of the others |
| `LinkedList.List.Refresh` | MyCache/lru/lru.go:60-63 | The element found for a key goes to the front and its entry is overwritten in place |
| `LinkedList.List.RemoveBack` | MyCache/lru/lru.go:46-48 | The last element is unlinked, the others keep their order |
| `Lru.Cache.Get` | MyCache/lru/lru.go:35-42 | A lookup returns the value listed for the key, if any, and moves that entry and no other to the front |
| `Lru.Cache.RemoverOldest` | MyCache/lru/lru.go:45-56 | The least recent entry leaves the list, the index, the byte count and reaches the callback; an empty cache is left alone |
| `Lru.Cache.Add` | MyCache/lru/lru.go:58-72 | The entry goes to the front, an older entry of the key goes away, and the old end is cut to the budget; the callback gets the cut entries once each, oldest first. If the entry alone fits, it is in front with the new value, and every other entry kept is as it was |
| `Lru.Cache.EvictOverBudget` | MyCache/lru/lru.go:69-71 | The eviction loop ends and leaves what fits, having handed the rest to the callback in order |
| `Lru.Cache.Len` | MyCache/lru/lru.go:75-77 | The number of entries, whose keys are distinct |
| `RecencyList.EvictKeepsLongestFit` | MyCache/lru/lru.go:69-71 | What eviction keeps is the longest prefix of the recency order whose bytes fit the budget, 0 meaning no limit |
| `RecencyList.EvictionCanStopIff` | MyCache/lru/lru.go:69-71 | The eviction loop has a state to stop in if and only if the budget is not negative |
| `RecencyList.BytesConserved` | MyCache/lru/lru.go:45-72 | Over any run, bytes brought in, with size changes of overwritten values, are the bytes present plus the bytes evicted |
| `RecencyList.PutHolds` | MyCache/lru/lru.go:58-72 | An insertion leaves its own entry in front, with the new value, exactly if that entry alone fits, and behind it other keys' entries as they were |
| `RecencyList.LookupIsLastAdded` | MyCache/lru/lru.go:35-72 | After any run of operations a lookup finds nothing or the value of the last insertion of the key |
| `RecencyList.AddReportsOldestFirst` | MyCache/lru/lru.go:45-56 | An insertion reports the entries it cuts off, each once, oldest first |
| `RecencyList.RunKeepsShape` | MyCache/lru/lru.go:35-72 | After any run of operations keys are distinct and the bytes fit the budget |
| `MyCache.SafeCache.Add` | MyCache/cache.go:14-21 | The lazily created LRU behaves as one that was there from the start |
| `MyCache.SafeCache.Get` | MyCache/cache.go:23-33 | A lookup before the first insertion misses; otherwise it is the LRU lookup |
| `MyCache.Group.Get` | MyCache/mycache.go:63-73 | Empty key, hit, answer of a peer, and local fallback: the list left behind and the answer |
| `MyCache.Group.Load` | MyCache/mycache.go:84-100 | An answer of the owning peer is passed on uncached; without one the local source is asked and its value cached |
| `MyCache.Group.GetLocally` | MyCache/mycache.go:116-128 | The source is asked and a value it has is put in the cache; a failure is returned and nothing cached |
| `MyCache.HitAsksNobody` | MyCache/mycache.go:67-70 | A hit asks neither peer nor source: the cached value is the answer, its entry goes to the front and the others keep their order |
| `MyCache.AnswerIsSource` | MyCache/mycache.go:63-128 | Whatever was asked before, of the node or of its peers, and at whatever budget, an answer is the source's: caching is never visible |
| `ReadThrough.CacheIsLongestFittingPrefix` | MyCache/mycache.go:63-128 | After any accesses the list is the unbounded move-to-front list cut to its longest prefix that fits the budget |
| `ReadThrough.RecencyOrder` | MyCache/mycache.go:63-128 | In the unbounded list a key lies behind exactly the loadable keys used since its own last use |
| `ReadThrough.StackDistance` | MyCache/mycache.go:63-128 | An access hits if and only if the total cost of the distinct loadable keys used since the key's last use, itself included, is within the budget |
| `ReadThrough.LargerBudgetHitsMore` | MyCache/mycache.go:63-128 | Of two budgets the smaller one's list is a prefix of the larger one's, so each of its hits is a hit there |
| `ConsistentHash.Map.Add` | MyCache/consistenthash/consistenthash.go:31-40 | The sorted key array and the point map become those of the ring with the nodes joined, later writers winning |
| `ConsistentHash.Map.Get` | MyCache/consistenthash/consistenthash.go:42-51 | Bisection with wrap-around finds the owner of the clockwise successor; an empty ring has none |
| `ConsistentHash.SearchFindsSuccessor` | MyCache/consistenthash/consistenthash.go:46-50 | The first sorted point at or behind the hash, or the first of all, is the clockwise successor over the set of points |
| `ConsistentHash.SuccessorUnique` | MyCache/consistenthash/consistenthash.go:46-50 | There is only one clockwise successor |
| `ConsistentHash.JoinMovesKeysOnlyToNewNodes` | MyCache/consistenthash/consistenthash.go:31-51 | After adding nodes each key has its old owner or one of the added nodes, hash collisions allowed |
| `ConsistentHash.RingOfNodes` | MyCache/consistenthash/consistenthash.go:31-40 | The ring has exactly the points of the added nodes, and each belongs to a node that hashes there |
| `ConsistentHash.SameNodesSameRing` | MyCache/consistenthash/consistenthash.go:31-40 | Without collisions between different nodes the ring depends only on the set of nodes |
| `ConsistentHash.OrderIrrelevantIffCollisionFree` | MyCache/consistenthash/consistenthash.go:31-40 | The order of the nodes is irrelevant to who owns the points if and only if no two different nodes collide |
| `ConsistentHash.ItoaReads` | MyCache/consistenthash/consistenthash.go:34 | The replica number is written in the fewest decimal digits |
| `ConsistentHash.ShareLabelIff` | MyCache/consistenthash/consistenthash.go:34 | Two names hash the same text for some replicas if and only if one is the other with one more digit in front |
| `ConsistentHash.SharedLabelCollides` | MyCache/consistenthash/consistenthash.go:34-36 | Such nodes collide under every hash function |
| `HttpPool.Pool.Set` | MyCache/http.go:114-128 | The ring is replaced by one over exactly the given peers, each with its client |
| `HttpPool.Pool.PickPeer` | MyCache/http.go:133-142 | The owner's client if another node owns the key, nothing otherwise |
| `Cluster.NodesAgreeOnOwner` | MyCache/http.go:114-142 | Nodes that were given the same peers in any order, without collisions, agree on the owner of every key, one of themselves |
| `Cluster.OwnerKnowsItself` | MyCache/http.go:133-142 | The owner's own pool names nobody; every other pool names the owner |
| `Cluster.OneHop` | MyCache/mycache.go:84-114 | A request visits the node asked and at most the owner, whatever is cached or lost on the way |
| `Cluster.ServeIsSource` | MyCache/mycache.go:63-114 | Wherever it is asked, whatever the rings say and the network loses, a request that is answered gets the source's value |
| `Cluster.ServeIsGet` | MyCache/mycache.go:63-128 | Where the rings agree, answer and caches are those of a `Get` at the node asked, which hears the owner's answer if that arrives, and of one at the owner if the request does |
| `Cluster.KeysAfter` | MyCache/mycache.go:84-128 | What a request adds to which caches |
| `Cluster.SingleOwnerIff` | MyCache/mycache.go:84-128 | A request keeps every key at its owner alone if and only if it is not one whose answer got lost on the way and whose fallback found room |
| `Cluster.RunKeepsSingleOwner` | MyCache/mycache.go:84-128 | Over any sequence of requests whose transport works, keys are cached only at their owners |
| `ConcurrentCluster.StepKeepsInv` | MyCache/mycache.go:63-128 | Every step of any number of requests at once, at any nodes and whatever their rings say, keeps waiting requests, answers and caches right |
| `ConcurrentCluster.StepKeepsOwners` | MyCache/mycache.go:84-128 | Where the rings agree, every step keeps forwarded requests and, unless something was lost, loads and cached keys at the owners |
| `ConcurrentCluster.ForwardedOnce` | MyCache/mycache.go:84-114 | Where the rings agree, in every interleaving a forwarded request sits at the owner and is never forwarded again |
| `ConcurrentCluster.EveryAnswerIsSource` | MyCache/mycache.go:63-128 | In every interleaving, with any losses and whatever the rings say, every answer and every cached value is the source's |
| `ConcurrentCluster.KeysStayAtOwners` | MyCache/mycache.go:84-128 | Where the rings agree, in every interleaving keys are cached at their owners alone unless a request or an answer was lost between two nodes |
| `ConcurrentCluster.CacheIsLru` | MyCache/cache.go:14-33 | In every interleaving each node's cache is the LRU cache after the lookups and insertions of its own requests, in their order |
| `ClusterProgress.AllEndIff` | MyCache/mycache.go:84-100 | Every request of a key can come to its end in every run, without a loss, if and only if no nodes' pools name each other in a circle for the key |
| `ClusterProgress.NoCircleAllEnd` | MyCache/mycache.go:84-100 | Without such a circle five further steps for each node are enough, in whatever state the run is |
| `ClusterProgress.CircleIsReached` | MyCache/singleflight/singleflight.go:25-28 | On such a circle one request is passed round, comes back to its first node and joins the load there that waits for it |
| `ClusterProgress.WaitsForever` | MyCache/singleflight/singleflight.go:25-28 | From then on none of its requests moves, whatever else happens, until an answer is lost |
| `ClusterProgress.AgreedAllEnd` | MyCache/http.go:133-142 | Rings that agree have no circle, and every request can end within ten steps |
| `ClusterProgress.EachOtherIsACircle` | MyCache/http.go:114-142 | Two nodes whose peer lists hold only each other are a circle for every key |
| `ClusterProgress.ServedIff` | MyCache/mycache.go:84-114 | One at a time: without a circle as many hops as nodes answer every request of a key, with one no number of hops does |
| `SingleFlight.StepKeepsInv` | MyCache/singleflight/singleflight.go:20-42 | Every lock region, `fn` return and wake-up keeps map and calls consistent |
| `SingleFlight.OneLoadPerKey` | MyCache/singleflight/singleflight.go:20-42 | In every reachable state at most one `fn` runs per key |
| `SingleFlight.ResultIsAnOverlappingLeaders` | MyCache/singleflight/singleflight.go:25-41 | Every `Do` returns the result of one leader for its key, whose `Do` overlaps its own |
| `SingleFlight.ResultIsTheFns` | MyCache/singleflight/singleflight.go:35-41 | What every `Do` returns is what the `fn` of its leader returned |
| `SingleFlight.NoEarlyReadNoForeignDelete` | MyCache/singleflight/singleflight.go:27-40 | No waiter reads a result before it is set, and a leader deletes only its own entry |
| `SingleFlight.StepKeepsApart` | MyCache/singleflight/singleflight.go:20-42 | Of two `Do` that call `fn` for a key, one had returned when the other started |
| `SingleFlight.CalledOnceIff` | MyCache/singleflight/singleflight.go:19-42 | In every run `fn` is called once for a key if and only if no `Do` of the key starts after one that called it has returned |
| `SingleFlight.CalledTwice` | MyCache/singleflight/singleflight.go:19-42 | A run in which it is called twice |
| `SingleFlightGroup.Group.Join` | MyCache/singleflight/singleflight.go:21-33 | The first lock region on the real map: the key's record is joined, or a new one is put there |
| `SingleFlightGroup.Group.Store` | MyCache/singleflight/singleflight.go:35 | The leader stores the result of `fn` in its record, not yet releasing the waiters |
| `SingleFlightGroup.Group.Forget` | MyCache/singleflight/singleflight.go:38-41 | The second lock region removes the key, and the leader returns what its record holds |
| `SingleFlightGroup.Group.Await` | MyCache/singleflight/singleflight.go:27-28 | A waiter released by its record returns what the record holds |
| `SingleFlightGroup.Group.Lead` | MyCache/singleflight/singleflight.go:20-42 | An uninterrupted `Do` returns the result of `fn` and leaves the map as it was |
| `ConcurrentGroup.StepKeepsInv` | MyCache/mycache.go:63-128 | Every step of any number of concurrent `Get` calls keeps caches, loads and results truthful |
| `ConcurrentGroup.EveryGetAgreesWithSource` | MyCache/mycache.go:63-128 | In every interleaving, with evictions and failing peers, a finished `Get` holds the source's value; it fails only for the empty key or a key the source lacks |
| `ConcurrentGroup.AnswersAreForever` | MyCache/byteview.go:13-21 | What a `Get` returned never changes, whoever writes to slices that a getter gave away or a caller was handed |
| `ConcurrentGroup.EveryEntryAgreesWithSource` | MyCache/cache.go:14-33 | Every cached entry is the source's value with its true size, out of reach of user code |
| `ConcurrentGroup.EmptyKeyFails` | MyCache/mycache.go:64-66 | A `Get` of the empty key fails at once and loads nothing |
| `ConcurrentGroup.CacheIsLru` | MyCache/cache.go:14-33 | In every interleaving the cache is the LRU cache after the lookups of the probes and the insertions of the loads, in their order |
| `ConcurrentGroup.OnlyTheGettersIsCached` | MyCache/mycache.go:86-95 | What is cached came from the node's own getter, never from a peer's answer |
| `ConcurrentGroup.OneLoadPerKey` | MyCache/mycache.go:84-95 | At most one load per key is under way, although the cache is probed outside singleflight |
| `ConcurrentGroup.LoadedOnceIff` | MyCache/mycache.go:67-95 | In every run a key is loaded once if and only if no `Get` that has missed enters `Do` after one that loaded it has left |
| `ConcurrentGroup.LoadedTwice` | MyCache/mycache.go:67-95 | A run in which a key is loaded again although it is cached |
| `Service.LastDot` | MyRPC/server.go:102 | The position of the last dot, or -1 |
| `Service.FoundIff` | MyRPC/server.go:101-120 | A name is found exactly when it is a registered service, a dot and one of its methods |
| `Service.RefusalSays` | MyRPC/server.go:101-120 | The three texts for a name that is not found: ill-formed, unknown service, unknown method, each with the name or its part |
| `RpcCalls.StepKeepsInv` | MyRPC/client.go:69-240 | Every step of callers, `Send`, the receive loop and `terminateCalls` keeps each call's one completion in exactly one place |
| `RpcCalls.RunInv` | MyRPC/client.go:69-240 | The same after every run |
| `RpcCalls.CompletedAtMostOnce` | MyRPC/client.go:29-31 | `done` fires at most once per call in every run |
| `RpcCalls.CompletedExactlyOnceAtTheEnd` | MyRPC/client.go:91-131 | Once the receive loop is over, every call whose `Send` returned was completed exactly once, or was cancelled while pending |
| `RpcCalls.OutcomeIsFinal` | MyRPC/client.go:29-31 | Once `done` has fired for a call its error and reply never change again, and it never fires again |
| `RpcOutcomes.ResponseDecides` | MyRPC/client.go:114-127 | In every run the call a response is about is completed once with the formatted error text, else the failure to read the body, else the reply in the body and no error; the loop goes on exactly if the body could be read |
| `RpcOutcomes.ReplyReaches` | MyRPC/client.go:121-126 | In every run a pending call whose response has no error and whose reply is read ends with that reply and no error |
| `RpcOutcomes.UnknownResponseIsSkipped` | MyRPC/client.go:114-116 | A response whose number is not pending changes no call |
| `RpcOutcomes.PendingCallsAreDisconnected` | MyRPC/client.go:91-102 | When the receive loop is over, each call left in `pend` has been completed once, with the error of the broken connection; no call holds that error before |
| `RpcOutcomes.WriteErrorIsOwn` | MyRPC/client.go:201-206 | A caller is told that its write failed only if a write of its own request failed |
| `RpcOutcomes.RefusedCallsHaveNoNumber` | MyRPC/client.go:69-75 | A completed call holds the error of a closed client if and only if it never got a number |
| `RpcOutcomes.ClosedRefuses` | MyRPC/client.go:51-75 | After closing or the end of the receive loop a registration is refused and changes nothing else |
| `RpcOutcomes.FailedHeaderEndsLoop` | MyRPC/client.go:107-110 | A header that cannot be read ends the receive loop |
| `RpcOutcomes.CancelledIsForgotten` | MyRPC/client.go:230-240 | A cancelled pending call is out of `pend` for good: a late response gives it no reply, no error and no completion |
| `RpcCalls.TerminationExcludesSend` | MyRPC/client.go:91-102 | From the moment `terminateCalls` has the send lock, no `Send` is between registering and returning |
| `RpcCalls.DoneNeverBlocks` | MyRPC/client.go:29-31 | At each of the four places that complete a call its channel has room, including under both locks |
| `RpcCalls.HolderProgresses` | MyRPC/client.go:91-102 | Whoever holds the send lock can always take its next step and gets closer to releasing it: no deadlock among locks and channels |
| `RpcCalls.OthersDoNotDelay` | MyRPC/client.go:185-208 | No step of anybody else moves the holder of the send lock back |
| `RpcCalls.NumbersIssuedOnce` | MyRPC/client.go:69-79 | Numbers go out once each from 1 upwards, pending keys lie below the next number, and 0 is never pending |
| `RpcCalls.CancelUnregisteredIsHarmless` | MyRPC/client.go:233-236 | Cancelling a call that was refused registration takes nothing out of `pend` |
| `RpcCalls.NumberIsInOnePlace` | MyRPC/client.go:69-131 | Before shutdown each issued number is in exactly one of: pending, with the receive loop, with the error path of `Send`, completed, given up by its caller |
| `RpcClient.ClientObject.Close` | MyRPC/client.go:51-59 | The first time it marks the client and passes on what closing the connection gives; again is refused |
| `RpcClient.ClientObject.GiveUp` | MyRPC/client.go:201-206 | The error path fails the call if it can take it back out of `pend`, and does nothing if a response already took it |
| `RpcClient.ClientObject.ReceiveOne` | MyRPC/client.go:108-127 | One turn of the receive loop: no call, an error text run through the formatter, a bad body, or a reply |
| `RpcClient.ClientObject.RegisterCall` | MyRPC/client.go:69-79 | A refusal after closing or shutdown; else the next number, the call under it in `pend`, and the counter advanced |
| `RpcClient.ClientObject.RemoveCall` | MyRPC/client.go:82-88 | The number leaves `pend` and its call, if any, is returned |
| `RpcClient.ClientObject.Prepare` | MyRPC/client.go:189-198 | The registration step of the transition system, with the shared header set for the call |
| `RpcClient.ClientObject.Send` | MyRPC/client.go:185-208 | The whole effect of an uninterrupted `Send` |
| `RpcClient.ClientObject.TerminateCalls` | MyRPC/client.go:91-102 | Every pending call is failed and completed, whichever order the map is walked in, and no other call changes |
| `RpcClient.ClientObject.Receive` | MyRPC/client.go:105-131 | The receive loop over the responses that arrive up to the first error, then `terminateCalls` |
| `RpcEffects.SendIsSteps` | MyRPC/client.go:185-208 | The effect of `Send` is a sequence of steps of the transition system |
| `RpcEffects.SendOutcome` | MyRPC/client.go:185-208 | Refused, failed or pending: error, completions, number and `pend` when `Send` returns, other calls untouched |
| `RpcEffects.ResponseIsSteps` | MyRPC/client.go:107-127 | The effect of one turn of the receive loop is a sequence of steps that consumes one header and one body |
| `RpcEffects.ResponseOutcome` | MyRPC/client.go:107-127 | Error, reply and completions of the response's call after one turn, other calls untouched |
| `RpcEffects.TerminatedOutcome` | MyRPC/client.go:91-102 | Each pending call has the error of the broken connection and one completion more, other calls untouched |
| `RpcEffects.TerminateIsSteps` | MyRPC/client.go:91-102 | The effect of `terminateCalls` is a sequence of steps, for every order of the map |
| `RpcEffects.LeadsKeepsInv` | MyRPC/client.go:69-240 | Such sequences keep the client's invariant |
| `RpcServer.StepKeepsWait` | MyRPC/server.go:131-142 | The wait group counts exactly the handlers still running |
| `RpcServer.StepKeepsInv` | MyRPC/server.go:125-243 | Every step of reader, handlers, methods and response writers keeps each request's protocol state |
| `RpcServer.AnsweredAtMostOnce` | MyRPC/server.go:132-143 | No request is answered twice |
| `RpcServer.AnsweredBeforeClose` | MyRPC/server.go:145-148 | When the connection is closed every decoded request has had exactly one response write and none is under way |
| `RpcServer.ClosedIsSilent` | MyRPC/server.go:145-148 | After closing nothing is written and no request is added |
| `RpcServer.TimedOutMethodNeverAnswers` | MyRPC/server.go:218-243 | A method whose handler timed out stays blocked on the signal nobody takes and never writes |
| `RpcConnection.Connection.DecodeHeader` | MyRPC/server.go:172-183 | A decoded header becomes a request, to be read on or answered with an error |
| `RpcConnection.Connection.DecodeBody` | MyRPC/server.go:193-197 | A read body starts handler and method and enters the wait group; an unreadable one is to be answered |
| `RpcConnection.Connection.TakeSignal` | MyRPC/server.go:218-227 | The method's signal is taken and its error, if any, written into the shared header |
| `RpcConnection.Connection.GiveUpWaiting` | MyRPC/server.go:237-239 | The timeout text is written into the shared header and the handler answers |
| `RpcConnection.Connection.SendResponse` | MyRPC/server.go:201-207 | One header and its body under the lock |
| `RpcConnection.Connection.HandleRequest` | MyRPC/server.go:210-243 | An uninterrupted `handleRequest` writes one answer and leaves the wait group, the method first or the timeout first, the method then still running or at its signal |
| `RpcConnection.Connection.ServerCodec` | MyRPC/server.go:125-149 | Served one after the other, the requests up to the first that leaves something unread get their answers in order, and the connection closes |
| `RpcAnswers.AnswerIsSteps` | MyRPC/server.go:201-207 | A whole response write is a sequence of steps of the transition system |
| `RpcAnswers.HandledIsSteps` | MyRPC/server.go:210-243 | The effect of `handleRequest` is a sequence of steps, whichever of method and timeout is first |
| `RpcAnswers.ServedIsSteps` | MyRPC/server.go:132-143 | The effect of serving one request is a sequence of steps that consumes its frames and writes its answer |
| `RpcAnswers.CodecIsSteps` | MyRPC/server.go:132-148 | The effect of `serverCodec` on the requests that arrive is a sequence of steps, up to the close |
| `RpcAnswers.CodecOnFreshWire` | MyRPC/server.go:125-148 | In particular on a fresh connection that carries just the frames of a row of requests, some unknown or unreadable |
| `RpcAnswers.FinishedAnswersAll` | MyRPC/server.go:132-148 | At its end every request has been answered once and the wait group is empty |
| `RpcServer.DrainingEnds` | MyRPC/server.go:145 | While handlers are left the draining server can step, without any method having to return if requests time out, and every step leaves less to do, save the return of a timed-out method |
| `RpcWires.ClientStepKeepsInv` | MyRPC/client.go:185-208 | Client steps keep the wires framed and tied to the issued numbers |
| `RpcWires.ServerStepKeepsInv` | MyRPC/server.go:125-243 | Server steps keep requests tied to calls and responses framed |
| `RpcWires.ServerSeesTheCalls` | MyRPC/server.go:172-198 | The requests the server decodes are the calls in the order of their numbers, each with its own method and arguments |
| `RpcWires.ResponsesAreWhole` | MyRPC/server.go:201-207 | On the response wire each header is followed by its own body and nothing else |
| `RpcWires.ReceiverReadsInStep` | MyRPC/client.go:105-128 | Until its first error the receive loop reads headers where headers are and each header's own body behind it, in all three branches |
| `RpcWires.RequestsAreToldWhy` | MyRPC/server.go:131-243 | The error text of every answered request: unknown method, unreadable body, timeout, or the method's own for the caller's arguments |
| `RpcWires.NothingAfterUnknownMethod` | MyRPC/server.go:178-181 | With typed frames, a request for an unknown method is the last one ever decoded, its body being left unread |
| `RpcMatching.CompletedCallIsAnswered` | MyRPC/client.go:69-131 | In every run a call completed without an error was answered by its own method for its own arguments |
| `RpcMatching.BodyGivesOwnReply` | MyRPC/client.go:114-127 | The three branches of the receive loop leave the call with its method's reply, a decoding error, or the received text as formatting leaves it |
| `RpcMatching.ServerErrorIsTheMethods` | MyRPC/client.go:117-118 | A server error the caller holds is, for an unknown method, what formatting leaves of the lookup's text, and for a known one the text of an unreadable body or of a timeout, or what formatting leaves of the method's own |
| `RpcRefusals.RefusalIsTold` | MyRPC/server.go:101-120 | A run in which a call of an unknown method is refused and its caller holds what formatting leaves of the refusal |
| `RpcRefusals.RefusalArrivesIff` | MyRPC/server.go:101-120 | The caller of an unknown method is told the refusal itself, in every run that tells it anything, if and only if the part of the name that the refusal repeats has no percent sign |
| `RpcRuns.RunStages` | MyRPC/server.go:218-229 | A run of one call of a registered method, state by state up to its caller, whatever the method computes |
| `RpcRuns.ReplyArrives` | MyRPC/client.go:121-126 | A good reply reaches its caller: the run ends with the call completed once, without an error and with what the method returned |
| `RpcFailures.SuccessMeansResultIff` | MyRPC/client.go:117-126 | Success means holding the method's result, in every run, if and only if the method does not fail with an empty text |
| `RpcFailures.FailureIsTold` | MyRPC/client.go:117-118 | The caller of a method that fails with a text is left with that text as a format without operands |
| `RpcFailures.TextMeansMethodsIff` | MyRPC/client.go:117-118 | The caller of a failing method holds the method's own text, in every run, if and only if there is no percent sign in it |
| `Formatting.DirectiveIsOk` | MyRPC/client.go:118 | What a percent sign and the directive behind it are replaced by |
| `Formatting.UnchangedIff` | MyRPC/client.go:118 | A text used as a format without operands comes through unchanged if and only if it has no percent sign |
| `Formatting.DirectiveGoes` | MyRPC/client.go:118 | Any directive of flags, width, precision and verb is replaced as a whole by the verb's complaint, or by a percent sign if that is the verb |
| `Formatting.DoubledSign` | MyRPC/client.go:118 | Two signs become one |
| `Formatting.StarComplains` | MyRPC/client.go:118 | A star for a width that no operand gives is complained about |
| `Formatting.IndexComplains` | MyRPC/client.go:118 | So is an argument index |
| `Formatting.SignAtTheEnd` | MyRPC/client.go:118 | A text such as 100% gets a complaint appended |
| `Formatting.SignBeforeWord` | MyRPC/client.go:118 | In a text such as 90% full the first letter of the next word is taken for a verb |
| `Registry.MyRegistry.AliveServers` | MyRPC/registry/registry.go:56-68 | The addresses whose heartbeat plus the timeout lies after their own clock reading, all with timeout 0, ascending, each once; the others are gone from the map |
| `Registry.MyRegistry.ServeHTTP` | MyRPC/registry/registry.go:71-85 | The joined list, the accepted or refused heartbeat, and other methods |
| `Registry.LessIff` | MyRPC/registry/registry.go:66 | The order of the list is that of the dictionary |
| `Registry.SortAscends` | MyRPC/registry/registry.go:66 | Sorting gives an ascending list of the same addresses |
| `Registry.AscendingUnique` | MyRPC/registry/registry.go:56-68 | A set of addresses has one ascending list, so the order of walking the map is not seen |
| `Registry.QuerySeesLatestBeats` | MyRPC/registry/registry.go:41-68 | After any history under a clock that does not go back, a query sees exactly the addresses whose latest heartbeat plus the timeout lies after its reading of the clock, all of them with timeout 0 |
| `Registry.BeatsExpire` | MyRPC/registry/registry.go:59-65 | With a timeout an address is seen while its latest heartbeat is younger than that, and no longer once it is as old |
| `Registry.PurgingIsInvisible` | MyRPC/registry/registry.go:59-65 | A query answers as if no query had come before it |
| `ServerList.SplitJoin` | MyRPC/registry/registry.go:74 | Comma-free pieces come back from their joined text |
| `ServerList.JoinSplit` | MyRPC/xclient/discovery_my.go:52 | Any text comes back from its pieces |
| `ServerList.ParseJoinIff` | MyRPC/xclient/discovery_my.go:52-58 | A list survives joining, splitting and trimming if and only if its addresses are comma-free, not blank and trimmed |
| `ServerList.ParseSkipsPadding` | MyRPC/xclient/discovery_my.go:52-58 | White space around addresses and empty entries are skipped, and the addresses keep their order |
| `Discovery.Chosen` | MyRPC/xclient/discovery.go:57-74 | A choice is one of the servers, whatever the index |
| `Discovery.MultiServersDiscovery.Get` | MyRPC/xclient/discovery.go:57-74 | No servers, random, round robin with the index advanced, unsupported mode |
| `Discovery.AnswerInTurn` | MyRPC/xclient/discovery.go:57-74 | Each of successive answers, whatever modes are mixed: the next server in turn from the index on, the one drawn, or an error |
| `Discovery.RoundRobinIsFair` | MyRPC/xclient/discovery.go:67-70 | Counting the answers of any window from any index: each of different servers is answered its share of the round-robin turns, rounded down or up, and as often besides as it is drawn |
| `Discovery.FullRoundVisitsAll` | MyRPC/xclient/discovery.go:67-70 | In n round-robin turns each of n different servers is answered exactly once besides its draws |
| `Discovery.MyRegistryDiscovery.Refresh` | MyRPC/xclient/discovery_my.go:40-61 | A list in date is kept; else the registry is asked, and its answer replaces the list or its failure leaves all as it was |
| `Discovery.MyRegistryDiscovery.Get` | MyRPC/xclient/discovery_my.go:63-68 | A choice from a list in date; no choice and no change when the registry cannot be reached |
| `Discovery.MyRegistryDiscovery.GetAll` | MyRPC/xclient/discovery_my.go:70-75 | The whole list in date, or the failure |
| `Discovery.RefreshRecoversListIff` | MyRPC/xclient/discovery_my.go:52-59 | A stale client takes over exactly the registry's list if and only if the text form cannot change an address |

## Left out

- Goroutines as heap code: interleavings are steps on values; the code of cache, group, singleflight, client and server is modelled on mutable objects for one goroutine at a time, each lock region or operation tied to those steps.
- RpcConnection.Connection.HandleRequest: states the effect when no other goroutine acts in between; all interleavings are covered by the transition system.
- RpcConnection.Connection.ServerCodec: serves each request before it reads the next; concurrent handlers are covered by the transition system.
- SingleFlightGroup.Group.Lead: states the effect for a key nobody is loading and with nobody in between; joining and waiting are covered by the transition system.
- RpcClient.ClientObject.Send: states the effect when no other goroutine acts in between; all interleavings are covered by the transition system.
- RpcClient.ClientObject.Receive: states the effect on one row of responses when no other goroutine acts in between; all interleavings are covered by the transition system.
- Discovery.MultiServersDiscovery.Get: keeps the list as a value; a caller who later writes to the slice it passed is not modelled.
- Registry.MyRegistry.AliveServers: keeps start times as values of the map instead of items behind pointers, which never leave the registry.
- Discovery.MyRegistryDiscovery.Get: refreshes and chooses in one step; the two lock regions it really has let another goroutine replace the list in between.
- Discovery.MyRegistryDiscovery.GetAll: refreshes and copies the list in one step, where another goroutine can come in between as well.
- Cluster.OneHop: serves requests one at a time; requests at once are the subject of `ConcurrentCluster`.
- The moment at which a leader's record leaves the map of singleflight, in `ConcurrentCluster`: a request may share with a leader that is over, or lead a new load.
- The text of the codec's error for an unreadable body and of the duration in a timeout's: each is one text without a percent sign.
- Gob and protobuf encoding, buffering and flushing: frames are typed, a write that does not reach the wire is a lost one.
- Sockets, HTTP, option negotiation, dialling and its timeout, connection hijacking.
- Reflection: a method is a function of its name and arguments; registering services while a connection is served.
- Escaping of group and key between peers: delivery is taken to preserve both.
- User-supplied Done channels that are shared or full, and callers that read a reply before completion.
- Wrap-around of 64-bit byte counts and call numbers, and values whose length changes while cached.
- CRC-32: any function into ring points; random draws are parameters.
- Panicking callbacks and methods, a pool asked before `Set`, and `RegisterPeers` called twice.
- Heartbeat tickers and real time: the clock is a parameter.
- `XClient`, `Broadcast`, debug pages, demos, and everything outside MyCache and MyRPC.
