# Verified model of the envoy-go upstream side

This project models the parts of envoy-go that keep books under concurrency or promise something
numerical: the connection and stream pools of a cluster, the consistent-hash balancers, outlier
ejection, the wrapper balancers, and four smaller machines (drain rendezvous, access-log writer,
OTLP template compiler, match predicates). Every claim below is a Dafny contract; nothing was
executed.

How the pieces fit:

- `ConnPool.dfy` is the connection budget with its FIFO queue: one function per critical section, a
  ledger machine over whole runs, and the class `ConnPool` whose methods refine the functions.
- `H2Machine.dfy` is the cluster as a machine of atomic steps: HTTP/2 acquire, attach, dial, grant,
  cancel, release, evict and promote; the HTTP/1.1 pool; and the peers, who may close a connection,
  send GOAWAY or fail a dial at any time. Counters are plain integers that would drift or go negative
  if anything were released twice or not at all. `H2Ledger`, `H2Invariant`, `H2Accounts`, `H2Shape` and
  `H2Safety` prove that every step keeps the books balanced; `H2Theorems`, `H2Custody` and `H2Coalescing`
  state the laws over every run; `H2Meaning` says what the single steps come to, on the state before and
  after; `H2Pool.dfy` is the pool as an object with the source's loops, proved to take exactly those steps.
- `Primes.dfy`, `Maglev.dfy` and `HashRing.dfy` are the consistent-hash balancers.
- `SuccessRate.dfy`, `Ejection.dfy` and `Outlier.dfy` are outlier detection: the statistics over exact
  reals, the ejection machine, and the detector object; `EjectionHistory.dfy` says on the history of
  results what a streak is, when a result ejects and whom a sweep ejects; `WrapperDrift.dfy` puts the
  machine under the wrapper balancers.
- `Balancers.dfy`, `Waterfall.dfy` and `Subset.dfy` are the leaf and wrapper balancers.
- `Drain.dfy`, `AlsWriter.dfy`, `OtlpTemplate.dfy` and `Predicate.dfy` are the smaller machines.

Two properties one might expect turn out false of the code. Each has a concrete failing input and
the exact condition under which the property does hold:

- `ejections_active` is not always the number of ejected hosts. Priority tiers and localities scan
  their hosts through a view of the registry that carries no gauge, and a host readmitted by such a
  scan stays on the gauge. Over a whole run the gauge exceeds the ejected hosts by exactly the number
  of such scans, so it is exact if and only if none met a healthy host past its deadline
  (`Ejection.GaugeExact`). A wrapper pick first scans every host through the shared registry, so it
  drifts if and only if its child then meets an ejected host whose deadline passed, or whose health
  came back, in between (`Ejection.PassivePickDriftsIff`, and `Ejection.InterleavedPickDriftsIff` with
  the clock moving inside the scans too); a pick at one instant never does
  (`Ejection.PickAtOneInstant`). `WrapperDrift.WrapperPickDrifts` is such a pick.
- `done` of the drain manager may close although the number in flight was never zero while draining,
  against the comment at internal/drain/manager.go:87-89. It can if and only if, at the moment Drain is
  about to store Draining, something is in flight and some `Dec` stands between its zero and its look at
  the state (`Drain.EarlyCloseIff`); `Drain.EarlyCloseExample` reaches such a moment.
A third holds only within its stated bounds. A subset key names its match among matches whose strings
avoid the delimiters (`Subset.KeyInjective`), and the bound is needed on both sides: every match with two
or more keys, however plain itself, shares its key with one that is not plain (`Subset.DelimitersCollide`),
and a lookup can be misled by it (`Subset.LookupMisled`).

One guard is stronger than its comment says: the trial division of `isPrime` is called adequate up to
5000011, and it decides primality of every 64-bit word although `d*d` wraps round above 2^32.

## Model

| member | source | states |
|---|---|---|
| `ConnBudget.PoolSafety` | internal/cluster/connpool.go:62-177 | Over every run of acquires, hand-offs, racing cancels and give-backs: permits out equal `activeConns`, which stays within 0..max; a queued waiter implies the budget is exhausted; the queue is bounded; hand-offs follow enqueue order among uncancelled waiters; the two open signals equal their at-cap conditions |
| `ConnBudget.StepKeeps` | internal/cluster/connpool.go:62-157 | Every critical section and channel receive keeps the ledger, the FIFO order, the no-barging rule and the signals |
| `ConnBudget.ConnPool.AcquireConn` | internal/cluster/connpool.go:62-88 | The object's locked acquire section is the specified reservation, enqueue or overflow |
| `ConnBudget.OutcomeMeans` | internal/cluster/connpool.go:62-88 | A permit exactly while one is left; an overflow exactly with none left and a full queue; otherwise a place at the end of the queue; and which counters move |
| `ConnBudget.TryMeans` | internal/cluster/connpool.go:121-134 | The non-blocking attempt succeeds exactly while a permit is left, and never queues |
| `ConnBudget.OverflowsCounted` | internal/cluster/connpool.go:62-88 | Over every run the two overflow counters are exactly the attempts that found no permit and the acquires that found a full queue |
| `ConnBudget.FillTheorem` | internal/cluster/connpool.go:62-88 | From an unused pool, K acquires without a give-back yield min(K, cap) permits, min(maxPending, rest) queued, and the remainder overflowed |
| `ConnBudget.ConnPool.TryAcquireConnSlot` | internal/cluster/connpool.go:121-134 | The non-blocking reservation never enqueues and raises the overflow signals at the cap |
| `ConnBudget.ConnPool.ReleaseConn` | internal/cluster/connpool.go:141-157 | The freed permit goes to the head waiter with the count unchanged, else back to the budget |
| `ConnBudget.ConnPool.RemoveWaiterLocked` | internal/cluster/connpool.go:161-169 | Removes exactly the one occurrence of a waiter and reports whether it was queued |
| `ConnBudget.ConnPool.CancelPending` | internal/cluster/connpool.go:94-109 | A cancel either leaves the queue cleanly or gives back the permit that was already on its way, never both and never neither |
| `H2Theorems.PermitConservation` | internal/cluster/h2pool.go:304-455 | In every reachable state `activeConns` is the dials holding a permit, the permits in waiter channels and the connections whose once-only release has not fired, and stays within 0..max_connections, the configured budget; `cx_active` is the open connections |
| `H2Theorems.SlotConservation` | internal/cluster/h2pool.go:598-653 | In every reachable state `promised` and a pooled connection's `inFlight` are exactly the slots held on it and stay within 0..C; `streams_active` is all outstanding slots, those on evicted connections included |
| `H2Theorems.PickConservation` | internal/cluster/cluster.go:660-676 | Each host's balancer load is the calls that still owe their release plus the open connections that took it over, so it is never negative and each pick is released once |
| `H2Theorems.QuiescentIsEmpty` | internal/cluster/cluster.go:420-426 | When every call has returned and every connection was closed, by the pools or by an HTTP/1.1 or Dial caller, permits, streams, gauges, the pending count and all host loads are zero |
| `H2Custody.NoConnectionLost` | internal/cluster/h2pool.go:598-669 | In every reachable state a connection that was dialed and not closed lies in a pool or is in the hands of a call; none is leaked by a failed finalization, an eviction, a return or a cancel |
| `H2Custody.StepCustody` | internal/cluster/cluster.go:782-812 | Each of the 28 kinds of step keeps every open connection in such custody |
| `H2Custody.IdleClusterHoldsPools` | internal/cluster/cluster.go:420-426 | Once every call is done the permits out are exactly the open connections in the pools, and none if the pools are empty |
| `H2Theorems.RunLimits` | internal/cluster/h2pool.go:304-669 | No step changes C, the budget or the queue bound |
| `H2Theorems.AdmissionIsLive` | internal/cluster/h2pool.go:459-468 | No step puts one more stream on an established connection unless it is pooled, open, has seen no GOAWAY and has a stream to spare |
| `H2Safety.StepKeeps` | internal/cluster/h2pool.go:304-669 | Each of the 28 kinds of step, by any goroutine or peer, keeps the shape and the balance of the whole cluster |
| `H2Safety.RunKeeps` | internal/cluster/h2pool.go:304-455 | Every finite interleaving of enabled steps keeps them |
| `H2Safety.CancelFindsGrant` | internal/cluster/h2pool.go:422-454 | A cancelled waiter that is no longer queued has a grant on its channel, so the draining receive cannot block for ever |
| `H2Safety.AttachReadyKeeps` | internal/cluster/h2pool.go:548-573 | An attacher that finds its connection failed, pooled or evicted settles its slot exactly once, including the branch the source argues by inspection |
| `H2Safety.UndoOrphanKeeps` | internal/cluster/h2pool.go:393-408 | A stream grant whose connection vanished is undone without touching a permit, the other branch argued by inspection |
| `H2Safety.FinalizeFailsKeeps` | internal/cluster/dial_h2.go:98-141 | Every failure after the dial closes the wrapper and so returns permit and pick once |
| `H2Safety.DialFailsKeeps` | internal/cluster/dial_h2.go:73-91 | A failed dial returns its permit and still owes exactly its pick |
| `H2Safety.H1PutIdleKeeps` | internal/cluster/cluster.go:782-812 | Returning a connection pools it or closes it, with permit and pick conserved either way |
| `H2Safety.H1CancelKeeps` | internal/cluster/connpool.go:94-109 | An HTTP/1.1 waiter's cancel conserves the cluster's permits against a racing hand-off |
| `H2Coalescing.CoalescingTheorem` | internal/cluster/h2pool.go:336-382 | From an empty pool with M permits, any interleaving of K acquires for one address with successful dials opens exactly min(M, ceil(K/C)) connections, admits min(K, M*C), queues min(maxPending, rest) and overflows the remainder |
| `H2Coalescing.StepCoalesces` | internal/cluster/h2pool.go:459-480 | At every step at most one connection has slots to spare, and anybody waits only when every slot and permit is taken |
| `H2Pool.Cluster.Acquire` | internal/cluster/h2pool.go:325-382 | The locked section of AcquireH2Stream takes exactly the acquire step and keeps all the laws |
| `H2Meaning.AcquireMeans` | internal/cluster/h2pool.go:325-382 | A connection with room, else a connecting entry with a promise to spare, else a permit to dial, else the queue, else an overflow: which call moves, what is counted, and that none is passed over |
| `H2Pool.Cluster.FindStreamHit` | internal/cluster/h2pool.go:459-468 | Finds the first live pooled connection with a free slot |
| `H2Meaning.FirstLiveIsFirst` | internal/cluster/h2pool.go:459-468 | The connection found has room and no earlier one has; nothing is found exactly if none has |
| `H2Pool.Cluster.FindConnectingHit` | internal/cluster/h2pool.go:473-480 | Finds the first connecting entry with a free promise |
| `H2Meaning.FirstSpareIsFirst` | internal/cluster/h2pool.go:473-480 | The entry found has a promise to spare and no earlier one has; nothing is found exactly if none has |
| `H2Pool.Cluster.RemoveWaiter` | internal/cluster/h2pool.go:106-116 | Removes a waiter with its pending count, or reports that a grant is en route |
| `H2Pool.Cluster.RemoveConnecting` | internal/cluster/h2pool.go:484-492 | Removes exactly that entry from its list |
| `H2Pool.Cluster.PromoteLocked` | internal/cluster/h2pool.go:124-151 | Wakes at most the head waiter, onto a live connection first and with a permit otherwise |
| `H2Meaning.PromoteMeans` | internal/cluster/h2pool.go:124-151 | The head waiter gets a stream on a connection with room if its address has one, which counts it; else a permit if one is left, with active one up; else the queue is unchanged; every other call stands where it stood |
| `H2Meaning.FreeingOwes` | internal/cluster/h2pool.go:598-653 | Every step that frees a slot or a permit at an address owes that address exactly one promotion |
| `H2Pool.Cluster.FailEntry` | internal/cluster/h2pool.go:598-614 | The failure half of dialAndPool with its decrement loop is the fail step and its promotion, and keeps all the laws |
| `H2Pool.Cluster.PoolConn` | internal/cluster/h2pool.go:615-628 | The success half converts every promise into a slot in flight, promotes, and keeps all the laws |
| `H2Pool.Cluster.AttachReady` | internal/cluster/h2pool.go:548-573 | The attacher's wake-up is the attach step and keeps all the laws |
| `H2Pool.Cluster.AttachCancel` | internal/cluster/h2pool.go:529-538 | A cancel before ready gives back the promised slot and keeps all the laws |
| `H2Pool.Cluster.AcceptGrant` | internal/cluster/h2pool.go:385-420 | Taking a grant rides a connection that is still pooled or registers the dial, and keeps all the laws |
| `H2Pool.Cluster.CancelWait` | internal/cluster/h2pool.go:422-454 | A cancel leaves the queue or gives the grant back and promotes, and keeps all the laws |
| `H2Pool.Cluster.ReleaseStream` | internal/cluster/h2pool.go:635-653 | The release closure gives back the slot, promotes, evicts the last stream's dead connection and promotes again, and keeps all the laws |
| `H2Meaning.ReleaseCheckMeans` | internal/cluster/h2pool.go:645-650 | The last release on a closed or draining connection takes it out of its pool, closes it, gives back its permit and owes a promotion; any other leaves pool, connections and permits alone |
| `H2Pool.Cluster.EvictOnError` | internal/cluster/h2pool.go:687-697 | Eviction is idempotent, closes once, promotes, and keeps all the laws |
| `H2Meaning.EvictEventMeans` | internal/cluster/h2pool.go:687-736 | A pooled connection leaves its pool and is closed on an error, and on GOAWAY exactly when idle, with a promotion owed; otherwise nothing happens |
| `H2Pool.Cluster.EvictLocked` | internal/cluster/h2pool.go:660-669 | Removes the connection from its slice and closes it, also when it was gone already |
| `H2Meaning.EvictMeans` | internal/cluster/h2pool.go:660-669 | The evicted connection and no other leaves its pool, and is closed with one permit given back at most once |
| `H2Pool.Cluster.CloseLocked` | internal/cluster/cluster.go:831-834 | A close runs the release closure at most once |
| `H2Meaning.CloseMeans` | internal/cluster/cluster.go:831-834 | The first close gives one permit back, to the head HTTP/1.1 waiter if there is one; a second gives nothing back |
| `H2Pool.Cluster.FinalizeFails` | internal/cluster/dial_h2.go:98-141 | The failed finalization closes the wrapper and keeps all the laws |
| `H2Meaning.FinalizeFailsMeans` | internal/cluster/dial_h2.go:98-141 | A failed finalization closes the connection and gives its permit back |
| `H2Pool.Cluster.PopIdleH1` | internal/cluster/cluster.go:734-755 | Pops the most recently idle connection and keeps all the laws |
| `H2Meaning.PopIdleMeans` | internal/cluster/cluster.go:734-755 | The connection returned last is taken off the list and handed to the call |
| `H2Pool.Cluster.PutIdleH1` | internal/cluster/cluster.go:782-812 | Pools up to the limit, closes when a request is waiting or the list is full, and keeps all the laws |
| `H2Meaning.PutIdleMeans` | internal/cluster/cluster.go:782-812 | A returned connection goes to the end of the idle list, unless a request was seen waiting or 1024 lie there already, and then it is closed |
| `Primes.IsPrime` | internal/cluster/maglev.go:151-164 | Accepts exactly the primes among all 64-bit words, wrap-around of the square included |
| `Primes.TrialStopsBelow` | internal/cluster/maglev.go:158-162 | The wrapping loop never divides a prime by itself |
| `Maglev.ParseTableSize` | internal/cluster/manager.go:740-755 | Lets through the default, itself prime, and exactly the primes up to 5000011 |
| `Maglev.SlotReaches` | internal/cluster/maglev.go:100-118 | For a prime table every preference list visits every slot |
| `Maglev.MaglevBalance` | internal/cluster/maglev.go:104-124 | For prime M and any hash values every slot is owned by a host and each host owns floor(M/N) or ceil(M/N) slots, the first M mod N in build order one more |
| `Maglev.Populate` | internal/cluster/maglev.go:94-124 | Both loops terminate and fill the table as if each host in turn took the first free slot of its whole list |
| `Maglev.Claim` | internal/cluster/maglev.go:114-122 | Resuming the search at `next` finds what a search from the start would, and `next` never exceeds M |
| `Maglev.SlotWordExact` | internal/cluster/maglev.go:114-118 | offset + skip*next stays below M*M, so 64-bit arithmetic never wraps |
| `Maglev.NewMaglev` | internal/cluster/maglev.go:76-143 | The table is the hosts taking turns along the lists their two digests name: each slot lies on its owner's list with all earlier positions taken in earlier turns, and the slot hash mod M of the first address is its own; the gauges are floor(M/N) and ceil(M/N); no endpoints give no table |
| `Maglev.SlotsFollowDigests` | internal/cluster/maglev.go:94-124 | Every slot owned by endpoint e is (hash + j*(seeded mod (M-1) + 1)) mod M for some j, and each earlier position of that list was claimed in an earlier turn; no two slots share a turn |
| `Maglev.FirstSlot` | internal/cluster/maglev.go:100-101 | The first endpoint in build order owns the slot its own hash names |
| `Maglev.LayoutIgnoresNames` | internal/cluster/maglev.go:83-92 | The layout depends only on the addresses in build order: renumbering the endpoints moves no slot between addresses |
| `Maglev.Pick` | internal/cluster/maglev.go:43-62 | Outside panic the owner of the first slot from the key's on, cyclically, whose endpoint is available; in panic the key's own slot |
| `Maglev.MaglevHostMeans` | internal/cluster/maglev.go:43-62 | A key maps to the owner of the first slot from key mod M on, cyclically, whose endpoint is available, and to nothing exactly if there is none |
| `Maglev.MaglevServesAnyHost` | internal/cluster/maglev.go:54-61 | With at least one slot per host a pick fails only if every host is down |
| `Maglev.MaglevFailover` | internal/cluster/maglev.go:54-61 | Losing endpoints moves no key but those that mapped to a lost one |
| `CyclicWalk.ChooseTotal` | internal/cluster/ringhash.go:147-154 | The walk ends on an available owner, and fails exactly if there is none |
| `CyclicWalk.FailoverIsMinimal` | internal/cluster/ringhash.go:147-154 | Shrinking the available set changes the choice only if the previous owner was lost |
| `HashRing.NewRing` | internal/cluster/ringhash.go:78-127 | The ring is sorted by hash, equal hashes in the order of the hosts, and is, as a multiset, exactly the points of every host and every serial number below ceil(min/N); every host owns that many, and the gauges say so |
| `HashRing.PerHostIsLeast` | internal/cluster/ringhash.go:85-85 | The points per host are the least number that makes a ring of at least the configured size |
| `HashRing.Search` | internal/cluster/ringhash.go:140-143 | Binary search splits the ring at the key |
| `HashRing.RingHostMeans` | internal/cluster/ringhash.go:133-155 | A key maps to the owner of the available point clockwise nearest to it on the 64-bit circle, and to nothing exactly if no point has an available owner |
| `HashRing.Pick` | internal/cluster/ringhash.go:133-155 | Pick returns that owner, in panic the owner of the nearest point of all, and crashes exactly in panic on an empty ring |
| `HashRing.BuiltRingNotEmpty` | internal/cluster/ringhash.go:84-102 | A positive minimum ring size rules that crash out |
| `HashRing.RingServesAnyHost` | internal/cluster/ringhash.go:84-102 | On a non-empty built ring a pick fails only if every host is down |
| `HashRing.RingFailover` | internal/cluster/ringhash.go:147-154 | Losing hosts moves no key but those that mapped to a lost host |
| `SuccessRate.OneSidedChebyshev` | internal/cluster/outlier.go:304-311 | Fewer than N/(1+k^2) of any N values lie more than k population standard deviations below their mean |
| `SuccessRate.EvalSuccessRate` | internal/cluster/outlier.go:285-323 | One sweep flags exactly the eligible hosts below a positive threshold, fewer than N/(1+k^2) of the N eligible, and always leaves one |
| `SuccessRate.OutliersExact` | internal/cluster/outlier.go:285-323 | The detector flags, in ascending order, exactly the hosts with enough traffic whose rate lies below a positive threshold, if enough hosts have such traffic |
| `SuccessRate.ThresholdMeans` | internal/cluster/outlier.go:298-311 | The threshold lies factor/1000 population deviations under the mean of the eligible rates |
| `SuccessRate.EligibleExact` | internal/cluster/outlier.go:286-294 | The eligible rows are exactly those with traffic, and with at least the configured volume of it, in order |
| `Ejection.EjectionSafety` | internal/cluster/outlier.go:395-434 | Over every run: ejected*100 <= max_ejection_percent*total; `enforced_total` is the sum of the per-detector counters and the gauge plus the readmissions that lowered it; the gauge is the ejected hosts plus the readmissions through tier views |
| `Ejection.OutUntilDeadline` | internal/cluster/health.go:129-156 | An ejected host stays ejected and unavailable until its deadline whatever happens in between |
| `Ejection.GaugeExact` | internal/cluster/health.go:129-140 | Over every run the gauge is the ejected hosts plus the scans through a gauge-less view that met a healthy expired host, so it is exact if and only if there was none |
| `Ejection.PickDriftsIff` | internal/cluster/health.go:535-537 | Whatever other goroutines do between its shared scan and its child's scan, a wrapper pick moves the gauge off exactly if the child scans a host that is by then healthy, still ejected and past its deadline |
| `Ejection.PassivePickDriftsIff` | internal/cluster/priority.go:163-178 | While only the clock and the prober move between the two scans, that is exactly an ejected host whose deadline passed, or which became healthy, in between |
| `Ejection.InterleavedPickDriftsIff` | internal/cluster/priority.go:163-202 | With the clock and the prober moving anywhere in the pick, also inside both scans: the gauge drifts if and only if some host was still ejected at the pick's last look before a view scan of it, and since then its deadline passed or its health came back |
| `Ejection.PickAtOneInstant` | internal/cluster/priority.go:165-171 | A pick during which nothing else happens never drifts, because its shared scan comes first |
| `Ejection.SharedScanClears` | internal/cluster/locality.go:153-167 | The shared scan leaves no healthy expired host behind |
| `WrapperDrift.WrapperPickDrifts` | internal/cluster/locality.go:101-107 | Three hosts, one ejected and its deadline passing in mid-pick: both wrappers may choose the group of that host, and the gauge ends above the ejected hosts |
| `Ejection.StepKeeps` | internal/cluster/outlier.go:438-467 | Every record, sweep, scan, probe and tick keeps the cap and the counters |
| `Ejection.FailureTestExact` | internal/cluster/outlier.go:343-351 | The cross-multiplied integer test is the percentage test as long as 100 times the total fits a word |
| `EjectionHistory.StreaksAreHistory` | internal/cluster/outlier.go:438-514 | Over every run each streak of a host is the number of results counted since the one that last cleared it, modulo 2^32: 5xx since a non-5xx external result, gateway failures since any other result the rule looks at, split-off local failures since an external result; and the window is the results and successes since the last sweep |
| `EjectionHistory.ResultEjectsIff` | internal/cluster/outlier.go:395-514 | A result ejects its host exactly if the host is not out, one more ejection stays within the cap, and the result completes an enabled streak whose roll enforces; the deadline is now plus the base ejection time, and no other host moves |
| `EjectionHistory.EjectedByHistory` | internal/cluster/outlier.go:438-514 | Over every run: the same, with the streaks read off the results so far |
| `EjectionHistory.ResultDetects` | internal/cluster/outlier.go:475-514 | A result counts one detection for each streak it completes, enforced or not, the 5xx rule being skipped once the gateway rule has ejected |
| `EjectionHistory.TryEjectMeans` | internal/cluster/outlier.go:395-434 | An attempt succeeds exactly on a host that is in, with an enforcing roll and room under the cap; lack of room alone counts as overflow |
| `EjectionHistory.SweepEjects` | internal/cluster/outlier.go:245-352 | A sweep ejects only hosts that a detector flags and a roll enforces, until now plus the base time; a wanted host stays in only if the cap is then full, and then those ejected came before it, slow hosts in order first and failing hosts in order next |
| `EjectionHistory.FailureFlagsExact` | internal/cluster/outlier.go:330-352 | The failure detector flags, in ascending order, exactly the eligible rows that fail its test, if enough rows are eligible |
| `EjectionHistory.EjectedIsCount` | internal/cluster/health.go:171-179 | The ejected count is the number of hosts whose flag is set |
| `Outlier.OutlierDetector.IsEjected` | internal/cluster/health.go:129-140 | Answers by the clock and readmits an expired host exactly once |
| `Outlier.OutlierDetector.IsAvailable` | internal/cluster/health.go:147-156 | Healthy and not ejected now; an unhealthy host is not readmitted by the question |
| `Outlier.OutlierDetector.EjectedCount` | internal/cluster/health.go:171-179 | Counts the ejected hosts after readmitting the expired ones |
| `Outlier.OutlierDetector.TryEject` | internal/cluster/outlier.go:395-434 | The roll, the cap and the ejection are one step of the machine |
| `Outlier.OutlierDetector.BumpStreak` | internal/cluster/outlier.go:475-486 | A streak counts in 32 bits and ejects from its threshold on |
| `Outlier.OutlierDetector.RecordExternal5xx` | internal/cluster/outlier.go:491-502 | A gateway ejection keeps the 5xx detector from firing |
| `Outlier.OutlierDetector.Record` | internal/cluster/outlier.go:438-467 | One result moves the registry as the machine's record step |
| `Outlier.OutlierDetector.Sweep` | internal/cluster/outlier.go:245-262 | Snapshot and reset, then both detectors over the same snapshot, is the machine's sweep step |
| `Outlier.OutlierDetector.FlagFailures` | internal/cluster/outlier.go:330-352 | Flags exactly the eligible rows over the failure percentage when enough hosts are eligible |
| `Balancers.RoundRobin.Pick` | internal/cluster/loadbalancer.go:53-70 | The next endpoint in turn or the first available one from there on; fails exactly if none is; counts a panicking pick once |
| `Balancers.LeastRequest.Select` | internal/cluster/leastrequest.go:93-113 | The least loaded of the drawn candidates, the first drawn on a tie |
| `Balancers.LeastRequest.Pick` | internal/cluster/leastrequest.go:84-118 | Every counter stays the number of outstanding picks on its host, and the pick obeys the leaf contract |
| `Balancers.LeastRequest.Release` | internal/cluster/leastrequest.go:115-116 | A release undoes its own pick once; repeating it changes nothing |
| `Balancers.NextAvailable` | internal/cluster/health.go:232-241 | The first available index from the start on, wrapping |
| `Balancers.PanicMeans` | internal/cluster/health.go:187-193 | Panic is exactly: a non-empty cluster of which fewer than the threshold percentage of hosts is available |
| `Balancers.AvailableIsCount` | internal/cluster/health.go:160-168 | The available count is the number of positions whose host is available |
| `Waterfall.CascadeLoads` | internal/cluster/priority.go:46-56 | Every prefix of the loads carries min(100, prefix of the capacities) |
| `Waterfall.LoadsTotal` | internal/cluster/priority.go:46-56 | The loads total exactly 100 when the capacities reach it, and the capacity otherwise |
| `Waterfall.LoadNeedsSaturation` | internal/cluster/priority.go:46-56 | A tier gets load only if all higher tiers are saturated |
| `Waterfall.RaisingCapacity` | internal/cluster/priority.go:46-56 | Raising one tier's capacity never raises a lower tier's load and leaves higher tiers alone |
| `Waterfall.CapacityMeans` | internal/cluster/priority.go:35-37 | A tier of n hosts with a available carries min(100, factor*a/n) percent; without a registry all n count |
| `Waterfall.TopTierTakesAll` | internal/cluster/priority.go:46-56 | If the first tier's available hosts, times the factor, cover all its hosts, it takes every request and nothing is bypassed |
| `Waterfall.DrawGroup` | internal/cluster/priority.go:179-201 | The bucket walk lands in the interval the draw falls into, always one with a positive share |
| `Waterfall.PriorityRoute` | internal/cluster/priority.go:163-202 | Bypasses exactly below 100 percent capacity, counting once, and otherwise draws a tier with positive load |
| `Waterfall.PriorityPick` | internal/cluster/priority.go:163-202 | Over any leaf policy, and even if health changes between the wrapper's scan and the child's: a bypassed pick returns a host and counts exactly one; any other counts nothing, returns an available host of a positive-load tier, and fails exactly if that whole tier has gone down in between |
| `Waterfall.PriorityLB.Pick` | internal/cluster/priority.go:163-202 | The same over round-robin children; at one instant a pick always returns a host |
| `Waterfall.LocalityRoute` | internal/cluster/locality.go:152-183 | Goes to the flat child exactly in panic or without any effective weight, else to a locality with positive weight |
| `Waterfall.WeightMeans` | internal/cluster/locality.go:126-129 | A locality of n hosts with a available weighs its configured weight times min(1, factor*a/(100*n)) |
| `Waterfall.LocalityPick` | internal/cluster/locality.go:152-183 | Over any leaf policy, and even if health changes in between: a pick fails exactly if its child finds neither panic nor an available host, and the panic counter rises by one exactly if the flat child finds panic; at one instant that is exactly outside panic with no host available, and exactly in panic |
| `Waterfall.LocalityLB.Pick` | internal/cluster/locality.go:152-183 | The same over round-robin children, panic being counted once, by the flat child |
| `Subset.KeyInjective` | internal/cluster/subset.go:86-105 | Matches over plain strings with the same key are the same match |
| `Subset.DelimitersCollide` | internal/cluster/subset.go:86-105 | Every match with two or more keys shares its key with another match, whose single key contains the delimiters |
| `Subset.LookupMisled` | internal/cluster/subset.go:213-221 | For every such match there are an endpoint and a selector such that every index built from them answers a lookup of the match with that endpoint, although it does not match and the match's keys are no selector |
| `Subset.LookupIsScan` | internal/cluster/subset.go:158-181 | A lookup succeeds exactly if the match's keys form a selector and some endpoint matches, and finds exactly the endpoints a linear scan finds, in order |
| `Subset.SubsetCount` | internal/cluster/subset.go:181-181 | The number of subsets is the number of distinct metadata tuples |
| `Subset.BuildIndex` | internal/cluster/subset.go:158-181 | For any metadata each key holds the group of the first selector that has one; over plain metadata the index names exactly the tuples, each with its scan |
| `Subset.ScalarsForKeys` | internal/cluster/subset.go:234-244 | The restriction of the metadata to the keys, or nothing if one is missing |
| `Subset.EndpointMatches` | internal/cluster/subset.go:248-256 | True exactly if the endpoint carries every pair of the match |
| `Subset.ScanExact` | internal/cluster/subset.go:248-256 | The scan lists exactly the endpoints that carry the whole match, in order |
| `Subset.BuildFallback` | internal/cluster/subset.go:183-203 | The fallback child is over all endpoints, over the default subset if it is not empty, or absent |
| `Subset.FallbackMeans` | internal/cluster/subset.go:183-203 | No fallback, every endpoint, or exactly those that carry the default subset, absent if none does |
| `Subset.SubsetLB.Pick` | internal/cluster/subset.go:213-230 | Delegates to the child over exactly the scanned endpoints, else to the fallback, and counts the one it used |
| `Drain.RendezvousTheorem` | internal/drain/manager.go:77-116 | Over every interleaving of single atomic operations: once no Drain or Dec is mid-call, draining with nothing in flight means done is closed; it closes at most once and only after Draining |
| `Drain.NoDeadlock` | internal/drain/manager.go:77-116 | While any call is mid-way some thread can move: nobody waits on a Once for ever |
| `Drain.EarlyCloseIff` | internal/drain/manager.go:77-116 | In every reachable state in which Drain is about to store Draining: done can close before inflight has been zero while draining if and only if something is in flight and some Dec has not yet looked at the state |
| `Drain.ClosedMeansEmptied` | internal/drain/manager.go:112-116 | Over whole runs: if no Dec was undecided when Draining was stored, done closes only after inflight has been zero while draining |
| `Drain.EarlyCloseExample` | internal/drain/manager.go:112-116 | Some run closes done with no zero ever seen while draining |
| `Drain.Manager.Dec` | internal/drain/manager.go:112-116 | The object's call takes the machine's atomic operations of an uninterrupted Dec and leaves both in the same state |
| `Drain.Manager.Drain` | internal/drain/manager.go:77-85 | The same for Drain: idempotent, and done closes at once if nothing is in flight |
| `Drain.Manager.Rendezvous` | internal/drain/manager.go:87-94 | Between calls, draining with nothing in flight means done is closed |
| `AlsWriter.WriterSafety` | internal/accesslog/grpcsink.go:166-266 | Under arbitrary stream-open and send failures every submission has exactly one fate, entries are sent in submission order, `logs_written` and `logs_dropped` count exactly the delivered and the overflowed, only records are written, and each stream carries the identifier on its first message only |
| `AlsWriter.NothingLeftAfterClose` | internal/accesslog/grpcsink.go:239-248 | After the writer has finished nothing is queued or buffered |
| `AlsWriter.MemoryBounded` | internal/accesslog/grpcsink.go:227-261 | The queue stays within the configured capacity and the buffer below the configured flush size, also in an outage |
| `AlsSink.GrpcSink.Submit` | internal/accesslog/grpcsink.go:121-134 | A full channel drops and counts the newest submission only |
| `AlsWriter.SubmitMeans` | internal/accesslog/grpcsink.go:121-134 | A submission joins the queue exactly if it is not full, and is dropped and counted otherwise |
| `AlsSink.GrpcSink.SendBatch` | internal/accesslog/grpcsink.go:194-226 | Two attempts, each with the whole batch, is the specified outcome for every answer of the peer |
| `AlsWriter.DeliveredIff` | internal/accesslog/grpcsink.go:194-226 | A batch is delivered exactly if a stream is or can be opened and either the first send works or a stream reopens and the second does |
| `AlsWriter.SendsMade` | internal/accesslog/grpcsink.go:194-226 | Which messages that puts on the wire: at most two, each with the whole batch, the second on a new stream with the identifier |
| `AlsWriter.LostOnlyInOutage` | internal/accesslog/grpcsink.go:194-232 | A step loses entries only if its peer refused a stream or failed the send on both attempts |
| `AlsWriter.EverythingWritten` | internal/accesslog/grpcsink.go:194-248 | If in every flush a stream opens and one of the two sends works, nothing is lost, and after Close every record that fitted the channel has been written |
| `AlsSink.GrpcSink.Flush` | internal/accesslog/grpcsink.go:190-232 | A batch is delivered or lost as a whole and the buffer is empty either way |
| `AlsWriter.FlushMeans` | internal/accesslog/grpcsink.go:190-232 | A flush empties the buffer and appends all of it to the written or to the lost entries, by what the peer did |
| `AlsSink.GrpcSink.OnReceive` | internal/accesslog/grpcsink.go:239-261 | One receive is one step of the writer, size trigger included |
| `AlsWriter.ReceiveMeans` | internal/accesslog/grpcsink.go:249-261 | A record joins the buffer, which is flushed exactly when its bytes reach the limit, with limit 0 always; anything else is ignored |
| `OtlpTemplate.TemplateMeaning` | internal/accesslog/otlpformat.go:62-111 | For every string and record, compile then evaluate is direct left-to-right substitution |
| `OtlpTemplate.CompilesTemplates` | internal/accesslog/otlpformat.go:62-96 | Compilation succeeds exactly on concatenations of plain characters, doubled percent signs and known operators |
| `OtlpTemplate.DoublingEscapes` | internal/accesslog/otlpformat.go:71-75 | Doubling every percent sign of any text yields a template that evaluates to that text |
| `OtlpTemplate.CompileTemplate` | internal/accesslog/otlpformat.go:62-96 | The index scan with its builder computes the specified segments |
| `OtlpTemplate.EvalString` | internal/accesslog/otlpformat.go:98-111 | The builder loop and the single-literal shortcut agree |
| `OtlpTemplate.CompileValue` | internal/accesslog/otlpformat.go:142-176 | Accepts exactly the trees of strings, lists and arrays whose strings compile |
| `OtlpTemplate.TreeMeaning` | internal/accesslog/otlpformat.go:209-229 | Evaluating a compiled tree keeps arms, keys, lengths and order and substitutes every string leaf |
| `OtlpTemplate.ValidateValue` | internal/accesslog/otlpformat.go:181-205 | Accepts exactly the trees without an unsupported arm, at any depth |
| `OtlpTemplate.CompilableValidates` | internal/accesslog/otlpformat.go:181-205 | Every tree that compiles also validates |
| `Predicate.Monotone` | internal/matchpredicate/node.go:45-116 | A determined value is unchanged when more headers arrive |
| `Predicate.Classical` | internal/matchpredicate/node.go:45-116 | With both directions in, a compiled tree has the plain two-valued meaning of its configuration |
| `Predicate.EarlyDecisionIsFinal` | internal/matchpredicate/eval.go:15-25 | What a partial view determines is what the complete headers mean |
| `Predicate.EvalNode` | internal/matchpredicate/node.go:45-116 | The short-circuiting loops compute Kleene's connectives over all children |
| `Predicate.CompileNode` | internal/matchpredicate/compile.go:41-89 | Accepts exactly the well-formed supported trees that end by depth 32, and keeps their shape |
| `Predicate.CompileSet` | internal/matchpredicate/compile.go:91-107 | A set compiles exactly if it is not empty and every rule does |
| `Predicate.CompileHeaders` | internal/matchpredicate/compile.go:109-122 | A header match compiles exactly if it is not empty and every matcher does |
| `Predicate.Evaluator.Resolve` | internal/matchpredicate/eval.go:31-31 | True exactly if the tree is True on what has been fed; after both feeds, in either order, the configured meaning |

## Left out

- Progress of HTTP/2 waiters: promotion wakes one waiter of one address while permits are shared by the cluster, so "a queued waiter implies no capacity" is not an invariant and is not claimed.
- Prompt eviction of draining connections: the cancel give-back lowers `inFlight` without the eviction check that a release makes.
- H2Pool.Cluster: goroutine positions are a field of the object; the connection budget is a value in it, its own object being `ConnBudget.ConnPool`; the once-guarded close with its three effects is one step.
- H2Theorems.PermitConservation: C is at least 1, which internal/cluster/manager.go:827-834 guarantees; closePool, DialSink and the retry budget are not part of the machine.
- H2Coalescing.CoalescingTheorem: one address and a bounded budget; releases, cancels, failures and peer moves are excluded as the law requires.
- Maglev.NewMaglev: the stable sort by address is a parameter, any arrangement of the endpoint indices; digests are arbitrary words; the table has at most 2^32 slots, which the configured cap of 5000011 ensures.
- Maglev.MaglevServesAnyHost: needs M >= N, since with fewer slots than hosts some host owns none.
- HashRing.NewRing: the library's stable sort is modelled as insertion behind equal hashes; maximum_ring_size is not applied by the source.
- SuccessRate.EvalSuccessRate: exact reals in place of float64; the square root is a parameter.
- Waterfall.PriorityRoute: exact reals in place of float64; grouping endpoints into tiers and localities, and the weights' last-write-wins rule, are not modelled.
- Ejection.EjectionSafety: record, sweep and the scan of one host are atomic steps over distinct addresses, as the source calls its cap read best effort; window counters are unbounded; the parsing of the detector settings is left out.
- EjectionHistory.SweepEjects: the base ejection time is positive, which internal/cluster/outlier.go:69-71 and the default ensure.
- Balancers.RoundRobin.Pick: the counter is unbounded, so turns at or above 2^63 are not modelled.
- Subset.KeyInjective: numbers are codes, one per double value, so that negative zero and NaN are left out; the sort by key and the number formatter are parameters.
- AlsWriter.WriterSafety: a failed send counts as not delivered; building the entry from a record, log lines and the grace timer of Close are left out.
- OtlpTemplate.TemplateMeaning: the ten extractors are the record's answers to their tokens; strings are characters rather than bytes.
- Predicate.CompileHeaders: header matchers are opaque names with a validity bit; error texts are not modelled.
- Active health checking, the random balancer, retry budgets, sockets, TLS, the HTTP/2 codec, bootstrap and listener parsing, admin handlers and stats registration are not modelled.
