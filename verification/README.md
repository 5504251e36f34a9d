# A verified model of the TCP proxy

This project models the proxy's shared-state logic in Dafny and proves properties of it over every
input and every interleaving. `dafny verify dfyconfig.toml` checks everything.

| file | models |
|---|---|
| `types.dfy` | errors, configuration records, `BackendStatus` |
| `state.dfy` | configuration ingestion, `get_pool`, `ports`, the table of target statuses (`src/state.rs`) |
| `cooldown.dfy` | the cooldown handler as a class, and its lazy expiry against a machine with a real timer |
| `races.dfy` | the same handler with load, clock reads and store as separate interleaved steps |
| `balancer.dfy` | `RoundRobinBalancer`: wrapping tickets, two passes, address loop, reports (`src/balancer/roundrobin.rs`) |
| `selection.dfy` | theorems about every `connect_backend` call |
| `effects.dfy` | a call's effect on the real handler's table; errors the wiring in `main` rules out |
| `tickets.dfy`, `modular.dfy` | fairness of start positions under counter wrap; load during a partial outage |
| `pool.dfy` | the two semaphores with the FIFO wait queue and the connections holding their permits |
| `admission.dfy` | the whole proxy as a step relation and its inductive invariant |
| `runs.dfy` | theorems over all runs: conservation, order of service, shutdown, failure propagation |
| `paths.dfy`, `overtaking.dfy` | exactly who can be served before a connection that is still waiting |
| `shutdown.dfy` | a cancelled proxy can always come down completely within the drain limit |
| `proxy.dfy` | `Semaphore` and `Proxy` classes, `accept_connection`, `listen` and `run` as methods; every atomic action is one step of `admission.dfy` |

How the outside world enters:

- The resolver, the connector, the cooldown handler as the balancer sees it, and the clock are methods
  of `Network.Environment` that return arbitrary answers after arbitrary delays and log what was asked
  and answered, in time order. A theorem about a call therefore holds whatever other connections, drains
  and the clock do while it runs; statuses are judged as they were read. An environment built with
  `Alone` instead reads statuses from, and reports to, the real cooldown handler with nobody else using
  it, and the theorems about a call's effect apply to its table.
- In `proxy.dfy` a listener's code yields between its atomic actions; `Yield` takes any number of steps
  of the other listeners, connection tasks, signals and the clock. What `accept` answers a listener, and
  how long the proxy serves before it is told to stop, are parameters. `Proxy.Valid` says that the recorded
  steps form a run of the step relation from a fresh start, so every theorem of `runs.dfy` applies to
  every state the methods reach.
- A connection is numbered when it is accepted, over all ports. After it is admitted it ends at an
  arbitrary later step; normal end, connect error, copy error and panic are the one step `EndTask`.

Results that differ from a first reading of the code or its documentation:

- "First come, first served" starts at registration with the semaphore, not at `accept`
  (`UnpolledCanBeOvertaken` is a run in which it fails). `LaterOvertakesIff` gives the exact condition: a
  live connection can be overtaken by one not accepted yet if and only if it is queued and unpolled,
  `max_connections` is not 0 and some listener can still take a socket. `OvertakenIff` says it for every
  pair of connections; from registration on only those registered earlier come first.
- A wrapping ticket counter keeps the start positions even over every window if and only if the pool size
  divides the counter range (`FairDespiteWrapsIff`); otherwise each wrap inside a window costs at most one
  (`TicketFairness`).
- The README calls a drain best effort. `DrainDurableIff` gives the exact condition: a drain lasts in
  every continuation if and only if no report on that target is between its load and a store it will
  still make.

## Model

| member | source | states |
|---|---|---|
| Configuration.IngestConfig | src/state.rs:91-115 | ingestion succeeds iff no port repeats across or within apps; then each port is served by exactly its app's targets and no other port is; on failure the error names the first repeat in scan order |
| Configuration.IndexApp | src/state.rs:98-109 | the inner loop over one app's ports extends the index or stops at the first repeat |
| Configuration.ProxyConfig.Ports | src/state.rs:65-67 | exactly the configured ports, strictly ascending |
| Configuration.ProxyConfig.PortsFrom | src/state.rs:65-67 | the configured ports from a bound on, strictly ascending |
| Configuration.TargetState.Ingest | src/state.rs:73-85 | the table has exactly the targets named anywhere, all alive with no cooldown |
| Configuration.TargetState.UpdateTargetStatus | src/state.rs:42-55 | overwrites one known target's status; an unknown target is an error and changes nothing; the domain never changes |
| Cooldown.SimpleCooldownHandler.ReportConnectionAttempt | src/balancer/simplecooldownhandler.rs:28-56 | one uninterrupted report changes the target's status as `AfterReport` says and nothing else |
| Cooldown.SimpleCooldownHandler.DrainTarget | src/balancer/simplecooldownhandler.rs:58-60 | stores Drain on a known target and nothing else |
| Cooldown.LazyRefinesEager | src/balancer/simplecooldownhandler.rs:28-60 | over every sequential run of reports, drains and passing time, the stored status read at the clock equals a machine whose 120 s timer flips cooling to up |
| CooldownRaces.UninterruptedIsSequential | src/balancer/simplecooldownhandler.rs:28-56 | the separate load, clock-read and store steps, run without interruption, add up to the sequential report |
| CooldownRaces.StoreGoesByLoad | src/balancer/simplecooldownhandler.rs:28-56 | whatever interferes, a report stores by the status it loaded and the clock it read: a failure always, with 120 s from its second read; a success clears the cell only where it had loaded a cooldown not yet over |
| CooldownRaces.LeaveGoesByLoad | src/balancer/simplecooldownhandler.rs:46-56 | a report leaves without storing only as a success that loaded no cooldown or one already over |
| CooldownRaces.UnstoredKeeps | src/balancer/simplecooldownhandler.rs:28-60 | a cell nobody stores on keeps what it holds |
| CooldownRaces.LastStoreWins | src/balancer/simplecooldownhandler.rs:28-60 | in every interleaving a cell holds what the last drain, failure or success stored there, a success over a concurrent failure included |
| CooldownRaces.ReportCanFinish | src/balancer/simplecooldownhandler.rs:28-56 | whatever the others do, a pending report can finish at once, storing exactly if it can still overwrite |
| CooldownRaces.PendingStaysBounded | src/balancer/simplecooldownhandler.rs:28-56 | in every interleaving no deadline about to be stored lies more than 120 s ahead, and the table's domain never changes |
| CooldownRaces.DeadlineHasStore | src/balancer/simplecooldownhandler.rs:33-55 | in every interleaving a stored deadline comes from an earlier failure store, at most 120 s before it |
| CooldownRaces.CoolingMeansRecentFailure | src/balancer/simplecooldownhandler.rs:33-55 | a target seen cooling had a failure stored on it less than 120 s ago |
| CooldownRaces.DrainDurableIff | src/balancer/simplecooldownhandler.rs:28-60 | a drained target stays drained in every continuation iff no pending report on it can still store |
| CooldownRaces.OverwriterUndoesDrain | src/balancer/simplecooldownhandler.rs:28-60 | a report that can still store does undo the drain in some continuation |
| CooldownRaces.LostDrainHasRacer | src/balancer/simplecooldownhandler.rs:28-60 | whenever a drain is lost, a report on the target loaded before the drain and stored after it |
| Network.Environment.GetTargetStatus | src/balancer/roundrobin.rs:82-92 | a status read is logged with the clock it is judged against, and with the real handler it is what the reports so far left |
| Network.Environment.ReportConnectionAttempt | src/balancer/roundrobin.rs:134-182 | a report reaches the handler, if there is one, with clock reads in order, and the table stays the one the log accounts for |
| Network.FaithfulSuffix | src/balancer/roundrobin.rs:82-107 | a call run alone on a table with any history sees exactly its own reports, and changes the table by them |
| RoundRobin.RoundRobinBalancer.constructor | src/balancer/roundrobin.rs:27-44 | one zero counter for exactly the configured ports |
| RoundRobin.RoundRobinBalancer.DialAddresses | src/balancer/roundrobin.rs:154-183 | addresses are dialled in order, each for at most 5 s; the first to connect wins and reports Success, else one Failure is reported |
| RoundRobin.RoundRobinBalancer.Connect | src/balancer/roundrobin.rs:129-184 | one attempt's events and outcome, for every resolver and connector answer: no address, for now or at all, is a reported failure and the next target is due; any other resolver error is fatal and unreported |
| RoundRobin.AttemptIsAnswered | src/balancer/roundrobin.rs:129-184 | what an attempt does with each answer of the resolver and of the connector, event by event |
| RoundRobin.RoundRobinBalancer.VisitTarget | src/balancer/roundrobin.rs:81-97 | a position is attempted exactly when it was observed available |
| RoundRobin.RoundRobinBalancer.VisitNext | src/balancer/roundrobin.rs:80-98 | one turn of pass one skips, defers, attempts or ends the call |
| RoundRobin.RoundRobinBalancer.FirstPass | src/balancer/roundrobin.rs:79-98 | pass one ends the call as selection demands or leaves every position visited and the deferred targets in order |
| RoundRobin.RoundRobinBalancer.SecondPass | src/balancer/roundrobin.rs:100-111 | pass two tries the deferred targets in order until one decides, else the call is exhausted |
| RoundRobin.RoundRobinBalancer.RetryNext | src/balancer/roundrobin.rs:101-107 | one turn of pass two attempts the next deferred target and ends the call unless it fails |
| RoundRobin.RoundRobinBalancer.Select | src/balancer/roundrobin.rs:79-111 | the two passes together are a selection over the rotated pool, and the log holds exactly their events |
| RoundRobin.RoundRobinBalancer.OthersDraw | src/balancer/roundrobin.rs:70-71 | whatever other calls draw meanwhile, the counters are their draws applied in order |
| RoundRobin.RoundRobinBalancer.ConnectBackend | src/balancer/roundrobin.rs:55-112 | a missing or empty pool or a missing counter fails without a ticket and without touching the world; every other call, whatever the pool's size, draws the ticket its counter stood at and advances the counter by one, others may draw later tickets, its whole event log, in time order, and its answer are a selection over the pool rotated by that ticket, and against the real handler the table is changed by the call's own reports |
| Selection.RotationIsOrder | src/balancer/roundrobin.rs:80-81 | the rotated indices visit every pool position exactly once |
| Selection.CallFollowsCandidates | src/balancer/roundrobin.rs:79-111 | attempted positions are a prefix of those observed available, in order, followed by those observed cooling, in order; the answer is the first that is ready or fatal, a failed status check, or a connection error after all of them |
| Selection.AttemptsInRotatedOrder | src/balancer/roundrobin.rs:79-111 | the attempts are the positions whose status was read as up, in rotated order, then those read as cooling, in rotated order, up to where the call ended |
| Selection.WhatEndsACall | src/balancer/roundrobin.rs:79-111 | a failed check or a fatal attempt is the last thing that happens and gives the answer; pass two starts only after the whole pool was visited; without a connection, failed check or fatal attempt the answer is a connection error after the whole pool |
| Selection.NoPositionTwice | src/balancer/roundrobin.rs:79-111 | no position is attempted twice in a call, even if its target is listed repeatedly |
| Selection.ExhaustionIsComplete | src/balancer/roundrobin.rs:79-111 | on exhaustion every position was either observed drained and left alone, or attempted once and reported as a failure |
| Selection.OneReportPerAttempt | src/balancer/roundrobin.rs:129-184 | a completed attempt reports once, last, and Success iff ready; a fatal attempt, and one cut off anywhere before its end, reports nothing |
| Selection.OneReportPerCallAttempt | src/balancer/roundrobin.rs:80-107 | over a whole call the reports are the attempts' reports, one each, in order |
| Selection.CallWithinBudget | src/balancer/roundrobin.rs:129-184 | a call waits at most the lookup times plus 5 s per returned address, summed over its attempts |
| Effects.JudgeMatchesHealth | src/balancer/roundrobin.rs:83-92 | the balancer's expiry check agrees with the timer's view of a status |
| Effects.EffectOnOthers | src/balancer/roundrobin.rs:80-107 | run sequentially with the real handler, a target other than the connected one ends at its last failure instant + 120 s if an attempt on it failed, else unchanged |
| Effects.EffectOnConnected | src/balancer/roundrobin.rs:156-159 | the target connected to is not cooling at any instant from the end of the call on |
| Effects.EffectOfExhaustion | src/balancer/roundrobin.rs:100-111 | after exhaustion every pool target that is not drained cools until its last failure instant + 120 s; drained ones stay drained |
| Effects.DrainedNotAttempted | src/balancer/roundrobin.rs:83-84 | run sequentially, a drained target is never attempted |
| Effects.InternalErrorsUnreachable | src/main.rs:84-107 | with config, counters and table from one configuration, no interleaving makes a status check fail or a counter be missing |
| Tickets.TicketsAreConsecutive | src/balancer/roundrobin.rs:56-77 | however calls interleave, the counter of a port with targets advances by exactly its own calls, modulo 2^64, and that of a port without any stays |
| Tickets.TicketFairness | src/balancer/roundrobin.rs:70-71 | over any window of consecutive tickets two positions' start counts differ by at most 1 + the wraps inside the window |
| Tickets.FairDespiteWraps | src/balancer/roundrobin.rs:70-71 | they differ by at most 1 when the pool size divides the counter range |
| Tickets.FairDespiteWrapsIff | src/balancer/roundrobin.rs:70-71 | they differ by at most 1 over every window if and only if the pool size divides the counter range |
| Tickets.StartsAroundWrap | src/balancer/roundrobin.rs:70-71 | otherwise the window of twice the remainder around a wrap starts twice at the first positions and never at the others |
| Tickets.ConnectsAtFirstUp | src/balancer/roundrobin.rs:79-98 | with fixed target behaviour a call connects at the first position, in its order, that is up |
| Tickets.LandingIff | src/balancer/roundrobin.rs:79-98 | a start lands on a position exactly from that position or from the outage just before it |
| Tickets.LoadShape | src/balancer/roundrobin.rs:70-98 | over len consecutive starts a position that is up is landed on 1 + (length of the outage before it) times, others never |
| Tickets.CallLoadShape | src/balancer/roundrobin.rs:70-98 | the same count for the positions real calls connect through, and every such call connects |
| ConnectionPool.DropKeeps | src/proxy.rs:217-241 | ending or aborting a connection in any stage gives back exactly what it held |
| ConnectionPool.LiveBound | src/proxy.rs:217-241 | unfinished connections never exceed max_connections + max_queue |
| ConnectionPool.PermitGoesToNextWaiter | src/proxy.rs:228-241 | a permit given back while others wait, by an end or an abort, is the longest waiter's at once |
| ConnectionPool.EmptyIsRestored | src/proxy.rs:217-241 | with no connection left both semaphores are at their initial counts |
| Admission.StepKeepsInv | src/proxy.rs:106-244 | the system invariant is kept by every step of every listener, connection, signal, the clock and the join loop |
| AdmissionRuns.PermitsConserved | src/proxy.rs:217-243 | in every reachable state permits and slots are free or held, with exact totals, and a registered waiter means no free permit |
| AdmissionRuns.JoinSetBounded | src/proxy.rs:123-152 | a listener's join set, finished entries included, never exceeds max_connections + max_queue + 1 |
| AdmissionRuns.NoOvertaking | src/proxy.rs:217-239 | once registered, a connection is served before anyone not ahead of it in the queue and not already holding a permit, on any port, unless it is aborted |
| AdmissionRuns.LaterAcceptedWaits | src/proxy.rs:217-239 | in particular before anyone accepted later |
| Overtaking.OvertakenIff | src/proxy.rs:217-239 | exactly who can be served before a live connection that is not aborted: while it is unpolled, anybody live, in a listener's hands (for the queue, with a second slot) or yet to be accepted; once it waits, only those ahead of it; nobody once it holds a permit |
| Overtaking.LaterOvertakesIff | src/proxy.rs:217-239 | in a reachable state a live connection can be overtaken by one accepted later exactly when it is unpolled, the pool has room at all and some listener can still take a socket |
| Overtaking.ServeLater | src/proxy.rs:217-239 | for any such state and any later number, a run that serves that connection while the unpolled one stays as it is |
| AdmissionRuns.UnpolledCanBeOvertaken | src/proxy.rs:228-239 | a run in which a queued, unpolled connection is overtaken by a later one on another port |
| AdmissionRuns.AfterAcceptLoop | src/proxy.rs:160-175 | out of its accept loop a listener never accepts or spawns again, its set and live connections only shrink, it keeps deadline and outcome, and past the deadline it is gone |
| AdmissionRuns.DrainEndsDoneOrDue | src/proxy.rs:168-175 | a drain ends before its deadline only with no connection of the listener left |
| AdmissionRuns.DrainGivesTenSeconds | src/proxy.rs:168-175 | connections left over when a listener returns are aborted no sooner than the full 10 s after it left its accept loop |
| AdmissionRuns.HowConnectionsGo | src/proxy.rs:165-243 | a connection goes only by ending, once active, or by an abort, once its listener is gone |
| AdmissionRuns.GoneWithinTheLimit | src/proxy.rs:168-175 | with timers firing on time, a listener is gone once more than 10 s have passed since it left its accept loop |
| AdmissionRuns.DrainConsumesMeasure | src/proxy.rs:168-174 | time passed and entries joined during a drain are paid out of (time left + entries left), which stays non-negative |
| AdmissionRuns.TimeNeverStuck | src/proxy.rs:169-174 | in every reachable state time can pass or some drain can time out |
| Shutdown.ShutdownCompletes | src/proxy.rs:160-175 | from every reachable state with the token cancelled there is a run, letting at most 10 s pass and needing no step of any connection, after which all listeners are joined, no connection is left and both semaphores are whole |
| AdmissionRuns.ShutdownRestores | src/proxy.rs:160-175 | with all listeners gone connections only disappear, and with the last one both semaphores are whole |
| AdmissionRuns.AbortsEmptyThePool | src/proxy.rs:171-175 | one abort per remaining connection is always possible and empties the pool |
| AdmissionRuns.DrainingMeansCancelled | src/proxy.rs:160-168 | a listener drains or has returned only with the token cancelled; a permanent accept error cancels it first |
| AdmissionRuns.CancellationSticks | src/proxy.rs:83-96 | a signal, a permanent accept error, or joining a listener that returned an error or panicked cancels the token for good, and every listener waiting in accept may then leave |
| AdmissionRuns.FirstErrorIs | src/proxy.rs:79-102 | the kept error is what the first listener in join order that did not return Ok returned, or a task cancellation if it panicked |
| AdmissionRuns.RunResult | src/proxy.rs:79-102 | when the join loop is over every listener has returned or panicked, the result is Ok iff all returned Ok, and else it is what the first failed one in join order returned, or a task cancellation if that one panicked, with the token cancelled |
| ProxyServer.Semaphore.Release | src/proxy.rs:218-235 | a returned permit goes to the head of the wait queue or becomes free |
| ProxyServer.Proxy.PlaceSocket | src/proxy.rs:217-243 | a socket gets a task that is active and holds a permit iff one is free at the first attempt, else a task that waits and holds a slot iff one is free at the second, else no task; nothing else changes |
| ProxyServer.Proxy.AcceptConnection | src/proxy.rs:186-244 | refused, reset and aborted accepts are retried, any other error is permanent, a socket is placed |
| ProxyServer.Proxy.Reap | src/proxy.rs:127-132 | the clean-up loop removes exactly the finished entries |
| ProxyServer.Proxy.PollQueued | src/proxy.rs:231-235 | the first poll of a queued connection takes a free permit, or registers it behind all others |
| ProxyServer.Proxy.ResumeHanded | src/proxy.rs:235-236 | a connection handed a permit gives its queue slot back and is active |
| ProxyServer.Proxy.DropQueued | src/proxy.rs:231-241 | dropping a connection without a permit frees its slot and its place in the queue, the others keeping their order |
| ProxyServer.Proxy.DropServed | src/proxy.rs:217-241 | dropping a connection with a permit hands that to the longest waiter or frees it, and frees the slot if it still had one |
| ProxyServer.Proxy.LeaveAcceptLoop | src/proxy.rs:153-170 | a listener leaves its accept loop under a cancelled token, cancelling it itself on an error, with a deadline 10 s ahead |
| ProxyServer.Proxy.JoinListenerTask | src/proxy.rs:80-97 | joining a listener that failed or panicked cancels the token |
| ProxyServer.Proxy.AcceptRound | src/proxy.rs:122-161 | one round goes on after a socket or a transient error, and otherwise starts a 10 s drain under a cancelled token, with Ok if cancellation won and with the permanent error else |
| ProxyServer.Proxy.AcceptLoop | src/proxy.rs:121-163 | for every sequence of accept answers: exactly those taken were accepted, the loop survives all but a last permanent error, and leaves into a drain of 10 s with the token cancelled |
| ProxyServer.Proxy.DrainLoop | src/proxy.rs:169-175 | the drain always ends, at its deadline or before it with none of the listener's connections left, returns the accept loop's outcome and drops the set |
| ProxyServer.Proxy.Listen | src/proxy.rs:106-176 | a listener's life is a run of the relation; it accepts exactly the answers taken and ends with an empty set, the token cancelled and the outcome those answers call for |
| ProxyServer.Proxy.JoinNext | src/proxy.rs:80-97 | joining one listener keeps the error at the first failed in join order |
| ProxyServer.Proxy.JoinListeners | src/proxy.rs:79-102 | returns, and only after every listener has been joined; Ok iff all returned Ok, else what the first failed one in join order failed with |
| ProxyServer.Run | src/proxy.rs:55-102 | ports are bound in ascending order; the first bind failure is returned, an I/O error as a bind error for that port and any other as it is, with no listener ever spawned; otherwise one listener per port runs over semaphores with the caller's two capacities, all are joined, and the result is that of the join loop |

## Left out

- ProxyServer.Proxy.Listen: describes a life that ends, that is after finitely many accept answers; one that is never cancelled is covered by the theorems over runs.
- ProxyServer.Proxy.JoinListeners: the same; a termination signal comes after the given number of rounds.
- Selection.CallWithinBudget: counts the time spent awaiting lookups and connects; scheduling delay between awaits is not bounded.
- AdmissionRuns.GoneWithinTheLimit: rests on timers firing on time, that is on the clock not passing a draining listener's deadline before that listener acts; `Shutdown.ShutdownCompletes` shows that this never blocks a shutdown.
- Cooldown.SimpleCooldownHandler.ReportConnectionAttempt: the two clock reads are parameters; interleaving is modelled in `races.dfy`.
- Socket I/O, byte copying, half-close, TCP options: library behaviour.
- Host and port parsing and DNS in `src/network/tokio.rs`: the resolver is an arbitrary answer of addresses or an error.
- Tokio itself: a FIFO counting semaphore, a join set whose drop aborts what is left, and `select!` choosing any ready branch are taken as given; giving back a permit and finishing are one step.
- The semaphore-closed branch at `src/proxy.rs:232-234`: nothing closes the semaphores.
- Command line, signals beyond "the token is cancelled", JSON loading, logging and message texts: error variants keep only the fields that matter.
- ArcSwap memory management: a status cell is an atomic load and an atomic store.
