# BCMP queueing network: routing model and product-form probabilities

This project models the core of a call-centre queueing network. Clients with a
`normal`, `medium` or `complicated` issue move between three departments:

- a processor-sharing (PS) department;
- a first-in-first-out (FIFO) department;
- a last-in-first-out-with-priorities (LIFOPR) department.

A conversion of issue type raises the client's priority by 5. Next to the simulation
sit the analytic formulas of a BCMP (Baskett–Chandy–Muntz–Palacios) network:

- per-station marginal probabilities `pi_i(k)`;
- the set of states with at most `max_clients` clients;
- the product-form joint probability;
- two scripts that compute the probability of one state of the three-department network.

Modules:

- `Common`: option and result types, sums.
- `RealMath`: powers and factorials.
- `Stats`: the `Results` collector.
- `Consultants`: the consultant record, the roster scan and the break rule.
- `PriorityPick`: the LIFOPR sort-then-pop rule.
- `Network`: network.py with the scheduler taken out. Time, service samples and the drawn routing index are parameters.
- `NetworkOld`: the earlier draft, network_old.py.
- `StateSpace`: `generate_valid_states`.
- `ProductForm`: `compute_state_probabilities`.
- `BalanceSystem`: what propability_function.py and trials.py share. This covers the unpacking of the routing vectors, the 5-node traffic equations `A * e = b` and the three-node product.
- `CoxStateProbability`: propability_function.py.
- `TrialsStateProbability`: trials.py.

In the analytic modules (`StateSpace`, `ProductForm`, `BalanceSystem`, `CoxStateProbability` and `TrialsStateProbability`), Python exceptions become `Failure` values of a `Result`:

- `ZeroDivisionError`;
- `ValueError` from unpacking or an unsupported station type;
- `KeyError`;
- `IndexError`.

The error carried is the first one the Python code would raise. The simulation modules (`Network`, `NetworkOld`) take service times as parameters, so the errors of the service-time draws are not modelled (see "Left out").

Where the code does something other than what its comments or docstrings say, the model follows the code:

- `_register_processed_clients` appends the series length plus one, so the processed count reads 0, 2, 3, ... (`Stats.ProcessedSeriesAfter`).
- A consultant's break does not keep the consultant busy. In network.py `_take_break` runs as a separate process after `busy` is cleared. In network_old.py it is a generator call that never runs, so no break time accrues at all.
- The LIFOPR rule sorts highest priority first and pops the last element. It therefore serves the LOWEST priority, and the last such client in queue order.
- Each PS round draws a fresh Cox sample for every client. Service left over from the previous round is not carried forward. A round grants `min(1/n, sample)` per client, so it takes at most one time unit in total.
- In network_old.py the actions `convert_to_medium` and `stay_medium` call `DepartmentIS._process_clients`, a generator that is never driven. The client is changed but admitted nowhere.
- propability_function.py replaces every rate by its reciprocal before dividing, so each utilisation is flow TIMES rate. trials.py divides by its fixed rates (24, 32, 48, 20, 44) and ignores its `service_rates` argument.

## Model

| member | source | states |
|---|---|---|
| Stats.NewResults | network.py:7-12 | a new collector holds the single sample 0 in each of its four series, and the series are paired |
| Stats.RegisterQueueChange | network.py:74-76 | exactly one (size, time) sample is appended to the queue series; the processed series are untouched; pairing is preserved |
| Stats.RegisterProcessed | network.py:70-72 | the value appended is the series length plus one, together with the current time; the queue series are untouched |
| Stats.ProcessedSeriesAfter | network.py:70-72 | after n registrations on a fresh collector the processed series is [0, 2, 3, ..., n + 1] and its times are 0 followed by the registration times |
| Consultants.CreateConsultants | network.py:49-54 | n consultants numbered 1..n, all idle with zeroed counters, owned by the department |
| Consultants.FirstAvailable | network.py:62-68 | returns the first idle consultant in roster order, and None exactly when every consultant is busy |
| Consultants.BreakLength | network.py:207 | the break is max(previous call / 3, 1): at least 1, at least a third of the call, and equal to one of the two |
| Consultants.StartBreak | network.py:205-207 | only the break duration changes, to the break length of the previous call |
| Consultants.EndBreak | network.py:210-211 | only the break total changes, by the current break duration |
| Consultants.WholeBreak | network.py:205-211 | a whole break adds max(previous / 3, 1), hence at least 1, to the break total and leaves busy flag and call count alone |
| PriorityPick.PickNextLowestPriority | network.py:156-158 | sort-descending-then-pop yields a client of minimal priority, namely the last of that priority in queue order, and leaves the rest sorted; the sort being stable, the rest followed by the chosen client keeps every priority's clients in their queue order |
| PriorityPick.PickNext | network.py:157-158 | the chosen client and the remaining list together are a permutation of the waiting list, one shorter |
| PriorityPick.SortDesc | network.py:157 | `sort(key=..., reverse=True)` returns a permutation sorted highest key first, and it is stable: the elements of each key keep their order |
| Network.NewClient | network.py:15-25 | a new client has priority 0, no department, empty history and wait list, and its wait clock at the arrival time |
| Network.NewDepartment | network.py:28-54 | a new department holds no clients, has n consultants with the first free, and paired statistics |
| Network.AddClient | network.py:56-60 | the client is stamped with the department name and appended; FIFO/LIFOPR also record the new queue length (the PS override at lines 123-126 records nothing); tagging and pairing are preserved |
| Network.Outcomes | network.py:242-271 | the exact outcome list, in the order the routing weights pair with, for PS normal/medium/complicated, FIFO and LIFOPR; no outcomes for any other pair; stay actions only from PS, convert_to_normal only from FIFO, quit from PS-normal, FIFO and LIFOPR |
| Network.ProcessAction | network.py:278-301 | conversions set the issue, append it to the history and add 5 to the priority; stay actions keep both; quit changes nothing; otherwise the client lands at the tail of exactly the destination department and the other two are unchanged; bookkeeping is preserved |
| Network.FirstArrival | network.py:230-240 | priority 10/5/1 for complicated/medium/normal, any other type keeps its priority; the client enters PS only |
| Network.ClientArrival | network.py:303-313 | the new client's history is its issue type, its priority the starting one, and it is appended to PS |
| Network.RouteClient | network.py:242-271 | a client with no outcome list stays put; otherwise the drawn action is processed |
| Network.ArrivalIsConsistent | network.py:303-313 | a new client satisfies the run invariant: priority = starting priority + 5 per later history entry, and the last history entry is the issue type |
| Network.RouteClientKeepsConsistent | network.py:278-299 | one routing step keeps the run invariant and either leaves priority and history alone or adds 5 together with exactly one history entry |
| Network.BeginCall | network.py:186-193 | the consultant turns busy and counts the call; the client logs the time since its last wait |
| Network.EndCall | network.py:198-203 | the call time is added and remembered, the client's wait clock restarts at the completion time, the consultant is free at once |
| Network.HandleCall | network.py:186-203 | a whole call adds one to the call count and the service time to the call total, leaves the break fields and the client's routing fields alone |
| Network.BusyConsultantNotChosen | network.py:62-68 | while its call is in progress a consultant cannot be handed out by the roster scan |
| Network.CompleteService | network.py:138-145 | after a served client only consultant k changes (call counters, then break start); one processed and one queue-size sample are recorded at the completion time |
| Network.FifoTake | network.py:132-136 | the FIFO loop takes the queue head; the rest of the queue is unchanged |
| Network.LifoprTake | network.py:153-158 | the LIFOPR loop takes a lowest-priority client, the last such in queue order; the rest is a permutation of the others, sorted highest first, with clients of equal priority in their queue order |
| Network.TakeKeepsTagged | network.py:132-158 | either take rule keeps every held client tagged with the department, and the client taken names it too |
| Network.JourneyKeepsConsistent | network.py:278-299 | any sequence of services and routing steps keeps the run invariant and never lowers the priority |
| Network.RunInvariant | network.py:303-313 | from arrival on, the priority equals the starting priority of the first issue plus 5 per conversion, the first history entry is the arrival issue and the last is the current one |
| Network.HistoryHeadFixed | network.py:278-299 | routing only appends to the history, so its first entry never changes |
| Network.PsRound | network.py:94-121 | one PS round with slice 1/n grants min(slice, sample) to each client in turn, removes exactly the clients whose remaining time is no longer positive (each with its wait clock at its slice end), records their statistics, and waits when no consultant is free |
| Network.PsPass | network.py:101-118 | the pass over a snapshot of n clients with a fixed slice advances the clock by the sum of the granted allocations, keeps exactly the clients whose sample exceeds the slice and records the finished ones in order |
| Network.AllocationsWithinSlice | network.py:98-106 | each client's grant is min(slice, sample): never more than a slice, and the whole sample when it fits |
| Network.RoundTakesAtMostOneUnit | network.py:98-110 | a PS round of n clients takes at most n slices of 1/n, one time unit |
| Network.RemainingTest | network.py:105-112 | the code's test remaining <= 0 is the test sample <= slice |
| Network.PsRoundKeepsExactlyTheUnfinished | network.py:101-118 | a client stays in the active set iff its sample exceeded the slice, and kept plus finished clients number the snapshot |
| NetworkOld.AddClient | network_old.py:39-42 | the client is stamped with the department name and appended to the queue, without statistics |
| NetworkOld.FirstArrival | network_old.py:180-190 | priority 10/5/1 by issue type (others keep theirs) and the client enters the FIFO department |
| NetworkOld.ClientArrival | network_old.py:248-257 | a new client with the starting priority appended to the FIFO queue |
| NetworkOld.Outcomes | network_old.py:192-221 | the draft's outcome lists are the later ones with FIFO as entry department and "is" as the secondary one; PS and unknown departments route nothing |
| NetworkOld.ProcessAction | network_old.py:226-246 | conversions add 5 and set the issue; the two IS-bound actions change the client but leave the network untouched and the department name stale; LIFOPR- and FIFO-bound actions append to that queue |
| NetworkOld.RouteClient | network_old.py:192-221 | a client with no outcome list stays put; otherwise the drawn action is processed |
| NetworkOld.IsBoundClientsVanish | network_old.py:232-244 | a client sent to the IS department is admitted nowhere and ends up medium |
| NetworkOld.RoutePriority | network_old.py:226-246 | routing raises the priority by 5 or not at all |
| NetworkOld.HandleCall | network_old.py:140-154 | a call is counted and timed, the consultant is free afterwards, the break fields never move |
| NetworkOld.BreaksNeverAccrue | network_old.py:140-162 | however many calls a fresh consultant handles, its break time stays 0 while the call count and call time add up |
| NetworkOld.LifoprTake | network_old.py:107-112 | the LIFOPR pick of the draft: a lowest-priority client, the last such, with the rest a sorted permutation keeping equal priorities in queue order |
| StateSpace.InProduct | theoretical_funcitions.py:71 | product(range(max + 1), repeat=n) yields exactly the n-tuples with entries in 0..max |
| StateSpace.InWithinTotal | theoretical_funcitions.py:72-73 | the filter keeps exactly the tuples whose total is within the bound |
| StateSpace.ValidStates | theoretical_funcitions.py:65-74 | a tuple is generated iff it has n entries and total at most max_clients; the states come in strictly increasing lexicographic order, each exactly once |
| ProductForm.ServerDivisor | theoretical_funcitions.py:27 | the server factor is m exactly for a FIFO station with m > 1, otherwise 1 |
| ProductForm.ClassUtilisation | theoretical_funcitions.py:26-28 | rho_ir times mu times the server factor is lambda_r times e_ir; a zero rate raises ZeroDivisionError |
| ProductForm.UtilisationRow | theoretical_funcitions.py:24-30 | one class's row raises iff some station rate is zero; otherwise it holds one class utilisation per station |
| ProductForm.UtilisationMatrix | theoretical_funcitions.py:24-32 | rho_ir raises iff there is a class and a zero rate; otherwise one row per class, one entry per station |
| ProductForm.StationLoads | theoretical_funcitions.py:33 | rho_i is the sum over classes of column i |
| ProductForm.LoadBoundsShares | theoretical_funcitions.py:33 | with non-negative shares a station's load is at least each class's share |
| ProductForm.Normalisation | theoretical_funcitions.py:51-53 | the multi-server constant raises iff rho = 1, otherwise it is the sum of the m lower terms plus the m-th term over (1 - rho) |
| ProductForm.Marginal | theoretical_funcitions.py:36-62 | unsupported types raise ValueError, single-server stations always succeed, a multi-server FIFO station with rho = 1 raises ZeroDivisionError |
| ProductForm.MultiServerMarginal | theoretical_funcitions.py:47-60 | the multi-server FIFO marginal raises nothing but ZeroDivisionError: always at load exactly 1, never for a load in [0, 1) |
| ProductForm.FaultIndependentOfK | theoretical_funcitions.py:44-62 | whether pi_i_ki raises, and with which error, does not depend on k |
| ProductForm.ServerCountIgnoredOutsideFifo | theoretical_funcitions.py:44-46 | PS and LIFOPR stations are computed as single-server FIFO whatever their m |
| ProductForm.BoundaryAgreement | theoretical_funcitions.py:54-60 | the two multi-server formulas agree at k = m |
| ProductForm.LowerStep | theoretical_funcitions.py:54 | below m, term(k + 1) (k + 1) = m rho term(k) |
| ProductForm.UpperStep | theoretical_funcitions.py:60 | from m on, term(k + 1) = rho term(k) |
| ProductForm.NormalisationBounds | theoretical_funcitions.py:51-53 | for 0 <= rho < 1 the constant is at least 1 and at least each of its terms |
| ProductForm.SingleServerMass | theoretical_funcitions.py:44-46 | for single-server stations pi(0) + ... + pi(K - 1) = 1 - rho^K |
| ProductForm.MultiServerMassBelow | theoretical_funcitions.py:47-54 | below the server count the partial mass is the partial lower sum over the constant |
| ProductForm.MultiServerNormalised | theoretical_funcitions.py:47-60 | the multi-server marginals below m plus the geometric tail pi(m) / (1 - rho) add up to exactly 1 |
| ProductForm.MultiServerTail | theoretical_funcitions.py:55-60 | from m on the multi-server marginals fall geometrically: pi(m + j) = pi(m) rho^j |
| ProductForm.BirthDeathBalance | theoretical_funcitions.py:44-60 | every defined station satisfies local balance pi(k + 1) min(k + 1, c) = pi(k) c rho, c its server count |
| ProductForm.SingleServerBalance | theoretical_funcitions.py:44-46 | for a single-server station pi(k + 1) = pi(k) rho, one busy server out of one |
| ProductForm.MultiServerBalance | theoretical_funcitions.py:47-60 | for a multi-server FIFO station pi(k + 1) min(k + 1, m) = pi(k) m rho, below, at and above the server count |
| ProductForm.MarginalIsProbability | theoretical_funcitions.py:36-62 | for 0 <= rho < 1 every supported station yields a value in [0, 1] |
| ProductForm.SingleServerExample | theoretical_funcitions.py:24-46 | lambda 2, visits 1, mu 5 give load 0.4, pi(0) = 0.6 and pi(1) = 0.24 |
| ProductForm.Times | theoretical_funcitions.py:83 | the product of two factors fails iff one does, with the left factor's error first |
| ProductForm.Product | theoretical_funcitions.py:81-83 | the running product succeeds iff every factor does; otherwise its error is that of the first failing factor |
| ProductForm.ProductIsProbability | theoretical_funcitions.py:81-83 | a product of probabilities is a probability |
| ProductForm.StationMarginals | theoretical_funcitions.py:82-83 | factor i is pi_i_ki(k_i, i) |
| ProductForm.StationFaults | theoretical_funcitions.py:82-83 | a station's factor fails iff its k = 0 marginal does, with the same error |
| ProductForm.JointProbability | theoretical_funcitions.py:80-84 | the joint value exists iff no station raises, otherwise the first raising station's error |
| ProductForm.JointIsProbability | theoretical_funcitions.py:80-84 | with loads in [0, 1) and supported stations the joint value is a probability |
| ProductForm.Tabulate | theoretical_funcitions.py:79-84 | the dict has exactly the states as keys and each value is that state's joint probability; it raises iff some state exists and some station raises |
| ProductForm.ComputeStateProbabilities | theoretical_funcitions.py:5-86 | a zero rate raises ZeroDivisionError; otherwise the keys are exactly the valid states and each value is that state's product form, unless the first raising station decides the error |
| ProductForm.TableKeys | theoretical_funcitions.py:65-84 | a tuple is a key iff it has one entry per station and total at most max_clients |
| ProductForm.EmptyStateValid | theoretical_funcitions.py:65-74 | for max_clients >= 0 at least one state (the empty one) is generated |
| ProductForm.TableOfProbabilities | theoretical_funcitions.py:5-86 | with supported stations and loads in [0, 1) the table is computed and every entry is in [0, 1] |
| BalanceSystem.Unpack | propability_function.py:6-13 | unpacking succeeds iff the five vectors have lengths 3, 2, 2, 3, 2; otherwise ValueError names the first vector of wrong length |
| BalanceSystem.UnpackRoundTrip | propability_function.py:6-13 | unpacking is a bijection between routing records and well-sized vectors |
| BalanceSystem.BalanceEquations | propability_function.py:38-48 | e solves A e = b iff e_12 = e_13 = 1, e_11 = 1 + P_22_11 e_22, and e_22, e_33 equal their routed inflows |
| BalanceSystem.ExitProbabilitiesUnused | propability_function.py:38-46 | the exit probabilities P_11_0, P_22_0, P_33_0 do not enter A |
| BalanceSystem.ThreeNodeProduct | propability_function.py:58-62 | the product fails iff the state has fewer than three entries (IndexError) |
| BalanceSystem.EmptyNetwork | propability_function.py:58-62 | the empty state has probability (1 - p_1)(1 - p_2)(1 - p_3) |
| BalanceSystem.AgreesWithGeneralProductForm | propability_function.py:58-62 | the three-node product equals the general product form for three single-server PS stations |
| BalanceSystem.ThreeNodeIsProbability | propability_function.py:58-62 | with utilisations in [0, 1) the three-node product is a probability |
| CoxStateProbability.ZipLength | propability_function.py:17 | zip yields as many pairs as the shorter list |
| CoxStateProbability.WeightedTime | propability_function.py:17 | the sum raises ZeroDivisionError iff some zipped rate is zero |
| CoxStateProbability.WeightedTimeIsMixtureMean | propability_function.py:15-17 | with no zero rate the sum is the mixture mean, the sum of weight / rate |
| CoxStateProbability.ZipIgnoresSurplus | propability_function.py:17 | entries past the shorter list never change the expected time |
| CoxStateProbability.EffectiveServiceRate | propability_function.py:15-19 | the rate times the expected service time is 1; it raises iff some rate or the expected time is zero |
| CoxStateProbability.TwoPhaseExample | propability_function.py:15-19 | weights 0.8, 0.2 on rates 4, 2 give expected time 0.3 and rate 10/3 |
| CoxStateProbability.ProfileRate | propability_function.py:26-28 | the lookups of phases, rates, weights raise KeyError in that order; with all three keys present, exactly `calculate_effective_service_rate(rates, weights)`, value or error, and never zero |
| CoxStateProbability.PhasesIgnored | propability_function.py:15-28 | the value stored under "phases" never changes the rate |
| CoxStateProbability.ReciprocalUtilisations | propability_function.py:30-56 | dividing by reciprocal rates makes p_1 = lambda (e_11 mu_11 + e_12 mu_12 + e_13 mu_13), p_2 = lambda e_22 mu_22, p_3 = lambda e_33 mu_33 |
| CoxStateProbability.StateProbability | propability_function.py:4-63 | succeeds iff the vectors unpack, the profiles are present and usable, both service rates unpack and are non-zero, and the arrival and state lists are long enough; each failure carries the first error in source order |
| CoxStateProbability.StateProbabilityValue | propability_function.py:50-62 | under the balance equations the answer is the three-node product with p_1 = lambda (e_11 mu_11 + mu_12 + mu_13), p_2 = lambda e_22 mu_22, p_3 = lambda e_33 mu_33, using only the first arrival rate |
| CoxStateProbability.StateProbabilityBounded | propability_function.py:54-62 | with utilisations in [0, 1) the answer is a probability |
| TrialsStateProbability.StateProbability | trials.py:4-44 | succeeds iff the vectors unpack and the arrival and state lists are long enough; each failure carries the first error in source order |
| TrialsStateProbability.ServiceRatesIgnored | trials.py:15-16 | the service_rates argument never changes the answer |
| TrialsStateProbability.StateProbabilityValue | trials.py:29-43 | under the balance equations the answer is the three-node product with p_1 = lambda (e_11 / 24 + 1 / 32 + 1 / 48), p_2 = lambda e_22 / 20, p_3 = lambda e_33 / 44 |
| TrialsStateProbability.ConventionsAgree | trials.py:35-37 | the reciprocal-rate utilisations of the Cox variant, fed the reciprocals of the fixed rates, are exactly the fixed-rate utilisations |
| TrialsStateProbability.StateProbabilityBounded | trials.py:35-43 | with utilisations in [0, 1) the answer is a probability |

## Left out

- The simpy scheduler is not modelled. This covers timeouts, `env.process`, the infinite `_process_clients` loops and the 0.1 polling retry of `_get_available_consultant`. Each step is a pure function of the current time, and a scan finding nobody free returns None.
- Random draws are not modelled: the Cox phase choice and exponential sample, exponential service times, and `random.choice` of the issue type. Samples are parameters. For `random.choices` only the drawn index is a parameter; the routing weights themselves are not modelled.
- `numpy.linalg.solve` is not modelled. The visit ratios `e` are an input that satisfies `A e = b` whenever the routing vectors unpack. A singular matrix (`LinAlgError`) is not modelled.
- Floating point is not modelled: every quantity is an exact real.
- The service-time draws of the simulation are parameters. The `processing_time[...]` lookups (network.py:191, network_old.py:145, and the Cox parameters at network.py:86-89) and the `1 / rate` divisions (network.py:92, 191; network_old.py:145) are not modelled, so neither are the KeyError and ZeroDivisionError they can raise.
- `print`/logging, consultant and client names, and the plain setters `_fill_processing_time`, `_init_route` and `_fill_propabilities` are left out.
- `generate_clients` is left out: it only spawns arrivals at a fixed spacing.
- network_old.py's `DepartmentIS._simulate_processing` and `_reroute_or_remove_client` are left out. They are reachable only through a generator that is never driven.
- network_old.py's FIFO and LIFOPR loops start the call and the routing as concurrent processes. That interleaving is not modelled; each of the two steps is modelled separately.
- simulation.py and GUI.py are not part of this model.
- The worked example at the end of theoretical_funcitions.py (three classes, three stations) is not evaluated. The single-station case is in `ProductForm.SingleServerExample`.
- ProductForm.ComputeStateProbabilities: requires the visit matrix and the server-count and type lists to be at least as long as the lists they are indexed by. The `IndexError` the source raises otherwise is not modelled.
- ProductForm.Marginal: the occupancy is a `nat`. A negative Python integer would give `rho ** k` with a negative exponent, which is not modelled.
- CoxStateProbability.StateProbability: the state entries are `nat`, for the same reason. The rates and weights are reals, whereas the source would accept any numbers.
- TrialsStateProbability.StateProbability: the state entries are `nat`, as above.
- Network.PsRound: decides once, at the start of the round, whether a consultant is free. This is equivalent to the per-client scan because PS consultants are released after every slice and serve nobody else.
