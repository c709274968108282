# Verified model of the QKD key lifecycle

The repository keys a cloud external key manager (EKM) and a WireGuard VPN with quantum-distributed keys. It carries a
lifecycle *reference model* that is enumerated exhaustively for one tiny instance, and the *services* themselves. This
project models both in Dafny and proves, for all sizes, readings, runs and interleavings, what the repository counts,
samples or promises.

Files, in reading order:

- **Reference model.** `Lifecycle`, `ModelState`, `Events` and `Checks` transcribe the state, the 25 rule knobs, the
  transition relation and the properties I1-I9 and G1-G4; the identifiers, versions and the highest epoch are
  parameters. `EnabledEdges` is the imperative generator of edges, `Enumeration` the breadth-first search, `Runs`
  reachability. `Safety`, `NoReplay`, `Recoverability`, `Reachability`, `ShortestRuns`, `StateSpace`, `Census`,
  `EdgeCensus`, `Transitions`, `PublishedEdges` and `SearchResults` hold the theorems. `History`, `Modes` and `Knobs` say
  what each event does, which mode follows, and what each knob asks, over whole runs and for every reading; `Seeded` what
  each check detects. `FiniteSets` and `FiniteSums` hold facts about finite sets and sums over them.
- **Live EKM.** `Aead` (ideal authenticated encryption: a blob opens under exactly its key and associated data),
  `EkmStore`, `KeyPools` and `EkmService` are the classes and the functions that specify them. `EkmRuns` interleaves any
  number of pullers, evictions, requests cut short between commits, and restarts. `EkmUnits`, `EkmRoundTrip`,
  `EkmNames`, `EkmPools` and `EkmAnswers` hold the theorems.
- **Key delivery.** `QkdSim` and `QkdKeys`: the simulated key delivery entity, with the delivery methods "Get key" and "Get key with
  key IDs" of ETSI GS QKD 014.
- **VPN.** `VpnServer` and `ClientCli` are the two ends, `VpnRuns` and `VpnRecords` the server's own
  runs, `KeyAgreement` the interleaving of clients, server and key delivery entity, `KeyAgreementProof` the agreement on
  keys and `KeyAgreementAddress` that on addresses.
- **Transcripts.** `Transcripts`, `Redaction` and `LogLines`: matching against the expected events, the stable merge, and
  what a line says.

Assumptions, all visible as parameters or in a `Possible` predicate: the QKD source never repeats an identifier and
returns at most what was asked for; `/new` of the EKM hands the VPN server issued identifiers it has not handed out
before, and nobody but the client it was announced to retrieves an identifier the server has been handed; commits are
atomic; WireGuard either takes a peer's configuration or refuses it unchanged; a client's public key is its own;
redaction leaves the component name of a line alone. Clocks, nonces, random identifiers and the answers of other
processes are parameters.

Three places where the code does not do what the text around it says, each settled exactly:

- `scripts/model_calibrate.py` says the edge knobs never change which states are reachable. That holds if and only if
  two of them are not both on (`Reachability.EdgeKnobsKeepReachableSet`).
- `ekm/app.py` says the first wrap persists the binding before answering. After a fault between its two commits the
  retry answers, and no binding is ever made by it (`EkmRoundTrip.AnsweredWithoutBinding`); an object with a KEK row has
  its binding if and only if its first wrap was not cut there (`EkmRoundTrip.BindingsAgree`).
- `vpn/app.py` has both ends install the same key. A start for a peer with a live activation does not cancel it: after a
  connect that nothing interrupts, and once that activation has fired, the client is idle with the new key and the
  server's record names it if and only if no activation was live at the start (`KeyAgreementProof.StartSplitsExactly`).
  That concerns a caller of the server's interface that starts again under a public key it has used before, which
  `record_for` accepts. The repository's own client draws a fresh key pair for every connect, and then no activation is
  ever live at a start and both ends agree (`KeyAgreementProof.FreshKeysNeverSplit`).

## Model

| member | source | states |
|---|---|---|
| EnabledEdges.Enabled | src/qkd_ekm/model/events.py:119-239 | the generated list holds exactly the edges of the transition relation, for every reading, and no label twice |
| History.FlagLawHolds | src/qkd_ekm/model/events.py:201-255 | for every reading, what an edge sets and clears among the six flags by its label alone, and that it leaves every other flag as it was; so only a recovery clears a pending recovery |
| History.DependenciesFollow | src/qkd_ekm/model/events.py:201-224 | after any run of any reading each dependency and the authority is as the last event about it left it |
| History.RecoveryFollows | src/qkd_ekm/model/events.py:226-255 | a recovery is pending since the last restoration or promotion that calls for one until the next recovery; likewise a detection and a suspension |
| History.RecoveryPending | src/qkd_ekm/model/events.py:249-255 | under readings like the named ones a recovery is pending iff a restoration comes after the last recovery |
| History.InventoryFollows | src/qkd_ekm/model/events.py:125-175 | an identifier is pooled iff it was ingested and has neither expired nor been allocated since; retired iff it has expired and the reading retires; and the bindings are exactly those the allocations of the run made |
| History.SessionsFollow | src/qkd_ekm/model/events.py:163-192 | the pending session, the active session and the active version are the last ones made that no later event of the run ended |
| History.EpochFollows | src/qkd_ekm/model/events.py:177-188 | the authoritative epoch is that of the last activation or consuming abandonment |
| History.AllocationsInOrder | src/qkd_ekm/model/events.py:157-175 | where allocations name no epoch, the n-th of a run binds epoch n |
| History.OrderFollows | src/qkd_ekm/model/events.py:102-116 | a FIFO pool lists its identifiers by how long they have been pooled, and only the oldest can expire or be allocated |
| Modes.HoldoverExactly | src/qkd_ekm/ekm/lifecycle.py:45-61 | in reachable states of the named readings' family a cut leaves holdover iff some binding is not that of a session still pending, exhaustion iff none is, and suspension iff the authority is withdrawn |
| Modes.ModeFollowsLabels | src/qkd_ekm/ekm/lifecycle.py:45-69 | after any run of these readings the mode and the three indicators follow from the order of the events alone |
| Knobs.KnobsMatterToTheirKind | src/qkd_ekm/model/events.py:22-84 | an event asks only the knobs of its own kind when it may fire, and nine of the 25 are asked by none |
| Knobs.InventoryKnobs | src/qkd_ekm/model/events.py:125-165 | what each knob about ingestion, expiry and allocation adds to the condition of the base reading |
| Knobs.FifoKnob | src/qkd_ekm/model/events.py:114-116 | a FIFO reading has exactly the edges of the reading without it that take the oldest identifier |
| Knobs.EpochKnob | src/qkd_ekm/model/events.py:157-175 | an allocation may name an epoch iff one that names none is possible and the epoch is free, later and in the domain |
| Safety.EveryReadingKeepsInvariants | src/qkd_ekm/model/checks.py:35-99 | under all 2^25 readings and all domain sizes no reachable state violates I1-I9, with the retained-epoch reading of I7 chosen as the search chooses it |
| Safety.EveryReadingKeepsGuards | src/qkd_ekm/model/checks.py:102-116 | no edge out of a reachable state violates G1-G4, under every reading |
| Seeded.SeededStatesDetected | src/qkd_ekm/model/seeded.py:42-112 | each seeded inconsistent state fails exactly its own check of I1 to I7 (I1 by the order of a FIFO pool), so no check is idle and none is implied by the others |
| Seeded.SeededEdgesDetected | src/qkd_ekm/model/seeded.py:131-166 | each seeded invalid transition fails exactly its own guard |
| Seeded.LedgerChecksExactly | src/qkd_ekm/model/checks.py:50-63 | in any state whatever, I1 to I4 are reported iff the order does not list the pool, an identifier has two bindings, an identifier is in two places, or a target two identifiers |
| Safety.ReachedSound | src/qkd_ekm/model/events.py:119-255 | the inductive invariant behind both: the ledger of identifiers, the session pointers, and the agreement of queue order and pool |
| NoReplay.ConsumedStaysConsumed | src/qkd_ekm/model/events.py:125-188 | along every run bindings only grow, the epoch never decreases, and a consumed or retired identifier is never pooled again |
| NoReplay.EpochActivatedOnce | src/qkd_ekm/model/events.py:163-181 | of two activations in a run the later one makes a strictly larger epoch authoritative |
| NoReplay.AllocatedOnce | src/qkd_ekm/model/events.py:139-175 | two allocations in a run share neither the identifier nor the purpose and object |
| NoReplay.IdentifiersConserved | src/qkd_ekm/model/events.py:125-137 | pooled, bound and retired identifiers together never outnumber the domain |
| Recoverability.RecoverableExactly | src/qkd_ekm/model/events.py:201-255 | a reachable state can reach READY iff it is not stuck in suspension, and the shortest way there has exactly the stated number of events |
| Recoverability.RecoveryBound | src/qkd_ekm/model/events.py:226-237 | that number is at most five in general and three under the calibrated rules |
| Recoverability.RecoverableReadings | src/qkd_ekm/ekm/lifecycle.py:45-61 | READY is reachable from every reachable state iff restoring sets recovery or suspension is not recorded |
| Recoverability.SuspendedForEver | src/qkd_ekm/ekm/lifecycle.py:47-51 | in the remaining readings a recorded suspension keeps the mode SUSPENDED on every run |
| Reachability.ReachableExactly | src/qkd_ekm/model/events.py:91-239 | closed form, both directions: the reachable states are the allocation cores with all flag combinations, less the one that two edge knobs exclude together |
| Reachability.NamedReadingsInFamily | src/qkd_ekm/model/events.py:22-26 | the base and the calibrated reading are among those the closed form covers |
| Reachability.EdgeKnobsKeepReachableSet | scripts/model_calibrate.py:39-48 | the edge knobs leave the reachable set alone iff those two are not both on |
| Reachability.ClosedReached | src/qkd_ekm/model/events.py:119-239 | every state of the closed form is reached by a run |
| ShortestRuns.DepthExactly | src/qkd_ekm/model/enumerate.py:52-66 | every reachable state's shortest run has the closed-form length over pool, bindings, pending session and flags |
| ShortestRuns.MaxDepthExactly | src/qkd_ekm/model/enumerate.py:73 | the greatest depth has a closed form in the domain sizes, and is attained |
| ShortestRuns.PublishedDepth | src/qkd_ekm/model/events.py:87-91 | for four identifiers, two versions and three epochs it is sixteen |
| StateSpace.ReachableInUniverse | src/qkd_ekm/model/enumerate.py:52-68 | every reachable state of every reading lies in one finite set given by the domain, so the search ends |
| Enumeration.Run | src/qkd_ekm/model/enumerate.py:34-78 | the search ends; states are numbered without gaps in non-decreasing depth, depths are true shortest distances, reported edges and violations are real even on an abort, and complete otherwise; it is aborted iff more states than the limit were found |
| Census.CoresExactly | src/qkd_ekm/model/events.py:119-188 | with fixed flags the allocation cores number exactly the recursive closed form, for every domain |
| Census.ClosureSize | src/qkd_ekm/model/events.py:87-91 | the calibrated closure has sixteen times as many states |
| Census.PublishedCores | src/qkd_ekm/model/events.py:87-91 | for the shipped sizes the closed form is 2,864 |
| Transitions.LabelsExactly | src/qkd_ekm/model/events.py:119-239 | the labels enabled in a calibrated core are exactly the listed ones: unused, pooled and bindable identifiers, replayable epochs, flags |
| Transitions.DegreeExactly | src/qkd_ekm/model/events.py:119-239 | their number is a polynomial in the counts of those, weighted by the flags |
| EdgeCensus.CoresSum | src/qkd_ekm/model/events.py:119-239 | with fixed flags the weighted out-degrees of the allocation cores of any domain sum up to the recursive closed form |
| Transitions.ClosureDegrees | src/qkd_ekm/model/events.py:87-91 | over all flags, the out-degrees of the calibrated closure of any domain sum up to that closed form |
| Transitions.TransitionsExactly | src/qkd_ekm/model/enumerate.py:56-72 | a complete search of the calibrated reading reports exactly that many labelled transitions, self-loops included |
| PublishedEdges.FastExactly | src/qkd_ekm/model/events.py:119-239 | the closed form is linear in the unused and the pooled identifiers, with the coefficients of the faster form |
| PublishedEdges.PublishedEdgeCount | src/qkd_ekm/model/events.py:87-91 | for the shipped sizes it is 307,680 |
| SearchResults.NoViolationReported | src/qkd_ekm/model/enumerate.py:56-66 | no search under any reading, complete or aborted, reports a violation |
| SearchResults.CalibratedSearch | src/qkd_ekm/model/enumerate.py:70-78 | a complete search of the calibrated reading returns exactly the closed-form states, depths, greatest depth and number of states |
| SearchResults.PublishedNumbers | src/qkd_ekm/model/events.py:87-91 | for the shipped sizes: 45,824 states, 307,680 labelled transitions, depth sixteen, no violation |
| EkmStore.Store.Bind | src/qkd_ekm/ekm/store.py:85-97 | an insert is refused exactly when the key identifier or the purpose and object is bound, and keeps purpose and object unique |
| EkmStore.Store.PutKek | src/qkd_ekm/ekm/store.py:114-122 | the row is replaced, and reads back to the material put |
| EkmStore.Store.GetKek | src/qkd_ekm/ekm/store.py:124-131 | absent, opened, or unreadable when it was not sealed under the local key for this object |
| EkmStore.Store.IsConsumed | src/qkd_ekm/ekm/store.py:107-112 | true exactly for bound key identifiers |
| KeyPools.KeyPool.PullOnce | src/qkd_ekm/ekm/pool.py:62-87 | a whole pull equals the fold of its turns, peer by peer |
| KeyPools.PullTopsUp | src/qkd_ekm/ekm/pool.py:62-87 | an uninterrupted pull gives each queue exactly its own turns, in order, whatever the peer list, repeated names included |
| KeyPools.PullStopsAtTarget | src/qkd_ekm/ekm/pool.py:65-68 | a pull shortens no queue and fills none beyond the target, when the source gives no more than was asked |
| KeyPools.PullFills | src/qkd_ekm/ekm/pool.py:62-87 | when the source answers in full a pull fills each queue below the target by a hundred keys a turn, exactly up to the target |
| KeyPools.TurnAdds | src/qkd_ekm/ekm/pool.py:80-86 | what a turn adds are the keys of the answer, in order, with the time of their receipt |
| KeyPools.LastTurnDecides | src/qkd_ekm/ekm/pool.py:67-79 | after a pull the source counts as available according to the last peer that was asked and answered or found it unreachable |
| KeyPools.KeyPool.ExpireOnce | src/qkd_ekm/ekm/pool.py:89-101 | every queue loses exactly its stale front |
| KeyPools.KeyPool.Allocate | src/qkd_ekm/ekm/pool.py:103-110 | unknown peer, empty, or the oldest key with the rest kept |
| KeyPools.EvictionIsFilteringExactly | src/qkd_ekm/ekm/pool.py:95-97 | popping stale keys from the front is filtering by age iff no stale key stands behind a fresh one |
| EkmService.Service.HandleWrap | src/qkd_ekm/ekm/app.py:181-204 | the handler's answer and new state are those of the function the theorems are about, wherever it is cut short |
| EkmService.Service.HandleUnwrap | src/qkd_ekm/ekm/app.py:206-215 | likewise for unwrapping, with its error answers, and nothing changes |
| EkmAnswers.UnwrapExactly | src/qkd_ekm/ekm/app.py:206-215 | for any tables: a plaintext iff the object's row holds a KEK under which the blob was sealed with that associated data, 404 iff there is no row, 400 iff the row opens and the blob does not, 500 iff the row does not open |
| EkmService.Service.HandleNewKey | src/qkd_ekm/ekm/app.py:254-262 | likewise for a fresh key, with its error answers |
| EkmUnits.PooledIsUnbound | src/qkd_ekm/ekm/pool.py:103-110 | a pooled key is never consumed, so the assertion after an allocation cannot fail |
| EkmUnits.FirstUseCommits | src/qkd_ekm/ekm/app.py:186-204 | a first wrap commits one KEK row for the popped unit and then its binding, as far as it got; neither the assertion nor the already-bound branch is ever taken |
| EkmUnits.EveryUnitServesOnce | src/qkd_ekm/ekm/pool.py:103-110 | on every run with faults and restarts each issued identifier is in exactly one place, no unit serves two objects or a KEK and a delivery, and no pooled key is in the tables |
| EkmUnits.SpentForEver | src/qkd_ekm/ekm/app.py:139-145 | an identifier once used, delivered, expired or lost stays so on every run |
| EkmUnits.DeliveredOnce | src/qkd_ekm/ekm/app.py:254-262 | two answers to requests for fresh keys never carry the same key, however far apart |
| EkmAnswers.DeliveredAsReceived | src/qkd_ekm/ekm/pool.py:80-110 | on every run a key delivered is, identifier and bytes, the one the source sent next for that peer |
| EkmAnswers.DeliveryBindsForEver | src/qkd_ekm/ekm/app.py:254-262 | at every later point a delivered key is bound to the purpose, name and peer it was delivered for |
| EkmAnswers.NewKeyAnswersExactly | src/qkd_ekm/ekm/app.py:254-262 | on every run when a request for a fresh key is refused, with which status, and which key it is answered with otherwise |
| EkmRoundTrip.KekWrittenOnce | src/qkd_ekm/ekm/store.py:114-122 | from an empty store the KEK row of an object is never changed once written |
| EkmRoundTrip.EveryBlobUnwraps | src/qkd_ekm/ekm/app.py:181-215 | every blob a wrap returned unwraps to its plaintext at every later point, through faults and restarts |
| EkmAnswers.BlobsOpenExactly | src/qkd_ekm/ekm/app.py:206-215 | on every run a blob a wrap returned is unwrapped for an object iff the associated data is the same and the object's KEK too, and is refused with 400 otherwise, 404 without a row |
| EkmAnswers.ForeignRefused | src/qkd_ekm/ekm/app.py:206-215 | on every run bytes that no key sealed are refused, and no unwrap fails with a 500 |
| EkmAnswers.WrapAnswersExactly | src/qkd_ekm/ekm/app.py:181-204 | on every run when an uninterrupted wrap is refused, with which status, and that it never fails otherwise |
| EkmAnswers.MovedRowUnreadable | src/qkd_ekm/ekm/store.py:114-131 | a KEK row put under another object's name never opens there, as no two object names have the same bytes |
| EkmRoundTrip.BindingsAgree | src/qkd_ekm/ekm/app.py:188-201 | an ekm binding names its object's KEK unit, and an object with a KEK row is bound iff its first wrap did not meet the fault between the two commits |
| EkmRoundTrip.BindingsCounted | src/qkd_ekm/ekm/store.py:133-135 | on every run the reported count of bindings is the number of keys delivered plus the number of objects with a KEK row whose first wrap did not meet that fault |
| EkmRoundTrip.AnsweredWithoutBinding | src/qkd_ekm/ekm/app.py:5-9 | the retry after such a fault answers although the object has no binding |
| EkmRoundTrip.WrapAgain | src/qkd_ekm/ekm/app.py:185-204 | a wrap under an existing row uses its KEK and changes nothing |
| EkmNames.RefusedExactly | src/qkd_ekm/ekm/app.py:139-145 | on every run a request for a fresh key is refused as already bound, and the key lost, iff the object name it invents equals that of an earlier delivery |
| EkmNames.NeverRefused | src/qkd_ekm/ekm/app.py:261 | with identifiers that hold no colon the invented names never collide |
| EkmNames.SameNameRefused | src/qkd_ekm/ekm/app.py:254-262 | for any two peers and distinct identifiers whose invented names are equal there is a run from a fresh start whose first delivery is answered and whose second is refused with 400 |
| EkmNames.ColonsCollide | src/qkd_ekm/ekm/app.py:261 | with colons there are such: the peer A with the key B:c and the peer A:B with the key c |
| EkmPools.PoolBound | src/qkd_ekm/ekm/pool.py:62-123 | with any number of pullers interleaved with allocations and evictions no queue exceeds the target by more than one request per further puller, so its size is at most the target times the number of pullers |
| EkmPools.FirstInFirstOut | src/qkd_ekm/ekm/pool.py:80-110 | the keys allocated or evicted so far, in order, followed by the queue, are the keys received, in order |
| EkmPools.EvictionFilters | src/qkd_ekm/ekm/pool.py:89-101 | with the one background puller evicting from the front removes exactly the stale keys, on every run |
| EkmPools.UninterruptedTurn | src/qkd_ekm/ekm/pool.py:64-86 | with nothing in between the three steps of a puller are one turn of a pull |
| QkdSim.KeyStore.HandleEncKeys | src/qkd_ekm/qkdsim/app.py:129-148 | the loop issues exactly the keys drawn, or answers with the right error and counter |
| QkdSim.KeyStore.HandleDecKeys | src/qkd_ekm/qkdsim/app.py:159-172 | the loop stops at the first identifier that is unknown or used up by then, with exactly those before it consumed |
| QkdSim.Retrievable | src/qkd_ekm/qkdsim/app.py:164-171 | how far a retrieval gets: the identifiers before are known, unretrieved and distinct, the next is not |
| QkdSim.DeliveryIsExact | src/qkd_ekm/qkdsim/app.py:159-172 | a successful retrieval returns the keys asked for in order, all distinct and none retrieved before |
| QkdKeys.AnsweredIsStored | src/qkd_ekm/qkdsim/app.py:129-148 | with fresh identifiers a request for keys is answered with as many as asked for, distinct, each stored exactly as answered and not yet retrieved |
| QkdKeys.IssuedThenRetrieved | src/qkd_ekm/qkdsim/app.py:129-172 | after any requests in between that do not ask for them, one retrieval of those identifiers returns exactly that answer, bytes and order included |
| QkdKeys.DecAnswersExactly | src/qkd_ekm/qkdsim/app.py:159-172 | a retrieval delivers iff every identifier is known, not retrieved and asked for once; 404 and 400 by what stops it |
| QkdKeys.MasterExactly | src/qkd_ekm/qkdsim/app.py:60-62 | the master of a slave is the first party other than it, if there is one |
| QkdSim.FailureBurnsThePrefix | src/qkd_ekm/qkdsim/app.py:164-171 | a failing retrieval has used up exactly the keys before the failing one; 404 for unknown, 400 otherwise |
| QkdSim.AtMostOnce | src/qkd_ekm/qkdsim/store.py:87-93 | no key is returned by two successful retrievals, whatever is asked in between |
| QkdSim.CountersBalance | src/qkd_ekm/qkdsim/store.py:62-93 | over any request sequence with fresh identifiers the key and bit counters are determined by the keys issued and retrieved |
| QkdSim.RequestsCounted | src/qkd_ekm/qkdsim/app.py:142-145 | over any request sequence the two request counters count exactly the requests answered with keys and those refused because the source was down |
| QkdSim.InventoryConserved | src/qkd_ekm/qkdsim/store.py:62-69 | over any request sequence with fresh identifiers what is reported available is the inventory less the keys the answers carried, what is reported pending is those keys less the ones retrieved, and available, pending and retrieved keys add up to the inventory |
| VpnServer.VpnApp.StartConnection | src/qkd_ekm/vpn/app.py:256-285 | the new state and answer are those of the specification, and a start that does not connect changes nothing |
| VpnServer.VpnApp.RefreshConnection | src/qkd_ekm/vpn/app.py:287-313 | a refresh schedules its key and cancels the activation that has not fired |
| VpnServer.VpnApp.ApplyKey | src/qkd_ekm/vpn/app.py:237-250 | record, file, interface and timer change together, or an invented record is released |
| VpnServer.VpnApp.Fire | src/qkd_ekm/vpn/app.py:197-200 | what a timer or an activation does when it fires |
| VpnServer.FreeHost | src/qkd_ekm/vpn/app.py:204-210 | the first host that is not taken, or none exactly when all hosts are taken |
| VpnRuns.PeerTableHolds | src/qkd_ekm/vpn/app.py:102-117 | on every run with failures and restarts addresses are distinct hosts other than the server's, and the file equals memory |
| VpnRecords.ToldAddressHolds | src/qkd_ekm/vpn/app.py:256-285 | the identifier and address a connected start answers are those of the record and of WireGuard, and at every later point of any run the address is still its record's and the only one WireGuard lets that peer use, a host other than the server's and no other peer's |
| VpnRecords.ToldApart | src/qkd_ekm/vpn/app.py:204-229 | of two connected starts of a run the answers name the same address iff the peer is the same |
| VpnRecords.PeersStay | src/qkd_ekm/vpn/app.py:212-229 | a peer keeps its address and the party it named first through every run with failures and restarts |
| VpnRecords.KeysFollow | src/qkd_ekm/vpn/app.py:237-250 | on every run a peer has a record iff a key was installed for it, and record, WireGuard and the time of the next rotation are those of the last key installed |
| VpnRecords.TasksFollow | src/qkd_ekm/vpn/app.py:181-202 | on every run a rotation is due since the clock rang until the next install, the clock runs since an install until it rings or the server restarts, and an activation is live since its refresh until it fires or the server restarts |
| VpnRuns.ExhaustedExactly | src/qkd_ekm/vpn/app.py:204-210 | exhaustion is answered iff a new peer asks while every host is the server's or a client's |
| VpnRuns.OneLiveTaskEach | src/qkd_ekm/vpn/app.py:181-202 | a peer has at most one live timer and one live activation, and a task that fires finds its record |
| VpnRuns.ActivationsFollowRefreshes | src/qkd_ekm/vpn/app.py:300-313 | a live activation carries the key of its peer's latest refresh, and the keys activations installed are a subsequence of the keys of its refreshes |
| ClientCli.Cli.Connect | src/qkd_ekm/client/cli.py:240-291 | interface and session after a connect, wherever it stops |
| ClientCli.Cli.Refresh | src/qkd_ekm/client/cli.py:295-319 | interface and session after a refresh, wherever it stops |
| KeyAgreementProof.BothEndsAgree | src/qkd_ekm/vpn/app.py:237-313 | on every interleaving, when a client is idle, its peer untainted and no activation live, record, server interface, session and client interface name the same key with the same bytes |
| KeyAgreementAddress.AddressesAgree | src/qkd_ekm/client/cli.py:262-276 | on every interleaving, faults included, a client whose interface is up has there the address of its peer's record and of WireGuard, which no other peer and no other client's interface has |
| KeyAgreementProof.FaultlessRunsTaintNothing | src/qkd_ekm/client/cli.py:195-319 | runs whose connects draw fresh keys and that have no failed install, lost answer, aborted command or restart during a live activation taint no peer |
| KeyAgreementProof.StartDecidesExactly | src/qkd_ekm/vpn/app.py:256-285 | a successful start decides the peer's key iff no activation is live; otherwise the pending one does |
| KeyAgreementProof.FreshKeysNeverSplit | src/qkd_ekm/client/wgclient.py:54-58 | on every run a connect that draws a key no connect has named meets no live activation, and left uninterrupted ends with record, session and client interface on the new key and the peer untainted |
| KeyAgreementProof.StartSplitsExactly | src/qkd_ekm/vpn/app.py:212-229 | for a caller that may reuse its public key, end to end, from any reachable state: after an uninterrupted connect and the activation live at its start, the client is idle with the new key and no activation live, and the server's record names that key iff none was live; the peer is tainted exactly otherwise |
| KeyAgreementProof.TargetRefreshed | src/qkd_ekm/vpn/app.py:307-313 | a refresh always decides the peer's key, and no other peer's |
| KeyAgreementProof.FaultsFallBack | src/qkd_ekm/vpn/app.py:300-305 | a failed install and a restart put the peer back to the key its record names |
| KeyAgreementProof.EveryFetchSucceeds | src/qkd_ekm/client/cli.py:195-206 | a client told an identifier always gets exactly that key from the key delivery entity |
| Transcripts.MatchedPrefix | scripts/compare.py:199-205 | greedy matching is exact: a prefix of the expected events occurs in order iff it is no longer than the result |
| Transcripts.ByComponent | scripts/compare.py:189-196 | the groups hold each component's events in order, only components that have any, and in the order of their first events |
| LogLines.StampedLine | scripts/compare.py:37-38 | a line of a timestamp, space, a word of letters, a colon, a space and a message says that time, that event and that component |
| LogLines.UnstampedLine | scripts/compare.py:185-196 | so does the same line without a timestamp, which sorts first |
| LogLines.ComponentMeans | scripts/compare.py:189-196 | an event has a component iff it starts with that word of letters, a colon and a space |
| Transcripts.SequenceChecks | scripts/compare.py:208-243 | each row counts the longest prefix of the component's expected events that occurs in order among its own actual ones, and passes iff that is all of them; the summary passes iff all rows do; a missing transcript gives the failing summary alone |
| LogLines.HeldTranscriptPasses | scripts/compare.py:208-243 | a transcript that holds all expected events in order, whatever else it holds, passes in every row |
| LogLines.LoggedTranscriptPasses | scripts/compare.py:208-243 | so do the expected events themselves with any timestamps in front |
| Redaction.RedactFiles | scripts/redact.py:69-75 | the output is the redacted stable sort of all lines |
| Redaction.SortSorts | scripts/redact.py:74 | the sort is a permutation in timestamp order |
| LogLines.AtMostExactly | scripts/redact.py:64-74 | the order of the sort's keys is that of a prefix or of the first difference |
| LogLines.StampsSortByTime | scripts/redact.py:64-74 | so timestamps sort as the numbers made of their year, month, day, hour, minute, second and millisecond |
| Redaction.SortIsStable | scripts/redact.py:74 | lines with the same timestamp keep their order |
| Redaction.MergeKeepsComponent | scripts/redact.py:69-75 | in the merged transcript a component that writes to one log in timestamp order has exactly the events of that log, redacted |
| Redaction.VerdictOfOwnLog | scripts/compare.py:208-243 | so its verdict is that on its own log, whatever is merged with it and in whatever order |

## Left out

- The order of the list `enabled` returns and of `sorted(pool)`: the model says which edges there are, not in which order.
- Text renderings: epochs as strings, `write`, `summary` and `markdown` of the enumerator, notes of the transcript checks, log lines.
- The halves of I1, I8 and I9 that guard against other representations (a pool with duplicates, a stored mode, stored indicators), and the two seeded cases that store these: the types rule them out.
- Base64 of the associated data, decoded before either handler runs; the associated data of a request is bytes here.
- The analysis scripts, `upload`, `rotate`, Terraform, HTTP, authentication and TLS: plumbing or fixed cases.
- The totals `pull_once` and `expire_once` return, which are only logged, and `lookup_object`, `created_at` and `describe_key`.
- The recovery latch of the EKM (`check_recovery`, the acknowledgement and `/api/state`): three assignments with no property across runs.
- A key that is not a legal AES key length: the QKD source issues 32-byte keys, and every length is accepted here.
- Partial failures inside one commit or one file write, and a `wg` call that fails after it has taken effect.
- EkmRuns.Next: a restart loses all pooled keys and keeps the tables; the loss of the database is not modelled.
- VpnServer.Fired: tasks may fire at any time, not only when due, so nothing is said about how close the two installs are; and records are values, so a closure holding a record is modelled by its peer.
- VpnServer.Restarted: WireGuard keeps its entries, as it does when only the process restarts; after a reboot of the host the interface comes back empty while the peers file still names keys.
- VpnServer.Refresh: the lookup of the record and the scheduling, between which the EKM is asked, are one step; records are never removed in between.
- KeyAgreement.Next: one command at a time runs on a client, and its wait for the effective time is a step boundary; and the server serves a request when the client sends it, so a request the client has given up on is not served after, and does not supersede, the client's next one.
- QkdSim: `generated_bits`, which multiplies a clock by a rate, and the monitoring values.
- Redaction rules themselves: `redact` is any function of a line that leaves the component name alone; Unicode digits and spaces are not matched.
