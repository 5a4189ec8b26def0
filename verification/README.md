# Verified model of babel-rs

babel-rs is a Babel routing daemon (RFC 8966, with RFC 8967 authentication,
source-specific routes and IPv4 via IPv6). This project models its protocol
core in Dafny and proves what the core is for, within the hypotheses listed below:

- **No forwarding loops** across a whole network of engines, over every run
  with lost, late, repeated and reordered packets: a loop has a cause, an earlier
  event that undercut the key at one of its nodes (`Network.LoopHasCause`), so a
  run without such an event has no loop (`Network.LoopFree`). The class `Engine`
  is proved to be such a node event by event, and engines handed any events make
  such a run (`Network.DriveAll`).
- **The engine's promises between events** (`Engines.Engine.TryHandle`): counters
  and limits balance, every candidate metric is the algebra's at the current link
  cost, skipping a reselection never changes the outcome, no finite update is
  sent that is better than the recorded feasibility distance, a dropped route
  stays announced as unreachable for as long as neighbours may believe it,
  own origins only ever improve, a refused event changes nothing.
- **Hysteresis** over whole runs of engine events, judged on the engine's own
  candidates (`Dwelling.EverySwitchIsEarned`): a settled key leaves a route it could
  still use only for one that was ahead for the whole dwell time, and two such
  switches are at least the dwell time apart.
- **The wire**: what is encoded decodes to what was meant, datagram by datagram,
  within budget and without losing or repeating a TLV; prefix compression and
  late timestamping preserve meaning. The Updates the engine builds for valid keys
  and Router-IDs are of the kind this holds for (`EngineOutput.UpdateSendsFit` and
  its neighbours), and the engine's candidates, selected routes and origins keep
  valid ones (`EngineOutput.ProperIsKept`).
- **Authentication**: no accepted datagram is accepted twice, over restarts,
  index changes, challenges and peer expiry (`MacReplay.NoReplay`).
- **Output scheduling**: every TLV handed in is pending, encoded, sent, expired or
  refused, exactly once; the advertised wake-up time is the first useful one.
- **Linux**: source rules first and destinations second finds the same route as
  destination first (`Projection.WalkIsDestinationFirst`), automatic tables do not
  collide, and restarts never extend a recovery deadline.

State that the source updates in place is a class here (`Engine`,
`OutputScheduler`, `MacSession`, `HelloHistory`, `SourceTables`, `Recovery`,
`Encoder`); each method is proved against a specification on values, and the
theorems are about those specifications. Hash-map iteration is modelled by
picking elements in any order, so the results hold for all orders.

## Hypotheses

Nothing below is assumed of single calls; where a theorem needs more than the
code guarantees, the need is a named predicate. Where the code itself is the
cause, a lemma shows a concrete input that breaks the result without it.

- *Sequence-number window.* Feasibility compares sequence numbers modulo 2^16,
  which is not transitive (`Model.SeqnoGtIsCyclic`). Coverage, skipped
  reselections and loop freedom hold while, for each (key, router-id), all
  numbers in circulation lie in one half-window, and each next hop is announced
  by one neighbour only. The ghost field `tame` is true as long as that held of
  everything received and originated; `Feasibility.WindowIsNeeded` shows that it is needed.
- *Undercut keys.* A pending seqno request is answered with any feasible
  candidate, selected or not (crates/babel-protocol/src/engine/rib.rs:148-158), and
  a request later in a packet is answered from a selected entry that an earlier
  Update of that packet has already made worse. Both can lower the recorded
  distance below what the selected next hop offers, and the feasibility condition
  is then lost for that key. `Undercutting.Undercuts` says, over the tables before
  the packet and the packet itself, when that can happen: only with an Update that
  configuration and import policy admit and, for the first way, that finds room;
  `EngineInvariants.UpdateCostsCondition` is the exact condition for one Update.
  `UndercutExample.Undercut` is an engine state and a packet with which the first way
  does, `SpoilExample.SpoilRoute` one for the second.
  `TryHandle` proves that no other event makes a key lose the condition, and loop
  freedom is about runs without such a packet.
- *Network.* No recorded distance expires while somebody still relies on it, no
  engine restarts with empty tables, and packets come from the node the
  neighbour address belongs to.
- *Hello undo.* A Hello exactly 16 behind shifts a 16-bit register by its full
  width, which the processor masks to no shift; `Hello.HelloHistory.Record`
  states exactly when that matters, `Hello.LostUndoExample` shows that it can.
- *Late challenge reply.* An authentic reply that confirms the current index with an
  older counter resets the counters. `MacReplay.NoReplay` is about runs without such
  a reply, whatever else arrives, authentic or not. `MacReplay.LateReplyReplays` shows
  that every such reply before the last representable time lets an accepted datagram
  in again, and `MacLateReply.LateReplyRun` is a run that leads to one.
- *Authentication.* A valid tag comes only with octets an honest session signed for
  these endpoints, indices and nonces are drawn fresh, and the receiver is strict
  (`accept_unverified` off). All endpoints are of one address family, and the
  receiver's clock does not go back. The network may deliver anything at any time.
- *Recovered tables.* Automatic tables come out distinct exactly when the numbers
  taken over were (`Allocation.SourceTables.Views`, `Allocation.CollidingHeldCollide`).
  Recovery keeps a source at one table if all rules of that source name one table;
  where they name two, time alone can move it (`Recovery.HeldOnlyExpires`,
  `Recovery.DoubledRulesMove`).
- *Announced routes.* Received and configured keys and Router-IDs are those the source's
  constructors admit (`EngineOutput.ProperEvent`). The wire carries link-local addresses in fe80::/64 only, so
  an Update that names another one arrives changed (`EngineOutput.AdvertiseFits`).
- *Recovery deadlines.* A startup keeps a deadline exactly for the routes it finds
  eligible (`Recovery.StartupKeepsDeadline`); one that does not find the route
  eligible forgets it (`Recovery.ForgottenRouteIsRenewed`).
- *Withdrawal hold.* The hold covers lifetimes recorded before the dropping event;
  an update sent and dropped within one event is not covered.
- *Own origins* improve over an event with fewer than 2^15 seqno requests.

## Model

| member | source | states |
|---|---|---|
| `Network.LoopFree` | crates/babel-protocol/src/engine/rib.rs:215-232 | In every world of every run (loss, delay, duplication, reordering) in which no event undercuts the key, no path of nodes whose selected routes for one (key, router-id) lead to each other returns to its start |
| `Network.LoopHasCause` | crates/babel-protocol/src/engine/rib.rs:148-158 | In every run, whatever its events: if such a path returns to its start, an earlier event undercut the key at a node of the path |
| `Network.WeakHasCause` | crates/babel-protocol/src/engine/rib.rs:148-158 | In every run a selected route that has lost its feasibility condition was undercut by an earlier event at its node |
| `Network.PathDescends` | crates/babel-protocol/src/model.rs:73-80 | Along any path of such next hops whose routes meet the feasibility condition the recorded distance strictly improves from the first node to the last |
| `Network.EdgeDescends` | crates/babel-protocol/src/engine/rib.rs:215-232 | The next hop of a selected route that meets its feasibility condition has a record for the source, and it is strictly better than this node's record |
| `Network.RunKeeps` | crates/babel-protocol/src/engine/sources.rs:131-151 | In every world of every run each message in flight and each reachable candidate is vouched for by a record of its sender that is at least as good |
| `Network.StepKeeps` | crates/babel-protocol/src/engine/sources.rs:131-151 | Every node event and every loss keeps that invariant |
| `Network.ActKeeps` | crates/babel-protocol/src/engine.rs:216-237 | An event at one node keeps the invariant for all nodes, although its own records and candidates changed |
| `Network.Perform` | crates/babel-protocol/src/engine.rs:216-237 | The engine class takes steps of the network's node: feasibility condition kept except for keys the event undercuts, announcements covered, every reachable candidate accounted for by an earlier one or a received update; an event within the hypotheses keeps the node within them |
| `Network.DriveAll` | crates/babel-protocol/src/engine.rs:216-237 | New engines handed any events, each engine's in the order of their time, with messages lost in between: every valid event is the move of its engine, undercutting what it does in that engine's tables, and while inputs keep to windows and owners, packets carry messages under way and records in use are live, the whole is a run of the network |
| `Engines.Engine.constructor` | crates/babel-protocol/src/engine.rs:173-198 | A new engine satisfies everything that holds between events, owes nothing and has no key without its condition |
| `Engines.Engine.TryHandle` | crates/babel-protocol/src/engine.rs:216-237 | Succeeds exactly on valid events and otherwise changes nothing; a valid event keeps books, prices, settled selection, coverage and hold promise, takes the feasibility condition from no key but those it undercuts, moves selection and hysteresis memory only by looks at its own tables (at most one, at the candidates it leaves and a named source table, except for the stages of an interface policy change), runs pending requests at each tick, also the one that ends a change of interface policy, does to the tables what the event says, notes the lifetime of all it announces, and improves own origins |
| `Engines.Engine.Validate` | crates/babel-protocol/src/validation.rs:55-94 | Accepts exactly the events with non-zero intervals, canonical keys and finite origin metrics, and otherwise names a fault the event has |
| `Engines.Engine.HandleValidated` | crates/babel-protocol/src/engine.rs:239-364 | Each event has its effect on the tables it is about, and keeps every promise but the recording of lifetimes |
| `Engines.Engine.NoteLifetimes` | crates/babel-protocol/src/engine.rs:216-237 | Afterwards each announced key is recorded for at least as long as the announcement may be believed, and no record shrinks |
| `Engines.Engine.ReselectingIsIdle` | crates/babel-protocol/src/engine/rib.rs:257-416 | Between events without a pending switch, whatever a reselection at any time would choose is what is selected already: skipping it is sound |
| `Engines.Engine.Receive` | crates/babel-protocol/src/engine/neighbors.rs:50-322 | A packet from an unknown interface, of the wrong family or without room is ignored; any other is the packet's observations followed by each TLV in order, then one reselection if selection inputs changed; finite candidates are old or offered by this packet |
| `Engines.Engine.Observe` | crates/babel-protocol/src/engine/neighbors.rs:72-223 | Only the sender's record changes: met at its first Hello, reset on restart, and the last applicable IHU decides its transmit cost and timer |
| `Engines.Engine.Listen` | crates/babel-protocol/src/engine/neighbors.rs:89-232 | The sender's candidates are repriced exactly when its link cost changed, after which all candidates are at their current price |
| `Engines.HearAll` | crates/babel-protocol/src/engine/neighbors.rs:207-223 | The last IHU that applies to a local address and has an interval decides; without one nothing changes |
| `Engines.Engine.ProcessAll` | crates/babel-protocol/src/engine/neighbors.rs:237-302 | The route TLVs are applied one after the other, in order; without reselection inputs having changed the selection is still settled; sequence number bumps are bounded by the seqno requests |
| `Engines.Engine.ProcessTlv` | crates/babel-protocol/src/engine/neighbors.rs:238-301 | Per TLV: an Update changes the candidates as `receive_update` says and anything else leaves them; requests get their reply; the selection stays settled unless a change is reported |
| `Engines.Engine.AnnounceRerouted` | crates/babel-protocol/src/engine/neighbors.rs:306-320 | Every key whose candidate changed its router-id is announced again, or retracted on all interfaces if nothing is selected or originated |
| `Engines.Engine.ReceiveUpdate` | crates/babel-protocol/src/engine/rib.rs:8-213 | The candidate table becomes `AfterUpdate` of the old one; a change is reported exactly when some candidate differs in what selection looks at; unreported changes leave a settled selection settled |
| `Engines.Engine.StoreUpdate` | crates/babel-protocol/src/engine/rib.rs:59-213 | The admission part: policy, limits, the refusal to let the selected route turn infeasible, storing; books and prices kept |
| `Engines.Engine.AnswerPending` | crates/babel-protocol/src/engine/rib.rs:135-164 | Exactly the satisfied requests are answered, removed and remembered, and the recorded distance covers the answer |
| `Requests.ClosedIsNotForwarded` | crates/babel-protocol/src/engine/sources.rs:55-100 | A request that was answered or given up is not forwarded again for 16 seconds, nor an older one, whoever asks and with whatever hop count |
| `Updating.UpdateKeepsCondition` | crates/babel-protocol/src/engine/rib.rs:101-133 | What an update does to the candidates, whatever it says, never costs the selected route its feasibility condition; only an answer given on the way can |
| `Updating.StoredKeepsCondition` | crates/babel-protocol/src/engine/rib.rs:101-133 | Storing a candidate that is not the selected one, or is and is feasible, keeps the condition |
| `Updating.AlikeStaysStable` | crates/babel-protocol/src/engine/rib.rs:190-212 | A refresh that changes nothing selection looks at leaves a settled selection settled |
| `Updating.RepriceRestores` | crates/babel-protocol/src/engine/rib.rs:234-255 | Recomputing the metrics of the neighbours whose cost changed brings every candidate to its current price |
| `Engines.Engine.Recompute` | crates/babel-protocol/src/engine/rib.rs:234-255 | Exactly the chosen neighbours' candidates get the metric of the current link cost; reports whether any changed; invariants kept |
| `Engines.Engine.HandleSeqnoRequest` | crates/babel-protocol/src/engine/sources.rs:6-100 | A request is answered, served by at most one bump and updates everywhere, forwarded to a best neighbour with one hop less, or dropped, exactly as originated, selected, pending and recent entries dictate |
| `Engines.Engine.PickTarget` | crates/babel-protocol/src/engine/sources.rs:76-88 | A neighbour other than the requester that no other beats by (feasible, metric, sequence number), or none only if there is none |
| `EngineInvariants.ForwardedOnce` | crates/babel-protocol/src/engine/sources.rs:55-100 | While a forwarded request is pending, neither it nor an older one is forwarded again, whoever asks and with whatever hop count |
| `Engines.Engine.ServeOwn` | crates/babel-protocol/src/engine/sources.rs:33-53 | Bumps exactly if the request is ahead, at most once, and sends the update on every interface |
| `Engines.Engine.ServeRouteRequest` | crates/babel-protocol/src/engine/neighbors.rs:265-282 | One reply for a key, a full update for a wildcard where the interface has not had one lately |
| `Engines.Engine.ReplyToRouteRequest` | crates/babel-protocol/src/engine/output.rs:93-116 | The own origin, else the selected route, else a retraction; what is announced is covered |
| `Engines.Engine.Bump` | crates/babel-protocol/src/engine/sources.rs:153-158 | The next sequence number, stamped on every own origin |
| `Engines.Engine.RequestLost` | crates/babel-protocol/src/engine/rib.rs:424-466 | Every lost key that a reachable but infeasible candidate still offers gets a request for a newer number, unless one is pending; other requests stay |
| `Engines.Engine.Reselect` | crates/babel-protocol/src/engine/rib.rs:257-416 | The selection becomes what `Reselected` says, lost keys are buried for long enough, changes are announced and recorded, and the result is settled |
| `Reselection.ReselectedIsStable` | crates/babel-protocol/src/engine/rib.rs:257-357 | After a reselection every key with an eligible candidate has a current one selected that nothing beats by both margins, unless a switch is pending; all others have none |
| `Reselection.StableShrinks` | crates/babel-protocol/src/engine/sources.rs:131-151 | Better recorded distances leave a settled selection settled, so sending updates needs no reselection |
| `Reselection.SkippingIsSound` | crates/babel-protocol/src/engine/rib.rs:257-357 | From a settled selection without pending switches, reselecting changes nothing |
| `Reselection.MovingMeetsCondition` | crates/babel-protocol/src/engine/rib.rs:215-232 | Moving to another route re-establishes the feasibility condition; keeping one keeps it |
| `Reselection.AnnouncingKeepsCondition` | crates/babel-protocol/src/engine/sources.rs:131-151 | Announcing a distance that the selected route's offer beats keeps the condition |
| `Reselection.AnnouncingCostsCondition` | crates/babel-protocol/src/engine/rib.rs:148-158 | If and only if: an announcement leaves the condition standing exactly when the selected offer beats it or something at least as good was recorded |
| `EngineInvariants.UpdateCostsCondition` | crates/babel-protocol/src/engine/rib.rs:101-164 | If and only if: a received update costs its key the condition exactly when a waiting neighbour is told a distance strictly better than the recorded one that the selected route's offer does not beat |
| `Undercutting.TaintIsUndercut` | crates/babel-protocol/src/engine/neighbors.rs:238-301 | Whatever TLV of a packet costs a key its condition, the packet undercuts the key as judged on the tables before it, by an Update that configuration, import policy and limits let in |
| `Undercutting.QuietPacket` | crates/babel-protocol/src/engine/rib.rs:135-164 | A packet without requests undercuts nothing while no neighbour waits for an answer |
| `Undercutting.SelectedSenderIsSafe` | crates/babel-protocol/src/engine/rib.rs:135-164 | An answer made of an update from the selected route's own neighbour never overtakes that route |
| `UndercutExample.Undercut` | crates/babel-protocol/src/engine/rib.rs:135-164 | An engine whose keys all meet the condition handles one packet, keeps its selected route, and that route no longer meets it |
| `SpoilExample.SpoilRoute` | crates/babel-protocol/src/engine/neighbors.rs:238-301 | So it does when an Update makes the selected route worse and a request behind it is answered from the selected entry |
| `Choosing.PickBest` | crates/babel-protocol/src/engine/rib.rs:288-292 | An eligible candidate that no eligible one precedes in the candidate order |
| `Choosing.FindCurrent` | crates/babel-protocol/src/engine/rib.rs:270-276 | The eligible candidate of the selected identity if there is one |
| `Choosing.ChooseOne` | crates/babel-protocol/src/engine/rib.rs:269-356 | One key's turn: the hysteresis decision on that key, all other keys untouched |
| `Choosing.ChooseAll` | crates/babel-protocol/src/engine/rib.rs:257-357 | All keys at once are reselected as specified, whatever the iteration order; keys without eligible candidates are forgotten |
| `Engines.Bury` | crates/babel-protocol/src/engine/rib.rs:357-395 | Lost keys become tombstones until the latest of their candidates' expiry, a fresh hold time and their announced lifetime; selected keys are none; others stay |
| `Engines.LongestInterval` | crates/babel-protocol/src/engine.rs:398-404 | The largest update interval of all interfaces, or the configured one without interfaces |
| `Engines.LatestExpiry` | crates/babel-protocol/src/engine/rib.rs:366-377 | The latest expiry among a key's candidates |
| `Engines.Engine.SelectedDelta` | crates/babel-protocol/src/engine/rib.rs:418-518 | Changed keys are announced, lost keys retracted, on every interface, and recorded |
| `Hysteresis.SwitchIsEarned` | crates/babel-protocol/src/engine/rib.rs:269-356 | Over any run of looks at one key: a settled key leaves a still eligible route only if, since a look at least `better_for` earlier, every look saw that same alternative best and ahead of that same route by both margins |
| `Switching.SwitchesAreEarned` | crates/babel-protocol/src/engine/rib.rs:269-356 | On any path of engine states: a step that moves a settled key off a route which the candidates after it still hold is justified; since a step at least `better_for` earlier the key stood on that route and every reselection, one that changed nothing included, found the new one best and ahead by both margins in the candidates of its moment |
| `Dwelling.SwitchesAreApart` | crates/babel-protocol/src/engine/rib.rs:269-356 | Two such switches of a key are at least `better_for` apart |
| `Dwelling.RunIsPath` | crates/babel-protocol/src/engine.rs:239-364 | Every run of engine events is such a path through the engine's own tables: one step per event, three for an interface policy change |
| `Dwelling.EverySwitchIsEarned` | crates/babel-protocol/src/engine/rib.rs:257-357 | So over any run of engine events every such switch is justified, and they are at least `better_for` apart |
| `Dwelling.SwitchEventsAreApart` | crates/babel-protocol/src/engine/rib.rs:257-357 | The same between events: no two events, neither of them a change of interface policy but with anything between them, switch a settled key within `better_for` while the engine's candidates still hold the routes left |
| `Dwelling.Drive` | crates/babel-protocol/src/engine.rs:216-237 | The engine class, handed any events in the order of their time, makes such a run of the valid ones, and a run of the withdrawal hold |
| `Hysteresis.AllEarned` | crates/babel-protocol/src/engine/rib.rs:277-354 | After every prefix of every run, a pending switch has been insisted on by every look since it was first seen |
| `Hysteresis.SignificantIsMonotone` | crates/babel-protocol/src/engine/rib.rs:553-571 | An even better metric is significant as well |
| `Feasibility.MaintainImproves` | crates/babel-protocol/src/engine/sources.rs:131-151 | Recording a distance makes the entry live and at least as good as both the old entry and the distance, and touches no other |
| `Feasibility.CoveredIsNotBetter` | crates/babel-protocol/src/engine/sources.rs:131-151 | A covered announcement is never strictly better than the recorded distance, in the engine's own comparison |
| `Feasibility.WindowIsNeeded` | crates/babel-protocol/src/model.rs:82-84 | Outside one window three announcements leave the first one uncovered |
| `Feasibility.IdentityIsUnique` | crates/babel-protocol/src/engine/rib.rs:547-551 | At most one candidate of a key has the selected identity |
| `Feasibility.EligibleShrinks` | crates/babel-protocol/src/engine/rib.rs:215-232 | Better recorded distances only take candidates away |
| `Feasibility.PreferredIsTotal` | crates/babel-protocol/src/engine/rib.rs:538-545 | Of two candidates of a table one is preferred |
| `Feasibility.PreferredChains` | crates/babel-protocol/src/engine/rib.rs:538-545 | The preference is transitive |
| `Model.SeqnoGtInWindow` | crates/babel-protocol/src/model.rs:82-84 | Within half the number space the comparison is the order of offsets |
| `Model.SeqnoGtIsCyclic` | crates/babel-protocol/src/model.rs:82-84 | Outside it three numbers beat each other in a circle |
| `EngineTypes.SafeExtend` | crates/babel-protocol/src/engine/rib.rs:585-595 | Whatever the algebra, a finite result is strictly worse than the advertised metric |
| `EngineTypes.AdditiveIsSafe` | crates/babel-protocol/src/metric.rs:154-165 | For the built-in additive algebra the guard changes nothing |
| `EngineOutput.AdvertisedNextHop` | crates/babel-protocol/src/engine/output.rs:6-60 | An announcement carries the interface's interval; a finite one leads the receiver to a next hop of the family its encoding calls for, and one that is named is a usable IPv4 or link-local address of the interface |
| `EngineOutput.LowestIpv4IsLeast` | crates/babel-protocol/src/engine/output.rs:6-60 | The IPv4 next hop is the least usable address, or none only if there is none |
| `EngineOutput.AdvertiseFits` | crates/babel-protocol/src/engine/output.rs:6-60 | If and only if: an announcement arrives as meant exactly when its named next hop can be carried |
| `EngineOutput.UpdateSendsFit` | crates/babel-protocol/src/engine/output.rs:6-60 | Every Update of a full or single-key pass for valid keys arrives as meant |
| `EngineOutput.ChangeSendsFit` | crates/babel-protocol/src/engine/rib.rs:418-518 | So does every triggered Update |
| `EngineOutput.RetractionsFit` | crates/babel-protocol/src/engine/rib.rs:418-518 | So does every retraction of a lost route |
| `EngineOutput.RouteReplyFits` | crates/babel-protocol/src/engine/output.rs:93-116 | So does every reply to a route request |
| `EngineOutput.AnswersFit` | crates/babel-protocol/src/engine/rib.rs:148-158 | So does every answer to a pending request |
| `EngineOutput.AnswerToFits` | crates/babel-protocol/src/engine/sources.rs:6-32 | So does every answer to a seqno request |
| `EngineOutput.RetractsFit` | crates/babel-protocol/src/engine/neighbors.rs:306-320 | So does every retraction of a rerouted key |
| `EngineOutput.ProperIsKept` | crates/babel-protocol/src/engine.rs:239-364 | Every handled event keeps the keys and Router-IDs of candidates, selected routes and origins valid |
| `Bookkeeping.AdmitKeeps` | crates/babel-protocol/src/engine/rib.rs:77-95 | Admitting below both limits keeps counters equal to counts and all limits |
| `Bookkeeping.RemoveKeeps` | crates/babel-protocol/src/engine/rib.rs:68-75 | A removed candidate's neighbour exists and its counter is positive; the books stay right |
| `Bookkeeping.DropKeeps` | crates/babel-protocol/src/engine.rs:280-286 | Dropping neighbours with exactly their candidates keeps the books |
| `Bookkeeping.RecountKeeps` | crates/babel-protocol/src/engine/policy.rs:12-31 | So does recounting from scratch |
| `Bookkeeping.MeetKeeps` | crates/babel-protocol/src/engine/neighbors.rs:79-141 | So does a new neighbour below the limit |
| `Engines.Engine.SendUpdates` | crates/babel-protocol/src/engine/output.rs:145-278 | Exactly the wanted own, selected and withdrawn keys on the given interfaces; all announced distances are recorded; settled stays settled and all is covered |
| `Engines.Engine.Record` | crates/babel-protocol/src/engine/output.rs:62-91 | Recording each announcement, in any order: every announced source ends with its announced distance or the better one it had, and no other source changes |
| `Announcing.RecordedCovers` | crates/babel-protocol/src/engine/sources.rs:131-151 | Recording improves the table and covers all that was announced |
| `Announcing.RecordedKeepsCondition` | crates/babel-protocol/src/engine/sources.rs:131-151 | Announcing backed routes costs no key its feasibility condition |
| `Announcing.SendsAreHonest` | crates/babel-protocol/src/engine/output.rs:145-278 | A pass announces under a router-id only what is originated or selected under it, one distance per source |
| `Withdrawal.HoldOverRun` | crates/babel-protocol/src/engine.rs:398-411 | Over any run: a dropped key is a tombstone after every later event until it is live again or the lifetime recorded before the drop has passed |
| `Withdrawal.HeldAfterReselect` | crates/babel-protocol/src/engine/rib.rs:357-395 | A reselection keeps the hold promise for every key it drops |
| `Withdrawal.ExpiryKeepsHeld` | crates/babel-protocol/src/engine/timers.rs:109-112 | Expired tombstones and lifetimes may go |
| `Engines.Engine.HoldWithdrawal` | crates/babel-protocol/src/engine.rs:398-411 | The key is held for the longer of a fresh hold time and its announced lifetime |
| `Engines.Engine.Tick` | crates/babel-protocol/src/engine/timers.rs:6-284 | Candidates and interfaces become what the clock makes of them, and every promise between events holds again |
| `EngineInvariants.AfterClockMeans` | crates/babel-protocol/src/engine/timers.rs:26-69 | After a tick exactly the unreachable candidates past their time and those of silent neighbours are gone, the reachable ones past it are unreachable, and the others offer what they did |
| `Engines.Engine.AgeNeighbors` | crates/babel-protocol/src/engine/timers.rs:7-49 | Silent neighbours go with exactly their candidates, expired IHUs make a link unusable; every neighbour whose cost may have changed is named |
| `Engines.Engine.AgeCandidates` | crates/babel-protocol/src/engine/timers.rs:50-69 | All expired candidates, in any order: reachable ones become unreachable, unreachable ones go; counters stay right |
| `Engines.Engine.AgeTables` | crates/babel-protocol/src/engine/timers.rs:109-120 | Tombstones, lifetimes, sources and recent requests past their time go, and a lost source counts as a selection input |
| `Requests.RetriesAreBounded` | crates/babel-protocol/src/engine/timers.rs:137-167 | Over any run of ticks, with events between them that leave the request alone, as long as it is pending: each tick that finds it due sends it again and takes one retry, the one after the last gives it up, and otherwise it is the request it was |
| `Requests.RetryBacksOff` | crates/babel-protocol/src/engine/timers.rs:137-167 | Each retry doubles the wait |
| `Engines.Engine.RepeatDue` | crates/babel-protocol/src/engine/timers.rs:168-189 | Every due repeat is announced, counted down and put off, or forgotten after the last |
| `Engines.Engine.PeriodicUpdates` | crates/babel-protocol/src/engine/timers.rs:214-282 | Every interface whose period is up gets a full update and its next deadline |
| `EngineInvariants.NextPeriodic` | crates/babel-protocol/src/engine/timers.rs:291-299 | The next deadline is in the future |
| `Engines.Engine.InterfaceUp` | crates/babel-protocol/src/engine/interfaces.rs:17-54 | A new interface is added, a known one left alone, then a tick |
| `Engines.Engine.InterfaceAddressesChanged` | crates/babel-protocol/src/engine.rs:261-279 | The same addresses change nothing; others are stored and announced on that interface |
| `Engines.Engine.InterfaceDown` | crates/babel-protocol/src/engine.rs:280-286 | The interface, its neighbours and exactly their candidates go, and the selection is made anew |
| `Engines.Engine.ApplyPolicy` | crates/babel-protocol/src/engine/interfaces.rs:63-101 | A transport change drops the interface's neighbours, a metric reset rebuilds them and reprices all candidates |
| `Engines.Engine.InterfacePolicyChanged` | crates/babel-protocol/src/engine/interfaces.rs:56-110 | An unknown interface changes nothing; a known one gets the policy, and all promises hold afterwards |
| `Engines.Engine.ReplaceRoutePolicy` | crates/babel-protocol/src/engine/policy.rs:6-69 | Exactly the candidates the new policy accepts stay, pending output is invalidated and everything is announced anew |
| `Engines.Engine.Readmit` | crates/babel-protocol/src/engine/policy.rs:11-37 | Exactly the accepted candidates stay, and exactly the requests whose target still offers the route; counters recounted, prices and books kept |
| `Engines.Engine.Originate` | crates/babel-protocol/src/engine.rs:303-335 | The same metric changes nothing; otherwise the origin is entered, with a new number exactly if the metric got worse, and announced on every interface |
| `Engines.Engine.Withdraw` | crates/babel-protocol/src/engine.rs:336-354 | The origin goes; unless another route takes over it is held unreachable for its announced lifetime, and announced |
| `Engines.Engine.ReplaceOrigins` | crates/babel-protocol/src/engine.rs:422-481 | The given origins, at one number that is new exactly if some metric got worse; removed ones are held, and everything is announced |
| `EngineInvariants.BumpedImproves` | crates/babel-protocol/src/engine/sources.rs:153-158 | Fewer than 2^15 bumps make every own origin strictly newer |
| `EngineInvariants.SetImproves` | crates/babel-protocol/src/engine.rs:303-335 | Entering an origin never makes an announced distance of it worse than before in the feasibility order |
| `EngineInvariants.ReplacedImproves` | crates/babel-protocol/src/engine.rs:422-481 | Nor does replacing all origins |
| `Hello.HelloHistory.Record` | crates/babel-protocol/src/metric.rs:28-53 | The register stands for the list of the newest 16 outcomes after this Hello if and only if no undo is lost; restart is reported exactly beyond 16 either way |
| `Hello.HelloHistory.MissedMany` | crates/babel-protocol/src/metric.rs:59-66 | Any number of misses, coalesced, is the list with that many misses pushed |
| `Hello.HelloHistory.AppendMissed` | crates/babel-protocol/src/metric.rs:72-80 | Shifting in misses pushes them on the list and keeps 16 |
| `Hello.HelloHistory.Received` | crates/babel-protocol/src/metric.rs:86-94 | The number of Hellos received among the newest outcomes of the window |
| `Hello.Replay` | crates/babel-protocol/src/metric.rs:26-103 | Over any run of Hellos and misses that loses no undo, the register stands for the list |
| `Hello.LostUndoExample` | crates/babel-protocol/src/metric.rs:28-53 | Two Hellos and one 16 behind lose the undo |
| `Hello.CatchUpIsIterated` | crates/babel-protocol/src/engine/timers.rs:339-356 | The closed-form catch-up equals expiring one interval at a time |
| `Hello.CatchUpCoalesces` | crates/babel-protocol/src/engine/timers.rs:339-356 | Advancing at two times equals advancing once at the later |
| `Hello.AdvanceTimer` | crates/babel-protocol/src/engine/timers.rs:339-356 | Advances history and timer as that closed form, for every interval the count of expiries is representable for |
| `Hello.OverflowIsOneCall` | crates/babel-protocol/src/engine/timers.rs:350-351 | It is not representable for one call only: a zero interval, an expiry at zero and the last representable time |
| `WirePrefix.PrefixRoundTrip` | crates/babel-protocol/src/wire/prefix.rs:61-126 | Every prefix comes back from its own octets, whose number is the announced one |
| `WirePrefix.AddressRoundTrip` | crates/babel-protocol/src/wire/prefix.rs:30-59 | An address survives exactly when its encoding can represent it |
| `WireDecode.DecodePacketLoop` | crates/babel-protocol/src/wire/decode.rs:27-67 | The loop over an index computes the recursive decoder |
| `WireDecode.DecodeSubTlvsLoop` | crates/babel-protocol/src/wire/decode.rs:394-485 | So does the sub-TLV loop, with its accumulated state and all error returns |
| `WireDecode.DecodeBodyAppend` | crates/babel-protocol/src/wire/decode.rs:27-67 | A well-formed front part only hands its context on to what follows |
| `WireEncode.Encoder.Put` | crates/babel-protocol/src/wire/encode.rs:12-118 | Appends exactly the TLV's encoding and moves the context on, or reports the same error |
| `WireEncode.EncodeAllAppend` | crates/babel-protocol/src/wire/encode.rs:12-118 | Encoding is compositional in the context |
| `WireRoundTrip.SubTlvsRoundTrip` | crates/babel-protocol/src/wire/encode.rs:165-189 | Sub-TLVs come back |
| `WireRoundTrip.TailRoundTrip` | crates/babel-protocol/src/wire/encode.rs:152-163 | A source prefix and the sub-TLVs after it come back |
| `WireRoundTrip.HelloRoundTrip` | crates/babel-protocol/src/wire/decode.rs:105-120 | A Hello comes back and leaves the context alone |
| `WireRoundTrip.IhuRoundTrip` | crates/babel-protocol/src/wire/decode.rs:121-151 | An IHU comes back with its address |
| `WireRoundTrip.RouterIdRoundTrip` | crates/babel-protocol/src/wire/decode.rs:152-164 | A Router-ID comes back and becomes the context |
| `WireRoundTrip.NextHopRoundTrip` | crates/babel-protocol/src/wire/decode.rs:165-190 | A next hop comes back and becomes the context of its family |
| `WireRoundTrip.RouteRequestRoundTrip` | crates/babel-protocol/src/wire/decode.rs:306-344 | A route request for any key, source-specific or not, comes back |
| `WireRoundTrip.SeqnoRequestRoundTrip` | crates/babel-protocol/src/wire/decode.rs:346-392 | So does a seqno request |
| `WireRoundTrip.UpdateBodyRoundTrip` | crates/babel-protocol/src/wire/decode.rs:201-304 | An Update comes back with Router-ID and next hop resolved from the context |
| `WireRoundTrip.WildcardRoundTrip` | crates/babel-protocol/src/wire/decode.rs:201-304 | A wildcard retraction comes back |
| `WireRoundTrip.TlvDelivers` | crates/babel-protocol/src/wire/encode.rs:12-118 | Each outbound TLV, with the Router-ID and Next-Hop TLVs it pulls in, arrives as meant and leaves both contexts in agreement |
| `WireRoundTrip.RunDelivers` | crates/babel-protocol/src/wire/encode.rs:12-150 | So does any run of TLVs |
| `Packetizer.EncodePackets` | crates/babel-protocol/src/wire/packetizer.rs:82-147 | Every TLV goes into exactly one datagram, in order; each is within budget, holds one Hello at most, keeps a timestamped Hello with its IHUs, and decoded alone yields its TLVs as meant; too small a budget is reported exactly below four octets, and a list whose groups fit empty datagrams is never refused |
| `Packetizer.ContextOnlySaves` | crates/babel-protocol/src/wire/packetizer.rs:149-165 | A TLV never takes more room with context than without |
| `Packetizer.GroupEnd` | crates/babel-protocol/src/wire/packetizer.rs:97-111 | The end of the group that starts here |
| `WireCompression.OmittedUpdateDecodes` | crates/babel-protocol/src/wire/decode.rs:240-262 | An Update with omitted octets means the same as with them written out |
| `WireCompression.CompressionPreservesMeaning` | crates/babel-protocol/src/wire/decode.rs:201-304 | A compressed stream decodes to the same TLVs, the same error and the same context as the uncompressed one |
| `WireTimestamp.StampHelloTimestamps` | crates/babel-protocol/src/wire/packetizer.rs:19-75 | In place, octet for octet and error for error the specified rewriting |
| `WireTimestamp.StampingCommutes` | crates/babel-protocol/src/wire/packetizer.rs:17-75 | A datagram that decodes is stamped without error, keeps its length, and decodes to the same TLVs with every Hello timestamp replaced |
| `Mac.TlvsLoop` | crates/babel-protocol/src/mac.rs:390-406 | The loop computes the recursive framing |
| `Mac.TlvsAppend` | crates/babel-protocol/src/mac.rs:390-406 | Framing is compositional |
| `Mac.AuthenticatedBytesInjective` | crates/babel-protocol/src/mac.rs:139-157 | Within one family the authenticated octets determine both endpoints and the packet |
| `Mac.SignedIsValid` | crates/babel-protocol/src/mac.rs:216-248 | Whoever shares a key with the signer finds the datagram valid, and it is longer by exactly the overhead |
| `MacSessions.MacSession.constructor` | crates/babel-protocol/src/mac.rs:191-204 | A session starts with counter zero and no peers |
| `MacSessions.MacSession.SignPacket` | crates/babel-protocol/src/mac.rs:216-248 | Allocates the next (index, counter), with a fresh index on overflow, and appends one tag per key |
| `MacSessions.MacSession.ReceivePacket` | crates/babel-protocol/src/mac.rs:256-371 | Expiry, authentication, peer limit, counters and challenges, as one function of the session |
| `MacReplay.ScanMeans` | crates/babel-protocol/src/mac.rs:308-329 | The receive loop takes the first packet counter and succeeds exactly when a reply carries the live nonce |
| `MacReplay.NoReplay` | crates/babel-protocol/src/mac.rs:256-371 | In every run without an authentic late reply, whatever else the network delivers, over restarts, index changes, challenges and expiry, no signed datagram is accepted twice, and no two share source, index and counter |
| `MacReplay.LateReplyReplays` | crates/babel-protocol/src/mac.rs:338-371 | Conversely, every authentic reply that confirms the current index with an older counter, before the last representable time, lets an accepted datagram in again |
| `MacLateReply.LateReplyRun` | crates/babel-protocol/src/mac.rs:308-371 | For any strict setting, two indices and two nonces there is an orderly run after which such a reply is allowed, is not orderly, and makes an accepted datagram acceptable again |
| `MacLateReply.LateReplyHappens` | crates/babel-protocol/src/mac.rs:308-371 | A concrete setting, run and reply of that kind |
| `Scheduler.OutputScheduler.constructor` | crates/babel-router/src/output.rs:57-69 | A new scheduler is empty and balanced |
| `Scheduler.OutputScheduler.Enqueue` | crates/babel-router/src/output.rs:71-103 | The intent joins the batch of its destination, which keeps the earliest release, deadline and expiry, or starts one; its TLVs are accounted for |
| `Scheduler.ReleaseTime` | crates/babel-router/src/output.rs:78-82 | Inside the jitter window, and early enough for the transport's margin before the deadline |
| `Scheduler.OutputScheduler.Expire` | crates/babel-router/src/output.rs:107-120 | Exactly the expired batches and datagrams go, and the counts returned are theirs |
| `Scheduler.WakeIsFirstDue` | crates/babel-router/src/output.rs:122-134 | Before the wake-up time nothing is due, from then on something is |
| `Scheduler.OutputScheduler.PopDue` | crates/babel-router/src/output.rs:136-170 | Does nothing before the wake-up time; from then on sends the datagram that is due first, drops one refused batch, or leaves the next wake-up in the future; pacing yields only to deadlines |
| `Scheduler.OutputScheduler.SendNext` | crates/babel-router/src/output.rs:142-169 | Sends exactly if something is ready; what leaves first is due no later than all that stays |
| `Scheduler.OutputScheduler.PacketizeDue` | crates/babel-router/src/output.rs:172-194 | Every due batch is encoded within budget and no TLV is lost or doubled; a refused batch is dropped and reported |
| `Scheduler.PickNext` | crates/babel-router/src/output.rs:142-157 | The first, in queue order, of the datagrams that must leave earliest |
| `Scheduler.CutLosesNothing` | crates/babel-router/src/output.rs:172-194 | Cutting a batch into datagrams keeps every TLV with its deadline and expiry |
| `Projection.ProjectRoutes` | crates/babel-rs/src/linux/projection.rs:5-60 | The loop over views and routes computes the specified tables |
| `Projection.PickIsBest` | crates/babel-rs/src/linux/projection.rs:10-56 | What a view keeps for a destination is an entry it takes that no other it takes is better than, or nothing only if it takes nothing |
| `Projection.TableHoldsPick` | crates/babel-rs/src/linux/projection.rs:5-60 | Each table holds exactly what its view picks, other views' entries notwithstanding |
| `Projection.WalkIsDestinationFirst` | crates/babel-rs/src/linux/projection.rs:5-75 | Kernel lookup, rules by source and then longest destination, finds an entry exactly if one covers the packet, and it is the best by destination first and source second |
| `Projection.BestIsUnique` | crates/babel-rs/src/linux/projection.rs:62-75 | That best entry is unique |
| `Allocation.SourceTables.Views` | crates/babel-rs/src/linux/projection.rs:93-142 | Explicit views, then one per active source; whether it succeeds or not, surviving numbers stay, new ones are free and in range, tables are distinct exactly if the survivors were; fails only when all numbers are taken |
| `Allocation.AssignAll` | crates/babel-rs/src/linux/projection.rs:115-141 | The allocation loop: kept numbers stay, new ones are the free ones, failure only without any left |
| `Allocation.NextFree` | crates/babel-rs/src/linux/projection.rs:125-129 | The first free number at or above the given one, or failure only if there is none |
| `Allocation.InjectiveIffKept` | crates/babel-rs/src/linux/projection.rs:93-142 | Distinct exactly when the survivors are |
| `Allocation.TablesStayDistinct` | crates/babel-rs/src/linux/projection.rs:93-142 | In every state of a lifetime, over reloads and failed allocations, no two sources share a table and recovered sources keep theirs |
| `Allocation.ActiveSourceKeepsTable` | crates/babel-rs/src/linux/projection.rs:110-114 | If and only if: a source keeps its table over a reconciliation exactly when the configuration permits the number |
| `Allocation.StaysWithTable` | crates/babel-rs/src/linux/projection.rs:93-142 | Over a whole lifetime a source that stays active keeps its table as long as every configuration on the way permits it |
| `Allocation.UnchangedConfigurationKeepsTables` | crates/babel-rs/src/linux/projection.rs:93-142 | Under one configuration it always does |
| `Allocation.CollidingHeldCollide` | crates/babel-rs/src/linux/projection.rs:93-142 | Colliding recovered rules share a table |
| `Allocation.AllocationCompletesViews` | crates/babel-rs/src/linux/projection.rs:93-142 | Allocation leaves the complete views that make the kernel's walk destination-first |
| `Recovery.LoadedSpares` | crates/babel-rs/src/linux/recovery.rs:94-171 | After a startup a route is spared exactly when it was found eligible under an unchanged scope and neither its window nor the deadline on record has passed |
| `Recovery.Recovery.Keep` | crates/babel-rs/src/linux/recovery.rs:210-222 | A route is spared exactly while it is pending, unexpired, unrevoked and its destination is not confirmed in its table |
| `Recovery.RevokedNeverSpares` | crates/babel-rs/src/linux/recovery.rs:181-187 | Once recovery is revoked, every later reconciliation of that process leaves only what it wants in the kernel and nothing in the journal |
| `Recovery.Recovery.Applied` | crates/babel-rs/src/linux/recovery.rs:224-248 | Exactly the entries that are neither settled nor expired stay; a write is asked for exactly when something changed since the last one, and when none is asked for the disk holds the journal |
| `Recovery.ReloadSpares` | crates/babel-rs/src/linux/recovery.rs:338-358 | A reload takes the sparing away from exactly the routes it rejects |
| `Recovery.ReloadedOutStaysOut` | crates/babel-rs/src/linux/recovery.rs:338-358 | A route a saved reload rejects is never spared again, over any later restarts, while it stays in the kernel |
| `Recovery.ChangedScopeReleasesSources` | crates/babel-rs/src/linux/recovery.rs:338-358 | A reload under another scope releases every reserved table for good |
| `Recovery.Recovery.Sources` | crates/babel-rs/src/linux/recovery.rs:189-208 | The loop computes the reserved tables, none without automatic sources |
| `Recovery.HeldIffRule` | crates/babel-rs/src/linux/recovery.rs:189-208 | A source is reserved exactly if some rule of it is held, at the last such rule's table |
| `Recovery.HeldOnlyExpires` | crates/babel-rs/src/linux/recovery.rs:189-208 | With time the reserved sources only get fewer, and a source whose rules name one table keeps it |
| `Recovery.DoubledRulesMove` | crates/babel-rs/src/linux/recovery.rs:189-208 | Conversely, a source whose rules name two tables can be moved by time alone |
| `Recovery.StartupKeepsDeadline` | crates/babel-rs/src/linux/recovery.rs:94-171 | A startup keeps a recorded bound if and only if it finds the route eligible |
| `Recovery.CrashLoopsNeverRenew` | crates/babel-rs/src/linux/recovery.rs:94-262 | Over any interleaving of startups, reconciliations, failed writes, reloads, revocations and crashes, a route that stays unconfirmed keeps its first deadline as a bound and is not spared after it |
| `Recovery.RejectedStaysRejected` | crates/babel-rs/src/linux/recovery.rs:94-171 | A route rejected by a changed scope is never spared again while it stays in the kernel |
| `Recovery.ForgottenRouteIsRenewed` | crates/babel-rs/src/linux/recovery.rs:94-171 | One startup that finds the route ineligible lets the next grant a full window |

## Left out

- Order and grouping of actions: an event's actions are a set, so the order of sends and their grouping into packets is not stated; the scheduler and packetizer state order for what they are handed.
- Hello, IHU, Ack, wildcard and refresh RouteRequest outputs of the engine, RTT probes and output jitter: they carry no routing state.
- Hello histories and metrics inside the engine: a packet or tick enters with the observed receive cost, restart and silence of its neighbour as values; the history itself is proved in `Hello`, user-supplied metric profiles are not part of this model.
- UndercutExample.Undercut: the state is set up field by field and shown to keep every promise between events; no run of events that reaches it is given.
- SpoilExample.SpoilRoute: its state is set up in the same way, and the two TLVs and the reselection of the packet are taken one by one.
- Undercutting.TaintIsUndercut: one way only; a packet may undercut a key in this sense and leave its condition alone, for instance with an Update that is not feasible (`EngineInvariants.UpdateCostsCondition` is exact for one Update).
- EngineOutput.UpdateSendsFit: that tombstones hold valid keys is a hypothesis, not an invariant of the engine.
- Engines.Engine.Observe: receive cost, restart and RTT penalty of the neighbour are inputs, not computed from its Hello history and timestamps.
- Engines.Engine.AgeNeighbors: silence and receive cost of a neighbour are inputs, not computed from its Hello timers.
- Engines.Engine.constructor: engine configuration is taken as valid, the checks of `EngineConfig::validate` are not modelled; an interface that comes up without a policy is one that comes up with the default policy.
- Engines.Engine.Validate: which of the two intervals was zero is not reported.
- Engines.Engine.PickTarget: among equally good targets any may be chosen, the source takes the first in map order.
- Engines.Engine.RequestLost: among several candidates any may be asked, the source takes the first in map order.
- The guard against metrics that do not grow (crates/babel-protocol/src/engine/rib.rs:98-100) is unreachable after `SafeExtend` and has no counterpart.
- Network.LoopFree: runs in which an event undercuts the key are not loop-free by this theorem (`Network.LoopHasCause` names the event); engine restarts with empty tables are not steps of the network, and loops through several (key, router-id) pairs, which the protocol permits for short times, are not excluded.
- Withdrawal.HoldOverRun: an announcement made in the very event that drops the key is not covered, because the source records lifetimes after the event.
- Allocation.AllocationCompletesViews: explicit views with their own rule priority or filter, which the operator orders, are excluded.
- Digests: HMAC-SHA256 and BLAKE2s are an arbitrary function with results of the right length; comparing in constant time is not modelled.
- Reservations of the output budget, the transport, sockets, netlink calls, persistence of the journal as a file, the control socket, configuration files and logging.
- Rejection counters, status reports and the names and descriptions of errors.
- Jitter's random generator: any draw within the window is allowed.
