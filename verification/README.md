# MeshGhost: a verified model

MeshGhost draws the other players of a game as ghosts. A game-blind relay orders and forwards what a room's members do;
a client core buffers what it hears and hands it to the game's adapter; a shared wire layer sits between them. This
project models the parts whose correctness depends on more than one function, and proves what their documentation and
tests promise. `dafny verify dfyconfig.toml` checks all of it.

| module | what it models |
|---|---|
| `SnapshotBuffer` | a peer's time-sorted, trimmed sample buffer and what is drawn from it |
| `LossCover` | the previous sample carried in each packet, from sender to buffer |
| `JsonText`, `JsonLimits` | the JSON string encoder (section 7 of RFC 8259), and the depth and length scanners measured against it |
| `RenderQueue` | the coalescing queue to the adapter and the frame loop that feeds it |
| `Escrow`, `Leases`, `World`, `Backlog` | the relay room's planes: exchanges, leases, world custody, events |
| `EscrowProvenance`, `Authority` | which request every committed blob goes back to; leases and world in one room |
| `Batching`, `Session` | world batches, and the bounded bursts of a join or resume |
| `Outbox`, `Delivery` | the two-class queues, and the sequencer's way to every member |
| `ReplayDelta`, `ReplayCuts` | recordings as deltas, and skip_gaps surgery on samples and input edges |
| `Admission` | seats, buffers, names and silence on the client |
| `ClockSync`, `DisplayName` | the clock estimate and latch, and the name sanitizer |
| `Lists`, `Subsequences`, `Wire` | shared sequence facts and the values that cross the wire |

Each stateful component appears twice: as a pure step function on a record, about which the run-level theorems are
proved, and as a class whose methods make the source's own loops and field updates and are proved to take exactly those
steps. Where the source leaves an order to map iteration, the order is a parameter. Where it reads a clock or a socket,
the reading is a parameter. Timers are steps that may happen at any time with what they captured. Each room plane is a
machine of its own in which the others appear as stamps taken in between (`Elsewhere`); `Authority` steps leases and
world together, and `Delivery` puts every plane's lines through one sequencer. A room's theorems hold for every
interleaving of those steps.

What the proofs found, beyond what the documentation says:

- `ClampLeaseTTL` multiplies in 64 bits, so a hold of more than 9,223,372,036,854 ms can wrap to the one-second minimum
  (`Leases.ClampKeepsPromise` gives the exact condition).
- A render tick between `forgetRelaySessionLocked` and `dropAllRemotes`, or between the two halves of a Leave, can age a
  gone peer's buffer out into the memory, from where a state with that id takes a seat no relay announced
  (`Admission.TickInTheGapRemembers` is such a run). Nobody unannounced gets in throughout a run if and only if no tick
  finds such a buffer silent with room to remember it (`Admission.StrangersStayOut`; `Admission.SparesWithRoom` for one
  walk).
- A Join and a Welcome seat an id in one critical section and store its name in a later one. A name outlives its seat if
  and only if the seat, and any memory of it, goes in between (`Admission.NamesNeedTheirSeat`); a reset there leaves a
  name behind in the next session (`Admission.ResetOrphansAName`).
- `sameExtra` equates maps that hold nulls under different keys, which loses a recorded value
  (`ReplayDelta.NestedNullsAreLost`); `ReplayDelta.RecordingReadsBack` says exactly which recordings read back.
- A round trip under a millisecond is kept as "no sample", so a slower one replaces it (`ClockSync.KeptIsSmallest`).
- A trimmed buffer draws something else than the whole history exactly at or before its oldest sample's time, once
  anything was dropped (`SnapshotBuffer.TrimmingShowsExactly`).
- The pre-Welcome hold is documented as the outbox's policy. The two part if and only if a reliable line comes after the
  queue is full while the reliable lines alone would fit: the outbox would disconnect, the hold displaces a lossy line
  (`Outbox.PoliciesPart`).

## Model

| member | source | states |
|---|---|---|
| `SnapshotBuffer.RemoteBuffer.Add` | core/interp.go:50-82 | adding a sample leaves exactly the insertion, cap and age trim of the sample into the old buffer, and keeps the buffer sorted |
| `SnapshotBuffer.AddedKeepsOrder` | core/interp.go:50-82 | every add keeps the buffer in timestamp order, within 1024 samples, with a newest sample, of those held and added, as its last |
| `SnapshotBuffer.AddedIsLongestTail` | core/interp.go:50-82 | an arrival older than all of a full buffer changes nothing; any other leaves the longest tail of the samples, the new one among them, that is within 1024 and the window |
| `SnapshotBuffer.HistoryIsComplete` | core/interp.go:50-65 | the reference history is sorted and holds exactly the samples that arrived |
| `SnapshotBuffer.HistoryIsStable` | core/interp.go:57-65 | samples of one timestamp stand in the history in the order they arrived in |
| `SnapshotBuffer.BufferRefinesHistory` | core/interp.go:50-82 | whatever the order of arrival, the buffer is a suffix of the stable sorted history, and everything it lacks is older than the window |
| `SnapshotBuffer.RemoteBuffer.HasSample` | core/interp.go:87-97 | the binary search finds a sequence number and timestamp exactly when a held sample has both |
| `SnapshotBuffer.RemoteBuffer.RenderAt` | core/interp.go:188-211 | what is drawn is the linear-and-hold rendering of the held samples |
| `SnapshotBuffer.RenderIsLinear` | core/interp.go:188-232 | between two neighbouring samples of one area every coordinate stands on the line between theirs; across areas, or lengths of position, the older sample is drawn unchanged |
| `SnapshotBuffer.TrimmingIsInvisible` | core/interp.go:188-232 | whatever arrived, numbered or not, strictly after the oldest held sample the trimmed buffer draws what the whole history would |
| `SnapshotBuffer.TrimmingShowsExactly` | core/interp.go:50-232 | of a stream that numbers its samples, the trimmed buffer draws what the whole history would if and only if the time is after the oldest sample held or nothing was dropped |
| `SnapshotBuffer.TrimmingShowsAtTheOldest` | core/interp.go:188-232 | for every window a stream whose trimmed buffer draws another sample's opaque fields at its oldest time |
| `SnapshotBuffer.LerpEnds` | core/interp.go:216-232 | a blend is the older sample at its start, and has the newer one's position at its end |
| `SnapshotBuffer.RenderMeetsSamples` | core/interp.go:188-232 | drawn at a held sample's time, the ghost stands where a sample of that time puts it |
| `JsonText.AppendJSONString` | protocol/envelope.go:45-87 | appends exactly the encoding of the string and leaves what was there |
| `JsonText.StringRoundTrip` | protocol/envelope.go:45-97 | a reader of the encoded string gets the string back, invalid UTF-8 repaired and nothing else changed |
| `JsonText.AppendEnvelope` | protocol/envelope.go:14-29 | a reader of what was appended finds the type, repaired, and the payload byte for byte, null for an empty one; what was there before stays |
| `JsonText.EnvelopeRoundTrip` | protocol/envelope.go:14-29 | every envelope reads back as its type and payload, and breaks the line nowhere its payload does not |
| `JsonText.ReservedIsExact` | protocol/envelope.go:33-40 | the reserved length never exceeds the line, and equals it if and only if the type needs no escape |
| `JsonLimits.RawJSONDepthWithinLimit` | protocol/limits.go:230-259 | the byte loop is the bracket automaton that skips strings and escapes |
| `JsonLimits.FastDepthEqualsSlow` | protocol/limits.go:203-259 | on the encoding of any value the byte scan accepts exactly when the walk of the tree does |
| `JsonLimits.ScanString` | protocol/limits.go:230-259 | no string, whatever brackets, quotes or escapes it holds, moves the scan |
| `JsonLimits.JsonStringLenBound` | protocol/limits.go:353-372 | the bound is the sum of the worst cases and never below the encoder's length |
| `JsonLimits.StringBoundHolds` | protocol/limits.go:353-372 | for every byte string the bound covers the encoding |
| `JsonLimits.ExtrasLengthBound` | protocol/limits.go:316-348 | gives up exactly on a nested value, and otherwise never under-counts the encoder |
| `JsonLimits.ExtrasWithinLimit` | protocol/limits.go:264-289 | with its fast accept, it accepts exactly the extras nested within 32 levels and within 1024 encoded bytes |
| `JsonLimits.JSONWireLen` | protocol/limits.go:294-308 | is exactly the length of the raw value once HTML-sensitive runes are escaped |
| `LossCover.MergeUndoesDelta` | protocol/prev.go:41-142 | merging the extras delta gives the previous extras back if and only if every null in them is a null in the carrying state too |
| `LossCover.ApplyUndoesBuild` | protocol/prev.go:41-142 | ApplyPrev accepts and returns the previous state exactly, if and only if no null in it would read as absence |
| `LossCover.BuildPrev` | protocol/prev.go:41-84 | builds the delta of the two states, extras included |
| `LossCover.ApplyPrev` | protocol/prev.go:89-142 | applies the carried delta, refusing what does not validate |
| `LossCover.Sender.Send` | core/sending.go:33-141 | stamps the state, attaches its predecessor's delta and remembers it for the next |
| `LossCover.PacketCarries` | core/sending.go:122-141 | each packet of a legal stream carries its predecessor exactly |
| `LossCover.StoreSample` | core/remotes.go:72-84 | the receiver buffers the carried sample when it lacks it, then the carrying one |
| `LossCover.RecoveredIsLegal` | protocol/prev.go:89-142 | whatever delta a valid packet carries, what it yields is within every bound a state must meet, and has the delta's number and time |
| `LossCover.OnlyLegalIsBuffered` | core/remotes.go:17-92 | whatever packets arrive, every sample ever buffered is within every bound |
| `LossCover.ReaddIsNoOp` | core/remotes.go:72-84 | a carried sample the buffer has already aged out is put back and goes again, changing nothing |
| `LossCover.CoverRestoresStream` | core/remotes.go:72-84 | for any loss pattern without two losses in a row, after each packet received the buffer is that of a receiver of every sample |
| `LossCover.LossyEqualsLossless` | core/remotes.go:72-84 | a lossy and a lossless receiver hold the same buffer after each packet both received |
| `RenderQueue.AdapterWriter.Enqueue` | core/adapterwriter.go:108-156 | with its index map the queue changes exactly as a queue searched for the player's unsent render would |
| `RenderQueue.AdapterWriter.ForgetPending` | core/adapterwriter.go:160-164 | shuts the player's unsent render against replacement and changes nothing else |
| `RenderQueue.AdapterWriter.TakeBatch` | core/adapterwriter.go:167-191 | the writer takes the whole queue and the index with it |
| `RenderQueue.AdapterWriter.SendNext` | core/adapterwriter.go:195-213 | a write moves one message to the wire; a failed one ends the connection and drops the rest |
| `RenderQueue.AdapterWriter.Close` | core/adapterwriter.go:230-243 | abandons what is queued, once |
| `RenderQueue.AdapterWriter.SendToAdapter` | core/bridgeserve.go:515-537 | a despawn shuts the player's render before it is queued; the result says whether the connection lives |
| `RenderQueue.ReplacingInQueue` | core/adapterwriter.go:114-119 | replacing a render in place draws the same as sending the newer one last, and moves no other message |
| `RenderQueue.EnqueueKeepsInv` | core/adapterwriter.go:108-156 | each enqueue keeps delivered-then-queued equal in meaning to everything sent |
| `RenderQueue.EnqueueIsHeeded` | core/adapterwriter.go:108-156 | an open connection ends at a message if and only if 8192 wait and no unsent render of its player can be replaced; otherwise the message takes that render's place or the queue's end |
| `RenderQueue.ClosedOnlyWhenEnded` | core/adapterwriter.go:108-243 | over every run a connection is closed if and only if a message found it stuck, a write failed or it was closed |
| `RenderQueue.DrainDelivers` | core/adapterwriter.go:167-213 | from any state a writer whose writes succeed delivers everything that waits, in order, and is left with nothing |
| `RenderQueue.CoalescingPreservesMeaning` | core/adapterwriter.go:108-243 | in every disciplined run that discards nothing, delivered-then-queued draws what all messages would, the others keep their order exactly once, and even a dead connection delivered them as a prefix |
| `RenderQueue.DisciplineIsNeeded` | core/bridgeserve.go:515-537 | two producers interleaving inside one despawn can lose the newest render |
| `RenderQueue.TickReachesAdapter` | core/remotes.go:250-270 | after a tick, however interleaved, what the adapter will have drawn once all is written is exactly that tick's current set |
| `RenderQueue.TickRenders` | core/remotes.go:250-270 | one tick's loops leave everything sent drawing exactly the current set, and record it as rendered |
| `Escrow.EscrowTable.HandleEscrow` | relay/escrow.go:139-225 | one request has exactly the effect of its step, and keeps the table sound |
| `Escrow.EscrowTable.MakeRoom` | relay/escrow.go:64-70 | the eviction loop runs at most once, always finds a victim, and its way out without one is never taken |
| `Escrow.EscrowTable.EvictTerminal` | relay/escrow.go:82-108 | deletes an oldest ended record nobody suspended waits for, or an oldest owed one when all are owed; finds none only when all are live |
| `Escrow.EscrowTable.FinishEscrow` | relay/escrow.go:242-273 | ends an exchange: counters, phase, blobs kept only when committed, both parties told |
| `Escrow.EscrowTable.TimeoutEscrow` | relay/escrow.go:286-299 | a timeout, however stale, aborts a live exchange and touches nothing else |
| `Escrow.EscrowTable.RetireEscrow` | relay/escrow.go:265-271 | retirement deletes the record it was armed for and never a later one with its id |
| `Escrow.EscrowTable.AbortEscrowsOf` | relay/escrow.go:303-311 | walks every record and ends the live ones of a party that left |
| `Escrow.EscrowTable.EscrowSnapshot` | relay/escrow.go:338-351 | sends the first 48 of a party's exchanges |
| `Escrow.VictimExists` | relay/escrow.go:64-70 | a full table always has a record to evict |
| `Escrow.OwedGoLast` | relay/escrow.go:49-108 | a record leaves the table only once ended, by its own retirement or for an open at 256 records, oldest first; one a suspended party waits for makes room only when every ended record is waited for |
| `Escrow.BothOrNeither` | relay/escrow.go:110-273 | over every run: blobs leave only in a committed state, which carries exactly what both parties deposited, once each, after both committed; all reports of an exchange's end agree, and none is followed by a report that it lives |
| `Escrow.OutcomesAreForever` | relay/escrow.go:242-273 | no step changes how an exchange ended |
| `Escrow.EndsOnlyByItsOwn` | relay/escrow.go:139-311 | a live exchange ends only by a party's own step, its timeout or a party's departure, with the matching phase and reason |
| `Escrow.OpenIsHeeded` | relay/escrow.go:151-183 | in every reachable room an open is granted, and both told, if and only if its id is unused, its partner another member, and fewer than 64 exchanges are live and 8 of the opener's; otherwise the asker is refused |
| `Escrow.PartIsHeeded` | relay/escrow.go:184-216 | a party's first deposit or commitment in a live exchange counts: with the last one missing the exchange commits with both blobs, else both are told what is in; any other changes nothing |
| `Escrow.AbortIsHeeded` | relay/escrow.go:217-225 | a party's abort ends its live exchange without blobs and both are told; any other changes nothing |
| `Escrow.TimeoutIsHeeded` | relay/escrow.go:286-299 | a timeout ends a live exchange of its id without blobs and both are told; else it changes nothing |
| `Escrow.DepartureIsHeeded` | relay/escrow.go:303-311 | a departure ends exactly the live exchanges of who left, and a retirement deletes exactly the record it names |
| `Escrow.EveryEndIsTold` | relay/escrow.go:242-282 | over every run the end of every exchange was told to both its parties, with the blobs when it was committed |
| `Escrow.LinesGoToBoth` | relay/escrow.go:276-282 | over every run whatever is sent about an exchange outside a resume snapshot is addressed to both its parties |
| `Escrow.DeskFollowsSteps` | relay/escrow.go:37-45 | over every run the members and the suspended are those the joins, suspensions, returns and removals say |
| `Escrow.ActsWereAsked` | relay/escrow.go:178-210 | every deposit and commitment on record, blob included, is a request that party made naming that very exchange |
| `EscrowProvenance.BlobsWereGiven` | relay/escrow.go:110-273 | over every run, each blob of a committed state was deposited by its party in a request naming the exchange the state names, and that party asked to commit it |
| `EscrowProvenance.RunIsNamed` | relay/escrow.go:139-273 | every record and every line about an exchange goes by the id it was opened under, however often ids are reused |
| `Escrow.TableAccounting` | relay/escrow.go:49-108 | in every reachable table the counters equal the live records in total and per opener, live stays within 64 and 8, the table within 256, and no complete exchange is still live |
| `Escrow.SnapshotTells` | relay/escrow.go:320-352 | a resume snapshot sends at most 48 states, in order, and leaves out a live exchange only when every line is about a live one |
| `Leases.LeaseTable.HandleLease` | relay/leases.go:20-81 | one request has exactly the effect of its step, and keeps the table sound |
| `Leases.LeaseTable.GrantLease` | relay/leases.go:116-163 | grants, re-counts, and announces to everyone unless nothing changed to the second; the world follows when the holder changed |
| `Leases.LeaseTable.FreeLease` | relay/leases.go:168-184 | drops the key, its count, and tells everyone why |
| `Leases.LeaseTable.ExpireLease` | relay/leases.go:188-201 | a timer frees only the lease of the holder it captured, and only when that is due |
| `Leases.LeaseTable.ReleaseLeasesOf` | relay/leases.go:205-213 | frees every key of a member that left, and no other |
| `Leases.LeaseTable.LeaseSnapshot` | relay/leases.go:216-227 | restates every held key to one member |
| `Leases.ClampKeepsPromise` | protocol/online.go:137-151 | the clamp is the documented one if and only if the hold fits a 64-bit nanosecond count or the wrapped product lands at or above the maximum |
| `Leases.ClampCanWrap` | protocol/online.go:137-151 | a hold of 9,223,372,036,855 ms is granted for one second instead of five minutes |
| `Leases.LeaseExclusion` | relay/leases.go:20-201 | over every run, two grants of one key to different holders have a released, expired or holder_left line between them |
| `Leases.ExpiryIsNeverEarly` | relay/leases.go:188-201 | an expiry is announced only of a held key, at or after its last granted expiry, whatever timers fire |
| `Leases.TableIsRight` | relay/leases.go:83-110 | what was last said of a key is the truth, each member's count is the number of keys it holds, at most 32, and the room holds at most 256 |
| `Leases.SilentRenewalsAreHarmless` | relay/leases.go:149-155 | although unremarkable renewals go to the holder alone, every member present throughout knows each holder, and each expiry to the second |
| `Leases.OnlyHolderOrTimeFrees` | relay/leases.go:20-213 | a key leaves its holder only by its own release, its departure, or an expiry that is due |
| `Leases.HolderIsNeverRefused` | relay/leases.go:33-60 | a holder's claim or renewal always succeeds, however full the table |
| `Leases.ClaimIsHeeded` | relay/leases.go:34-56 | in every reachable table a claim is granted if and only if the key is the claimant's, or free while fewer than 256 keys are held and 32 by the claimant; everyone is told unless nothing changed, and a refusal goes to the claimant with its reason |
| `Leases.RenewalIsHeeded` | relay/leases.go:57-71 | a renewal is granted to the holder alone; anyone else is told who holds the key |
| `Leases.ReleaseIsHeeded` | relay/leases.go:72-201 | a holder's release and a due expiry free the key and tell everyone; any other changes nothing |
| `Leases.DepartureIsHeeded` | relay/leases.go:205-213 | whoever leaves loses exactly its keys, and everyone is told of each |
| `Leases.SnapshotTells` | relay/leases.go:216-227 | a resuming member alone is told who holds every key, and until when |
| `Leases.RoomFollowsSteps` | relay/leases.go:20-227 | over every run the members, and those that heard everything, are those the joins, suspensions and removals say |
| `World.WorldTable.HandleWorld` | relay/world.go:32-114 | one write has exactly the effect of its step: denied, ignored, refused, or stored and told to everyone else |
| `World.WorldTable.PackWorld` | relay/world.go:133-155 | sends the entries in the minimal batches, stamped one after another |
| `World.WorldTable.WorldSnapshot` | relay/world.go:185-204 | sends one authority's whole world and nothing else, an empty one as one message |
| `World.WorldTable.WorldSnapshotAll` | relay/world.go:209-235 | sends every authority's world, in no more lines than there are entities |
| `World.Converges` | relay/world.go:32-114 | a member connected since it entered, seeded, that writes nothing, gets every reliable line and any lossy ones in any order, draws exactly the relay's entities, each with the relay's blob where its newest word arrived |
| `World.ListenersConverge` | relay/world.go:32-235 | so does every member that the run's own steps show to have entered, been seeded, stayed and asked to write nothing |
| `World.HolderIsHeeded` | relay/world.go:54-97 | a holder's drop removes the entity and its set of a known one, or a reliable one with room, stores that blob; every member but it is told in one line, lossy only for a lossy set |
| `World.WorldIsItsLog` | relay/world.go:82-104 | over every run the relay's world is exactly what the lines it sent as written spell out |
| `World.NewcomersAreTold` | relay/world.go:185-235 | whoever adopts an authority, is seeded or resumes is told every entity due to it with its blob, reliably and as the last word, and nobody else is told anything |
| `World.RoomFollowsSteps` | relay/world.go:32-235 | over every run the members and holders are those the entries, removals, grants and frees say |
| `World.OnlyHolderWrites` | relay/world.go:48-97 | an entity changes only by its authority's holder, to exactly what was written, and is created only by a reliable write below the bound |
| `World.WorldIsBounded` | relay/world.go:69-72 | no reachable world holds more than 64 entities |
| `World.ViewIsNewest` | relay/world.go:32-114 | whatever the order of arrival, a view that applies only newer words holds a newest word received |
| `Authority.RoomRefinesPlanes` | relay/world.go:32-114 | a run of the room, leases and world stamped together, is a run of each plane |
| `Authority.WritersHoldTheLease` | relay/world.go:46-104 | over every run, each world line names exactly whom the lease lines stamped before it last said holds its authority |
| `Authority.DeniedIffNotHolder` | relay/world.go:54-62 | a write is answered as denied if and only if the lease lines do not name the writer, and then changes nothing and tells it who holds the authority |
| `Authority.NamedHolderIsHeeded` | relay/world.go:46-104 | in every reachable room whoever the lease lines name as holder has its writes take effect, and every other member is told |
| `Authority.OneWriterAtATime` | relay/leases.go:20-201 | between world lines of one authority under different holders, a lease line tells the room that the key was free |
| `Batching.Pack` | relay/world.go:133-155 | the loop emits exactly the greedy batches, and one empty batch for no entries |
| `Batching.PackedIsComplete` | relay/world.go:133-155 | the batches concatenate to the entries and each is a single entry or within the budget |
| `Batching.PackedIsMinimal` | relay/world.go:129-155 | no other way of cutting the entries into batches that may be sent uses fewer |
| `Backlog.EventPlane.HandleEvent` | relay/online.go:96-126 | stamps the event, routes it to everyone or to the addressee and the sender, and holds it for every suspended recipient |
| `Backlog.EventPlane.QueueMissed` | relay/online.go:135-158 | a full backlog gives up its oldest broadcast, or its oldest event when all are addressed |
| `Backlog.EventPlane.MissedEvents` | relay/online.go:163-176 | takes and clears a returning member's backlog, stamps unchanged |
| `Backlog.BacklogKeepsNewest` | relay/online.go:128-158 | whatever arrived, the backlog is the events in order, at most 64, the newest of each class, and exactly how many addressed ones remain |
| `Backlog.MissedEventsAreHeld` | relay/online.go:96-176 | over every run a member's backlog is that of exactly the events meant for it that the run's joins, suspensions and returns say it was away for, in the sequencer's order |
| `Backlog.EventsAreRouted` | relay/online.go:96-126 | over every run each event adds one line with the next stamp: a broadcast to exactly those here, any other to its sender and to its addressee when that is here |
| `Session.PriorityLinesSurvive` | relay/resume.go:281-331 | events, escrows and world lines within their bounds survive the 192-line cut whole |
| `Session.ResumeLosesNothingPrecious` | relay/resume.go:298-316 | in every reachable room those three sections together are within the cut |
| `Session.RosterThatFits` | relay/relay.go:334-367 | the binary search finds the largest roster prefix whose Welcome fits, or none |
| `Outbox.LineQueue.Enqueue` | relay/outbox.go:57-81 | queues, displaces the oldest lossy line, yields or refuses exactly as the policy says |
| `Outbox.LineQueue.NextLine` | relay/outbox.go:95-109 | one pass of the writer takes the oldest line, parks or ends |
| `Outbox.LineQueue.AfterSend` | relay/outbox.go:112-138 | a refused line is skipped; the relay's writer ends at the first failed send and drops the rest, the client's goes on |
| `Outbox.LineQueue.Close` | core/relaywriter.go:172-187 | closes once and owes the writer a wake-up |
| `Outbox.PoliciesKeep` | relay/outbox.go:54-90 | both full-queue policies keep the bound, the order and every reliable line already queued |
| `Outbox.PoliciesPart` | relay/relay.go:246-273 | on one stream at one bound the hold and the outbox part if and only if a reliable line comes after the bound while no more reliable lines than the bound come at all |
| `Outbox.AdmitRefusesLate` | relay/outbox.go:64-76 | undrained, the outbox's rule refuses a line if and only if a reliable one comes after the first of its bound |
| `Outbox.HoldRefusesMany` | relay/relay.go:249-272 | undrained, the hold's rule refuses one if and only if more lines than its bound are reliable, and until then keeps every reliable line in order |
| `Outbox.PoliciesCanPart` | relay/relay.go:246-273 | a lossy line and then a reliable one, at a bound of one, part them |
| `Outbox.LossOnlyWhenFull` | relay/outbox.go:63-74 | a line is displaced only at a full queue, and it is the oldest lossy one |
| `Outbox.EnqueueIsHeeded` | relay/outbox.go:57-81 | an open queue below 256 takes the line at its end and owes a wake-up; a full one trades its oldest lossy line for a lossy one, lets that go when it has none, and refuses a reliable one |
| `Outbox.QueueRefines` | relay/outbox.go:57-155 | in every run: at most 256 lines; what is written is an ordered part of what was accepted; until a send fails every accepted reliable line is written, being written or queued, once and in order; a parked writer with work has its token posted or about to be |
| `Outbox.RunKeeps` | core/relaywriter.go:61-187 | the same invariant for the client's writer, whose tokens are posted after unlocking and whose onStuck runs at most once |
| `Outbox.EverythingIsWritten` | relay/outbox.go:93-155 | from every reachable state of a writer that has not ended, its own steps write everything that waits, in order, while sends succeed, and end it once the queue is closed |
| `Delivery.Client.OfferLine` | relay/relay.go:236-280 | holds the line or picks the connection, with the two parallel slices kept aligned |
| `Delivery.Client.TakePending` | relay/relay.go:386-415 | the hold ends only in the critical section that sees nothing held |
| `Delivery.Client.FlushOne` | relay/relay.go:416-429 | one flush write; a failed one drops what is held |
| `Delivery.SequencerOrder` | relay/online.go:77-80 | the stamped lines written to a member that has not resumed have strictly rising stamps, through hold, flush and outbox, whichever plane stamped them |
| `Delivery.MembersAgree` | relay/online.go:30-38 | no two stamped lines are written to two such members in different orders |
| `Delivery.HoldKeepsOrder` | relay/relay.go:382-430 | a joiner's lines keep the order they were offered in, and its outbox writes nothing before the hold is over |
| `Delivery.HoldSparesReliable` | relay/relay.go:246-273 | the hold drops a reliable line only when 64 reliable lines are held |
| `Delivery.OfferAppends` | relay/relay.go:236-280 | a line offered to a connection with room joins the end of what it was given |
| `Delivery.NothingIsLost` | relay/relay.go:386-430 | while sends succeed and no queue is full, nothing given to a connection is lost or reordered |
| `Delivery.DraftsAreStamped` | relay/online.go:77-80 | a handler's drafts are stamped one after another, each with its own text and addressees |
| `Delivery.LineReachesAddressees` | relay/relay.go:227-280 | a forwarded line goes to exactly its addressees, at the end of everything each one with room was given |
| `Delivery.PipeIsWritten` | relay/relay.go:382-430 | from every reachable state of a connected member, the flush's and the writer's own moves write everything it was given, in order, and end its hold |
| `ReplayDelta.ExtrasDelta` | core/recorder.go:380-396 | the loops compute the changed keys and a null per vanished one, or everything when there was nothing before |
| `ReplayDelta.MergeCarried` | core/replay.go:502-525 | the loop merges a line onto the carry, nulls deleting, and an empty result is nil |
| `ReplayDelta.SameIsEqual` | core/recorder.go:400-437 | on values without a null at any depth, sameExtra is equality |
| `ReplayDelta.NestedNullsLookTheSame` | core/recorder.go:400-437 | with nested nulls it equates different maps |
| `ReplayDelta.DeltaReadsBack` | core/recorder.go:380-396 | one sample written and read over the same previous comes back if and only if there was none, or no changed value is null and no two different values look the same |
| `ReplayDelta.RecordingReadsBack` | core/replay.go:432-456 | a recording reads back as written, up to nil against empty, if and only if every sample follows an empty one, or changes no value to a null and none to a different one that looks the same |
| `ReplayDelta.NullFreeReadsBack` | core/replay.go:432-456 | so does every recording of extras without a null at any depth |
| `ReplayDelta.NestedNullsAreLost` | core/recorder.go:400-437 | a two-sample recording that reads back wrong because of nested nulls |
| `ReplayDelta.Recorder.Write` | core/recorder.go:233-264 | each sample's line is its delta, and the full value becomes the previous one |
| `ReplayDelta.ReadSamples` | core/replay.go:432-456 | the reader's loop carries each merged value into the next line |
| `ReplayCuts.ApplySkipGaps` | core/replay.go:598-617 | in place, every timestamp moves back by what was cut before it, and cuts and seams are recorded |
| `ReplayCuts.GapsAreCut` | core/replay.go:598-617 | each cut gap becomes exactly one millisecond, every other gap stays, and time does not run backwards |
| `ReplayCuts.MovedInOrder` | core/replay.go:598-617 | sample times stay in order after the surgery |
| `ReplayCuts.AttachTrack` | core/replayinputs.go:43-86 | the single pass with one cursor keeps and moves exactly the edges a search of every cut would |
| `ReplayCuts.EdgeFollowsSample` | core/replayinputs.go:34-86 | an edge at a sample's original time goes to that sample's new time |
| `ReplayCuts.MappedInOrder` | core/replayinputs.go:34-86 | edges keep their order and only come closer together |
| `ReplayCuts.EdgesStayInTheClip` | core/replayinputs.go:34-86 | exactly the edges strictly inside a cut go; the rest stay between the first and last sample |
| `ReplayCuts.AttachedInTime` | core/replayinputs.go:34-86 | the attached track is in time order |
| `ReplayCuts.AttachedIsExact` | core/replayinputs.go:34-86 | the attached track is exactly the edges inside the trim window and no cut, in order and moved, or the first 500000 of them |
| `ReplayCuts.SeamsAreCuts` | core/replay.go:598-617 | a seam is forced exactly where a gap was cut to one millisecond |
| `ReplayCuts.ApplyTrim` | core/replay.go:567-594 | the kept stretch starts where the position first changes or at trim_start, and ends at trim_end |
| `DisplayName.Sanitize` | protocol/displayname.go:39-94 | the one-pass loop equals the documented stages: drop, cap marks, collapse blanks, truncate to both limits, trim |
| `DisplayName.SanitizedIsClean` | protocol/displayname.go:17-94 | at most 24 runes and 64 bytes, nothing disallowed, no leading, doubled or trailing blank, at most two marks in a row |
| `DisplayName.CleanIsKept` | protocol/displayname.go:28-94 | a clean name passes unchanged |
| `DisplayName.SanitizingTwice` | protocol/displayname.go:28-94 | sanitizing is idempotent on every input |
| `DisplayName.NormalIsFromInput` | protocol/displayname.go:39-94 | what is kept is kept in order: the visible runes are a subsequence of the input's |
| `DisplayName.NormalKeepsWords` | protocol/displayname.go:39-94 | before the limits every base rune is kept, and every break between two of them |
| `DisplayName.SanitizedIsLongest` | protocol/displayname.go:39-94 | the limits cut only the tail, where the next rune would not fit |
| `ClockSync.CoreClock.Observe` | core/online.go:32-47 | folds one round trip in, keeping the lowest |
| `ClockSync.CoreClock.ObservePong` | core/online.go:317-343 | uses a pending ping once and refuses an offset beyond an hour, restoring the estimate |
| `ClockSync.CoreClock.NowMs` | core/online.go:59-71 | the local clock plus the offset in force, held still rather than stepping back |
| `ClockSync.CoreClock.RecordPingSent` | core/online.go:351-368 | remembers the ping, forgetting the oldest past 32 |
| `ClockSync.CoreClock.ForgetSession` | core/relaysession.go:270-298 | a session's end clears the estimate and the pings but not the latch |
| `ClockSync.SampleIsAccurate` | core/online.go:32-47 | with an honest relay a sample's offset is within half its round trip of the truth, plus rounding |
| `ClockSync.OffsetIsAccurate` | core/online.go:32-71 | over every run with an honest relay the kept offset is that accurate |
| `ClockSync.KeptIsSmallest` | core/online.go:32-47 | the kept round trip is the smallest usable one if and only if none, or the last, took less than a millisecond |
| `ClockSync.ZeroIsForgotten` | core/online.go:32-47 | a slow sample replaces a 0 ms one |
| `ClockSync.NeverBackwards` | core/online.go:49-71 | no read is below an earlier one, over any mix of samples, feature changes and session resets |
| `ClockSync.ReadsFollowTheClock` | core/online.go:49-71 | over every run a read is the local clock plus the offset then in force, or the highest such value read before |
| `ClockSync.ClockIsBounded` | core/online.go:330-368 | the offset stays within an hour and at most 33 pings are pending |
| `ClockSync.EstimateIsOfReplies` | core/online.go:317-368 | over every run the estimate is that of the replies since the last reset that answer a ping still pending and stay within the hour, each used once; its round trip is their smallest if and only if none, or the last, took less than a millisecond |
| `Admission.PeerTable.AdmitToRoster` | core/remotenames.go:18-40 | seats an id unless 512 of its kind are seated, counting only when the table might be full |
| `Admission.PeerTable.StoreRemoteState` | core/remotes.go:37-58 | a known id is buffered, one aged out retakes a seat, a stranger is dropped |
| `Admission.PeerTable.SweepSeatless` | core/remotes.go:127-139 | walks every seat and takes back those no state ever stood behind |
| `Admission.PeerTable.AgeOut` | core/remotes.go:178-200 | walks every buffer and ages out the silent ones, seat and all |
| `Admission.PeerTable.RememberAgedOut` | core/remotes.go:111-122 | remembers a silent peer, or forgets it and its name when 512 are remembered |
| `Admission.PeerTable.MergeWelcome` | core/relaysession.go:625-645 | the section that merges a Welcome's roster, passing over unusable ids |
| `Admission.PeerTable.StoreRosterNames` | core/remotenames.go:109-129 | looks up the roster once, then stores the kept names one by one |
| `Admission.PeerTable.HandleWelcome` | core/relaysession.go:610-676 | undisturbed, the first Welcome with a usable id is its sections in turn, and any other is nothing |
| `Admission.PeerTable.AdmitJoined` | core/relaysession.go:700-703 | the section that seats an arrival |
| `Admission.PeerTable.StoreRemoteName` | core/remotenames.go:68-78 | the section that stores one name, or its absence |
| `Admission.PeerTable.HandleJoin` | core/relaysession.go:694-715 | undisturbed, a join is its seat, then its name, then its seed |
| `Admission.PeerTable.ForgetPeer` | core/relaysession.go:724-730 | the section in which a leave takes seat, name and memory |
| `Admission.PeerTable.HandleLeave` | core/relaysession.go:716-731 | undisturbed, a leave takes the buffer too |
| `Admission.PeerTable.AdmitLocalPeer` | core/localpeer.go:37-52 | seats a ghost of this core's own, then names it |
| `Admission.PeerTable.FeedLocalPeer` | core/localpeer.go:57-69 | re-seats an admitted local ghost, then buffers its sample |
| `Admission.PeerTable.DropLocalPeer` | core/localpeer.go:73-80 | takes everything of a local ghost, its buffer last |
| `Admission.PeerTable.ForgetRelaySession` | core/relaysession.go:270-298 | clears roster, memory and identity, keeping only local names |
| `Admission.PeerTable.DropAllRemotes` | core/remotes.go:149-153 | drops every buffer, which ends a reset |
| `Admission.SeatAccounting` | core/remotenames.go:14-40 | over every run of sections in any order each kind holds at most 512 seats, the memory only relay ids and at most 512, and every buffer has a seat but those about to be dropped |
| `Admission.StepBacked` | core/remotenames.go:68-78 | a step leaves every relay name with a seat or a memory if and only if it stores none for an id without either |
| `Admission.NamesNeedTheirSeat` | core/relaysession.go:694-715 | throughout a run every relay name has a seat or a memory if and only if no name lands after its id lost both |
| `Admission.ResetOrphansAName` | core/relaysession.go:694-715 | for every id and name, a reset between a join's seat and its name leaves the name behind |
| `Admission.StepAnnounced` | core/remotes.go:158-200 | a step keeps every id that was not announced out if and only if no age-out in it remembers one |
| `Admission.StrangersStayOut` | core/remotes.go:37-200 | throughout a run no relay id has a seat, a memory or a standing buffer it was not announced for if and only if no tick finds a gone peer's buffer silent and room to remember it |
| `Admission.SparesWithRoom` | core/remotes.go:178-200 | with room to remember all it walks, an age-out keeps strangers out if and only if every silent buffer is an announced peer's |
| `Admission.StrangersHaveNoGhost` | core/remotes.go:37-58 | in such runs an id not announced since the last reset, or gone since, has no seat, memory or standing buffer, and no name where none was orphaned |
| `Admission.QuietTicksSpare` | core/remotes.go:178-200 | with nothing waiting to be dropped every tick is harmless |
| `Admission.TickInTheGapRemembers` | core/relaysession.go:84-100 | for every id, a run whose tick in a reset's gap lets that dead session's id back in |
| `Admission.AgeOutClears` | core/remotes.go:178-200 | an age-out that walks every buffer leaves no silent one |
| `Admission.SweepClears` | core/remotes.go:127-139 | a sweep that walks every seat leaves none that was never used |
| `Admission.RefusedOnlyWhenFull` | core/remotenames.go:18-40 | a relay id is refused only while 512 relay ids are seated, whatever local ghosts hold |
| `Admission.SilentPeerComesBack` | core/remotes.go:41-53 | a peer aged out is back with its first state unless the relay's seats are all taken |
| `Admission.StateIsHeeded` | core/remotes.go:37-60 | a state from a seated peer is buffered, one from a silent peer takes a seat while fewer than 512 are taken, any other is dropped, and nobody else is touched |
| `Admission.WelcomeIsHeeded` | core/relaysession.go:625-645 | a Welcome seats every usable id of its roster or fills the relay's 512 seats, keeps every seat and adds no other |
| `Admission.LocalIsFed` | core/localpeer.go:57-69 | each sample of a registered ghost of our own is buffered, its seat retaken while fewer than 512 of its kind are |
| `Admission.AgeOutIsExact` | core/remotes.go:178-200 | an age-out takes seat and buffer of exactly the silent peers it walks, with room remembers each and keeps its name, and touches nobody else |
| `Admission.SweepIsExact` | core/remotes.go:127-139 | a sweep takes exactly the relay's seats it walks that are dated before the cutoff and never fed, and with room remembers each |
| `Admission.WelcomeNames` | core/remotenames.go:109-129 | in whatever order they are stored, each kept id ends with its own name, an empty one with none, and nobody else's changes |
| `Admission.LeaveUndoesJoin` | core/relaysession.go:694-731 | undisturbed, a leave takes back exactly what a join gave |

## Left out

- TLS, QUIC, dialing, transport choice, reconnect backoff and the room-code proof: sockets and library cryptography.
- Files, gzip, hotkeys, scanning and naming of replays: input and output; only the delta, trim and gap logic is modelled.
- The JSON decoder: payloads are taken as values. A number is assumed to encode in at most 24 bytes.
- Floating-point rounding: positions are reals. The wire form of a NaN, which cannot be marshalled, does not arise.
- Curves, prediction, correction and the orientation bracket of the renderer: only linear and hold rendering is modelled.
- Rate limits, change suppression and the bracket sample of forwardLocalState, and per-recipient area and rate filters
  of the state plane: single-branch members.
- Lock-step detail of the relay's message handlers: each is one step, except that a departure's two halves and a
  joiner's entry and seeding are separate steps. On the client every critical section of `Admission` is a step.
- Records and leases as heap objects: they are values in maps, and an escrow's `birth` number stands for its identity.
- Sorting of world entries and authorities and of escrow snapshots: any order the map walk or the sort may produce is
  allowed, so that the same world always batches the same way is not claimed. The sorted escrow list is a parameter.
- Exactly-once delivery of events across a suspension: `suspend` and a resume's swap can fall between a stamp and its
  delivery, and nothing is claimed there.
- Streaming of an attached input track (`inputReset`, `streamInputs`): pacing over a socket.
- SanitizeNameColor, clamps, reject-code tables, statistics, logging and introspection: small members or reporting.
- Unicode tables: a rune's class is a parameter of the model.
- Lines already handed to a connection that resumed: `Delivery` claims order only for members that have not resumed.
- SnapshotBuffer.BufferRefinesHistory: claimed while fewer than 1024 samples are held, because past that the cap drops
  samples that are still within the window; AddedKeepsOrder holds always.
- LossCover.CoverRestoresStream: assumes in-order arrival, legal states and null survival, because add does not
  deduplicate and a null in a delta reads as absence.
- Delivery.SequencerOrder: claimed for members that have not resumed, because a resume replays events with old stamps.
- Batching.PackedIsMinimal: takes the size of a line as any measure that grows with its entries, not the JSON length.
- SnapshotBuffer.TrimmingShowsExactly: for streams that number their samples apart, because a dropped sample that is
  like the held one in every field draws like it; TrimmingIsInvisible needs no numbering.
- Admission.StrangersHaveNoGhost: for harmless runs, because the code breaks it in exactly the others.
