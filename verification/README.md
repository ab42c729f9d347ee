# SMSC simulator: verified model

A Dafny model of an SMPP v3.4 SMSC simulator whose promise is "same seed, same run, per bind", and
proofs of what its concurrent session protocol, its per-bind decision engine, its codec and its small
arithmetic kernels guarantee. `dafny verify dfyconfig.toml` checks everything. Every induction is written
out: all lemmas switch the automatic one off.

| file | models |
|---|---|
| `Session.dfy` | one connection as a transition relation: read goroutine with teardown, writer behind a bounded queue, closer, deferred senders; every shared access is its own step, so a run is any interleaving |
| `SessionOrder.dfy`, `SessionLedger.dfy`, `SessionFate.dfy`, `SessionTeardown.dfy` | the invariants of those runs: order on the wire, where each PDU is, how a session ends, the work left |
| `SessionTheorems.dfy` | the results about every run |
| `SessionAnswers.dfy` | what each input promises the client, and what becomes of every promise over a run |
| `SessionEnds.dfy` | the reason a session records, when a deferred send may be given up, what a silence does |
| `ReadDeadline.dfy` | the connection's read deadline, set by the read loop, by a frame's first octets and by the closer, as a second transition relation |
| `Smpp.dfy`, `SmppTheorems.dfy`, `SmppStream.dfy` | PDUs, printing and parsing as functions; inverses, canonicity, framing |
| `SmppCursor.dfy` | the codec as written: a reader with a moving cursor and a writer with a growing buffer, proved equal to those functions |
| `Receipt.dfy` | message ids and delivery receipts |
| `Schedule.dfy`, `BindSchedule.dfy` | the ordered pending list with its binary searches, and a bind's schedule over a whole run |
| `Cursors.dfy` | the transition and disconnect cursors |
| `Picks.dfy`, `ErrorMix.dfy`, `Prng.dfy`, `ScenarioEngine.dfy`, `Engines.dfy` | weighted picks, the error mix, the random source as an abstract state machine, the decision engine, one engine per profile |
| `Replay.dfy`, `BindSession.dfy` | a whole bind from submits to decisions and schedule, its two-run theorem, and the same bind as an object updated in place |
| `Rng.dfy`, `Seeding.dfy` | 64-bit seed mixing, and what a bind's generator, schedule base and coin start from |
| `Recorder.dfy`, `Throughput.dfy` | the ring journal, the wall-clock gate |
| `VirtualSmsc.dfy` | any number of binds interleaved over the counters, registry and log they share, each cut by the disconnect entries on what the registry answers at that moment |
| `Schema.dfy`, `Config.dfy` | a decoded configuration, its validator, and what acceptance guarantees |
| `ServedLatency.dfy` | the latencies the runs of an accepted configuration serve |
| `RunOutcomes.dfy` | every submit of every run in terms of the configuration: its outcome, its answer, its receipt, and when what it planned leaves |
| `Wrappers.dfy` | Option, Result, octets, the range of a 64-bit counter, the first n numbers |

Time appears as "a timer fires", "a read deadline fires" and explicit clock arguments; a socket write
succeeds or fails; the PCG generator, the name hash and the coins of scope random are parameters of any
kind, and so is what the registry answers a bind, except that the first bind is always the oldest.

## Findings

Where a property does not hold as promised, the model follows the code and a theorem says exactly when it does.

- A cut with a response still held for its latency drops that response without any write failing
  (`internal/smsc/session.go:217-219`): `SessionTheorems.CutDropsDeferredResponse`. Seen from any moment of a
  teardown without a failed write, a response can still be lost exactly while its sender has not begun to
  send: `SessionTheorems.ResponseCanBeLostIffUnsent`.
- `clock + delay` can wrap (`internal/smsc/dlr.go:44`; `internal/config/validate.go:472` bounds the delay
  from below only). Receipts leave in submit order for every placement of drains and flushes exactly when the
  end of the tick range does not fall between two submits: `BindSchedule.SubmitOrderIffNoWrap`. Nothing else
  turns on the delay: what is emitted, the order of the messages and the verdicts hold for every delay.
- A refused submit and a bare engine built for a transition target serve 0 ms
  (`internal/scenario/scenario.go:284-286`, `internal/smsc/virtualsmsc.go:85`), outside the window of
  slow-carrier. `ServedLatency.RecordFitsIff` says for each submit, from what is known before it, when its
  latency is in the window; `ServedLatency.AlwaysInWindowIff` says for which configurations every answer of
  every run is. Witnesses: `ServedLatency.RefusedSlowServesZero`, `ServedLatency.EnteredSlowServesZero`; harmless
  are a transition that never takes effect (`ServedLatency.OvertakenSlowHarmless`) and any transition of a
  carrier that rejects its binds (`ServedLatency.RejectingSlowHarmless`).
- `Decode` ignores `command_length`, binds and responses may carry ignored trailing octets, and a response
  without a body reads as one with an empty string (`internal/smpp/codec.go:95-97`).
  `SmppTheorems.CanonicalIffNothingPassedOver` says for each command which accepted frames re-encode to
  themselves; `SmppTheorems.TrailingOctetDropped` and `SmppTheorems.BareResponseGrows` are frames that do not.
- One disconnect entry of scope `oldest` can cut bind after bind: each bind asks the registry when its own
  clock reaches the tick, and each cut bind leaves the registry (`internal/smsc/schedule_events.go:76-77`,
  `internal/smsc/binds.go:52-66`). `VirtualSmsc.AskCutsIff` and `VirtualSmsc.ConsumeCutsIff` say exactly when a bind is cut, and
  `VirtualSmsc.OldestCascades` cuts any number of binds registered together with one entry.
- End of file right after the four octets of `command_length` is reported as ErrPartialFrame, not as
  io.ErrUnexpectedEOF as the comment at `internal/smpp/codec.go:50-53` says: `SmppStream.CutFrame`.
- The throughput gate admits at most 2·cap − 1 submits in any half-open second, and that bound is reached:
  `Throughput.SecondAdmitsAtMost`, `Throughput.SecondBoundReached`.
- `Since` bounds the record index (`internal/recorder/recorder.go:38`), although
  `docs/guide/reference/api-observabilite.md:66` says per_bind_clock; the model bounds the index.

## Model

| member | source | states |
|---|---|---|
| SessionTheorems.ReceiptFollowsResponse | internal/smsc/dlr.go:106-117 | in every interleaving, a receipt on the wire is preceded by the submit_sm_resp of its own submit, inline or deferred |
| SessionTheorems.NobodySendsOnClosedQueue | internal/smsc/session.go:181-234 | no run sends on the closed outbound queue; once it is closed no actor is inside sendBytes |
| SessionTheorems.Conservation | internal/smsc/session.go:390-398 | at every reachable state each PDU handed over is written, dropped, queued or inside exactly one actor, and the depth gauge equals queued plus still-raised in-transit PDUs and is never negative |
| SessionTheorems.EverythingAccounted | internal/smsc/session.go:210-234 | after teardown handed over = written + counted dropped as multisets, and the session's depth contribution is zero |
| SessionTheorems.NothingLostWithoutWriteFailure | internal/smsc/session.go:241-264 | without a write failure everything handed over reached the wire |
| SessionTheorems.OneClose | internal/smsc/session.go:281-315 | exactly one close is recorded, at the end of teardown, with a set reason, and it is the write failure exactly when the writer failed first |
| SessionTheorems.AnsweredAtMostOnce | internal/smsc/session.go:356-367 | the wire never carries two responses to one submit; that and when it carries one is SessionAnswers |
| SessionTheorems.ResponseCanBeLostIffUnsent | internal/smsc/session.go:371-385 | from any state of a teardown with no failed write, a latency-deferred response is missing from the wire of some completion without a failed write if and only if its sender is still waiting or was cancelled; once it has begun to send, every such completion writes it |
| SessionTheorems.TeardownTerminates | internal/smsc/session.go:172-237 | after the read loop ends a run has at most Work more steps, and until the close is recorded some actor can step, receipts chained on cancelled responses and a full queue included |
| SessionTheorems.CutDropsDeferredResponse | internal/smsc/session.go:217-219 | a run with no write failure loses the response of its one submit to an after-response cut |
| SessionAnswers.PromiseStep | internal/smsc/session.go:320-398 | one step of any actor: the PDUs pending or newly promised by the step are handed over or pending after it, one for one |
| SessionAnswers.PromisesKept | internal/smsc/session.go:320-398 | in every run what its inputs promise the client, by a table of its own (a response, a receipt, a message, a reply), is the PDUs handed over plus those still scheduled or held back |
| SessionAnswers.SubmitsAnsweredExactly | internal/smsc/session.go:774-808 | in every state after a committed submit its response is handed over or pending exactly once if it is of a kind that is answered, else never; likewise its receipt if it plans one on a bind able to receive |
| SessionAnswers.TicksAreCommitted | internal/smsc/session.go:728-733 | every tick a bind counted was committed by one of its submits |
| SessionAnswers.InlineAnswered | internal/smsc/session.go:356-360 | a response without latency, a fault's cut included, is handed over with its submit, exactly once in every state from then on |
| SessionAnswers.DeferredAnswered | internal/smsc/session.go:361-385 | a response held for its latency has a sender of its own from its submit on, and is handed over exactly when that sender got past its wait |
| SessionAnswers.PromisesReachTheWire | internal/smsc/session.go:205-234 | when a session without a write failure has ended, every promised PDU is on the wire, was left on the schedule, or had its sender cancelled |
| SessionAnswers.AnswersReachTheWire | internal/smsc/session.go:774-808 | in such a session each inline answer is on the wire exactly once, each deferred one unless its sender was cancelled, and no other submit has a response there |
| SessionEnds.RecordedReason | internal/smsc/session.go:281-290 | the one recorded reason is the one the read loop gave for ending, unless the writer had failed before the end was announced |
| SessionEnds.NothingGivenUpEarly | internal/smsc/session.go:210-219 | no deferred send is cancelled before teardown stops them, after the closer has gone |
| SessionEnds.SilenceFlushes | internal/smsc/session.go:478-486 | after a silence past the quiescence window on a pending schedule the read loop reads nothing more before that schedule is empty |
| ReadDeadline.NeverBlockedLater | internal/smsc/session.go:444-463 | in no reachable state after quit is closed and the closer has set its past deadline does the read loop wait under a later one |
| ReadDeadline.ShutdownEnds | internal/smsc/session.go:444-537 | after quit is closed every run of the read loop is bounded, whatever the peer and the clock do, and a step not theirs is enabled until the loop has ended |
| ReadDeadline.ShutdownEndsReading | internal/smsc/session.go:444-537 | from any such state the loop ends with nothing more from the peer |
| ReadDeadline.ExtensionReplacesDeadline | internal/smsc/session.go:523-537 | a run in which a frame's extension replaces the closer's deadline, so the re-check behind it is needed |
| SessionOrder.OrderStep | internal/smsc/session.go:356-398 | one step of any actor keeps: the wire followed by everything bound for it never has a receipt before its response |
| SessionOrder.PhaseStep | internal/smsc/session.go:181-234 | one step of any actor keeps: nobody is inside sendBytes past the point teardown has waited for it |
| SessionLedger.BalanceStep | internal/smsc/session.go:241-264 | one step of any actor keeps the PDU ledger and the depth equation balanced |
| SessionFate.FateStep | internal/smsc/session.go:199-237 | one step keeps the close-reason, cancellation and write-failure facts |
| SessionFate.AnsweredStep | internal/smsc/session.go:356-385 | one step keeps: a response is in at most one place |
| SessionTeardown.WorkDrops | internal/smsc/session.go:172-237 | every step after the read loop lowers the work left |
| SessionTeardown.TeardownCanStep | internal/smsc/session.go:172-237 | an unfinished teardown always offers a step of an actor, not of the environment |
| SmppTheorems.RoundTripIffWellFormed | internal/smpp/codec.go:89-153 | decoding undoes encoding if and only if the PDU is well formed: NUL-free bounded strings, text up to 254 octets, at most 64 parameters, body matching the command |
| SmppTheorems.AcceptedFrameReencodes | internal/smpp/codec.go:89-153 | every accepted frame re-encodes and decodes again to the same PDU |
| SmppTheorems.CanonicalIffNothingPassedOver | internal/smpp/codec.go:95-131 | re-encoding gives an accepted frame back if and only if: always for messages; a bind leaves nothing after its seven fields; a bind response has a body; the first NUL of a submit response within 256 octets is its last octet; any other command has no body |
| SmppTheorems.TrailingOctetDropped | internal/smpp/codec.go:116-131 | an enquire_link with one trailing octet is accepted and does not re-encode to itself |
| SmppTheorems.BareResponseGrows | internal/smpp/codec.go:116-131 | a submit_sm_resp without a body is accepted as one with an empty id and does not re-encode to itself |
| SmppTheorems.MessageFrameIsCanonical | internal/smpp/codec.go:199-245 | an accepted submit_sm or deliver_sm frame re-encodes octet for octet |
| SmppTheorems.BodyPrints | internal/smpp/codec.go:116-131 | a parsed body fits its command, is well formed and prints as a prefix of what it was parsed from |
| SmppTheorems.HeaderFields | internal/smpp/codec.go:135-153 | an encoding is framed by its own length and carries the four header fields and the body |
| SmppTheorems.KnownCommands | internal/smpp/codec.go:116-131 | the fifteen numeric command ids understood and the body each carries; a frame is refused as unknown if and only if its id is any other |
| SmppTheorems.BindLayout | internal/smpp/pdu.go:60-68 | a bind body is its seven fields in order, strings ended by a NUL |
| SmppTheorems.MessageLayout | internal/smpp/pdu.go:108-134 | a message body is its sixteen fields in order, the length and octets of the text, then the optional parameters |
| SmppTheorems.IntegerLayout | internal/smpp/codec.go:145-152 | a header integer is its four octets, most significant first |
| SmppCursor.DecodeFrame | internal/smpp/codec.go:89-338 | the cursor decoder returns what the parsing function returns, errors included |
| SmppCursor.EncodePdu | internal/smpp/codec.go:135-153 | the buffer encoder returns what the printing function returns |
| SmppCursor.Reader.COctetString | internal/smpp/codec.go:293-303 | the bounded NUL scan parses a string and moves the cursor past its terminator, or fails like the function |
| SmppCursor.Reader.Tlvs | internal/smpp/codec.go:319-338 | the parameter loop reads all parameters to the end, at most 64, or fails like the function |
| SmppCursor.Writer.Message | internal/smpp/pdu.go:108-134 | the field-by-field appends print the message with its text clamped to 254 octets |
| SmppStream.ReadPduFrames | internal/smpp/codec.go:54-73 | what ReadPDU returns is the first frame of the stream, within the length limits, and nothing else is consumed |
| SmppStream.ReadsFirstFrame | internal/smpp/codec.go:54-73 | a frame in front of anything is returned whole |
| SmppStream.StreamRoundTrip | internal/smpp/codec.go:54-153 | any list of well-formed PDUs encoded back to back is read and decoded as that list, then a clean end |
| SmppStream.RereadsTheSame | internal/smpp/codec.go:54-153 | whatever was read from any stream, re-encoded, reads as the same PDUs |
| SmppStream.CutFrame | internal/smpp/codec.go:54-83 | which error a stream cut at octet k reports, for each way of ending; a retryable deadline only when nothing was consumed |
| Receipt.MessageIdInjective | internal/smsc/session.go:846-848 | a message id determines its bind and tick, padding included |
| Receipt.MessageIdFormat | internal/smsc/session.go:846-848 | an id is the ordinal, a dash and the tick on at least four digits, without other leading zeros |
| Receipt.ResponseEncodes | internal/smsc/session.go:334-349 | every submit_sm_resp encodes and decodes to itself |
| Receipt.ReceiptArrivesIntact | internal/smpp/receipt.go:92-134 | for every decoded submit and outcome the receipt has the addresses swapped, the receipt class, the state and the text of the outcome, stays under the 254-octet clamp, encodes, decodes to itself and yields the id of that submit |
| Receipt.ReceiptOfMessage | internal/smsc/dlr.go:88-105 | it stays under the clamp, encodes, decodes to itself and yields the id for any submit whose fields the wire can carry |
| Receipt.ReceiptsPointToOneSubmit | internal/smsc/dlr.go:88-131 | equal receipts report the same bind, tick and outcome |
| Schedule.PlaceSorted | internal/schedule/schedule.go:40-53 | insertion keeps the pending list in (due tick, insertion) order and adds just the event |
| Schedule.DueExact | internal/schedule/schedule.go:58-68 | a drain releases a prefix of the pending list: all and only the events the clock has reached |
| Schedule.Runner.Schedule | internal/schedule/schedule.go:40-53 | the binary search inserts in front of the first event that must follow, under the next sequence number |
| Schedule.Runner.DrainDue | internal/schedule/schedule.go:58-68 | the binary search splits the list into what is due, returned, and what stays, losing nothing |
| Schedule.Runner.DrainAll | internal/schedule/schedule.go:74-81 | returns everything pending in order and leaves nothing |
| BindSchedule.EmittedThenPendingIsPlanned | internal/smsc/dlr.go:38-83 | for every delay and every placement of drains and flushes, emitted and pending receipts are the planned ones, each once, and emitted then pending messages are the configured ones in (at_tick, config order), each once |
| BindSchedule.ReceiptsLeaveInSubmitOrder | internal/smsc/dlr.go:38-83 | as long as clock plus delay does not wrap between two submits, emitted then pending receipts are in submit order |
| BindSchedule.NothingDueWaits | internal/smsc/dlr.go:64-71 | after a submit nothing the clock has reached still waits, whatever the delay |
| BindSchedule.NothingLeavesEarly | internal/smsc/dlr.go:64-65 | in every run what a submit releases has a due tick its clock has reached |
| BindSchedule.LeavesExactlyWhenDue | internal/schedule/schedule.go:58-68 | without a flush a receipt has left exactly when it was planned and its tick plus the delay, in 64 bits, has been reached, a message exactly when its tick has been |
| BindSchedule.SubmitOrderIffNoWrap | internal/smsc/dlr.go:44 | submit order holds in every run of n submits if and only if clock plus delay does not pass 2^64 between two of them |
| BindSchedule.WrapBreaksOrder | internal/smsc/dlr.go:44 | a run whose receipts leave in the wrong order, for every wrapping delay |
| Cursors.SortKeeps | internal/smsc/schedule_events.go:53-55 | the ordered copy is in tick order and holds the configured entries, each as often |
| Cursors.BindCursors.ApplyDueTransitions | internal/smsc/schedule_events.go:62-67 | the cursor stops at the first entry past the tick, under the last profile passed |
| Cursors.BindCursors.DueDisconnectBeforeResponse | internal/smsc/schedule_events.go:89-99 | true exactly when some due before_response entry is of scope all, of scope random with the bind's coin, or of scope oldest with a yes of the registry to that entry; consumes nothing |
| Cursors.BindCursors.ApplyDueDisconnects | internal/smsc/schedule_events.go:104-112 | consumes exactly the due entries and closes exactly when one is of scope all, of scope random with the coin, or of scope oldest with a yes to that entry |
| Cursors.PeekByEntry | internal/smsc/schedule_events.go:89-99 | whatever the registry answers entry by entry, the peek depends only on whether one due before_response entry of scope oldest got a yes |
| Cursors.TransitionsInForce | internal/smsc/schedule_events.go:62-67 | every tick runs under the latest configured transition reached, last in config order at a tick, else the initial profile |
| Cursors.DisconnectsOnTime | internal/smsc/schedule_events.go:72-112 | whatever the registry answers at each peek and each consumption, a bind is cut at the first tick whose newly reached entries cut it on those answers, never earlier, its response withheld exactly when one of them says before_response and targets it at the peek |
| Cursors.ScopesDecide | internal/smsc/schedule_events.go:72-112 | a bind is open exactly when, of the entries reached, none is of scope all, none of scope random has its coin and none of scope oldest got a yes it was asked for; it is cut at the first tick where one does not hold, its response withheld exactly when one of those is before_response |
| Picks.BuildMix | internal/scenario/scenario.go:352-371 | the loop over a 64-bit running sum drops zero weights and bounds each other by the wrapped sum so far; with a total in range, by the sum itself |
| Picks.Pick | internal/scenario/scenario.go:389-401 | the scan returns the first value whose bound lies above the draw |
| Picks.PicksExact | internal/scenario/scenario.go:374-401 | of the total draw values exactly w(c) select c, so zero weights never |
| Picks.PickedHasWeight | internal/scenario/scenario.go:374-401 | every draw selects a value with weight |
| Picks.ValidateWeights | internal/config/validate.go:499-511 | passes exactly the bounded lists whose 64-bit sum is not zero; names the first weight too heavy |
| Picks.BoundedSum | internal/config/validate.go:499-511 | the bound on each weight keeps the sum of fewer than 2^34 weights from wrapping |
| ErrorMix.BuildErrorMix | internal/scenario/scenario.go:428-449 | the mix built from any walk of the map is the cumulative one in code order, over a 64-bit sum |
| ErrorMix.OrderIndependent | internal/scenario/scenario.go:424-449 | two walks of one map build the same mix |
| ErrorMix.ErrorMixExact | internal/scenario/scenario.go:389-449 | for every validated mix exactly w(c) of the draws answer the status of c, and Uint64N is never called with zero |
| ErrorMix.ErrorMixAnswersConfigured | internal/scenario/scenario.go:389-401 | the status answered is that of a code with weight, never ESME_ROK |
| ScenarioEngine.NewReady | internal/scenario/scenario.go:145-174 | an engine can be drawn from without Uint64N(0) if and only if neither the error mix nor the receipt outcomes sum to a non-zero multiple of 2^64 |
| ScenarioEngine.WrappedWeightsUndrawable | internal/scenario/scenario.go:352-386 | receipt weights 2^63 and 2^63, which the validator refuses, end the mix on bound zero, so the first receipt would be drawn below zero |
| ScenarioEngine.NewIgnoresMapOrder | internal/scenario/scenario.go:145-174 | builds of one config in two processes are equal |
| ScenarioEngine.CapIsTightest | internal/scenario/scenario.go:406-422 | the effective cap is one that applies and the smallest, absent exactly when none applies |
| ScenarioEngine.BindState.constructor | internal/scenario/scenario.go:210-223 | the generator starts where a bind of this seed, name and ordinal starts, the schedule base is derived from the same three, chaos gives both without a seed, and a gate exists exactly when a cap applies |
| ScenarioEngine.BindState.Evaluate | internal/scenario/scenario.go:247-305 | the decision, the generator and the gate after a submit are those of the decision function, and an admitted submit ends as its profile and the first fraction say |
| ScenarioEngine.OutcomeByProfile | internal/scenario/scenario.go:288-330 | past the gate: a timeout exactly for dead-carrier, a disconnect exactly for flaky-carrier at multiples of its interval, a failure exactly for flaky-carrier elsewhere when the first fraction drawn is at or above its rate, else a success |
| ScenarioEngine.RatesMonotone | internal/scenario/scenario.go:312-321 | on the same draws raising the success rate turns no success into a failure |
| ScenarioEngine.ExtremeRates | internal/scenario/scenario.go:312-321 | a rate of zero never succeeds, a rate of one or none never fails |
| ScenarioEngine.GateIffCapped | internal/scenario/scenario.go:406-422 | a bind has a gate exactly when a limit is set or a cap for throttling-carrier or throughput-capped, and the profile's cap is the gate's when there is no limit |
| ScenarioEngine.SpikeOnMultiples | internal/fault/latency.go:43-48 | the spike latency is served at exactly the multiples of the interval, the base one elsewhere |
| ScenarioEngine.LatencyByProfile | internal/fault/latency.go:23-53 | an admitted submit is held back for a latency its distribution serves at that tick, dead-carrier's for none |
| ScenarioEngine.DrawOrder | internal/scenario/scenario.go:243-330 | what is asked of the generator, in order: nothing for a refused submit; else success or failure, a code for a failure only, the latency, and last a receipt outcome |
| ScenarioEngine.OutcomeDrawOrder | internal/fault/latency.go:16-53 | the same before the receipt: uniform and normal latencies ask once, fixed and spike never, at any tick |
| ScenarioEngine.EdgeCasesDrawNothing | internal/scenario/scenario.go:243-275 | any injection settings leave every other part of the decision and the random stream as they are |
| ScenarioEngine.EdgeRotation | internal/scenario/scenario.go:260-275 | the k-th injecting tick carries the k-th kind of the rotation, other ticks none |
| ScenarioEngine.DlrMixExact | internal/scenario/scenario.go:347-386 | exactly w(o) of the draws plan a receipt of outcome o |
| ScenarioEngine.DecisionsFollowConfig | internal/scenario/scenario.go:247-330 | past the gate the outcome is the one of the profile on the first fraction, a failure answers a configured status, a receipt is planned exactly for a success under a receipt config, with the configured delay and a weighted outcome |
| Engines.BuildEngines | internal/smsc/virtualsmsc.go:79-88 | the loop builds the initial engine and one bare engine per other transition target, no more |
| Engines.EnginesComplete | internal/smsc/virtualsmsc.go:74-88 | no transition misses its engine, all planned receipts share one delay, and every engine can be drawn from as soon as the initial one can |
| Replay.ScheduleFollowsLog | internal/smsc/session.go:777-813 | the schedule sees a submit per tick that kept the link up and plans exactly the receipts the log shows |
| Replay.AnswersFollowVerdicts | internal/smsc/session.go:770-808 | over a run a receipt is planned exactly for an answered success that drew one on a bind able to receive; a missing answer that is no timeout, and a disconnect, end the link |
| Replay.AnsweredIff | internal/smsc/session.go:770-808 | over a run a submit is answered if and only if its verdict is not a timeout and the disconnect schedule did not withhold its response: a carrier's cut and an after_response cut are answered |
| Replay.PartiesStartApart | internal/rng/rng.go:68-76 | under one seed two bound sessions start in one generator state, or on one schedule base, only if their ordinals are one 64-bit word |
| Replay.LogFollowsTransitions | internal/smsc/session.go:715-768 | each record ran under the profile its tick puts in force and carries the id of its bind and tick |
| Replay.CutsFollowSchedule | internal/smsc/session.go:770-813 | the link goes down exactly when the disconnect schedule, run over the same ticks and the registry answers given at each peek and each consumption, or the carrier cuts it; every scope included |
| Replay.SameSeedSameRun | internal/smsc/session.go:701-814 | two processes with one seed and no gate, alike up to malformed-response settings, with the same submits at any times and flushes and keepalives anywhere, make the same verdicts, ids, profile switches and cut and draw the same numbers, for every delay; the registry answers need to agree only if there are entries of scope oldest; both emit one planned set of receipts and one sequence of messages, and the receipts in one order when clock plus delay does not wrap between two submits |
| Replay.RunMeetsConfiguration | internal/smsc/schedule_events.go:29-112 | in any run each tick ran under the transition in force on the entries as configured, and the cut is the one the disconnect entries, on the registry answers of that run, or the carrier ask for |
| BindSession.Session.constructor | internal/smsc/session.go:658-686 | a bound session starts seeded, on the initial profile, with its configured messages enqueued in config order |
| BindSession.Session.HandleSubmit | internal/smsc/session.go:701-814 | the in-place submit flow gives the decision state and the schedule of the specification in every branch, the registry asked once at the peek and again at the consumption; what it releases is due by its tick, and nothing due stays |
| BindSession.Session.FlushSchedule | internal/smsc/dlr.go:76-83 | a flush empties the schedule in order and moves no decision |
| Rng.SplitMixBijective | internal/rng/rng.go:80-85 | splitmix64 has a two-sided inverse on 64-bit words |
| Rng.BindsNeverShareSeeds | internal/rng/rng.go:68-76 | for one seed and name distinct ordinals have distinct PCG seed words |
| Rng.BindsNeverShareBases | internal/rng/rng.go:40-45 | for one seed and name distinct ordinals have distinct schedule bases |
| Rng.SeedsNeverShareStreams | internal/rng/rng.go:68-76 | for one name distinct seeds never share the first seed word, whatever the ordinals |
| Seeding.BindsStartApart | internal/rng/rng.go:68-76 | under one seed and name two ordinals never start a generator that tells seed words apart in one state |
| Recorder.Journal.Append | internal/recorder/recorder.go:66-76 | the ring keeps the last capacity entries of the unbounded log, indexed without gaps |
| Recorder.Journal.Snapshot | internal/recorder/recorder.go:81-109 | equals filter-then-take over the retained entries from Since |
| Recorder.UnfilteredSnapshot | internal/recorder/recorder.go:81-109 | without a filter that is the last min(n, capacity) of the n entries appended |
| Recorder.FilteredSnapshot | internal/recorder/recorder.go:81-109 | with one it is, in order, exactly the retained entries from Since on with the source and the destination asked for, cut at a positive limit |
| Recorder.PagingIsComplete | internal/recorder/recorder.go:38-39 | paging from last index + 1 with any positive limit visits every retained match once, in order, and ends |
| Recorder.LivePagingSkipsOnlyOverwritten | internal/recorder/recorder.go:66-109 | paging while submits keep arriving repeats nothing and skips only overwritten entries |
| Throughput.WallWindow.Allow | internal/fault/throughput.go:30-38 | opens a window after a second, counts the call, admits within the cap |
| Throughput.WindowAdmitsExactly | internal/fault/throughput.go:30-38 | a window admits exactly min(cap, calls) |
| Throughput.SecondAdmitsAtMost | internal/fault/throughput.go:30-38 | over any run with a non-decreasing clock any half-open second admits at most 2·cap − 1 |
| Throughput.SecondBoundReached | internal/fault/throughput.go:30-38 | that bound is reached for every cap |
| VirtualSmsc.MessageIdsDistinct | internal/smsc/session.go:846-848 | in every interleaving of binds all recorded message ids differ |
| VirtualSmsc.BindClocksGapless | internal/smsc/session.go:742-768 | in every interleaving the log of one bind has clocks 1, 2, 3, … without gaps |
| VirtualSmsc.LogicalClockCounts | internal/smsc/session.go:732-733 | logical_clock is the records appended plus the submits between the two updates |
| VirtualSmsc.AskCutsIff | internal/smsc/schedule_events.go:89-99 | in every interleaving the peek asks, one access a step, about entries first reached at the submit's tick, and an entry cuts the bind exactly when it is before_response and targets it at that step: scope all, the bind's coin, or oldest while no open registered bind has a smaller ordinal |
| VirtualSmsc.AnswerAskedAll | internal/smsc/session.go:770-780 | the response goes out only when every entry first reached at the tick has been asked about |
| VirtualSmsc.ConsumeCutsIff | internal/smsc/schedule_events.go:104-112 | in every interleaving the consumption cuts a bind exactly when some entry first reached at its tick targeted it at the very step that consumed it, and by then all entries reached are consumed |
| VirtualSmsc.OldestNowIsOne | internal/smsc/binds.go:52-66 | in any one reachable state at most one connection is the oldest bind, and it is registered and open |
| VirtualSmsc.OldestCascades | internal/smsc/schedule_events.go:72-79 | one entry of scope oldest cuts all of n binds registered together, in turn |
| VirtualSmsc.OneOldest | internal/smsc/binds.go:52-66 | while any bind is registered exactly one is the oldest |
| VirtualSmsc.BindRegistry.IsOldest | internal/smsc/binds.go:56-66 | the loop answers whether the id is registered and no smaller one is |
| Config.ValidateParams | internal/config/validate.go:273-335 | reports no fault exactly for the exposed, complete and in-range knobs of the profile |
| Config.ValidateLatency | internal/config/validate.go:365-418 | reports no fault exactly for the distribution's own knobs, within the profile's window |
| Config.ParamsByProfile | internal/config/profiles.go:78-113 | acceptance of the parameters, profile by profile: the knobs taken, the one required and the ranges |
| Config.LatencyByDistribution | internal/config/validate.go:436-449 | acceptance of a latency, distribution by distribution: exactly its knobs, within the profile's window |
| Config.ValidateScenario | internal/config/validate.go:221-232 | reports no fault exactly for the accepted scenarios: parameters, latency, the receipt block with its clock, distribution, ticks, unused bounds and weights, and malformed responses |
| Config.ValidateSetup | internal/config/validate.go:132-158 | adds the limit, quiescence_flush_ms and seed rules, exactly |
| Config.AcceptedAnyWalk | internal/config/validate.go:319-332 | acceptance does not depend on map order |
| Config.AcceptedScenarioDraws | internal/config/validate.go:319-332 | the engine of an accepted scenario, in whatever order it walks the error mix, never calls Uint64N(0), answers each status on exactly its weight of the draws and plans each receipt outcome on exactly its weight |
| Config.AcceptedBuilds | internal/config/validate.go:495-511 | an accepted setup builds engines that can be drawn from in every process |
| Config.AcceptedSeedReplays | internal/config/validate.go:140-158 | acceptance alone makes two processes with one seed make the same verdicts and emit the same plan, given the same submits and, with entries of scope oldest, the same registry answers |
| Config.LatencyStaysInWindow | internal/fault/latency.go:23-53 | accepted fixed, uniform and spike latencies stay in the profile's window, far below overflow |
| ServedLatency.RecordFitsIff | internal/scenario/scenario.go:279-305 | for every submit of every run under an accepted latency other than a normal one, the latency served lies in the window of the profile it ran under if and only if the profile its tick puts in force is not slow-carrier, or is the initial profile and the gate, on the arrival times so far, admits it; a latency outside the window is 0 |
| ServedLatency.AlwaysInWindowIff | internal/smsc/virtualsmsc.go:79-88 | every answer of every run of an accepted configuration is served in its window if and only if no tick is exposed: the carrier does not reject binds, slow-carrier is in force there, entered by a transition or with more submits before it than the cap, and some bind keeps its link until then against scope all, its coin, scope oldest if it is the first bind, and the periodic cut |
| ServedLatency.RefusedSlowServesZero | internal/scenario/scenario.go:284-286 | an accepted slow-carrier with a limit of one has a run that answers a submit at once |
| ServedLatency.EnteredSlowServesZero | internal/smsc/virtualsmsc.go:79-88 | an accepted healthy setup with a transition to slow-carrier has a run that answers a submit under slow-carrier at once |
| ServedLatency.OvertakenSlowHarmless | internal/smsc/schedule_events.go:62-67 | a transition to slow-carrier overtaken at its own tick exposes no tick |
| ServedLatency.RejectingSlowHarmless | internal/smsc/session.go:635-642 | an accepted dead-carrier that rejects binds exposes no tick whatever its transitions, for no submit of it is ever answered |
| RunOutcomes.VerdictsFollowConfig | internal/scenario/scenario.go:279-330 | every submit of every run is recorded with its own content and, on the arrival times so far, is throttled over the cap with the configured code, else ends as the profile in force at its tick says on its first fraction and is held back for a latency that profile serves |
| RunOutcomes.AnswersFollowConfig | internal/smsc/session.go:770-808 | every submit of every run is answered if and only if it is throttled or the profile in force is not dead-carrier, and no disconnect entry withheld its response; a receipt is planned exactly for an answered success of the initial profile with a receipt block, on a bind able to receive |
| RunOutcomes.LeavesOnTime | internal/smsc/dlr.go:38-71 | on the bind of a client that is never silent, link up, a receipt has left exactly when its submit planned one and its tick plus the configured delay has been reached, a message exactly when its tick has been |
| RunOutcomes.SilenceReleasesAll | internal/smsc/dlr.go:76-83 | a silence releases everything pending in order and decides nothing; a keepalive changes nothing |

## Left out

- HTTP surface, Prometheus collectors, logging: I/O; the depth gauge and drop counter of a session are kept.
- TCP, TLS, listeners, boot and shutdown: a shutdown is one step that closes `quit`.
- YAML decoding, regular expressions, file checks, and the port, address, TLS, name, buffer-size, MO-block and enumeration checks of the validator: the model starts from a decoded configuration and validates what decides a bind's behaviour.
- Float64 as a 64-bit float, NaN success rates, PCG and FNV internals: reals and an abstract generator.
- The numeric range of the normal latency distribution: unbounded in the code's own terms.
- ScenarioEngine.DrawOrder: the range of a uniform latency, maximum minus minimum plus one, is an unbounded integer here; in the code it is a 64-bit word, which accepted bounds never leave.
- ScenarioEngine.OutcomeDrawOrder: the same unbounded range.
- Credentials: the runs of a bind are those of a client whose credentials are right.
- ReadDeadline.ShutdownEnds: handling a PDU or a flush is one step; that its sends end is the session protocol's.
- EncodeEdgeCase's header rewrites: only the fact that injection draws nothing.
- Panic recovery, the test client, constant-time comparison beyond equality.
- Receipt.ReceiptArrivesIntact: the two receipt dates are any ten octets, the calendar rendering is not modelled.
- SmppStream.CutFrame: the reader is a finite stream of octets with an end, not an io.Reader object.
- SessionTheorems.ReceiptFollowsResponse: submits, binds and scheduled events are reduced to what the read loop can do with them, their order in the schedule is any order.
- SessionEnds.SilenceFlushes: a deadline that fires before the quiescence window is over only reads again, and is not a step of the model.
- SessionTheorems.OneClose: runs in which a goroutine panics are not covered.
- Replay.SameSeedSameRun: shutdown during an inline latency depends on the engine and is excluded; what other binds do reaches a bind through the registry answers only.
- BindSession.Session.HandleSubmit: responses are not queued here; the queue and its interleavings are the session protocol's.
- VirtualSmsc.LogicalClockCounts: 64-bit wrap of bindSeq, logical_clock and per_bind_clock is not modelled, it needs 2^64 binds or submits.
- Config.LatencyStaysInWindow: latency arithmetic is over unbounded integers; the lemma shows accepted values never come near the word size.
