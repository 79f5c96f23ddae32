# Messaging protocols: model and proofs

A model, in Dafny 4.11, of the concurrent and data-carrying core of the messaging module, with
proofs about it. `dafny verify dfyconfig.toml` checks everything.

What is modelled, one group of files at a time:

- **Realtime delivery.** `Registry`, `Tailer`, `TailerRuns`, `Delivery`, `Places`, `Sse`, `Guarantees`,
  `ChannelKeys`, `BusEnvelope`.
  A tailer polls an outbox whose rows commit late and out of order, removes repeats with a pruned map, and
  publishes each event in two steps: push into a ring under a lock, then broadcast outside it. Clients take a
  ring snapshot, subscribe in a second step, forward what their allowlist permits, vanish, and come back with
  the last id they received. `Registry`, `Tailer` and `Sse` are the imperative code; `TailerRuns` and
  `Delivery` are step machines over whole runs; `Places` says which runs keep a client's place; `Guarantees` says
  what a client can rely on.
- **Queue drainers.** `MailQueue`, `SmsQueue`, `StatusPump`, `Webhook` hold the row steps, the drain loops, the
  notification pump and the webhook; `MailRuns` and `SmsRuns` interleave any number of drainers with callbacks,
  webhooks, requeues, sweeps, reaps, message edits, generated writes and crashes between any two steps;
  `MailContents` follows what each transport call says back to the claim that read it. The guards are those of the
  repositories' SQL and of the state-transition and monotonic triggers.
- **Deferred messages.** `Schedule` (one batch, row by row), `AuthorNotice` (the best-effort failure path, with the
  unique index that can refuse it) and `ScheduleRuns` (any number of open transactions, each row dispatched on its
  own commit, crashes anywhere).
- **Posting and inbound mail.** `Fanout` and `NotifyPump` (grouping by channel, the three strategies, one
  transaction that rolls back as a whole); `Inbound` and `InboundRuns` (authentication, dedup, allowlist, the
  routing ladder; others may insert between a delivery's probe and its insert).
- **Printers, parsers, arithmetic.** `Recipients`, `HtmlEscape`, `Bytes`, `Base64` (section 5 of RFC 4648),
  `Session`, `Calendar`.

`Prelude`, `Events` and `Holdings` are shared vocabulary: sequences without repeats, filters, ids, ordered
claims, drainers, and the count of rows held in many hands.

Where the code and its comments disagree, the model follows the code:

- `src/realtime/sse.rs:151-153` says snapshot-then-subscribe cannot double-deliver or drop. It can do either;
  `StreamIsHistoryIffCleanHandover` and `RepeatsAndMisses` give the exact condition and the exact damage.
- `src/realtime/tailer.rs:16-18` says overlap cannot skip a row over a poll gap. It does, when the gap and the
  commit's delay add up to the window: `PublishedIffPolledInTime` is the exact condition, `GapLosesARow` the input.
- The tailer prunes by the application clock and queries by the database clock. "Never twice" holds for
  every outbox exactly under the clock condition of `NeverTwiceIffSafeClocks`.
- `src/application/service/sms_write_service.rs:259-260` says a regression matches zero rows. A pending row told
  `process` is matched, and is stopped only by the triggers (`DatabaseRefusesOnlyPendingToProcess`).
- The drainer mirrors the tracker and pumps the notification even when the row did not take its verdict.
  `TrackerInStepIff` says when the tracker still agrees with the row, `DrainerUnitFailsIff` when the pump's write
  makes the whole transaction fail. A swept row can be stuck in process with no verdict to come. `StuckIff` is the
  exact condition over whole runs: the last verdict is a mere `processing`, or a failure refused because a stale
  answer marked the notification delivered, or never comes because its drainer crashed or stopped early, or somebody
  moves the row into process by hand. `StuckUntilFreed` says what gets it going again: a generated state move, a
  webhook reporting progress, or one reporting failure unless the notification is delivered (`StrandedIff` and
  `StrandedUntilRescued` are about that case).
- The webhook's five-minute window is open up to, and not including, 301 seconds, since the skew is truncated to
  whole seconds before it is compared.
- `src/application/service/schedule_write_service.rs:251-253` speaks of deleting a row only after the pump
  succeeded. The code deletes first, on the same uncommitted transaction; what counts is the commit.
- `src/application/service/schedule_write_service.rs:236-239` promises a notification to the author of a failed
  message. The failure path drops every error, so the unique index on message and partner can swallow it:
  `AuthorIsToldIff` is the exact condition, `SilentLossIsReachable` a run in which a message disappears unheard.
- `src/application/service/message_write_service.rs:299-318` joins addresses with a comma and a blank, and
  `src/application/service/mail_queue_write_service.rs:332-343` splits on commas: an address with a comma in it
  is torn apart. `RoundTripIffClean` is the exact condition.
- After a refused insert (`src/application/service/mail_inbound_service.rs:210-248`) the code re-probes on the same
  transaction to answer with the winner's row. PostgreSQL has aborted that transaction by then, so the re-probe fails
  and the delivery has no answer; the relay's retry gets it.
- A month shift sums in 32 bits (`src/application/service/activity_write_service.rs:343`). The model wraps, as builds
  without overflow checks do; a build with them panics where the sum leaves the range.

## Model

| member | source | states |
|---|---|---|
| Registry.RealtimeRegistry.PushRing | src/realtime/registry.rs:61-71 | After every push the ring is exactly the last min(n, 4096) events ever pushed, in order |
| Registry.RealtimeRegistry.Publish | src/realtime/registry.rs:61-71 | Ring history and broadcast history both grow by the one event |
| Registry.RealtimeRegistry.ReplayAfter | src/realtime/registry.rs:81-88 | The replay is what follows the watermark in the ring (all of it for an unknown or absent one), and is always a tail of the publish history |
| Registry.RealtimeRegistry.ReserveConnection | src/realtime/registry.rs:92-100 | A slot is taken exactly when fewer than the cap are open; a refusal changes nothing and reports the number open |
| Registry.RealtimeRegistry.ReleaseConnection | src/realtime/registry.rs:103-111 | One open stream fewer, in step with the true multiset of open streams; a release too many changes nothing |
| Sse.NeverMoreThanFourStreams | src/realtime/sse.rs:47-48 | However requests and endings interleave, no identity ever has more than four streams open |
| BusEnvelope.ExtractedIff | src/realtime/tailer.rs:69-85 | Exactly what is extracted and when: the row's own id and time with the channel, type and payload its envelope names, the channel in the declared grammar; nothing from any other shape |
| BusEnvelope.EnvelopeRoundTripIff | src/domain/event/constants.rs:75-87 | Staging an event and extracting it undo each other if and only if the channel keeps to the grammar |
| Tailer.OutboxTailer.PollOnce | src/realtime/tailer.rs:89-126 | A pass publishes, in fetch order, exactly the well-formed rows not remembered after pruning; a failed query prunes and publishes nothing |
| TailerRuns.Tail | src/realtime/tailer.rs:130-148 | A whole run of passes publishes the log and leaves the dedup map that the run functions describe |
| TailerRuns.SynchronisedClocksAreSafe | src/realtime/tailer.rs:95-105 | A database clock that never runs back and an application clock never ahead of it satisfy the clock condition |
| TailerRuns.PublishedComesFromOutbox | src/realtime/tailer.rs:106-124 | Everything published is the event of an outbox row |
| TailerRuns.NeverPublishedTwice | src/realtime/tailer.rs:89-126 | Under safe clocks no id is published twice, over every run of polls, late commits and failed polls |
| TailerRuns.UnsafeClocksRepublish | src/realtime/tailer.rs:95-105 | Where the clock condition fails there is an outbox and a run that publish one id twice |
| TailerRuns.NeverTwiceIffSafeClocks | src/realtime/tailer.rs:89-126 | For given clocks, no repeats for every outbox if and only if no prune clock lies ahead of both query clocks around it |
| TailerRuns.FirstVisiblePollPublishes | src/realtime/tailer.rs:11-18 | A well-formed row is published by the first successful poll that returns it, whatever the clocks and the commit order |
| TailerRuns.PublishedIffReturned | src/realtime/tailer.rs:89-126 | Over whole runs a well-formed row is published if and only if some successful poll returned it, and under safe clocks then exactly once |
| TailerRuns.PublishedIffPolledInTime | src/realtime/tailer.rs:89-126 | When every successful poll returns all it can see, a well-formed row is published if and only if some successful poll has a database clock at or after its commit and before the end of its window; a commit as slow as the window loses it |
| TailerRuns.GapLosesARow | src/realtime/tailer.rs:16-18 | Every gap in the successful polls as long as the window loses a row committed the moment it was written |
| TailerRuns.SeenIsTheWindow | src/realtime/tailer.rs:95-105 | After a successful poll the dedup map lies between the rows just fetched and the outbox rows younger than the older horizon, so its size is bounded |
| Delivery.ReplayIsHistoryAfterWatermark | src/realtime/registry.rs:81-88 | What is replayed for a watermark is the history from right behind the watermark's event while the ring holds it, and from the oldest event of the ring otherwise |
| Delivery.ReplayIsOfItsWatermark | src/realtime/sse.rs:143-154 | Over every run, a connection's replay is the one for the watermark it was opened with, taken from the ring of that moment |
| Delivery.RunKeepsInv | src/realtime/sse.rs:151-213 | Over every run of push, send, snapshot, subscribe, forward, disconnect and reconnect, each connection's replay and live part are contiguous slices of the history |
| Guarantees.StreamIsHistoryIffCleanHandover | src/realtime/sse.rs:143-155 | A connection's stream is the history after its watermark, once each and in order, if and only if the handover was clean or the event in flight is still unsent; that history starts right behind the watermark while it is among the last 4096 events, else at the oldest of those |
| Guarantees.RepeatsAndMisses | src/realtime/sse.rs:151-213 | Of the history after the watermark at most one event comes twice, the last replayed and first live; the missed ones are exactly those pushed after the snapshot and sent before the subscription; never both. Of what lies before, only the watermark's own event can come again |
| Guarantees.ReconnectsLeaveNoGapNoRepeat | src/realtime/sse.rs:172-213 | A client whose snapshots all kept its place and whose handovers were all clean has received, across all its connections, exactly the permitted events of the history from where it joined (from the very start if it joined within the first 4096), and is up to date when nothing is left to forward |
| Guarantees.WholeHistoryIsReceived | src/realtime/registry.rs:61-88 | Within the first 4096 events such a client, with nothing left to forward, has received the permitted part of everything sent |
| Places.OrderlyIsExact | src/realtime/sse.rs:143-213 | The same at every point of every such run: received is the permitted part of the history from where the client joined to where it has got |
| Guarantees.DoubleDeliveryIsReachable | src/realtime/sse.rs:151-155 | A run, built for any feed, in which one event is delivered twice |
| Guarantees.LostEventIsReachable | src/realtime/sse.rs:151-155 | A run, built for any feed, in which an event is never delivered |
| Guarantees.OutboxToClient | src/realtime/tailer.rs:89-126 | End to end: with safe clocks such a client has received, without repeats, the permitted part of the publish log from where it joined, each event that of an outbox row |
| Sse.Forward | src/realtime/sse.rs:167-213 | The wire carries the session proof, then every permitted replay and live event in order, cut where the client is gone; a lag notice ends nothing |
| Sse.Serve | src/realtime/sse.rs:118-213 | A request is refused exactly at four open streams; however the stream ends, the open-stream count is what it was |
| ChannelKeys.RecordKeyRoundTrip | src/realtime/tailer.rs:55-64 | Reading a record key gives back model and id for every model name, underscores included |
| ChannelKeys.RecordChannelIsInjective | src/domain/event/constants.rs:38-40 | Two records never share a channel |
| ChannelKeys.RecordChannelIsValidIff | src/realtime/tailer.rs:49-53 | The tailer accepts a record's channel if and only if the model keeps to the alphabet and to 91 characters |
| MailQueue.OneRequestPerRow | src/application/service/mail_queue_write_service.rs:174-212 | The transport sees each drained row with readable headers once, with that row's sender, envelope, subject, body, reply address and headers, and no other row |
| MailQueue.MailQueueService.ClaimBatch | src/infrastructure/persistence/mail_queue_repository.rs:96-141 | A claim takes the due rows of lowest id, as many as the batch allows, each once, and marks exactly those |
| MailQueue.VerdictOnRow | src/infrastructure/persistence/mail_queue_repository.rs:144-184 | A verdict moves exactly an outgoing or failed row, to sent or failed as it says; no other row and no content changes; repeated it does nothing, and a sent row takes no further verdict |
| MailQueue.StepsPassTheTrigger | migrations/20260831220010_state_transition_check_mails_1452df7a.up.sql:4-15 | Claims, verdicts and requeues make only moves the trigger accepts |
| MailQueue.RequeueOnRow | src/infrastructure/persistence/mail_queue_repository.rs:186-200 | Exactly a failed row goes back to the queue, its failure forgotten; no other row and no content changes; a second requeue does nothing |
| MailQueue.MailQueueService.SendBatch | src/application/service/mail_queue_write_service.rs:174-224 | Each claimed row gets its verdict once, rows with malformed headers are failed without a transport call, all other rows are untouched, and the counts add up |
| MailQueue.MailQueueService.ProcessQueue | src/application/service/mail_queue_write_service.rs:129-232 | The drain terminates; each drained row is settled once; claimed = sent + failed; an unlimited drain leaves nothing due |
| MailQueue.BatchExtends | src/application/service/mail_queue_write_service.rs:135-231 | Batches compose: draining one more batch extends what the whole drain has done, with no row drained twice |
| MailRuns.RunKeepsInv | src/application/service/mail_queue_write_service.rs:129-281 | Every chance of a row to be sent is in the queue, in one drainer's hands, used up or lost, over every interleaving and every crash |
| MailRuns.HandedAtMostOncePerRequeue | src/application/service/mail_queue_write_service.rs:13-21 | A mail is handed to the transport at most once more than it was returned to the queue |
| MailRuns.HandedExactlyWhenNothingLost | src/application/service/mail_queue_write_service.rs:129-232 | Once out of the queue and of all hands, it was handed over exactly as often as it had a chance, less the recorded losses |
| MailRuns.HandedExactlyIffCostless | src/application/service/mail_queue_write_service.rs:129-281 | A row at rest was handed over once, and once more per return to the queue, if and only if no step of the run cost it a call: a crash before its hand-over, refused headers, or a verdict or move while it waited in the queue |
| MailRuns.RequeueInHandLosesItsTurn | src/application/service/mail_queue_write_service.rs:276-281 | A run in which a row requeued while a drainer holds it ends sent without having been sent again |
| MailContents.CallsCarryTheirClaim | src/infrastructure/persistence/mail_queue_repository.rs:96-141 | Every transport call carries the row's columns and the message's text exactly as they were at the claim it came from |
| MailContents.CallsDifferOnlyByWrites | src/infrastructure/persistence/message_edit_repository.rs:36-54 | Two calls for one row differ in sender, subject or body only if its message was edited, amended or removed, and in anything else only if the row itself was written, between their claims |
| MailContents.OnlyWritesChangeLetters | src/application/service/mail_queue_write_service.rs:129-281 | Drainers, verdicts, requeues and edits never change the row's own columns; only a generated write of the row does |
| MailRuns.ClaimsAreDisjoint | src/infrastructure/persistence/mail_queue_repository.rs:96-141 | Two drainers hold the same row, or one holds a queued row, only after a requeue |
| MailRuns.DrainTotalsAddUp | src/application/service/mail_queue_write_service.rs:166-231 | In every interleaving, a drainer with empty hands reports claimed = sent + failed |
| MailRuns.OnlyRequeueMakesClaimable | src/application/service/mail_queue_write_service.rs:276-281 | A crash leaves rows as they are; only a requeue, a generated state move or the row's creation makes a row outgoing |
| SmsQueue.StepsPassTheTriggers | migrations/20260831220013_state_transition_check_sms_ee90fff1.up.sql:4-15 | Every write of drainer, webhook and sweep is one both triggers accept |
| SmsQueue.RepeatedWebhookIsNoOp | src/infrastructure/persistence/sms_queue_repository.rs:150-184 | A verdict the row already took, repeated, changes neither row nor tracker |
| SmsQueue.DatabaseRefusesOnlyPendingToProcess | src/infrastructure/persistence/sms_queue_repository.rs:155-184 | The seam's own guard is not enough exactly for a pending row told process |
| SmsQueue.TrackerInStepIff | src/application/service/sms_write_service.rs:205-216 | The webhook keeps the tracker in step; after the drainer it is in step if and only if the row took the verdict or already stood there |
| SmsQueue.SmsWriteService.ClaimBatch | src/infrastructure/persistence/sms_queue_repository.rs:79-108 | A claim takes the outgoing rows of lowest id, as many as the batch allows, each once, and marks exactly those |
| SmsQueue.VerdictOnRow | src/application/service/sms_write_service.rs:179-252 | Exactly a row in process takes the drainer's verdict, the tracker takes it in any case; nothing else changes, and later verdicts on a settled row change no row |
| SmsQueue.LateVerdictOnRow | src/application/service/sms_write_service.rs:266-302 | A late verdict moves a row and its tracker exactly from process to anywhere else or from pending to an end state; otherwise nothing changes, and repeated it does nothing |
| SmsQueue.SmsWriteService.SweepStuckProcess | src/application/service/gc_service.rs:104-130 | A second sweep of the same rows finds none, since each goes back to the queue at most once; the count is that of the rows put back |
| SmsQueue.SmsWriteService.SendBatch | src/application/service/sms_write_service.rs:147-164 | Each claimed row goes to the provider once, in order, takes its verdict and its tracker, and is counted once |
| SmsQueue.SmsWriteService.ProcessQueue | src/application/service/sms_write_service.rs:126-173 | The drain terminates; claimed = accepted + delivered + failed + replayed; an unlimited drain leaves nothing queued |
| SmsQueue.TotalsAddUp | src/application/service/sms_write_service.rs:159-164 | The verdicts of a batch raise the four counts by its size together |
| SmsRuns.RunKeepsInv | src/application/service/sms_write_service.rs:126-302 | Every chance of an sms to be sent is accounted for, over every interleaving of drainers, webhooks, sweeps, reaps, moves and crashes |
| SmsRuns.HandedAtMostTwice | src/application/service/gc_service.rs:101-130 | An sms is handed to the provider at most twice, the second time only after its one sweep |
| SmsRuns.HandedExactlyWhenNothingLost | src/application/service/sms_write_service.rs:126-173 | Out of queue and hands, it was handed over exactly as often as it had a chance, less the recorded losses |
| SmsRuns.HandedExactlyIffCostless | src/application/service/sms_write_service.rs:126-173 | Out of queue and hands, an sms was handed over once, and once more if swept, if and only if no step of the run cost it a call: a crash before its hand-over, or a move while it waited in the queue |
| SmsRuns.DrainTotalsAddUp | src/application/service/sms_write_service.rs:132-173 | In every interleaving, a drainer with empty hands reports totals that add up |
| SmsRuns.OnlyTheSweepLowersRank | migrations/20260815220007_sm13_sweep_guard_escape.up.sql:15-36 | One step lowers a row's rank only by sweeping it from process to outgoing |
| SmsRuns.RankFallsAtMostOnce | src/infrastructure/persistence/gc_repository.rs:107-134 | Over a whole run a row's rank falls at most once |
| SmsRuns.TerminalIsForEver | migrations/20260831220013_state_transition_check_sms_ee90fff1.up.sql:4-15 | A row in a terminal state keeps its whole content until it is reaped, and never comes back |
| StatusPump.RefusedIff | src/infrastructure/persistence/message_pipeline_repository.rs:249-271 | The database refuses what the pump's rank test lets through exactly when a delivered notification is told of a failure |
| StatusPump.MailVerdictFailsIff | src/application/service/mail_queue_write_service.rs:285-328 | A mail verdict fails as a whole exactly when it is a failure and a linked notification is delivered; else each notification keeps the higher rank |
| StatusPump.DrainerUnitFailsIff | src/application/service/sms_write_service.rs:210-252 | The drainer's transaction fails exactly for a failure verdict on a delivered notification, and then keeps nothing of it |
| StatusPump.NotificationNeverFalls | src/infrastructure/persistence/message_pipeline_repository.rs:249-271 | No interleaving of drainers, webhooks, sweeps, crashes and moves by hand lowers the rank of a notification, and a failed one never changes unless it is moved by hand |
| StatusPump.VerdictBringsLockstepIff | src/application/service/sms_write_service.rs:175-252 | A row in process takes its verdict, and row, tracker and notification then agree, if and only if the notification stood below the verdict and was not delivered before a failure, or stood there already |
| StatusPump.StaleDeliveryIsReachable | src/application/service/sms_write_service.rs:205-216 | A late answer after the sweep marks the notification delivered while the row is out for its second attempt |
| StatusPump.StrandedRowIsReachable | src/application/service/gc_service.rs:101-130 | Claim, sweep, stale delivery, second claim, then a failure, a mere `processing` or a crash: the row is in process, its notification delivered, with no verdict to come, and no sweep may take it |
| StatusPump.StuckByCrashesIsReachable | src/infrastructure/persistence/gc_repository.rs:76-136 | Claim, crash, sweep, claim, crash: the row is in process, never notified, with no verdict to come, and no sweep may take it |
| StatusPump.StuckNextIff | src/application/service/sms_write_service.rs:126-252 | The exact step at which a row gets stuck, whatever its notification says |
| StatusPump.StuckIff | src/application/service/sms_write_service.rs:126-302 | Over whole runs a row is swept and in process with no verdict to come if and only if some step made it so by that condition and no later step freed it |
| StatusPump.StuckUntilFreed | src/application/service/gc_service.rs:101-130 | A stuck row stays so, all but its notification unchanged, if and only if nobody moves it and no webhook reports it pending or sent, or failed while its notification is undelivered; a freed one is never in the queue or in process again |
| StatusPump.StrandedNextIff | src/application/service/sms_write_service.rs:126-252 | The exact step at which a row is stuck under a delivered notification |
| StatusPump.StrandedIff | src/application/service/sms_write_service.rs:126-302 | Over whole runs a row is stuck under a delivered notification if and only if such a step happened, and since then no webhook reported progress and nobody moved the row |
| StatusPump.StrandedUntilRescued | src/application/service/gc_service.rs:101-130 | A stranded row stays as it is if and only if no webhook reports it pending or sent and nobody moves it; claims, drainers, sweeps and failure reports never do, and a rescued one is never in the queue or in process again |
| StatusPump.NeverSweptIsNeverStranded | src/application/service/sms_write_service.rs:126-252 | While a row was never swept and nobody moved its notification, the transaction of its one attempt goes through for every verdict |
| Bytes.ConstEq | src/realtime/session.rs:76-85 | The accumulating comparison says yes if and only if the byte strings are equal |
| Bytes.ParseHex32 | src/application/service/sms_status_webhook_service.rs:131-145 | Accepts exactly 64 hex digits of either case, and gives the bytes whose lowercase spelling the text is |
| Bytes.PrintIsInjective | src/application/service/sms_status_webhook_service.rs:131-145 | Printing in hex tells all byte strings apart |
| Bytes.ParsesToIffSpells | src/application/service/sms_status_webhook_service.rs:71-77 | A text parses to a digest if and only if it is a case variant of the digest's print |
| Webhook.Handle | src/application/service/sms_status_webhook_service.rs:65-97 | The order of refusals, each with its exact condition, a malformed header told from a mismatching one; state changes only behind a header that spells the MAC, a fresh timestamp and a known status; replays change nothing |
| Base64.DecodeOfEncode | src/realtime/session.rs:87-95 | Decoding undoes encoding for all byte strings, and encoding stays in the alphabet |
| Base64.EncodeOfDecode | src/realtime/session.rs:87-95 | Whatever decodes is the encoding of what it decodes to: one spelling per byte string |
| Session.IdentityKeyIsInjective | src/realtime/session.rs:62-67 | No two identities share a key, a user and a guest of one uuid included |
| Session.ParseOfPrint | src/realtime/session.rs:44-50 | Decimal parsing undoes printing for every 64-bit expiry |
| Session.TokenSplits | src/realtime/session.rs:34-40 | The dot never occurs inside a part, so a token splits into exactly its three parts |
| Session.AcceptedIffPartsCheck | src/realtime/session.rs:34-59 | The verifier's checks in order accept exactly the tokens made of the identity's key, an unexpired decimal and the MAC of the re-formatted payload |
| Session.VerifySessionToken | src/realtime/session.rs:34-59 | Yes if and only if the token is one this identity may present now; all malformed input is refused |
| Session.MintedIsAcceptedUntilExpiry | src/realtime/session.rs:24-59 | A minted proof is accepted for its own identity exactly while the time is at most its expiry |
| Session.MintedIsBoundToItsIdentity | src/realtime/session.rs:24-59 | No other identity is ever accepted with it |
| Recipients.SplitRecipients | src/application/service/mail_queue_write_service.rs:332-343 | The pushed list is the envelope: trimmed non-blank pieces of `to`, then those of `cc` |
| Recipients.JoinThenSplit | src/application/service/message_write_service.rs:299-318 | For comma-free addresses, splitting the joined column gives the trimmed non-blank addresses in order |
| Recipients.EnvelopeIsClean | src/application/service/mail_queue_write_service.rs:332-343 | Whatever the columns hold, every envelope recipient is trimmed, non-blank and comma-free |
| Recipients.RoundTripIffClean | src/application/service/mail_queue_write_service.rs:330-343 | Join and split undo each other if and only if every address is clean |
| HtmlEscape.PassesAreOneSubstitution | src/application/service/relay_b7.rs:120-126 | Five passes one after the other equal one substitution per character |
| HtmlEscape.EscapedHasNoMarkup | src/application/service/relay_b7.rs:120-126 | No raw angle bracket or quote survives |
| HtmlEscape.UnescapeOfEscape | src/application/service/relay_b7.rs:120-126 | Reading the entities back left to right gives the original, for every string |
| HtmlEscape.BodyTellsAddressesApart | src/application/service/relay_b7.rs:107-117 | The warning body determines both addresses: none can imitate the template |
| Calendar.ShiftedIsValid | src/application/service/activity_write_service.rs:342-348 | The shifted date is valid, exactly that many months on, on the same day unless the month is too short |
| Calendar.FallbackOnlyOutsideSupportedYears | src/application/service/activity_write_service.rs:342-348 | The 32-bit sum and the date library's year range show only as staying put, exactly when the exact result is out of range |
| Calendar.ShiftMovesTwentyEightToThirtyOneDays | src/application/service/activity_write_service.rs:340-363 | n months move a date by 28n to 31n days, forward and backward, clamps and leap years included |
| Calendar.ShiftIsMonotoneInBase | src/application/service/activity_write_service.rs:342-348 | A later date never shifts to an earlier one |
| Calendar.ShiftIsStrictInCount | src/application/service/activity_write_service.rs:342-348 | More months is always later |
| Calendar.TwoShifts | src/application/service/activity_write_service.rs:342-348 | Two shifts land in the month of their sum, never on a later day, and on the same day under an exact condition |
| Calendar.ShiftBack | src/application/service/activity_write_service.rs:342-348 | A shift and its opposite give the date back if and only if the first did not clamp |
| Calendar.DayNumberOrders | src/application/service/activity_write_service.rs:350-363 | Day numbers order dates as the calendar does and tell all dates apart |
| Calendar.YearStart | src/application/service/activity_write_service.rs:350-363 | The day count month by month agrees with the closed Gregorian formula in every year |
| Calendar.DelaysCompare | src/application/service/activity_write_service.rs:331-338 | Week and day delays agree and undo exactly; month delays keep the 28 to 31 day bound in the supported years |
| Schedule.OutcomesPartition | src/application/service/schedule_write_service.rs:256-268 | Every dispatched row is counted once, under posted or under skipped |
| Schedule.PumpAcceptsIff | src/application/service/schedule_write_service.rs:284-313 | The pump takes a scheduled row exactly when its body is not blank and it names nobody twice |
| Schedule.PostShows | src/application/service/schedule_write_service.rs:284-313 | A dispatched post leaves on the board exactly what the pump leaves in its message and notification tables |
| Schedule.IndexIffDistinctOnBoard | migrations/20260426220019_create_mail_notification_table.up.sql:47 | The unique index over the whole notifications table holds exactly when the board has no notification twice |
| Schedule.ScheduleWriteService.DispatchDueScheduled | src/application/service/schedule_write_service.rs:240-270 | An uninterrupted dispatch claims the earliest due rows, posts or fails each once, removes exactly those, and posted + skipped = claimed |
| Schedule.ScheduleWriteService.DispatchOne | src/application/service/schedule_write_service.rs:274-344 | The board stays sound and keeps every earlier notification; a row that is not posted leaves what the failure path makes of the board, through a latest message on the author's own wall if there is one |
| Schedule.ScheduleWriteService.LatestAuthorWallMessage | src/infrastructure/persistence/schedule_repository.rs:257-272 | The carrier is the author's latest message on their own wall, if there is any |
| AuthorNotice.AuthorIsToldIff | src/application/service/schedule_write_service.rs:318-344 | The author of a failed message is told if and only if they have nothing on their own wall or the latest message there carries no notification for them yet |
| AuthorNotice.SecondFailureIsToldIff | src/application/service/schedule_write_service.rs:348-382 | Of two failures in a row the second is told if and only if the author has nothing on their own wall, or the lookup breaks a tie of dates the other way and that message carries nothing for them yet; else it changes nothing |
| Schedule.ScheduleWriteService.DispatchDueNotify | src/application/service/schedule_write_service.rs:113-142 | For the earliest due rows one notification per follower and the rows gone, or nothing at all when the unique index refuses one |
| Schedule.NotifiedFollowerBlocksTheBatch | migrations/20260426220019_create_mail_notification_table.up.sql:47 | One claimed row with a follower already notified makes the whole batch fail |
| ScheduleRuns.GoneWasDispatched | src/application/service/schedule_write_service.rs:240-270 | With crashes anywhere, a row that is gone without a cancel was posted or its failure path was run |
| ScheduleRuns.NothingSilentlyLostIff | src/application/service/schedule_write_service.rs:234-344 | Such a row was posted or its author told, if every failed dispatch found its author reachable; and only if, when it was dispatched just once |
| ScheduleRuns.SilentLossIsReachable | src/application/service/schedule_write_service.rs:318-344 | Two failing messages of an author with a message on their own wall: the second is gone, not posted, and nobody was told |
| ScheduleRuns.PostedAtMostOncePerRollback | src/application/service/schedule_write_service.rs:240-270 | A row is dispatched at most once more than it was rolled back, and a cancelled one only by rolled-back dispatches |
| ScheduleRuns.ExactlyOnceWithoutCrashes | src/application/service/schedule_write_service.rs:240-270 | Without crashes every dispatched row was posted or failed exactly once |
| ScheduleRuns.ClaimsAreDisjoint | src/infrastructure/persistence/schedule_repository.rs:195-230 | Two open dispatches never hold the same row, and a held row is still durable |
| Fanout.GroupingIsStablePartition | src/application/service/message_write_service.rs:231-240 | Channels once each in first-appearance order, the given order inside each, everybody exactly once |
| Fanout.NewKeysAreUniqueIff | migrations/20260426220019_create_mail_notification_table.up.sql:47 | For a new message the unique index refuses exactly the lists that name a partner twice by inbox or email |
| Fanout.FanningKeepsPartnersApart | src/application/service/message_write_service.rs:162-170 | Naming a partner twice does not depend on the order the groups impose |
| NotifyPump.MessageWriteService.GroupByChannel | src/application/service/message_write_service.rs:231-240 | The loop over groups computes that partition |
| NotifyPump.MessageWriteService.EmailStrategy | src/application/service/message_write_service.rs:293-349 | Succeeds exactly when everyone has an address and no key clashes; then one notification each tied to one mail row with the joined list, or nothing for nobody |
| NotifyPump.MessageWriteService.SmsStrategy | src/application/service/message_write_service.rs:355-406 | Succeeds exactly when everyone has a number with text in it and no key clashes; then one notification and one sms row each, tied together by the tracker minted with it |
| NotifyPump.MessageWriteService.MessagePost | src/application/service/message_write_service.rs:114-212 | Goes through if and only if body, thread edge, addresses, numbers and partners are acceptable; then the tables grow by exactly the new rows and events, else nothing has changed |
| NotifyPump.TrimmedHasText | src/application/service/message_write_service.rs:115-117 | A body that survives the trim always passes the database's check on sms text |
| NotifyPump.PostConserves | src/application/service/message_write_service.rs:162-208 | One notification per recipient, one mail row when anyone is reached by email, one sms row and one `SmsCreated` per sms recipient |
| NotifyPump.SmsRowsAreLinked | src/application/service/message_write_service.rs:370-404 | Each sms row's tracker points at the notification of its own recipient |
| NotifyPump.EnvelopeIsTheRecipientsIffClean | src/application/service/message_write_service.rs:299-318 | From post to transport, the envelope is the recipients' addresses in order if and only if all are clean |
| Inbound.SplitOfJoined | src/application/service/mail_server_query_service.rs:50-58 | Splitting on the last `@` undoes joining, local parts with an `@` included |
| Inbound.UnroutableIff | src/application/service/mail_inbound_service.rs:282-328 | A message has no route exactly when no parent names a model, no recipient leads to a thread with a known model, and there is no default |
| Inbound.LadderIsDeterministic | src/application/service/mail_inbound_service.rs:282-328 | Where every thread has one model the ladder has one answer |
| Inbound.InsertKeepsIndex | migrations/20260815220011_mailb6_message_id_dedup.up.sql:28-30 | An insert keeps at most one row per message id |
| Inbound.MailInboundService.Route | src/application/service/mail_inbound_service.rs:282-328 | The loop with early exits computes the declarative ladder: parent thread, else first recipient in order that leads to a thread with a known model, else the default with no record |
| Inbound.MailInboundService.ProcessInbound | src/application/service/mail_inbound_service.rs:110-274 | Each outcome with its exact condition and its exact effect; nothing is written before authentication or for a duplicate |
| InboundRuns.OneRowPerMessageId | src/application/service/mail_inbound_service.rs:152-274 | Over every interleaving: one row per message id, stored by one delivery, named by every duplicate answer; routed events and routed answers agree |
| InboundRuns.ReplayChangesNothing | src/application/service/mail_inbound_service.rs:159-164 | A later delivery of a stored message is answered with its row and stores and stages nothing, whatever happened in between |
| InboundRuns.RaceLoserStoresNothing | src/application/service/mail_inbound_service.rs:210-248 | A delivery that lost the race stores nothing, stages nothing and has no answer; its retry is answered with the winner's row |
| InboundRuns.NoIdNoDedup | src/application/service/mail_inbound_service.rs:64-67 | Without a message id each delivery that reaches its insert stores a row of its own, and none is called a duplicate |

## Left out

- Several tailers on one registry: one is assumed, as `spawn` starts one per replica.
- Broadcast lag: `Delivery` has none, because a client that received later frames cannot recover earlier ones by
  watermark; `Sse.Forward` keeps the lag notice, which carries no event.
- `Allowlist::build` and the access resolver: the allowlist is a fixed predicate per client; a frame lost in the
  socket at a disconnect counts as not forwarded.
- MailRuns.RunKeepsInv: queue rows are never removed; the generated permanent delete is not a step.
- Sse.Serve: a request whose identity cannot be established is refused before the modelled part; framing and keepalives are not modelled.
- MailQueue.MailQueueService.ProcessQueue: the uninterrupted drain with no other writer; other writers and every early return on an error are in `MailRuns`, where such a return is the crash step. The dispatch-request event of the claim is not modelled.
- SmsQueue.SmsWriteService.ProcessQueue: the uninterrupted drain of rows without a linked notification; `StatusPump` has the notification and says when its write fails, and `SmsRuns` has the drainer that stops there (crash step).
- SmsQueue.VerdictOnRow: row and tracker only; `StatusPump.DrainerUnit` adds the notification.
- SmsQueue.LateVerdictOnRow: row and tracker only; `StatusPump.WebhookUnit` adds the notification.
- StatusPump.NotificationNeverFalls: a notification is never deleted in that machine; the foreign key of its tracker refuses it (`migrations/20260831220007_add_declared_foreign_keys_d343b871.up.sql:475`).
- StatusPump.StuckIff: the sms has a linked notification, and its row and tracker are not deleted by hand; the reap takes terminal rows only, never a stuck one.
- SmsRuns.HandedAtMostTwice: rests on the sweep marker surviving every generated write of an sms row. The marker is an extra key in the metadata column; the typed metadata (`src/domain/entity/mod.rs:209-234`) does not have it, and the generic update that writes metadata is in a crate that is not part of this model. A write that dropped the marker would let the row be swept again. `StatusPump.StuckIff` rests on the same.
- SmsQueue.SmsWriteService.SweepStuckProcess: the age test is a parameter, the set of rows found stuck; the alert event is not modelled.
- The enum casts on failure codes: a code outside the vocabulary makes the statement fail, which the run machines cover as a crash; the row functions take any text.
- An sms row's id and its correlation uuid are one key here; both are unique in the tables.
- `FOR UPDATE SKIP LOCKED`: in the run machines a claim is any set of claimable rows; in the classes, with nobody else at work, it is the first ones in the claim's order.
- Schedule.ScheduleWriteService.DispatchDueScheduled: whether the author may post is a function of the row; arming and cancelling are steps of `ScheduleRuns` only, where the board changes freely between steps.
- Schedule.PostShows: the board keeps a message's author and date, which the pump's message table leaves out; the rest of the board is what that table and the notifications table show.
- TailerRuns.PublishedIffPolledInTime: outbox rows are not deleted while they are inside the window.
- AuthorNotice.AuthorIsToldIff: the errors of the database connection, which the failure path drops as well, are not modelled.
- NotifyPump.MessageWriteService.MessagePost: subtype resolution, foreign keys, the message's other columns and connection errors; fresh ids are positions in append-only tables.
- Inbound.MailInboundService.ProcessInbound: the digest is a parameter and the new row's id is given, not used before; subject and body are not looked at.
- InboundRuns.OneRowPerMessageId: rows are never deleted; the generic delete of a message would let its id be stored again.
- Soft-deleted and inactive rows: the directory of servers, patterns, domains and aliases holds the live ones.
- `lower()` in PostgreSQL folds by locale; the model folds ASCII letters only.
- HMAC, SHA-256 and randomness: parameters and given ids; no cryptographic claim is made.
- Session.VerifySessionToken: decoded parts are compared as bytes, which subsumes the UTF-8 decoding of the first two.
- ChannelKeys.RecordKeyRoundTrip: the uuid reader is a parameter that must read the hyphenated form back.
- Calendar.DelaysCompare: day and week delays are unbounded here, while the date library panics at the ends of its range.
- The overdue, today and planned projection of activities, plan scheduling and chained activities.
- One-to-one chat dedup, blacklist verbs, reactions, stars, presence, typing, attachments, phone formatting, and the generated services: one branch each.
