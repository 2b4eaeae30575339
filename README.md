# AgentGate core, modelled in Dafny

AgentGate is a personal assistant. A Bun backend talks to Telegram and to language models. It keeps reminders in SQLite, asks a human before sensitive actions, and can fan one instruction out to a swarm of sub-agents. A small demo API and a React console page animate an agent-discovery flow, one stage at a time. This project models the sequential, deterministic parts of that system and proves properties of them.

There is one module per core source file:

- `Orchestration` models the `useOrchestration` hook. This is the 0..5 stage sequencer with card reading and the shortlist. It is a class over the hook's state and refs. Timers are pending entries, and each one fires by an explicit call.
- `ConsolePage` models `Index.tsx`. It covers the WebSocket `node:log` action mapping, the FIFO event queue, the queue effect and the stage-2 fallback, and the manifest built from match details. Renders are explicit events, and the effects rerun when their dependencies change.
- `Cron` and `Scheduler` model `scheduler.ts`. `Cron` is the pure `parseCron` matcher, including the JavaScript `Number` conversion of each token. `Scheduler` is the per-tick loop over the enabled reminders.
- `Reminders` models the three reminder tools, over a table of rows by id.
- `Approval` models `waitForApproval`. It holds the pending waiters, the listeners on the bus and the auto-deny timers.
- `Swarm` models `dispatch_swarm`.
- `Bot` models the Telegram handler's per-chat buffer objects, their debounce and flush, `/reset`, the `#chatid` trigger, and the callback handler of the approval buttons. The message handler is two steps, before and after its photo download, so a timer can fire in between.
- `Html` models `sanitizeHtmlForTelegram`.
- `DemoApi` models the `demoSession` record and the pure helpers of the demo API server.

Three shared modules support these:

- `Common` holds Option, a JSON value and distinct sequences.
- `Text` holds the JavaScript string operations the code uses: trim, split, join, includes, slice and number-to-text.
- `Events` holds the application's events.

The model follows the code where it differs from what the code's comments or tool descriptions suggest:

- `parseCron` reads five fields. An expression with fewer than five fields throws once every present field has matched. Nothing catches that throw: it escapes the `setInterval` callback as an uncaught exception. The model covers only the current tick, in which the remaining reminders are not examined (`Scheduler.AbortStays`). What the runtime does with the uncaught exception afterwards is not modelled.
- Each cron item goes through `Number`. A range such as `1-5` is therefore NaN and never matches. The weekday example in the reminder tool's own description, `0 9 * * 1-5`, never fires (`Cron.WeekdayExampleNeverFires`).
- The 300 ms advance timer of `completeCurrentStep` is not stored in `timeoutRef`, so `replay` and `start` do not cancel it. It fires before the restart's 800 ms start timer. The new run, still at stage 0, jumps to the old run's next stage, and the start timer then pulls it back to stage 1 (`Orchestration.StaleAdvanceSurvivesReplay`). After the last stage, the stale advance completes and stops the new run at stage 0, so the run never starts (`Orchestration.StaleEndsNewRun`).
- `/reset` deletes a chat's buffer but not its pending timer. A message that arrives before that timer fires leaves the chat with two live timers (`Bot.ResetLeavesTimer`).
- The message handler awaits the photo download before it touches the timer. If the chat's timer fires during the download, the flush emits the caption without the image. The handler then adds the image to the flushed buffer, which no chat holds any more, so the image is never sent. It also arms a timer for a chat whose buffer is gone (`Bot.DownloadRace`).

## Model

| member | source | states |
|---|---|---|
| Approval.RequestEffect | src/core/approval.ts:8-34 | a request records an unsettled waiter with its description, registers one listener and one timer, emits `approval:requested` with the id and description, and leaves other calls untouched; the gate stays consistent |
| Approval.DecisionResolves | src/core/approval.ts:20-24 | a decision for a pending call resolves it with its `approved` value and unregisters its listener, keeping every other waiter and listener |
| Approval.DecisionIsolation | src/core/approval.ts:20-21 | a decision for another id leaves every other waiter as it was; one for a settled or unknown id changes nothing |
| Approval.TimeoutDenies | src/core/approval.ts:31-34 | the timer removes the listener and resolves false when nothing settled the call, and changes no outcome after a decision |
| Approval.SettledOnce | src/core/approval.ts:21-24 | once settled, a call keeps its value through any later decisions and timer firings |
| Approval.ResolvesWithFirst | src/core/approval.ts:19-35 | over any history, a fresh call ends with the value of the first event that names it (`approved` for a decision, false for its timer), and stays pending and listening until such an event |
| Approval.UnregisterDistinct | src/core/approval.ts:22 | `bus.off` keeps the listener list free of duplicates |
| Approval.Unregister | src/core/approval.ts:22 | the listeners after `off` are exactly the former ones other than the removed id |
| Approval.ApprovalGate.WaitForApproval | src/core/approval.ts:4-35 | the gate's new state and the emitted event are those of `Request`, and the gate stays consistent |
| Approval.ApprovalGate.OnDecision | src/core/approval.ts:20-25 | the gate's new state is `Decide` of the old one, and the gate stays consistent |
| Approval.ApprovalGate.OnTimeout | src/core/approval.ts:31-34 | the gate's new state is `TimerFires` of the old one, and the gate stays consistent |
| Bot.ParseCallback | src/domains/telegram/bot.ts:49-60 | any decision it emits has a non-empty id free of `:` |
| Bot.CallbackDecision | src/domains/telegram/bot.ts:50-60 | data `action:id[:...]` gives a decision for `id` that approves exactly when the action is `approve` |
| Bot.CallbackIgnored | src/domains/telegram/bot.ts:50-51 | data with no `:`, or with an empty second part, emits no decision |
| Bot.ButtonsRoundTrip | src/domains/telegram/bot.ts:29-31 | the data of the Approve and Deny buttons parse back to an approving and a denying decision for the request's id |
| Bot.OnCallback | src/domains/telegram/bot.ts:48-61 | the handler emits only a decision parsed from the data, and nothing when the data has no request id or a Telegram call fails |
| Bot.ButtonSettlesRequest | src/domains/telegram/bot.ts:48-61 | when the answer and the edit succeed, a button of a pending request settles it with the button's answer; when either fails, nothing is emitted and the request is left to its auto-deny timer, which denies it |
| Bot.TextPart | src/domains/telegram/bot.ts:120-126 | a message contributes at most one part, never empty: its text when that is non-empty, and nothing exactly when both text and caption are missing or empty |
| Bot.ReceiveEffect | src/domains/telegram/bot.ts:89-132 | a message that is exactly `#chatid` (text, or caption when there is no text), one from another chat or a command changes nothing; an accepted one appends its text part to its chat's buffer, creating it if needed, leaves other chats' buffers and all timers alone, and goes on to the download exactly when its photo field is not one without sizes |
| Bot.ResumeEffect | src/domains/telegram/bot.ts:134-182 | after the download the handler adds the image and the transcript to the buffer object it holds, clears that object's timer and arms a fresh one that flushes its chat; no other object, chat-map entry or timer changes; the state stays well-formed |
| Bot.MessageEffect | src/domains/telegram/bot.ts:89-182 | the whole handler with no timer firing during it: an ignored message changes nothing; an accepted one appends its text part after the earlier ones, creates the buffer if needed and leaves other chats' buffers alone; the state stays well-formed |
| Bot.TimerReplaced | src/domains/telegram/bot.ts:98-182 | with no timer firing during the handler, an accepted message clears its chat's old timer and arms one fresh timer for that chat, keeping every other timer; a photo without sizes returns before the timer is touched; one timer per chat is preserved |
| Bot.DownloadRace | src/domains/telegram/bot.ts:129-204 | when the chat's timer fires during a photo download, the flush emits the text with the caption but without the image; the image then goes into a buffer no chat holds, and the chat is left with a live timer that is not its buffer's |
| Bot.ResumeOrphan | src/domains/telegram/bot.ts:141-182 | finishing the handler on a buffer that the chat map no longer holds adds the image and the transcript to that object only, and arms a timer that is not the timer of the chat's buffer, breaking one timer per chat |
| Bot.ResetLeavesTimer | src/domains/telegram/bot.ts:64-182 | `/reset` removes the buffer from the chat map but keeps its timer live, so a later message leaves two timers for the chat |
| Bot.FlushAbsent | src/domains/telegram/bot.ts:192-193 | flushing a chat without a buffer changes nothing and emits nothing |
| Bot.FlushEffect | src/domains/telegram/bot.ts:191-224 | a flush removes the chat's buffer from the chat map and changes nothing else, and emits exactly when there is a text part, a transcript or an image: the joined parts, or `(User sent media)` when there are none, with the images in order and the configured user id |
| Bot.FlushedInOrder | src/domains/telegram/bot.ts:201-204 | the flushed text holds every text part, then every transcript after `[Voice Memo]: `, each at its offset in the `"\n\n"` join |
| Bot.DebounceMerges | src/domains/telegram/bot.ts:176-204 | two accepted text messages in a row, with no timer firing in between, are flushed once, by the second message's timer, as one event joining both texts |
| Bot.FireTimerEffect | src/domains/telegram/bot.ts:180-182 | a firing timer is spent and flushes its chat, keeping the state well-formed and one timer per chat |
| Bot.ChatBuffers.MessageArrived | src/domains/telegram/bot.ts:98-132 | the in-place updates up to the download give exactly `Receive` of the old state, and the returned reference names a buffer object |
| Bot.ChatBuffers.DownloadDone | src/domains/telegram/bot.ts:134-182 | the in-place updates after the download give exactly `Resume` of the old state, whether or not the chat map still holds the buffer |
| Bot.ChatBuffers.HandleMessage | src/domains/telegram/bot.ts:98-183 | the two steps run with nothing in between give exactly `OnMessage` of the old state, and the state stays well-formed |
| Bot.ChatBuffers.HandleReset | src/domains/telegram/bot.ts:64-77 | the new state is `Reset` of the old one |
| Bot.ChatBuffers.TimerFired | src/domains/telegram/bot.ts:180-224 | the new state and the emitted event are those of `FireTimer` |
| Cron.OutcomeCases | src/domains/reminders/scheduler.ts:10-16 | the `&&` chain matches exactly when five fields are present and all match, throws exactly when fewer are present and all of them match, and otherwise answers no |
| Cron.MatchesIffAllFive | src/domains/reminders/scheduler.ts:4-16 | an expression matches exactly when it has at least five space-separated fields and each of the first five matches minute, hour, day, 1-based month and weekday |
| Cron.ThrowsIffShort | src/domains/reminders/scheduler.ts:5-16 | fewer than five fields throw exactly when every present field matches; five or more never throw |
| Cron.FailingFieldBlocks | src/domains/reminders/scheduler.ts:10-16 | a present field among the first five that does not match makes the answer no, even when later fields are missing |
| Cron.ExtraFieldsIgnored | src/domains/reminders/scheduler.ts:5 | fields after the fifth do not change the answer |
| Cron.OneItemField | src/domains/reminders/scheduler.ts:7-8 | a field without commas matches exactly when it is `*` or converts to the reading |
| Cron.ListFieldMatches | src/domains/reminders/scheduler.ts:7-8 | a comma list of decimal numbers matches exactly the listed values |
| Cron.StepTokenIsNaN | src/domains/reminders/scheduler.ts:8 | a token holding `/` or `*` converts to NaN |
| Cron.RangeTokenIsNaN | src/domains/reminders/scheduler.ts:8 | a range token `lo-hi` converts to NaN |
| Cron.RangeFieldNeverMatches | src/domains/reminders/scheduler.ts:8 | a field that is a range is never satisfied |
| Cron.StepFieldNeverMatches | src/domains/reminders/scheduler.ts:8 | a step field such as `*/5` is never satisfied |
| Cron.NumberValueOnlyNumeric | src/domains/reminders/scheduler.ts:8 | every token `Number` accepts is, after trimming, made of digits and points, with a sign allowed only in front |
| Cron.NumberOfDigits | src/domains/reminders/scheduler.ts:8 | the decimal digits of a number convert back to that number |
| Cron.WeekdayExampleNeverFires | src/domains/reminders/scheduler.ts:7-8 | `0 9 * * 1-5` never fires |
| Scheduler.EnabledIds | src/domains/reminders/scheduler.ts:28 | the selected ids are exactly the ids of enabled rows |
| Scheduler.VisitOutcomes | src/domains/reminders/scheduler.ts:32-47 | a visit skips a reminder fired this minute, aborts when its cron throws, fires it (stamp then event) when it matches, and otherwise changes nothing |
| Scheduler.RunEvents | src/domains/reminders/scheduler.ts:36-46 | every event of a run names a selected reminder that was due, with its note |
| Scheduler.RunRows | src/domains/reminders/scheduler.ts:39-40 | a run keeps the keys; a fired reminder has only `last_triggered` set to now; every other row is untouched; no reminder fires twice |
| Scheduler.TickEffect | src/domains/reminders/scheduler.ts:22-49 | a tick fires only enabled due reminders, with their notes, stamping exactly those rows, at most once each |
| Scheduler.SkippedWithinMinute | src/domains/reminders/scheduler.ts:32-33 | a reminder already fired this minute is skipped whatever its cron says |
| Scheduler.DisabledNeverFires | src/domains/reminders/scheduler.ts:28 | a disabled reminder is never changed or named by an event |
| Scheduler.RunFiresAllDue | src/domains/reminders/scheduler.ts:36-46 | when no cron throws, every selected due reminder fires |
| Scheduler.TickFiresAllDue | src/domains/reminders/scheduler.ts:22-49 | a tick that does not abort fires every enabled due reminder |
| Scheduler.AbortStays | src/domains/reminders/scheduler.ts:36 | once a run has aborted, later reminders are not visited |
| Scheduler.AtMostOncePerMinute | src/domains/reminders/scheduler.ts:32-40 | a second tick in the same minute fires none of the reminders the first fired |
| Scheduler.VisitAll | src/domains/reminders/scheduler.ts:30-47 | the loop over the selected reminders ends in the rows, events and abort flag of the reference run |
| Scheduler.RunTick | src/domains/reminders/scheduler.ts:22-49 | the live table ends as the reference tick leaves it, keeps its row order, and the events and abort flag are the tick's |
| Reminders.SetReminder | src/domains/reminders/tools.ts:13-23 | the table changes exactly when the insert succeeds; the reply is an `Error setting reminder: ` message exactly when it does not; a taken id reports the key violation |
| Reminders.SetAddsOneRow | src/domains/reminders/tools.ts:14-20 | a successful insert adds exactly one row under the new id with the given cron and note, enabled and never triggered, whatever the cron text, and keeps every other row |
| Reminders.EnabledRowsExact | src/domains/reminders/tools.ts:31 | a listed row is exactly an enabled row of the table with its cron and note |
| Reminders.ListCases | src/domains/reminders/tools.ts:31-33 | the answer is "No active reminders." exactly when no row is enabled, otherwise exactly the enabled rows |
| Reminders.SetThenListed | src/domains/reminders/tools.ts:14-33 | a reminder just set appears in the listing |
| Reminders.DeleteReminder | src/domains/reminders/tools.ts:41-42 | the table changes exactly when the id exists, and the reply is "not found" exactly when it does not |
| Reminders.DeleteExisting | src/domains/reminders/tools.ts:41-42 | deleting an existing id removes that row and only it |
| Reminders.SetThenDelete | src/domains/reminders/tools.ts:14-42 | deleting the reminder just set gives the table back |
| Reminders.ReminderStore.Set | src/domains/reminders/tools.ts:13-23 | the store's new state and the reply are those of `SetReminder` |
| Reminders.ReminderStore.List | src/domains/reminders/tools.ts:30-34 | the reply is `ListReminders` of the table |
| Reminders.ReminderStore.Delete | src/domains/reminders/tools.ts:40-43 | the store's new state and the reply are those of `DeleteReminder` |
| Swarm.CapCheck | src/domains/swarm/tools.ts:15-33 | more than ten tasks give the refusal and start nothing; up to ten, ten included, the reply starts with the header |
| Swarm.Staggered | src/domains/swarm/tools.ts:21-25 | every task gets one agent, the `i`-th delayed `1000 * i` ms with id `i + 1`, its task and the unchanged instruction |
| Swarm.ReportInTaskOrder | src/domains/swarm/tools.ts:28-33 | agent `i + 1`'s report sits in the reply after the header and the earlier reports and separators, whatever the completion order |
| Swarm.EmptySwarm | src/domains/swarm/tools.ts:31-33 | an empty task list gives just the header |
| Swarm.ReportNamesAgent | src/domains/swarm/runner.ts:47-52 | each report opens with `[Agent #` and its agent's id |
| Html.CloseTagReplaced | src/domains/telegram/html.ts:12-15 | a closing tag in any case, with the white space after it, becomes the paragraph or line break |
| Html.OpenTagDropped | src/domains/telegram/html.ts:13-16 | an opening tag in any case, with or without attributes, is dropped |
| Html.PreUntouched | src/domains/telegram/html.ts:12-13 | `<pre>` and `</pre>` survive both paragraph passes |
| Html.NoTagsUnchanged | src/domains/telegram/html.ts:12-16 | text without `<` passes every tag pass unchanged |
| Html.CollapseNoTriple | src/domains/telegram/html.ts:18 | the newline pass leaves no run of three newlines |
| Html.CollapseIdle | src/domains/telegram/html.ts:18 | text without three newlines in a row is left as it is by that pass |
| Html.PassThrough | src/domains/telegram/html.ts:8-20 | text with no tag and no triple newline comes out only trimmed |
| Html.SanitizedShape | src/domains/telegram/html.ts:8-20 | the output has no run of three newlines and no white space at either end |
| Text.TrimBounds | src/domains/telegram/html.ts:19 | `trim` leaves a contiguous piece whose ends are not white space, cutting only white space |
| Text.TrimKeeps | src/domains/telegram/html.ts:19 | a character that is not white space survives `trim` at its shifted place |
| Text.TrimIdle | src/domains/telegram/html.ts:19 | a string with no white space at either end is unchanged by `trim` |
| Text.JoinSlice | src/domains/swarm/tools.ts:31 | the joined text holds every part, in order, at its offset |
| Text.JoinSplit | src/domains/reminders/scheduler.ts:5 | splitting on a one-character separator and joining back gives the input |
| Text.SplitJoin | src/domains/reminders/scheduler.ts:8 | joining separator-free pieces and splitting again gives the pieces back |
| Orchestration.ShortlistNames | frontend/src/hooks/useOrchestration.ts:111 | at most one name per shortlisted index, none of them empty |
| Orchestration.ShortlistNamesFromCards | frontend/src/hooks/useOrchestration.ts:111 | every reported name is the name of a card the shortlist points at in the manifest |
| Orchestration.ShortlistNamesExact | frontend/src/hooks/useOrchestration.ts:111 | when every shortlisted index names a card with a non-empty name, the result is exactly those names, in shortlist order |
| Orchestration.InitialWellFormed | frontend/src/hooks/useOrchestration.ts:156-168 | the initial hook is well-formed |
| Orchestration.FireWellFormed | frontend/src/hooks/useOrchestration.ts:217-355 | every timer firing keeps the hook well-formed |
| Orchestration.AdvanceWellFormed | frontend/src/hooks/useOrchestration.ts:253-320 | `advanceToStep` keeps the hook well-formed |
| Orchestration.ReadNextWellFormed | frontend/src/hooks/useOrchestration.ts:217-249 | `readNext` keeps the hook well-formed |
| Orchestration.ReplayResets | frontend/src/hooks/useOrchestration.ts:358-362 | `replay` from any state gives the initial state, not running, with the tracked timer cleared |
| Orchestration.StartResets | frontend/src/hooks/useOrchestration.ts:348-356 | `start` gives the initial state, running, at stage 0, and arms only the tracked timer that enters stage 1 |
| Orchestration.StageOneByTimer | frontend/src/hooks/useOrchestration.ts:353-362 | the timer armed by `start` enters stage 1 with its edge and one entry, and a `replay` right after `start` cancels that timer |
| Orchestration.AdvancePastLast | frontend/src/hooks/useOrchestration.ts:260-270 | past stage 5 the run completes, no edge, envelope 0, same stage and console |
| Orchestration.AdvanceWithin | frontend/src/hooks/useOrchestration.ts:272-319 | entering a stage sets it and its edge and appends exactly one entry with its label; only stage 2 arms a timer |
| Orchestration.StrayTimersInert | frontend/src/hooks/useOrchestration.ts:218-323 | when not running, a firing timer only removes itself, and advancing or completing changes nothing |
| Orchestration.CompleteArmsNext | frontend/src/hooks/useOrchestration.ts:322-346 | completing logs the response exactly when given and arms one untracked timer advancing to the next stage |
| Orchestration.CompleteThenAdvance | frontend/src/hooks/useOrchestration.ts:325-345 | completing and firing moves to exactly the next stage, or completes the run after the last |
| Orchestration.StaleAdvanceSurvivesReplay | frontend/src/hooks/useOrchestration.ts:194-362 | an advance timer pending across `replay` and `start` fires first (300 ms before the 800 ms start timer): the new run goes from stage 0 to the old run's next stage, then back to stage 1 when the start timer fires |
| Orchestration.StaleEndsNewRun | frontend/src/hooks/useOrchestration.ts:194-362 | after the last stage, the stale advance completes the restarted run at stage 0 and stops it, and the start timer then does nothing: the new run never starts |
| Orchestration.StartTimerFires | frontend/src/hooks/useOrchestration.ts:353-355 | the start timer enters stage 1 and leaves every other pending timer in place |
| Orchestration.ReadingBegins | frontend/src/hooks/useOrchestration.ts:215-291 | stage 2's timer starts reading at card 0, or shows the shortlist at once for an empty manifest |
| Orchestration.ReadingStep | frontend/src/hooks/useOrchestration.ts:227-248 | reading a card marks it as read and flipped, adds its "Reading:" entry and arms the next read |
| Orchestration.ReadCardsEffect | frontend/src/hooks/useOrchestration.ts:215-251 | after `n` reads from card `k`, cards `k..k+n-1` are flipped in order with one entry each, the last is being read, the stage is unchanged |
| Orchestration.ShortlistShown | frontend/src/hooks/useOrchestration.ts:219-311 | after the last card the reading index is -1, the shortlist is shown with its entry, and only the firing timer goes, so stage 2 does not advance by itself |
| Orchestration.Orchestrator.DoStart | frontend/src/hooks/useOrchestration.ts:348-356 | the hook's new state is `Start` of the old one |
| Orchestration.Orchestrator.ClearAll | frontend/src/hooks/useOrchestration.ts:194-198 | the hook's new state is `ClearAllTimers` of the old one |
| Orchestration.Orchestrator.SetTimeout | frontend/src/hooks/useOrchestration.ts:217-249 | the hook's new state and the handle are those of `Arm` |
| Orchestration.Orchestrator.DoReplay | frontend/src/hooks/useOrchestration.ts:358-362 | the hook's new state is `Replay` of the old one |
| Orchestration.Orchestrator.DoAdvanceToStep | frontend/src/hooks/useOrchestration.ts:253-320 | the hook's new state is `AdvanceToStep` of the old one |
| Orchestration.Orchestrator.DoCompleteCurrentStep | frontend/src/hooks/useOrchestration.ts:322-346 | the hook's new state is `CompleteCurrentStep` of the old one |
| Orchestration.Orchestrator.DoReadNext | frontend/src/hooks/useOrchestration.ts:217-249 | the hook's new state is `ReadNext` of the old one |
| Orchestration.Orchestrator.FireTimer | frontend/src/hooks/useOrchestration.ts:248-353 | the hook's new state is `Fire` of the old one, and it stays well-formed |
| Orchestration.Orchestrator.SyncRef | frontend/src/hooks/useOrchestration.ts:183-185 | the step ref takes the current stage |
| Orchestration.Orchestrator.DoSetManifestData | frontend/src/hooks/useOrchestration.ts:72-78 | the manifest and shortlist are replaced |
| ConsolePage.RankScore | frontend/src/pages/Index.tsx:90 | the fallback score of the match at rank `i` is `0.9 - 0.1*i` up to rank 6 and the floor 0.3 from rank 6 on, so it lies between 0.3 and 0.9 |
| ConsolePage.FirstIndices | frontend/src/pages/Index.tsx:92-94 | the indices `0, 1, …` of the first five cards, or of all of them when there are fewer |
| ConsolePage.ProcessQueueCases | frontend/src/pages/Index.tsx:136-146 | the queue effect consumes exactly the head, and only when running, not complete, the head's step is on screen and a stage-2 head sees the shortlist; otherwise nothing changes |
| ConsolePage.HeadBlocksQueue | frontend/src/pages/Index.tsx:138-140 | an entry behind a head for another stage is never consumed |
| ConsolePage.RenderTakesHead | frontend/src/pages/Index.tsx:136-153 | a render records the state on screen and either keeps the queue or takes its head, whose stage is on screen, arming the advance to the next stage; the step ref follows a changed stage; the page stays well-formed |
| ConsolePage.EnqueueQueue | frontend/src/pages/Index.tsx:46-48 | enqueueing appends the entry and changes neither the manifest nor the render |
| ConsolePage.EnqueueStarts | frontend/src/pages/Index.tsx:46-52 | enqueueing starts a fresh run at stage 0 exactly when the last render showed none running, and otherwise leaves the sequencer alone |
| ConsolePage.SearchResultEffect | frontend/src/pages/Index.tsx:76-108 | a search result enqueues the manifest step then the selection step, and replaces the manifest and shortlist exactly when it has details |
| ConsolePage.MessageEnqueues | frontend/src/pages/Index.tsx:62-129 | a message appends its action's stages (1; 2 then 3; 4; 5) with their labels, and nothing for other actions, malformed JSON or a throwing handler |
| ConsolePage.MessageStartsRun | frontend/src/pages/Index.tsx:46-129 | an enqueueing message starts a run exactly when none was showing; otherwise the sequencer is untouched |
| ConsolePage.ManifestFromMatches | frontend/src/pages/Index.tsx:84-96 | only a search result with details replaces the manifest, one card per detail with the first min(5, n) as shortlist |
| ConsolePage.ReplyCut | frontend/src/pages/Index.tsx:120-125 | a reply enqueues one stage-5 entry: a string reply cut to 140 characters, or "Agent replied." when the reply is missing or null |
| ConsolePage.FallbackArming | frontend/src/pages/Index.tsx:156-185 | the fallback is armed exactly when the queue is empty and stage 2's shortlist is on screen in a running, incomplete run |
| ConsolePage.EventsKeepPage | frontend/src/pages/Index.tsx:41-185 | every event keeps the page well-formed: a pending fallback belongs to a render at stage 2's shortlist |
| ConsolePage.FallbackCompletesStageTwo | frontend/src/pages/Index.tsx:164-175 | the fallback disarms, logs stage 2 with the top five cards of the manifest, and arms a timer that moves to stage 3 |
| ConsolePage.ResetEmptiesQueue | frontend/src/pages/Index.tsx:41-44 | `handleReset` empties the queue and replays |
| ConsolePage.Console.EnqueueStep | frontend/src/pages/Index.tsx:46-52 | the page's new state is `Enqueue` of the old one |
| ConsolePage.Console.Receive | frontend/src/pages/Index.tsx:62-130 | the page's new state is `OnMessage` of the old one |
| ConsolePage.Console.ReceiveSearchResult | frontend/src/pages/Index.tsx:76-108 | the page's new state is `OnSearchResult` of the old one |
| ConsolePage.Console.RenderPage | frontend/src/pages/Index.tsx:136-185 | the page's new state is `Render` of the old one |
| ConsolePage.Console.FireHookTimer | frontend/src/pages/Index.tsx:136-153 | the page's new state is `HookTimerFires` of the old one |
| ConsolePage.Console.FireFallback | frontend/src/pages/Index.tsx:164-175 | the page's new state is `FallbackFires` of the old one |
| ConsolePage.Console.Reset | frontend/src/pages/Index.tsx:41-44 | the page's new state is `HandleReset` of the old one |
| DemoApi.SearchSuffixStripped | src/api/server.ts:40 | a base followed by `/search` or `/search/` gives the base back |
| DemoApi.StripSearchSuffix | src/api/server.ts:40 | the result is a prefix of the URL, shorter only by a final `/search` or `/search/` |
| DemoApi.KeywordIntentIsFirstRule | src/api/server.ts:185-206 | the keyword fallback is the first rule of the table, in order, one of whose words the lowercased message contains |
| DemoApi.KeywordIntentIgnoresCase | src/api/server.ts:185 | capitals do not change the fallback intent |
| DemoApi.ParseIntentForgets | src/api/server.ts:209-217 | the new session depends only on the message and the parse, not on the earlier session; the agents and the selected endpoint are cleared |
| DemoApi.ScoreMapLastWins | src/api/server.ts:275-276 | each id gets the trust of its last search result |
| DemoApi.InsertSorted | src/api/server.ts:291 | inserting into a score-ordered list keeps it ordered |
| DemoApi.Insert | src/api/server.ts:291 | inserting adds exactly the new agent to the list's elements |
| DemoApi.SortByScore | src/api/server.ts:291 | the sort is a permutation of its input |
| DemoApi.SortByScoreSorted | src/api/server.ts:291 | the sort is non-increasing in score |
| DemoApi.RankedTopSix | src/api/server.ts:279-292 | the manifest keeps at most six listed agents, best first, and no agent left out scores more than one kept |
| DemoApi.TopOfSorted | src/api/server.ts:291-292 | a prefix of a sorted list is sorted, drawn from it, and beats everything after it |
| DemoApi.FallbackRanked | src/api/server.ts:295-302 | the fallback manifest has six agents in score order |
| DemoApi.ManifestShortlist | src/api/server.ts:306-311 | the shortlist is the first min(5, n) indices of at most six agents, the rest of the session unchanged |
| DemoApi.FirstNamed | src/api/server.ts:350-378 | the index of the first agent whose name is wanted, or none |
| DemoApi.SelectChoice | src/api/server.ts:339-356 | the selection is the candidates when there are any, else the names of the first three agents (all of them when fewer); the confidence is the top agent's score to two decimals, 0.85 without agents; the session takes the first agent named in the selection, else the first agent; without agents it is unchanged |
| DemoApi.Round2 | src/api/server.ts:346 | `Math.round(x * 100) / 100` is a whole number of hundredths within half a hundredth of `x`, and leaves a value already in hundredths unchanged |
| DemoApi.ConnectChoice | src/api/server.ts:377-397 | connecting selects the first agent of that name, else the first agent, and always echoes the request |
| DemoApi.WorkflowShape | src/api/server.ts:435-452 | a parsed workflow has one to three items, priorities high, medium, low by position and actions of at most 120 characters; item `i` cleans the `i`-th non-blank line; with no such line the one item is the answer's first 120 characters |
| DemoApi.NumberedLine | src/api/server.ts:440 | a numbered line loses its number: `12. Search flights` becomes `Search flights` |
| DemoApi.StripBullet | src/api/server.ts:440 | the result is a suffix of the line; what is cut is bullet characters and white space, and only a line starting with a bullet character is cut, losing the white space after its bullets too |
| DemoApi.ExecuteCases | src/api/server.ts:417-474 | the status is "ready" exactly when there is no selected endpoint or no answer, with the default workflow; otherwise it is "completed" with the parsed workflow |
| DemoApi.DevEmitCases | src/api/server.ts:56-75 | a body without a truthy action is rejected with 400; otherwise one `node:log` event with the action and the source, target and payload given, or `DevTerminal`, `Frontend` and `{}` |
| DemoApi.DemoServer.HandleParseIntent | src/api/server.ts:148-232 | the session's new state and the reply are those of `ParseIntent` |
| DemoApi.DemoServer.HandleManifest | src/api/server.ts:237-327 | the session's new state is `Manifest` of the old one |
| DemoApi.DemoServer.HandleSelect | src/api/server.ts:332-366 | the session's new state and the reply are those of `Select` |
| DemoApi.DemoServer.HandleConnect | src/api/server.ts:371-398 | the session's new state and the reply are those of `Connect` |
| DemoApi.DemoServer.HandleExecute | src/api/server.ts:403-475 | the reply is that of `Execute` and the session is unchanged |

## Left out

- Numbers: `Number()` is modelled for decimal literals with at most one sign and one point, plus white space and the empty string. Every other form is NaN in the model. In the source, a cron token such as `0x5`, `0b101`, `0o5` or `5e0` converts to 5 and matches the reading 5, and `1e1` matches 10; in the model these tokens never match. `Infinity` matches no reading in either.
- Strings are sequences of code points, not UTF-16 units. `toLowerCase` is ASCII-only.
- Scores and confidences are `real` values, with no floating-point error. `Math.random()` scores are inputs (`rolls`). The confidence's rounding to hundredths in `select` is modelled exactly on reals (`Round2`).
- `Array.prototype.sort`'s stability is modelled by an insertion sort that is stable. That matches the sort engines the server runs on.
- Network, language models and files are inputs or left out: the model call of `parse-intent`, the agent-network fetches, the selected agent's answer, photo downloads, voice transcription and base64 encoding. A message carries the image and the transcript it yields.
- Telegram API sends are left out: the approval request message, the `/reset` and `#chatid` replies, callback answers and message edits. Their failure is modelled where it changes state: a failed callback answer or edit suppresses the decision (`Bot.OnCallback`). A failed `/reset` reply only skips the reply, because the buffer is already deleted.
- `events.ts` dispatch (listener order, errors inside listeners) is not modelled. Events are values returned by the operations.
- Scheduler.RunTick: rows are written back once after the loop instead of by one UPDATE per fired reminder. No other code runs in between, so the final table is the same.
- The minute key is the first 16 characters of an abstract ISO timestamp. The clock, `toISOString` and time zones are inputs. `setInterval`'s 15-second cadence is left out; ticks are explicit calls.
- Timer delays (800 ms, 1200 ms, 300 ms, 3 s, 4 s, 5 min) are not modelled as time. A pending timer fires when the caller fires it. The model therefore also allows orders of firing that the delays rule out.
- Bot.FireTimer: the flush awaits the voice transcripts after it takes the buffer out of the chat map and before it reads the parts. Images that a late handler adds to that buffer during the wait are emitted with it, and two flushes can emit in either order. The model's flush reads the buffer at once.
- Bot.OnMessage, Bot.TimerReplaced, Bot.MessageEffect, Bot.DebounceMerges and Bot.ChatBuffers.HandleMessage describe the handler with no timer firing during its download. A message without a photo has nothing to await, so for it they cover every case. For the other cases, `Receive` and `Resume` are separate steps (`Bot.DownloadRace`).
- Voice memos: a voice memo's transcript is an input. The model adds it after the download, where the source pushes its promise, and the flush uses the text that promise resolves to.
- The envelope animation and its intervals, timestamps of console entries, `lastSource`, the WebSocket connection state and reconnection are left out.
- ConsolePage: the cards' fields are text in the model. The source copies the match details' fields as they are, without converting them, and the page shows them through JSX. A detail that is not a string becomes text through an abstract `render`, which stands for how the page shows it.
- ConsolePage.DetailCard: a match without `agent_id` gives a card whose name is `undefined` in the source. The shortlist drops it, the reading step says `Reading: undefined`, and when it is the first card the connection step names `ResearchAgent`. The model uses `render` of the missing value instead.
- ConsolePage.DetailCard: `tags` that is not an array is not modelled. A string `tags` gives its first character as the provider in the source; the model gives `AgentNetwork`. A `capabilities` value that is not an array is kept as it is in the source; the model gives no capabilities.
- The `simulate-orchestration` dev route is left out. It only emits a fixed sequence of `node:log` events.
- `node:log` emissions of the demo API other than the dev route are left out.
- The unmount cleanup effect of the hook is left out.
- The HTTP routing, CORS and JSON encoding of the demo API are left out.
- Orchestration.StrayTimersInert: the intervals of `clearAllTimers` are not modelled, only the tracked timeout.
