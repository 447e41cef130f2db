# Boreas, modelled and proved

Boreas manages the lifecycle of containers used as staging environments ("tasks"), grouped in projects. It
keeps a row per task, Docker's containers and a reverse-proxy registry in step; it streams metrics, logs and
change signals to browsers; and its assistant, Bora, answers questions in turns that a phone reads aloud. This
project models the parts of it that are hard to get right, one module per component, and proves what they
promise. `dafny verify dfyconfig.toml` checks all of it.

| file | component | form |
|---|---|---|
| `Lifecycle.dfy` | a task's row, containers and registry entry under every operation and every failure | class |
| `Turn.dfy` | a Bora turn's event log and its followers | steps, class |
| `TurnGate.dfy` | the gate that admits turns, and the life of a turn | steps, class |
| `TurnRuns.dfy` | the two together: what a turn publishes is what its streams follow | lemmas |
| `MetricsHub.dfy` | one shared metrics stream per container | steps, class |
| `ChangeSignal.dfy` | the change hub together with the browser's refresh scheduler | steps, classes |
| `Sayer.dfy` | the streaming recogniser of the line to read aloud | functions, class |
| `LogLines.dfy` | the log line splitter | class |
| `ToolLoop.dfy` | the bounded conversation with a tool-calling model | methods |
| `Numbers.dfy` | numbers in Vietnamese words, with a reader that takes them back | functions, methods |
| `EditDistance.dfy` | the two-row Levenshtein distance and the "did you mean" list | method, functions |
| `Access.dfy` | the effective role, computed in three places, and what Bora may propose | functions, methods, class |
| `Assignees.dfy` | reconciling who is on a task | class |
| `Proxy.dfy` | the registry of sites, dispatch, path rewriting and route cleaning | class, functions |
| `Wrappers.dfy` | a value that may be absent | datatype |

## How to read it

Objects that the program updates in place are classes with the same fields. The four concurrent protocols are
state machines: a step is one section under the component's lock, one channel operation or one branch of a
select; a step that cannot happen leaves the state alone, so that every sequence of steps is a run, and the
theorems hold of `Run(steps)` for all of them. Beside each state machine stands a class whose methods are the
sections under a lock as the program writes them, proved equal to the machine's steps; what happens outside a
lock (a follower's sends and waits, a viewer's reads, a turn's own progress, a timer going off) is a step of the
machine only. Channels carry a `closed` mark, and `crashed` says that one was closed twice or sent to once closed.

In `Lifecycle.dfy` every call to Docker or the database may fail, with or without having taken effect, and
containers may vanish, or be doing otherwise, at any call that looks at containers. `docker` says how each
container is doing, and an inspection that answers tells the truth of it; `faults` counts the calls that
answered with an error, so that `faults == old(faults)` says that none did. The server may be killed during any
call: from there on what is left of the operation has no effect that lasts (`down`), and the server is started
again before it serves the next request. `Safe()` (no configuration drift) is kept by every single call; `clean`
says that no store write has failed, no deletion stopped midway and no operation was killed since the last
start-up.

In `Proxy.dfy` the names given to Unregister, SetRoutes and SetLock are nonempty and without a slash: their
callers pass stored names, which the schema constrains. The schema also keeps names apart that differ by case
alone; `OneSpelling` says so of a site, and every operation keeps it.

Where a promise does not hold of the code for every input, the code is kept and the exact condition is proved:

- Two chunkings of one answer say the same exactly when no form feed precedes the say tag and the tag is
  within the 1000 characters held back (`Sayer.ChunksDoNotMatterToTheSay`). The regular expression counts a
  form feed as white space and the trimming beside it does not; `Sayer.LostAfterAFormFeed` is such a text.
- All chunkings of a text with a tag spell the same, up to white space right after the tag, exactly when in
  addition no second `<say>` follows there (`Sayer.ChunksDoNotMatterToTheText`); `Sayer.OpenerShownOrGone` is a
  text where one does. Texts without a say need no condition (`Sayer.TextsWithoutASay`).
- No channel of a turn is closed twice exactly when the turn is ended at most once (`Turn.ClosedOnce`), and the
  goroutine that runs a turn ends it once, so that no run of the two together does
  (`TurnRuns.StreamsHearOneEnding`).
- A moved redirect comes back through its own hop exactly when no longer route leads there
  (`Proxy.Registry.RedirectsComeBack`); `Proxy.TakenByALongerRoute` builds a registry where one does.
- Unassigning takes back only what assigning gives, a member grant, exactly when every holder who is not named
  held just that (`Assignees.TakesBackOnlyMembers`): SetAssignees revokes a viewer's or operator's grant too,
  which its comment and the API description say it does not.
- Afterwards the assignees are exactly the named users, exactly when none of these held a viewer's or operator's
  grant before (`Assignees.AssigneesAreTheNamed`). `Assignees.AnOperatorsGrantIsTaken` is a call by a caller of
  member rank for which both fail.

## Model

| member | source | states |
|---|---|---|
| Lifecycle.Task.Recreate | internal/infra/docker/runtime.go:226-236 | stop, remove, create, each of which may fail: on success a container made during the call exists with exactly the wanted configuration, and on failure there is still no second container |
| Lifecycle.Task.RuntimeCreate | internal/infra/docker/runtime.go:108-147 | a superseded container of the task gives way first; a new container gets an id never handed out before |
| Lifecycle.Task.FailTask | internal/service/task_service.go:882-888 | the row becomes an error row or, when that write fails, stays; drift is impossible either way |
| Lifecycle.Task.Create | internal/service/task_service.go:128-183 | keeps the row free of drift and in agreement with the registry wherever it fails; on success the task is up with the given configuration, from an image pulled by this call; it is refused, and changes nothing, exactly when the request or the port is invalid, and a failure leaves everything as it was or an error row, unless a store write failed |
| Lifecycle.Task.Start | internal/service/task_service.go:185-210 | keeps the invariant; changes no settings; on success the task is up, in a container made by this call when it was pending or had none and in its own otherwise; refused, changing nothing, exactly when there is no such task or it runs or is on its way; a failure shows as an error row unless a store write failed |
| Lifecycle.Task.Stop | internal/service/task_service.go:212-236 | keeps the invariant; on success the row is stopped with no address, nothing is routed to it and Docker has its container stopped; refused, changing nothing, exactly when it is stopped or on its way |
| Lifecycle.Task.Restart | internal/service/task_service.go:238-268 | keeps the invariant; on success the task runs in a container made by this call, from an image pulled by this call; without that image nothing changes |
| Lifecycle.Task.Delete | internal/service/task_service.go:270-292 | on success the row, the container, the hop, the routes and the lock are all gone, and the container was asked to stop exactly when Docker said it ran; one that fails leaves the row as it was or deletes it, and leaves the registry untouched or empty |
| Lifecycle.Task.Change | internal/service/task_service.go:393-516 | exactly the sent settings change; a container setting is applied by a new container or leaves the row stopped and pending; an image is pulled only when it changes and is applied; the containers asked to stop are the running one and the one replaced; refused, changing nothing, exactly when the fields or the resulting port are invalid |
| Lifecycle.Task.ChangeContainer | internal/service/task_service.go:482-516 | the part of an update that stops, saves, recreates and starts: the row names either the old configuration or the new one, never a mix |
| Lifecycle.Task.Update | internal/service/task_service.go:311-331 | as the inner update, and the registry serves the routes and the lock of the row that was saved, even when the container change failed |
| Lifecycle.Task.Deploy | internal/service/task_service.go:336-365 | deploying the image a settled row already has changes nothing; otherwise on success exactly the image changes and a running task is up again |
| Lifecycle.Task.Reconcile | internal/service/task_service.go:767-812 | from any drift-free state it re-establishes the whole invariant; when no call failed, the row and the registry say of the container what Docker says: one that runs at an address is served there, another keeps its status in the row without a hop, and one that is gone is unknown; when Docker did not answer the row is unknown and unrouted |
| Lifecycle.Task.Look | internal/service/task_service.go:790-806 | what one inspection makes of the row: the status and address Docker answered, with the hop to match, or unknown and no hop when it has no such container or did not answer |
| Lifecycle.Task.Launch | internal/service/task_service.go:841-855 | a started task is running at an address, and the hop leads to that address and the row's port |
| Lifecycle.Task.WaitReady | internal/service/task_service.go:857-880 | ready means that Docker has the container running at the address answered; not ready, that it was late or Docker said the container stopped or failed |
| Lifecycle.AnyRun | internal/service/task_service.go:128-516 | after any sequence of requests, whatever calls fail and during whichever the server is killed: no drift, and agreement unless a store failed or a kill was not yet repaired |
| Turn.NextKeeps | internal/service/bora.go:98-158 | one wake channel per event, each closed by the event that replaced it, and each follower's place in the log, survive every step; the log only grows, and not at all once over |
| Turn.ReplayIsFaithful | internal/service/bora.go:131-158 | in every interleaving a follower has delivered a prefix of the log; one blocked on an open wake has delivered all of it and the turn goes on; one that finished has delivered the final log, once and in order; one that quit was cancelled |
| Turn.LogTakesTheCalls | internal/service/bora.go:112-128 | in every run the log takes an event until it is over, closing the wake and making the next; the end closes the last; no step of a follower touches it |
| Turn.OwnStepsOnly | internal/service/bora.go:131-158 | a follower begins with nothing, and only its own steps move it |
| Turn.SendsTheNext | internal/service/bora.go:139-145 | a follower with an event to send delivers the next one of the log, and no other step delivers anything |
| Turn.LeavesWhenCancelled | internal/service/bora.go:139-155 | a follower quits exactly when it is cancelled while it waits or has an event to send, finishes exactly when it has sent a batch that ended the log, and wakes exactly when the channel it waits on is closed |
| Turn.OverIsFinal | internal/service/bora.go:112-128 | an ended turn's log never changes again |
| Turn.ClosedOnce | internal/service/bora.go:112-128 | no wake channel is closed twice if and only if the turn is ended at most once |
| Turn.EndedTurnsAreDelivered | internal/service/bora.go:131-158 | every run after the end goes on, by a bounded number of a follower's own moves, to one in which that follower, if it has not quit, is finished with the whole log: nobody has to wake it again |
| Turn.Drain | internal/service/bora.go:131-158 | those moves are bounded in number and end in the finished phase with the whole log |
| Turn.BoraTurn.PublishEvent | internal/service/bora.go:112-121 | appends the event and closes and replaces the wake channel, unless the turn is over |
| Turn.BoraTurn.EndTurn | internal/service/bora.go:123-128 | marks the turn over and closes the last wake channel |
| Turn.BoraTurn.Snapshot | internal/service/bora.go:131-158 | what a follower reads in one locked section: the events not yet sent, the present wake and whether the turn is over |
| TurnGate.NextKeeps | internal/service/bora.go:250-284 | the gate holds exactly the turns that have not left it, each under its own conversation, within both limits, and every log fits its turn's phase |
| TurnGate.GateHolds | internal/service/bora.go:250-267 | in every interleaving of asks, stops, deletions and completions: at most 20 turns, at most 3 of one user, at most one per conversation |
| TurnGate.AdmittedByTheLimits | internal/service/bora.go:250-267 | in every run a new turn is a conflict exactly when its conversation holds a turn, too many exactly when otherwise its user holds three or all hold twenty, and else admitted; a refusal changes nothing |
| TurnGate.RemovalIsOwn | internal/service/bora.go:269-284 | a turn's own removal takes out its own entry and no other, and does nothing a second time |
| TurnGate.EntriesStay | internal/service/bora.go:582-595 | no step but a turn's own removal takes away or displaces its entry; stops and deletions only cancel |
| TurnGate.NeverBack | internal/service/bora.go:269-284 | a turn that left never holds the gate again, so its entry is removed exactly once |
| TurnGate.OneEnding | internal/service/bora.go:269-284 | a turn that is over ends its log with exactly one of done, stopped and error: done exactly when it was answered, and otherwise stopped exactly when it was cancelled by the time it was told |
| TurnGate.EndedAsItStood | internal/service/bora.go:269-284 | what an ended turn tells is what it was at the step that told it |
| TurnGate.TurnsLive | internal/service/bora.go:269-284 | in every run each step of a turn does to its phase and its log what runTurn does, and leaves the rest |
| TurnGate.OverForGood | internal/service/bora.go:269-284 | a turn that is over stays over with the log it has, so it is ended once |
| TurnGate.StoppedByItsUser | internal/service/bora.go:565-595 | a turn is looked up to be stopped, or cancelled, only at the request of its own user or a shutdown, also when the cancel comes after the lock was let go |
| TurnGate.StopsReachTheirTurns | internal/service/bora.go:565-595 | in every run a stop finds and cancels the caller's own turn of that conversation alone, a deletion the turns the caller holds in the conversations, a shutdown all that hold the gate |
| TurnGate.CancelKeeps | internal/service/bora.go:655-674 | cancelling any set of turns, as stopping and deleting do, keeps all of the above |
| TurnGate.Service.CountMine | internal/service/bora.go:250-267 | the loop over the map counts exactly the caller's turns |
| TurnGate.Service.EnterTurn | internal/service/bora.go:250-267 | refuses as a conflict exactly when the conversation has a turn, otherwise as too many exactly when the caller has three or all have twenty, and otherwise admits |
| TurnGate.Service.RemoveTurn | internal/service/bora.go:269-284 | takes the turn out of the gate and keeps the invariant |
| TurnGate.Service.FindTurn | internal/service/bora.go:565-572 | finds the turn of a conversation only for its own user |
| TurnGate.Service.CancelTurn | internal/service/bora.go:582-586 | cancels a turn found before, wherever it has got to since |
| TurnGate.Service.DeleteTurns | internal/service/bora.go:655-674 | the loop cancels exactly the user's turns in the deleted conversations |
| TurnGate.Service.StopAllTurns | internal/service/bora.go:589-595 | the loop cancels every turn in the gate |
| TurnRuns.StreamsHearOneEnding | internal/service/bora.go:98-158 | in every run of the gate and every interleaving of a turn's streams with the calls it makes: no wake channel is closed twice, a stream has delivered a prefix of the turn's log, and a finished one all of it, whose last event alone is final |
| TurnRuns.ScriptMatches | internal/service/bora.go:269-284 | the calls to publish and end that a run makes on a turn spell its log, and end it exactly when it is over |
| MetricsHub.NextKeeps | internal/service/task_service.go:671-764 | feeds, timers, channels and histories stay consistent under every step |
| MetricsHub.NothingLeaks | internal/service/task_service.go:687-764 | in every interleaving: no channel is closed twice or sent to once closed, no replay blocks under the lock; a channel is open exactly while it is among the viewers; a feed in the map without viewers has its own timer still to run; a feed outside the map was stopped |
| MetricsHub.OneStreamPerContainer | internal/service/task_service.go:687-714 | two unstopped streams of one container are the same stream |
| MetricsHub.NewerFeedsStay | internal/service/task_service.go:716-764 | a timer or a dying pump never removes a feed other than its own |
| MetricsHub.SupersededTimersEndNothing | internal/service/task_service.go:703-764 | once a viewer has come back to a feed, a timer armed before ends nothing in any later state, whether it had gone off or not |
| MetricsHub.OfferCarries | internal/service/task_service.go:716-729 | offering a sample keeps the viewer's account of the history: it is buffered, or lost only when 120 samples are unread |
| MetricsHub.LostOnlyWhenFull | internal/service/task_service.go:721-727 | in every run a viewer loses a sample only when one arrives at its own feed while 120 are unread |
| MetricsHub.ViewersSeeTheHistory | internal/service/task_service.go:707-729 | a viewer has an ordered subsequence of its join-time minute followed by the later samples, what is missing is counted as lost, and with nothing lost it has all of them |
| MetricsHub.WatchReplays | internal/service/task_service.go:687-714 | in every run a viewer that joins finds the last minute of its feed in its channel, with nothing of it read or lost; the other viewers are as they were |
| MetricsHub.WatchStopsTheTimer | internal/service/task_service.go:703-706 | the linger timer a joining viewer finds armed is stopped |
| MetricsHub.ArrivalReachesViewers | internal/service/task_service.go:716-729 | in every run a sample goes into its feed's history and to every viewer of that feed with fewer than 120 unread, and to nobody else |
| MetricsHub.EndClosesItsViewers | internal/service/task_service.go:730-740 | when a stream ends its viewers are closed and no others, it is stopped, and the map forgets it |
| MetricsHub.LeaveClosesOne | internal/service/task_service.go:742-764 | a viewer that leaves is closed alone, and the linger timer is armed exactly behind the last |
| MetricsHub.TimersEndTheirStreams | internal/service/task_service.go:752-762 | a linger timer that its mapped feed still names stops the stream when it goes off |
| MetricsHub.RecentIsTheLastMinute | internal/service/task_service.go:716-729 | recent is always the last min(60, n) samples, so the replay fits the channel |
| MetricsHub.Service.WatchContainer | internal/service/task_service.go:687-714 | joins or opens a feed, disarms its timer and replays the minute, as the step does of which WatchReplays speaks; fails exactly when there is no feed and none opens |
| MetricsHub.Service.PumpSample | internal/service/task_service.go:716-729 | records the sample and offers it to every viewer in turn |
| MetricsHub.Service.PumpEnd | internal/service/task_service.go:730-740 | takes its feed out of the map if it is still there, and closes every viewer |
| MetricsHub.Service.LeaveChannel | internal/service/task_service.go:742-764 | closes a viewer once and arms the timer behind the last one |
| MetricsHub.Service.ExpireTimer | internal/service/task_service.go:742-764 | ends the feed only while it still names this timer and is still in the map |
| ChangeSignal.NoChangeIsLost | internal/transport/http/events.go:18-54 | end to end, in every interleaving with a live page and an open hub: a load began after the last change, or a reconnect, a token, an event in transit, an armed timer or a load with another to follow is pending |
| ChangeSignal.CaughtUpOnceDue | frontend/src/entities/task/model/directory.svelte.ts:21-54 | what is pending comes due: in every continuation that keeps the page connected, a load after every change so far has begun once a load under way has ended, a token was forwarded, an event delivered and, one gap later, the timer fired, whatever comes in between |
| ChangeSignal.CaughtUpWithinGap | frontend/src/entities/task/model/directory.svelte.ts:21-54 | there is such a continuation from every connected state: these steps and one gap of waiting |
| ChangeSignal.LoadsArePaced | frontend/src/entities/task/model/directory.svelte.ts:21-54 | loads never overlap and begin at least the gap apart; no hub channel is closed twice or sent to once closed |
| ChangeSignal.NoLoadWithoutAReason | frontend/src/entities/task/model/directory.svelte.ts:21-54 | in every run the loads begun, with a timer armed and a load to follow, are at most the changes, the streams opened and the times the page went live, so that a page at rest stays at rest |
| ChangeSignal.EventsAreRefreshes | frontend/src/entities/task/model/directory.svelte.ts:21-29 | an event arms the timer for the end of the gap, is kept for after a load under way, and changes nothing while a load is due |
| ChangeSignal.LoadsBeginAndEnd | frontend/src/entities/task/model/directory.svelte.ts:25-54 | a due timer begins a load, and a load is followed by another exactly when it was asked for meanwhile |
| ChangeSignal.PagesComeAndGo | frontend/src/entities/task/model/directory.svelte.ts:56-77 | a page that goes live refreshes, and one that is left drops its stream and what was due |
| ChangeSignal.ChangesReachSubscribers | internal/transport/http/events.go:18-27 | a change leaves a token with every subscriber and with nobody else |
| ChangeSignal.ShutDownsClose | internal/transport/http/events.go:30-54 | a shutdown closes exactly the subscribers, and a channel subscribed afterwards is closed at once |
| ChangeSignal.TokensGoOnce | internal/transport/http/events.go:39-54 | a stream is opened with a token, sends each token on once, and none once it is dropped |
| ChangeSignal.NextKeepsHub | internal/transport/http/events.go:18-54 | subscribed, closed and half-made channels stay apart under every step |
| ChangeSignal.NextKeepsLink | internal/transport/http/events.go:39-54 | the page's stream stays subscribed while it lasts and the hub is open, whatever other streams do |
| ChangeSignal.HubObject.PublishChange | internal/transport/http/events.go:18-27 | every subscriber ends up with a token, and no send blocks |
| ChangeSignal.HubObject.Close | internal/transport/http/events.go:30-37 | closes every subscriber once and marks the hub closed |
| ChangeSignal.HubObject.SubscribeChannel | internal/transport/http/events.go:39-54 | a channel that starts with a token is subscribed, or closed when the hub is |
| ChangeSignal.HubObject.UnsubscribeChannel | internal/transport/http/events.go:49-53 | takes the channel alone out of the subscribers, and does nothing to a closed hub |
| ChangeSignal.Directory.RefreshNow | frontend/src/entities/task/model/directory.svelte.ts:21-29 | arms the timer for the end of the gap, unless one is armed or a load is under way, which it then marks to go again |
| ChangeSignal.Directory.TimerDue | frontend/src/entities/task/model/directory.svelte.ts:25-33 | the timer's callback begins a load |
| ChangeSignal.Directory.LoadDone | frontend/src/entities/task/model/directory.svelte.ts:48-53 | a finished load refreshes again exactly when it was asked to meanwhile, as LoadsBeginAndEnd and NoLoadWithoutAReason say of its step |
| Sayer.TagShape | internal/service/bora.go:55 | a match is white space, the opener, the shortest body, the closer and all white space after it |
| Sayer.TagIsFound | internal/service/bora.go:55 | and wherever white space, an opener and a later closer stand there is a match |
| Sayer.HeldExactly | internal/service/bora.go:387-398 | a text is held exactly while it has no say yet and, after its leading blanks, is the beginning of an opener or an opener that goes on for less than 1000 characters |
| Sayer.OpeningCutsOnlyTheTag | internal/service/bora.go:381-403 | the first delta is the text without the tag match, or without its leading blanks, and then without an opener exactly when one stands there |
| Sayer.Writer.WriteText | internal/service/bora.go:381-403 | changes the fields and publishes exactly as the chunk function says |
| Sayer.Writer.ResetRound | internal/service/bora.go:405-408 | starts a new round and says so |
| Sayer.StreamingIsFaithful | internal/service/bora.go:381-403 | for every chunking: nothing is sent while the round is undecided; then at most one say, before any delta, and deltas that spell the opening's rest and all that follows, nothing lost, repeated or reordered |
| Sayer.SaidWhenSent | internal/service/bora.go:389-393 | a round is marked as said exactly when it sent a say, which is its first event and its only one |
| Sayer.SayIsTheTextsOwn | internal/service/bora.go:381-403 | whatever the chunks, a say that is sent is the one that opens the whole text |
| Sayer.ChunksDoNotMatterToTheSay | internal/service/bora.go:381-403 | every chunking sends the say if and only if no form feed precedes the tag and the tag is within the limit |
| Sayer.LostAfterAFormFeed | internal/service/bora.go:381-403 | a text with a form feed before the tag is said when it comes whole and not when its first character comes alone |
| Sayer.SteadyText | internal/service/bora.go:381-403 | in such a text the deltas of any chunking spell what follows the tag from the place the deciding chunk reached |
| Sayer.ChunksDoNotMatterToTheText | internal/service/bora.go:381-403 | all chunkings of a text with a tag spell the same up to white space after it if and only if no form feed precedes the tag, it is within the limit and no second opener follows |
| Sayer.TextsWithoutASay | internal/service/bora.go:381-403 | a text without a say is spelled whole and silently by every chunking, or, while it may still open with one, not sent at all, and which of the two does not depend on the chunks |
| Sayer.OpenerShownOrGone | internal/service/bora.go:400-402 | a second opener after the tag is shown when the text is cut there and gone when it comes whole |
| Sayer.TagOfPrefix | internal/service/bora.go:381-403 | a prefix of a text shows the same say exactly when it reaches the end of the tag |
| LogLines.Writer.Write | internal/transport/http/logs.go:140-152 | sends exactly the complete lines of the buffer and the new bytes, in order, and holds the rest; when the request ends at a line, that line is lost, and what follows it is held |
| LogLines.Writer.Flush | internal/transport/http/logs.go:154-159 | sends precisely a nonempty rest and empties the buffer |
| LogLines.Writer.Emit | internal/transport/http/logs.go:161-174 | the entry of a line is sent, or the request is over and nothing is |
| LogLines.EntryTakesTheStamp | internal/transport/http/logs.go:161-167 | a line that starts with a stamp and a blank is sent with that stamp and what follows it, any other whole and without a stamp, and neither with the carriage return at its end |
| LogLines.Stream | internal/transport/http/logs.go:140-159 | after any sequence of writes and a flush the entries are the lines of all the bytes, and the rest when there is one |
| LogLines.LinesOfConcat | internal/transport/http/logs.go:140-152 | cutting chunk by chunk cuts the whole |
| LogLines.LinesSpell | internal/transport/http/logs.go:140-152 | the lines and the rest spell the bytes, and no newline is left in any of them |
| LogLines.AfterLinesSpell | internal/transport/http/logs.go:140-152 | what is held after the first k lines is all the bytes behind them |
| LogLines.LinesAreUnique | internal/transport/http/logs.go:140-152 | they are the only way to cut the bytes at their newlines |
| ToolLoop.Clip | internal/infra/llm/assistant.go:231-236 | the model reads a result within the limit whole but redacted, and of a longer one at most the limit, with the truncation mark at its end |
| ToolLoop.ClipKeepsTheCharacters | internal/infra/llm/assistant.go:231-236 | of a longer result the model reads every valid character in the first 24 KiB, in order, and then the mark |
| ToolLoop.Replies | internal/infra/llm/assistant.go:256-267 | every call is answered in its place and with its id: while the answers before it are within the budget by what the tool returns, or that there is none of that name, and after that by a refusal; the bytes and what was really run are accounted for |
| ToolLoop.Rounds | internal/infra/llm/assistant.go:105-130 | each request follows from the one before; every message but the last calls tools, does not ask back and comes within the budget; the outcome is an error, the question asked back, or the trimmed text, the last only when no tool is called, in the seventh round or with the budget spent; what was streamed since the last reset is the last message's text; the tools really run return less than the budget and one clipped result |
| ToolLoop.EveryAnswerIsOwed | internal/infra/llm/assistant.go:256-281 | in every request of every chain each answer carries the id of the call it stands for and is what that call is owed: below the budget what the tool returns or that it is unknown, and beyond it the refusal, clipped |
| ToolLoop.ToldInTime | internal/infra/llm/assistant.go:124-128 | the order to answer ends the seventh request and each one whose tools have spent the budget, and no other |
| ToolLoop.LoopIsBounded | internal/infra/llm/assistant.go:105-130 | for every model and every tool: at most seven requests, each well formed, and tools that return less than the budget and one clipped result |
| ToolLoop.ChainsAreSoundAndShort | internal/infra/llm/assistant.go:105-130 | in every request each assistant message with n calls is followed at once by n answers with the same ids in order, and each request extends the one before |
| ToolLoop.RanStaysBelow | internal/infra/llm/assistant.go:256-267 | the bytes of tools actually run, refusals not counted, stay below the budget and one clipped result |
| Numbers.ViNumber | internal/service/bora.go:525-537 | the loop says the groups from the highest down and never indexes past the seven scales |
| Numbers.ShiftBound | internal/service/bora.go:525-537 | below 1000 to the seventh each step of that loop has a scale |
| Numbers.Uint64Fits | internal/service/bora.go:525-537 | every uint64 is below that bound |
| Numbers.HundredsReadBack | internal/service/bora.go:540-563 | a reader of the words of 0 to 999 gives back the number, with or without the kept hundreds digit |
| Numbers.HundredsHas | internal/service/bora.go:540-563 | which of the words for hundred, tens, ten, odd, and the forms of one and five a group has, from its figures alone |
| Numbers.ScaleValue | internal/service/bora.go:72 | the scale words multiply to the power of a thousand at their index |
| Numbers.NumberReadsBack | internal/service/bora.go:525-537 | reading the words of n gives n |
| Numbers.NumberKeepsHundreds | internal/service/bora.go:525-563 | every group but the first keeps its hundreds digit, and the first has one exactly when it is not zero |
| Numbers.SpellOut | internal/service/bora.go:514-523 | a quantity is said as a number and other digit strings digit by digit |
| Numbers.SpellSays | internal/service/bora.go:514-523 | at most twelve digits without a leading zero are said as a number that reads back to their value, any others digit by digit |
| Numbers.NeverBoth | internal/service/bora.go:514-523 | no string said as a number sounds like one said digit by digit |
| Numbers.GroupsApart | internal/service/bora.go:525-563 | a number never puts two bare digit words side by side |
| Numbers.SpellInjective | internal/service/bora.go:514-523 | two nonempty digit strings that are said alike are the same string |
| Numbers.TextInjective | internal/service/bora.go:71-72 | the spoken text determines the words |
| Numbers.SpellTextInjective | internal/service/bora.go:514-563 | so the spoken text of digit strings is the same exactly when the strings are |
| EditDistance.Distance | frontend/src/pages/env-status/model/kind.ts:87-98 | the two-row loop computes the recursive Levenshtein distance of any two strings |
| EditDistance.ShortScript | frontend/src/pages/env-status/model/kind.ts:87-98 | a script of insertions, deletions and substitutions as short as the distance exists |
| EditDistance.NoShorterScript | frontend/src/pages/env-status/model/kind.ts:87-98 | no script that turns one string into the other is shorter |
| EditDistance.WithinEdits | frontend/src/pages/env-status/model/kind.ts:112 | a bound on the distance is exactly a bound on the number of edits |
| EditDistance.LevTriangle | frontend/src/pages/env-status/model/kind.ts:87-98 | the triangle inequality |
| EditDistance.LevSymmetric | frontend/src/pages/env-status/model/kind.ts:87-98 | symmetry |
| EditDistance.LevZero | frontend/src/pages/env-status/model/kind.ts:87-98 | zero exactly for equal strings |
| EditDistance.ClosestMatchesAreClosest | frontend/src/pages/env-status/model/kind.ts:100-115 | only tasks within two edits are offered, best first, and one within two edits is left out only when the list is full of ones that rank no worse |
| EditDistance.OwnProjectFirst | frontend/src/pages/env-status/model/kind.ts:100-115 | of the tasks offered those of the page's own project come first, then those with fewer edits, and a near one is left out only for a full list of ones no worse |
| EditDistance.SortSorts | frontend/src/pages/env-status/model/kind.ts:113 | the ranking is a sorted permutation |
| EditDistance.SortIsStable | frontend/src/pages/env-status/model/kind.ts:113 | tasks that tie keep their order |
| Access.Fleet | internal/service/project_service.go:84-112 | by project exactly the tasks the actor has an effective role on, in order, each with that role |
| Access.List | internal/service/project_service.go:67-81 | exactly the projects the actor can open, each as its row says |
| Access.FleetDecides | internal/service/project_service.go:98-110 | what the loop of Fleet decides for a task is what its effective role says |
| Access.AccessIsEffective | internal/service/project_service.go:318-345 | asked about a task, Access gives the effective role, and not found when there is none |
| Access.EffectiveIsTheHigher | internal/service/project_service.go:318-345 | an administrator owns a task, and any other user has the role held in the project or the one granted on the task, whichever is enough for more |
| Access.RolesInOrder | internal/core/core.go:105-116 | the one comparison ranks viewer, operator, member and owner in that order, and the higher of two roles is enough for what either is |
| Access.ProjectsOpenTo | internal/service/project_service.go:318-364 | a project opens to an administrator as owner, to a member in the role held, to a grant's holder as a viewer, and to nobody else |
| Access.RoutesAsk | internal/service/project_service.go:318-345 | a route lets through exactly a role that is enough, forbids a lower one, and finds nothing where there is no such project |
| Access.EnvelopeIsListed | internal/service/project_service.go:349-364 | asked about a project, Access opens it exactly when List shows it, with the same role |
| Access.TheListIsTheFleets | internal/transport/http/handlers.go:585-595 | the task-list route shows the same tasks with the same roles as Fleet, and not found where Fleet has none to show |
| Access.OneRole | internal/service/project_service.go:84-112 | Fleet holds a task with role r exactly when Access on it yields r, and exactly when the task list shows it with r |
| Access.RoleIsTheRoutes | internal/service/bora_tools.go:726-742 | on a well-named subject of a served project, the role Bora compares passes exactly when the route's own check does |
| Access.OpsAsk | internal/core/core.go:678-684 | the role and the place each op asks it of, op by op |
| Access.AcceptsExactly | internal/service/bora_tools.go:685-723 | all that a proposal must meet but the role: the taint, ten at most, a served project, the name of a task that is there or, to create one, is not, its fields, and no button for it yet |
| Access.Bora.Propose | internal/service/bora_tools.go:685-723 | a change is offered exactly when it meets the form and the route that runs it would let the actor through in the same store; all offered ones stay so, at most ten and no two alike |
| Assignees.Service.SetAssignees | internal/service/project_service.go:401-462 | on success the holders are exactly the requested users, kept ones keep their role, new ones are members, and each new one but the caller is told once; forbidden is answered exactly when the caller may not move those who come or go, and then no grant has changed; a failure leaves each grant old or new |
| Assignees.TakesBackOnlyMembers | internal/transport/http/routes.go:552-555 | after a success only member grants were taken back if and only if every holder not named held a member grant; another's viewer or operator grant is taken too |
| Assignees.AssigneesAreTheNamed | internal/service/project_service.go:399-426 | after a success the holders of member grants are exactly the named users if and only if no named user held a viewer's or operator's grant, which is kept instead |
| Assignees.AnOperatorsGrantIsTaken | internal/service/project_service.go:428-455 | a caller of member rank takes another member's operator grant, and, named as a viewer, stays no assignee |
| Assignees.Service.Split | internal/service/project_service.go:410-426 | new users once each, in spite of duplicates, and the holders that are not named |
| Assignees.Service.MayMove | internal/service/project_service.go:437-444 | the caller is a member in the project and so is everyone moved |
| Assignees.Service.Tell | internal/service/project_service.go:456-473 | each of the new users but the caller is told once |
| Assignees.Settles | internal/service/project_service.go:446-455 | granting and then revoking reconciles, and stopping anywhere leaves each grant as it was or as it must be |
| Assignees.Service.Revoke | internal/infra/postgres/grants.go:77-80 | a grant already gone is reported as missing and is no failure |
| Proxy.Registry.Update | internal/infra/proxy/registry.go:117-129 | the map of sites is three independent registers: one changes at one key, the others do not, and a site is there exactly when one of them is; a site set under one spelling stays so |
| Proxy.Registry.Register | internal/infra/proxy/registry.go:85-98 | a valid slug, name, host and port set the container's hop; anything else is refused and changes nothing |
| Proxy.Registry.Unregister | internal/infra/proxy/registry.go:100-103 | takes out the container's hop alone |
| Proxy.Registry.SetRoutes | internal/infra/proxy/registry.go:106-115 | replaces the routes alone, longest path first, every one sent and no other; clean routes leave the site fit for unique dispatch |
| Proxy.Registry.SetLock | internal/infra/proxy/lock.go:35-44 | sets or clears the lock alone |
| Proxy.Registry.ServeHTTP | internal/infra/proxy/registry.go:160-200 | dispatch answers every path exactly as the three registers call for, with the longest matching route first |
| Proxy.Registry.TaskRequests | internal/infra/proxy/registry.go:160-202 | what a request under a task's path meets, in order: a miss, the other spelling, the lock, the longest route or its loop, a miss, the slash, the container |
| Proxy.Registry.OthersAreMissed | internal/infra/proxy/registry.go:160-166 | a path that names no task is missed |
| Proxy.Registry.RedirectedOnce | internal/infra/proxy/registry.go:169-174 | a request redirected to the site's spelling is not redirected for its case again and names the same site and rest |
| Proxy.FirstMatch | internal/infra/proxy/registry.go:178 | the first match in any order by falling length is a longest one |
| Proxy.LongestIsUnique | internal/infra/proxy/registry.go:178 | among routes at distinct paths it is the only longest one, so the order of equally long ones does not matter |
| Proxy.StoredRoutesAreUniform | internal/infra/proxy/registry.go:106-115 | routes stored at distinct paths stay so in whatever order the sort leaves them |
| Proxy.RewritingUndoesItself | internal/infra/proxy/registry.go:270-281 | a moved redirect lies under the public path, and a request for it is sent on to exactly the upstream path it named |
| Proxy.OwnRedirectsMove | internal/infra/proxy/registry.go:270-281 | a redirect is moved exactly when it is the target's own, an absolute path outside the public one, and at the target's path or below; and where to |
| Proxy.BaseKeepsTheAppsOwn | internal/infra/proxy/registry.go:362-371 | the app's own absolute base path is kept when public and moved when not; any other base is the task itself |
| Proxy.Registry.RedirectsComeBack | internal/infra/proxy/registry.go:215-219 | and dispatch takes that request through the same hop if and only if no longer route of the site leads there |
| Proxy.TakenByALongerRoute | internal/infra/proxy/registry.go:178-184 | a registry in which the container's redirect to its own path leads to a route instead |
| Proxy.MovingTwiceIsMovingOnce | internal/infra/proxy/registry.go:362-371 | moving a redirect twice is moving it once; a base href always lies under the public path and is served as it is when read back |
| Proxy.PartsOfPath | internal/infra/proxy/registry.go:161 | splitting a path gives back the names and the rest it was joined from |
| Proxy.KeysDiffer | internal/infra/proxy/registry.go:71 | two names share a site exactly in the same project and up to case |
| Proxy.CleanRoutes | internal/core/core.go:491-517 | at most 20 routes, each clean and at its own path, in order, with every one sent among them; or the first fault and what it is |
| Proxy.PathsAreWords | internal/core/core.go:488 | a clean path is one or more words of letters, digits, underscores and dashes, each after a slash |

## Left out

- Docker, Postgres and the HTTP transports, except as calls that answer or fail; who a request comes from is given.
- Store failures in `Access.dfy`: a failing query ends the request with an error and yields no role.
- The texts of errors, and the columns for revision, build report and dates.
- Interference in SetAssignees: the store changes only through the call itself while it runs.
- Redaction, `spoken`, the parsing of timestamps and ask_user calls, address cleaning and case folding: arbitrary functions here, with nothing assumed of them.
- `aloud` and its rewrites of dates, spans and clock times, all driven by regular expressions.
- Chunk and path bytes inside a character: the sayer works on characters, paths are decoded, and RawPath, escaping, cookies and the mobile frame are not modelled.
- A route's any_cert, which picks a transport and never a destination.
- Which of several equally ready goroutines runs, and the order of a map's entries: every order is covered by the theorems. Real clocks are arbitrary steps of time.
- AskBora reads the conversation before it enters the gate, so that message indices are contiguous also rests on the store refusing duplicates; this is not stated.
- A streamed say can differ from the saved one when the same message also asks back; the two are not compared.
- A failed Stop can leave a hop on a row that is later marked stopped, so stopped rows are not claimed to be unrouted.
- The screening request before the loop, which is one more request and whose failure lets the answer go ahead.
- Whether the locked page admits a visitor: passwords, cookies and rate limits are one boolean of a request.
- Lifecycle.Task.Delete: a deletion that stops midway leaves the row, maybe running, without hop, routes and lock until the next start-up; agreement is not claimed then, because the code does not restore them.
- EditDistance.ClosestMatchesAreClosest: characters are compared as the code units the program compares.
- Members that would only be easy: enum and label checks, status text, avatars, DTO mapping.
