# htmengine: the model-swapping engine and its data path

This project models how htmengine feeds metric data to models that are swapped in and out of a
fixed number of slots, and proves what that machinery promises. `dafny verify dfyconfig.toml`
checks the whole project.

| files | what they model |
|---|---|
| `Basics`, `Checkpoint`, `CheckpointScripts`, `CheckpointOutcomes`, `CheckpointMgr` | the checkpoint archive: its directory tree, every operation as a list of atomic file-system steps, what a crash may undo, what each operation leaves on disk, and the manager object that takes the steps |
| `ModelArchiver`, `ModelRunner` | full and incremental checkpoints of one model, and the runner process as an object |
| `RunnerProtocol`, `RunnerInvariant`, `RunnerSafety`, `RunnerDurability`, `RunnerCrash`, `RunnerTheorems`, `RunnerReplies`, `RunnerExposure`, `RunnerWitness` | the runner with broker and disk as a transition system, with the process dying or the machine crashing after any step: exactly-once processing, what the answers say, exactly where it ends, and runs that get there |
| `SwapScheduler`, `SwapRecency`, `SlotProtocol`, `SwapSystem`, `Wakeups`, `SwapController` | scheduling decisions and what they mean over time, one slot agent, all of them interleaved, the path of notifications, and the two classes as objects |
| `AnomalyStatistics` | the loop that scores a batch of results and keeps its statistics fresh |
| `MetricIngestion`, `ModelActivation`, `MetricPurge` | samples becoming rows, a model being started while its data arrives, and purging old rows |
| `Utf8Sanitizer`, `MetricListener` | the UTF-8 sanitizer and the line reader with its batches |

Where the source is a class or a loop, the project has a class or a method with that loop, held by
its contract to a function or a transition system, about which the properties are then proved.

## Properties that do not hold as stated

Exactly-once processing ends where the runner acks a redelivered batch as a duplicate
(`model_runner.py`, lines 201-212) although a crash may still find a checkpoint without it. Its warning
there speaks of a channel lost before or during the final ack, when the checkpoint would have the batch.
There are two ways to it, and a third that concerns the definition:

- The non-blocking consumer loses its channel in the middle of a run, reconnects and goes on with the
  same loop (`nta.utils/nta/utils/message_bus_connector.py`, lines 551-597). The broker sends the unacked
  batches of that run again, and the runner acks them before any checkpoint has them.
- The process dies between a checkpoint's rename and its sync (`model_checkpoint_mgr.py`, lines 427-433 and
  505-508). The next one reads the new batch ids and acks the redelivered batches, but the machine may
  still crash and bring the old checkpoint back.
- The process dies between the rename of a new entry and its sync (lines 318-321). The next one finds the
  definition there and confirms and acks it, and a crash then takes the model away.

`RunnerWitness` gives a run from the start for each. `RunnerExposure` proves at every point of the program
that a crash keeps the acked batches if and only if no batch counted by the checkpoint on disk or by the
open run is missing from both the recovered checkpoint and the queue. It says exactly which deliveries and
which acks make such a loss possible, and that nothing else does. Where no channel is lost within a run and
no process dies alone between a rename and its sync, the property holds over all runs, whatever crashes.

The line reader means to go on after an interrupted receive call (`metric_listener.py`, lines 203-207), but it
tests for that in an `OSError` clause, and in Python 2 `socket.error` is an `IOError` and no `OSError`. The
exception ends the handler, and the lines in its batch are lost. `MetricListener` models it so and proves
which lines that are: those completed since the last time-out, less all full batches of 200. Nothing is lost if
and only if there are none.

## Assumptions

- Unacked batches are delivered again in their order, and an ack is atomic. Batch ids are unique, and
  the first batch of a model's queue is its definition alone, as `defineModel` submits it. One runner
  at a time consumes a queue, which `SwapSystem.ControllerAndAgents` shows of the controller.
- Directory operations and syncs reach the disk as a prefix of their order in the program; the content
  of a file that was never synced is unpredictable after a crash. Names of scratch and checkpoint
  directories are new. A process that dies alone leaves its unsynced steps pending: the next one sees
  them, and a later crash may undo them. A sync also flushes the steps before it.
- Making and filling a scratch directory, copying a tree and deleting a scratch directory are single
  steps; nothing recovers from scratch. Of an old checkpoint store the attributes go before the model.
- Creating a model and running a row are deterministic, and a run that fails leaves the model alone.
- Batches still unacked by a finished runner are back in its queue when the controller asks whether
  input is left.
- The anomaly statistics need `1 <= statistics_min_sample_size <= statistics_sample_size`; where a
  property needs contiguous row ids its contract says so.
- Database transactions are serializable and commit, and the adapter's `activateModel` is `startModel`
  (`htmengine/htmengine/adapters/datasource/custom/__init__.py`, lines 387-418).
- Nobody else deletes rows while old ones are purged, and the age limit does not move back.

## Model

| member | source | states |
|---|---|---|
| CheckpointScripts.CrashAtomic | htmengine/htmengine/model_checkpoint_mgr/model_checkpoint_mgr.py:373-440 | A crash after any step of an operation that switches, with any unsynced steps undone, finds the old or the new definition, model and attributes, never a mix and never a dangling link; once the operation is over, only the new |
| CheckpointScripts.SaveSwitches | htmengine/htmengine/model_checkpoint_mgr/model_checkpoint_mgr.py:351-440 | `save` switches in one step, the rename of the link, from whatever was recovered to the new model and attributes, and is synced before the old store is touched |
| CheckpointScripts.UpdateSwitches | htmengine/htmengine/model_checkpoint_mgr/model_checkpoint_mgr.py:474-508 | `updateCheckpointAttributes` switches in the rename of the attributes file and keeps definition and model |
| CheckpointScripts.DefineSwitches | htmengine/htmengine/model_checkpoint_mgr/model_checkpoint_mgr.py:273-325 | `define` switches from no entry to an entry with exactly that definition |
| CheckpointScripts.CloneSwitches | htmengine/htmengine/model_checkpoint_mgr/model_checkpoint_mgr.py:533-585 | `clone` switches the destination from no entry to the source's definition, model and attributes |
| CheckpointScripts.RemoveSwitches | htmengine/htmengine/model_checkpoint_mgr/model_checkpoint_mgr.py:593-610 | `remove` switches from any entry to none |
| CheckpointScripts.OthersUnchanged | htmengine/htmengine/model_checkpoint_mgr/model_checkpoint_mgr.py:563-573 | After any prefix of any operation on one model, every other model, a clone of it included, is recovered as before |
| CheckpointScripts.OthersRecover | htmengine/htmengine/model_checkpoint_mgr/model_checkpoint_mgr.py:533-585 | Over any number of operations on other models, each perhaps cut short, and a crash among their steps, a model, a clone of one of them included, recovers only what it could have recovered before them, and without a crash exactly what it did |
| CheckpointScripts.ScriptSettles | htmengine/htmengine/model_checkpoint_mgr/model_checkpoint_mgr.py:273-610 | Once an operation has taken all its steps no crash brings back what it replaced, whatever was still unsynced when it began |
| CheckpointOutcomes.RemoveTreeLeaves | htmengine/htmengine/model_checkpoint_mgr/model_checkpoint_mgr.py:435-437 | Deleting a store takes it and nothing else out of its entry, whichever of its files are there |
| CheckpointOutcomes.SaveLeaves | htmengine/htmengine/model_checkpoint_mgr/model_checkpoint_mgr.py:351-440 | What a save leaves on disk, entry by entry and store by store: the old store out, the new one in and linked, nothing left in the scratch directory |
| CheckpointOutcomes.UpdateLeaves | htmengine/htmengine/model_checkpoint_mgr/model_checkpoint_mgr.py:474-508 | An update changes the attributes of the current store and nothing else |
| CheckpointOutcomes.DefineLeaves | htmengine/htmengine/model_checkpoint_mgr/model_checkpoint_mgr.py:273-325 | A definition adds an entry without stores or link and changes nothing else |
| CheckpointOutcomes.CloneLeaves | htmengine/htmengine/model_checkpoint_mgr/model_checkpoint_mgr.py:533-585 | A clone adds a copy of the entry, store by store, with its link re-pointed into the copy, and changes nothing else |
| CheckpointOutcomes.RemoveLeaves | htmengine/htmengine/model_checkpoint_mgr/model_checkpoint_mgr.py:593-610 | A removal takes the entry away and changes nothing else |
| CheckpointDisk.ExecView | htmengine/htmengine/model_checkpoint_mgr/model_checkpoint_mgr.py:214-270 | Running processes see every step taken, whether synced or not |
| CheckpointDisk.CrashViews | htmengine/htmengine/model_checkpoint_mgr/model_checkpoint_mgr.py:214-270 | What a crash leaves is a view from at or after the last sync of the operation, or one that was possible before it began |
| CheckpointManager.FileSystem.Do | htmengine/htmengine/model_checkpoint_mgr/model_checkpoint_mgr.py:373-440 | Takes one step, which is known not to fail, and logs it |
| CheckpointManager.ModelCheckpointMgr.Outcome | htmengine/htmengine/model_checkpoint_mgr/model_checkpoint_mgr.py:273-610 | A method that took the steps of a script leaves the file system, unsynced steps included, exactly as executing the script does |
| CheckpointManager.ModelCheckpointMgr.Define | htmengine/htmengine/model_checkpoint_mgr/model_checkpoint_mgr.py:273-325 | Takes the steps of the define script, or none and ModelAlreadyExists; then there is one more entry, with the definition and no checkpoint, and all else is as before |
| CheckpointManager.ModelCheckpointMgr.Save | htmengine/htmengine/model_checkpoint_mgr/model_checkpoint_mgr.py:351-440 | Takes the steps of the save script in order, or none and ModelNotFound; then the entry has the stores it had, less the one its link led to, plus the new one, to which its link leads, and all else, the scratch directory included, is as before |
| CheckpointManager.ModelCheckpointMgr.UpdateCheckpointAttributes | htmengine/htmengine/model_checkpoint_mgr/model_checkpoint_mgr.py:474-508 | Takes the steps of the update script, or none and ModelNotFound when there is no checkpoint; then its store has the new attributes and the snapshot it had, and all else is as before |
| CheckpointManager.ModelCheckpointMgr.Clone | htmengine/htmengine/model_checkpoint_mgr/model_checkpoint_mgr.py:533-585 | Takes the steps of the clone script, or none and the error the source raises; then there is one more entry, a synced copy whose link leads into itself, and all else is as before |
| CheckpointManager.ModelCheckpointMgr.Remove | htmengine/htmengine/model_checkpoint_mgr/model_checkpoint_mgr.py:593-610 | Takes the steps of the remove script; the scratch directory comes and goes even when the model is not found; then the entry is gone and all else is as before |
| CheckpointManager.ModelCheckpointMgr.LoadModelDefinition | htmengine/htmengine/model_checkpoint_mgr/model_checkpoint_mgr.py:333-348 | Reads the definition that recovery finds |
| CheckpointManager.ModelCheckpointMgr.Load | htmengine/htmengine/model_checkpoint_mgr/model_checkpoint_mgr.py:447-471 | Reads the model snapshot that recovery finds, or ModelNotFound without a checkpoint |
| CheckpointManager.ModelCheckpointMgr.LoadCheckpointAttributes | htmengine/htmengine/model_checkpoint_mgr/model_checkpoint_mgr.py:511-530 | Reads the attributes that recovery finds, or ModelNotFound without a checkpoint |
| Opf.ReplayAppend | htmengine/htmengine/model_swapper/model_runner.py:723-730 | Replaying rows in two portions is replaying them at once |
| ModelArchiving.SaveModelRestores | htmengine/htmengine/model_swapper/model_runner.py:733-771 | Whichever kind of checkpoint is taken, a process restarted from it gets the live model, at most 100 rows are left to replay, exactly this run's batch ids are kept, and the caches agree with the disk |
| ModelArchiving.WithModelRestores | htmengine/htmengine/model_swapper/model_runner.py:668-730 | A freshly loaded model is the snapshot with the stored rows replayed, and both attribute caches are then loaded |
| ModelArchiving.SaveModelSwitches | htmengine/htmengine/model_swapper/model_runner.py:733-771 | A save switches what is recovered in a single file-system step |
| ModelArchiving.ModelArchiver.LoadCheckpointAttributes | htmengine/htmengine/model_swapper/model_runner.py:647-665 | Fills both caches together, from the checkpoint or empty |
| ModelArchiving.ModelArchiver.ModelCheckpointBatchIdSet | htmengine/htmengine/model_swapper/model_runner.py:598-604 | Gives the batch ids of the checkpoint on disk |
| ModelArchiving.ModelArchiver.LoadModel | htmengine/htmengine/model_swapper/model_runner.py:668-730 | Loads or creates the model, replays the stored rows into it, and fails only when the model is unknown |
| ModelArchiving.ModelArchiver.SaveModel | htmengine/htmengine/model_swapper/model_runner.py:733-771 | With a checkpoint and at most 100 rows, stored ones and new ones together, the snapshot stays and the new rows join the stored ones; else the live model becomes the snapshot and no rows are stored. Afterwards the disk restores the live model and names exactly the given batch ids |
| ModelRunning.ModelRunner.ProcessInputRow | htmengine/htmengine/model_swapper/model_runner.py:486-521 | The answer carries the row's own id, is a score exactly if the model exists and infers from the row, and then is the score inferred; the model advances as the row semantics say, and only rows that ran are kept for replay |
| ModelRunning.ModelRunner.DefineModel | htmengine/htmengine/model_swapper/model_runner.py:384-428 | Defines an unknown model durably, confirms the same definition again, refuses another; the answer carries the command's id |
| ModelRunning.ModelRunner.ProcessInputBatch | htmengine/htmengine/model_swapper/model_runner.py:327-351 | Results and model are those of performing all objects in order |
| ModelRunning.ModelRunner.ConsumeRun | htmengine/htmengine/model_swapper/model_runner.py:188-278 | One run skips exactly the batches the checkpoint has, acking each before any file-system step, and processes the others in order, publishing what each is owed; it ends with the first batch that brings its requests to the target, or with the queue |
| ModelRunning.ModelRunner.CloseRun | htmengine/htmengine/model_swapper/model_runner.py:280-306 | The ack of the run is the last thing told and comes after the last file-system step; at that point the disk keeps the batches acked whatever a crash undoes, if a model was saved or the disk was settled before; the duplicate filter becomes this run's ids |
| ModelRunning.ModelRunner.ProcessRun | htmengine/htmengine/model_swapper/model_runner.py:188-306 | What one run tells the outside is exactly: acks of the batches the checkpoint names, one answer per new batch in order, and one ack of them all, as soon as their requests reach the target |
| ModelRunning.ModelRunner.OneRun | htmengine/htmengine/model_swapper/model_runner.py:187-306 | After a run the model on disk is the fold of all batches taken in, nothing is left unacked, and every ack told so far followed the answers and the durable checkpoint of its batches |
| ModelRunning.ModelRunner.Run | htmengine/htmengine/model_swapper/model_runner.py:173-323 | Over the whole life of the process: durable fold of a prefix of the queue, one answer per batch in order, the rest untouched, and the whole queue unless preempted; if the disk was settled at its start, each ack came when every answer was out and no crash could take the acked batches from the disk |
| RunnerSemantics.PerformOwed | htmengine/htmengine/model_swapper/model_runner.py:384-521 | An answer has the id of its request, says whether the model at hand could meet it, and gives the score the model infers |
| RunnerReplies.FoldIsReplay | htmengine/htmengine/model_swapper/model_runner.py:327-521 | What a stream of batches means: the model of its first definition, fed every row since, in order |
| RunnerReplies.RepliesOwed | htmengine/htmengine/model_swapper/model_runner.py:327-351 | Each batch gets one answer per object, in order, each with that object's id and what the model fed with all requests before makes of it |
| RunnerReplies.RowsAnsweredInOrder | htmengine/htmengine/model_swapper/model_runner.py:509-512 | For every stream the answers to its rows carry exactly the stream's row ids, in order |
| RunnerReplies.AnswersOwed | htmengine/htmengine/model_swapper/model_runner.py:239-244 | Over every run with crashes and deaths, whatever is published answers a batch so, and every acked batch has been answered so |
| RunnerReplies.TargetKept | htmengine/htmengine/model_swapper/model_runner.py:271-278 | Over every such run, the runner takes in another batch only while the requests of the run are short of the target, and goes on to checkpoint and ack once they reach it or the queue is empty |
| RunnerReplies.EndsIff | htmengine/htmengine/model_swapper/model_runner.py:187-315 | A step ends the process exactly if it is the ack of a last run, of a preempted one or one on a lost channel, a checkpoint with nothing or nowhere to save, or a death |
| RunnerSemantics.FoldTrained | htmengine/htmengine/model_swapper/model_runner.py:384-428 | After the first batch the model exists and keeps the definition it was given |
| RunnerSafety.SubmitStep | htmengine/htmengine/model_swapper/model_swapper_interface.py:798-858 | A submission changes nothing that was established about earlier batches |
| RunnerSafety.StartStep | htmengine/htmengine/model_swapper/model_runner.py:182-184 | A new process takes its duplicate filter and its model from the checkpoint |
| RunnerSafety.DuplicateIff | htmengine/htmengine/model_swapper/model_runner.py:201-212 | A delivered batch is treated as a duplicate exactly if the live model already contains it |
| RunnerSafety.DeliverStep | htmengine/htmengine/model_swapper/model_runner.py:200-224 | Delivering, filtering duplicates and acking them keeps the invariant |
| RunnerSafety.ReconnectStep | nta.utils/nta/utils/message_bus_connector.py:551-597 | Losing the channel returns unacked batches in order and keeps the invariant |
| RunnerSafety.HandleStep | htmengine/htmengine/model_swapper/model_runner.py:327-521 | Handling one object follows the semantics step by step and keeps the invariant |
| RunnerDurability.DiskStepStep | htmengine/htmengine/model_checkpoint_mgr/model_checkpoint_mgr.py:373-440 | Each single file-system step of a definition or a checkpoint keeps the invariant |
| RunnerDurability.PublishStep | htmengine/htmengine/model_swapper/model_runner.py:239-244 | Results are published in the order of the batches and are the ones owed |
| RunnerDurability.CloseStep | htmengine/htmengine/model_swapper/model_runner.py:280-302 | Ending a run, with or without a model to save, keeps the invariant |
| RunnerDurability.AckStep | htmengine/htmengine/model_swapper/model_runner.py:304-306 | Acking the last batch and all before it happens only when the disk has them |
| RunnerCrash.CrashStep | htmengine/htmengine/model_swapper/model_runner.py:187-315 | A crash after any step, undoing any unsynced steps, keeps the invariant unless what it recovers lacks an acked batch |
| RunnerCrash.DieStep | htmengine/htmengine/model_swapper/model_runner.py:187-315 | So does the death of the process alone, whose unsynced steps stay pending for a later crash to undo |
| RunnerTheorems.StepInv | htmengine/htmengine/model_swapper/model_runner.py:182-315 | Every step of every component keeps the invariant, crashes and deaths included as long as they lose no acked batch |
| RunnerTheorems.ExactlyOnceTheorem | htmengine/htmengine/model_swapper/model_runner.py:182-315 | Over every run with deaths of the process and crashes of the machine at any step: the recoverable model is the fold of a prefix of the batches, each row once and in order, every acked batch lies in it and was answered before, and all answers are the ones owed; as long as no death or crash of the run loses an acked batch |
| RunnerExposure.DeliveryExposes | htmengine/htmengine/model_swapper/model_runner.py:201-212 | A delivery makes a loss possible exactly if the runner acks as a duplicate a batch that the checkpoint left by some crash would lack |
| RunnerExposure.AckExposes | htmengine/htmengine/model_swapper/model_runner.py:304-306 | The ack of a run does so exactly if it is made on the channel the batches came on while some crash may still undo what is on disk |
| RunnerExposure.OthersDoNotExpose | htmengine/htmengine/model_swapper/model_runner.py:182-315 | No other step does, neither a lost channel nor a death nor a crash nor any file-system step |
| RunnerExposure.CrashKeepsAckedIff | htmengine/htmengine/model_swapper/model_runner.py:182-306 | At any point of the program a crash or a death keeps every acked batch if and only if no batch counted by the checkpoint on disk or by the open run is missing from both the recovered checkpoint and the queue; the definition, as the only batch acked, is lost only with the entry |
| RunnerWitness.LostChannelLosesRow | nta.utils/nta/utils/message_bus_connector.py:551-597 | A run from a model nobody has heard of: define it, ack, take a row, lose the channel, be delivered the row again; every crash now loses the acked row |
| RunnerWitness.UnsyncedCheckpointLosesRow | htmengine/htmengine/model_checkpoint_mgr/model_checkpoint_mgr.py:426-433 | A run in which the process dies between the rename of the link and its sync: the next one acks the row as a duplicate, and a crash brings back the model without it |
| RunnerWitness.UnsyncedDefinitionLost | htmengine/htmengine/model_checkpoint_mgr/model_checkpoint_mgr.py:317-321 | A run in which the process dies between the rename of the entry and its sync: the next one confirms and acks the definition, and a crash takes the model away |
| RunnerWitness.LostChannelExposes | nta.utils/nta/utils/message_bus_connector.py:551-597 | From any runner waiting for its first batch five steps lead to where every crash loses an acked batch: deliver a row, handle it, publish, lose the channel, be delivered the row again |
| RunnerWitness.AckedRowLost | htmengine/htmengine/model_swapper/model_runner.py:201-212 | After these steps what any crash recovers is the fold of no prefix that contains the acked row |
| RunnerExposure.ExactlyOnceWhenOrderly | htmengine/htmengine/model_swapper/model_runner.py:182-315 | With no channel lost within a run and no process dying alone between a rename and its sync, exactly-once holds over every run, whatever crashes and when, and no acked batch is ever at risk |
| SwapScheduling.NewControllerOrderly | htmengine/htmengine/model_swapper/swap_controller.py:84-130 | A new controller has all slots free |
| SwapScheduling.AssignConserves | htmengine/htmengine/model_swapper/swap_controller.py:319-334 | Giving a free slot to a model keeps free and used slots a partition |
| SwapScheduling.VacateConserves | htmengine/htmengine/model_swapper/swap_controller.py:282-304 | Taking a finished model off its slot keeps the partition |
| SwapScheduling.EventKeepsOrder | htmengine/htmengine/model_swapper/swap_controller.py:224-365 | Every event keeps slot conservation, no model waiting twice or while running, no waiting beside a free slot, and enough running slots being preempted for those who wait |
| SwapScheduling.LoopHeadOrderly | htmengine/htmengine/model_swapper/swap_controller.py:149-169 | So does the shutdown logic at the head of the loop |
| SwapScheduling.VictimExists | htmengine/htmengine/model_swapper/swap_controller.py:343-365 | Whenever a preemption is requested some running slot can be picked, and a least recently used one exists |
| SwapScheduling.EventPossible | htmengine/htmengine/model_swapper/swap_controller.py:224-365 | No handler is ever without a choice it needs |
| SwapScheduling.TurnsKeepOrder | htmengine/htmengine/model_swapper/swap_controller.py:149-176 | All this holds over every run of the event loop |
| SwapScheduling.StillWaiting | htmengine/htmengine/model_swapper/swap_controller.py:263-316 | A model at position k of the waiting list is at position k - j after j <= k models finished, whatever else happened |
| SwapScheduling.BoundedWait | htmengine/htmengine/model_swapper/swap_controller.py:311-316 | The (k+1)-th model to finish starts it |
| SwapRecency.StampIsLastUse | htmengine/htmengine/model_swapper/swap_controller.py:224-334 | Over every run of turns, the stamp of a running model is the time of the last turn that started it or brought it new input |
| SwapRecency.PreemptsAsNeeded | htmengine/htmengine/model_swapper/swap_controller.py:343-365 | A handler stops one more model exactly if more models then wait than slots are being vacated, and not all slots are |
| SwapRecency.PreemptsLeastRecentlyUsed | htmengine/htmengine/model_swapper/swap_controller.py:343-365 | Over every run from the start, a model stopped for others runs and was not stopped before, and was last started or brought input no later than any other such model |
| SwapRecency.StartsExactly | htmengine/htmengine/model_swapper/swap_controller.py:224-334 | A turn starts a model exactly if it brings an idle one its first input while a slot is free, or frees a slot while that model heads the waiting list; it re-notifies exactly a finished model with input left |
| SwapRecency.LastFreedFirst | htmengine/htmengine/model_swapper/swap_controller.py:319-334 | The slot freed last is the next to be used |
| SwapRecency.ClosesWhenIdle | htmengine/htmengine/model_swapper/swap_controller.py:149-169 | Over every run, all slots are closed exactly if a stop was asked for and no model runs or waits |
| SwapRecency.StopsRemainingModels | htmengine/htmengine/model_swapper/swap_controller.py:149-169 | The first turn at whose end a stop was asked for and nobody waits, though models run, leaves every running model asked to stop |
| SlotProtocol.SlotStepKeeps | htmengine/htmengine/model_swapper/slot_agent.py:283-382 | Every step of client, event loop, runner and monitor thread keeps the slot's invariant |
| SlotProtocol.Handshake | htmengine/htmengine/model_swapper/slot_agent.py:102-382 | In every interleaving: no assertion fails, each start is answered by exactly one callback before the next, the exit report is handled before the release, and neither close nor start meets a model |
| SlotProtocol.AnswerComes | htmengine/htmengine/model_swapper/slot_agent.py:283-382 | From every reachable state of a slot, a start not yet answered can be answered by the agent, its runner and the monitor thread alone, whatever is queued |
| SwapSystem.TurnSeat | htmengine/htmengine/model_swapper/swap_controller.py:224-365 | What a turn of the controller asks of each slot is allowed by the slot's interface and leaves the slot as the controller believes |
| SwapSystem.IssueKeeps | htmengine/htmengine/model_swapper/swap_controller.py:149-176 | Issuing the calls of a turn one by one, agents running in between, keeps the system's invariant |
| SwapSystem.AgentKeeps | htmengine/htmengine/model_swapper/slot_agent.py:283-382 | So does every step of an agent |
| SwapSystem.HandleKeeps | htmengine/htmengine/model_swapper/swap_controller.py:172-176 | So does handling an event; a model-done event always names a running model |
| SwapSystem.ControllerAndAgents | htmengine/htmengine/model_swapper/swap_controller.py:149-365 | Over every interleaving of controller, agents, runners and notifications, no assertion of either class fails, every slot's handshake holds, no model has two live runners, and the scheduler stays in order |
| Wakeups.HandleScheduled | htmengine/htmengine/model_swapper/swap_controller.py:276-316 | Handling an event forgets no model with input: a finished one is re-notified, the others stay known |
| Wakeups.StepKeeps | htmengine/htmengine/model_swapper/model_swapper_interface.py:763-858 | Every step of publishers, notification reader, controller, agents and runners keeps every model with unread input covered |
| Wakeups.NoLostWakeup | htmengine/htmengine/model_swapper/swap_controller.py:380-420 | Over every run, each model with unread input is running, waiting, named in a queued event or an unread notification, between its publisher's two publishes, or ahead of the start-up scan; when all is quiet it is running or waiting |
| Wakeups.NoSpuriousWakeup | htmengine/htmengine/model_swapper/swap_controller.py:380-420 | Over every run, only models that have had input are notified, wait or run |
| SwapObjects.SlotAgent.StartModel | htmengine/htmengine/model_swapper/slot_agent.py:234-250 | Queues the start; the slot must not have a model |
| SwapObjects.SlotAgent.StopModel | htmengine/htmengine/model_swapper/slot_agent.py:253-263 | Queues the stop; the slot must have a model |
| SwapObjects.SlotAgent.ReleaseSlot | htmengine/htmengine/model_swapper/slot_agent.py:266-279 | Forgets the model and queues the release |
| SwapObjects.SlotAgent.ServeOne | htmengine/htmengine/model_swapper/slot_agent.py:293-382 | One turn of the event loop as the protocol says; none of its assertions fails |
| SwapObjects.SlotAgent.FinishStop | htmengine/htmengine/model_swapper/slot_agent.py:346-361 | After the runner's end the callback names the right model |
| SwapObjects.SwapController.AssignModelToFreeSlot | htmengine/htmengine/model_swapper/swap_controller.py:319-334 | Starts the model in the last freed slot, whose agent has no model |
| SwapObjects.SwapController.LeastRecentlyUsedModel | htmengine/htmengine/model_swapper/swap_controller.py:353-361 | Finds a running model not yet stopped whose last input is oldest |
| SwapObjects.SwapController.RequestPreemptionOfRunningSlotIfNeededAndPossible | htmengine/htmengine/model_swapper/swap_controller.py:343-365 | Stops exactly one least recently used slot if more models wait than slots are being vacated, else none |
| SwapObjects.SwapController.HandleNewInputNotify | htmengine/htmengine/model_swapper/swap_controller.py:233-273 | State and calls are those of the scheduling function, for a choice it allows |
| SwapObjects.SwapController.HandleModelDoneNotify | htmengine/htmengine/model_swapper/swap_controller.py:276-316 | Likewise, with the re-notification when input is left |
| SwapObjects.SwapController.LoopHead | htmengine/htmengine/model_swapper/swap_controller.py:149-169 | Closes all agents and leaves when all is idle, or stops each remaining model once |
| SwapObjects.SwapController.HandleEvent | htmengine/htmengine/model_swapper/swap_controller.py:224-316 | Dispatches an event to its handler; only a finished model with input left is notified again |
| SwapObjects.SwapController.OneTurn | htmengine/htmengine/model_swapper/swap_controller.py:149-176 | A turn of the loop takes the first event of the queue and is a turn of the scheduler; the queue keeps its other events and gains exactly the re-notification of a finished model with input left, and each agent's queue grows by exactly its commands |
| AnomalyStatistics.CacheWindow | htmengine/htmengine/anomaly_likelihood_helper.py:87-112 | A window cut from the one cache of the batch is the window over the whole history and batch so far, and it suffices exactly when that does |
| AnomalyStatistics.GenerateAnomalyParams | htmengine/htmengine/anomaly_likelihood_helper.py:69-136 | Estimates from the latest samples, as many as there are but no fewer than the minimum and no more than the maximum, dated at the last of them; or returns the old parameters |
| AnomalyStatistics.RefreshAnomalyParams | htmengine/htmengine/anomaly_likelihood_helper.py:243-306 | Extends the cache, fetching the history's tail only the first time, and estimates as if every window were taken afresh |
| AnomalyStatistics.InitAnomalyLikelihoodModel | htmengine/htmengine/anomaly_likelihood_helper.py:161-240 | First statistics exactly when there are enough samples, and where scoring then starts |
| AnomalyStatistics.ChooseLimit | htmengine/htmengine/anomaly_likelihood_helper.py:396-464 | The cut-off of a run, moved on when a built cache would make it stand still |
| AnomalyStatistics.ScoreRun | htmengine/htmengine/anomaly_likelihood_helper.py:476-503 | Scores the rows of a run with the statistics known before each, stopping exactly at an extreme score that allows a refresh |
| AnomalyStatistics.RefreshIfStopped | htmengine/htmengine/anomaly_likelihood_helper.py:505-515 | Refreshes exactly when the run stopped before the batch's end or its last row reached the cut-off, looking at that row only when there is one |
| AnomalyStatistics.ProcessRun | htmengine/htmengine/anomaly_likelihood_helper.py:393-518 | One turn of the loop consumes rows, or builds the cache when there is none yet; the last consumed row is only looked at when there is one |
| AnomalyStatistics.UpdateModelAnomalyScores | htmengine/htmengine/anomaly_likelihood_helper.py:336-521 | Terminates; every row from the start row on gets as its score 1 minus the likelihood the estimator gives it under the statistics of a lawful plan, earlier rows keep their score, and the result is what that plan ends with |
| AnomalyStatistics.RefreshedWhenDue | htmengine/htmengine/anomaly_likelihood_helper.py:396-518 | With contiguous row ids each row of a lawful plan is followed by a refresh exactly if it reaches the cut-off that holds since its run began, or scores extremely before the end |
| AnomalyStatistics.FailedRefreshes | htmengine/htmengine/anomaly_likelihood_helper.py:433-442 | A refresh fails for lack of samples at most once with contiguous row ids; with gaps perhaps once more, at the very end |
| AnomalyStatistics.RefreshUses | htmengine/htmengine/anomaly_likelihood_helper.py:99-136 | Each refresh of a lawful plan leaves statistics estimated from the latest of all samples seen, between minimum and maximum in number, or with too few samples those there were |
| AnomalyStatistics.FirstStatisticsSucceed | htmengine/htmengine/anomaly_likelihood_helper.py:201-240 | When statistics are built for the first time in a batch no refresh of that batch fails for lack of samples |
| AnomalyStatistics.StatisticsStayFresh | htmengine/htmengine/anomaly_likelihood_helper.py:396-518 | With contiguous row ids and enough history every row is scored with statistics at most one row, the configured interval or a tenth of the batch old, whichever is most |
| AnomalyStatistics.RefreshedExactlyWhen | htmengine/htmengine/anomaly_likelihood_helper.py:396-518 | With contiguous row ids and enough samples, a row is followed by a refresh exactly if both the configured interval and a tenth of the batch have passed since the last sample the statistics saw, or the row scores above 0.99 more than 3 rows after it and before the batch ends |
| AnomalyStatistics.RefreshedAtStart | htmengine/htmengine/anomaly_likelihood_helper.py:396-430 | Old statistics are refreshed before the first row exactly if it comes more than both intervals after the last sample they saw |
| AnomalyStatistics.CatchesUp | htmengine/htmengine/anomaly_likelihood_helper.py:433-442 | After a refresh that failed for lack of samples the next one comes exactly when there are enough |
| AnomalyStatistics.LessLikelyScoresHigher | htmengine/htmengine/anomaly_likelihood_helper.py:476-489 | Of two rows the one the estimator finds less likely never scores lower |
| AnomalyStatistics.RowAdvances | htmengine/htmengine/anomaly_likelihood_helper.py:476-489 | Between refreshes each row carries the statistics on by what the estimator makes of it |
| AnomalyStatistics.StartsAsSoonAsPossible | htmengine/htmengine/anomaly_likelihood_helper.py:201-240 | Without statistics scoring starts with the first row at which there are enough samples |
| MetricTable.KeptIncreases | htmengine/htmengine/runtime/metric_streamer_util.py:94-132 | Kept samples are strictly increasing in time and later than the tail |
| MetricTable.KeptIffFresh | htmengine/htmengine/runtime/metric_streamer_util.py:94-132 | A sample is kept exactly if it is younger than the tail and than all samples before it |
| MetricTable.TailIsYoungest | htmengine/htmengine/runtime/metric_streamer_util.py:96-123 | The running timestamp is the latest of the tail and all samples seen |
| MetricTable.RedeliveryKeepsNothing | htmengine/htmengine/runtime/metric_streamer_util.py:101-123 | Samples of a batch that come again, in any part and order, are all dropped |
| MetricTable.StoringKeepsTable | htmengine/htmengine/repository/queries.py:591-623 | Storing keeps row ids contiguous, timestamps increasing and the cache in agreement with the last row, also after the cache was cleared or old rows were purged |
| MetricTable.RedeliveryStoresNothing | htmengine/htmengine/runtime/metric_streamer_util.py:96-123 | A redelivered batch stores nothing, by the cache or by the table |
| MetricStreaming.Repository.IncrementMetricRowId | htmengine/htmengine/repository/queries.py:557-588 | Hands out the next row ids |
| MetricStreaming.Repository.AddMetricData | htmengine/htmengine/repository/queries.py:591-623 | Appends the samples as rows numbered on from the last row id |
| MetricStreaming.Repository.TimestampByRowId | htmengine/htmengine/repository/queries.py:627-695 | The row with the last row id is the last row |
| MetricStreaming.MetricStreamer.GetTailMetricRowTimestamp | htmengine/htmengine/runtime/metric_streamer_util.py:183-219 | The cached timestamp, else that of the last row, and never one that contradicts the table |
| MetricStreaming.MetricStreamer.ScrubDataSamples | htmengine/htmengine/runtime/metric_streamer_util.py:79-132 | Keeps exactly the samples later than the tail and than all before them in the batch |
| MetricStreaming.MetricStreamer.StoreDataSamples | htmengine/htmengine/runtime/metric_streamer_util.py:135-166 | Stores all and remembers the last timestamp |
| MetricStreaming.BatchesConcat | htmengine/htmengine/runtime/model_data_feeder.py:50-52 | Slicing loses nothing and reorders nothing; every batch but the last has exactly the size |
| MetricStreaming.MetricStreamer.SendInputRowsToModel | htmengine/htmengine/runtime/model_data_feeder.py:32-87 | Submits exactly these slices in order, or nothing if the model has no queue |
| MetricStreaming.MetricStreamer.StreamMetricData | htmengine/htmengine/runtime/metric_streamer_util.py:222-342 | Stores what scrubbing keeps and forwards, activates or stops there as the metric's status says |
| ModelActivation.StoreKeeps | htmengine/htmengine/runtime/metric_streamer_util.py:262-339 | Storing puts new rows in flight exactly when the model is already defined |
| ModelActivation.FreshSamplesStored | htmengine/htmengine/runtime/metric_streamer_util.py:262-289 | Unless the model has failed, storing appends a row for every fresh sample and for no other, and touches no row that is there |
| ModelActivation.ActivatesWhenEnough | htmengine/htmengine/runtime/metric_streamer_util.py:320-334 | A deferred model is started by the streamer exactly when new rows bring it to 288 or more |
| ModelActivation.BeginKeeps | htmengine/htmengine/runtime/scalar_metric_utils.py:313-390 | Starting a model publishes its definition and takes on all stored rows as backlog |
| ModelActivation.StepKeeps | htmengine/htmengine/runtime/scalar_metric_utils.py:217-307 | Every step of streamer, adapter and start-model transaction conserves the rows |
| ModelActivation.RowsReachModel | htmengine/htmengine/runtime/scalar_metric_utils.py:256-307 | Over every interleaving the model's queue is its definition followed by rows 1, 2, 3 and so on, without gap or duplicate, and with the rows in flight these are all rows stored |
| ModelActivation.NoEarlyActivation | htmengine/htmengine/runtime/scalar_metric_utils.py:57-59 | Over every interleaving the streamer starts no model before 288 rows are stored |
| MetricPurge.BatchLeavesSuffix | htmengine/htmengine/runtime/metric_garbage_collector.py:198-207 | What a batch leaves of each metric is a suffix of its rows |
| MetricPurge.BatchFromTable | htmengine/htmengine/runtime/metric_garbage_collector.py:136-170 | A batch removes only rows older than its limit |
| MetricPurge.BatchCounts | htmengine/htmengine/runtime/metric_garbage_collector.py:149-160 | It removes as many as asked for, if there are that many |
| MetricPurge.DeletingCandidates | htmengine/htmengine/runtime/metric_garbage_collector.py:188-229 | Deleting by key what the candidate query found removes exactly the first old rows |
| MetricPurge.MetricData.QueryCandidateRows | htmengine/htmengine/runtime/metric_garbage_collector.py:188-208 | Finds the first old rows in key order |
| MetricPurge.MetricData.DeleteRows | htmengine/htmengine/runtime/metric_garbage_collector.py:212-229 | Removes the rows with these keys and counts them |
| MetricPurge.MetricData.PurgeOldMetricDataRows | htmengine/htmengine/runtime/metric_garbage_collector.py:97-171 | Terminates having removed exactly the estimated number of rows, all of them old, leaving each metric a suffix |
| Utf8Sanitizer.CutShortIff | taurus_metric_collectors/taurus_metric_collectors/text_utils.py:123-127 | The test for an incomplete sequence is right: some more bytes would complete it |
| Utf8Sanitizer.AcceptedIff | taurus_metric_collectors/taurus_metric_collectors/text_utils.py:75-122 | The accepted sequences are exactly the encodings of the code points up to U+10FFFF, surrogates included |
| Utf8Sanitizer.OutputClean | taurus_metric_collectors/taurus_metric_collectors/text_utils.py:42-55 | The output consists of accepted sequences of at most 3 bytes |
| Utf8Sanitizer.UnchangedIffClean | taurus_metric_collectors/taurus_metric_collectors/text_utils.py:42-55 | A text passes unchanged exactly if it already is that |
| Utf8Sanitizer.Idempotent | taurus_metric_collectors/taurus_metric_collectors/text_utils.py:42-55 | Sanitizing twice is sanitizing once |
| Utf8Sanitizer.SplitAt | taurus_metric_collectors/taurus_metric_collectors/text_utils.py:128-130 | A byte that cannot continue a sequence starts anew, so what precedes it is sanitized by itself |
| Utf8Sanitizer.NothingLost | taurus_metric_collectors/taurus_metric_collectors/text_utils.py:128-130 | An accepted sequence is shown in its place whatever malformed bytes precede it |
| Utf8Sanitizer.CodePointShown | taurus_metric_collectors/taurus_metric_collectors/text_utils.py:42-55 | Wherever it stands, a code point below U+10000 stays as it is and any other comes out as the bytes EF BF BD |
| Utf8Sanitizer.MalformedShown | taurus_metric_collectors/taurus_metric_collectors/text_utils.py:123-130 | A byte that starts no accepted sequence comes out as EF BF BD, and reading goes on right after it |
| Utf8Sanitizer.CutShortShown | taurus_metric_collectors/taurus_metric_collectors/text_utils.py:123-127 | A sequence cut short by the end comes out as one EF BF BD |
| Utf8Sanitizer.AsciiClean | taurus_metric_collectors/taurus_metric_collectors/text_utils.py:38-40 | The short cut for plain text is justified |
| Utf8Sanitizer.ReadUnits | taurus_metric_collectors/taurus_metric_collectors/text_utils.py:75-122 | Reads an accepted sequence, or stops at the byte that rules one out, or at the end of an incomplete one |
| Utf8Sanitizer.ReadSequenceFromUtf8 | taurus_metric_collectors/taurus_metric_collectors/text_utils.py:58-130 | Takes at least one byte and yields the accepted sequence or the substitution; after an error exactly one byte is taken |
| Utf8Sanitizer.Sanitize4ByteUnicode | taurus_metric_collectors/taurus_metric_collectors/text_utils.py:31-55 | Consumes all input and yields the sanitized text |
| MetricListener.LinesSplit | htmengine/htmengine/runtime/metric_listener.py:187-222 | The lines of a text join to the text, none is empty, and newlines stand only at their ends |
| MetricListener.CompleteLinesAre | htmengine/htmengine/runtime/metric_listener.py:187-225 | The complete lines are all lines but a last one without newline |
| MetricListener.YieldsLines | htmengine/htmengine/runtime/metric_listener.py:187-225 | What the generator yields of a stream are its lines, the last without newline only if the stream ends by itself, and one pause per time-out |
| MetricListener.LineReader.Next | htmengine/htmengine/runtime/metric_listener.py:179-225 | Yields the next of exactly these lines and pauses, whatever pieces the stream comes in; after the last the end, or the error of a failing receive call with what is left in the buffer dropped |
| MetricListener.TakeItem | htmengine/htmengine/runtime/metric_listener.py:300-309 | Takes a line into the batch and forwards the batch when it is full or the data pauses |
| MetricListener.TakeAllForwards | htmengine/htmengine/runtime/metric_listener.py:299-309 | Over any lines and pauses every line is forwarded, in order, or in hand; batches hold 1 to 200 lines, and all but one per pause account for 200 each |
| MetricListener.HandleConnection | htmengine/htmengine/runtime/metric_listener.py:291-314 | Completes exactly if no receive call fails before the stream ends and then sends the remnant; else loses what is in hand. Forwarded and lost lines are the stripped lines of the stream in order, as many lost as the failing call finds in hand; batches are neither empty nor longer than 200, and only a pause or the end cuts one short |
| MetricListener.TimeOutSendsAll | htmengine/htmengine/runtime/metric_listener.py:300-309 | Whenever a receive call times out, every complete line received until then goes out, whatever happens later |
| MetricListener.EndOfConnection | htmengine/htmengine/runtime/metric_listener.py:291-314 | Closed by the client, all lines sent over a connection are forwarded, the last even without newline; cut off by a failing call, the complete ones are forwarded or lost |
| MetricListener.FullBatches | htmengine/htmengine/runtime/metric_listener.py:299-314 | Without time-outs a batch has 200 lines, but for one sent at the end |
| MetricListener.PieceCut | htmengine/htmengine/runtime/metric_listener.py:187-225 | Receiving a piece in two changes nothing of what arrives |
| MetricListener.PiecesDoNotMatter | htmengine/htmengine/runtime/metric_listener.py:187-225 | Two connections on which the same bytes, time-outs and failure arrive in the same order forward the same batches and lose the same lines; two that do not fail and bring the same bytes forward the same lines, wherever the time-outs fall |
| MetricListener.InterruptionLoses | htmengine/htmengine/runtime/metric_listener.py:199-206 | For every sequence of receive calls the lines lost are the last complete ones before the failing call, as many as were completed since the last time-out less all full batches of 200; every line is forwarded if and only if that number is 0 |
| MetricListener.InterruptedLineLost | htmengine/htmengine/runtime/metric_listener.py:199-206 | One line followed by an interrupted call: the line is received and never forwarded |

## Left out

- CheckpointScripts.CrashAtomic: does not model the version file of an entry, which never changes and is never read back.
- RunnerTheorems.ExactlyOnceTheorem: covers rows and `defineModel`; the commands `deleteModel` and `cloneModel` are covered at the checkpoint manager only, because deletion ends the stream and cloning leaves the model alone.
- ModelRunning.ModelRunner.Run: the queue does not grow during the run and no channel is lost, and its acks are shown to be in order when nothing was pending on disk at its start; `RunnerProtocol` covers the other cases.
- RunnerExposure.CrashKeepsAckedIff: the direction from loss to a wrong model needs a stream in which each batch changes the model, since a batch that changes nothing can be lost without a trace.
- SwapSystem.ControllerAndAgents: is about safety; the time-outs of `stopGracefully` and `close` and the forced kill are left out, an exit of the runner being possible at any time.
- SwapScheduling.BoundedWait: counts finished models; that a stopped model finishes is the runner's business.
- SwapObjects.SwapController.OneTurn: one turn at a time, from when an event is there, because other threads fill the queue it waits on; `SwapSystem` runs the turns.
- Shutdown being prompt: a late re-notification can start a model after the stop request, so only the exit condition is stated.
- AnomalyStatistics.UpdateModelAnomalyScores: the likelihood algorithms are parameters; floating-point rounding of `1.0 - likelihood` and of `batchSize * 0.1` is not modelled.
- MetricStreaming.MetricStreamer.StreamMetricData: one metric at a time and a transaction that commits; aborted commits and retries are left out, as is the datasource adapter behind `Activate`.
- MetricTable.RedeliveryStoresNothing: when every row of a metric was purged and the cache was dropped there is no tail left to compare with, and the code accepts samples of any age.
- ModelActivation.RowsReachModel: no row is deleted and the model is not deleted or monitored anew.
- MetricPurge.MetricData.PurgeOldMetricDataRows: rows arriving during the purge are left out; the branch for an empty candidate list cannot be taken without another deleter.
- Utf8Sanitizer.Sanitize4ByteUnicode: works on bytes; the encoding and decoding around it, which replaces by itself, are left out.
- MetricListener.HandleConnection: `strip` is a parameter, and forwarding itself is recorded and not sent; all socket errors but time-outs count as one.
- JSON, pickle and base64 encodings of attributes and samples: taken as identities.
- The database index, logging, profiling, command lines, configuration and user interfaces: plumbing.
- Aggregation of metrics, metric-name filters and the de-duplication of notifications: not modelled.
