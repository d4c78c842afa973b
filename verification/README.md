# libproxc, verified

libproxc is a cooperative runtime for communicating sequential processes in C: processes, rendezvous channels, ALT over
channels, timers and skip guards, PAR and SEQ trees of processes with RUN and GO, and sleeping.  This project models its
scheduler and proves what its parts rely on from each other.

`dafny verify dfyconfig.toml` checks everything.

## What is where

The project has three layers.

**Data structures, pointer by pointer.**  `RbZipper.dfy` and `RbTrees.dfy` are the red-black tree of `src/util/tree.h`:
the class `RbTree` has the parent, child and colour fields of the source, its rotations and colour loops assign to them as
the source does, and a ghost tree pictures what the pointers form.  `RbZipper` is the theory of that picture: a place in
a tree is a context and a subtree, each rotation and each case of a colour loop is a lemma about contexts.
`Tailqs.dfy` is the tail queue of `src/util/queue.h`, backward links and all.  `SleepTrees.dfy` puts the deadline loops of
`src/scheduler.c` on the tree and relates its contents to the map that the upper layer uses; `Timers.dfy` says which
deadline the loops find.  `CspNodes.dfy` and `CspBuilding.dfy` are the builder nodes of `src/csp.c` with their parent,
child, sibling and cursor pointers: linking a tree, running it, counting completions up the parents, and freeing it;
`CspRuns.dfy` follows the nodes through whole sequences of ends.

**Meanings.**  `SeriesParallel.dfy` says what a PAR/SEQ tree means, which leaves run once a given set of processes has
ended, and shows that the counter machine does exactly that in every run; `LeafOrder.dfy` is the order from left to right
in which leaves are made ready.  `Channels.dfy` is one channel with its history:
every write and read call, and every delivery.  `Alts.dfy` is how the arguments of an ALT become its guards.

**The runtime.**  `Runtime.dfy` is a step machine.  Control changes hands only at `proc_yield`, so what a process does
up to a yield is one step; process bodies, the random choice among ready guards and the clock choose the next action.
Its runs start from `proxc_start`.  `Forest.dfy`, `Placement.dfy` and `Choices.dfy` state what holds at every point (of
the trees; of where each process is; of ALT) and `Invariant.dfy` shows that every step keeps it.  `Ordering.dfy`,
`Overlooked.dfy`, `Joining.dfy`, `Waking.dfy`, `Deciding.dfy` and `Blocking.dfy` are the results about steps and whole
runs.  `Readiness.dfy`, `Control.dfy` and `Launching.dfy` say for each call, without the functions of the machine, what it
does: when an ALT can choose and what, whether the running process goes on, is queued again, waits or is gone, whom the
call makes ready and in which order, what PAR and SEQ build, and when the scheduler stops.  `Histories.dfy` ties the
histories to the actions of the run.  `Machine.dfy` is the same runtime in the source's form: the class `Scheduler`, whose methods change queues, timers and states
step by step, with the loops of the source, each method proved to take the machine's step.

Histories (the calls on a channel, who got which value, which processes have ended, what decided which ALT) are added to
the state so that properties of runs can be said; no branch of the code depends on them, and a new process gets a number
that no process had before.  Where the source keeps only the kind of
waiting in a process's state, the model names what is waited for as well.

## What was found

* `chan_write` looks only at the first entry of `altQ` (src/chan.c:61-72).  If that ALT is accepted already and has not
  run since, the write waits although another ALT behind it wants the value.  The code is modelled as it is;
  `Overlooked.CanMissAndOvertake` is a run in which this happens and in which the next value then overtakes the waiting
  one, and `Ordering` proves that these are exactly the ways in which a rendezvous is missed and order is lost.  In a
  run with at most one ALT enabled on a channel at a time neither happens (`Ordering.OneAltKeepsOrder`), and where no ALT
  has received from a channel it is a rendezvous of calls in order (`Ordering.RendezvousInOrder`).
* A time guard that has fired or expired is taken out of its tree at src/scheduler.c:217 and again at src/alt.c:164.
  Here the second removal does nothing, as `in_chan` has it for channels (src/alt.c:167).
* A time guard that is superseded is freed at src/alt.c:108 but stays in the list of guards.  Here it leaves the list.
* A PAR or SEQ without children never completes or has no child to run (src/csp.c:81-93).  Here a composite has a child.

## Model

| member | source | states |
|---|---|---|
| RbTrees.RbTree.Insert | src/util/tree.h:590-619 | for an absent key exactly that item is added; for a present one the node that has it is returned and no field of any node changes; order, colour and black-height rules and all parent links hold afterwards |
| RbTrees.RbTree.InsertColor | src/util/tree.h:401-443 | from any tree whose only fault is a red node under a red one, the loop ends in a tree without faults that has the same items in the same order |
| RbTrees.RbTree.Remove | src/util/tree.h:523-588 | exactly the given node's item is gone, the rest keep their order, and all rules and links hold again, whether the node had no, one or two children |
| RbTrees.RbTree.RemoveColor | src/util/tree.h:445-521 | from any tree whose only fault is a path short of one black node, the loop ends in a tree without faults that has the same items; depth of the node under repair, with the exit on a red node after a red sibling, is its measure |
| RbTrees.RbTree.RotateLeftLinks | src/util/tree.h:336-354 | the links of every node after a left rotation, those of the nodes not involved being as before |
| RbTrees.RbTree.RotateRightLinks | src/util/tree.h:356-374 | the links of every node after a right rotation, those of the nodes not involved being as before |
| RbTrees.RbTree.Rotate | src/util/tree.h:336-374 | on a tree of pointers that forms a picture, a rotation forms the rotated picture, in any place, and keeps the order of items |
| RbTrees.RbTree.Splice | src/util/tree.h:572-583 | taking a node with at most one child out leaves the pointers of the picture with that child in its place |
| RbTrees.RbTree.Replace | src/util/tree.h:552-563 | the successor takes the place, colour and links of the removed node, and nothing else changes |
| RbTrees.RbTree.RemoveDouble | src/util/tree.h:532-571 | removing a node with two children, by putting its successor in its place, takes exactly that item out of the order and keeps all rules and links |
| RbTrees.RbTree.Min | src/util/tree.h:704-717 | the first item in order, or null for the empty tree |
| RbZipper.InsertRecolor | src/util/tree.h:410-415 | a red uncle moves the only fault two levels up |
| RbZipper.InsertInner | src/util/tree.h:416-421 | rotating an inner red child keeps the only fault where it is |
| RbZipper.InsertOuter | src/util/tree.h:422-423 | repainting and rotating an outer red child removes it |
| RbZipper.RemoveRedSibling | src/util/tree.h:453-457 | a red sibling becomes a black one under a red parent without moving the fault |
| RbZipper.RemoveMoveUp | src/util/tree.h:458-464 | a black sibling with black children moves the fault one level up |
| RbZipper.RemoveInner | src/util/tree.h:466-475 | a red inner nephew is made an outer one |
| RbZipper.RemoveOuter | src/util/tree.h:476-482 | a red outer nephew lets one rotation remove the fault |
| RbZipper.HeightBound | src/util/tree.h:47-56 | a tree that obeys the rules and has n items has height at most 2 lg(n + 1) |
| SleepTrees.AddSleep | src/scheduler.c:132-150 | the process is stored at the smallest free deadline not before its own, all other entries unchanged; the closing assertion holds exactly if that is less than 1000 later; one further try can succeed without it |
| SleepTrees.AddAltSleep | src/scheduler.c:161-180 | a time guard is stored at the smallest free deadline not before its own, all other entries unchanged, exactly if that is less than 1000 later; the closing assertion holds exactly then |
| SleepTrees.FreeIsNear | src/scheduler.c:141-149 | with n entries a free deadline is at most n away, so with fewer than 1000 the loop succeeds |
| SleepTrees.WakeSleepers | src/scheduler.c:202-209 | exactly the sleepers that are due leave the tree, in the order of their deadlines |
| SleepTrees.DueSplits | src/scheduler.c:202-209 | those are all with a deadline up to now, in strictly increasing order, and the others are later |
| SleepTrees.IdleUntil | src/scheduler.c:236-251 | the idle time is 0 exactly if nothing sleeps, and otherwise ends at a deadline that none in either tree precedes |
| SleepTrees.AsMapInserted | src/scheduler.c:144-147 | an insertion into the tree is an insertion into the map of deadlines |
| SleepTrees.AsMapRemoved | src/scheduler.c:152-159 | a removal from the tree is a removal from the map |
| SleepTrees.AsMapMin | src/scheduler.c:202 | the first item of the tree is at the least deadline of the map |
| Timers.LeastFree | src/scheduler.c:141-149 | the deadline found is free, all from the requested one up to it are taken, and it is no further away than there are entries |
| Tailqs.Tailq.InsertTail | src/util/queue.h:571-579 | the sequence of elements has one more at its end, and all links, forward and backward, are right for it |
| Tailqs.Tailq.Remove | src/util/queue.h:589-603 | the sequence lacks just that element, with all links right, and the element keeps its own links |
| Tailqs.Tailq.Last | src/util/queue.h:581-582 | the last element, or null |
| Tailqs.Tailq.Prev | src/util/queue.h:586-587 | the element before, or null for the first |
| Tailqs.Tailq.Forward | src/util/queue.h:507-510 | visits every element once, in order |
| Tailqs.Tailq.Backward | src/util/queue.h:517-520 | visits every element once, the last first |
| SeriesParallel.RunStarts | src/csp.c:72-97 | running an untouched tree readies exactly the leaves that its meaning lets run at first, each once, and leaves counters and cursors right |
| SeriesParallel.FinishAdvances | src/csp.c:137-196 | when a running leaf ends, exactly the leaves that may run now and did not before are readied, each once; counters and cursors are right again; and completion is reported exactly when every leaf has ended |
| SeriesParallel.RunFollowsMeaning | src/csp.c:72-97 | after any run of any tree each leaf was started at most once, what was started is what has ended and what the meaning lets run, and completion has been reported once if all leaves have ended and not at all otherwise |
| SeriesParallel.RunningIsEnabled | src/csp.c:137-196 | a leaf is running exactly if it has not ended and every leaf that a SEQ puts before it has |
| SeriesParallel.SeriesOrder | src/csp.c:160-175 | in every run, if the lowest common ancestor of x and y is a SEQ with x to the left, y is not started before x has ended |
| SeriesParallel.RunProgress | src/csp.c:150-195 | an unfinished tree has a running leaf, each end leaves one leaf fewer, and completion is reported at the end of the last |
| SeriesParallel.OrderIrrelevant | src/csp.c:137-196 | two runs in which the same processes have ended have started the same processes, in whatever orders |
| LeafOrder.RunInOrder | src/csp.c:84-89 | running a tree readies its leaves from left to right |
| LeafOrder.FinishInOrder | src/csp.c:160-175 | so does the end of a process in it |
| LeafOrder.OneOrder | src/csp.c:84-89 | a set of leaves can be from left to right in one order only, so set and order say the whole sequence |
| CspNodes.Execution.RunBuild | src/csp.c:72-97 | on the nodes and their pointers, the processes made ready are those that the pictured tree prescribes, from left to right |
| CspNodes.Execution.Start | src/proxc.c:168-206 | the root is marked and told its caller, and the tree is in execution with its first leaves ready |
| CspNodes.Execution.LeafEnded | src/proc.c:84-96 | the end of a leaf changes the nodes as the meaning demands, up through all parents that complete; exactly if every leaf has ended, the tree is complete, its caller is readied, once, and its nodes are freed; the counters agree with what has ended afterwards |
| CspRuns.RunLeaves | src/csp.c:137-196 | a started tree whose leaves end in any order that can happen: after each end the nodes are the tree that its meaning prescribes, and what has been readied is what that prescribes |
| CspRuns.FreedAtTheEnd | src/csp.c:178-195 | in any such sequence nothing is freed and the caller of RUN is not readied until every leaf has ended; then every node is freed once and the caller readied once |
| CspNodes.Execution.ParseBuild | src/csp.c:137-196 | for a node whose child has just completed, or a leaf whose process has ended: the rest of the way up leaves the tree, the ready queue and the freed nodes as the meaning of that end demands |
| CspNodes.Execution.CountDown | src/csp.c:142-176 | a node's own counter and cursor become what the meaning of its subtree demands |
| CspNodes.Execution.Cleanup | src/csp.c:99-135 | all nodes below and then the node itself are freed, children in order; no other node's children change |
| CspNodes.PostOrderInOrder | src/csp.c:99-135 | a node is freed after all nodes below it, and the subtrees of its children one after the other from left to right |
| CspNodes.PostOrderOnce | src/csp.c:99-135 | each node is freed exactly as often as it occurs in the tree, which is once |
| CspBuilding.Compose | src/proxc.c:104-165 | a new node with the arguments as children in their order, all links right, the counter equal to their number and the cursor on the first; the result is an untouched tree |
| CspBuilding.InsertChild | src/csp.c:62-65 | the child is told its parent, linked behind the last child or as the first, and counted; no other link changes |
| CspBuilding.InsertChilds | src/csp.c:47-70 | the loop links the children to their parent and to each other in the order of the arguments, the trees below them being as before, and counts them |
| CspBuilding.BuiltStarts | src/proxc.c:168-206 | what was built is what RUN and GO expect |
| Ordering.RendezvousInOrder | src/chan.c:74-164 | after any run, on any channel that no ALT has received from, the k-th write has met the k-th read, and endQ is the unmatched rest of the longer of the two call sequences, all of one kind, in order |
| Channels.GiveAltKeeps | src/chan.c:61-72 | a write taken by an ALT keeps every write delivered or waiting exactly once, and keeps call order exactly if no other writer waits |
| Channels.GiveReaderKeeps | src/chan.c:74-91 | a write that meets a reader keeps every write delivered or waiting exactly once and the reads served in call order, and the writes in order exactly if they were |
| Channels.QueueWriterKeeps | src/chan.c:93-102 | so does a write that waits, which is never beside a waiting reader |
| Channels.TakeWriterKeeps | src/chan.c:124-142 | a read that meets a writer gets the value written by the least of the write calls that wait, the others waiting on, and keeps the accounts and the order |
| Channels.QueueReaderKeeps | src/chan.c:144-153 | a read that waits keeps the accounts and the order, and is never beside a waiting writer |
| Channels.AltTakeKeeps | src/chan.c:190-211 | an ALT that takes the first waiting writer gets the value written by that call, which is the least of those that wait, and keeps the accounts and the order |
| Alts.AddGuardsMeans | src/alt.c:90-119 | the list of guards holds exactly the active arguments under their argument positions, inactive ones counted, and of the time guards the first with the lowest deadline only |
| Forest.ComposeForest | src/csp.c:47-70 | joining built trees keeps every tree untouched or correctly counted and the trees disjoint |
| Forest.EndForest | src/csp.c:137-196 | the end of a process keeps every tree correctly counted for the processes that have ended, and its leaves accounted for |
| Placement.WritePlaced | src/chan.c:50-113 | after a write each live process is still held in exactly one place, the one of its state |
| Placement.ReadPlaced | src/chan.c:115-164 | after a read each live process is still held in exactly one place, the one of its state |
| Placement.SelectReadyPlaced | src/alt.c:174-205 | so it is after an ALT with a ready guard, which may ready a writer and readies its own process |
| Placement.WaitingPlaced | src/alt.c:200-204 | so it is after an ALT that has to wait |
| Placement.FireGuardPlaced | src/scheduler.c:211-224 | so it is after a time guard was due: its process is readied, last in the queue, exactly if its ALT is still undecided, and no other process is moved |
| Placement.RunPlaced | src/proxc.c:183-206 | so it is after RUN, which readies the first leaves of a tree and makes its caller wait for that tree |
| Placement.EndPlaced | src/proc.c:80-97 | so it is after the end of a process, with all the leaves and the caller of RUN that this readies |
| Choices.WriteChoices | src/chan.c:61-72 | a write keeps every altQ equal to the enabled guards on its channel, and every ALT undecided or decided once with the one value it was given |
| Choices.WaitingChoices | src/alt.c:219-228 | entering an ALT and waiting puts each of its guards into its queue or the timers once, and keeps the same for all others |
| Choices.ResumeChoices | src/alt.c:233-240 | continuing from an ALT keeps every altQ and the timers equal to the enabled guards of the ALTs that are left |
| Choices.FireGuardChoices | src/scheduler.c:211-224 | a time guard that is due decides its own ALT, by itself as the winner, exactly if nothing has, and otherwise no ALT changes; the invariant of queues, timers and outcomes is kept |
| Invariant.StepInv | src/scheduler.c:267-329 | every action of a process and every round of the scheduler keeps the whole invariant |
| Invariant.AlwaysInv | src/scheduler.c:267-329 | at every point of every run each live process is in exactly one place that matches its state and nothing else is anywhere, all trees are as the ended processes say, and each ALT is decided at most once by one of its own guards |
| Ordering.MissedStep | src/chan.c:61-112 | a writer comes to wait although an ALT wants its value exactly at a write that overlooks one behind an accepted one |
| Ordering.NoMissedRendezvous | src/chan.c:61-112 | in a run no rendezvous is ever missed on a channel if and only if no write of the run overlooks an ALT there |
| Ordering.OneAltSuffices | src/chan.c:166-179 | with at most one ALT enabled on the channel no write overlooks one |
| Ordering.OneAltKeepsOrder | src/alt.c:219-237 | in a run with at most one ALT enabled on a channel at every point, no rendezvous is ever missed there and values leave it in the order of the writes |
| Ordering.FifoStep | src/chan.c:50-211 | a step leaves the values of a channel in the order of the writes exactly if they were and the step is not an ALT taking a write past a waiting writer |
| Ordering.ChannelOrder | src/chan.c:50-211 | after any run values have left a channel, and wait there, in the order in which the writes were called, ALTs included, if and only if no write overtook another |
| Ordering.NoMissedKeepsOrder | src/alt.c:219-237 | where no rendezvous is missed, none does |
| Overlooked.CanMissAndOvertake | src/chan.c:61-72 | a run of three processes with two ALTs on a channel in which a rendezvous is missed and order is lost |
| Joining.JoinsExactly | src/csp.c:178-195 | a process waiting in RUN is readied at the step in which the last leaf of its own tree ends, and keeps waiting through every other step |
| Joining.EndTrees | src/csp.c:137-196 | the end of a process changes no tree but its own, which is complete exactly if it was the last of its leaves |
| Joining.RunsInOrder | src/csp.c:72-97 | at every point of every run a leaf of a started tree has been started exactly if all leaves that precede it have ended |
| Joining.TreesProgress | src/csp.c:81-95 | at every point of every run a started tree has a process that has been started and has not ended |
| Launching.ComposeMeans | src/proxc.c:104-165 | the new tree has the leaves of its parts; a SEQ puts all leaves of a part before all of the parts named after it, a PAR adds no precedence; from left to right the parts are in the order in which they were named; the parts are trees no more, and all other trees stay |
| Launching.MakeProcMeans | src/proxc.c:62-96 | a process alone is an unstarted tree of one leaf |
| Launching.LaunchReadies | src/proxc.c:168-206 | RUN and GO append to the ready queue exactly the leaves that no other precedes, each once, from left to right, and record the caller exactly for RUN |
| Launching.EndReadies | src/csp.c:137-196 | an end that leaves its tree unfinished appends to the ready queue exactly the leaves for which it was the last to wait for, from left to right |
| Launching.LastEndReadies | src/csp.c:178-195 | the last end in a tree readies the process that waits for it in RUN and nobody else, and so for a tree started with GO nobody |
| Launching.ComposedRuns | src/proxc.c:104-206 | in any run, a tree composed at one point and started at a later one readies, for PAR, the initial leaves of all its parts and, for SEQ, those of the first, in order |
| Readiness.WaitsExactly | src/alt.c:137-205 | an ALT waits exactly if every active argument is a time or a channel without a waiting writer |
| Readiness.AnyCanWin | src/alt.c:188-197 | every active SKIP and every active channel argument with a waiting writer can be the one chosen |
| Readiness.WinnerCanFire | src/alt.c:174-205 | what is chosen is such an argument; the first writer of a chosen channel is readied and leaves endQ, and then the process itself is queued |
| Readiness.EnabledExactly | src/alt.c:137-154 | an ALT that waits is in the altQ of each of its channels behind what was there, in the order of its arguments, and its earliest time has the first free deadline from its own on |
| Control.ControlStep | src/scheduler.c:272-325 | after each action the process runs on, is last in the ready queue, waits in the state for what it waits for, or is gone, as arguments, endQ, altQ and the states of those in them say |
| Control.WakesExactly | src/chan.c:59-164 | a write readies the ALT at the head of altQ if it still waits, else the reader at the head of endQ; a read the writer there; other calls but ALT, RUN, GO and ends nobody; the calling process follows if it stays ready |
| Control.GivesUp | src/proc.c:143-151 | the processor is given up exactly by the calls that yield |
| Control.TurnExactly | src/scheduler.c:274-298 | at a turn the first of the ready, the due sleepers and the due ALTs gets the processor, and nobody does if there is none |
| Control.StopsExactly | src/scheduler.c:261-272 | something can happen next exactly as long as a process runs, or is left and the scheduler has not been told to exit |
| Control.ExitExactly | src/scheduler.c:306-309 | after any run the scheduler is told to exit exactly if the main process has ended or some process has called proxc_exit |
| Control.ExitStops | src/scheduler.c:258-272 | and then nobody gets another turn |
| Histories.CallsExactly | src/chan.c:50-164 | after any run a channel is open exactly if it was opened, and its history has the values of all write calls on it in their order and the number of its read calls |
| Histories.EndsExactly | src/proc.c:80-97 | after any run the processes that have ended are those that came to their end while they were running |
| Waking.WakeupExact | src/scheduler.c:191-225 | a wakeup appends to the ready queue exactly the due sleepers in the order of their deadlines, then the still undecided ALTs with a due timer, and leaves exactly the later entries |
| Waking.DueExact | src/scheduler.c:202-217 | the deadlines served are all those up to now, in strictly increasing order |
| Waking.GuardsFire | src/scheduler.c:211-224 | each ALT with a due timer is readied once, and only if it was undecided |
| Waking.BoundedBypass | src/scheduler.c:272-305 | from position k of the ready queue a process gets its turn after exactly k other turns, whatever happens in between |
| Deciding.DecidedForGood | src/alt.c:121-135 | in no run is the outcome of an ALT changed once it has one |
| Deciding.TakesOnce | src/alt.c:156-241 | after any run a decided ALT has taken one value under its key from the channel that decided it and nothing from any other channel, and an undecided one nothing at all |
| Deciding.ReturnsPosition | src/alt.c:207-241 | the key that an ALT which had to wait returns is the position of an active argument that waits for the very event that decided it |
| Deciding.ReturnsReady | src/alt.c:188-241 | when some argument can happen at once, the key returned is the position of an active argument that could, and a channel argument has been given the value of the first waiting writer |
| Deciding.LeavesNoTrace | src/chan.c:181-188 | when an ALT is over no altQ and no timer holds one of its guards, and the entries of others are the same in the same order |
| Blocking.WaitsForPartner | src/chan.c:59-164 | a process blocked in a channel goes on waiting exactly until it is the first in endQ and a partner for it arrives |
| Blocking.SleepsUntilDue | src/scheduler.c:191-209 | a sleeper sleeps on exactly until the scheduler runs at or after its deadline |
| Blocking.WaitsForGuard | src/alt.c:121-135 | a process blocked in an ALT goes on waiting exactly until a write finds its guard at the head of an altQ or the scheduler runs when its time guard is due |
| Deciding.TimeDecides | src/scheduler.c:211-224 | a wakeup decides a waiting ALT only by its own timer, and only if that is due |
| Machine.Scheduler.ChanWrite | src/chan.c:50-113 | the method, branch by branch, takes the machine's step for a write |
| Machine.Scheduler.ChanRead | src/chan.c:115-164 | the method, branch by branch, takes the machine's step for a read |
| Machine.Scheduler.CollectGuards | src/proxc.c:245-249 | the loop over the arguments with its remembered time guard yields the list that Alts describes |
| Machine.Scheduler.EnableGuards | src/alt.c:219-225 | the enabling loop leaves queues, timers and the ready list as the machine has them after all guards |
| Machine.Scheduler.DisableGuards | src/alt.c:233-235 | the reverse loop takes back everything that the enabling loop did |
| Machine.Scheduler.DisableWaiting | src/alt.c:233-235 | after the process has waited, the loop removes exactly its own entries, timers that have fired being gone already |
| Machine.Scheduler.AltComplete | src/alt.c:174-186 | for a guard that was ready the panic of chan_altread is not reached |
| Machine.Scheduler.AltSelect | src/alt.c:188-241 | the whole of an ALT up to its yield takes the machine's step, in which a ready ALT leaves no guard enabled; it waits exactly if none of its arguments can happen at once, and otherwise returns the key of one that can, the chosen one |
| Machine.Scheduler.AltResume | src/alt.c:233-240 | the rest of an ALT takes the machine's step and returns the winner's key |
| Machine.Scheduler.WakeUp | src/scheduler.c:191-225 | the two loops take the machine's step |
| Machine.Scheduler.RunBuild | src/csp.c:72-97 | the recursion readies the leaves as the machine does, from left to right |
| Machine.Scheduler.Perform | src/scheduler.c:267-329 | every enabled action, done by these methods, is one step of the machine and keeps the invariant |

## Left out

- Registers, stacks and context switching (src/context.c): a switch is the boundary of a step.
- pthread keys, `sysconf`, `usleep` and `gettimeofday`: one scheduler, and a time that is an argument of the step.
- Failing allocations, debug output and assertions about null; a tree, an ALT or a process always gets its memory. An ALT without an active guard asks for none and then waits forever (src/alt.c:202-216).
- Widths: deadlines are natural numbers, so the wrap-around of 64-bit sums in src/proxc.c:50 and src/proxc.c:221 is not modelled.
- Values are opaque: `_chan_copydata` copies one datum, and the equality of sizes is taken for granted; where a value is stored is seen as a delivery to a read call or to a guard.
- Shutdown through `scheduler_free` and what follows `proxc_exit`: no step is possible after an exit, and the teardown calls csp_parsebuild on unfinished processes (src/scheduler.c:104-108).
- Machine.Scheduler.AltResume: a timer that has left its tree is skipped, where the source removes it a second time (src/alt.c:164).
- Alts.AddGuardsMeans: a superseded time guard leaves the list, where the source frees it but leaves it linked (src/alt.c:108).
- CspBuilding.Compose: asks for at least one child, because an empty PAR or SEQ never completes or has no first child (src/csp.c:81-93).
- Processes, channels and guards are named by numbers in the modules `Runtime` and `Machine`, and their records are values in maps, so aliasing among them is not modelled there; the trees, queues and builder nodes below are modelled on the heap.
- Creating and closing channels beyond opening one, arguments of processes, and the guard constructors (src/proxc.c:208-236).
- The runtime's `sleep` and `altsleep` are maps and its queues are sequences; `SleepTrees` and `Tailqs` show separately that the trees and tail queues behave as those.
- `RB_FIND`, `RB_NFIND`, `RB_NEXT`, `RB_PREV`, splay trees and the other queue families, which the runtime does not use.
- A tree that is run twice, or run while it is part of another, is a misuse by the caller and not a step.
