# Verification of the asynchronous HTTP extension

Two parts of the repository are modelled here and proved correct: the pointer
trees of `include/uv/tree.h`, and the life of an HTTP request across the game
thread and the event thread (`extension.cpp`, `context.cpp`, `natives.cpp`,
`handles.cpp`, `queue.h`). `dafny verify dfyconfig.toml` checks everything.

## The trees

The macros are instantiated once, over an abstract type of keys and any
comparison that is a total order (`Order`). A tree is a class with a mutable
root pointer over nodes whose links and colour are rewritten in place, by
methods that follow the macros statement by statement.

`RbShape` holds the value a red-black tree stands for, with a zipper: a `Path`
leads from a position up to the root, and `Plug` closes it. The rules of the
tree (`RedBlack`: black root, no red-red edge, equal black-height everywhere)
are restated at a position (`Fits`), which is what the two rebalancing loops
need. `Raised` is the invariant of `RB_INSERT_COLOR`: all is well but for a red
node whose parent may be red. `Short` is that of `RB_REMOVE_COLOR`: the subtree
at the position is one black node short. `RbInsertColor` and `RbRemoveColor`
prove what each case of the loops makes of these; `RbRemove` does so for the
node that is taken out and for the exchange with its successor; `RbMemory` ties
values to memory (`Holds`) and proves what the single pointer writes do;
`RbSearch` is about searching, neighbours and height. `RbTree` is the class:
`Valid` says that memory holds, with coherent parent pointers, a red-black tree
of ascending keys over exactly `nodes`, and `Contents` is the sequence of its
nodes in order. Nodes keep their identity, and keys are constant.

`SplayShape` and `SplayTree` do the same for the splay tree. While the splay
loop runs, the elements are in three parts (`Parted`): the working tree at the
root pointer and two partial trees, open at one end, that hang crosswise from
the scratch node. `Split` says that the three in-order sequences still make up
the original one, and that the outer two lie on either side of the key.

`SplayCost` defines the tree that a splay ends with, and its number of rounds, by
recursion, and proves the amortised bound with the usual potential, the sum of
the logarithms of all subtree sizes. The variant of the source, which treats a
change of direction as two single rounds, needs its own argument: a single round
is paid together with the round after it. The class keeps count, in ghost fields,
of all rounds and of the splays and insertions they are for; `Valid` includes
that the count is within what was granted.

## The request lifecycle

`Handles`, `LockedQueue` and `Contexts` hold the classes of the same names,
proved against functions on values (`Allocated`, `Freed`, `Lookup`, `Started`,
`Completed`, `Returned`, `CallsBack` and so on). `Lifecycle` builds a transition
system from those same functions: a `State` has the store of contexts, post
buffers and handles, the three queues with their non-recursive locks, the two
wake-up signals (a second send before the first is taken is lost in it), curl's
set of transfers, the loaded plugins, a program counter for `OnGameFrame`, one
for the native that the game thread is in, and one for the event thread. Plugin
code may run between frames and inside callbacks, with any sequence of natives,
including closing its own or any other handle and starting requests anew, and
plugins may come and go there. A transfer with curl may end at any time with any
result. The history in the state records every start with its outcome.

| actions | code |
|---|---|
| `NewRequest`, `Close`, `Use`, `Start` | `CurlNew`, `Close`, all natives behind the guard, the start natives up to the job lock (natives.cpp:7-120, extension.cpp:224) |
| `LockJob`, `DoPushJob`, `UnlockJob` | `AddCurlJob` (extension.cpp:223-228) |
| `SetOption` to `DoSignalOpt` | `ChangeCurlSettings` (extension.cpp:230-238) |
| `Load`, `Unload` | `PluginsListener` (extension.cpp:267-276) |
| `BeginFrame` to `UnlockDone` | `OnGameFrame` (extension.cpp:54-65), with `Complete` for `OnCurlCompletedGameThread` and `GetSourcepawnFunction` (context.cpp:54-86, extension.cpp:279-284) |
| `TakeAdd` to `EvUnlockJob` | `AsyncAddJobs` (extension.cpp:242-249) |
| `TakeOpt` to `EvUnlockOpt` | `AsyncChangeCurlSettings` (extension.cpp:255-263) |
| `Receive` | `CurlReceiveData` (extension.cpp:137-142) |
| `Finish` to `EvUnlockDone` | `CheckCompletedCurlJobs` with `OnCurlCompleted` (extension.cpp:67-89, context.cpp:89-94) |

`LifecycleInv` has one invariant for each aspect and the proof that every action
keeps it; `LifecycleTheorems` combines them into `Inv`, extends them to runs of
any length, and draws the conclusions about memory and outcomes.
`LifecycleEffects` says of each operation what it does for the plugin that asked
for it, without the functions the transition system is built from.
`LifecycleFootprint` ties the table of contexts that an action touches to the
actions themselves, for reads as well as writes, and proves that actions of the
two threads commute. `LifecycleProgress` is about locks and signals: bounds on
how long a lock is kept and coverage of what was pushed, both for every run;
`LifecycleCompletion` is about frames, and about every request getting to its end.
Corollaries there (`EventReleases`, `GameReleases`, `JobsGetThrough`,
`OptionsGetThrough`) exhibit runs that get to the end.

A comment (context.h:22) says that the event thread compresses post data. The
code does that on the game thread, in `AddCurlJob` before the request is queued
(extension.cpp:224, context.cpp:28-51); the model follows the code.

## Model

| member | source | states |
|---|---|---|
| `RbShape.RotKeeps` | include/uv/tree.h:342-380 | a rotation in either direction loses no node and duplicates none |
| `RbShape.Unplug` | include/uv/tree.h:53-58 | in a tree that keeps all the rules, every subtree and the way up from it keep them locally, with matching black-heights |
| `RbShape.Replug` | include/uv/tree.h:53-58 | conversely, a subtree and a way up that keep the rules locally make a tree that keeps them all |
| `RbSearch.HeightAndSize` | include/uv/tree.h:53-58 | under the rules the height is at most twice the black-height (plus one below a red root), and a tree of black-height h has at least 2^h - 1 nodes |
| `RbSearch.HeightBound` | include/uv/tree.h:60-61 | the documented bound: a red-black tree of n nodes has height h with 2^h <= (n+1)^2, that is h <= 2 lg(n+1) |
| `RbSearch.DepthHeight` | include/uv/tree.h:60-61 | no way up from a position is longer than the tree is high, so climbing loops are within the bound too |
| `RbMemory.TurnedHolds` | include/uv/tree.h:342-380 | the pointer writes of a rotation, at any position of a tree in memory, leave in memory exactly the rotated tree, parent pointers included, and nothing else moved |
| `RbMemory.Unzip` | include/uv/tree.h:320-324 | memory holds a tree seen from any position if and only if it holds the whole tree seen from the root |
| `RbMemory.Attached` | include/uv/tree.h:615-623 | a fresh leaf hung at an empty position gives the tree with that leaf there |
| `RbInsertColor.HasGrandparent` | include/uv/tree.h:411-414 | where the parent is red there is a grandparent, and it is black: the loop of RB_INSERT_COLOR never dereferences NULL |
| `RbInsertColor.PushedOk` | include/uv/tree.h:416-421 | red uncle: recolouring moves the only possible violation two levels up, keeps the black-heights and the order of elements |
| `RbInsertColor.StraightOk` | include/uv/tree.h:422-427 | an inner grandchild can be turned outward without a new violation, in both mirror images |
| `RbInsertColor.SettledOk` | include/uv/tree.h:428-429 | black uncle: after recolouring and rotation the red node has a black parent, with all black-heights and the order as before |
| `RbInsertColor.BlackenedOk` | include/uv/tree.h:448-448 | once no red parent is left, blackening the root gives a tree that keeps all the rules |
| `RbRemoveColor.SiblingExists` | include/uv/tree.h:458-460 | next to a position that is one black short there is a sibling: RB_REMOVE_COLOR never meets a NULL one |
| `RbRemoveColor.LoweredOk` | include/uv/tree.h:460-464 | red sibling: after the rotation the same subtree is still the only short one, its parent is red and its new sibling black |
| `RbRemoveColor.DrainedOk` | include/uv/tree.h:465-471 | black sibling with black children: recolouring it makes the parent's subtree the only short one |
| `RbRemoveColor.LeanedOk` | include/uv/tree.h:473-482 | black sibling with only an inner red child: after the rotation the new sibling is black with a red outer child, and nothing else is amiss |
| `RbRemoveColor.RestoredOk` | include/uv/tree.h:483-489 | black sibling with a red outer child: after recolouring and rotation no subtree is short and no red-red edge is left |
| `RbRemoveColor.EndOk` | include/uv/tree.h:456-528 | when the loop stops at a red node or at the root, blackening it restores all the rules |
| `RbRemove.SplicedOk` | include/uv/tree.h:579-593 | bypassing a node with at most one child keeps all the rules if it was red, and leaves exactly one black node missing there if it was black |
| `RbRemove.SuccessorOut` | include/uv/tree.h:539-578 | replacing a node by its successor takes exactly that node out of the order, and leaves the rules intact, or one black node missing where the successor was, by the successor's colour |
| `RbRemove.Spliced` | include/uv/tree.h:579-590 | the pointer writes that bypass a node leave the tree without it in memory |
| `RbRemove.Transplanted` | include/uv/tree.h:559-570 | the pointer writes that put the successor in the place of the removed node leave the tree with the successor there in memory |
| `RbTree.RbTree.constructor` | include/uv/tree.h:303-308 | a new tree is valid and empty |
| `RbTree.RbTree.ReplaceChild` | include/uv/tree.h:348-354 | of all the nodes only the given parent, or else the root pointer, changes, in the one link that held the element |
| `RbTree.RbTree.RotateLeft` | include/uv/tree.h:342-360 | the heap holds the left-rotated tree at that position, everything around it unchanged |
| `RbTree.RbTree.RotateRight` | include/uv/tree.h:362-380 | the heap holds the right-rotated tree at that position, everything around it unchanged |
| `RbTree.RbTree.SetBlackRed` | include/uv/tree.h:333-336 | the heap holds the same tree with these two nodes recoloured |
| `RbTree.RbTree.PushColor` | include/uv/tree.h:416-421 | the heap holds the tree recoloured for a red uncle, seen from the grandparent |
| `RbTree.RbTree.InsertColorLeft` | include/uv/tree.h:414-429 | one round moves the possible violation strictly up, and keeps the order and everything else in order |
| `RbTree.RbTree.InsertColorRight` | include/uv/tree.h:430-446 | the same for the mirror image |
| `RbTree.RbTree.InsertColor` | include/uv/tree.h:407-449 | rebalancing after an insertion terminates, within as many rounds as the node is deep, with a tree that keeps all the rules and has the same nodes in the same order |
| `RbTree.RbTree.LowerLeft` | include/uv/tree.h:460-464 | the heap holds the tree turned for a red sibling, still seen from the short subtree |
| `RbTree.RbTree.LeanLeft` | include/uv/tree.h:473-482 | the heap holds the tree whose sibling's red child has moved outside |
| `RbTree.RbTree.RestoreLeft` | include/uv/tree.h:483-487 | the heap holds the tree with the missing black node made up for |
| `RbTree.RbTree.RemoveColorLeft` | include/uv/tree.h:458-490 | one round either ends with a tree that keeps the rules, or makes the short position rise, or keeps its depth and meets a red node; the order stays |
| `RbTree.RbTree.LowerRight` | include/uv/tree.h:493-497 | the mirror image of `LowerLeft` |
| `RbTree.RbTree.LeanRight` | include/uv/tree.h:506-515 | the mirror image of `LeanLeft` |
| `RbTree.RbTree.RestoreRight` | include/uv/tree.h:516-520 | the mirror image of `RestoreLeft` |
| `RbTree.RbTree.RemoveColorRight` | include/uv/tree.h:491-523 | the mirror image of `RemoveColorLeft` |
| `RbTree.RbTree.RemoveColor` | include/uv/tree.h:451-528 | rebalancing after a removal terminates, within one round more than the position is deep although a red sibling pushes it down, with a tree that keeps all the rules and has the same nodes in the same order |
| `RbTree.RbTree.Find` | include/uv/tree.h:628-644 | the element with an equal key if there is one, NULL only if there is none, within 2 lg(n+1) comparisons |
| `RbTree.RbTree.NFind` | include/uv/tree.h:646-665 | the least element not below the key, NULL only if all are below it, within 2 lg(n+1) comparisons |
| `RbTree.RbTree.Search` | include/uv/tree.h:604-614 | the search of an insertion ends at the equal element, or at the one empty position that separates the smaller elements from the greater ones, within 2 lg(n+1) comparisons |
| `RbTree.RbTree.Attach` | include/uv/tree.h:615-623 | the heap holds the tree with the new node as a red leaf at that position |
| `RbTree.RbTree.Insert` | include/uv/tree.h:597-626 | refines insertion into an ordered set: an equal element is returned and nothing at all changes; otherwise exactly the new node joins the sequence, at its place, and the tree is valid again; comparisons and rounds of rebalancing are each within 2 lg(n+1) |
| `RbTree.RbTree.Splice` | include/uv/tree.h:579-590 | the heap holds the tree with the node's only subtree in the node's place |
| `RbTree.RbTree.TakePlace` | include/uv/tree.h:559-567 | one node gets all the fields of the other and the pointer that led there; no further node changes |
| `RbTree.RbTree.Transplant` | include/uv/tree.h:559-570 | the heap holds the same tree with one node relinked in place of the other |
| `RbTree.RbTree.RemoveOuter` | include/uv/tree.h:535-594 | taking out a node with at most one child leaves a red-black tree of the same order without it |
| `RbTree.RbTree.RemoveInner` | include/uv/tree.h:539-578 | the same for a node with two children, also when the successor is its own right child |
| `RbTree.RbTree.Remove` | include/uv/tree.h:530-595 | the in-order sequence of nodes is the old one with exactly that node deleted, every other node is still the same object, and the tree is valid again; steps to the successor and rounds of rebalancing are each within 2 lg(n+1) |
| `RbTree.RbTree.Next` | include/uv/tree.h:667-687 | the node that follows in order, NULL after the last, within 2 lg(n+1) steps |
| `RbTree.RbTree.Prev` | include/uv/tree.h:689-709 | the node that precedes in order, NULL before the first, within 2 lg(n+1) steps |
| `RbTree.RbTree.MinMax` | include/uv/tree.h:711-724 | the first or the last node in order, NULL for an empty tree, within 2 lg(n+1) steps |
| `RbTree.RbTree.Foreach` | include/uv/tree.h:738-741 | RB_FOREACH visits every element once, in ascending order |
| `RbTree.RbTree.ForeachSafeRemove` | include/uv/tree.h:748-751 | RB_FOREACH_SAFE with a body that removes the visited element visits every original element once, in ascending order, and ends with an empty valid tree: the saved successor outlives each rebalancing |
| `SplayCost.RoundLinks` | include/uv/tree.h:218-242 | the loop over the three parts builds the tree that the recursive definition of a splay gives, in as many rounds |
| `SplayCost.Double` | include/uv/tree.h:223-228 | a round with a rotation pays for itself out of the fall of the potential, with one round to spare |
| `SplayCost.Zigzag` | include/uv/tree.h:219-239 | two rounds without a rotation, to one side and then to the other, pay for themselves together |
| `SplayCost.Amortised` | include/uv/tree.h:45-51 | rounds of a splay plus twice the growth of the potential are at most 6 lg n + 2, for every tree, every key and the splays to either end |
| `Logs.RankIsLog` | include/uv/tree.h:45-51 | the rank used in these bounds is the logarithm to base two, rounded down |
| `SplayTree.SplayTree.Balance` | include/uv/tree.h:45-51 | the Balance Theorem: on a tree empty at first, m splays and insertions in any order take at most m (6 lg n + 2) rounds in all, n being the most elements there ever were |
| `SplayShape.LiftKeeps` | include/uv/tree.h:87-98 | a rotation at the root keeps the order and the set of nodes |
| `SplayShape.Rotated` | include/uv/tree.h:88-98 | the writes of SPLAY_ROTATE keep the three parts apart and intact in memory |
| `SplayShape.Linked` | include/uv/tree.h:100-110 | the write of SPLAY_LINK through the last node of a partial tree, or through the scratch node they share, moves the root there and damages neither |
| `SplayShape.Closed` | include/uv/tree.h:112-114 | the first two writes of SPLAY_ASSEMBLE close both partial trees, reachable crosswise from the scratch node, even when one or both are empty |
| `SplayShape.WholeKeeps` | include/uv/tree.h:112-117 | the assembled tree has all the nodes of the three parts, each once, left part first, then the working tree, then the right part |
| `SplayShape.SplitLink` | include/uv/tree.h:218-239 | linking after a comparison keeps the partial trees strictly on either side of the key |
| `SplayShape.SplitEnd` | include/uv/tree.h:218-241 | at every exit of the loop the assembled tree has the key, or an element next to where it belongs, at its root |
| `SplayTree.SplayTree.constructor` | include/uv/tree.h:69-74 | a new tree is valid and empty |
| `SplayTree.SplayTree.RotateRight` | include/uv/tree.h:88-92 | the heap holds the working tree with its left child turned up, the other two parts untouched |
| `SplayTree.SplayTree.RotateLeft` | include/uv/tree.h:94-98 | the heap holds the working tree with its right child turned up, the other two parts untouched |
| `SplayTree.SplayTree.LinkLeft` | include/uv/tree.h:100-104 | root and right subtree have joined the right part, the left subtree is the working tree |
| `SplayTree.SplayTree.LinkRight` | include/uv/tree.h:106-110 | root and left subtree have joined the left part, the right subtree is the working tree |
| `SplayTree.SplayTree.Assemble` | include/uv/tree.h:112-117 | the heap holds one tree made of the three parts |
| `SplayTree.SplayTree.RoundLeft` | include/uv/tree.h:219-228 | one round keeps order and separation by the key, and either shrinks the working tree or has reached the end on that side |
| `SplayTree.SplayTree.RoundRight` | include/uv/tree.h:229-239 | the same for the mirror image |
| `SplayTree.SplayTree.Splay` | include/uv/tree.h:209-242 | terminates with the same nodes in the same order and with all elements left of the root below the key and all right of it above; the tree and the number of rounds are those of the recursive definition |
| `SplayTree.SplayTree.Position` | include/uv/tree.h:160-162 | after a splay the root is the element with the key if there is one, else the immediate predecessor or successor of the place where it belongs |
| `SplayTree.SplayTree.Access` | include/uv/tree.h:209-242 | splaying a valid tree leaves a valid tree with the same contents, for one grant of 6 lg n + 2 rounds |
| `SplayTree.SplayTree.Find` | include/uv/tree.h:127-137 | finds the element with an equal key exactly if there is one, brings it to the root, and changes no contents |
| `SplayTree.SplayTree.Inserted` | include/uv/tree.h:173-180 | splitting a splayed tree around the new node puts that node at its place in the order, and the order stays ascending |
| `SplayTree.SplayTree.Hang` | include/uv/tree.h:173-184 | the links written around the new node make it the root over both halves of the splayed tree |
| `SplayTree.SplayTree.Insert` | include/uv/tree.h:164-186 | refines insertion into an ordered set: an equal element is returned and the contents stay; otherwise exactly the new node joins the sequence, at its place |
| `SplayTree.SplayTree.MaximumUp` | include/uv/tree.h:199-202 | the second splay leaves the maximum of the left subtree at its root with no right child, so that the saved right subtree replaces nothing |
| `SplayTree.SplayTree.RemoveRoot` | include/uv/tree.h:196-203 | left and right subtree are joined in order, and only the root is gone, for at most one more grant |
| `SplayTree.SplayTree.Remove` | include/uv/tree.h:188-207 | refines removal from an ordered set: NULL and the same contents if no key is equal; otherwise exactly the element with that key is gone |
| `SplayTree.SplayTree.Next` | include/uv/tree.h:139-151 | the element that follows in order, NULL after the last, with the contents unchanged |
| `SplayTree.SplayTree.EndLeft` | include/uv/tree.h:255-264 | one round towards the first element keeps all elements in order and shrinks the working tree or has reached its leftmost node |
| `SplayTree.SplayTree.EndRight` | include/uv/tree.h:265-274 | the same towards the last element |
| `SplayTree.SplayTree.SplayMinMax` | include/uv/tree.h:244-278 | terminates, for one grant, with the first or the last element at the root and the contents unchanged |
| `SplayTree.SplayTree.MinMax` | include/uv/tree.h:287-290 | SPLAY_MIN and SPLAY_MAX give the first and the last element, NULL for an empty tree |
| `SplayTree.SplayTree.Foreach` | include/uv/tree.h:292-295 | SPLAY_FOREACH visits every element once, in ascending order, although each step restructures the tree |
| `Handles.AllocateOk` | handles.cpp:20-37 | live and recycled numbers stay disjoint, without duplicates and together 1 to next - 1; a live number is never handed out; allocation fails exactly when all numbers below INT_MAX are live |
| `Handles.FreeOk` | handles.cpp:39-46 | freeing keeps that, takes exactly the one number away, and makes it the next to be handed out |
| `Handles.AllocateThenFree` | handles.cpp:20-46 | freeing what was just allocated restores the live numbers, and the same number comes next again |
| `Handles.FreeThenAllocate` | handles.cpp:20-46 | allocating again right after a free restores the whole table |
| `Handles.HandleManager.constructor` | handles.cpp:3-5 | a new table is valid and has no handles |
| `Handles.LookupTracks` | handles.cpp:13-46 | round trip of a lookup: a number leads to the pointer it was allocated for from then until it is freed, to nothing after that, and neither an allocation nor a free changes where any other number leads |
| `Handles.HandleManager.NewHandle` | handles.cpp:20-37 | the table is the allocation of the specification, the result its number or 0, and nothing is deleted |
| `Handles.HandleManager.FreeHandle` | handles.cpp:39-56 | the table is the freeing of the specification, and exactly the pointer of a live curl handle is deleted |
| `LockedQueue.LockedQueue.Pop` | queue.h:29-33 | the oldest item comes out, the others stay in order, and all that ever came out, followed by what is inside, is still all that ever went in |
| `LockedQueue.Drain` | extension.cpp:242-249 | a drain under the lock takes out everything that was queued, once and in the order pushed, so that all that ever went in has come out in that order; it leaves the queue empty and gives the lock back |
| `Contexts.CurlContext.constructor` | context.cpp:5-14 | a new context is not in flight, not closed, and owns no post buffer |
| `Contexts.StartOwns` | context.cpp:29-51 | afterwards the context is in flight and has a post buffer exactly if it had one; of the old buffer and the output of the compression it keeps one and all others are freed, once each; it has one header more exactly for data that was deflated with memory for the line, and nothing else changes |
| `Contexts.EveryBufferFreed` | context.cpp:29-94 | from a start to the return to the game thread every buffer there was or that the compression made is freed, once, and the context is as before but without a buffer |
| `Contexts.CurlContext.OnCurlCompletedGameThread` | context.cpp:54-86 | the callback is called if and only if its function was found and the handle not closed, whatever the result of the transfer, with zero size and status for a failed one; otherwise and only then the handle is freed |
| `LifecycleInv.TableStep` | handles.cpp:13-46 | every action keeps live contexts and live handle numbers in one-to-one correspondence, and every context either live or deleted once |
| `LifecycleInv.LockStep` | extension.cpp:54-89 | every action keeps each lock held by exactly the thread whose program counter is in that critical section |
| `LifecycleInv.PopStep` | queue.h:29-41 | no Pop ever meets an empty queue, and a drain that is about to unlock has an empty queue, under all interleavings |
| `LifecycleInv.FifoStep` | extension.cpp:223-263 | jobs pushed are at all times the jobs that entered curl, then the one in hand, then the queue, in that order; likewise for options |
| `LifecycleInv.DrainStep` | extension.cpp:58-64 | what the done queue held when the lock was taken is at all times what was completed, then the one in hand, then the queue |
| `LifecycleInv.WakeStep` | extension.cpp:230-263 | queued options are always covered by a pending signal, by a drain running or about to run, or by a producer still about to signal |
| `LifecycleInv.WhereStep` | extension.cpp:54-89 | every action keeps each request in flight in exactly one place, once, and each other context in none |
| `LifecycleInv.FlightStep` | context.cpp:29-55 | only a start puts a request in flight, only its completion on the game thread takes it out |
| `LifecycleInv.BufStep` | context.cpp:29-51 | every post buffer ever made is at all times the buffer of exactly one live context, or was freed once |
| `LifecycleInv.PostStep` | context.cpp:89-94 | no context outside flight, and none whose transfer is over, has a post buffer; no context outside flight has a close pending |
| `LifecycleInv.RunStep` | context.cpp:54-86 | each request in flight belongs to one pending start, whose callback (the one given, by `LifecycleEffects.StartMakes`) it carries, whose close it knows of and whose result it has exactly once its transfer is over; a callback that ran was that one, for a handle not closed, and was told that result |
| `LifecycleInv.FinishedSame` | extension.cpp:67-89 | only the end of its transfer and its completion change whether the transfer of a request is over |
| `LifecycleInv.CompleteShape` | context.cpp:54-86 | a completion ends exactly the pending start of the request in hand, by its callback or silently, and touches no other context |
| `LifecycleInv.CountStep` | context.cpp:29-86 | there are always as many pending starts as requests in flight |
| `LifecycleEffects.PluginMay` | natives.cpp:12-120 | plugin code may do everything it can between frames and in callbacks, and only there, one native at a time |
| `LifecycleEffects.NewMakes` | natives.cpp:12-31 | a new request is the plugin's own, idle and empty, with the userdata given, under a number that led nowhere before and now leads to it; without a free number nothing is left of it |
| `LifecycleEffects.StartMakes` | natives.cpp:92-120 | a start of an idle request is recorded pending with the very callback given, is the request's current one and puts it in flight with that callback, its userdata kept, and a post buffer exactly for a compressed post: the copy, or the output of a compression that worked, with its header line if that could be appended |
| `LifecycleEffects.GuardRefuses` | natives.cpp:7-10 | starts and setters do nothing at all to a request in flight or to a number that leads nowhere |
| `LifecycleEffects.UseMakes` | natives.cpp:7-10 | on an idle request a setter takes effect, there and nowhere else |
| `LifecycleEffects.StartPushes` | extension.cpp:223-228 | in every run from a start on, the very request started is the next job pushed, by the time the native has returned |
| `LifecycleEffects.OptionPushes` | extension.cpp:230-238 | in every run from an option change on, the very option given is the next one pushed, by the time the native has returned |
| `LifecycleEffects.FieldStep` | natives.cpp:22-23 | each field of a context changes only by the operation meant for it, on that context, and to what that operation says: bytes add up, the result is that of the transfer |
| `LifecycleEffects.ContextKept` | extension.cpp:137-142 | over every run in which it lives a context keeps plugin, handle and userdata, and has received exactly the bytes that came in |
| `LifecycleEffects.CompleteMakes` | context.cpp:54-86 | a completion calls back if and only if the function was found and the handle not closed, whatever came of the transfer; the context then stays, idle, and otherwise is deleted and its handle leads nowhere; no other context changes |
| `LifecycleEffects.ReportsOwn` | context.cpp:70-83 | from the making of a request to any completion of it, over every run: a callback goes to the plugin that made it, with the number and userdata it was made with and, for a transfer that worked, all bytes that came in since |
| `LifecycleEffects.PluginStep` | extension.cpp:267-276 | a plugin is in the set after an action if and only if the action loaded it, or it was and the action did not unload it |
| `LifecycleEffects.UnloadedQuiet` | extension.cpp:273-284 | after a plugin was unloaded, in every continuation until it is loaded again, neither a start that was pending nor a later one ends in a call of its functions |
| `LifecycleTheorems.StepInv` | extension.cpp:54-263 | every action of either thread keeps all the invariants |
| `LifecycleTheorems.Reached` | extension.cpp:54-263 | all the invariants hold after every run from the start, of any length and interleaving |
| `LifecycleTheorems.OnePlace` | extension.cpp:54-89 | a context is in the job queue, in curl's set, in the done queue or in a thread's hands if and only if it is in flight, and the one the game thread has popped is nowhere else |
| `LifecycleTheorems.NoUseAfterFree` | natives.cpp:33-43 | no action touches a freed context, whatever callbacks close while the done queue is drained; that the contexts named as touched are all an action depends on is `LifecycleFootprint.Ignored` |
| `LifecycleTheorems.NoDoubleFree` | handles.cpp:39-56 | an action deletes at most one context, one never deleted before, which is gone then |
| `LifecycleFootprint.Ignored` | natives.cpp:7-43 | an action neither reads nor writes a context it does not touch: with any other contents there it does the same to everything else and leaves those contents as they are |
| `LifecycleFootprint.DataUnread` | natives.cpp:33-43 | the same for the data of a context, all but its two flags: an action whose data the context is not among neither reads nor writes it, not even `Close`, which may set a flag there |
| `LifecycleFootprint.FlagsUnseen` | extension.cpp:67-89 | no action of the event thread reads or writes `in_event_thread` or `handle_closed` of any context |
| `LifecycleFootprint.Commute` | extension.cpp:54-89 | race freedom: an action of each thread that could both happen now can still happen after the other, and contexts, handles and buffers are the same in either order |
| `LifecycleTheorems.NoDataRace` | natives.cpp:7-10 | no two actions that the two threads could do at the same moment touch the data of the same context, in the sense of `DataUnread` |
| `LifecycleTheorems.HandsOff` | natives.cpp:7-43 | the game thread touches the data of no context that is in the job queue, with curl or in the event thread's hands, in the sense of `DataUnread`; `Close` then sets a flag only, which the event thread never looks at (`FlagsUnseen`) |
| `LifecycleTheorems.HandleOfLive` | natives.cpp:17-22 | the handle stored in a live context leads back to that context, and its number is not the one handed out next |
| `LifecycleTheorems.OutcomeStep` | extension.cpp:279-284 | an outcome once there stays, and so does the result, which only the end of that start's own transfer sets; a callback runs only for the function recorded for that very start, into a plugin in the set of loaded ones (which `LifecycleEffects.PluginStep` pins), not after a close in flight, with the context's handle and userdata, that result, and size and status or zeros |
| `LifecycleTheorems.OneOutcome` | context.cpp:54-86 | over whole runs a start has at most one outcome, never a callback once its handle was closed in flight, and a callback reports the result of that start's own transfer |
| `LifecycleTheorems.Conservation` | context.cpp:54-86 | after every run, starts = requests in flight + callbacks run + silent ends |
| `LifecycleTheorems.CloseInFlight` | natives.cpp:37-38 | closing a request in flight changes nothing but its mark, and in every continuation its start never ends in a callback |
| `LifecycleEffects.CloseIdle` | natives.cpp:39-41 | closing a request that is not in flight deletes its context at once; its number leads nowhere and is the next to be handed out, and no other number or context is affected |
| `LifecycleEffects.CloseNothing` | natives.cpp:34-36 | closing a number that leads nowhere changes nothing |
| `LifecycleTheorems.CloseWaiting` | extension.cpp:60-62 | a request closed while it waits in the done queue that is being drained, as by another request's callback, is freed without a callback before that drain ends, whatever happens meanwhile |
| `LifecycleTheorems.NoBufferLost` | context.cpp:16-20 | a context that natives may work on has no post buffer to overwrite or leak; every buffer was freed, once, or belongs to one request in flight |
| `LifecycleProgress.NoDeadlock` | extension.cpp:54-89 | the two threads never wait for each other, a waiting thread waits for a lock the other holds, and no thread waits for a lock it holds itself |
| `LifecycleProgress.EventProgress` | extension.cpp:67-89 | while the event thread holds a lock it can always go on, in only one way, and that step reduces what is left to do |
| `LifecycleProgress.EventSteady` | extension.cpp:242-263 | while the event thread holds a lock, no action of the game thread takes it away or adds to its work |
| `LifecycleProgress.EventBounded` | extension.cpp:242-263 | in every run, however the threads interleave, the event thread keeps a lock for no more of its steps than the work it has left |
| `LifecycleProgress.EventDrained` | extension.cpp:242-263 | whenever it unlocks after a drain, everything pushed so far has been taken, in the order pushed |
| `LifecycleProgress.DrainProgress` | extension.cpp:58-64 | during the drain in a frame no action of either thread, callbacks included, adds to its work, and each of its own steps reduces it |
| `LifecycleProgress.DrainBounded` | extension.cpp:58-64 | in every run, whatever the callbacks and the event thread do, the drain takes no more steps than the work there is when it begins |
| `LifecycleProgress.DrainExact` | extension.cpp:58-64 | when a drain ends it has completed exactly what the queue held when the lock was taken, in that order; that a frame with finished requests drains is `LifecycleCompletion.FrameDrains` |
| `LifecycleCompletion.FrameLooks` | extension.cpp:54-58 | every frame looks for finished requests, whether or not it had jobs to signal |
| `LifecycleCompletion.FrameDrains` | extension.cpp:58-59 | a frame that finds finished requests goes for the done lock, and the game thread then can do nothing but take it |
| `LifecycleCompletion.FrameForced` | extension.cpp:54-65 | in a frame the game thread has exactly one thing to do at every point, but for the two ways a completion may go and what plugin code does in callbacks |
| `LifecycleCompletion.FrameCompletes` | extension.cpp:54-65 | in every run in which a frame ends, whatever callbacks and the event thread do, every request that was in the done queue when the frame began has been completed |
| `LifecycleCompletion.CanEnd` | extension.cpp:54-89 | no request is ever stuck: from every reachable state, without plugins doing anything, a pending start can be brought to its end, and then it was called back if and only if its function is found and its handle was not closed |
| `LifecycleProgress.GameProgress` | extension.cpp:54-65 | while the game thread holds a lock that the event thread may wait for, it can always go on, whichever requests find their function, and that step reduces what is left to do |
| `LifecycleProgress.GameStep` | extension.cpp:54-65 | every action of the game thread while it holds a lock reduces what is left to do, completions with and without a callback alike, except those that plugin code chooses, which add at most four steps |
| `LifecycleProgress.GameSteady` | extension.cpp:54-65 | while the game thread holds a lock, no action of the event thread takes it away or adds to its work |
| `LifecycleProgress.GameBounded` | extension.cpp:54-65 | in every run, however the threads interleave, the game thread keeps its locks for no more steps than the work it has left and five for each choice of plugin code |
| `LifecycleProgress.FrameSignals` | extension.cpp:54-57 | a frame that begins with jobs queued is bound to signal: the game thread can do nothing else next |
| `LifecycleProgress.SignalStep` | extension.cpp:54-57 | once signalled, the jobs pushed until then stay covered under every action: entered, or a signal pending, or a drain running or about to |
| `LifecycleProgress.SignalStays` | extension.cpp:223-249 | so they stay covered in every run, however signals coalesce |
| `LifecycleProgress.SignalHeard` | extension.cpp:242-249 | when the event thread waits with no signal to take, all jobs covered are with curl, in the order pushed |
| `LifecycleProgress.JobsCovered` | extension.cpp:54-57 | no lost wake-up: from a frame's signal on, in every run, all jobs pushed before it are covered, and with curl, in order, whenever the event thread waits without a signal |
| `LifecycleProgress.OptionsCovered` | extension.cpp:230-263 | whenever the event thread waits and no producer is about to signal, queued options have a signal pending, and without one all options pushed have been applied, in order |

## Left out

- RB_AUGMENT is the default no-op, as in the repository, and the loop that only
  calls it for the ancestors (include/uv/tree.h:571-576) is left out with it.
- RB_FOREACH_FROM and the reverse forms, which are `RbTree.Next`, `RbTree.Prev`
  and `RbTree.MinMax` in loops of the shape proved for the forward forms.
- RbTree.RbTree.ForeachSafeRemove: the loop body is the removal of the visited
  element; other bodies are not modelled.
- SplayTree.SplayTree.SplayMinMax: a direction of 0, with which the source never
  leaves its loop, is excluded.
- SplayTree.SplayTree.Next: the amortised bound covers its splay; the walk to the
  left end of the right subtree that follows (include/uv/tree.h:143-147) is not
  counted.
- The bodies of the macros are divided into methods (one for each case of a
  rebalancing round, one for each round of a splay), and the three copies of the
  code that redirects a parent's link are one method, `ReplaceChild`.
- LockedQueue.LockedQueue.Lock: the class is used by one thread at a time and
  waiting is excluded by its precondition; two threads that wait for each other
  are the subject of the transition system.
- The two threads are modelled on values, as a transition system over the
  functions that the classes are proved against: Dafny has no threads. One
  action is one access to shared state; the unlocked calls of `Empty` are atomic
  reads, so that a torn read of a queue is not captured.
- LifecycleProgress.GameBounded: a callback that goes on calling natives for ever
  keeps the done lock for ever; the bound counts those choices. That the two
  threads are scheduled at all is not stated.
- Contexts.CurlContext.OnCurlStarted: how the compression goes is a parameter;
  its output, and its length, are not modelled.
- The copy of the data for a compressed post is taken to be allocated
  (natives.cpp:102-104 does not check).
- curl is a set of transfers that end at any moment with any result. Adding a
  transfer always succeeds, and options that curl keeps between requests are not
  modelled. The failure of `curl_easy_init` (natives.cpp:13-15) changes nothing
  and is left out.
- Sockets, timers, poll handles and curl's socket callbacks.
- Getters, setters and data copying are one action, `Use`, that touches the data
  of the guarded context; strings, response headers and buffer contents are not
  modelled.
- Loading and unloading the extension, `CleanHandles` and the join of the event
  thread, after which the protocol no longer runs.
- A plugin has a fresh identity each time it is loaded; the reuse of addresses of
  plugin contexts is not modelled.
