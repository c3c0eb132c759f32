# TrianaCloud: a verified model of its protocols and of the library code it ships

TrianaCloud hands tasks from a web service (the Broker) to polling workers over message
queues and collects their results. Its web pages ship jQuery 1.7.1, whose callback lists,
deferreds and selector engine hold the most intricate code of the repository. This project
models four parts of it in Dafny and proves what they promise, for every input and every run.

`dafny verify dfyconfig.toml` checks everything.

## What is modelled

**Callback lists, Deferred and `when`** (`jquery-1.7.1.js`, lines 1004-1336).

* `CallbackSpec` describes a callback list without indices: what the current firing has applied
  (`kept`), what it still has to apply (`pending`), and what has happened so far. A run is any
  sequence of events in which user code may add, remove, fire, disable or lock at any moment,
  so every re-entrant use from inside callbacks is a run. (The model lets user code act also
  between two steps of the loop where JavaScript would not; it has more runs than the code, so
  what holds of its runs holds of the code's.)
* `CallbackRuns` proves the results about all runs, and `CallbackLaws` what each operation does at
  any point of one. `Callbacks` holds the code itself: the array,
  the loop, `remove`'s splicing and its shifting of `firingIndex` and `firingLength`. Every
  method is proved to do to the fields what `CallbackSpec` says, so each object's history is a
  run, and what the history records as applied and answered is what has been called and returned,
  function by function. Any number of lists may be used together: a call of user code carries out
  the next body of a script, any sequence of uses of any of the lists and a result.
* `DeferredSpec` describes a Deferred over index-free lists, `DeferredRuns` proves the results
  about all its runs, and `DeferredProgress` those about its progress list. `JointSpec` puts several lists into one history, in which a function may also
  be one of a Deferred's own, and `JointRuns` proves that the history of three lists wired as
  `jQuery.Deferred` wires them is a run of `DeferredSpec`. `Deferreds` is the object, made of three
  `CallbackList` objects.
* `WhenSpec` and `WhenRuns` add `jQuery.when` over any number of Deferreds, in runs in which the
  firing loops may move in any order. What is proved of all of them holds of the code's runs, which
  are nested: calls are synchronous, so only the innermost loop moves, and user code runs only in the
  function it has called. `WhenNesting` describes these runs and the stack of active loops. `Whens`
  is the code, with the loops run as JavaScript runs them, and its history is a nested run.
* `WhenProgress` says what `when` makes of notifications. `WhenOrder` and `WhenNesting` say which rejection `when` reports: that of the rejected input whose
  fail loop is innermost. It is not always the first. When `B` is rejected by a fail callback that was
  registered with `A` before `when(A, B)`, and `A` is then rejected, `when` rejects with what `B` was
  rejected with; `WhenStory` has that run.

**Task dispatch** (Broker, RPCServer, Receiver, TaskDAO, RPCClient, Worker). `Tasks` has the task
table with its transactions and the insert loop. `DispatchSpec` is a transition system in which
servlets, workers, the server thread and the receiver thread interleave; one method of `TaskDAO`
is one step, so reading a row and saving it are two. Workers and the server may fail at any time.
`DispatchRuns` proves safety in all runs, and conservation in those in which the server does not
fail; `DispatchCode` proves that a turn of each loop is a run of the system.

**Sizzle and Ajax searches** (same jQuery file). `Trees` names a node by its path from the root.
`DocumentOrder`: the comparator and duplicate removal against preorder, with `Sorting` for what
any sorting function does. `CombinatorWalk`: the
memoised walk against the plain one. `NthChild`: the cached numbering against the definition in
section 6.6.5.2 of Selectors Level 3. `Prefilters`: the recursive search through handlers.

**Base64** (`Base64.java`). The loops over preallocated buffers against RFC 4648, both ways.

## What is assumed

* Callbacks return; a thrown exception would leave `firing` set for ever.
* Message bodies pass through an abstract codec. Safety assumes nothing about it; conservation
  assumes that decoding an encoded task gives it back.
* Random identifiers are fresh, table transactions are atomic, and `getNextPending` may choose
  any pending row, since its query has no order.
* A failure-free run is one in which no worker and no server dies and every execution returns a
  decodable result that keeps the identifier. Conservation is also proved for runs in which
  executions throw. The worker's comment that a task whose execution failed should be redone
  (`Worker.java:128`) is not what the code does: such a task is never handed out again, and its row
  leaves SENT only if the receiver gets a result for it (`DispatchRuns.GivenUpForGood`).
* The three-argument `encode` names its last argument `len`; the code uses it as an end index
  (`Base64.java:114`), and so does the model.
* `:nth-child(1n+0)` is answered before the index is looked at, so it accepts also a node without
  parent and a node that is no element; for all nodes that have an index the test is exact.
* The marks the combinator walk and the nth-child test leave on nodes share one property. Both are
  proved right although other searches overwrite them at any time.

## Model

| member | source | states |
|---|---|---|
| CallbackRuns.RunInv | Broker/src/main/webapp/js/jquery-1.7.1.js:1004-1187 | every run, with any re-entrant calls, keeps: the list is in registration order; what the firing has applied plus what waits is what it scheduled minus what was dropped; requests equal begun firings plus waiting ones |
| CallbackRuns.FiringSchedule | Broker/src/main/webapp/js/jquery-1.7.1.js:1046-1124 | what a firing schedules is the list it began with and every registration accepted while it runs, in that order; it drops exactly those removed while still waiting |
| CallbackRuns.FiringExactlyOnce | Broker/src/main/webapp/js/jquery-1.7.1.js:1046-1124 | a firing that ends its loop normally has applied each scheduled and not dropped registration exactly once, in registration order, with its arguments |
| CallbackRuns.FireWithAppliesEachOnce | Broker/src/main/webapp/js/jquery-1.7.1.js:1046-1176 | from fireWith on an idle list to the normal end of its loop, whatever callbacks do, what is applied is the list as it was and all registrations accepted meanwhile, minus exactly those removed while they waited, each once, in order, with its arguments |
| CallbackRuns.EveryFireWithIsCarriedOut | Broker/src/main/webapp/js/jquery-1.7.1.js:1059-1066 | on a repeatable list never locked or disabled, the firings begun are the fireWith calls in the order made, all of them once the list is idle |
| CallbackRuns.OnceFiresOnce | Broker/src/main/webapp/js/jquery-1.7.1.js:1165-1176 | a once list begins at most one firing by fireWith |
| CallbackRuns.UniqueHoldsEachOnce | Broker/src/main/webapp/js/jquery-1.7.1.js:1037-1041 | in unique mode no function is ever in the list twice |
| CallbackRuns.FalseStopsTheFiring | Broker/src/main/webapp/js/jquery-1.7.1.js:1053-1058 | with stopOnFalse nothing is applied between a callback's false and the end of its firing |
| CallbackRuns.DisabledForGood | Broker/src/main/webapp/js/jquery-1.7.1.js:1144-1147 | after disable nothing is ever applied again, in any continuation |
| CallbackRuns.LockedForGood | Broker/src/main/webapp/js/jquery-1.7.1.js:1153-1159 | after lock no fireWith begins a firing, not even one already waiting |
| CallbackLaws.AddAppendsAll | Broker/src/main/webapp/js/jquery-1.7.1.js:1025-1045 | at any point of a run, add puts all its functions behind those in the list, in unique mode those it lacks; a disabled list takes none |
| CallbackLaws.RunRemembers | Broker/src/main/webapp/js/jquery-1.7.1.js:1048-1055 | in every run a list not locked or disabled has its memory unset iff it has never fired; one with memory remembers the arguments of the latest firing exactly if no false has halted it |
| CallbackLaws.RunLatest | Broker/src/main/webapp/js/jquery-1.7.1.js:1059-1066 | the latest firing of an idle repeatable list not locked or disabled is that of the last fireWith of the run |
| CallbackLaws.LateAddFires | Broker/src/main/webapp/js/jquery-1.7.1.js:1076-1092 | functions added to an idle list with memory that has fired and was not halted are called at once, they alone, with the arguments of the latest firing; otherwise nothing is called |
| CallbackLaws.FireWithBegins | Broker/src/main/webapp/js/jquery-1.7.1.js:1165-1176 | on an idle list fireWith begins a firing of the whole list with its arguments, unless the list is locked or is to fire once and has fired |
| CallbackLaws.RemoveTakesOut | Broker/src/main/webapp/js/jquery-1.7.1.js:1095-1124 | after remove, in every phase, a registration is in the list iff it was before and its function was not named; order and the loop's place are kept |
| CallbackLaws.RemovedForGood | Broker/src/main/webapp/js/jquery-1.7.1.js:1095-1124 | no registration made before a remove of its function is applied after it, by the firing under way or by any later one |
| CallbackLaws.EachReturnsOnce | Broker/src/main/webapp/js/jquery-1.7.1.js:1053-1054 | in every run the answers are those of the return events, one for each function applied but the one that is running |
| CallbackLaws.ReturnDecides | Broker/src/main/webapp/js/jquery-1.7.1.js:1054-1057 | a return breaks the loop off iff it is false and stopOnFalse is set, and changes nothing in the list |
| CallbackLaws.NothingAfterFalse | Broker/src/main/webapp/js/jquery-1.7.1.js:1053-1058 | with stopOnFalse there is the end of a firing between any false and any later application |
| CallbackLaws.EndDecides | Broker/src/main/webapp/js/jquery-1.7.1.js:1059-1072 | after the loop a repeatable list holds what it held and the firing that has waited longest begins, of all of it; a once list is empty, and disabled iff it was halted or has no memory |
| Callbacks.CallbackList.constructor | Broker/src/main/webapp/js/jquery-1.7.1.js:1010-1024 | a new list has the empty run as its history |
| Callbacks.FlattenHolds | Broker/src/main/webapp/js/jquery-1.7.1.js:1025-1036 | the functions add finds are exactly those that stand in its arguments, in arrays to any depth |
| Callbacks.CallbackList.Push | Broker/src/main/webapp/js/jquery-1.7.1.js:1025-1045 | appends the functions found in nested arrays, in order, and in unique mode only new ones; afterwards the list holds what it held and every function that stands in the arguments, and nothing else |
| Callbacks.CallbackList.Add | Broker/src/main/webapp/js/jquery-1.7.1.js:1076-1093 | add extends the firing under way, or begins one for the new functions on a list with memory; the history goes on with the add and stays a run, and firings under way in any list go on |
| Callbacks.CallbackList.RemoveOne | Broker/src/main/webapp/js/jquery-1.7.1.js:1101-1120 | splicing while scanning removes exactly the matching elements and leaves firingIndex and firingLength at the same element and end |
| Callbacks.CallbackList.Remove | Broker/src/main/webapp/js/jquery-1.7.1.js:1095-1124 | the array is what it was without the functions named, firing or not; both parts of the list are filtered and the history goes on, so no callback is skipped or repeated |
| Callbacks.CallbackList.Has | Broker/src/main/webapp/js/jquery-1.7.1.js:1126-1137 | true exactly when the list is defined and holds the function |
| Callbacks.CallbackList.Fire | Broker/src/main/webapp/js/jquery-1.7.1.js:1046-1073 | the loop over the callbacks is a run of the list, whatever the callbacks do, and leaves it idle |
| Callbacks.CallbackList.Turn | Broker/src/main/webapp/js/jquery-1.7.1.js:1053-1058 | one function is called, the first waiting one; its answer is the one its body gives, is noted and recorded, and the loop goes on iff it was not false or stopOnFalse is not set |
| Callbacks.CallbackList.ApplyFirst | Broker/src/main/webapp/js/jquery-1.7.1.js:1054 | the first waiting function is called, once, with the arguments of the firing, and answers what its body says |
| Callbacks.CallbackList.Finish | Broker/src/main/webapp/js/jquery-1.7.1.js:1059-1072 | after the loop the history goes on with its end: the next waiting firing begins, or a once list is emptied or disabled |
| Callbacks.CallbackList.EachReturned | Broker/src/main/webapp/js/jquery-1.7.1.js:1053-1054 | on the object too, the answers noted are those the history records, one for each function called but the running one |
| Callbacks.CallbackList.NothingCalledAfterFalse | Broker/src/main/webapp/js/jquery-1.7.1.js:1053-1058 | with stopOnFalse, from a false to the end of the firing nothing more has been called: the last function called is the one that has returned false |
| Callbacks.Program.Call | Broker/src/main/webapp/js/jquery-1.7.1.js:1054 | enters the function the history records last, once, with its arguments, and returns what it returns; whatever user code does to the lists meanwhile, all histories stay runs and every firing under way waits where it is |
| Callbacks.Program.CallUser | Broker/src/main/webapp/js/jquery-1.7.1.js:1054 | the next body of user code is carried out: all its deeds are in the history, in order, and its result is returned |
| Callbacks.Program.CallOwn | Broker/src/main/webapp/js/jquery-1.7.1.js:1276-1281 | a Deferred's own function sets state, disables its list or locks the progress list, and touches nothing else |
| Callbacks.CallbackList.FireWith | Broker/src/main/webapp/js/jquery-1.7.1.js:1165-1176 | fireWith queues its arguments during a firing and otherwise fires, unless the list is locked or has fired once |
| Callbacks.CallbackList.SelfFireWith | Broker/src/main/webapp/js/jquery-1.7.1.js:1165-1176 | the same, as called from the end of a firing |
| Callbacks.CallbackList.Disable | Broker/src/main/webapp/js/jquery-1.7.1.js:1144-1147 | list, stack and memory become undefined |
| Callbacks.CallbackList.Lock | Broker/src/main/webapp/js/jquery-1.7.1.js:1153-1159 | the stack becomes undefined, and the list too when there is no saved value |
| Callbacks.CallbackList.Empty | Broker/src/main/webapp/js/jquery-1.7.1.js:1139-1142 | an idle list becomes empty; stack and memory stay |
| Callbacks.CallbackList.Status | Broker/src/main/webapp/js/jquery-1.7.1.js:1149-1185 | disabled, locked and fired tell the state of the run |
| DeferredRuns.Settling | Broker/src/main/webapp/js/jquery-1.7.1.js:1276-1281 | the first resolve or reject sets the state, disables the opposite list and locks the progress list before any other callback runs |
| DeferredRuns.RunGood | Broker/src/main/webapp/js/jquery-1.7.1.js:1197-1290 | every run of a Deferred keeps: pending and nothing applied, or settled with one list done or firing, the opposite one dead and the progress list locked |
| DeferredRuns.FirstSettlingDecides | Broker/src/main/webapp/js/jquery-1.7.1.js:1270-1281 | state and outcome are those of the first resolve or reject of the run, and pending if there was none |
| DeferredRuns.StateIsFinal | Broker/src/main/webapp/js/jquery-1.7.1.js:1276-1281 | once settled, state and outcome never change in any continuation |
| DeferredRuns.RunRegisters | Broker/src/main/webapp/js/jquery-1.7.1.js:1207-1210 | a list that has not lost holds its own functions and then every function ever passed to it, in order |
| DeferredRuns.SettledCallsEveryCallbackOnce | Broker/src/main/webapp/js/jquery-1.7.1.js:1076-1092 | a settled Deferred calls all callbacks of its kind, registered before, during or after settling, exactly once, in order, with the settling arguments, and none of the other kind |
| DeferredRuns.NotifyAfterSettlingIsIgnored | Broker/src/main/webapp/js/jquery-1.7.1.js:1276-1281 | every application of a progress callback has the arguments of a notify made before settling |
| DeferredProgress.ProgressIsARun | Broker/src/main/webapp/js/jquery-1.7.1.js:1199-1281 | what the acts of a Deferred do to its progress list is a run of a callback list with memory, locked by the act that settles, so all results about runs hold of it |
| DeferredProgress.NotifyCallsEveryProgressCallback | Broker/src/main/webapp/js/jquery-1.7.1.js:1199-1281 | a notify on a pending Deferred whose progress list is idle calls every progress callback registered before or until its firing ends, once each, in order, with its arguments |
| DeferredProgress.LateProgressCallbackIsCalled | Broker/src/main/webapp/js/jquery-1.7.1.js:1076-1092 | a progress callback registered after a notify on a pending Deferred is called at once with the arguments of the last notify |
| JointRuns.ListsAreADeferred | Broker/src/main/webapp/js/jquery-1.7.1.js:1197-1281 | the joint history of three lists wired by own functions, one event at a time, is at every moment a run of the Deferred, whose acts include the own functions |
| JointRuns.BetweenActs | Broker/src/main/webapp/js/jquery-1.7.1.js:1197-1281 | whenever no own function is running or due, the three lists and the state are exactly what the run has made of the Deferred |
| Deferreds.DeferredObject.constructor | Broker/src/main/webapp/js/jquery-1.7.1.js:1197-1281 | three list objects wired by adding own functions are a new Deferred, pending and with no act done |
| Deferreds.DeferredObject.HistoryIsARun | Broker/src/main/webapp/js/jquery-1.7.1.js:1197-1281 | the object's acts are a legal run and its lists and state are what that run leads to, so all results about runs hold of the object |
| Deferreds.DeferredObject.Register | Broker/src/main/webapp/js/jquery-1.7.1.js:1207-1210 | done, fail and progress extend the acts, whatever callbacks do before they return; a settled Deferred keeps state and outcome |
| Deferreds.DeferredObject.Trigger | Broker/src/main/webapp/js/jquery-1.7.1.js:1270-1281 | resolveWith or rejectWith on a pending Deferred settles it with these arguments, and on a settled one changes neither state nor outcome, whatever callbacks do |
| Deferreds.DeferredObject.AllCalled | Broker/src/main/webapp/js/jquery-1.7.1.js:1076-1092 | a settled object whose list is not firing has called its own functions and then all callbacks ever registered of its kind, once, in order, with the settling arguments, and none of the other kind |
| Deferreds.DeferredObject.State | Broker/src/main/webapp/js/jquery-1.7.1.js:1212-1214 | state tells the first resolve or reject among the acts |
| WhenRuns.RunWhenInv | Broker/src/main/webapp/js/jquery-1.7.1.js:1293-1336 | every run of when keeps its registrations with the inputs, its counter, its values and the state of its promise consistent |
| WhenRuns.ResolveCounts | Broker/src/main/webapp/js/jquery-1.7.1.js:1305-1312 | applying a resolveFunc fulfils one more input, and no other, and puts its value in the input's place: all arguments packed if there are several, else the only one |
| WhenRuns.CountIsUnfulfilled | Broker/src/main/webapp/js/jquery-1.7.1.js:1298-1312 | in every reachable state, during the scan too, count is the number of inputs not yet fulfilled |
| WhenRuns.ResolvedMeansAllResolved | Broker/src/main/webapp/js/jquery-1.7.1.js:1305-1331 | if the promise is resolved, all inputs are, and its values are in argument order what they were resolved with: several arguments as an array, a single one as it is |
| WhenRuns.WhenSettlesExactly | Broker/src/main/webapp/js/jquery-1.7.1.js:1321-1336 | once no input is firing the promise is resolved iff all inputs are, rejected iff some input is, and then with the rejection it was told of first |
| WhenOrder.FirstRejectedIsHeard | Broker/src/main/webapp/js/jquery-1.7.1.js:1321-1325 | the input named first by the run is rejected and waited for, and there is none iff no such input is rejected |
| WhenOrder.FirstRejectionWins | Broker/src/main/webapp/js/jquery-1.7.1.js:1321-1325 | in every run in which no two inputs were rejected with different arguments before when was told of a rejection, a rejected promise has the arguments of the input rejected first |
| WhenNesting.RunStack | Broker/src/main/webapp/js/jquery-1.7.1.js:1046-1073 | in every run from a call of when on, the stack holds exactly the active loops, each once |
| WhenNesting.StackStep | Broker/src/main/webapp/js/jquery-1.7.1.js:1046-1073 | a step of a nested run takes at most the innermost loop off the stack and puts at most one on it |
| WhenNesting.InnermostIsReported | Broker/src/main/webapp/js/jquery-1.7.1.js:1321-1325 | in every nested run in which inputs are rejected, when has not been told, and no other input is rejected before it is, it rejects with what the input whose fail loop is innermost was rejected with |
| WhenNesting.FirstRejectionWinsExactly | Broker/src/main/webapp/js/jquery-1.7.1.js:1321-1325 | in these runs the first rejection is the one reported iff the innermost one has the same arguments |
| WhenNesting.InnermostWillBeReported | Broker/src/main/webapp/js/jquery-1.7.1.js:1053-1073 | once when has returned, the loops alone, innermost first, come to tell it, and it reports the innermost rejection |
| WhenStory.FirstRejectionCanLose | Broker/src/main/webapp/js/jquery-1.7.1.js:1321-1325 | a nested run in which a fail callback of the first input rejects the second one: the promise is rejected with the second's arguments |
| WhenRuns.WhenSettlesOnce | Broker/src/main/webapp/js/jquery-1.7.1.js:1293-1336 | the promise settles at most once and keeps its outcome in every continuation |
| WhenProgress.RunHearsProgress | Broker/src/main/webapp/js/jquery-1.7.1.js:1321-1327 | in every run the progress list of an input that can still fire has the progressFunc of every argument scanned that is this input, once, and of no other |
| WhenProgress.ProgressNotifies | Broker/src/main/webapp/js/jquery-1.7.1.js:1314-1319 | a progressFunc puts its value in its argument's place and in no other, and notifies with the values of all |
| Whens.WhenCall.constructor | Broker/src/main/webapp/js/jquery-1.7.1.js:1294-1303 | the variables start with the count at the number of arguments, called inside any loops that are active |
| Whens.WhenCall.ScanArguments | Broker/src/main/webapp/js/jquery-1.7.1.js:1321-1331 | the loop over the arguments, with what each registration begins run to its end before the next, and the final test are a nested run, and no loop they began is left active |
| Whens.WhenCall.ResolveFunc | Broker/src/main/webapp/js/jquery-1.7.1.js:1305-1312 | stores the value, counts down and resolves at zero |
| Whens.WhenCall.ProgressFunc | Broker/src/main/webapp/js/jquery-1.7.1.js:1314-1319 | puts the value in its place, several arguments as an array, and notifies with all values |
| Whens.WhenCall.InputCalls | Broker/src/main/webapp/js/jquery-1.7.1.js:1305-1325 | the next function of an input's list is called; when's own have exactly the effect the run prescribes |
| Whens.WhenCall.RunLoop | Broker/src/main/webapp/js/jquery-1.7.1.js:1053-1058 | a loop runs to its end, whatever user code does in it, as a nested run; the loops outside have not moved |
| Whens.WhenCall.RunUser | Broker/src/main/webapp/js/jquery-1.7.1.js:1054 | the next body of user code is carried out, all its deeds in order, as a nested run, and every loop it begins has ended when it returns |
| Whens.WhenFew | Broker/src/main/webapp/js/jquery-1.7.1.js:1300-1333 | with one argument or none, a promise is handed back and anything else gives a Deferred resolved with the arguments |
| Tasks.TaskDAO.Create | Utils/src/main/java/org/trianacode/TrianaCloud/Utils/TaskDAO.java:38-48 | adds the row |
| Tasks.TaskDAO.GetNextPending | Utils/src/main/java/org/trianacode/TrianaCloud/Utils/TaskDAO.java:115-134 | None exactly when no row is pending; else some pending row, now SENT in the table and in the result |
| Tasks.TaskDAO.GetByUUID | Utils/src/main/java/org/trianacode/TrianaCloud/Utils/TaskDAO.java:143-156 | the row with the identifier, if there is one |
| Tasks.TaskDAO.Save | Utils/src/main/java/org/trianacode/TrianaCloud/Utils/TaskDAO.java:99-108 | overwrites the whole row |
| Tasks.InsertTasks | Broker/src/main/java/org/trianacode/TrianaCloud/Broker/Broker.java:172-185 | inserts a row for each of the first numTasks identifiers, none when the number is not positive, and lists them; each row has its identifier and the data submitted, pending and with nothing returned, and old rows stay |
| Tasks.InsertedRows | Broker/src/main/java/org/trianacode/TrianaCloud/Broker/Broker.java:79-87 | inserting only adds rows, each with its identifier and the data submitted, pending and with nothing returned |
| Tasks.ParseOfRequests | Broker/src/main/java/org/trianacode/TrianaCloud/Broker/RPCServer.java:125-143 | the requests clients build are recognised as what they are |
| Tasks.OtherRequests | Broker/src/main/java/org/trianacode/TrianaCloud/Broker/RPCServer.java:122-167 | a request that is too short or names no known method is neither |
| DispatchRuns.StepForward | Utils/src/main/java/org/trianacode/TrianaCloud/Utils/TaskDAO.java:99-134 | no step removes a row, moves its state back or changes its payload |
| DispatchRuns.RunSafe | Broker/src/main/java/org/trianacode/TrianaCloud/Broker/RPCServer.java:111-177 | every run over every interleaving keeps the safety invariants of rows, copies, replies and correlation ids |
| DispatchRuns.StateNeverMovesBack | Utils/src/main/java/org/trianacode/TrianaCloud/Utils/TaskDAO.java:115-134 | from any point of any run on, a row stays and its state never moves backwards in PENDING, SENT, COMPLETE |
| DispatchRuns.SubmittedIsHandedOut | Broker/src/main/java/org/trianacode/TrianaCloud/Broker/RPCServer.java:128-141 | in every run a row keeps the data it was submitted with, and the GET_TASK reply that hands it out carries a task with its identifier and that data |
| DispatchRuns.EachTaskHandedOutOnce | Broker/src/main/java/org/trianacode/TrianaCloud/Broker/RPCServer.java:128-141 | over every interleaving, redelivery included, each task is in at most one GET_TASK reply |
| DispatchRuns.CallReturnsItsOwnReply | Utils/src/main/java/org/trianacode/TrianaCloud/Utils/RPCClient.java:75-96 | the bytes call returns are a reply the server built for that very request of that client |
| DispatchRuns.CompleteRowsFromOneMessage | Broker/src/main/java/org/trianacode/TrianaCloud/Broker/Receiver.java:115-129 | the four return fields of a complete row come from one message addressed to it, though two writers interleave |
| DispatchRuns.RedeliveredReturnChangesNothing | Broker/src/main/java/org/trianacode/TrianaCloud/Broker/RPCServer.java:143-158 | a return message redelivered at once after its row was saved, before or after the reply was published, is processed again and changes no row |
| DispatchRuns.RunSteady | Worker/src/main/java/org/trianacode/TrianaCloud/Worker/Worker.java:88-139 | every run in which the server does not fail, while executions may, keeps: each conversation is in one place and awaited, and copies of rows are conserved but for the tasks given up |
| DispatchRuns.ConsumeMatches | Utils/src/main/java/org/trianacode/TrianaCloud/Utils/RPCClient.java:87-93 | in a failure-free run the reply a worker takes is the one it waits for |
| DispatchRuns.NoTaskIsLost | Broker/src/main/java/org/trianacode/TrianaCloud/Broker/RPCServer.java:111-177 | in a failure-free run a row is pending with no copy, complete, or SENT with exactly one copy in a reply, a worker or a return message; the server never gets stuck |
| DispatchRuns.FatesOfATask | Worker/src/main/java/org/trianacode/TrianaCloud/Worker/Worker.java:88-139 | when executions fail too, a SENT row has exactly one copy, or it was given up and has none, and a pending one has neither been given up nor handed out |
| DispatchRuns.GivenUpForGood | Worker/src/main/java/org/trianacode/TrianaCloud/Worker/Worker.java:127-137 | a task whose execution failed is nowhere, in no later reply, and its row changes only if the receiver stores a result for it |
| DispatchRuns.NoDeadlock | Utils/src/main/java/org/trianacode/TrianaCloud/Utils/RPCClient.java:75-96 | while there is a worker, workers and server together can always go on, without help from servlets or the receiver |
| DispatchRuns.NothingInFlightNothingSent | Worker/src/main/java/org/trianacode/TrianaCloud/Worker/Worker.java:88-139 | when nothing is in flight every row is pending or complete |
| DispatchRuns.RemainingFalls | Broker/src/main/java/org/trianacode/TrianaCloud/Broker/RPCServer.java:128-158 | twice the pending rows plus the sent ones never grows without inserts, falls by one with each task handed out and by what its row counted with each result |
| DispatchCode.RPCServer.Serve | Broker/src/main/java/org/trianacode/TrianaCloud/Broker/RPCServer.java:111-177 | a turn of the loop is a run of the system that answers and acknowledges, exactly for a GET_TASK and for a RETURN_TASK that is NOTASK or names a known row; otherwise table, replies and delivery stay untouched |
| DispatchCode.RPCServer.ServeGet | Broker/src/main/java/org/trianacode/TrianaCloud/Broker/RPCServer.java:128-141 | the GET_TASK branch publishes one reply: NOTASK iff no row is pending, else some pending row, which becomes SENT while the rest of the table stays |
| DispatchCode.RPCServer.ServeReturn | Broker/src/main/java/org/trianacode/TrianaCloud/Broker/RPCServer.java:142-166 | the RETURN_TASK branch completes exactly the row named, with all four return fields, and answers; it does neither exactly for an unknown identifier |
| DispatchCode.Receive | Broker/src/main/java/org/trianacode/TrianaCloud/Broker/Receiver.java:106-129 | a turn of the receiver's loop is a run; it completes the row of a known identifier with a decodable result, and changes nothing otherwise |
| DispatchCode.Cycle | Worker/src/main/java/org/trianacode/TrianaCloud/Worker/Worker.java:91-137 | a cycle of the worker's loop is a run: the message is the executor's result or the NOTASK task, and there is none exactly when decoding failed or execution threw, which gives up the task |
| DispatchCode.AwaitReply | Utils/src/main/java/org/trianacode/TrianaCloud/Utils/RPCClient.java:87-95 | skips to the first reply with the request's correlation id |
| Trees.ChildOf | Broker/src/main/webapp/js/jquery-1.7.1.js:4679-4683 | the k-th child of a node exists iff the node has more than k children |
| DocumentOrder.LexIsDocumentOrder | Broker/src/main/webapp/js/jquery-1.7.1.js:4830-4888 | for nodes of one tree, order of paths is order in the preorder listing |
| DocumentOrder.PreorderNodes | Broker/src/main/webapp/js/jquery-1.7.1.js:4830-4888 | the preorder listing holds exactly the nodes of the tree |
| DocumentOrder.PrecedesIsBefore | Broker/src/main/webapp/js/jquery-1.7.1.js:4830-4888 | a node precedes its descendants, and nodes that part somewhere are in the order of the branches they take there |
| DocumentOrder.LexTotal | Broker/src/main/webapp/js/jquery-1.7.1.js:4830-4888 | the order is irreflexive, antisymmetric and total |
| DocumentOrder.LexTransitive | Broker/src/main/webapp/js/jquery-1.7.1.js:4830-4888 | the order is transitive |
| DocumentOrder.SiblingCheck | Broker/src/main/webapp/js/jquery-1.7.1.js:4890-4906 | the walk to the right decides which sibling comes first |
| DocumentOrder.Ancestors | Broker/src/main/webapp/js/jquery-1.7.1.js:4862-4872 | collects the ancestors, root first |
| DocumentOrder.WalkDown | Broker/src/main/webapp/js/jquery-1.7.1.js:4874-4887 | the first discrepancy of the ancestor lists, or their end, decides correctly |
| DocumentOrder.SortOrder | Broker/src/main/webapp/js/jquery-1.7.1.js:4830-4888 | negative iff the first node precedes the second in preorder, zero with the flag iff they are the same |
| Sorting.EqualNeighboursMeet | Broker/src/main/webapp/js/jquery-1.7.1.js:4036-4038 | whatever the engine's way of sorting is, it compares equal elements wherever it leaves equal neighbours, so the flag is set |
| DocumentOrder.Sort | Broker/src/main/webapp/js/jquery-1.7.1.js:4036 | any sorting function, run on the nodes with the comparator, leaves the same nodes in document order, with the flag set if there are equal neighbours |
| DocumentOrder.UniqueSort | Broker/src/main/webapp/js/jquery-1.7.1.js:4033-4048 | strictly increasing in document order with the same set of nodes |
| CombinatorWalk.NearestIsFirstMatch | Broker/src/main/webapp/js/jquery-1.7.1.js:5211-5250 | the plain walk finds the first match along the way |
| CombinatorWalk.NearestIsFalse | Broker/src/main/webapp/js/jquery-1.7.1.js:5211-5250 | the plain walk finds nothing only if nothing matches |
| CombinatorWalk.WantedAnswers | Broker/src/main/webapp/js/jquery-1.7.1.js:5211-5250 | an entry becomes the nearest ancestor, or preceding sibling, that the selector part accepts (or true, when a given node is looked for), and False iff there is none |
| CombinatorWalk.Walk | Broker/src/main/webapp/js/jquery-1.7.1.js:5220-5245 | the memoised walk from one entry finds what the plain one finds and leaves only right marks |
| CombinatorWalk.DirWalk | Broker/src/main/webapp/js/jquery-1.7.1.js:5178-5250 | with a fresh name every entry of checkSet becomes the nearest accepted node in its direction or False, as the plain walk gives, in XML or not, and though filtering overwrites marks |
| NthChild.PassesIffAnPlusB | Broker/src/main/webapp/js/jquery-1.7.1.js:4688-4695 | the remainder and quotient test holds iff the index is a·n+b for some n at least 0, for all signs |
| NthChild.TrueIndexCounts | Broker/src/main/webapp/js/jquery-1.7.1.js:4676-4686 | the number a child is to hold is how many element children its parent has up to it |
| NthChild.Numbering.NumberChildren | Broker/src/main/webapp/js/jquery-1.7.1.js:4676-4686 | numbers all element children and keeps every number on any node right |
| NthChild.Numbering.Nth | Broker/src/main/webapp/js/jquery-1.7.1.js:4665-4695 | on any cache left by earlier queries an element with a parent passes iff it and the elements before it under that parent are a·n+b in number, for some n at least 0 |
| Prefilters.Search.CallHandler | Broker/src/main/webapp/js/jquery-1.7.1.js:6953 | the handler called had not been called before |
| Prefilters.Search.Turn | Broker/src/main/webapp/js/jquery-1.7.1.js:6952-6965 | one turn calls one handler and follows its redirection to a type not yet inspected |
| Prefilters.Search.Inspect | Broker/src/main/webapp/js/jquery-1.7.1.js:6939-6975 | the recursive search terminates for all tables and answers and calls no handler twice |
| Prefilters.InspectAll | Broker/src/main/webapp/js/jquery-1.7.1.js:6939-6975 | a prefilter search calls each handler of the inspected types exactly once, inspects exactly the closure under naming, and puts the types named in front of the options' own; a transport search selects the first choice and leaves the types |
| Prefilters.SelectedSelects | Broker/src/main/webapp/js/jquery-1.7.1.js:6966-6975 | a transport search selects what the first handler of the type to choose has chosen, else the first of the catch-all's, and nothing iff none chooses |
| Base64.DecodeTable | Utils/src/main/java/org/trianacode/TrianaCloud/Utils/Base64.java:43-48 | the table inverts the alphabet and holds 127 elsewhere |
| Base64.AlphabetIsTable1 | Utils/src/main/java/org/trianacode/TrianaCloud/Utils/Base64.java:31-48 | the alphabet is Table 1 of RFC 4648, letter by letter, the padding the equals sign, and the table inverts it |
| Base64.EncodeRange | Utils/src/main/java/org/trianacode/TrianaCloud/Utils/Base64.java:109-140 | encodes the bytes from off up to the end index len, within the output buffer |
| Base64.EncodeLength | Utils/src/main/java/org/trianacode/TrianaCloud/Utils/Base64.java:109-140 | four characters for each three bytes or part of three |
| Base64.EncodeIsRfcText | Utils/src/main/java/org/trianacode/TrianaCloud/Utils/Base64.java:102-140 | the encoding is, bit by bit, the text of section 4 of RFC 4648, with the letters of its Table 1 and the bytes in two's complement |
| Base64.DecodeReadsRfcText | Utils/src/main/java/org/trianacode/TrianaCloud/Utils/Base64.java:50-71 | decoding the text of section 4 of RFC 4648 gives the bytes |
| Base64.AcceptedIsTable1 | Utils/src/main/java/org/trianacode/TrianaCloud/Utils/Base64.java:55-57 | what decoding does not skip are the characters of Table 1 and the equals sign |
| Base64.GroupTakesBits | Utils/src/main/java/org/trianacode/TrianaCloud/Utils/Base64.java:73-97 | four characters decode to the bytes with their bits; before padding the bits that make no whole byte are dropped, whatever they are |
| Base64.Decode0 | Utils/src/main/java/org/trianacode/TrianaCloud/Utils/Base64.java:73-97 | decodes one group into the output buffer |
| Base64.DecodeText | Utils/src/main/java/org/trianacode/TrianaCloud/Utils/Base64.java:50-71 | on any text all accesses are within the buffers, and the result is the decoding of the kept characters group by group |
| Base64.DecodeEncode | Utils/src/main/java/org/trianacode/TrianaCloud/Utils/Base64.java:50-140 | decoding an encoding gives the bytes back |
| Base64.EncodeDecode | Utils/src/main/java/org/trianacode/TrianaCloud/Utils/Base64.java:50-140 | encoding the decoding of a canonical text (section 3.5 of RFC 4648) gives the text back |
| Base64.NoiseIsIgnored | Utils/src/main/java/org/trianacode/TrianaCloud/Utils/Base64.java:55-65 | a character outside alphabet and padding changes nothing wherever it stands |
| Base64.DecodeConcat | Utils/src/main/java/org/trianacode/TrianaCloud/Utils/Base64.java:55-65 | decoding distributes over concatenation at a group boundary |
| Base64.IncompleteGroupIsDropped | Utils/src/main/java/org/trianacode/TrianaCloud/Utils/Base64.java:59-70 | an incomplete last group is dropped |

## Left out

- Callbacks.CallbackList.Empty: only for an idle list. During a firing `empty` leaves `firingLength` as it was, so the loop reads past the end of the new array and throws.
- Callbacks that throw: `firing` then stays set and the list never fires again.
- Whens.WhenCall.constructor: two arguments or more; `Whens.WhenFew` is the rest.
- Whens.WhenCall: what a user function returns is ignored, since the lists of a Deferred ignore it. The inputs and the returned Deferred are values of `DeferredSpec` in it, not objects of `Deferreds`; that `args` and `pValues` are handed to callbacks by reference is not captured.
- `when` on promises not made by jQuery, which promise nothing.
- `pipe`, `promise(obj)`, `then` and `always`: wrappers that register callbacks.
- Tasks.TaskDAO.Create: requires an identifier not in the table; identifiers are random UUIDs.
- Tasks.TaskDAO.Save: requires the row to exist; rows are never deleted in the model (`delete`, `get` and `list` are not used by the protocol).
- Interleaving inside one transaction, session caching and rollback: a transaction is one step.
- Order of delivery: queues are sets, so nothing is said about which waiting request is served first.
- Progress after a delivery that throws: with one unacknowledged delivery allowed, the server never gets another, and `NoTaskIsLost` shows that failure-free runs avoid this. A worker that fails while it waits for a reply is covered by the safety results only.
- The executors, process launching, class loading, MD5, the web pages and the HTML writing.
- DocumentOrder.SortOrder: the branch that uses `sourceIndex`, and nodes of different trees, for which the code's answers are not antisymmetric.
- DocumentOrder.UniqueSort: the engine's sorting function is a parameter, a tree of comparisons that sorts every array of numbers of that length; comparing is all it does with the nodes.
- CombinatorWalk.DirWalk: one method for `dirCheck` and `dirNodeCheck`, which differ in what matches.
- Parsing of the `an+b` text into coefficients, and the other cases of the CHILD filter.
- Prefilters.InspectAll: handlers do not change the table during a search, and the set of inspected types has none of the names every JavaScript object inherits (such as "constructor").
- Base64.EncodeRange: arguments outside the array, on which the code throws.
- The rest of jQuery.
