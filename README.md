# fpersist, modelled in Dafny

fpersist is a small key-value store for Node.js. Each key's value lives in
its own file in a persistence directory. The file is named by the md5 digest
of the key and holds the JSON text `{key, value}`. A `Storage` instance gives
each key its own queue: `editItem` (read, apply a caller's edit function,
write), `getItem` and `deleteItem` join the key's queue and run one after
another in submission order. Actions on different keys run independently.
`clear` deletes every file in the directory, and `close` refuses further
work and waits for the queues to drain.

The model has five modules:

- `Values` (values.dfy): keys, JSON values, `undefined`, and the errors a promise can reject with.
- `FileSystem` (filesystem.dfy): the record layer of `filesystem.js`.
  - The specification functions `GetFilePath`, `ReadData`, `WriteFile`, `UnlinkFile` and `ClearDirectory` work over a map from paths to file contents. Lemmas about them come with these functions.
  - The class `FileStore` holds the files. Its methods `WriteData`, `DeleteData` and `DeleteDirectoryContents` change the files in place and are proved against those functions. The last one loops over the directory entries.
- `KeyQueue` (keyqueue.dfy): the per-key queues as values.
  - A key's promise chain is written out as the sequence of its pending actions, head first.
  - Each action carries a ticket: the identity of the promise its caller holds, and of the tail that `queueForKey` stores.
  - An event-trace model (enqueue events and run events for any keys, in any interleaving) gives per-key FIFO and the drain property that `close` relies on.
- `FPersist` (fpersist.dfy): the actions and the `Storage` class of `index.js`.
  - `Perform` states what one action does to the files and what its caller receives.
  - `Storage` keeps `closed`, `queueForKey`, the chains, the next ticket and the settled outcomes. `EnqueueForKey` installs the new tail. `Step` runs the head of one key's chain and then performs the cleanup test of the source. `Clear` and `Close` handle the lifecycle.
- `Scenarios` (scenarios.dfy): clients that build a fresh store and drive it.
  - It includes the round trip of the repository's test: store John aged 30, read him back, update him to 31, read him back, close.

The scheduler of promises is replaced by explicit calls to `Step(key)`.
`Step` may be called for any key with pending work, in any order. Each run of
an action is one atomic step. `ActionsOnDifferentFilesCommute` shows that
actions on different files give the same results in either order, so for
actions on different files running each as one atomic step loses nothing.
Actions on one file do not overlap in the source either, except for keys
whose digests collide and for `clear` (see "Left out").

Every operation goes through `verifyNotClosed`, reads included. The message
it throws speaks of edits (index.js:35), but `close` is documented to refuse
any more operations (index.js:123), and the model follows the code: a
`getItem` after close is refused too.

`queueForKey` is a plain object (index.js:20). For a key that names one of
the members every object inherits (`toString`, `constructor`, `__proto__`,
...), the test at index.js:43 finds that inherited function, so no queue is
created, and calling `.then` on it at index.js:47 throws a TypeError. Such
keys are therefore refused by every queued operation, queueing and writing
nothing (`InheritedKeyError`).

A write that fails may do so after `fs.writeFile` has truncated the file.
The model lets a failed write leave either the old file or text that does
not parse, so a later read of that key rejects instead of returning the old
value.

## Model

| member | source | states |
|---|---|---|
| FileSystem.GetFilePath | filesystem.js:9-11 | the path is in the persistence directory and is a function of the key's digest alone |
| FileSystem.SameFileIffSameDigest | filesystem.js:9-11 | two keys map to the same file exactly when their digests are equal; md5 is not assumed injective |
| FileSystem.ReadData | filesystem.js:45-65 | rejects exactly when the file cannot be read (an error other than ENOENT) or does not parse, and then only with those errors; a missing file reads as the default; otherwise the record's value field |
| FileSystem.WriteThenReadRoundTrip | filesystem.js:67-79 | with JSON.stringify, reading a key just written gives the written value back |
| FileSystem.StringifyIsInjective | index.js:18 | what the default serialiser writes always parses back to the record, and distinct records give distinct contents |
| FileSystem.WriteFile | filesystem.js:67-79 | a write succeeds exactly when the path does not fail, and the file then holds the serialised record; a failed write rejects with the I/O error and leaves the old file or text that does not parse; no other file changes |
| FileSystem.FailedWriteLeavesOldValueOrParseError | filesystem.js:71-74 | after a failed write the key reads either as before or as a parse error, never as some other record, and no other file changes |
| FileSystem.UnlinkFile | filesystem.js:81-93 | a delete succeeds exactly when the path does not fail, and the file is then gone; a failure rejects and changes nothing; no other file changes |
| FileSystem.ClearDirectory | filesystem.js:38-43 | a clear rejects only with the I/O error; it removes only files of the directory whose unlink does not fail, and changes no file's content |
| FileSystem.WriteLeavesOtherFilesAlone | filesystem.js:67-71 | a write does not change what a key stored in another file reads as |
| FileSystem.CollidingKeysShareARecord | filesystem.js:9-11 | keys with colliding digests share one file, so a write under one is read under the other |
| FileSystem.DeleteMissingSucceeds | filesystem.js:84-90 | deleting a file that does not exist succeeds and changes nothing |
| FileSystem.DeleteThenReadIsDefault | filesystem.js:81-93 | after a delete the key reads as the caller's default, and a second delete is a successful no-op |
| FileSystem.ClearEmptiesDirectory | filesystem.js:38-43 | a clear succeeds exactly when every entry can be unlinked; it then leaves the directory empty, foreign entries included; other directories keep their files; no file gains content |
| FileSystem.ClearThenReadIsDefault | filesystem.js:38-43 | after a successful clear every key reads as its default |
| FileSystem.FileStore.WriteData | filesystem.js:67-79 | the file store changes exactly as `WriteFile` states: the key's file holds the serialised `{key, value}`, or the write rejects leaving the old file or unparsable text behind |
| FileSystem.FileStore.DeleteData | filesystem.js:81-93 | the key's file is gone; ENOENT counts as success; any other error rejects and nothing changes |
| FileSystem.FileStore.DeleteDirectoryContents | filesystem.js:38-43 | every entry that can be unlinked is removed, even when another fails; the result rejects if any failed |
| KeyQueue.Pushed | index.js:43-56 | the new action is the key's tail, behind the previous tail; other keys' queues are unchanged |
| KeyQueue.Popped | index.js:47-54 | the head is retired; the key keeps its entry exactly when more work is pending; other keys are unchanged |
| KeyQueue.Untracked | index.js:50-54 | the key's entry is removed exactly when the stored tail is the action that settled; every other entry is kept as it was |
| KeyQueue.TailIsHeadIffLast | index.js:51 | the stored tail is the action that just settled exactly when no newer action is queued for the key |
| KeyQueue.PushKeepsTracks | index.js:43-56 | enqueueing keeps `queueForKey` naming every key's last action, with increasing tickets |
| KeyQueue.PopKeepsTracks | index.js:50-54 | retiring a head and dropping the entry only when the chain drains keeps that invariant |
| KeyQueue.RetireKeepsTracks | index.js:50-54 | the source's identity test drops the entry exactly when the chain drains, and keeps the invariant |
| KeyQueue.PushThenPopRestores | index.js:43-54 | a key with no work that gets one action drops out again once that action has run |
| KeyQueue.EventKeepsOrder | index.js:47-56 | one enqueue or one run moves actions between "ran" and "pending" without losing or reordering any |
| KeyQueue.RunsInSubmissionOrder | index.js:43-56 | for any interleaving of keys, a key's actions that ran, followed by those pending, are its initial queue followed by its enqueues, in submission order |
| KeyQueue.DrainedOnceTailRan | index.js:127-131 | once the tail seen at close has run and nothing new was enqueued, every action of the key has run and it has no pending work |
| FPersist.Commit | index.js:73-79 | an edit resolves only with the value its edit function produced, never with a refused undefined, and only once its file holds that value serialised; a thrown edit function changes nothing; no other file changes |
| FPersist.Perform | index.js:70-120 | a read changes no file; a delete resolves with undefined and leaves no file; an accepted edit never resolves with a refused undefined; no action changes another key's file |
| FPersist.GetReadsCurrentValue | filesystem.js:45-62 | a read of a key never written resolves with the caller's default and creates no file; a read of a stored record resolves with its value |
| FPersist.EditSeesCurrentValue | index.js:72-73 | the edit function receives the stored value, or the caller's default when the key was never written |
| FPersist.UndefinedEditIsRefused | index.js:73-76 | an edit function returning undefined, when that is not allowed, makes the edit reject and nothing is written |
| FPersist.EditThenGetReturnsEdit | index.js:78-79 | an accepted edit writes exactly its new value, resolves with it, and a following read returns it |
| FPersist.DeleteThenGetIsDefault | index.js:115-120 | a delete resolves even for a missing key, and a following read returns the default |
| FPersist.EditsApplyInSubmissionOrder | index.js:47-49 | edits queued for one key apply their edit functions in order, and one that fails or is refused does not stop the next |
| FPersist.PerformTouchesOnlyItsFile | index.js:70-120 | an action changes only its own key's file |
| FPersist.PerformReadsOnlyItsFile | index.js:70-120 | an action's outcome and effect depend only on its own key's file |
| FPersist.ActionsOnDifferentFilesCommute | index.js:39-59 | actions on different files give each caller the same outcome and the same final files in either order |
| FPersist.Storage.constructor | index.js:15-31 | the store starts open with no queues; stringify defaults to JSON.stringify; undefined edits are refused unless allowed |
| FPersist.Storage.VerifyNotClosed | index.js:33-37 | rejects, with the closed error, exactly when the instance is closed |
| FPersist.Storage.EnqueueForKey | index.js:39-59 | rejects first when the directory could not be made, then when closed, then for a key naming an inherited member, each time changing nothing; otherwise the action becomes the key's new tail with the next ticket, and other keys are unchanged |
| FPersist.Storage.EditItem | index.js:70-81 | enqueues the read-modify-write of the key, with the same admission rules |
| FPersist.Storage.GetItem | index.js:102-107 | enqueues a read of the key, with the same admission rules |
| FPersist.Storage.DeleteItem | index.js:115-120 | enqueues the deletion of the key's file, with the same admission rules |
| FPersist.Storage.RunAction | index.js:71-80 | running an action does to the files exactly what `Perform` states |
| FPersist.Storage.Step | index.js:47-54 | the head action runs whatever earlier actions settled with; its outcome goes to its own caller; its queue is popped; the tail entry goes exactly when nothing newer is queued |
| FPersist.Storage.Retire | index.js:50-54 | the cleanup continuation records the outcome and deletes the entry only if the stored tail is still this action |
| FPersist.Storage.Clear | index.js:89-93 | rejects after close or without the directory, deleting nothing; otherwise clears the directory as `ClearDirectory` states |
| FPersist.Storage.Close | index.js:127-132 | marks the instance closed and returns every tail pending at that moment; rejects without closing when the directory could not be made |
| Scenarios.EditThenRead | test.js:22-30 | an edit followed by a read of the same key both resolve with the edited value, and the key's file holds it |
| Scenarios.StoreAndRetrieve | test.js:22-44 | the test's sequence resolves with John aged 30, 30, 31, 31, and close has nothing to wait for |
| Scenarios.ReadQueuedBehindEdit | index.js:43-56 | a read enqueued behind an edit of the same key sees the edit's value; the key's entry stays until the read has run |
| Scenarios.RefusedAfterClose | index.js:33-41 | after close, editItem, getItem, deleteItem and clear all reject with the closed error and the files are unchanged |
| Scenarios.RefusedWithoutDirectory | index.js:22-30 | when the directory cannot be made, editItem, getItem, deleteItem, clear and close all reject with that error, no file changes and the instance never closes |
| Scenarios.InheritedKeyRefused | index.js:43-47 | on an open store, editItem, getItem and deleteItem of the key "toString" all reject, queue nothing and change no file |

## Left out

- Real file-system calls (`mkdir`, `readFile`, `writeFile`, `unlink`, `readdir`) are I/O. The files are a map from paths to contents. Which paths fail with an error other than ENOENT, and what a failed write leaves behind, are a parameter (`Faults`).
- The mkdir barrier `madeDir` is reduced to `ready`, the outcome of creating the directory, given to the constructor. The model does not capture operations that wait for the barrier while it is still pending.
- md5 and `crypto` are foreign code. The digest is a parameter `Hash` and is not assumed injective.
- `JSON.stringify` and `JSON.parse` are library serialisation. File contents are either a record or text that does not parse. The default serialiser stores the record as is. A custom `stringify` is any function from records to contents.
- A foreign file whose text parses as JSON but is not a record (for example `{}` or `null`) is not modelled. In the source its `.value` reads as `undefined`, or reading it throws. In the model it counts as text that does not parse.
- JSON numbers are modelled as integers; floating point is left out.
- Promise scheduling and microtask interleaving are concurrency. Each action runs as one atomic `Step`, and the scheduler's choice of key is the caller's. `ActionsOnDifferentFilesCommute` covers actions on different files. Keys whose digests collide share a file while keeping separate queues. The model does not capture their reads and writes interleaving within one action, such as a read that sees a write's truncated file before the write completes.
- `clear` runs outside the per-key queues. Its interleaving with queued actions is part of the scheduling left out above.
- `Promise.all` settling order in `close` is left out. `Close` returns the tails pending at that moment, and `KeyQueue.DrainedOnceTailRan` states when they have all run.
- A `readdir` failure inside `deleteDirectoryContents` is not modelled: listing the directory always succeeds.
- The test's directory setup and teardown are I/O. `StoreAndRetrieve` instead requires the directory to start empty.
