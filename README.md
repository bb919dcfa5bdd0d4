# Virtual filesystem over a JSON object store

This project models the core of a small virtual filesystem in Dafny. Folders and
files are JSON records `{id, name, type, children | contents}` held in one
in-memory array on the server. The array is read by id through `byId()` and
changed through `create`, `update` and `remove`. The client operations
`moveTo`, `createFolder`, `createFile`, `deleteObject`, `moveObject`,
`concatObjects` and `findContent` are promise chains. They fetch records by
id, check them, and write the changed records back.

The model has four modules:

- `FsTypes` (`types.dfy`) holds the records.
  - A record is `FsObject(id, name, body)`.
  - A body is either a folder with its ordered child ids or a file.
  - A file record keeps both of the payload keys the code uses: `content` is
    written by `createFile`, and `contents` is read by every reader.
  - `Result` carries either a value or one of the rejection reasons. One
    reason, `TYPE_ERROR`, stands for the JavaScript `TypeError` thrown when a
    step reads a field of `undefined`, which the chain's `.catch(reject)`
    turns into a rejection.
- `ObjectStore` (`store.dfy`) is the server store.
  - The class `Store` holds the array as a `seq<FsObject>` field. `Create`,
    `Update` and `Remove` change that field in place, and `IndexOf` is the
    `findIndex` loop.
  - `ById` and `Fetch` read the array as `byId()` does: a left fold into a
    map, so a later duplicate id wins.
  - `update` and `remove` act on the first record with the id. The lemmas
    state what `byId()` returns after each operation, with or without
    duplicate ids.
- `FileSystem` (`filesystem.dfy`) holds the client operations.
  - Each read-only operation is a function of the store array. `moveTo` is a
    left fold of one step per path segment.
  - Each mutating operation has two parts. An effect function gives the
    settled result and the array the chain leaves behind, including writes
    that run after the chain has already rejected. A module-level method
    takes the `Store` as a parameter, performs the same reads and writes
    through its methods in source order, and is proved equal to that effect.
  - Promise semantics: the first `resolve` or `reject` decides the result,
    but the chain keeps running after `return reject(...)`.
- `Scenarios` (`scenarios.dfy`) restates the stores and expectations of the
  repository's unit tests (`src/services/filesystem.test.js`) as lemmas about
  the model.

A fetch returns the record `byId()[id]`, or `undefined` when no record has
that id. This is what the test double of `fetchObject` resolves with. The
store's GET route does the same `byId()[id]` lookup, but it answers a miss
with `{}` and status 404, which the HTTP client turns into a rejection.

The id of a created object is its name, and `createFolder` and `createFile`
check the name only against the parent's own children. A name already used as
an id elsewhere in the store is therefore accepted, and the store then holds
two records with that id (`CollisionDuplicates`). Once ids repeat, `update`
and `remove` act on the first such record while `byId()` reads the last, so a
later create under that parent reports success but the child never shows up in
the parent that fetches see (`WriteToShadowedParentLost`). The lemmas that
promise clean fetches after an operation therefore assume unique ids.

## Model

| member | source | states |
|---|---|---|
| FsTypes.NewFolder | src/services/filesystem.js:21-26 | The folder `createFolder` builds: its id and its name are both the given name, and it has no children. |
| FsTypes.NewFile | src/services/filesystem.js:46-51 | The file `createFile` builds: its id and its name are both the given name, its text is under `content`, and `contents` is missing. |
| ObjectStore.ById | fs-api/pages/api/store.js:6-7 | The map's keys are exactly the ids in the array, and each key maps to a record carrying that id. |
| ObjectStore.Fetch | src/services/filesystem.test.js:21 | `fetchObject` as the test double resolves it: `byId()[id]`, the lookup the GET route also does (`fs-api/pages/api/object/[id].js` line 11). A record it yields carries the requested id. |
| ObjectStore.Stored | fs-api/pages/api/store.js:10-13 | The record `create` pushes: the props with the same name and body, and the id kept when given, otherwise the fresh one. With a non-empty fresh id the stored id is never empty. |
| ObjectStore.Replaced | fs-api/pages/api/store.js:20-28 | The array after `update`: the same length, the first record with the id replaced by the props, and the array unchanged when no record has the id. |
| ObjectStore.Removed | fs-api/pages/api/store.js:30-38 | The array after `remove`: unchanged when no record has the id, and otherwise one record shorter. |
| ObjectStore.FirstIndex | fs-api/pages/api/store.js:21 | `findIndex`: the first position holding the id, with no earlier one, or -1 exactly when no record has it. |
| ObjectStore.LastIndex | fs-api/pages/api/store.js:7 | The last position holding the id, with no later one, or -1 exactly when absent. This is the record the fold keeps. |
| ObjectStore.FetchIsLast | fs-api/pages/api/store.js:6-7 | `byId()[k]` is the record at the last position with id `k`, and is missing exactly when no record has id `k`. |
| ObjectStore.FetchSound | fs-api/pages/api/store.js:6-7 | A fetch succeeds iff the id is stored. The fetched record carries that id and is an element of the array. |
| ObjectStore.FetchUnique | fs-api/pages/api/store.js:6-7 | With unique ids, every stored record is what its id fetches. |
| ObjectStore.UniqueFirstIsLast | fs-api/pages/api/store.js:20-21 | With unique ids, the position `update`/`remove` act on is the one `byId()` reads. |
| ObjectStore.FetchAfterCreate | fs-api/pages/api/store.js:9-18 | After an append, the new id fetches the new record and every other id fetches what it did before. |
| ObjectStore.FetchAfterUpdate | fs-api/pages/api/store.js:20-28 | After `update(props)`, `props.id` fetches `props` iff its first and last positions coincide. Every other id fetches as before, and so does `props.id` when it has a later duplicate or is absent. |
| ObjectStore.FetchAfterRemove | fs-api/pages/api/store.js:30-38 | After `remove(id)`, `id` stops resolving iff it occurred at most once. Otherwise it still resolves to its last duplicate, and other ids are unchanged. |
| ObjectStore.UniqueAfterUpdate | fs-api/pages/api/store.js:20-28 | `update` keeps ids unique. |
| ObjectStore.UniqueAfterRemove | fs-api/pages/api/store.js:30-38 | `remove` keeps ids unique. |
| ObjectStore.UniqueAfterCreate | fs-api/pages/api/store.js:9-18 | An append keeps ids unique iff the new id was not already stored. |
| ObjectStore.UpdateUniqueFetch | fs-api/pages/api/store.js:20-28 | Updating a stored record in a store with unique ids makes it fetch the new value. Other ids and the id set are unchanged, and ids stay unique. |
| ObjectStore.Store.constructor | fs-api/pages/api/store.js:1-4 | The array starts as a copy of the seed records. |
| ObjectStore.Store.IndexOf | fs-api/pages/api/store.js:21 | The loop returns `FirstIndex`, and it is negative iff the id is not stored. |
| ObjectStore.Store.Create | fs-api/pages/api/store.js:9-18 | Appends exactly one record: the props with a non-empty id (kept when given, otherwise the fresh one). Returns it, leaves earlier records unchanged, and the record is what its id now fetches. |
| ObjectStore.Store.Update | fs-api/pages/api/store.js:20-28 | An absent id returns the `{}` sentinel (None) and changes nothing. Otherwise it returns `props`, replaces the first record with that id, and keeps the length and every other position. |
| ObjectStore.Store.Remove | fs-api/pages/api/store.js:30-38 | An absent id returns None and changes nothing. Otherwise it returns the first record with that id and splices it out, leaving the other records in order. |
| FileSystem.FetchAll | src/services/filesystem.js:11 | `Promise.all(children.map(fetchObject))` yields one fetch per child id, in order. |
| FileSystem.FindByName | src/services/filesystem.js:11-12 | `find` by name: a found child has the name and is the first entry with it. `Absent` iff every entry is a record with another name. `Broken` means a missing child came before any match, which throws. |
| FileSystem.FoundIsStored | src/services/filesystem.js:11-12 | A child found among the fetched children is listed in `children` and is the record its id fetches. |
| FileSystem.Step | src/services/filesystem.js:7-14 | One `moveTo` step: a child it reaches is a stored record named by the segment. |
| FileSystem.MoveTo | src/services/filesystem.js:4-17 | A record the chain reaches is stored, and on a non-empty path it is named by the last segment. |
| FileSystem.MoveToEmpty | src/services/filesystem.js:5 | An empty path resolves with the fetched root itself. |
| FileSystem.MoveToOneSegment | src/services/filesystem.js:7-14 | From a folder whose children are stored, one segment resolves to the first child in `children` order with that name. It resolves with `undefined` iff no child has the name. |
| FileSystem.MoveToErrorSticks | src/services/filesystem.js:16 | Once the chain rejects, further segments keep the same rejection. |
| FileSystem.MoveToAbsentThenFails | src/services/filesystem.js:8-10 | A segment that matched nothing is not itself an error. Any further segment rejects with `INVALID_OPERATION`. |
| FileSystem.MoveToCompose | src/services/filesystem.js:4-17 | Resolving `p + q` from the root equals resolving `q` from the record `p` reached. |
| FileSystem.MoveToMissingRoot | src/services/filesystem.js:5-10 | A missing root makes every non-empty path reject with `INVALID_OPERATION`. |
| FileSystem.CreateEffect | src/services/filesystem.js:19-42 | Rejects with `TYPE_ERROR` iff the parent is missing or a file, and then writes nothing. Rejects with `NAME_NOT_UNIQUE` iff the parent is a folder listing the name. Succeeds iff the parent is a folder not listing the name. On success the parent is written back with the new id appended, and then the new record is appended. The record is appended even after `NAME_NOT_UNIQUE`. |
| FileSystem.CreateThenFetch | src/services/filesystem.js:29-39 | After a successful create of a new id in a store with unique ids: the name fetches the new record and the parent fetches its updated copy. Every other id fetches as before, and ids stay unique. |
| FileSystem.CollisionDuplicates | src/services/filesystem.js:21-38 | Only the parent's children are checked and the id is the name. So a successful create whose name is already an id elsewhere in the store appends a second record with that id: the name now fetches the new record, and ids are no longer unique. |
| FileSystem.WriteToShadowedParentLost | fs-api/pages/api/store.js:6-7 | When the parent's id is stored twice, `update` (line 21) rewrites the first record while `byId()` reads the last. A successful create then leaves the parent fetching its old record, which does not list the new child. |
| FileSystem.RejectedCreateShadows | src/services/filesystem.js:32-38 | After a `NAME_NOT_UNIQUE` rejection, the name fetches the new empty record and the parent is unchanged. If the name was already stored, ids are no longer unique. |
| FileSystem.CreateEffectIntended | src/services/filesystem.js:32-33 | Corrected create: the result, and so the rejection reason, is exactly `CreateEffect`'s; any rejection leaves the store unchanged, and success is the same as `CreateEffect`. |
| FileSystem.CreatedFileUnreadable | src/services/filesystem.js:46-51 | A file created by `createFile` has its text under `content`. Afterwards `findContent` on its folder always rejects, and `concatObjects`, when it resolves, contains "undefined\n". |
| FileSystem.Without | src/services/filesystem.js:89-91 | `filter`: the id is gone, every other child stays with the same multiplicity, and nothing is added. |
| FileSystem.WithoutAppend | src/services/filesystem.js:89-91 | `filter` distributes over concatenation, so the remaining children keep their order. |
| FileSystem.DeleteEffect | src/services/filesystem.js:70-100 | `INVALID_PARENT` iff the parent is missing or a file. `TARGET_NOT_FOUND` iff every child is a record with another name. Below a folder parent: `TYPE_ERROR` iff a missing child comes before the first match; once the target is found, `FOLDER_NOT_EMPTY` iff it is a folder with children, and success iff it is not. Of the rejections, only `FOLDER_NOT_EMPTY` writes, and what it writes is the removal of the target's record. On success the parent loses the target's id. |
| FileSystem.DeleteThenFetch | src/services/filesystem.js:70-100 | After a successful delete in a store with unique ids: `deletedObject` is the target, its id no longer fetches, and the parent fetches its copy without the id. Other ids fetch as before, and ids stay unique. |
| FileSystem.RejectedDeleteDangles | src/services/filesystem.js:86-94 | After `FOLDER_NOT_EMPTY`, the folder's record is gone but its unchanged parent still lists its id. |
| FileSystem.DeleteEffectIntended | src/services/filesystem.js:86-87 | Corrected delete: any rejection leaves the store unchanged, and the result is the same as `DeleteEffect`. |
| FileSystem.Position | src/services/filesystem.js:120 | `indexOf`: the first position of the value, or -1 exactly when it is absent. |
| FileSystem.MoveEffect | src/services/filesystem.js:102-143 | Checks in source order: the `moveTo` rejection, a destination that is not a folder, a current parent that is missing or not a folder, a name the parent lacks, then a name the destination already lists. No rejection writes. On success the name leaves the old parent once and is appended to the new one. |
| FileSystem.MoveEffectOk | src/services/filesystem.js:120-132 | A move that passes every check splices the name out of the old parent at its first position, keeping the other children in order, appends it to the destination's children, and writes the old parent and then the new one. |
| FileSystem.UpdatesCommute | src/services/filesystem.js:129-132 | The two parent writes issued together touch different ids, so their order does not matter. |
| FileSystem.MoveThenFetch | src/services/filesystem.js:102-143 | After a successful move in a store with unique ids: the two parents are distinct, each fetches its written copy, the name was not in the destination before, other ids fetch as before, and ids stay unique. |
| FileSystem.ContentsText | src/services/filesystem.js:164 | How `acc + file.contents` renders a file's text: the `contents` string, or `undefined` when the key is missing. |
| FileSystem.ConcatFiles | src/services/filesystem.js:159-167 | Resolves iff every fetched child is a file. Otherwise the first non-file entry decides the reason: `TYPE_ERROR` for a missing one, `INVALID_OPERATION` for a folder. |
| FileSystem.ConcatObjects | src/services/filesystem.js:145-170 | `TYPE_ERROR` for a missing folder, `INVALID_OPERATION` for a file or an empty folder. Resolves iff the folder is non-empty and all its children are files. |
| FileSystem.ConcatFilesCons | src/services/filesystem.js:160-165 | The first file's text and a newline come before everything the remaining children contribute. |
| FileSystem.ConcatSplitsBack | src/services/filesystem.js:160-165 | Round trip: when no text holds a newline, the concatenation splits back into the files' texts, in order. |
| FileSystem.ConcatHoldsEach | src/services/filesystem.js:160-165 | Each file's text and its newline occur in the concatenation. |
| FileSystem.Includes | src/services/filesystem.js:191 | `includes`: a string that occurs is no longer than the text, and every prefix of the text occurs in it. |
| FileSystem.MatchingNames | src/services/filesystem.js:186-197 | Resolves iff every child is a file with `contents`. Otherwise the first unreadable child decides the reason. The names are exactly those of the children whose text includes the search string. |
| FileSystem.MatchingNamesAppend | src/services/filesystem.js:187-192 | Filtering two child lists in turn equals filtering their concatenation: same order, same first rejection. |
| FileSystem.FindContent | src/services/filesystem.js:172-201 | Same folder checks as `concatObjects`. A name is in the result iff it is the name of a child whose `contents` include the search string. |
| FileSystem.FoundInConcat | src/services/filesystem.js:187-191 | A non-empty `findContent` result means `concatObjects` on the same folder resolves and its text includes the search string. |
| FileSystem.CreateFolder | src/services/filesystem.js:19-42 | The store and the result after the call are exactly `CreateEffect` for a new empty folder. |
| FileSystem.CreateFile | src/services/filesystem.js:44-68 | The store and the result after the call are exactly `CreateEffect` for a new file whose text is under `content`. |
| FileSystem.CreateChild | src/services/filesystem.js:29-40 | Performs the fetch, the parent write and the record creation in source order, and matches `CreateEffect`. |
| FileSystem.DeleteObject | src/services/filesystem.js:70-100 | Performs the fetches, the parent write and the removal in source order, and matches `DeleteEffect`. |
| FileSystem.MoveObject | src/services/filesystem.js:102-143 | Performs `moveTo`, the parent fetch and both parent writes, and matches `MoveEffect`. |
| Scenarios.MoveToScenario | src/services/filesystem.test.js:37-63 | `moveTo` from `Folder` along `['Folder2']` resolves with the `Folder2` record. |
| Scenarios.CreateFolderScenario | src/services/filesystem.test.js:65-108 | `createFolder('newFolder', 'Folder')` resolves with the new empty folder and a parent listing it. `'Folder2'` is rejected with `NAME_NOT_UNIQUE`. |
| Scenarios.CreateFileScenario | src/services/filesystem.test.js:110-159 | `createFile` resolves with a record whose text is under `content` and a parent listing it. A listed name is rejected with `NAME_NOT_UNIQUE`. |
| Scenarios.DeleteObjectScenario | src/services/filesystem.test.js:191-199 | Deleting `File` from `Folder` yields the removed file and a parent that no longer lists it. |
| Scenarios.DeleteObjectInvalidParent | src/services/filesystem.test.js:201-219 | A missing parent and a file as parent are both rejected with `INVALID_PARENT`. |
| Scenarios.DeleteObjectTargetNotFound | src/services/filesystem.test.js:221-230 | A name the parent does not list is rejected with `TARGET_NOT_FOUND`. |
| Scenarios.DeleteObjectNotEmpty | src/services/filesystem.test.js:232-241 | A non-empty folder is rejected with `FOLDER_NOT_EMPTY`, and its record is gone from the store afterwards. |
| Scenarios.MoveObjectScenario | src/services/filesystem.test.js:274-290 | Moving `File` into `Folder2` gives old children `[Folder2, File2]` and new children `[File2, File]`. |
| Scenarios.MoveObjectRejects | src/services/filesystem.test.js:292-340 | `NAME_NOT_UNIQUE` for a name the destination lists. `INVALID_OPERATION` for a file destination and for a path that leads nowhere. `TARGET_NOT_FOUND` for a name the parent lacks. |
| Scenarios.ConcatObjectsScenario | src/services/filesystem.test.js:379-384 | The two files of `Folder2` concatenate to `"this is file2\nthis is file3\n"`. |
| Scenarios.ConcatObjectsRejects | src/services/filesystem.test.js:386-410 | A file, an empty folder and a folder holding a folder are all rejected with `INVALID_OPERATION`. |
| Scenarios.FindContentScenario | src/services/filesystem.test.js:449-456 | Searching `Folder2` for `"this is"` yields `['File2', 'File3']`. |
| Scenarios.FindContentNoMatch | src/services/filesystem.test.js:458-465 | A string no file contains yields `[]`. |
| Scenarios.FindContentRejects | src/services/filesystem.test.js:467-485 | A file and a folder holding a folder are rejected with `INVALID_OPERATION`. |

## Left out

- Transport: the HTTP layer in `src/services/api.js` is not part of this model.
  - Fetching is modelled as the store read the routes perform. The real client would reject on a 404 instead of resolving with `undefined`.
  - The swapped `(reject, resolve)` parameters of `deleteObj` are not modelled. The removal resolves with the removed record, as it does under the test double.
- Concurrency: `Promise.all` writes and fetches are performed one after another. `UpdatesCommute` shows that the order of the two parent writes of `moveObject` does not matter. Interleaving with other clients' requests is not modelled.
- Fresh ids: the store's uuid generator is a `freshId` parameter, assumed non-empty.
- Falsy values: JavaScript's falsy `props.id` (`undefined`, `null`, `''`) is modelled as the empty string.
- Rejection reasons: the reason strings are modelled as the `Error` values. `moveTo`'s thrown `Error('INVALID_OPERATION')` object is not told apart from the string reason.
- Record types: tags other than `folder` and `file` are not modelled, and neither are records that are missing keys other than the file payload.
- Shape of the resolved values: `concatObjects` resolves with `{ contents }`, modelled as the string itself. `deleteObject`'s `deletedObject` is modelled as the removed record, with `None` for the `{}` sentinel.
- Inherited keys: `byId()` builds a plain object, so in JavaScript an id such as `constructor` or `__proto__` that no record carries reads an inherited member rather than `undefined`. The model's `Fetch` yields `None` for every id that no record carries.
- Scenarios.MoveObjectRejects: the test of a missing destination (`src/services/filesystem.test.js:317-326`) sets `path` to an array and then passes `[path]`, so its one segment is an array and `child.name === segment` never holds. The model's segment is the string `NonExistentFolder`, which also matches no child, so the outcome is the same.
- Seed data: the seed JSON of the store is the constructor's parameter.
- Out of scope: the React components, the API routes, the middleware and `src/utils/utils.js` are not part of this model. The last of these is modelled only through its effect on `moveTo`, a left fold of the steps.
- Scenarios.CreateFileScenario: the test store's `File` entry is tagged `folder` but has no `children`. It is modelled as an empty folder, since nothing reads its children.

## Findings

| source | as written | input that shows it | evidently intended | confidence | as-written member | corrected member |
|---|---|---|---|---|---|---|
| src/services/filesystem.js:32-38 (also 57-64) | `return reject('NAME_NOT_UNIQUE')` does not stop the chain, so `createObject(newFolder)` still runs | A store with unique ids where `root` lists `a` and `a` is a stored folder with children. `createFolder('a')` rejects, yet `a` now fetches a new empty folder and ids are no longer unique | a rejected create leaves the store unchanged | not executed | FileSystem.RejectedCreateShadows | FileSystem.CreateEffectIntended |
| src/services/filesystem.js:86-94 | `return reject('FOLDER_NOT_EMPTY')` does not stop the chain, so `deleteObj(target.id)` still runs | The test store of `deleteObject`: `deleteObject('Folder2', 'Folder')` rejects, yet `Folder2` no longer fetches while `Folder` still lists it (`Scenarios.DeleteObjectNotEmpty`) | a rejected delete leaves the store unchanged | not executed | FileSystem.RejectedDeleteDangles | FileSystem.DeleteEffectIntended |

The operation methods (`CreateFolder`, `CreateFile`, `DeleteObject`) keep the code's behaviour as written. The corrected effects state the intended behaviour and prove that it agrees with the written behaviour on every successful call.
