# Task-log model of a daily to-do list

This project models the data layer of a single-user daily to-do web
application, `core/model.py`. An `Entry` is one task: a title, a `Status`,
creation and update timestamps, and an append-only audit log. A `Todo` is
the view of one date's entries inside one JSON document. That document maps
date strings to lists of serialized entries. The store loads the date's list
when it is opened. It then adds, reads, renames, re-statuses and reorders
entries, and writes each change back to the document.

Modules, one per component:

- `results.dfy`, module `Results`: the exceptions of the source as an
  `Error` datatype (`FileNotFound`, the three `IndexError` messages, the
  "either status or title" `ValueError`, `InvalidStatus`). It also holds the
  `Result`/`Outcome`/`Option` wrappers and the `InRange` bounds test every
  check shares.
- `statuses.dfy`, module `Statuses`: the `Status` enum with its persisted
  `Value()` and its `Name()`, and `ParseStatus`, the `Status(value)` lookup.
- `entries.dfy`, module `Entries`: timestamps, audit lines, the value
  snapshot `EntryState`, and the persisted `Record`. It defines the pure
  transitions (`NewState`, `Retitled`, `WithStatus`) and the
  `ToRecord`/`FromRecord` pair. The class `Entry` has mutable fields, and its
  methods are proved against those functions.
- `lists.dfy`, module `Lists`: `Splice`, the pop-then-insert of `reorder`,
  with a position-by-position characterisation and its permutation lemmas.
- `todos.dfy`, module `Todos`: the parsed document as
  `map<string, seq<Record>>`, the document edits of `__write` and
  `__bulk_write_date`, and `LoadAll`, the load comprehension. The `Document`
  class stands for the JSON file. The `Todo` class holds the file, its date
  and its entry list.
- `scenarios.dfy`, module `Scenarios`: callers written only against the
  contracts. They add three tasks and reorder twice, rename one of three,
  have updates rejected, and open a missing file.

Modelling choices:

- The clock is injected. `Entry(title)` reads it twice: once for the day in
  the creation line, once for both timestamps (core/model.py:31-32). `add`
  reads it a third time first, for the date key (core/model.py:118). Each
  reading is a parameter.
- Audit lines are a datatype with one constructor per f-string. Each
  constructor keeps the fields that f-string interpolates. `Heading()` gives
  the text before the formatted timestamp.
- The file's existence is the constant `Document.present`. Its contents are
  the mutable field `Document.contents`. Every write re-reads the current
  contents, so changes made through another store on the same file survive
  under other keys.
- `Todo.Valid()` says that no entry object occurs twice in the list. This
  makes "only `data[i]` changes" provable for `update`.
- `Todo.Mirrors()` says that the in-memory list serializes to exactly the
  document's list for the store's date. It holds after opening, `update` and
  `reorder`. If it held before `add`, it holds afterwards exactly when today's
  key is the store's own date (`Todo.Add`, `AppendKeepsMirror`).

Behaviour of the code worth knowing:

- Date keys are formatted with `%d/%m/%Y` (core/model.py:84, 118). Keys are
  opaque strings here.
- `add` persists under today's key, yet always appends to the store's own
  in-memory list, whatever date the store was opened for
  (core/model.py:104, 118).
- `update` with both a non-empty title and a status renames and ignores the
  status. An empty title counts as absent (core/model.py:138-148).
- `update_title` logs the previous update time and refreshes it afterwards.
  `update_status` refreshes it first and logs the new one
  (core/model.py:41-44, 47-51).
- Nothing checks that a title is non-empty (core/model.py:30, 116-121).
- The tests expect string timestamps and an `Entry.postpone`
  (tests/test_models.py:15-16, 39-45). Neither is in `core/model.py`.

## Model

| member | source | states |
|---|---|---|
| Statuses.ParseStatus | core/model.py:22-26 | `Status(s)` succeeds exactly for "pending", "completed", "deleted", "canceled"; the member found has value `s`; otherwise the error is `InvalidStatus(s)` and no member has that value |
| Statuses.Status.Value | core/model.py:22-26 | each member's persisted value is one of "pending", "completed", "deleted", "canceled", in lower case |
| Statuses.Status.Name | core/model.py:22-26 | each member's name is one of PENDING, COMPLETED, DELETED, CANCELLED, in upper case |
| Statuses.ValueRoundTrip | core/model.py:22-26 | every member is recovered from its persisted value |
| Statuses.ValueInjective | core/model.py:22-26 | distinct members persist as distinct strings |
| Entries.NewState | core/model.py:30-37 | a new entry is `Pending`, `date_created == date_updated`, and its log is the single creation line, whose text starts "Task created on " |
| Entries.Entry.constructor | core/model.py:30-37 | the constructed object's fields are `NewState(title, today, now)` |
| Entries.LogLine.Heading | core/model.py:37-50 | each audit line's text ends in " on " before its time, and its first two characters tell a creation, a title and a status line apart |
| Entries.Retitled | core/model.py:39-44 | title set, update time refreshed, status and creation time kept, log grown by exactly one line recording new title, old title and the previous update time, earlier lines kept |
| Entries.Entry.UpdateTitle | core/model.py:39-44 | the object's new fields are `Retitled` of its old fields |
| Entries.WithStatus | core/model.py:46-51 | status set, update time refreshed, title and creation time kept, log grown by exactly one line naming the status and the new update time, earlier lines kept |
| Entries.Entry.UpdateStatus | core/model.py:46-51 | the object's new fields are `WithStatus` of its old fields |
| Entries.AuditLineHeadings | core/model.py:41-50 | a status line reads "Status updated to COMPLETED on " (the member's name, so CANCELLED for "canceled"); a title line names the new and the old title |
| Entries.FromRecord | core/model.py:62-69 | fails exactly when the status string parses to no member, with `InvalidStatus`; otherwise copies title, both timestamps and log and takes the status with that value |
| Entries.ToRecord | core/model.py:53-60 | deserializing the record gives back the snapshot: title, status, both timestamps and log |
| Entries.RecordRoundTrip | core/model.py:53-69 | a record that deserializes is the serialization of its result |
| Entries.ToRecordInjective | core/model.py:53-60 | distinct snapshots serialize to distinct records |
| Entries.Entry.Serialize | core/model.py:53-60 | the object's record deserializes to the object's current fields |
| Entries.Entry.Deserialize | core/model.py:62-69 | fails exactly as `FromRecord` does; otherwise returns a new object whose fields are `FromRecord`'s result |
| Entries.Entry.Restore | core/model.py:64-68 | the new object's fields are exactly the given snapshot, as `deserialize` overwrites every field |
| Lists.Splice | core/model.py:157-158 | pop then insert keeps the length and puts the moved element at the target |
| Lists.SpliceAt | core/model.py:157-158 | each position of the result holds the source element it came from: the moved one at the target, those in between shifted by one, the rest in place |
| Lists.SplicePermutes | core/model.py:157-158 | the result has the same multiset of elements |
| Lists.SpliceDistinct | core/model.py:157-158 | a list without repeated elements stays so |
| Lists.SpliceIdentity | core/model.py:157-158 | moving an element onto its own index changes nothing |
| Lists.SpliceOfThree | core/model.py:150-159 | on [a, b, c], moving 0 to 2 gives [b, c, a], and then moving 0 to 1 gives [c, b, a] |
| Todos.Lookup | core/model.py:92 | `data.get(date, [])`: the date's list when the key exists, otherwise empty |
| Todos.AppendRecord | core/model.py:94-103 | the key exists afterwards, its list is the old one (empty when missing) plus the record, and every other key is unchanged |
| Todos.ReplaceDate | core/model.py:106-113 | the key's list is the given rows, every other key is unchanged |
| Todos.ToRecords | core/model.py:110 | one record per snapshot, in order, each its serialization |
| Todos.LoadAll | core/model.py:92 | a successful load has one snapshot per record; a failed one had a record, and fails with `InvalidStatus` |
| Todos.AppendKeepsMirror | core/model.py:94-121 | after appending under today's key, a list that matched a date's document list still matches it exactly when today's key is that date |
| Todos.LoadAllElements | core/model.py:89-92 | a successful load has one snapshot per record, each that record deserialized |
| Todos.LoadAllFailure | core/model.py:89-92 | loading fails with the error of the first record whose status does not parse |
| Todos.LoadAllSuccess | core/model.py:89-92 | when every record deserializes, loading yields exactly their snapshots in order |
| Todos.LoadAllSucceedsExactly | core/model.py:89-92 | a date's list loads exactly when every record's status string is a member's value |
| Todos.LoadAllRoundTrip | core/model.py:89-114 | a list written by `__bulk_write_date` loads back to the same snapshots |
| Todos.LoadAllInverse | core/model.py:89-92 | a list that loads is the serialization of what it loads to |
| Todos.ToRecordsSplice | core/model.py:157-159 | serializing a reordered list equals reordering the serialized list |
| Todos.StatesSplice | core/model.py:157-159 | the snapshots of a reordered list are the reordered snapshots |
| Todos.ChooseEdit | core/model.py:129-148 | bounds error first; then a non-empty title wins; then a status; with neither, "Either status or title is required" |
| Todos.ApplyEdit | core/model.py:136-146 | every edit adds exactly one log line, keeps earlier lines and the creation time, refreshes the update time, and changes only the chosen field |
| Todos.CheckReorder | core/model.py:150-155 | succeeds exactly when both indices are in range; the source index is checked first, with its own message |
| Todos.Todo.Open | core/model.py:76-92 | `FileNotFound` when the file is absent; otherwise bound to the given date or today's key, failing exactly when that date's list does not load; on success new, distinct entries whose snapshots are the loaded ones, mirroring the document |
| Todos.Todo.Load | core/model.py:89-92 | fails exactly when `LoadAll` does, with its error; otherwise the list is new, distinct entries with the loaded snapshots, mirroring the document |
| Todos.Todo.Write | core/model.py:94-104 | the file becomes `AppendRecord` of its current contents under the given key, and the entry is appended to the in-memory list |
| Todos.Todo.BulkWriteDate | core/model.py:106-114 | the file becomes `ReplaceDate` of its current contents with the entries' records, and those entries become the list |
| Todos.Todo.Add | core/model.py:116-121 | a new `Pending` entry is appended to the list and its record to today's key in the file; other keys unchanged; this date's document list grows only when today's key is this date |
| Todos.Todo.Get | core/model.py:123-127 | fails exactly when `index < 0` or `index >= len`; otherwise the entry at `index` |
| Todos.Todo.Length | core/model.py:161-162 | the indices `get` accepts are exactly those below the length |
| Todos.Todo.Update | core/model.py:129-148 | errors exactly as `ChooseEdit`, changing nothing; on success only `data[index]` changes, by `ApplyEdit`, and the file's entry for the date is the list's records, other keys unchanged |
| Todos.Todo.Reorder | core/model.py:150-159 | errors exactly as `CheckReorder`, changing nothing; on success the list is `Splice` of the old one (a permutation, still distinct), the persisted rows are the spliced old rows, and only the date's key is rewritten |
| Scenarios.AddThenReorder | core/model.py:116-159 | adding task1, task2, task3 on an empty date then `reorder(0, 2)` gives [task2, task3, task1], and `reorder(0, 1)` then gives [task3, task2, task1] |
| Scenarios.RenameOneOfThree | core/model.py:129-148 | renaming the second of three entries gives logs of lengths 1, 2, 1 and the new title |
| Scenarios.UpdateRejected | core/model.py:123-148 | an empty title without status, an index equal to the length, and `get(-1)` all fail and leave every log at one line |
| Scenarios.OpenMissing | core/model.py:79-80 | opening a store on an absent file fails with `FileNotFound` |

## Left out

- JSON text, `open`, `seek`, `truncate`, `json.load` and `json.dump`: the file is an in-memory map of records. Malformed JSON, records with missing keys and a write that fails half-way are not modelled.
- Path resolution (`os.path.join`, `abspath`): a `Document` object stands for the file at the resolved path.
- The file disappearing after a store opens it: `Document.present` is constant.
- `datetime.now`, the configured time zone, `strftime`, `isoformat` and `fromisoformat`: timestamps are opaque injected readings, stored in records as they are. Audit lines keep their fields, and only the text before the formatted time is rendered.
- Entry.Deserialize: the clock readings taken by the throwaway `cls(title)` construction are overwritten in the source and are not taken as parameters.
- List aliasing between an entry's `log` and the dict that `serialize`/`deserialize` exchange: logs are sequence values.
- Python truthiness for `update`'s `status` argument, which may hold only a `Status` member or `None`: modelled as an `Option<Status>`.
- `Entry.__repr__`: debugging text only.
- Concurrent writers: another store on the same `Document` can interleave only between whole operations.
- `core/router.py`, `core/decorators.py`, `config.py` and `app.py`: Flask route handlers, the cookie check, environment configuration and hashing, and app setup. The routes also call `get_todos_by_date` and `add_todo`, which `core/model.py` does not define.
- `Entry.postpone`, which tests/test_models.py:39-45 calls: `core/model.py` does not define it.
