/** Typical callers of the store, written only against its contracts. */
module Scenarios {
  import opened Results
  import opened Statuses
  import opened Entries
  import opened Lists
  import opened Todos

  /** On a date the document has no key for: add three tasks, then
      `reorder(0, 2)`, then `reorder(0, 1)`. */
  method AddThenReorder(day: string, clock: Timestamp)
    returns (added: seq<string>, once: seq<string>, twice: seq<string>)
    ensures added == ["task1", "task2", "task3"]
    ensures once == ["task2", "task3", "task1"]
    ensures twice == ["task3", "task2", "task1"]
  {
    var todo := OpenEmpty(day);
    var e1, e2, e3 := AddThree(todo, day, clock);
    added := [e1.title, e2.title, e3.title];
    var r := todo.Reorder(0, 2);
    Lists.SpliceOfThree(e1, e2, e3);
    assert todo.data == [e2, e3, e1];
    once := [todo.data[0].title, todo.data[1].title, todo.data[2].title];
    r := todo.Reorder(0, 1);
    assert todo.data == [e3, e2, e1];
    twice := [todo.data[0].title, todo.data[1].title, todo.data[2].title];
  }

  /** `add("task1")`, `add("task2")`, `add("task3")` on an empty store. */
  method AddThree(todo: Todo, day: string, clock: Timestamp) returns (e1: Entry, e2: Entry, e3: Entry)
    requires todo.Valid() && todo.data == []
    modifies todo, todo.file
    ensures todo.Valid() && todo.data == [e1, e2, e3] && todo.Length() == 3
    ensures fresh(e1) && fresh(e2) && fresh(e3)
    ensures e1.State() == NewState("task1", clock, clock)
    ensures e2.State() == NewState("task2", clock, clock)
    ensures e3.State() == NewState("task3", clock, clock)
  {
    e1 := todo.Add("task1", day, clock, clock);
    assert todo.data == [e1];
    e2 := todo.Add("task2", day, clock, clock);
    assert todo.data == [e1, e2] && e1.State() == NewState("task1", clock, clock);
    e3 := todo.Add("task3", day, clock, clock);
  }

  /** A store opened on a file whose document has no key for `day`. */
  method OpenEmpty(day: string) returns (todo: Todo)
    ensures fresh(todo) && fresh(todo.file) && todo.Valid() && todo.date == day && todo.data == []
  {
    var file := new Document(true, map[]);
    assert LoadAll(Lookup(file.contents, day)) == Ok([]);
    var store := Todo.Open(file, None, day);
    todo := store.value;
  }

  /** `update(1, title="new title")` on a store of three entries. */
  method RenameSecond(todo: Todo, later: Timestamp)
    requires todo.Valid() && |todo.data| == 3
    modifies todo, todo.file, todo.data[1]
    ensures todo.data == old(todo.data)
    ensures todo.data[1].title == "new title" && |todo.data[1].log| == old(|todo.data[1].log|) + 1
    ensures todo.data[0].State() == old(todo.data[0].State())
    ensures todo.data[2].State() == old(todo.data[2].State())
  {
    var r := todo.Update(1, None, Some("new title"), later);
  }

  /** Renaming one of three entries adds one line to its log and to no
      other. */
  method RenameOneOfThree(day: string, clock: Timestamp, later: Timestamp)
    returns (logLengths: seq<nat>, title: string)
    ensures logLengths == [1, 2, 1] && title == "new title"
  {
    var todo := OpenEmpty(day);
    var e1, e2, e3 := AddThree(todo, day, clock);
    RenameSecond(todo, later);
    logLengths := [|e1.log|, |e2.log|, |e3.log|];
    title := e2.title;
  }

  /** Asking for neither a title nor a status, or for an index out of range,
      fails and leaves every log as it was. */
  method UpdateRejected(day: string, clock: Timestamp, later: Timestamp)
    returns (neither: Outcome, outside: Outcome, below: Result<Entry>, logLengths: seq<nat>)
    ensures neither == Failed(StatusOrTitleRequired)
    ensures outside == Failed(TaskIndexOutOfRange)
    ensures below == Err(TaskIndexOutOfRange)
    ensures logLengths == [1, 1, 1]
  {
    var todo := OpenEmpty(day);
    var e1, e2, e3 := AddThree(todo, day, clock);
    neither := todo.Update(0, None, Some(""), later);
    outside := todo.Update(3, Some(Completed), None, later);
    below := todo.Get(-1);
    logLengths := [|e1.log|, |e2.log|, |e3.log|];
  }

  /** Opening a store on a file that does not exist fails before anything
      is read or written. */
  method OpenMissing(day: string) returns (r: Result<Todo>)
    ensures r == Err(FileNotFound)
  {
    var file := new Document(false, map[day := []]);
    r := Todo.Open(file, Some(day), day);
  }
}
