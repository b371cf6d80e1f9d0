/** The date-scoped task store: a view of one date's entries inside a single
    document that maps date strings to lists of entry records. */
module Todos {
  import opened Results
  import opened Statuses
  import opened Entries
  import opened Lists

  /** The parsed JSON document: date key to that date's records. */
  type Doc = map<string, seq<Record>>

  /** `data.get(date, [])`: a date with no key holds no records. */
  function Lookup(doc: Doc, date: string): (r: seq<Record>)
    ensures date in doc ==> r == doc[date]
    ensures date !in doc ==> r == []
  {
    if date in doc then doc[date] else []
  }

  /** What `__write` does to the parsed document: create the key if it is
      missing, then append one record to it. */
  function AppendRecord(doc: Doc, date: string, rec: Record): (r: Doc)
    ensures r.Keys == doc.Keys + {date}
    ensures Lookup(r, date) == Lookup(doc, date) + [rec]
    ensures forall k :: k in doc && k != date ==> k in r && r[k] == doc[k]
  {
    doc[date := Lookup(doc, date) + [rec]]
  }

  /** What `__bulk_write_date` does to the parsed document: replace one
      date's list and keep every other key. */
  function ReplaceDate(doc: Doc, date: string, rows: seq<Record>): (r: Doc)
    ensures r.Keys == doc.Keys + {date}
    ensures Lookup(r, date) == rows
    ensures forall k :: k in doc && k != date ==> k in r && r[k] == doc[k]
  {
    doc[date := rows]
  }

  /** After `add`, a store whose list mirrored the document still does
      exactly when today's key is the store's own date. */
  lemma AppendKeepsMirror(rows: seq<Record>, doc: Doc, date: string, todayKey: string, rec: Record)
    requires rows == Lookup(doc, date)
    ensures rows + [rec] == Lookup(AppendRecord(doc, todayKey, rec), date) <==> todayKey == date
  {
    if todayKey != date {
      assert Lookup(AppendRecord(doc, todayKey, rec), date) == rows;
      assert |rows + [rec]| != |rows|;
    }
  }

  /** `[entry.serialize() for entry in data]` on snapshots. */
  function ToRecords(ss: seq<EntryState>): (r: seq<Record>)
    ensures |r| == |ss|
    ensures forall k :: 0 <= k < |ss| ==> r[k] == ToRecord(ss[k])
  {
    seq(|ss|, k requires 0 <= k < |ss| => ToRecord(ss[k]))
  }

  /** `[Entry.deserialize(item) for item in ...]`: every record read back in
      order, or the error of the first one that does not deserialize. */
  function LoadAll(recs: seq<Record>): (r: Result<seq<EntryState>>)
    ensures r.Ok? ==> |r.value| == |recs|
    ensures r.Err? ==> recs != [] && r.error.InvalidStatus?
  {
    if recs == [] then Ok([])
    else
      match FromRecord(recs[0])
      case Err(e) => Err(e)
      case Ok(s) =>
        match LoadAll(recs[1..])
        case Err(e) => Err(e)
        case Ok(ss) => Ok([s] + ss)
  }

  /** A successful load holds one snapshot per record, each the record
      deserialized. */
  lemma {:induction false} LoadAllElements(recs: seq<Record>)
    requires LoadAll(recs).Ok?
    ensures |LoadAll(recs).value| == |recs|
    ensures forall k :: 0 <= k < |recs| ==> FromRecord(recs[k]) == Ok(LoadAll(recs).value[k])
  {
    if recs != [] {
      LoadAllElements(recs[1..]);
      assert forall k :: 1 <= k < |recs| ==> recs[k] == recs[1..][k - 1];
    }
  }

  /** Loading fails exactly when some record fails, and then with the error
      of the first failing record. */
  lemma {:induction false} LoadAllFailure(recs: seq<Record>, i: nat)
    requires i < |recs| && FromRecord(recs[i]).Err?
    requires forall k :: 0 <= k < i ==> FromRecord(recs[k]).Ok?
    ensures LoadAll(recs) == Err(InvalidStatus(recs[i].status))
  {
    if i > 0 {
      LoadAllFailure(recs[1..], i - 1);
    }
  }

  /** Loading succeeds when every record deserializes, with their snapshots. */
  lemma {:induction false} LoadAllSuccess(recs: seq<Record>, ss: seq<EntryState>)
    requires |ss| == |recs|
    requires forall k :: 0 <= k < |recs| ==> FromRecord(recs[k]) == Ok(ss[k])
    ensures LoadAll(recs) == Ok(ss)
  {
    if recs != [] {
      assert FromRecord(recs[0]) == Ok(ss[0]);
      assert forall k :: 0 <= k < |recs| - 1 ==> recs[1..][k] == recs[k + 1] && ss[1..][k] == ss[k + 1];
      LoadAllSuccess(recs[1..], ss[1..]);
      assert ss == [ss[0]] + ss[1..];
    }
  }

  /** A date's list loads exactly when every record's status string is the
      value of some member of `Status`. */
  lemma {:induction false} LoadAllSucceedsExactly(recs: seq<Record>)
    ensures LoadAll(recs).Ok? <==> forall k :: 0 <= k < |recs| ==> ParseStatus(recs[k].status).Ok?
  {
    if recs != [] {
      LoadAllSucceedsExactly(recs[1..]);
      assert forall k :: 1 <= k < |recs| ==> recs[k] == recs[1..][k - 1];
    }
  }

  /** Writing a list of entries and loading it back gives the same entries. */
  lemma LoadAllRoundTrip(ss: seq<EntryState>)
    ensures LoadAll(ToRecords(ss)) == Ok(ss)
  {
    LoadAllSuccess(ToRecords(ss), ss);
  }

  /** A list that loads is the serialization of what it loads to. */
  lemma {:induction false} LoadAllInverse(recs: seq<Record>)
    requires LoadAll(recs).Ok?
    ensures ToRecords(LoadAll(recs).value) == recs
  {
    var ss := LoadAll(recs).value;
    LoadAllElements(recs);
    forall k | 0 <= k < |recs| ensures ToRecords(ss)[k] == recs[k] {
      RecordRoundTrip(recs[k]);
    }
  }

  /** Serializing commutes with reordering. */
  lemma ToRecordsSplice(ss: seq<EntryState>, from: nat, to: nat)
    requires from < |ss| && to < |ss|
    ensures ToRecords(Splice(ss, from, to)) == Splice(ToRecords(ss), from, to)
  {
    forall k | 0 <= k < |ss|
      ensures ToRecords(Splice(ss, from, to))[k] == Splice(ToRecords(ss), from, to)[k]
    {
      SpliceAt(ss, from, to, k);
      SpliceAt(ToRecords(ss), from, to, k);
    }
  }

  /** The mutation `update` applies, once an argument has been chosen. */
  datatype Edit = Rename(title: string) | SetStatus(status: Status)

  /** The checks `update` makes before mutating: the bounds first, then a
      title that Python finds truthy (present and non-empty), then a status. */
  function ChooseEdit(index: int, length: nat, status: Option<Status>, title: Option<string>): (r: Result<Edit>)
    ensures !InRange(index, length) ==> r == Err(TaskIndexOutOfRange)
    ensures InRange(index, length) && title.Some? && title.value != "" ==> r == Ok(Rename(title.value))
    ensures InRange(index, length) && (title.None? || title.value == "") ==>
              r == if status.Some? then Ok(SetStatus(status.value)) else Err(StatusOrTitleRequired)
  {
    if !InRange(index, length) then Err(TaskIndexOutOfRange)
    else if title.Some? && title.value != "" then Ok(Rename(title.value))
    else if status.Some? then Ok(SetStatus(status.value))
    else Err(StatusOrTitleRequired)
  }

  /** Every edit appends exactly one audit line, keeps the creation time and
      refreshes the update time. */
  function ApplyEdit(s: EntryState, edit: Edit, now: Timestamp): (r: EntryState)
    ensures |r.log| == |s.log| + 1 && r.log[..|s.log|] == s.log
    ensures r.dateCreated == s.dateCreated && r.dateUpdated == now
    ensures edit.Rename? ==> r.title == edit.title && r.status == s.status
    ensures edit.SetStatus? ==> r.status == edit.status && r.title == s.title
  {
    match edit
    case Rename(t) => Retitled(s, t, now)
    case SetStatus(st) => WithStatus(s, st, now)
  }

  /** The two bounds checks of `reorder`, the source index first. */
  function CheckReorder(from: int, to: int, length: nat): (r: Outcome)
    ensures r.Done? <==> InRange(from, length) && InRange(to, length)
    ensures !InRange(from, length) ==> r == Failed(FromIndexOutOfRange)
    ensures InRange(from, length) && !InRange(to, length) ==> r == Failed(ToIndexOutOfRange)
  {
    if !InRange(from, length) then Failed(FromIndexOutOfRange)
    else if !InRange(to, length) then Failed(ToIndexOutOfRange)
    else Done
  }

  /** The snapshots of a list of live entries. */
  function States(es: seq<Entry>): (r: seq<EntryState>)
    reads es
    ensures |r| == |es|
    ensures forall k :: 0 <= k < |es| ==> r[k] == es[k].State()
  {
    seq(|es|, k reads es requires 0 <= k < |es| => es[k].State())
  }

  lemma StatesSplice(es: seq<Entry>, from: nat, to: nat)
    requires from < |es| && to < |es|
    ensures States(Splice(es, from, to)) == Splice(States(es), from, to)
  {
    forall k | 0 <= k < |es|
      ensures States(Splice(es, from, to))[k] == Splice(States(es), from, to)[k]
    {
      SpliceAt(es, from, to, k);
      SpliceAt(States(es), from, to, k);
    }
  }

  /** The JSON file. Its existence is fixed; its contents are shared by
      every store opened on it and re-read by each write. */
  class Document {
    const present: bool
    var contents: Doc

    constructor (present: bool, contents: Doc)
      ensures this.present == present && this.contents == contents
    {
      this.present := present;
      this.contents := contents;
    }
  }

  /** `Todo`: the entries of one date, loaded from `file`. */
  class Todo {
    const file: Document
    const date: string
    var data: seq<Entry>

    /** Each entry object occurs once, so mutating one leaves the rest. */
    predicate Valid()
      reads this
    {
      Distinct(data)
    }

    /** The records the in-memory list serializes to. */
    function Rows(): seq<Record>
      reads this, data
    {
      ToRecords(States(data))
    }

    /** The in-memory list is what the document holds for this date. */
    predicate Mirrors()
      reads this, file, data
    {
      Rows() == Lookup(file.contents, date)
    }

    constructor Init(file: Document, date: string)
      ensures this.file == file && this.date == date && data == []
    {
      this.file := file;
      this.date := date;
      data := [];
    }

    /** `Todo(path, date)`: fails when the file is absent; otherwise binds to
        `date`, or to today's key when no date is given, and loads it. */
    static method Open(file: Document, date: Option<string>, today: string) returns (r: Result<Todo>)
      ensures !file.present ==> r == Err(FileNotFound)
      ensures file.present ==>
                var key := if date.Some? then date.value else today;
                (r.Err? <==> LoadAll(Lookup(file.contents, key)).Err?) &&
                (r.Err? ==> r.error == LoadAll(Lookup(file.contents, key)).error) &&
                (r.Ok? ==> r.value.date == key)
      ensures r.Ok? ==> fresh(r.value) && r.value.file == file && r.value.Valid() && r.value.Mirrors()
      ensures r.Ok? ==> States(r.value.data) == LoadAll(Lookup(file.contents, r.value.date)).value
      ensures r.Ok? ==> forall k :: 0 <= k < |r.value.data| ==> fresh(r.value.data[k])
    {
      if !file.present {
        return Err(FileNotFound);
      }
      var key := if date.None? then today else date.value;
      var todo := new Todo.Init(file, key);
      var loaded := todo.Load();
      if loaded.Failed? {
        return Err(loaded.error);
      }
      return Ok(todo);
    }

    /** `__open`: deserialize this date's records into new entries. */
    method Load() returns (r: Outcome)
      modifies this
      ensures r.Failed? <==> LoadAll(Lookup(file.contents, date)).Err?
      ensures r.Failed? ==> r.error == LoadAll(Lookup(file.contents, date)).error && data == old(data)
      ensures r.Done? ==> Valid() && Mirrors() && States(data) == LoadAll(Lookup(file.contents, date)).value
      ensures r.Done? ==> forall k :: 0 <= k < |data| ==> fresh(data[k])
    {
      var recs := Lookup(file.contents, date);
      var loaded: seq<Entry> := [];
      var i := 0;
      while i < |recs|
        invariant 0 <= i <= |recs| && |loaded| == i
        invariant data == old(data) && Distinct(loaded)
        invariant forall k :: 0 <= k < i ==> fresh(loaded[k])
        invariant forall k :: 0 <= k < i ==> FromRecord(recs[k]) == Ok(loaded[k].State())
      {
        var entry := Entry.Deserialize(recs[i]);
        if entry.Err? {
          LoadAllFailure(recs, i);
          return Failed(entry.error);
        }
        loaded := loaded + [entry.value];
        i := i + 1;
      }
      ghost var states := States(loaded);
      LoadAllSuccess(recs, states);
      LoadAllInverse(recs);
      assert ToRecords(states) == recs;
      data := loaded;
      assert States(data) == states;
      return Done;
    }

    /** `__write`: append one entry's record to `key`'s list in the file, and
        the entry itself to the in-memory list, whatever `key` is. */
    method Write(key: string, entry: Entry)
      modifies this, file
      ensures file.contents == AppendRecord(old(file.contents), key, entry.Serialize())
      ensures data == old(data) + [entry]
    {
      file.contents := AppendRecord(file.contents, key, entry.Serialize());
      data := data + [entry];
    }

    /** `__bulk_write_date`: replace `key`'s list in the file with the records
        of `entries`, which become the in-memory list. */
    method BulkWriteDate(key: string, entries: seq<Entry>)
      modifies this, file
      ensures file.contents == ReplaceDate(old(file.contents), key, ToRecords(States(entries)))
      ensures data == entries
    {
      file.contents := ReplaceDate(file.contents, key, ToRecords(States(entries)));
      data := entries;
    }

    /** `add`: a new entry, persisted under TODAY's key (`todayKey`), not
        necessarily this store's date, yet appended to this store's list. */
    method Add(task: string, todayKey: string, today: Timestamp, now: Timestamp) returns (entry: Entry)
      requires Valid()
      modifies this, file
      ensures Valid() && fresh(entry)
      ensures entry.State() == NewState(task, today, now)
      ensures data == old(data) + [entry]
      ensures file.contents == AppendRecord(old(file.contents), todayKey, ToRecord(NewState(task, today, now)))
      ensures Rows() == old(Rows()) + [ToRecord(NewState(task, today, now))]
      ensures Lookup(file.contents, date) ==
                Lookup(old(file.contents), date) + if todayKey == date then [entry.Serialize()] else []
    {
      entry := new Entry(task, today, now);
      Write(todayKey, entry);
      assert States(data) == old(States(data)) + [entry.State()];
    }

    /** `get`: the entry at `index`, or IndexError outside `[0, len)`. */
    function Get(index: int): (r: Result<Entry>)
      reads this
      ensures r.Ok? <==> InRange(index, |data|)
      ensures r.Ok? ==> r.value == data[index]
      ensures r.Err? ==> r.error == TaskIndexOutOfRange
    {
      if index < 0 || index >= |data| then Err(TaskIndexOutOfRange) else Ok(data[index])
    }

    /** `__len__`: exactly the indices below it are accepted by `get`. */
    function Length(): (n: nat)
      reads this
      ensures forall i :: Get(i).Ok? <==> 0 <= i < n
    {
      |data|
    }

    /** `update`: rename or change the status of the entry at `index`, then
        rewrite this date's list. Nothing changes when a check fails. */
    method Update(index: int, status: Option<Status>, title: Option<string>, now: Timestamp) returns (r: Outcome)
      requires Valid()
      modifies this, file, if InRange(index, |data|) then {data[index]} else {}
      ensures Valid() && data == old(data)
      ensures r.Failed? <==> ChooseEdit(index, |data|, status, title).Err?
      ensures r.Failed? ==> r.error == ChooseEdit(index, |data|, status, title).error
      ensures r.Failed? ==> file.contents == old(file.contents) && States(data) == old(States(data))
      ensures r.Done? ==>
                data[index].State() == ApplyEdit(old(data[index].State()), ChooseEdit(index, |data|, status, title).value, now)
      ensures r.Done? ==> forall j :: 0 <= j < |data| && j != index ==> data[j].State() == old(data[j].State())
      ensures r.Done? ==> file.contents == ReplaceDate(old(file.contents), date, Rows()) && Mirrors()
    {
      if index < 0 || index >= |data| {
        return Failed(TaskIndexOutOfRange);
      }
      var task := data[index];
      if title.Some? && title.value != "" {
        task.UpdateTitle(title.value, now);
        BulkWriteDate(date, data);
        return Done;
      }
      if status.Some? {
        task.UpdateStatus(status.value, now);
        BulkWriteDate(date, data);
        return Done;
      }
      return Failed(StatusOrTitleRequired);
    }

    /** `reorder`: move the entry at `from` to `to`, shifting the ones in
        between, then rewrite this date's list. */
    method Reorder(from: int, to: int) returns (r: Outcome)
      requires Valid()
      modifies this, file
      ensures Valid()
      ensures r == CheckReorder(from, to, |old(data)|)
      ensures r.Failed? ==> data == old(data) && file.contents == old(file.contents)
      ensures r.Done? ==> data == Splice(old(data), from, to) && multiset(data) == multiset(old(data))
      ensures r.Done? ==> Rows() == Splice(old(Rows()), from, to)
      ensures r.Done? ==> file.contents == ReplaceDate(old(file.contents), date, Rows()) && Mirrors()
    {
      if from < 0 || from >= |data| {
        return Failed(FromIndexOutOfRange);
      }
      if to < 0 || to >= |data| {
        return Failed(ToIndexOutOfRange);
      }
      var moved := Splice(data, from, to);
      ghost var rows := Rows();
      SplicePermutes(data, from, to);
      SpliceDistinct(data, from, to);
      StatesSplice(data, from, to);
      ToRecordsSplice(States(data), from, to);
      assert ToRecords(States(moved)) == Splice(rows, from, to);
      BulkWriteDate(date, moved);
      return Done;
    }
  }
}
