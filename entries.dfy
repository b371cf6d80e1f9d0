/** One task of the log: its audit lines, its value snapshot, its persisted
    record, and the mutable `Entry` object that the store hands out. */
module Entries {
  import opened Results
  import opened Statuses

  /** One reading of the configured-time-zone clock. Readings are injected by
      the caller; their text formats are not modelled. */
  datatype Timestamp = Timestamp(micros: int)

  /** One audit line. Each constructor is one of the f-strings of the
      source, keeping the fields it interpolates. */
  datatype LogLine =
    | Created(day: Timestamp)
    | TitleUpdated(newTitle: string, oldTitle: string, at: Timestamp)
    | StatusUpdated(status: Status, at: Timestamp)
  {
    /** The line's text up to its formatted timestamp. Its first two
        characters tell which kind of line it is, and it always ends in
        " on " followed by the time. */
    function Heading(): (r: string)
      ensures |r| >= 4 && r[|r| - 4..] == " on "
      ensures this.Created? <==> r[..2] == "Ta"
      ensures this.TitleUpdated? <==> r[..2] == "Ti"
      ensures this.StatusUpdated? <==> r[..2] == "St"
    {
      match this
      case Created(_) => "Task created on "
      case TitleUpdated(n, o, _) =>
        var h := "Title updated to " + n + " from " + o + " on ";
        assert h[..2] == "Ti";
        h
      case StatusUpdated(s, _) =>
        var h := "Status updated to " + s.Name() + " on ";
        assert h[..2] == "St";
        h
    }
  }

  /** The value of an entry's fields at one moment. */
  datatype EntryState = EntryState(
    title: string,
    status: Status,
    dateCreated: Timestamp,
    dateUpdated: Timestamp,
    log: seq<LogLine>)

  /** The plain record an entry serializes to: the status is kept as its
      persisted string, so a record read back from the document may hold a
      value that no member of `Status` has. */
  datatype Record = Record(
    title: string,
    status: string,
    dateCreated: Timestamp,
    dateUpdated: Timestamp,
    log: seq<LogLine>)

  /** `after` is `before` with exactly one line appended, `line`. */
  predicate AppendsLine(before: seq<LogLine>, after: seq<LogLine>, line: LogLine)
  {
    |after| == |before| + 1 && after[..|before|] == before && after[|before|] == line
  }

  /** A freshly constructed entry. `today` is the reading whose day goes into
      the creation line, `now` the one both timestamps take. */
  function NewState(title: string, today: Timestamp, now: Timestamp): (r: EntryState)
    ensures r.title == title && r.status == Pending
    ensures r.dateCreated == now && r.dateUpdated == r.dateCreated
    ensures |r.log| == 1 && r.log[0] == Created(today)
    ensures r.log[0].Heading() == "Task created on "
  {
    EntryState(title, Pending, now, now, [Created(today)])
  }

  /** `update_title`: the new line records the new title, the old title and
      the PREVIOUS update time, which is refreshed only afterwards. */
  function Retitled(s: EntryState, title: string, now: Timestamp): (r: EntryState)
    ensures r.title == title && r.dateUpdated == now
    ensures r.status == s.status && r.dateCreated == s.dateCreated
    ensures AppendsLine(s.log, r.log, TitleUpdated(title, s.title, s.dateUpdated))
  {
    EntryState(title, s.status, s.dateCreated, now, s.log + [TitleUpdated(title, s.title, s.dateUpdated)])
  }

  /** `update_status`: the update time is refreshed first, so the new line
      records the new status and the NEW update time. */
  function WithStatus(s: EntryState, status: Status, now: Timestamp): (r: EntryState)
    ensures r.status == status && r.dateUpdated == now
    ensures r.title == s.title && r.dateCreated == s.dateCreated
    ensures AppendsLine(s.log, r.log, StatusUpdated(status, now))
  {
    EntryState(s.title, status, s.dateCreated, now, s.log + [StatusUpdated(status, now)])
  }

  /** The texts the audit lines begin with: a status change names the
      member, not its persisted value, and a rename names both titles. */
  lemma AuditLineHeadings(s: EntryState, title: string, now: Timestamp)
    ensures WithStatus(s, Completed, now).log[|s.log|].Heading() == "Status updated to COMPLETED on "
    ensures WithStatus(s, Cancelled, now).log[|s.log|].Heading() == "Status updated to CANCELLED on "
    ensures Retitled(s, title, now).log[|s.log|].Heading() ==
              "Title updated to " + title + " from " + s.title + " on "
  {
  }

  /** `deserialize`: fails exactly when the status string names no member. */
  function FromRecord(rec: Record): (r: Result<EntryState>)
    ensures r.Ok? <==> ParseStatus(rec.status).Ok?
    ensures r.Err? ==> r.error == InvalidStatus(rec.status)
    ensures r.Ok? ==> r.value.title == rec.title && r.value.status.Value() == rec.status
    ensures r.Ok? ==> r.value.dateCreated == rec.dateCreated && r.value.dateUpdated == rec.dateUpdated
    ensures r.Ok? ==> r.value.log == rec.log
  {
    match ParseStatus(rec.status)
    case Err(e) => Err(e)
    case Ok(st) => Ok(EntryState(rec.title, st, rec.dateCreated, rec.dateUpdated, rec.log))
  }

  /** `serialize`: reading the record back reproduces every field. */
  function ToRecord(s: EntryState): (r: Record)
    ensures FromRecord(r) == Ok(s)
  {
    ValueRoundTrip(s.status);
    Record(s.title, s.status.Value(), s.dateCreated, s.dateUpdated, s.log)
  }

  /** The other direction: a record that deserializes is the serialization
      of what it deserializes to. */
  lemma RecordRoundTrip(rec: Record)
    requires FromRecord(rec).Ok?
    ensures ToRecord(FromRecord(rec).value) == rec
  {
  }

  /** `serialize` loses nothing: distinct snapshots give distinct records. */
  lemma ToRecordInjective(a: EntryState, b: EntryState)
    requires ToRecord(a) == ToRecord(b)
    ensures a == b
  {
    assert FromRecord(ToRecord(a)) == Ok(a);
  }

  /** A task whose fields its owners update in place. */
  class Entry {
    var title: string
    var status: Status
    var dateCreated: Timestamp
    var dateUpdated: Timestamp
    var log: seq<LogLine>

    function State(): EntryState
      reads this
    {
      EntryState(title, status, dateCreated, dateUpdated, log)
    }

    /** `Entry(title)`, given the two clock readings it takes. */
    constructor (title: string, today: Timestamp, now: Timestamp)
      ensures State() == NewState(title, today, now)
    {
      this.title := title;
      status := Pending;
      dateCreated := now;
      dateUpdated := now;
      log := [Created(today)];
    }

    /** An entry whose fields are all given, as `deserialize` leaves it. */
    constructor Restore(s: EntryState)
      ensures State() == s
    {
      title := s.title;
      status := s.status;
      dateCreated := s.dateCreated;
      dateUpdated := s.dateUpdated;
      log := s.log;
    }

    method UpdateTitle(newTitle: string, now: Timestamp)
      modifies this
      ensures State() == Retitled(old(State()), newTitle, now)
    {
      log := log + [TitleUpdated(newTitle, title, dateUpdated)];
      title := newTitle;
      dateUpdated := now;
    }

    method UpdateStatus(newStatus: Status, now: Timestamp)
      modifies this
      ensures State() == WithStatus(old(State()), newStatus, now)
    {
      status := newStatus;
      dateUpdated := now;
      log := log + [StatusUpdated(newStatus, dateUpdated)];
    }

    function Serialize(): (r: Record)
      reads this
      ensures FromRecord(r) == Ok(State())
    {
      ToRecord(State())
    }

    /** `Entry.deserialize`: a new entry holding the record's fields, or the
        ValueError of an unknown status string. */
    static method Deserialize(rec: Record) returns (r: Result<Entry>)
      ensures r.Err? <==> FromRecord(rec).Err?
      ensures r.Err? ==> r.error == InvalidStatus(rec.status)
      ensures r.Ok? ==> fresh(r.value) && r.value.State() == FromRecord(rec).value
    {
      var parsed := FromRecord(rec);
      if parsed.Err? {
        r := Err(parsed.error);
      } else {
        var entry := new Entry.Restore(parsed.value);
        r := Ok(entry);
      }
    }
  }
}
