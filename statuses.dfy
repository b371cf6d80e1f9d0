/** The closed `Status` enumeration of an entry's lifecycle. */
module Statuses {
  import opened Results

  datatype Status = Pending | Completed | Deleted | Cancelled
  {
    /** The enum member's value: what is persisted in the document. */
    function Value(): (r: string)
      ensures r in {"pending", "completed", "deleted", "canceled"}
      ensures forall k :: 0 <= k < |r| ==> 'a' <= r[k] <= 'z'
    {
      match this
      case Pending => "pending"
      case Completed => "completed"
      case Deleted => "deleted"
      case Cancelled => "canceled"
    }

    /** The enum member's name: what audit log lines show. */
    function Name(): (r: string)
      ensures r in {"PENDING", "COMPLETED", "DELETED", "CANCELLED"}
      ensures forall k :: 0 <= k < |r| ==> 'A' <= r[k] <= 'Z'
    {
      match this
      case Pending => "PENDING"
      case Completed => "COMPLETED"
      case Deleted => "DELETED"
      case Cancelled => "CANCELLED"
    }
  }

  /** `Status(value)`: the member whose value is `s`, or the ValueError raised
      when no member has that value. */
  function ParseStatus(s: string): (r: Result<Status>)
    ensures r.Ok? <==> s in {"pending", "completed", "deleted", "canceled"}
    ensures r.Ok? ==> r.value.Value() == s
    ensures r.Err? ==> r.error == InvalidStatus(s) && forall st: Status :: st.Value() != s
  {
    if s == "pending" then Ok(Pending)
    else if s == "completed" then Ok(Completed)
    else if s == "deleted" then Ok(Deleted)
    else if s == "canceled" then Ok(Cancelled)
    else Err(InvalidStatus(s))
  }

  /** Every member is recovered from its persisted value. */
  lemma ValueRoundTrip(st: Status)
    ensures ParseStatus(st.Value()) == Ok(st)
  {
  }

  /** Distinct members persist as distinct values. */
  lemma ValueInjective(a: Status, b: Status)
    ensures a.Value() == b.Value() ==> a == b
  {
  }
}
