/**
 * SLAEventsGetForSeqIdCommand: read the SLA events newer than a sequence id, a page
 * at a time, and move the caller's cursor `lastSeqId[0]` to the largest event id seen.
 */
module SlaEvents {
  import opened Oozie

  /** SLAEventBean: the event id is the sequence number the cursor follows. */
  datatype SlaEvent = SlaEvent(eventId: int, slaId: string, status: SlaStatus)

  /**
   * The entity manager's answer to the named query GET_SLA_EVENT_NEWER_SEQ_LIMITED for a
   * sequence id, before the page limit is applied; a failure is the exception it raises.
   */
  datatype EntityManager = EntityManager(newerSeq: int -> Result<seq<SlaEvent>, XException>)

  const E0603: string := "E0603"

  function Max(a: int, b: int): int {
    if a < b then b else a
  }

  /** The cursor after a page: the larger of `from` and every event id of the page. */
  function MaxEventId(from: int, events: seq<SlaEvent>): (r: int)
    ensures r >= from
    ensures forall i :: 0 <= i < |events| ==> r >= events[i].eventId
    ensures r == from || exists i :: 0 <= i < |events| && r == events[i].eventId
  {
    if events == [] then from
    else
      var front := events[..|events| - 1];
      var rest := MaxEventId(from, front);
      assert forall i :: 0 <= i < |front| ==> front[i] == events[i];
      Max(rest, events[|events| - 1].eventId)
  }

  /**
   * The page the command returns: the first `limitLen` rows of the query (what
   * `setMaxResults` asks of the entity manager), or E0603 when the query fails or
   * the limit is negative, which `setMaxResults` refuses.
   */
  function Page(em: EntityManager, seqId: int, limitLen: int): (r: Result<seq<SlaEvent>, Error>)
    ensures r.Failure? <==> limitLen < 0 || em.newerSeq(seqId).Failure?
    ensures r.Failure? ==> r.error == CommandException(E0603)
    ensures r.Success? ==> |r.value| <= limitLen && r.value <= em.newerSeq(seqId).value
    ensures r.Success? && |r.value| < limitLen ==> r.value == em.newerSeq(seqId).value
  {
    if limitLen < 0 then Failure(CommandException(E0603))
    else
      match em.newerSeq(seqId)
      case Failure(_) => Failure(CommandException(E0603))
      case Success(rows) =>
        if |rows| <= limitLen then Success(rows) else Success(rows[..limitLen])
  }

  class SLAEventsGetForSeqIdCommand {
    const seqId: int
    const limitLen: int
    const lastSeqId: array<int>

    /** Remembers the query and resets the caller's cursor to `seqId`. */
    constructor (seqId: int, limitLen: int, lastSeqId: array<int>)
      requires lastSeqId.Length >= 1
      modifies lastSeqId
      ensures this.seqId == seqId && this.limitLen == limitLen && this.lastSeqId == lastSeqId
      ensures lastSeqId[0] == seqId
      ensures forall i :: 1 <= i < lastSeqId.Length ==> lastSeqId[i] == old(lastSeqId[i])
    {
      this.seqId := seqId;
      this.limitLen := limitLen;
      this.lastSeqId := lastSeqId;
      new;
      lastSeqId[0] := seqId;
    }

    function Name(): string {
      "SLAEventsGetForSeqIdCommand"
    }

    method Execute(em: EntityManager) returns (r: Result<seq<SlaEvent>, Error>)
      requires lastSeqId.Length >= 1
      modifies lastSeqId
      ensures r == Page(em, seqId, limitLen)
      ensures lastSeqId[0] == (if r.Success? then MaxEventId(old(lastSeqId[0]), r.value) else old(lastSeqId[0]))
      ensures forall i :: 1 <= i < lastSeqId.Length ==> lastSeqId[i] == old(lastSeqId[i])
    {
      if limitLen < 0 {
        return Failure(CommandException(E0603));
      }
      var rows := em.newerSeq(seqId);
      if rows.Failure? {
        return Failure(CommandException(E0603));
      }
      var seBeans := if |rows.value| <= limitLen then rows.value else rows.value[..limitLen];
      for k := 0 to |seBeans|
        invariant lastSeqId[0] == MaxEventId(old(lastSeqId[0]), seBeans[..k])
        invariant forall i :: 1 <= i < lastSeqId.Length ==> lastSeqId[i] == old(lastSeqId[i])
      {
        assert seBeans[..k + 1][..k] == seBeans[..k];
        lastSeqId[0] := Max(lastSeqId[0], seBeans[k].eventId);
      }
      assert seBeans[..|seBeans|] == seBeans;
      return Success(seBeans);
    }
  }

  // ---------------------------------------------------------------------------
  // The cursor.

  /** A page with no events leaves the cursor where it was. */
  lemma EmptyPageKeepsCursor(from: int)
    ensures MaxEventId(from, []) == from
  {
  }

  /** The cursor is the least bound of `from` and the page's event ids. */
  lemma {:induction false} MaxEventIdIsLeastBound(from: int, events: seq<SlaEvent>, bound: int)
    requires bound >= from
    requires forall i :: 0 <= i < |events| ==> bound >= events[i].eventId
    ensures MaxEventId(from, events) <= bound
  {
    var r := MaxEventId(from, events);
    if r != from {
      var i :| 0 <= i < |events| && r == events[i].eventId;
    }
  }

  /**
   * Reading two pages in turn leaves the cursor where reading their concatenation in
   * one page would: the cursor can be carried from one command to the next.
   */
  lemma {:induction false} CursorCarriesAcrossPages(from: int, first: seq<SlaEvent>, second: seq<SlaEvent>)
    ensures MaxEventId(MaxEventId(from, first), second) == MaxEventId(from, first + second)
    decreases |second|
  {
    if second == [] {
      assert first + second == first;
    } else {
      var front := second[..|second| - 1];
      assert (first + second)[..|first + second| - 1] == first + front;
      assert (first + second)[|first + second| - 1] == second[|second| - 1];
      CursorCarriesAcrossPages(from, first, front);
    }
  }

  /** The cursor depends on the set of event ids read, not on the order the query returns them in. */
  lemma {:induction false} CursorIgnoresOrder(from: int, events: seq<SlaEvent>, reordered: seq<SlaEvent>)
    requires multiset(events) == multiset(reordered)
    ensures MaxEventId(from, events) == MaxEventId(from, reordered)
  {
    var a := MaxEventId(from, events);
    var b := MaxEventId(from, reordered);
    forall i | 0 <= i < |reordered|
      ensures a >= reordered[i].eventId
    {
      assert reordered[i] in multiset(events);
      var j :| 0 <= j < |events| && events[j] == reordered[i];
    }
    forall i | 0 <= i < |events|
      ensures b >= events[i].eventId
    {
      assert events[i] in multiset(reordered);
      var j :| 0 <= j < |reordered| && reordered[j] == events[i];
    }
    MaxEventIdIsLeastBound(from, reordered, a);
    MaxEventIdIsLeastBound(from, events, b);
  }
}
