/**
 * The `StatusHistory` audit log: an append-only sequence of status-change
 * records, and the contiguity every ticket's own records must keep.
 */
module Audit {
  import opened Wrappers
  import opened Lifecycle
  import opened Accounts

  /** One `StatusHistory` row; `fromStatus` is None only on the creation record. */
  datatype StatusRecord = StatusRecord(ticket: nat, fromStatus: Option<Status>, toStatus: Status, changedBy: User)

  /** The records of ticket `pk`, in the order they were written. */
  function HistoryOf(h: seq<StatusRecord>, pk: nat): (r: seq<StatusRecord>)
    ensures |r| <= |h|
  {
    if h == [] then []
    else HistoryOf(h[..|h| - 1], pk) + (if h[|h| - 1].ticket == pk then [h[|h| - 1]] else [])
  }

  /** A ticket's history holds exactly the table's records that refer to it. */
  lemma {:induction false} HistoryOfMembers(h: seq<StatusRecord>, pk: nat)
    ensures forall x :: x in HistoryOf(h, pk) <==> x in h && x.ticket == pk
  {
    if h != [] {
      HistoryOfMembers(h[..|h| - 1], pk);
      assert h == h[..|h| - 1] + [h[|h| - 1]];
    }
  }

  /** Appending a record extends the history of its own ticket and of no other. */
  lemma HistoryOfAppend(h: seq<StatusRecord>, x: StatusRecord, pk: nat)
    ensures HistoryOf(h + [x], pk) == HistoryOf(h, pk) + (if x.ticket == pk then [x] else [])
  {
    assert (h + [x])[..|h|] == h;
  }

  /** A ticket none of whose records has been written yet has an empty history. */
  lemma HistoryOfAbsent(h: seq<StatusRecord>, pk: nat)
    requires forall x :: x in h ==> x.ticket != pk
    ensures HistoryOf(h, pk) == []
  {
    HistoryOfMembers(h, pk);
  }

  /**
   * A contiguous history ending at `s`: the first record is `None -> New`,
   * each later record starts where the previous one ended and follows an
   * allowed transition, and the last record ends at `s`.
   */
  predicate ChainEndsAt(h: seq<StatusRecord>, s: Status) {
    && |h| > 0
    && h[0].fromStatus == None
    && h[0].toStatus == New
    && (forall k :: 0 < k < |h| ==> h[k].fromStatus == Some(h[k - 1].toStatus))
    && (forall k :: 0 < k < |h| ==> CanTransition(h[k - 1].toStatus, h[k].toStatus))
    && h[|h| - 1].toStatus == s
  }

  /** The creation record alone is a contiguous history ending at `New`. */
  lemma ChainStart(pk: nat, u: User)
    ensures ChainEndsAt([StatusRecord(pk, None, New, u)], New)
  {
  }

  /** Recording an allowed transition from the current status keeps the history contiguous. */
  lemma ChainExtend(h: seq<StatusRecord>, s: Status, x: StatusRecord)
    requires ChainEndsAt(h, s)
    requires x.fromStatus == Some(s) && CanTransition(s, x.toStatus)
    ensures ChainEndsAt(h + [x], x.toStatus)
  {
  }

  /** In a contiguous history only the creation record enters `New`. */
  lemma ChainNewOnlyAtStart(h: seq<StatusRecord>, s: Status, k: nat)
    requires ChainEndsAt(h, s)
    requires 0 < k < |h|
    ensures h[k].toStatus != New
  {
    NewNeverReentered(h[k - 1].toStatus);
  }

  /**
   * The history table agrees with the tickets whose statuses are
   * `statuses` (ticket k has status statuses[k - 1]): every record belongs
   * to one of them, and each one's records are contiguous up to its status.
   */
  predicate HistoryAgrees(h: seq<StatusRecord>, statuses: seq<Status>) {
    && (forall x :: x in h ==> 1 <= x.ticket <= |statuses|)
    && (forall i :: 0 <= i < |statuses| ==> AgreesAt(h, statuses, i))
  }

  /** The records of the ticket with primary key i + 1 are contiguous up to its status. */
  predicate AgreesAt(h: seq<StatusRecord>, statuses: seq<Status>, i: nat)
    requires i < |statuses|
  {
    ChainEndsAt(HistoryOf(h, i + 1), statuses[i])
  }

  /** Saving a new ticket in `New` with its creation record keeps the table in agreement. */
  lemma {:induction false} CreateKeepsAgreement(h: seq<StatusRecord>, statuses: seq<Status>, u: User)
    requires HistoryAgrees(h, statuses)
    ensures HistoryAgrees(h + [StatusRecord(|statuses| + 1, None, New, u)], statuses + [New])
  {
    var x := StatusRecord(|statuses| + 1, None, New, u);
    var statuses' := statuses + [New];
    HistoryOfAbsent(h, |statuses| + 1);
    forall i | 0 <= i < |statuses'|
      ensures AgreesAt(h + [x], statuses', i)
    {
      HistoryOfAppend(h, x, i + 1);
      if i == |statuses| {
        ChainStart(i + 1, u);
      } else {
        assert AgreesAt(h, statuses, i);
      }
    }
  }

  /**
   * Moving ticket `k` along an allowed transition together with its record
   * keeps the table in agreement.
   */
  lemma {:induction false} TransitionKeepsAgreement(h: seq<StatusRecord>, statuses: seq<Status>, k: nat, to: Status, u: User)
    requires HistoryAgrees(h, statuses)
    requires 1 <= k <= |statuses| && CanTransition(statuses[k - 1], to)
    ensures HistoryAgrees(h + [StatusRecord(k, Some(statuses[k - 1]), to, u)], statuses[k - 1 := to])
  {
    var x := StatusRecord(k, Some(statuses[k - 1]), to, u);
    var statuses' := statuses[k - 1 := to];
    forall i | 0 <= i < |statuses'|
      ensures AgreesAt(h + [x], statuses', i)
    {
      HistoryOfAppend(h, x, i + 1);
      if i == k - 1 {
        assert AgreesAt(h, statuses, i);
        ChainExtend(HistoryOf(h, k), statuses[k - 1], x);
      } else {
        assert HistoryOf(h + [x], i + 1) == HistoryOf(h, i + 1);
        assert AgreesAt(h, statuses, i);
      }
    }
    assert forall y :: y in h + [x] ==> y in h || y == x;
  }
}
