/** The lease ledger over stage rows (ledger.go). Times and durations are integers in one unit. */
module StageLedger {
  import opened Wrappers
  import opened Events

  datatype StageState = InProgress | Completed | FailedState

  datatype StageRecord = StageRecord(state: StageState, attempt: int, lease: Option<int>, result: Option<Bundle>)

  datatype Disposition = ClaimAcquired | ClaimCompleted | ClaimBusy | ClaimFailed

  predicate Terminal(r: StageRecord) {
    !r.state.InProgress?
  }

  predicate Live(lease: Option<int>, now: int) {
    lease.Some? && lease.value > now
  }

  /** What a claim made at `now` answers, by the row it finds. */
  function ClaimDisposition(row: Option<StageRecord>, now: int): Disposition {
    match row
    case None => ClaimAcquired
    case Some(r) =>
      if r.state.Completed? then ClaimCompleted
      else if r.state.FailedState? then ClaimFailed
      else if Live(r.lease, now) then ClaimBusy
      else ClaimAcquired
  }

  function RowAt<K(==)>(rows: map<K, StageRecord>, k: K): Option<StageRecord> {
    if k in rows then Some(rows[k]) else None
  }

  /** The row a claim leaves: only an acquisition writes, and it keeps an earlier result. */
  function ClaimedRow(row: Option<StageRecord>, now: int, d: int): StageRecord {
    match row
    case None => StageRecord(InProgress, 1, Some(now + d), None)
    case Some(r) =>
      if ClaimDisposition(row, now).ClaimAcquired? then r.(state := InProgress, attempt := r.attempt + 1, lease := Some(now + d))
      else r
  }

  function ClaimRows<K>(rows: map<K, StageRecord>, k: K, now: int, d: int): map<K, StageRecord> {
    rows[k := ClaimedRow(RowAt(rows, k), now, d)]
  }

  function RenewRows<K>(rows: map<K, StageRecord>, k: K, now: int, d: int): map<K, StageRecord> {
    if k in rows && rows[k].state.InProgress? then rows[k := rows[k].(lease := Some(now + d))] else rows
  }

  /** `set`: no guard on state or owner. */
  function SetRows<K>(rows: map<K, StageRecord>, k: K, state: StageState, result: Bundle): map<K, StageRecord> {
    if k in rows then rows[k := rows[k].(state := state, result := Some(result), lease := None)] else rows
  }

  /** `Release`: no guard on state or owner either. */
  function ReleaseRows<K>(rows: map<K, StageRecord>, k: K): map<K, StageRecord> {
    if k in rows then rows[k := rows[k].(state := InProgress, lease := None)] else rows
  }

  function StateFor(outcome: Outcome): StageState {
    match outcome
    case Succeeded => Completed
    case Failed => FailedState
  }

  /** A row as the schema and the callers keep it: a positive attempt, and on a terminal row no lease and a bundle
      that tells the story of that state. */
  predicate RowOk(id: string, r: StageRecord) {
    && r.attempt > 0
    && (r.result.Some? ==> Matched(r.result.value, id))
    && (Terminal(r) ==> r.lease.None? && r.result.Some? && r.state == StateFor(r.result.value.service.outcome))
  }

  predicate RowsOk(rows: map<string, StageRecord>) {
    forall k :: k in rows ==> RowOk(k, rows[k])
  }

  lemma OperationsKeepRowsOk(rows: map<string, StageRecord>, k: string, now: int, d: int, b: Bundle)
    requires RowsOk(rows)
    ensures RowsOk(ClaimRows(rows, k, now, d)) && RowsOk(RenewRows(rows, k, now, d)) && RowsOk(ReleaseRows(rows, k))
    ensures Matched(b, k) ==> RowsOk(SetRows(rows, k, StateFor(b.service.outcome), b))
  {
  }

  /** Who gets the stage: a claim acquires exactly when no live lease and no outcome stands in its way; it then
      counts one more attempt and bars every other claim made before its lease runs out. Otherwise it writes nothing. */
  lemma ClaimGrantsExclusively<K>(rows: map<K, StageRecord>, k: K, now: int, d: int, later: int)
    ensures var rows' := ClaimRows(rows, k, now, d);
            if k in rows && (Terminal(rows[k]) || Live(rows[k].lease, now)) then
              rows' == rows && !ClaimDisposition(RowAt(rows, k), now).ClaimAcquired?
            else
              && ClaimDisposition(RowAt(rows, k), now).ClaimAcquired?
              && rows'[k].attempt == (if k in rows then rows[k].attempt else 0) + 1
              && (ClaimDisposition(RowAt(rows', k), later).ClaimBusy? <==> later < now + d)
  {
    if k in rows && (Terminal(rows[k]) || Live(rows[k].lease, now)) {
      assert ClaimRows(rows, k, now, d) == rows;
    }
  }

  /** What a claim finds and leaves, field by field: an outcome is answered as it is; a row in progress is busy while its
      lease lies ahead; and a stage acquired is in progress under a lease from now on, one attempt further, with the result it
      had. */
  lemma ClaimAnswers(row: Option<StageRecord>, now: int, d: int)
    ensures var answer, left := ClaimDisposition(row, now), ClaimedRow(row, now, d);
            match row
            case None => answer == ClaimAcquired && left == StageRecord(InProgress, 1, Some(now + d), None)
            case Some(r) =>
              if r.state == Completed then answer == ClaimCompleted && left == r
              else if r.state == FailedState then answer == ClaimFailed && left == r
              else if r.lease.Some? && now < r.lease.value then answer == ClaimBusy && left == r
              else answer == ClaimAcquired && left == StageRecord(InProgress, r.attempt + 1, Some(now + d), r.result)
  {
  }

  /** The other operations, field by field: a renewal moves the lease of a row in progress; a write sets state and result and
      clears the lease; a release puts the row in progress and clears the lease. Rows that do not exist are not made, and other
      rows are not touched. */
  lemma WritesMean<K>(rows: map<K, StageRecord>, k: K, now: int, d: int, state: StageState, b: Bundle)
    ensures k !in rows ==> RenewRows(rows, k, now, d) == SetRows(rows, k, state, b) == ReleaseRows(rows, k) == rows
    ensures k in rows ==>
              && RenewRows(rows, k, now, d) ==
                 (if rows[k].state == InProgress then rows[k := StageRecord(InProgress, rows[k].attempt, Some(now + d), rows[k].result)] else rows)
              && SetRows(rows, k, state, b) == rows[k := StageRecord(state, rows[k].attempt, None, Some(b))]
              && ReleaseRows(rows, k) == rows[k := StageRecord(InProgress, rows[k].attempt, None, rows[k].result)]
    ensures forall other :: other != k ==>
              RowAt(ClaimRows(rows, k, now, d), other) == RowAt(rows, other)
  {
  }

  // ---- The table itself ----

  datatype Key = Key(deploymentId: string, stage: string)

  /** How the database treats one call: it answers, it fails with nothing written, or it commits and the answer is lost. */
  datatype Fault = Answered | Rejected | Unacknowledged

  datatype Reply<T> = Ok(value: T) | Err

  class PostgresStageLedger {
    var rows: map<Key, StageRecord>
    var calls: nat
    const faults: nat -> Fault

    constructor (faults: nat -> Fault)
      ensures rows == map[] && calls == 0 && this.faults == faults
    {
      rows, calls, this.faults := map[], 0, faults;
    }

    /** How the next call fares; a context already cancelled never reaches the database. */
    function NextFault(live: bool): Fault
      reads this
    {
      if live then faults(calls) else Rejected
    }

    method Claim(now: int, id: string, stage: string, d: int) returns (reply: Reply<(Disposition, StageRecord)>)
      modifies this
      ensures calls == old(calls) + 1
      ensures rows == if old(NextFault(true)).Rejected? then old(rows) else ClaimRows(old(rows), Key(id, stage), now, d)
      ensures reply == if old(NextFault(true)).Answered?
                       then Ok((ClaimDisposition(RowAt(old(rows), Key(id, stage)), now),
                                ClaimedRow(RowAt(old(rows), Key(id, stage)), now, d)))
                       else Err
    {
      var fault := NextFault(true);
      calls := calls + 1;
      if fault.Rejected? { return Err; }
      var k := Key(id, stage);
      if k !in rows {
        var fresh_ := StageRecord(InProgress, 1, Some(now + d), None);
        rows := rows[k := fresh_];
        return if fault.Answered? then Ok((ClaimAcquired, fresh_)) else Err;
      }
      var r := rows[k];
      assert rows[k := r] == rows;
      if r.state.Completed? { return if fault.Answered? then Ok((ClaimCompleted, r)) else Err; }
      if r.state.FailedState? { return if fault.Answered? then Ok((ClaimFailed, r)) else Err; }
      if r.lease.Some? && r.lease.value > now { return if fault.Answered? then Ok((ClaimBusy, r)) else Err; }
      r := r.(attempt := r.attempt + 1);
      r := r.(lease := Some(now + d));
      rows := rows[k := r.(state := InProgress)];
      reply := if fault.Answered? then Ok((ClaimAcquired, r)) else Err;
    }

    method Renew(live: bool, now: int, id: string, stage: string, d: int) returns (reply: Reply<()>)
      modifies this
      ensures calls == old(calls) + 1
      ensures rows == if old(NextFault(live)).Rejected? then old(rows) else RenewRows(old(rows), Key(id, stage), now, d)
      ensures reply.Ok? <==> old(NextFault(live)).Answered?
    {
      var fault := NextFault(live);
      calls := calls + 1;
      if fault.Rejected? { return Err; }
      var k := Key(id, stage);
      if k in rows && rows[k].state == InProgress {
        rows := rows[k := rows[k].(lease := Some(now + d))];
      }
      reply := if fault.Answered? then Ok(()) else Err;
    }

    method Set(live: bool, id: string, stage: string, s: StageState, v: Bundle) returns (reply: Reply<()>)
      modifies this
      ensures calls == old(calls) + 1
      ensures rows == if old(NextFault(live)).Rejected? then old(rows) else SetRows(old(rows), Key(id, stage), s, v)
      ensures reply.Ok? <==> old(NextFault(live)).Answered?
    {
      var fault := NextFault(live);
      calls := calls + 1;
      if fault.Rejected? { return Err; }
      var k := Key(id, stage);
      if k in rows {
        rows := rows[k := rows[k].(state := s, result := Some(v), lease := None)];
      }
      reply := if fault.Answered? then Ok(()) else Err;
    }

    method Complete(live: bool, id: string, stage: string, v: Bundle) returns (reply: Reply<()>)
      modifies this
      ensures calls == old(calls) + 1
      ensures rows == if old(NextFault(live)).Rejected? then old(rows) else SetRows(old(rows), Key(id, stage), Completed, v)
      ensures reply.Ok? <==> old(NextFault(live)).Answered?
    {
      reply := Set(live, id, stage, Completed, v);
    }

    method Fail(live: bool, id: string, stage: string, v: Bundle) returns (reply: Reply<()>)
      modifies this
      ensures calls == old(calls) + 1
      ensures rows == if old(NextFault(live)).Rejected? then old(rows) else SetRows(old(rows), Key(id, stage), FailedState, v)
      ensures reply.Ok? <==> old(NextFault(live)).Answered?
    {
      reply := Set(live, id, stage, FailedState, v);
    }

    method Release(live: bool, id: string, stage: string) returns (reply: Reply<()>)
      modifies this
      ensures calls == old(calls) + 1
      ensures rows == if old(NextFault(live)).Rejected? then old(rows) else ReleaseRows(old(rows), Key(id, stage))
      ensures reply.Ok? <==> old(NextFault(live)).Answered?
    {
      var fault := NextFault(live);
      calls := calls + 1;
      if fault.Rejected? { return Err; }
      var k := Key(id, stage);
      if k in rows {
        rows := rows[k := rows[k].(state := InProgress, lease := None)];
      }
      reply := if fault.Answered? then Ok(()) else Err;
    }
  }
}
