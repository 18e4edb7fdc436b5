/** What the operator's actuators and the refund driver's terminal commits do to the database. */
module Operator {
  import opened Wrappers
  import opened Text
  import opened Books

  datatype RetryReply = Requeued | NotParked | Fenced

  function RetryVerdict(db: Db, ext: string): RetryReply {
    if ext !in db.refunds then NotParked
    else if db.refunds[ext].fencedAt.Some? then Fenced
    else if db.refunds[ext].status != RFailed then NotParked
    else Requeued
  }

  /** A retry resets a parked row and deletes the stale message its next outcome would collide with. */
  function AfterRetry(db: Db, ext: string, now: int): Db {
    if RetryVerdict(db, ext) != Requeued then db
    else
      var row := db.refunds[ext];
      db.(refunds := db.refunds[ext := row.(status := RPending, attempts := 0, updatedAt := now)],
          outbox := db.outbox - {ext},
          log := db.log + [LogRow(row.subId, RefundRetryRequested, RefundDetail(ext), now)])
  }

  datatype ClearReply = NoteRequired | Cleared(status: RefundStatus) | NothingFenced

  function ClearVerdict(db: Db, id: string, note: string): ClearReply {
    if Blank(note) then NoteRequired
    else if id in db.refunds && db.refunds[id].fencedAt.Some? then Cleared(db.refunds[id].status)
    else if id in db.sweeps && db.sweeps[id].fencedAt.Some? then Cleared(db.sweeps[id].status)
    else NothingFenced
  }

  function FenceRow(id: string, table: AttemptTable, note: string, now: int): LogRow {
    LogRow(None, MigrationFenceCleared, FenceDetail(id, table, Trim(note)), now)
  }

  /** Clearing removes one stamp and journals it; no status moves. */
  function AfterClearFence(db: Db, id: string, note: string, now: int): Db {
    if !ClearVerdict(db, id, note).Cleared? then db
    else if id in db.refunds && db.refunds[id].fencedAt.Some? then
      db.(refunds := db.refunds[id := db.refunds[id].(fencedAt := None)], log := db.log + [FenceRow(id, RefundAttempt, note, now)])
    else
      db.(sweeps := db.sweeps[id := db.sweeps[id].(fencedAt := None)], log := db.log + [FenceRow(id, SweepAttempt, note, now)])
  }

  /** A subscription that was only waiting for this refund is done. */
  function AfterRefundOf(subs: map<string, Sub>, subId: Option<string>, now: int): map<string, Sub> {
    if subId.Some? && subId.value in subs && subs[subId.value].state.RefundDue?
    then subs[subId.value := subs[subId.value].(state := Refunded, nextDeadline := None, updatedAt := now)]
    else subs
  }

  /** commit_sent: the row must still be pending; the message goes in only if its stable id is free. */
  function AfterCommitSent(db: Db, ext: string, now: int): Db {
    if ext !in db.refunds || db.refunds[ext].status != RPending then db
    else
      var row := db.refunds[ext];
      db.(refunds := db.refunds[ext := row.(status := RSent, attempts := row.attempts + 1, updatedAt := now)],
          subs := AfterRefundOf(db.subs, row.subId, now),
          outbox := if ext in db.outbox then db.outbox else db.outbox[ext := DmSent],
          log := db.log + [LogRow(row.subId, RefundSent, ExtDetail(ext), now)])
  }

  /** commit_park_failed, and the terminal half of commit_pay_failure. */
  function AfterPark(db: Db, ext: string, now: int): Db {
    if ext !in db.refunds || db.refunds[ext].status != RPending then db
    else
      var row := db.refunds[ext];
      db.(refunds := db.refunds[ext := row.(status := RFailed, attempts := row.attempts + 1, updatedAt := now)],
          outbox := if ext in db.outbox then db.outbox else db.outbox[ext := DmFailed],
          log := db.log + [LogRow(row.subId, RefundFailed, ExtDetail(ext), now)])
  }

  /** The other half of commit_pay_failure: the attempt is counted and the row stays pending. */
  function AfterCount(db: Db, ext: string, now: int): Db {
    if ext !in db.refunds || db.refunds[ext].status != RPending then db
    else
      var row := db.refunds[ext];
      db.(refunds := db.refunds[ext := row.(attempts := row.attempts + 1, updatedAt := now)],
          log := db.log + [LogRow(row.subId, RefundRetried, ExtDetail(ext), now)])
  }

  predicate AdminMoves(db: Db, id: string, from: set<SubState>) { id in db.subs && db.subs[id].state in from }

  function AfterAdmin(db: Db, id: string, from: set<SubState>, to: SubState, kind: LogKind, now: int): Db {
    if !AdminMoves(db, id, from) then db
    else db.(subs := db.subs[id := db.subs[id].(state := to, updatedAt := now)],
             log := db.log + [LogRow(Some(id), kind, StateDetail(to), now)])
  }
}
