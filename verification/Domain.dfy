/** The entities of the notification service (internal/domain/notification.go), cut down to the
    fields the delivery protocol reads or writes. Times are integers; uuids are naturals. */
module Domain {
  datatype Option<+T> = None | Some(value: T)

  type Id = nat

  datatype Channel = SMS | Email | Push

  datatype Status = Pending | Scheduled | Queued | Processing | Delivered | Failed | Cancelled
  {
    predicate IsFinal() { Delivered? || Failed? || Cancelled? }

    predicate CanCancel() { Pending? || Scheduled? || Queued? }
  }

  /** The columns of a row that take part in the protocol. `maxRetries` and `scheduledAt` are written
      by INSERT only; `Update` writes the other three. */
  datatype Row = Row(
    status: Status,
    retryCount: nat,
    maxRetries: nat,
    scheduledAt: Option<int>,
    nextRetryAt: Option<int>)

  /** A row with the columns that creation and delivery read. */
  datatype Notification = Notification(
    key: Option<string>, batch: Option<Id>, channel: Channel, priority: nat, row: Row)

  /** max_retries of every row at creation (internal/domain/notification.go:109). */
  const DEFAULT_MAX_RETRIES: nat := 3

  /** `UPDATE notifications SET status, retry_count, next_retry_at ...` from an in-memory copy:
      the copy's values replace the row's, whatever the row holds by then. */
  function Overwrite(row: Row, copy: Row): Row {
    row.(status := copy.status, retryCount := copy.retryCount, nextRetryAt := copy.nextRetryAt)
  }

  /** `CancelByID`: only pending, scheduled and queued rows change. */
  function CancelRow(row: Row): Row {
    if row.status.CanCancel() then row.(status := Cancelled) else row
  }

  /** The WHERE clause of `GetScheduledReady`. */
  predicate ScheduledReady(row: Row, now: int) {
    row.status == Scheduled && row.scheduledAt.Some? && row.scheduledAt.value <= now
  }

  /** The WHERE clause of `GetRetryReady`; a NULL `next_retry_at` never compares. */
  predicate RetryReady(row: Row, now: int) {
    row.status == Failed && row.retryCount < row.maxRetries
    && row.nextRetryAt.Some? && row.nextRetryAt.value <= now
  }
}
