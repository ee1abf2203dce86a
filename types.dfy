/**
 * The record shapes of the dashboard (mini-dashboard/src/types/types.ts) and the
 * small amount of date arithmetic the pipeline needs. Timestamps are integers:
 * milliseconds since the Unix epoch, in UTC.
 */
module Types {

  datatype Option<T> = None | Some(value: T)

  /** `EventType`: the four kinds of activity. */
  datatype EventType = Login | Logout | Update | Purchase

  /** `EventStatus`: the three canonical statuses. */
  datatype EventStatus = Success | Pending | Failed

  /** The string spelling of each canonical status. */
  function StatusName(s: EventStatus): string
  {
    match s
    case Success => "success"
    case Pending => "pending"
    case Failed => "failed"
  }

  /** One row of the dashboard. `eventType` is the source's `type` field; `amount` may be absent. */
  datatype UserEvent = UserEvent(
    id: int,
    user: string,
    eventType: EventType,
    status: EventStatus,
    createdAt: int,
    amount: Option<int>)

  /** The part of an upstream user record that the pipeline reads. */
  datatype UpstreamUser = UpstreamUser(id: int, firstName: string, lastName: string)

  const MsPerDay: int := 86_400_000

  /** `subDays(t, n)`, a shift by whole 24-hour days. */
  function SubDays(t: int, n: int): int
  {
    t - n * MsPerDay
  }

  /** `addDays(t, n)`, a shift by whole 24-hour days. */
  function AddDays(t: int, n: int): int
  {
    t + n * MsPerDay
  }
}
