/** The time-based status rule of src/utils/match-status.ts. Instants are
    integers (milliseconds); an invalid date is `None`. The clock reading
    `new Date()` is the parameter `now`, and the `updateStatus` callback is
    modelled by the log of statuses it is called with. */
module MatchStatusRule {
  import opened PadelTypes

  /** `getMatchStatus`: no status for an invalid date; before the start the
      match is scheduled, from the end on it is finished, and in between it
      is live. */
  function GetMatchStatus(start: Option<int>, end: Option<int>, now: int): (r: Option<MatchStatus>)
    ensures r.None? <==> start.None? || end.None?
    ensures r == Some(Scheduled) <==> start.Some? && end.Some? && now < start.value
    ensures r == Some(Finished) <==> start.Some? && end.Some? && start.value <= now && end.value <= now
    ensures r == Some(Live) <==> start.Some? && end.Some? && start.value <= now < end.value
  {
    if start.None? || end.None? then None
    else if now < start.value then Some(Scheduled)
    else if now >= end.value then Some(Finished)
    else Some(Live)
  }

  /** Position of a status in the life of a match. */
  function Stage(s: MatchStatus): nat {
    match s
    case Scheduled => 0
    case Live => 1
    case Finished => 2
  }

  /** As time passes the computed status only moves forward. */
  lemma StatusMovesForward(start: int, end: int, t1: int, t2: int)
    requires t1 <= t2
    ensures Stage(GetMatchStatus(Some(start), Some(end), t1).value)
            <= Stage(GetMatchStatus(Some(start), Some(end), t2).value)
  {
  }

  /** A match whose end is not after its start is never live: it goes
      straight from scheduled to finished. */
  lemma NeverLiveWithoutDuration(start: int, end: int, now: int)
    requires end <= start
    ensures GetMatchStatus(Some(start), Some(end), now) != Some(Live)
  {
  }

  /** A stored time column: missing (null or empty), or a value that is a
      valid instant or an invalid date. */
  datatype TimeField = Missing | Given(at: Option<int>)

  /** The status `syncMatchStatus` leaves: unchanged when a time is missing
      or invalid, otherwise the computed one. */
  function SyncedStatus(status: MatchStatus, start: TimeField, end: TimeField, now: int): (r: MatchStatus)
    ensures start.Missing? || end.Missing? ==> r == status
    ensures start.Given? && end.Given? && GetMatchStatus(start.at, end.at, now).None? ==> r == status
    ensures start.Given? && end.Given? && GetMatchStatus(start.at, end.at, now).Some? ==>
              r == GetMatchStatus(start.at, end.at, now).value
  {
    if start.Missing? || end.Missing? then status
    else
      match GetMatchStatus(start.at, end.at, now)
      case None => status
      case Some(next) => next
  }

  /** Syncing twice at the same instant is the same as syncing once. */
  lemma SyncIdempotent(status: MatchStatus, start: TimeField, end: TimeField, now: int)
    ensures SyncedStatus(SyncedStatus(status, start, end, now), start, end, now)
            == SyncedStatus(status, start, end, now)
  {
  }

  /** The match fields `syncMatchStatus` reads and writes. */
  class MatchRow {
    var startTime: TimeField
    var endTime: TimeField
    var status: MatchStatus

    constructor (startTime: TimeField, endTime: TimeField, status: MatchStatus)
      ensures this.startTime == startTime && this.endTime == endTime && this.status == status
    {
      this.startTime := startTime;
      this.endTime := endTime;
      this.status := status;
    }
  }

  /** `syncMatchStatus`: the callback is called at most once, only with a
      status different from the stored one, the row then holds it, and the
      result is the row's status. */
  method SyncMatchStatus(row: MatchRow, now: int) returns (result: MatchStatus, updates: seq<MatchStatus>)
    modifies row
    ensures row.startTime == old(row.startTime) && row.endTime == old(row.endTime)
    ensures row.status == SyncedStatus(old(row.status), old(row.startTime), old(row.endTime), now)
    ensures updates == (if row.status != old(row.status) then [row.status] else [])
    ensures result == row.status
  {
    updates := [];
    if row.startTime.Missing? || row.endTime.Missing? {
      return row.status, updates;
    }
    var nextStatus := GetMatchStatus(row.startTime.at, row.endTime.at, now);
    if nextStatus.None? {
      return row.status, updates;
    }
    if row.status != nextStatus.value {
      updates := updates + [nextStatus.value];
      row.status := nextStatus.value;
    }
    result := row.status;
  }
}
