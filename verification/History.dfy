/** The qualification timeline shown with a lead: how long each status lasted. */
module QualificationHistory {
  import opened Wrappers
  import opened Model
  import opened Crm
  import opened Calendar

  datatype Change = Change(from: Option<string>, to: string, at: Time, minutesInPrevious: Option<nat>, minutesInStatus: nat, isCurrent: bool)

  /** math.Round: to the nearest minute, halves away from zero. */
  function RoundMinutes(d: Time): int {
    if d >= 0 then (d + MINUTE / 2) / MINUTE else -((-d + MINUTE / 2) / MINUTE)
  }

  /** Rounded minutes from one instant to another, never negative. */
  function MinutesBetween(start: Time, end: Time): nat {
    if RoundMinutes(end - start) < 0 then 0 else RoundMinutes(end - start)
  }

  /** Rounding moves a non-negative duration by at most half a minute. */
  lemma RoundingError(d: Time)
    requires d >= 0
    ensures -MINUTE <= 2 * (RoundMinutes(d) * MINUTE - d) <= MINUTE
    ensures RoundMinutes(d) >= 0
  {
    var q := (d + MINUTE / 2) / MINUTE;
    assert d + MINUTE / 2 == q * MINUTE + (d + MINUTE / 2) % MINUTE;
  }

  /** When the status of row i ended: at the next row, or now. */
  function EndOf(rows: seq<QualEntry>, now: Time, i: nat): Time
    requires i < |rows|
  {
    if i + 1 < |rows| then rows[i + 1].at else now
  }

  function ChangeAt(rows: seq<QualEntry>, now: Time, i: nat): Change
    requires i < |rows|
  {
    Change(rows[i].from, rows[i].to, rows[i].at,
           if i > 0 then Some(MinutesBetween(rows[i - 1].at, rows[i].at)) else None,
           MinutesBetween(rows[i].at, EndOf(rows, now, i)), i == |rows| - 1)
  }

  function Timeline(rows: seq<QualEntry>, now: Time): seq<Change> {
    seq(|rows|, i requires 0 <= i < |rows| => ChangeAt(rows, now, i))
  }

  /** The row loop. */
  method ListQualificationHistory(rows: seq<QualEntry>, now: Time) returns (out: seq<Change>)
    ensures out == Timeline(rows, now)
  {
    out := [];
    for i := 0 to |rows|
      invariant |out| == i && forall j :: 0 <= j < i ==> out[j] == ChangeAt(rows, now, j)
    {
      var previous: Option<nat> := None;
      if i > 0 {
        var mins := RoundMinutes(rows[i].at - rows[i - 1].at);
        if mins < 0 {
          mins := 0;
        }
        previous := Some(mins);
      }
      var end := now;
      if i + 1 < |rows| {
        end := rows[i + 1].at;
      }
      var minsIn := RoundMinutes(end - rows[i].at);
      if minsIn < 0 {
        minsIn := 0;
      }
      out := out + [Change(rows[i].from, rows[i].to, rows[i].at, previous, minsIn, i == |rows| - 1)];
    }
  }

  /** Each entry shows its own row, in the order of the rows; the first one has no previous
      status, and the others the time since the row before. */
  lemma RowsAreShown(rows: seq<QualEntry>, now: Time, i: nat)
    requires i < |rows|
    ensures var t := Timeline(rows, now);
      && |t| == |rows| && t[i].from == rows[i].from && t[i].to == rows[i].to && t[i].at == rows[i].at
      && (t[i].minutesInPrevious.Some? <==> i > 0)
      && (i > 0 && rows[i - 1].at <= rows[i].at ==>
            -30_000_000 <= t[i].minutesInPrevious.value * 60_000_000 - (rows[i].at - rows[i - 1].at) <= 30_000_000)
  {
    if i > 0 && rows[i - 1].at <= rows[i].at { RoundingError(rows[i].at - rows[i - 1].at); }
    hide RoundMinutes;
  }

  /** Half a minute counts as a whole one. */
  lemma HalvesRoundUp(minutes: nat)
    ensures RoundMinutes(minutes * 60_000_000 + 30_000_000) == minutes + 1
    ensures RoundMinutes(minutes * 60_000_000 + 29_999_999) == minutes
  {
  }

  /** Neighbouring rows agree on the time between them, and the last row alone is current. */
  lemma NeighboursAgree(rows: seq<QualEntry>, now: Time, i: nat)
    requires i < |rows|
    ensures var t := Timeline(rows, now);
      && (i > 0 ==> t[i].minutesInPrevious == Some(t[i - 1].minutesInStatus))
      && (i == 0 ==> t[i].minutesInPrevious.None?)
      && (t[i].isCurrent <==> i == |rows| - 1)
  {
  }

  function TotalMinutes(t: seq<Change>): nat {
    if t == [] then 0 else t[0].minutesInStatus + TotalMinutes(t[1..])
  }

  function EnteredAt(): QualEntry -> Time { (row: QualEntry) => row.at }

  lemma FirstRowError(rows: seq<QualEntry>, now: Time)
    requires rows != [] && TimeSorted(EnteredAt(), rows) && rows[|rows| - 1].at <= now
    ensures |Timeline(rows, now)| == |rows|
    ensures -MINUTE <= 2 * (Timeline(rows, now)[0].minutesInStatus * MINUTE - (EndOf(rows, now, 0) - rows[0].at)) <= MINUTE
  {
    RoundingError(EndOf(rows, now, 0) - rows[0].at);
    hide RoundMinutes;
  }

  /** Main result: for rows in time order, none in the future, the minutes add up to the time
      since the first row within half a minute per row. */
  lemma {:induction false} MinutesAddUp(rows: seq<QualEntry>, now: Time)
    requires rows != [] && TimeSorted(EnteredAt(), rows) && rows[|rows| - 1].at <= now
    ensures var error := TotalMinutes(Timeline(rows, now)) * MINUTE - (now - rows[0].at);
      -(|rows| * MINUTE) <= 2 * error <= |rows| * MINUTE
  {
    hide Timeline, TimeSorted, EndOf, TotalMinutes;
    FirstRowError(rows, now);
    TotalByRow(rows, now);
    EndOfFirst(rows, now);
    if |rows| > 1 {
      TailSorted(rows);
      MinutesAddUp(rows[1..], now);
    }
  }

  lemma EndOfFirst(rows: seq<QualEntry>, now: Time)
    requires rows != []
    ensures EndOf(rows, now, 0) == if |rows| == 1 then now else rows[1..][0].at
  {
  }

  /** The total is the first row's minutes and the total of the rest. */
  lemma TotalByRow(rows: seq<QualEntry>, now: Time)
    requires rows != []
    ensures |Timeline(rows, now)| == |rows|
    ensures TotalMinutes(Timeline(rows, now))
         == Timeline(rows, now)[0].minutesInStatus + if |rows| == 1 then 0 else TotalMinutes(Timeline(rows[1..], now))
  {
    if |rows| == 1 {
      assert Timeline(rows, now)[1..] == [];
    } else {
      TailTimeline(rows, now);
    }
    hide ChangeAt;
  }

  lemma TailSorted(rows: seq<QualEntry>)
    requires rows != [] && TimeSorted(EnteredAt(), rows)
    ensures TimeSorted(EnteredAt(), rows[1..])
  {
  }

  lemma TailTimeline(rows: seq<QualEntry>, now: Time)
    requires |rows| > 1
    ensures TotalMinutes(Timeline(rows, now)[1..]) == TotalMinutes(Timeline(rows[1..], now))
  {
    SameMinutes(Timeline(rows, now)[1..], Timeline(rows[1..], now));
  }

  lemma {:induction false} SameMinutes(a: seq<Change>, b: seq<Change>)
    requires |a| == |b| && forall i :: 0 <= i < |a| ==> a[i].minutesInStatus == b[i].minutesInStatus
    ensures TotalMinutes(a) == TotalMinutes(b)
  {
    if a != [] {
      SameMinutes(a[1..], b[1..]);
    }
  }
}
