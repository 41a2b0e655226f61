/** The week-end grid (`Dates` in index.js). Instants are epoch milliseconds. */
module Dates {
  import opened Results

  const Minute: int := 60 * 1000
  const Day: int := 24 * 60 * Minute
  const Week: int := 7 * Day

  /** `Date.getDay()`: 0 is Sunday, 6 is Saturday. */
  type Weekday = d: int | 0 <= d <= 6

  /** The local calendar the source reads through `Date` and date-fns: the
      weekday of an instant and its `yyyyMMdd` rendering. */
  datatype Calendar = Calendar(weekday: int -> Weekday, format: int -> string)

  /** A calendar whose day stamps tell apart any two instants a week or more
      apart, as `yyyyMMdd` does. */
  ghost predicate SeparatesWeeks(format: int -> string)
  {
    forall a, b :: a + Week <= b ==> format(a) != format(b)
  }

  /** Strict membership in the open interval `(start, end)`. */
  predicate IsDateBetweenInterval(date: int, start: int, end: int): (r: bool)
    ensures r ==> date != start && date != end
    ensures end <= start + 1 ==> !r
  {
    start < date && date < end
  }

  /** The window counted for the week ending at `weekend`. */
  predicate InWeek(date: int, weekend: int)
  {
    IsDateBetweenInterval(date, weekend - Week, weekend)
  }

  /** `n` instants, one week apart, starting at `first`. */
  function Grid(first: int, n: nat): seq<int>
  {
    seq(n, i requires 0 <= i < n => first + i * Week)
  }

  /** The last minute before midnight that ends the weekday-6 day of the
      week holding `from`. */
  function FirstWeekEnd(from: int, weekday: Weekday): (r: int)
    ensures from - Minute <= r < from + Week - Minute
    ensures (r + Minute - from) % Day == 0
    ensures weekday + (r + Minute - from) / Day == 6
  {
    from + (6 - weekday) * Day - Minute
  }

  /** The week-end boundaries from `from` up to `to`; `weekday` is the
      calendar weekday of `from`. The count is measured from `from`. */
  function CreateDatesWith7DaysIntervals(from: int, to: int, weekday: Weekday): (r: Result<seq<int>>)
    ensures r.Err? <==> to < from - Week
    ensures r.Err? ==> r.error == InvalidArrayLength
    ensures r.Ok? ==> (|r.value| - 1) * Week <= to - from < |r.value| * Week
    ensures from <= to ==> r.Ok? && |r.value| >= 1
    ensures from == to ==> r.Ok? && |r.value| == 1
    ensures from - Week <= to < from ==> r == Ok([])
    ensures r.Ok? && |r.value| > 0 ==> r.value[0] == from + (6 - weekday) * Day - Minute
    ensures r.Ok? ==> forall i :: 0 < i < |r.value| ==> r.value[i] == r.value[i - 1] + Week
    ensures r.Ok? && |r.value| > 0 ==>
      to - Week - Minute < r.value[|r.value| - 1] <= to + 6 * Day - Minute
  {
    FloorWeek(to - from);
    var count := (to - from) / Week + 1;
    if count < 0 then Err(InvalidArrayLength)
    else Ok(Grid(FirstWeekEnd(from, weekday), count))
  }

  /** Integer division by a week rounds down. */
  lemma FloorWeek(d: int)
    ensures (d / Week) * Week <= d < (d / Week) * Week + Week
  {
  }

  /** Boundaries of a grid are a week apart or more, in order. */
  lemma GridSeparated(first: int, n: nat)
    ensures forall i, j :: 0 <= i < j < n ==> Grid(first, n)[i] + Week <= Grid(first, n)[j]
  {
    forall i, j | 0 <= i < j < n
      ensures Grid(first, n)[i] + Week <= Grid(first, n)[j]
    {
      assert Grid(first, n)[j] - Grid(first, n)[i] == (j - i) * Week;
    }
  }

  /** A boundary instant is inside no week window of the grid: a message
      stamped exactly at a boundary is counted in no week. */
  lemma BoundaryInNoWindow(first: int, n: nat)
    ensures forall i, j :: 0 <= i < n && 0 <= j < n ==> !InWeek(Grid(first, n)[i], Grid(first, n)[j])
  {
    forall i, j | 0 <= i < n && 0 <= j < n
      ensures !InWeek(Grid(first, n)[i], Grid(first, n)[j])
    {
      if i < j {
        GridSeparated(first, n);
      } else if j < i {
        GridSeparated(first, n);
      }
    }
  }

  /** Windows of boundaries a week apart or more do not overlap. */
  lemma WindowsDisjoint(date: int, b1: int, b2: int)
    requires b1 + Week <= b2
    ensures !(InWeek(date, b1) && InWeek(date, b2))
  {
  }

  /** Day stamps of a grid are pairwise distinct. */
  lemma GridFormatsDistinct(format: int -> string, first: int, n: nat)
    requires SeparatesWeeks(format)
    ensures forall i, j :: 0 <= i < j < n ==> format(Grid(first, n)[i]) != format(Grid(first, n)[j])
  {
    GridSeparated(first, n);
  }
}
