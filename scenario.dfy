/** A worked report: a channel whose history starts on Wednesday
    2020-01-01 00:00 (local time read as UTC), run on 2020-01-20 00:00. */
module Scenario {
  import opened Results
  import opened Dates
  import opened Messages
  import Channel

  const NewYear: int := 1577836800000
  const Hour: int := 60 * Minute

  const Timeline: Messages := Messages([
    Message("a", NewYear + 2 * Day + 12 * Hour),
    Message("b", NewYear + 2 * Day + 12 * Hour),
    Message("c", NewYear + 11 * Day + 12 * Hour),
    Message("d", NewYear + 18 * Day + 12 * Hour)
  ], NewYear)

  /** Three week ends: Friday 2020-01-03, 01-10 and 01-17, each at 23:59.
      Messages on Jan 3 fall in the first week, the one on Jan 12 in the
      third; the one on Jan 19 lies past the last week end and is not
      counted. */
  lemma WorkedReport(owner: Channel.User, cal: Calendar)
    requires cal.weekday(NewYear) == 3
    requires SeparatesWeeks(cal.format)
    ensures var c := Channel.Channel("C1", "general", owner, Timeline);
      Channel.ToJson(c, NewYear + 19 * Day, cal)
      == Ok(Channel.IdentityFields(c) + [
           (Channel.Label(cal.format, NewYear + 3 * Day - Minute), Channel.Count(2)),
           (Channel.Label(cal.format, NewYear + 10 * Day - Minute), Channel.Count(0)),
           (Channel.Label(cal.format, NewYear + 17 * Day - Minute), Channel.Count(1))])
  {
    var c := Channel.Channel("C1", "general", owner, Timeline);
    var now := NewYear + 19 * Day;
    Channel.ToJsonFlat(c, now, cal);
    var dates := Channel.ChannelDates(c, now, cal).value;
    ScenarioDates();
    assert dates == [NewYear + 3 * Day - Minute, NewYear + 10 * Day - Minute, NewYear + 17 * Day - Minute];
    ScenarioEntries(cal);
  }

  lemma ScenarioEntries(cal: Calendar)
    ensures var dates := [NewYear + 3 * Day - Minute, NewYear + 10 * Day - Minute, NewYear + 17 * Day - Minute];
      Channel.WeekEntries(Timeline, dates, cal.format) == [
        (Channel.Label(cal.format, dates[0]), Channel.Count(2)),
        (Channel.Label(cal.format, dates[1]), Channel.Count(0)),
        (Channel.Label(cal.format, dates[2]), Channel.Count(1))]
  {
    ScenarioCounts();
    var dates := [NewYear + 3 * Day - Minute, NewYear + 10 * Day - Minute, NewYear + 17 * Day - Minute];
    ThreeEntries(Timeline, dates, cal.format, 2, 0, 1);
  }

  lemma ThreeEntries(m: Messages, dates: seq<int>, format: int -> string, c0: nat, c1: nat, c2: nat)
    requires |dates| == 3
    requires WeekCount(m, dates[0]) == c0 && WeekCount(m, dates[1]) == c1 && WeekCount(m, dates[2]) == c2
    ensures Channel.WeekEntries(m, dates, format) == [
      (Channel.Label(format, dates[0]), Channel.Count(c0)),
      (Channel.Label(format, dates[1]), Channel.Count(c1)),
      (Channel.Label(format, dates[2]), Channel.Count(c2))]
  {
    var e := Channel.WeekEntries(m, dates, format);
    var l0 := Channel.Label(format, dates[0]);
    var l1 := Channel.Label(format, dates[1]);
    var l2 := Channel.Label(format, dates[2]);
    assert e[0] == (l0, Channel.Count(c0));
    assert e[1] == (l1, Channel.Count(c1));
    assert e[2] == (l2, Channel.Count(c2));
    assert e == [e[0], e[1], e[2]];
  }

  lemma ScenarioDates()
    ensures CreateDatesWith7DaysIntervals(NewYear, NewYear + 19 * Day, 3)
         == Ok([NewYear + 3 * Day - Minute, NewYear + 10 * Day - Minute, NewYear + 17 * Day - Minute])
  {
    assert (19 * Day) / Week + 1 == 3;
    assert Grid(FirstWeekEnd(NewYear, 3), 3)
        == [NewYear + 3 * Day - Minute, NewYear + 10 * Day - Minute, NewYear + 17 * Day - Minute];
  }

  lemma ScenarioCounts()
    ensures WeekCount(Timeline, NewYear + 3 * Day - Minute) == 2
    ensures WeekCount(Timeline, NewYear + 10 * Day - Minute) == 0
    ensures WeekCount(Timeline, NewYear + 17 * Day - Minute) == 1
  {
    CountFour(Timeline.list, InWeekOf(NewYear + 3 * Day - Minute));
    CountFour(Timeline.list, InWeekOf(NewYear + 10 * Day - Minute));
    CountFour(Timeline.list, InWeekOf(NewYear + 17 * Day - Minute));
  }

  function Bit(b: bool): nat
  {
    if b then 1 else 0
  }

  lemma CountFour(s: seq<Message>, p: Message -> bool)
    requires |s| == 4
    ensures |FilterList(s, p)| == Bit(p(s[0])) + Bit(p(s[1])) + Bit(p(s[2])) + Bit(p(s[3]))
  {
    assert s[1..][1..] == s[2..];
    assert s[2..][1..] == s[3..];
    assert s[3..][1..] == [];
    assert |FilterList(s[3..], p)| == Bit(p(s[3]));
    assert |FilterList(s[2..], p)| == Bit(p(s[2])) + Bit(p(s[3]));
    assert |FilterList(s[1..], p)| == Bit(p(s[1])) + Bit(p(s[2])) + Bit(p(s[3]));
  }
}
