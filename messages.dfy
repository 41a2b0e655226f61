/** A channel's message timeline (`Message` and `Messages` in index.js). */
module Messages {
  import opened Dates

  datatype Message = Message(text: string, timestamp: int)

  /** The messages of one channel and the report's start date `oldest`,
      which is configured, not derived from the list. */
  datatype Messages = Messages(list: seq<Message>, oldest: int)

  /** `r` is `s` with some elements dropped, the rest in their order. */
  ghost predicate SubsequenceOf<T>(r: seq<T>, s: seq<T>)
    decreases |s|
  {
    if r == [] then true
    else if s == [] then false
    else (r[0] == s[0] && SubsequenceOf(r[1..], s[1..])) || SubsequenceOf(r, s[1..])
  }

  /** The number of messages, duplicates included. */
  function Length(m: Messages): (n: nat)
    ensures n == 0 <==> m.list == []
  {
    |m.list|
  }

  /** `Array.prototype.filter` on messages. */
  function FilterList(s: seq<Message>, p: Message -> bool): (r: seq<Message>)
    ensures |r| <= |s|
    decreases |s|
  {
    if s == [] then []
    else if p(s[0]) then [s[0]] + FilterList(s[1..], p)
    else FilterList(s[1..], p)
  }

  /** Filtering keeps exactly the elements that pass, in their order. */
  lemma {:induction false} FilterListSpec(s: seq<Message>, p: Message -> bool)
    ensures forall x :: x in FilterList(s, p) <==> x in s && p(x)
    ensures SubsequenceOf(FilterList(s, p), s)
    ensures multiset(FilterList(s, p)) <= multiset(s)
    ensures forall y :: multiset(FilterList(s, p))[y] == if p(y) then multiset(s)[y] else 0
    ensures |FilterList(s, p)| <= |s|
    decreases |s|
  {
    if s != [] {
      FilterListSpec(s[1..], p);
      var rest := FilterList(s[1..], p);
      assert s == [s[0]] + s[1..];
      if p(s[0]) {
        assert FilterList(s, p) == [s[0]] + rest;
        assert ([s[0]] + rest)[1..] == rest;
      } else {
        assert FilterList(s, p) == rest;
      }
    }
  }

  /** `Array.prototype.map` on messages. */
  function MapList(s: seq<Message>, f: Message -> Message): (r: seq<Message>)
    ensures |r| == |s|
  {
    seq(|s|, i requires 0 <= i < |s| => f(s[i]))
  }

  /** `Messages.filter`: a new timeline with the same `oldest`. */
  function Filter(m: Messages, p: Message -> bool): (r: Messages)
    ensures r.oldest == m.oldest
    ensures SubsequenceOf(r.list, m.list)
    ensures Length(r) <= Length(m)
    ensures forall x :: x in r.list <==> x in m.list && p(x)
    ensures forall y :: multiset(r.list)[y] == if p(y) then multiset(m.list)[y] else 0
  {
    FilterListSpec(m.list, p);
    Messages(FilterList(m.list, p), m.oldest)
  }

  /** `Messages.map`: a new timeline with the same `oldest` and length. */
  function Map(m: Messages, f: Message -> Message): (r: Messages)
    ensures r.oldest == m.oldest
    ensures Length(r) == Length(m)
    ensures forall i :: 0 <= i < Length(m) ==> r.list[i] == f(m.list[i])
  {
    Messages(MapList(m.list, f), m.oldest)
  }

  /** The week-membership test `getListOneWeek` filters by. */
  function InWeekOf(weekend: int): Message -> bool
  {
    (msg: Message) => IsDateBetweenInterval(msg.timestamp, weekend - Week, weekend)
  }

  /** The messages strictly inside the week that ends at `weekend`. */
  function GetListOneWeek(m: Messages, weekend: int): (r: Messages)
    ensures r.oldest == m.oldest
    ensures SubsequenceOf(r.list, m.list)
    ensures forall x :: x in r.list <==> x in m.list && weekend - Week < x.timestamp < weekend
    ensures forall x :: x in r.list ==> x.timestamp != weekend && x.timestamp != weekend - Week
    ensures forall y :: multiset(r.list)[y] ==
                        if weekend - Week < y.timestamp < weekend then multiset(m.list)[y] else 0
  {
    Filter(m, InWeekOf(weekend))
  }

  /** The number a report shows for the week ending at `weekend`. */
  function WeekCount(m: Messages, weekend: int): nat
  {
    Length(GetListOneWeek(m, weekend))
  }

  // ---------------------------------------------------------------------
  // Laws of filter and map

  /** Filtering distributes over concatenation: order is kept. */
  lemma {:induction false} FilterConcat(a: seq<Message>, b: seq<Message>, p: Message -> bool)
    ensures FilterList(a + b, p) == FilterList(a, p) + FilterList(b, p)
    decreases |a|
  {
    if a == [] {
      assert a + b == b;
    } else {
      var ab := a + b;
      assert ab[0] == a[0];
      assert ab[1..] == a[1..] + b;
      FilterConcat(a[1..], b, p);
      var fa, fb := FilterList(a[1..], p), FilterList(b, p);
      if p(a[0]) {
        assert FilterList(ab, p) == [a[0]] + (fa + fb);
        assert FilterList(a, p) == [a[0]] + fa;
        assert [a[0]] + (fa + fb) == ([a[0]] + fa) + fb;
      } else {
        assert FilterList(ab, p) == fa + fb;
        assert FilterList(a, p) == fa;
      }
    }
  }

  /** Filtering after mapping is mapping after filtering by the composed
      test. */
  lemma {:induction false} FilterAfterMap(s: seq<Message>, f: Message -> Message, p: Message -> bool, q: Message -> bool)
    requires forall x :: q(x) == p(f(x))
    ensures FilterList(MapList(s, f), p) == MapList(FilterList(s, q), f)
    decreases |s|
  {
    if s != [] {
      var ms := MapList(s, f);
      assert ms[0] == f(s[0]);
      assert ms[1..] == MapList(s[1..], f);
      FilterAfterMap(s[1..], f, p, q);
      var rest := FilterList(s[1..], q);
      var mrest := FilterList(ms[1..], p);
      if q(s[0]) {
        assert FilterList(ms, p) == [f(s[0])] + mrest;
        assert FilterList(s, q) == [s[0]] + rest;
        assert MapList([s[0]] + rest, f) == [f(s[0])] + MapList(rest, f);
      } else {
        assert FilterList(ms, p) == mrest;
        assert FilterList(s, q) == rest;
      }
    }
  }

  /** Mapping the identity gives the timeline back. */
  lemma MapIdentity(m: Messages)
    ensures Map(m, x => x) == m
  {
    assert Map(m, x => x).list == m.list;
  }

  /** Mapping twice is mapping once by the composition. */
  lemma MapCompose(m: Messages, f: Message -> Message, g: Message -> Message)
    ensures Map(Map(m, f), g) == Map(m, x => g(f(x)))
  {
    assert Map(Map(m, f), g).list == Map(m, x => g(f(x))).list;
  }

  /** An empty timeline counts zero in every week. */
  lemma EmptyWeekCount(oldest: int, weekend: int)
    ensures WeekCount(Messages([], oldest), weekend) == 0
  {
  }

  // ---------------------------------------------------------------------
  // Week counts over a sequence of boundaries

  /** How many of the windows ending at `bs` hold `t`. */
  function HitCount(t: int, bs: seq<int>): nat
    decreases |bs|
  {
    if bs == [] then 0
    else (if InWeek(t, bs[0]) then 1 else 0) + HitCount(t, bs[1..])
  }

  /** The sum of the week counts of `s` over the boundaries `bs`. */
  function SumCounts(s: seq<Message>, bs: seq<int>): nat
    decreases |bs|
  {
    if bs == [] then 0
    else |FilterList(s, InWeekOf(bs[0]))| + SumCounts(s, bs[1..])
  }

  /** Boundaries in order, each a week or more after the one before. */
  ghost predicate Separated(bs: seq<int>)
  {
    forall i, j :: 0 <= i < j < |bs| ==> bs[i] + Week <= bs[j]
  }

  /** Counting over the weeks message by message. */
  lemma {:induction false} SumCountsCons(x: Message, s: seq<Message>, bs: seq<int>)
    ensures SumCounts([x] + s, bs) == HitCount(x.timestamp, bs) + SumCounts(s, bs)
    decreases |bs|
  {
    if bs != [] {
      assert ([x] + s)[1..] == s;
      SumCountsCons(x, s, bs[1..]);
    }
  }

  lemma {:induction false} NoHitsBefore(t: int, bs: seq<int>)
    requires forall i :: 0 <= i < |bs| ==> t <= bs[i] - Week
    ensures HitCount(t, bs) == 0
    decreases |bs|
  {
    if bs != [] {
      NoHitsBefore(t, bs[1..]);
    }
  }

  /** An instant falls in at most one window of separated boundaries. */
  lemma {:induction false} HitCountAtMostOne(t: int, bs: seq<int>)
    requires Separated(bs)
    ensures HitCount(t, bs) <= 1
    decreases |bs|
  {
    if bs != [] {
      if InWeek(t, bs[0]) {
        NoHitsBefore(t, bs[1..]);
      } else {
        HitCountAtMostOne(t, bs[1..]);
      }
    }
  }

  /** No message is counted in two weeks: the week counts add up to at most
      the number of messages. */
  lemma {:induction false} SumCountsAtMostLength(s: seq<Message>, bs: seq<int>)
    requires Separated(bs)
    ensures SumCounts(s, bs) <= |s|
    decreases |s|
  {
    if s == [] {
      EmptySumCounts(bs);
    } else {
      assert s == [s[0]] + s[1..];
      SumCountsCons(s[0], s[1..], bs);
      HitCountAtMostOne(s[0].timestamp, bs);
      SumCountsAtMostLength(s[1..], bs);
    }
  }

  lemma {:induction false} EmptySumCounts(bs: seq<int>)
    ensures SumCounts([], bs) == 0
    decreases |bs|
  {
    if bs != [] {
      EmptySumCounts(bs[1..]);
    }
  }

  /** `t` is strictly inside the span the grid covers and not on a boundary. */
  predicate InSpan(t: int, first: int, n: nat)
  {
    first - Week < t < first + (n - 1) * Week && (t - first) % Week != 0
  }

  /** On a week grid, an instant is counted exactly once when it lies inside
      the covered span off every boundary, and never otherwise. */
  lemma {:induction false} HitCountOnGrid(t: int, first: int, n: nat)
    ensures HitCount(t, Grid(first, n)) == if InSpan(t, first, n) then 1 else 0
    decreases n
  {
    if n > 0 {
      var g := Grid(first, n);
      assert g[0] == first;
      assert g[1..] == Grid(first + Week, n - 1);
      HitCountOnGrid(t, first + Week, n - 1);
      InSpanStep(t, first, n);
    }
  }

  /** The span of a grid is its first week, its first boundary excluded,
      then the span of the rest of the grid. */
  lemma InSpanStep(t: int, first: int, n: nat)
    requires n > 0
    ensures (if InSpan(t, first, n) then 1 else 0)
         == (if InWeek(t, first) then 1 else 0) + (if InSpan(t, first + Week, n - 1) then 1 else 0)
  {
    if t <= first - Week {
      assert !InSpan(t, first, n);
    } else if t < first {
      NegativeRemainder(t - first);
      assert InSpan(t, first, n);
    } else if t == first {
      assert !InSpan(t, first, n);
    } else {
      ShiftRemainder(t - first);
      assert InSpan(t, first, n) == InSpan(t, first + Week, n - 1);
    }
  }

  /** Moving one week does not change the offset within the week. */
  lemma ShiftRemainder(d: int)
    ensures (d - Week) % Week == d % Week
  {
  }

  /** An instant less than a week before a boundary is not on the grid. */
  lemma NegativeRemainder(d: int)
    requires -Week < d < 0
    ensures d % Week != 0
  {
  }

  /** Partition completeness: the week counts of a grid add up to the number
      of messages strictly inside its span and off its boundaries. */
  lemma {:induction false} SumCountsOnGrid(s: seq<Message>, first: int, n: nat)
    ensures SumCounts(s, Grid(first, n)) == |FilterList(s, (msg: Message) => InSpan(msg.timestamp, first, n))|
    decreases |s|
  {
    if s == [] {
      EmptySumCounts(Grid(first, n));
    } else {
      assert s == [s[0]] + s[1..];
      SumCountsCons(s[0], s[1..], Grid(first, n));
      HitCountOnGrid(s[0].timestamp, first, n);
      SumCountsOnGrid(s[1..], first, n);
    }
  }
}
