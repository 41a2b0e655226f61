/** One channel's report row and header (`User` and `Channel` in index.js). */
module Channel {
  import opened Results
  import opened Dates
  import opened Messages

  datatype User = User(id: string, name: string)

  datatype Channel = Channel(id: string, name: string, owner: User, messages: Messages)

  /** A value of a report record: an identity string or a week count. */
  datatype Value = Text(text: string) | Count(count: nat)

  /** A JavaScript object whose keys are all non-integer strings, as its
      entries in insertion order. */
  type Record = seq<(string, Value)>

  /** The `@`-prefixed user name. */
  function UserName(u: User): (r: string)
    ensures |r| == |u.name| + 1 && r[0] == '@' && r[1..] == u.name
  {
    "@" + u.name
  }

  /** The `#`-prefixed channel name. */
  function ChannelName(c: Channel): (r: string)
    ensures |r| == |c.name| + 1 && r[0] == '#' && r[1..] == c.name
  {
    "#" + c.name
  }

  /** The prefixing leaves distinct raw names distinct. */
  lemma DisplayNamesInjective(a: Channel, b: Channel)
    ensures ChannelName(a) == ChannelName(b) <==> a.name == b.name
    ensures UserName(a.owner) == UserName(b.owner) <==> a.owner.name == b.owner.name
  {
  }

  /** `formatDate`: the week label, a wave dash before the day stamp. */
  function Label(format: int -> string, weekend: int): (r: string)
    ensures |r| > 0 && r[0] == '\U{301C}'
  {
    "\U{301C}" + format(weekend)
  }

  datatype Option<T> = None | Some(value: T)

  /** The keys of an object, in order. */
  function Keys(rec: Record): seq<string>
    decreases |rec|
  {
    if rec == [] then [] else [rec[0].0] + Keys(rec[1..])
  }

  /** Whether the object has the key `k`. */
  predicate HasKey(rec: Record, k: string)
    decreases |rec|
  {
    rec != [] && (rec[0].0 == k || HasKey(rec[1..], k))
  }

  /** The value the object holds under `k`. */
  function Get(rec: Record, k: string): Option<Value>
    decreases |rec|
  {
    if rec == [] then None
    else if rec[0].0 == k then Some(rec[0].1)
    else Get(rec[1..], k)
  }

  /** Property assignment `{ ...rec, [k]: v }`: an existing key keeps its
      place and takes the new value, a new key goes last. */
  function Put(rec: Record, k: string, v: Value): (r: Record)
    ensures HasKey(rec, k) ==> Keys(r) == Keys(rec)
    ensures !HasKey(rec, k) ==> r == rec + [(k, v)]
    ensures |r| == if HasKey(rec, k) then |rec| else |rec| + 1
    decreases |rec|
  {
    if rec == [] then [(k, v)]
    else if rec[0].0 == k then [(k, v)] + rec[1..]
    else
      var rest := Put(rec[1..], k, v);
      assert ([rec[0]] + rest)[1..] == rest;
      assert rec == [rec[0]] + rec[1..];
      [rec[0]] + rest
  }

  /** After the assignment `k` is present and holds `v`, and every other key
      is present and holds what it held before. */
  lemma {:induction false} PutGet(rec: Record, k: string, v: Value, k': string)
    ensures HasKey(Put(rec, k, v), k') <==> k' == k || HasKey(rec, k')
    ensures Get(Put(rec, k, v), k') == if k' == k then Some(v) else Get(rec, k')
    decreases |rec|
  {
    if rec != [] && rec[0].0 != k {
      var rest := Put(rec[1..], k, v);
      assert ([rec[0]] + rest)[1..] == rest;
      PutGet(rec[1..], k, v, k');
    } else if rec != [] {
      assert ([(k, v)] + rec[1..])[1..] == rec[1..];
    }
  }

  /** Object spread of `entries` into `acc`, left to right. */
  function PutAll(acc: Record, entries: Record): (r: Record)
    ensures |acc| <= |r|
    decreases |entries|
  {
    if entries == [] then acc
    else PutAll(Put(acc, entries[0].0, entries[0].1), entries[1..])
  }

  lemma {:induction false} HasKeyAppend(a: Record, b: Record, k: string)
    ensures HasKey(a + b, k) <==> HasKey(a, k) || HasKey(b, k)
    decreases |a|
  {
    if a != [] {
      assert (a + b)[1..] == a[1..] + b;
      HasKeyAppend(a[1..], b, k);
    } else {
      assert a + b == b;
    }
  }

  lemma {:induction false} KeysAppend(a: Record, b: Record)
    ensures Keys(a + b) == Keys(a) + Keys(b)
    decreases |a|
  {
    if a != [] {
      assert (a + b)[1..] == a[1..] + b;
      KeysAppend(a[1..], b);
    } else {
      assert a + b == b;
    }
  }

  /** No key occurs twice among the entries. */
  predicate DistinctKeys(entries: Record)
  {
    forall i, j :: 0 <= i < j < |entries| ==> entries[i].0 != entries[j].0
  }

  /** Spreading entries whose keys are new and distinct appends them. */
  lemma {:induction false} PutAllFresh(acc: Record, entries: Record)
    requires DistinctKeys(entries)
    requires forall i :: 0 <= i < |entries| ==> !HasKey(acc, entries[i].0)
    ensures PutAll(acc, entries) == acc + entries
    decreases |entries|
  {
    if entries != [] {
      var e, rest := entries[0], entries[1..];
      var acc' := Put(acc, e.0, e.1);
      assert acc' == acc + [e];
      forall i | 0 <= i < |rest|
        ensures !HasKey(acc', rest[i].0)
      {
        assert rest[i] == entries[i + 1];
        HasKeyAppend(acc, [e], rest[i].0);
      }
      PutAllFresh(acc', rest);
      assert acc' + rest == acc + entries;
      assert PutAll(acc, entries) == PutAll(acc', rest);
    }
  }

  /** Spreading never drops or reorders existing keys, adds only the
      spread keys, and leaves the values of the other keys alone. */
  lemma {:induction false} PutAllPreserves(acc: Record, entries: Record, k: string)
    ensures Keys(acc) <= Keys(PutAll(acc, entries))
    ensures HasKey(PutAll(acc, entries), k) <==> HasKey(acc, k) || HasKey(entries, k)
    ensures !HasKey(entries, k) ==> Get(PutAll(acc, entries), k) == Get(acc, k)
    decreases |entries|
  {
    if entries != [] {
      var e, rest := entries[0], entries[1..];
      var acc' := Put(acc, e.0, e.1);
      PutGet(acc, e.0, e.1, k);
      if !HasKey(acc, e.0) {
        KeysAppend(acc, [e]);
      }
      PutAllPreserves(acc', rest, k);
      assert PutAll(acc, entries) == PutAll(acc', rest);
    }
  }

  /** One `[label]: count` entry per boundary, in boundary order. */
  function WeekEntries(m: Messages, dates: seq<int>, format: int -> string): Record
  {
    seq(|dates|, i requires 0 <= i < |dates| => (Label(format, dates[i]), Count(WeekCount(m, dates[i]))))
  }

  /** The identity fields `id`, `name`, `owner`. */
  function IdentityFields(c: Channel): Record
  {
    [("id", Text(c.id)), ("name", Text(ChannelName(c))), ("owner", Text(UserName(c.owner)))]
  }

  /** The week grid of a channel's report, from its `oldest` up to `now`. */
  function ChannelDates(c: Channel, now: int, cal: Calendar): Result<seq<int>>
  {
    CreateDatesWith7DaysIntervals(c.messages.oldest, now, cal.weekday(c.messages.oldest))
  }

  /** `Channel.toJson`: the counts are reduced into an object by property
      assignment, then spread after the identity fields. */
  function ToJson(c: Channel, now: int, cal: Calendar): (r: Result<Record>)
    ensures r.Err? <==> now < c.messages.oldest - Week
  {
    match ChannelDates(c, now, cal)
    case Err(e) => Err(e)
    case Ok(dates) =>
      var counts := PutAll([], WeekEntries(c.messages, dates, cal.format));
      Ok(PutAll(IdentityFields(c), counts))
  }

  /** `Channel.createHeaders`: the three identity columns, then one label per
      boundary in order. */
  function CreateHeaders(c: Channel, now: int, cal: Calendar): (r: Result<seq<string>>)
    ensures r.Err? <==> now < c.messages.oldest - Week
    ensures r.Ok? ==> |r.value| >= 3 && r.value[..3] == ["id", "name", "owner"]
    ensures r.Ok? ==> forall i :: 3 <= i < |r.value| ==> |r.value[i]| > 0 && r.value[i][0] == '\U{301C}'
  {
    match ChannelDates(c, now, cal)
    case Err(e) => Err(e)
    case Ok(dates) =>
      Ok(["id", "name", "owner"] + seq(|dates|, i requires 0 <= i < |dates| => Label(cal.format, dates[i])))
  }

  /** Every entry is keyed by a week label. */
  predicate Labelled(entries: Record)
  {
    forall i :: 0 <= i < |entries| ==> |entries[i].0| > 0 && entries[i].0[0] == '\U{301C}'
  }

  lemma {:induction false} LabelledKey(entries: Record, k: string)
    requires Labelled(entries) && HasKey(entries, k)
    ensures |k| > 0 && k[0] == '\U{301C}'
    decreases |entries|
  {
    if entries[0].0 != k {
      LabelledKey(entries[1..], k);
    }
  }

  /** Reducing labelled entries into an object never produces an identity
      key. */
  lemma CountsAvoidIdentity(entries: Record)
    requires Labelled(entries)
    ensures !HasKey(PutAll([], entries), "id")
    ensures !HasKey(PutAll([], entries), "name")
    ensures !HasKey(PutAll([], entries), "owner")
  {
    assert "id"[0] == 'i' && "name"[0] == 'n' && "owner"[0] == 'o';
    PutAllPreserves([], entries, "id");
    PutAllPreserves([], entries, "name");
    PutAllPreserves([], entries, "owner");
    if HasKey(entries, "id") { LabelledKey(entries, "id"); }
    if HasKey(entries, "name") { LabelledKey(entries, "name"); }
    if HasKey(entries, "owner") { LabelledKey(entries, "owner"); }
  }

  /** Spreading counts that hold no identity key after the identity fields
      keeps those fields first and unchanged. */
  lemma IdentityFirst(c: Channel, counts: Record)
    requires !HasKey(counts, "id") && !HasKey(counts, "name") && !HasKey(counts, "owner")
    ensures ["id", "name", "owner"] <= Keys(PutAll(IdentityFields(c), counts))
    ensures Get(PutAll(IdentityFields(c), counts), "id") == Some(Text(c.id))
    ensures Get(PutAll(IdentityFields(c), counts), "name") == Some(Text(ChannelName(c)))
    ensures Get(PutAll(IdentityFields(c), counts), "owner") == Some(Text(UserName(c.owner)))
  {
    var ids := IdentityFields(c);
    assert "id" != "name" && "id" != "owner" && "name" != "owner" by {
      assert "id"[0] != "name"[0] && "id"[0] != "owner"[0] && "name"[0] != "owner"[0];
    }
    assert ids[1..][1..] == ids[2..];
    assert Keys(ids[2..]) == ["owner"];
    assert Keys(ids[1..]) == ["name", "owner"];
    assert Keys(ids) == ["id", "name", "owner"];
    assert Get(ids, "id") == Some(Text(c.id));
    assert Get(ids[1..], "name") == Some(Text(ChannelName(c)));
    assert Get(ids[2..], "owner") == Some(Text(UserName(c.owner)));
    PutAllPreserves(ids, counts, "id");
    PutAllPreserves(ids, counts, "name");
    PutAllPreserves(ids, counts, "owner");
  }

  lemma WeekEntriesLabelled(m: Messages, dates: seq<int>, format: int -> string)
    ensures Labelled(WeekEntries(m, dates, format))
  {
  }

  /** Whatever the calendar, a report row starts with the identity fields
      and holds their values. */
  lemma ToJsonIdentity(c: Channel, now: int, cal: Calendar)
    requires c.messages.oldest - Week <= now
    ensures ["id", "name", "owner"] <= Keys(ToJson(c, now, cal).value)
    ensures Get(ToJson(c, now, cal).value, "id") == Some(Text(c.id))
    ensures Get(ToJson(c, now, cal).value, "name") == Some(Text(ChannelName(c)))
    ensures Get(ToJson(c, now, cal).value, "owner") == Some(Text(UserName(c.owner)))
  {
    var dates := ChannelDates(c, now, cal).value;
    var entries := WeekEntries(c.messages, dates, cal.format);
    WeekEntriesLabelled(c.messages, dates, cal.format);
    CountsAvoidIdentity(entries);
    IdentityFirst(c, PutAll([], entries));
  }

  lemma {:induction false} KeysAt(rec: Record)
    ensures |Keys(rec)| == |rec|
    ensures forall i :: 0 <= i < |rec| ==> Keys(rec)[i] == rec[i].0
    decreases |rec|
  {
    if rec != [] {
      KeysAt(rec[1..]);
    }
  }

  lemma IdentityKeys(c: Channel, k: string)
    ensures HasKey(IdentityFields(c), k) <==> k == "id" || k == "name" || k == "owner"
  {
    var ids := IdentityFields(c);
    assert ids[1..][1..] == ids[2..];
    assert ids[2..][1..] == [];
    assert HasKey(ids[2..], k) <==> k == "owner";
    assert HasKey(ids[1..], k) <==> k == "name" || k == "owner";
  }

  /** Distinct day stamps give distinct labels. */
  lemma LabelInjective(format: int -> string, a: int, b: int)
    requires format(a) != format(b)
    ensures Label(format, a) != Label(format, b)
  {
    assert Label(format, a)[1..] == format(a);
    assert Label(format, b)[1..] == format(b);
  }

  /** With a calendar whose day stamps tell weeks apart, a report row is
      exactly the identity fields followed by one entry per boundary, in
      boundary order, each the label of the boundary and the number of
      messages strictly inside its week. */
  lemma ToJsonFlat(c: Channel, now: int, cal: Calendar)
    requires SeparatesWeeks(cal.format)
    requires c.messages.oldest - Week <= now
    ensures ChannelDates(c, now, cal).Ok?
    ensures ToJson(c, now, cal)
         == Ok(IdentityFields(c) + WeekEntries(c.messages, ChannelDates(c, now, cal).value, cal.format))
  {
    var from := c.messages.oldest;
    var first := FirstWeekEnd(from, cal.weekday(from));
    var dates := ChannelDates(c, now, cal).value;
    assert dates == Grid(first, |dates|);
    var entries := WeekEntries(c.messages, dates, cal.format);
    assert DistinctKeys(entries) by {
      GridFormatsDistinct(cal.format, first, |dates|);
      forall i, j | 0 <= i < j < |entries|
        ensures entries[i].0 != entries[j].0
      {
        LabelInjective(cal.format, dates[i], dates[j]);
      }
    }
    PutAllFresh([], entries);
    assert [] + entries == entries;
    var ids := IdentityFields(c);
    forall i | 0 <= i < |entries|
      ensures !HasKey(ids, entries[i].0)
    {
      IdentityKeys(c, entries[i].0);
      assert "id"[0] == 'i' && "name"[0] == 'n' && "owner"[0] == 'o';
    }
    PutAllFresh(ids, entries);
  }

  /** The header row lists exactly the keys of the report row, in the same
      order, for the same `oldest`, `now` and calendar. */
  lemma HeadersMatchJson(c: Channel, now: int, cal: Calendar)
    requires SeparatesWeeks(cal.format)
    ensures ToJson(c, now, cal).Ok? <==> CreateHeaders(c, now, cal).Ok?
    ensures ToJson(c, now, cal).Ok? ==> Keys(ToJson(c, now, cal).value) == CreateHeaders(c, now, cal).value
  {
    if c.messages.oldest - Week <= now {
      ToJsonFlat(c, now, cal);
      var dates := ChannelDates(c, now, cal).value;
      var ids := IdentityFields(c);
      var entries := WeekEntries(c.messages, dates, cal.format);
      KeysAppend(ids, entries);
      KeysAt(ids);
      KeysAt(entries);
      assert Keys(ids) == ["id", "name", "owner"];
      assert Keys(entries) == seq(|dates|, i requires 0 <= i < |dates| => Label(cal.format, dates[i]));
    }
  }

  /** A channel without messages reports zero for every week. */
  lemma EmptyChannelCountsZero(c: Channel, now: int, cal: Calendar)
    requires SeparatesWeeks(cal.format)
    requires c.messages.list == []
    requires c.messages.oldest - Week <= now
    ensures |ToJson(c, now, cal).value| == 3 + |ChannelDates(c, now, cal).value|
    ensures forall i :: 3 <= i < |ToJson(c, now, cal).value| ==> ToJson(c, now, cal).value[i].1 == Count(0)
  {
    ToJsonFlat(c, now, cal);
  }

  /** The sum of the week counts of a row's entries. */
  function WeekTotal(entries: Record): nat
    decreases |entries|
  {
    if entries == [] then 0
    else (match entries[0].1 case Count(n) => n case Text(_) => 0) + WeekTotal(entries[1..])
  }

  lemma {:induction false} WeekTotalOfEntries(m: Messages, dates: seq<int>, format: int -> string)
    ensures WeekTotal(WeekEntries(m, dates, format)) == SumCounts(m.list, dates)
    decreases |dates|
  {
    if dates != [] {
      assert WeekEntries(m, dates, format)[1..] == WeekEntries(m, dates[1..], format);
      WeekTotalOfEntries(m, dates[1..], format);
    }
  }

  /** No message is counted twice in a row: the week columns add up to the
      number of messages strictly inside the covered span and off every
      boundary, so to at most the number of messages. */
  lemma ToJsonWeekTotal(c: Channel, now: int, cal: Calendar)
    requires SeparatesWeeks(cal.format)
    requires c.messages.oldest - Week <= now
    ensures ToJson(c, now, cal).Ok? && |ToJson(c, now, cal).value| >= 3
    ensures WeekTotal(ToJson(c, now, cal).value[3..]) <= Length(c.messages)
    ensures var from := c.messages.oldest;
      WeekTotal(ToJson(c, now, cal).value[3..])
      == |FilterList(c.messages.list, (msg: Message) =>
            InSpan(msg.timestamp, FirstWeekEnd(from, cal.weekday(from)), |ChannelDates(c, now, cal).value|))|
  {
    ToJsonFlat(c, now, cal);
    var from := c.messages.oldest;
    var dates := ChannelDates(c, now, cal).value;
    var first := FirstWeekEnd(from, cal.weekday(from));
    assert dates == Grid(first, |dates|);
    var entries := WeekEntries(c.messages, dates, cal.format);
    assert ToJson(c, now, cal).value[3..] == entries;
    WeekTotalOfEntries(c.messages, dates, cal.format);
    GridSeparated(first, |dates|);
    SumCountsAtMostLength(c.messages.list, dates);
    SumCountsOnGrid(c.messages.list, first, |dates|);
  }
}
