/** The report set (`Channels` in index.js): one row per channel and the
    header taken from the first channel. */
module Channels {
  import opened Results
  import opened Dates
  import Channel

  /** `Channels.toJson`: every channel's row, in order. A channel whose grid
      cannot be built aborts the whole report. */
  function ToJson(cs: seq<Channel.Channel>, now: int, cal: Calendar): (r: Result<seq<Channel.Record>>)
    ensures r.Ok? <==> forall i :: 0 <= i < |cs| ==> Channel.ToJson(cs[i], now, cal).Ok?
    ensures r.Ok? ==> |r.value| == |cs|
    ensures r.Ok? ==> forall i :: 0 <= i < |cs| ==> r.value[i] == Channel.ToJson(cs[i], now, cal).value
    decreases |cs|
  {
    if cs == [] then Ok([])
    else match Channel.ToJson(cs[0], now, cal)
      case Err(e) => Err(e)
      case Ok(row) =>
        match ToJson(cs[1..], now, cal)
        case Err(e) => Err(e)
        case Ok(rows) => Ok([row] + rows)
  }

  /** `Channels.createHeaders`: the first channel's header; reading the first
      channel of an empty list fails. */
  function CreateHeaders(cs: seq<Channel.Channel>, now: int, cal: Calendar): (r: Result<seq<string>>)
    ensures cs == [] ==> r == Err(FirstChannelUndefined)
    ensures cs != [] ==> (r.Err? <==> now < cs[0].messages.oldest - Week)
  {
    if cs == [] then Err(FirstChannelUndefined)
    else Channel.CreateHeaders(cs[0], now, cal)
  }

  /** All channels start their report at the same date. */
  predicate SharedOldest(cs: seq<Channel.Channel>)
  {
    forall i :: 0 <= i < |cs| ==> cs[i].messages.oldest == cs[0].messages.oldest
  }

  /** A header depends on a channel's start date only. */
  lemma HeaderDependsOnOldestOnly(a: Channel.Channel, b: Channel.Channel, now: int, cal: Calendar)
    requires a.messages.oldest == b.messages.oldest
    ensures Channel.CreateHeaders(a, now, cal) == Channel.CreateHeaders(b, now, cal)
  {
  }

  /** When every channel shares the first one's start date, the header of
      the set lists the keys of every row, in order. */
  lemma HeaderAlignsWithEveryRow(cs: seq<Channel.Channel>, now: int, cal: Calendar)
    requires SeparatesWeeks(cal.format)
    requires SharedOldest(cs)
    requires ToJson(cs, now, cal).Ok?
    ensures cs != [] <==> CreateHeaders(cs, now, cal).Ok?
    ensures forall i :: 0 <= i < |cs| ==>
      Channel.Keys(ToJson(cs, now, cal).value[i]) == CreateHeaders(cs, now, cal).value
  {
    forall i | 0 <= i < |cs|
      ensures Channel.Keys(ToJson(cs, now, cal).value[i]) == CreateHeaders(cs, now, cal).value
    {
      Channel.HeadersMatchJson(cs[i], now, cal);
      HeaderDependsOnOldestOnly(cs[i], cs[0], now, cal);
    }
    if cs != [] {
      Channel.HeadersMatchJson(cs[0], now, cal);
    }
  }

  /** Without a shared start date the first channel's header can disagree
      with another row: two channels a week apart get different columns. */
  lemma HeaderMisalignsWithoutSharedOldest(a: Channel.Channel, b: Channel.Channel, now: int, cal: Calendar)
    requires SeparatesWeeks(cal.format)
    requires b.messages.oldest == a.messages.oldest + Week
    requires cal.weekday(a.messages.oldest) == cal.weekday(b.messages.oldest)
    requires b.messages.oldest <= now
    ensures ToJson([a, b], now, cal).Ok?
    ensures Channel.Keys(ToJson([a, b], now, cal).value[1]) != CreateHeaders([a, b], now, cal).value
  {
    var oa := a.messages.oldest;
    var da := Channel.ChannelDates(a, now, cal).value;
    var db := Channel.ChannelDates(b, now, cal).value;
    assert |da| == (now - oa) / Week + 1;
    assert |db| == (now - (oa + Week)) / Week + 1;
    WeekEarlier(now - oa);
    var ha := Channel.CreateHeaders(a, now, cal).value;
    var hb := Channel.CreateHeaders(b, now, cal).value;
    assert |ha| == 3 + |da| && |hb| == 3 + |db|;
    assert |hb| != |ha|;
    var rows := ToJson([a, b], now, cal).value;
    assert rows[1] == Channel.ToJson(b, now, cal).value;
    Channel.HeadersMatchJson(b, now, cal);
    assert Channel.Keys(rows[1]) == hb;
    assert CreateHeaders([a, b], now, cal).value == ha;
  }

  lemma WeekEarlier(d: int)
    ensures (d - Week) / Week == d / Week - 1
  {
  }
}
