# Weekly channel activity report: the aggregation engine

This project models, in Dafny, the report engine of `index.js` in slack-weekly-log.
For each selected chat channel, the engine counts the messages posted in consecutive 7-day windows
from a configured start date (`oldest`) up to the time of the run (`now`). It turns each channel into one
flat record: `id`, `#name`, `@owner`, then one count per week, keyed by a week label
`〜yyyyMMdd`. It also builds the matching header row, taken from the first channel.

Instants are integer epoch milliseconds. Modules follow the classes of `index.js`:

- `Results` holds the two exceptions the code can raise. `Array(n)` with `n < 0` raises
  `InvalidArrayLength`. Reading `list[0]` of an empty channel list raises `FirstChannelUndefined`.
- `Dates` (`Dates`) builds the week-end grid and the strict window test.
  - `Minute`, `Day` and `Week` are the millisecond constants.
  - `Calendar` bundles what the code reads from the local calendar: `weekday` (`Date.getDay`, 0..6) and
    `format` (the `yyyyMMdd` stamp of `date-fns`). Both are parameters.
  - `SeparatesWeeks(format)` says that two instants a week or more apart get different stamps, as
    calendar dates do.
- `Messages` (`Message`, `Messages`) holds the timeline and `filter`, `map`, `length`, `getListOneWeek`.
  - It also has the counting functions used to state the partition properties: `HitCount`, `SumCounts`
    and `InSpan`.
- `Channel` (`User`, `Channel`) holds the display-name getters, `formatDate` (`Label`), `toJson` and
  `createHeaders`. A JavaScript object is a `Record`: its entries in insertion order.
  - `Put` is property assignment. An existing key keeps its place and takes the new value. A new key is
    appended.
  - `PutAll` is object spread.
  - Every key is a non-integer string, so JavaScript's insertion-order rule for keys applies unchanged.
- `Channels` (`Channels`) holds the report set.
- `AllowList` holds `includes`.
- `Scenario` is a worked report over four messages.

Helper functions that carry no contract of their own are used by the members below: `InWeek`, `Grid`,
`WeekCount`, `Keys`, `HasKey`, `Get`, `WeekEntries`, `IdentityFields`, `ChannelDates` and `WeekTotal`.
Their properties are stated by the lemmas listed in the table. Rows marked "proof helper" state an
arithmetic fact the other proofs use; they cite the line whose arithmetic they are about.

Two consequences of the code are easy to miss:

- The number of week ends is `floor((to − from)/week) + 1`. It is measured from `from`, not from the first
  week end. It is negative, and the code throws, when `to < from − week`. It is zero when
  `from − week ≤ to < from`.
- Take `oldest` = Wednesday 2020-01-01, `now` = 2020-01-20, and messages on Jan 3, Jan 3, Jan 12 and
  Jan 19. The week ends are Jan 3, 10 and 17 at 23:59 (not Jan 4, 11 and 18), and the counts are
  `[2, 0, 1]`, as `Scenario.WorkedReport` proves. The Jan 19 message is after the last week end and is
  not counted.

## Model

| member | source | states |
|---|---|---|
| Dates.CreateDatesWith7DaysIntervals | index.js:90-97 | fails exactly when `to < from − week`; otherwise the count n is the unique n with `(n−1)·week ≤ to−from < n·week`; `to ≥ from` gives at least one boundary and `to == from` exactly one; `from − week ≤ to < from` gives none; element 0 is `from + (6−weekday)·day − 1 min`; each boundary is the previous plus one week; the last boundary lies in `(to − week − 1 min, to + 6 days − 1 min]` |
| Dates.IsDateBetweenInterval | index.js:105-107 | an instant inside the interval is on neither end, and an interval of at most one millisecond holds no instant |
| Dates.FirstWeekEnd | index.js:92 | the first boundary is one minute before a whole number of days after `from`, on the day whose weekday is 6, so it lies in `[from − 1 min, from + week − 1 min)` |
| Dates.FloorWeek | index.js:95 | proof helper: integer division by a week rounds down, as `Math.floor` does |
| Dates.GridSeparated | index.js:96 | boundaries of a grid are strictly increasing and at least a week apart |
| Dates.BoundaryInNoWindow | index.js:105-107 | an instant exactly on any boundary of the grid is inside no week window of the grid |
| Dates.WindowsDisjoint | index.js:105-107 | the open windows of two boundaries a week or more apart share no instant |
| Dates.GridFormatsDistinct | index.js:128-130 | with a week-separating calendar, the day stamps of the grid's boundaries are pairwise distinct |
| Messages.Length | index.js:60-62 | the message count is zero exactly for an empty timeline |
| Messages.FilterList | index.js:80 | `Array.prototype.filter` never returns more elements than it was given |
| Messages.MapList | index.js:73 | `Array.prototype.map` returns as many elements as it was given |
| Messages.FilterListSpec | index.js:79-81 | filtering keeps exactly the messages that pass the test, as an order-preserving subsequence: a passing message occurs as often as in the original, a failing one not at all |
| Messages.Filter | index.js:79-81 | `filter` returns a timeline with the same `oldest`, whose list is a subsequence of the original; every passing message occurs in it exactly as often as in the original, and no failing message occurs |
| Messages.Map | index.js:72-74 | `map` returns a timeline with the same `oldest` and length, element i being the transform of element i |
| Messages.GetListOneWeek | index.js:68-70 | keeps `oldest`; holds the messages with `weekend − 7 days < timestamp < weekend`, in order, each as often as in the timeline, and no other message; a message stamped at `weekend` or at `weekend − 7 days` is never kept; so its `length` is the number of messages inside the week |
| Messages.FilterConcat | index.js:79-81 | filtering distributes over concatenation, so the original order is kept |
| Messages.FilterAfterMap | index.js:72-81 | filtering a mapped list equals mapping the list filtered by the composed test |
| Messages.MapIdentity | index.js:72-74 | mapping the identity returns the same timeline |
| Messages.MapCompose | index.js:72-74 | mapping twice equals mapping once by the composition |
| Messages.EmptyWeekCount | index.js:68-70 | an empty timeline counts zero in every week |
| Messages.SumCountsCons | index.js:135-136 | the week counts of a list add up to the first message's number of windows plus the counts of the rest |
| Messages.NoHitsBefore | index.js:105-107 | an instant a week or more before every boundary lies in none of their windows |
| Messages.HitCountAtMostOne | index.js:69 | with boundaries a week or more apart, an instant lies in at most one window |
| Messages.EmptySumCounts | index.js:135-136 | an empty list counts zero over any boundaries |
| Messages.SumCountsAtMostLength | index.js:135-136 | no message is counted in two weeks: the week counts add up to at most the number of messages |
| Messages.HitCountOnGrid | index.js:96 | on a week grid, an instant lies in exactly one window if it is strictly inside the covered span and off every boundary, and in none otherwise |
| Messages.InSpanStep | index.js:96 | the span of a grid is its first window plus the span of the rest of the grid |
| Messages.ShiftRemainder | index.js:96 | proof helper: moving an instant by one week keeps its offset within the week |
| Messages.NegativeRemainder | index.js:92 | proof helper: an instant less than a week before a boundary is not on the grid |
| Messages.SumCountsOnGrid | index.js:135-136 | partition completeness: the week counts of a grid add up to the number of messages strictly inside its span and off its boundaries |
| Channel.UserName | index.js:34-36 | the owner label is `@` followed by the raw user name |
| Channel.ChannelName | index.js:124-126 | the channel label is `#` followed by the raw channel name |
| Channel.DisplayNamesInjective | index.js:124-126 | two labels are equal exactly when the raw names are |
| Channel.Label | index.js:128-130 | a week label is non-empty and starts with the wave dash `〜` |
| Channel.LabelInjective | index.js:128-130 | distinct day stamps give distinct week labels |
| Channel.Put | index.js:135-136 | assigning an existing key keeps the key order and the number of entries; assigning a new key appends the entry |
| Channel.PutAll | index.js:135-140 | spreading never removes an entry |
| Channel.PutGet | index.js:135-136 | after an assignment the key is present and holds the new value; every other key keeps its presence and value |
| Channel.HasKeyAppend | index.js:138-139 | a concatenation has a key exactly when one of its parts has it |
| Channel.KeysAppend | index.js:143-150 | the keys of a concatenation are the keys of the first part, then those of the second |
| Channel.PutAllFresh | index.js:135-139 | spreading entries with distinct keys that are all new appends them unchanged |
| Channel.PutAllPreserves | index.js:137-140 | spreading keeps the existing keys as a prefix, adds only the spread keys, and leaves the values of the other keys alone |
| Channel.LabelledKey | index.js:136 | every key of a labelled record starts with `〜` |
| Channel.CountsAvoidIdentity | index.js:135-139 | the reduced week counts never hold the keys `id`, `name` or `owner` |
| Channel.IdentityFirst | index.js:137-140 | after spreading such counts, `id`, `name` and `owner` come first and keep their values |
| Channel.WeekEntriesLabelled | index.js:135-136 | every week entry is keyed by a week label |
| Channel.ToJson | index.js:132-141 | `toJson` fails exactly when `now < oldest − week` |
| Channel.ToJsonIdentity | index.js:132-141 | with any calendar and whenever `now ≥ oldest − week` (so the grid can be built), a row starts with `id`, `name`, `owner`, holding the id, `#name` and `@owner` |
| Channel.ToJsonFlat | index.js:132-141 | with a week-separating calendar, a row is exactly the identity fields, then one entry per boundary in boundary order: the boundary's label and the number of messages strictly inside its week |
| Channel.WeekTotalOfEntries | index.js:135-136 | the week columns of a row add up to the week counts summed over the boundaries |
| Channel.ToJsonWeekTotal | index.js:132-141 | the week columns of a row add up to the number of messages strictly inside the covered span and off every boundary, so to at most the number of messages |
| Channel.EmptyChannelCountsZero | index.js:132-141 | a channel without messages has one zero count per boundary |
| Channel.CreateHeaders | index.js:143-151 | `createHeaders` fails exactly when `toJson` does; otherwise it starts with `id`, `name`, `owner`, and every later column is a week label |
| Channel.KeysAt | index.js:143-150 | key i of a record is the key of its entry i |
| Channel.IdentityKeys | index.js:138 | the identity part of a row has exactly the keys `id`, `name` and `owner` |
| Channel.HeadersMatchJson | index.js:143-151 | for the same `oldest`, `now` and calendar, the header succeeds exactly when the row does, and it lists exactly the row's keys, in the row's order |
| Channels.ToJson | index.js:162-164 | succeeds exactly when every channel's row does, giving one row per channel, in order, each the channel's own row |
| Channels.CreateHeaders | index.js:166-168 | an empty list fails with `FirstChannelUndefined`; otherwise it fails exactly when the first channel's grid cannot be built |
| Channels.HeaderDependsOnOldestOnly | index.js:143-151 | two channels with the same start date have the same header |
| Channels.HeaderAlignsWithEveryRow | index.js:162-168 | when all channels share the first one's start date, the set has a header exactly when it is non-empty, and that header lists the keys of every row, in order |
| Channels.HeaderMisalignsWithoutSharedOldest | index.js:166-168 | a second channel starting one week later gets a row whose keys differ from the header taken from the first channel |
| Channels.WeekEarlier | index.js:95 | proof helper: starting one week later gives one week fewer |
| AllowList.SomeEqual | index.js:13 | `some(name => x === name)` holds exactly when `x` is in the list |
| AllowList.SomeListed | index.js:15 | holds exactly when some former name is in the list |
| AllowList.Includes | index.js:11-17 | a channel is selected exactly when its name, its normalized name or one of its former names is in the allow-list |
| Scenario.ScenarioDates | index.js:90-97 | from Wednesday 2020-01-01 to 2020-01-20 the week ends are Jan 3, 10 and 17 at 23:59 |
| Scenario.ScenarioCounts | index.js:68-70 | the four messages of the example count 2, 0 and 1 in those weeks |
| Scenario.ScenarioEntries | index.js:135-136 | the example's reduced week counts are the labels of Jan 3, 10 and 17 with counts 2, 0 and 1 |
| Scenario.ThreeEntries | index.js:135-136 | proof helper: three boundaries with known week counts give those three labelled entries, in order |
| Scenario.CountFour | index.js:79-81 | filtering four messages keeps as many as pass the test |
| Scenario.WorkedReport | index.js:132-141 | the example's row is the identity fields, then the labels of Jan 3, 10 and 17 with counts 2, 0 and 1 |

## Left out

- Network access through the chat service client is left out. This covers `createUser`, `createMessages`,
  `createRawChannels` with its cursor pagination, `main`, and the `Promise.all` concurrency
  (index.js:174-235). The engine receives already-fetched values.
- `writeFileAsync` and `JSON.stringify` are file output, and are left out.
- `toCsv` wraps the `json2csv` library, whose code is not part of this model.
- `date-fns` `addDays`, `addMinutes` and `format`, and `Date.getDay`, are modelled on fixed-length days.
  A day is exactly 86 400 000 ms, so daylight-saving shifts of local time are not modelled. The weekday
  and the `yyyyMMdd` stamp are the parameters in `Calendar`. This matters for the counting lemmas: a
  window starts at `addDays(weekend, -7)` (index.js:69), a local-calendar step, while the boundaries are
  spaced by a fixed `weekTime` (index.js:96). Across a daylight-saving change neighbouring windows
  overlap or leave a one-hour gap. `Messages.HitCountAtMostOne`, `Messages.SumCountsAtMostLength` and
  `Messages.SumCountsOnGrid` hold only with fixed-length days.
- The wall clock `new Date()` is the parameter `now`. The model assumes `toJson` and `createHeaders` read
  the same `now`. In the code they are two separate clock reads and could fall on either side of a week
  boundary.
- Converting message `ts` seconds to `Date` (`ts * 1000`) is part of the left-out fetch layer.
  Floating-point division in `Math.floor(((toTime - fromTime) / weekTime) + 1)` is modelled as exact
  integer floor division.
- Messages.Map: the transform is typed `Message -> Message`. JavaScript's `map` may return values of any
  type. The code never calls `map`.
- Dates.GridFormatsDistinct, Channel.ToJsonFlat, Channel.HeadersMatchJson, Channel.ToJsonWeekTotal,
  Channel.EmptyChannelCountsZero, Channels.HeaderAlignsWithEveryRow,
  Channels.HeaderMisalignsWithoutSharedOldest and Scenario.WorkedReport assume `SeparatesWeeks(cal.format)`. This is the calendar fact that
  dates a week apart print differently. Without it, `Put` still models what the code does with a
  repeated label: it overwrites the earlier count.
- The filtering of channels in `main` by `includes`, before reports are built, is I/O orchestration.
  Only `includes` itself is modelled.
