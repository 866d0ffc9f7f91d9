/** The device-details screen: reading one device record into power readings
    and monthly totals, picking the recent readings and months the charts show,
    their averages and axis labels, and the device logo.

    Dates are epoch milliseconds. The date parsers and formatters of the
    platform are parameters: a parse is a partial function, a format a total one. */
module DeviceDetails {
  import opened Base
  import opened Sorting
  import opened Grouping
  import opened Drawables

  datatype PowerReading = PowerReading(timestamp: string, value: real, date: Option<int>)

  /** A month key ("YYYY-MM") with its energy. */
  datatype MonthlyEnergyData = MonthlyEnergyData(month: string, totalEnergy: real, date: Option<int>)

  datatype Device = Device(
    deviceLogo: string,
    deviceName: string,
    livePower: int,
    powerHistory: seq<PowerReading>,
    monthlyEnergy: seq<MonthlyEnergyData>)

  /** The platform's date parsers, one per pattern the app uses; None is a
      parse failure. */
  datatype DateParsers = DateParsers(
    isoDateTime: string -> Option<int>,   // "yyyy-MM-dd'T'HH:mm"
    calendarDate: string -> Option<int>,  // "yyyy-MM-dd"
    yearMonth: string -> Option<int>)     // "yyyy-MM"

  /** `sortedBy { it.date ?: Date(0) }`: a reading without a date sorts as the epoch. */
  function ReadingKey(r: PowerReading): Key {
    At(r.date.GetOr(0))
  }

  function MonthKey(m: MonthlyEnergyData): Key {
    At(m.date.GetOr(0))
  }

  function Values(readings: seq<PowerReading>): (r: seq<real>)
    ensures |r| == |readings| && forall i :: 0 <= i < |r| ==> r[i] == readings[i].value
  {
    seq(|readings|, i requires 0 <= i < |readings| => readings[i].value)
  }

  function Energies(months: seq<MonthlyEnergyData>): (r: seq<real>)
    ensures |r| == |months| && forall i :: 0 <= i < |r| ==> r[i] == months[i].totalEnergy
  {
    seq(|months|, i requires 0 <= i < |months| => months[i].totalEnergy)
  }

  // ---------------------------------------------------------------------------
  // Power history

  /** `getLastSevenValues`: the seven most recent readings, oldest first. */
  function LastSevenValues(history: seq<PowerReading>): (r: seq<PowerReading>)
    ensures |r| == if |history| <= 7 then |history| else 7
    ensures SortedBy(r, ReadingKey)
  {
    TakeLastOfSorted(SortBy(history, ReadingKey), ReadingKey, 7);
    TakeLast(SortBy(history, ReadingKey), 7)
  }

  /** The readings kept are readings of the history, and none left out is
      dated after one that is kept. */
  lemma LastSevenAreLatest(history: seq<PowerReading>)
    ensures multiset(LastSevenValues(history)) <= multiset(history)
    ensures var r := LastSevenValues(history);
            forall x, y :: x in multiset(history) - multiset(r) && y in r ==> KeyLe(ReadingKey(x), ReadingKey(y))
  {
    LastOfSortBy(history, ReadingKey, 7);
  }

  /** `calculateAverageOfLastSeven`: the mean reading, 0 for no readings. */
  function AverageOfLastSeven(readings: seq<PowerReading>): (r: real)
    ensures readings == [] ==> r == 0.0
    ensures readings != [] ==> r * (|readings| as real) == Sum(Values(readings))
  {
    Mean(Values(readings))
  }

  /** The average never leaves the range of the readings it is taken over. */
  lemma AverageWithinReadings(readings: seq<PowerReading>, lo: real, hi: real)
    requires readings != []
    requires forall r :: r in readings ==> lo <= r.value <= hi
    ensures lo <= AverageOfLastSeven(readings) <= hi
  {
    var vs := Values(readings);
    forall i | 0 <= i < |vs| ensures lo <= vs[i] <= hi {
      assert readings[i] in readings;
    }
    MeanBetweenBounds(vs, lo, hi);
  }

  /** `getTimeLabelsForReadings`: one label per reading, in order; the formatted
      date, or the raw timestamp when the reading has no date. */
  function TimeLabels(readings: seq<PowerReading>, format: int -> string): (labels: seq<string>)
    ensures |labels| == |readings|
    ensures forall i :: 0 <= i < |readings| ==>
              labels[i] == match readings[i].date
                           case Some(d) => format(d)
                           case None => readings[i].timestamp
  {
    if readings == [] then []
    else seq(|readings|, i requires 0 <= i < |readings| =>
               match readings[i].date
               case Some(d) => format(d)
               case None => readings[i].timestamp)
  }

  // ---------------------------------------------------------------------------
  // Monthly energy

  /** `calculateAverageMonthlyEnergy`: the mean monthly energy, 0 for no months. */
  function AverageMonthlyEnergy(months: seq<MonthlyEnergyData>): (r: real)
    ensures months == [] ==> r == 0.0
    ensures months != [] ==> r * (|months| as real) == Sum(Energies(months))
  {
    Mean(Energies(months))
  }

  /** `getMonthLabelsForReadings`: one label per month, in order; the formatted
      date, or the month key when the entry has no date. */
  function MonthLabels(months: seq<MonthlyEnergyData>, format: int -> string): (labels: seq<string>)
    ensures |labels| == |months|
    ensures forall i :: 0 <= i < |months| ==>
              labels[i] == match months[i].date
                           case Some(d) => format(d)
                           case None => months[i].month
  {
    if months == [] then []
    else seq(|months|, i requires 0 <= i < |months| =>
               match months[i].date
               case Some(d) => format(d)
               case None => months[i].month)
  }

  /** The (month, energy) entries of a list of monthly data. */
  function MonthEntries(s: seq<MonthlyEnergyData>): (r: seq<Entry>)
    ensures |r| == |s| && forall i :: 0 <= i < |s| ==> r[i] == (s[i].month, s[i].totalEnergy)
  {
    seq(|s|, i requires 0 <= i < |s| => (s[i].month, s[i].totalEnergy))
  }

  /** The date kept for month k: the first date found among its entries,
      skipping missing ones. */
  function FirstDate(s: seq<MonthlyEnergyData>, k: string): Option<int> {
    if s == [] then None
    else
      var p := FirstDate(s[..|s| - 1], k);
      var last := s[|s| - 1];
      if p.Some? then p
      else if last.month == k then last.date
      else None
  }

  /** FirstDate is None exactly when no entry of month k has a date, and
      otherwise the date of the earliest entry of month k that has one. */
  lemma {:induction false} FirstDateSpec(s: seq<MonthlyEnergyData>, k: string)
    ensures FirstDate(s, k).None? ==> forall i :: 0 <= i < |s| && s[i].month == k ==> s[i].date.None?
    ensures FirstDate(s, k).Some? ==>
              exists i :: 0 <= i < |s| && s[i].month == k && s[i].date == FirstDate(s, k) &&
                forall j :: 0 <= j < i && s[j].month == k ==> s[j].date.None?
  {
    if s != [] {
      var p := s[..|s| - 1];
      FirstDateSpec(p, k);
      if FirstDate(p, k).Some? {
        var i :| 0 <= i < |p| && p[i].month == k && p[i].date == FirstDate(p, k) &&
                 forall j :: 0 <= j < i && p[j].month == k ==> p[j].date.None?;
        assert s[i] == p[i];
        forall j | 0 <= j < i && s[j].month == k ensures s[j].date.None? {
          assert s[j] == p[j];
        }
        assert FirstDate(s, k) == FirstDate(p, k);
      } else if s[|s| - 1].month == k && s[|s| - 1].date.Some? {
        var n := |s| - 1;
        forall j | 0 <= j < n && s[j].month == k ensures s[j].date.None? {
          assert s[j] == p[j];
        }
        assert FirstDate(s, k) == s[n].date;
      } else {
        assert FirstDate(s, k).None?;
        forall i | 0 <= i < |s| && s[i].month == k ensures s[i].date.None? {
          if i < |s| - 1 {
            assert s[i] == p[i];
          }
        }
      }
    }
  }

  /** The grouped months `getLastTwelveMonths` builds before sorting: one entry
      per month key, in order of first appearance, with the summed energy and
      the first known date of that month. */
  function MonthlyGroups(s: seq<MonthlyEnergyData>): (r: seq<MonthlyEnergyData>)
    ensures |r| == |Distinct(MonthEntries(s))|
    ensures forall i :: 0 <= i < |r| ==>
              r[i] == MonthlyEnergyData(Distinct(MonthEntries(s))[i],
                                        Total(MonthEntries(s), r[i].month),
                                        FirstDate(s, r[i].month))
  {
    var keys := Distinct(MonthEntries(s));
    seq(|keys|, i requires 0 <= i < |keys| =>
      MonthlyEnergyData(keys[i], Total(MonthEntries(s), keys[i]), FirstDate(s, keys[i])))
  }

  function MonthOf(m: MonthlyEnergyData): string {
    m.month
  }

  /** Every month of the input appears in the grouping exactly once, carrying
      the sum of all its entries' energy and its first known date. */
  lemma MonthlyGroupsSpec(s: seq<MonthlyEnergyData>)
    ensures var g := MonthlyGroups(s);
            forall i, j :: 0 <= i < j < |g| ==> g[i].month != g[j].month
    ensures var g := MonthlyGroups(s);
            forall i :: 0 <= i < |s| ==> exists j :: 0 <= j < |g| && g[j].month == s[i].month
    ensures var g := MonthlyGroups(s);
            forall e :: e in g ==>
              e.totalEnergy == Total(MonthEntries(s), e.month) && e.date == FirstDate(s, e.month)
  {
    var g := MonthlyGroups(s);
    var keys := Distinct(MonthEntries(s));
    forall i | 0 <= i < |s|
      ensures exists j :: 0 <= j < |g| && g[j].month == s[i].month
    {
      KeySetHas(MonthEntries(s), i);
      var j :| 0 <= j < |keys| && keys[j] == s[i].month;
      assert g[j].month == s[i].month;
    }
  }

  lemma {:induction false} KeySetHas(s: seq<Entry>, i: nat)
    requires i < |s|
    ensures s[i].0 in KeySet(s)
  {
    if i < |s| - 1 {
      KeySetHas(s[..|s| - 1], i);
    }
  }

  /** Facts of `getLastTwelveMonths`'s result: at most twelve entries, in date
      order, one per month, each carrying its month's full total. */
  lemma LastTwelveMonthsSpec(s: seq<MonthlyEnergyData>)
    ensures var r := TakeLast(SortBy(MonthlyGroups(s), MonthKey), 12);
            |r| <= 12 && SortedBy(r, MonthKey)
    ensures var r := TakeLast(SortBy(MonthlyGroups(s), MonthKey), 12);
            forall i, j :: 0 <= i < j < |r| ==> r[i].month != r[j].month
    ensures var r := TakeLast(SortBy(MonthlyGroups(s), MonthKey), 12);
            forall e :: e in r ==>
              e.totalEnergy == Total(MonthEntries(s), e.month) && e.date == FirstDate(s, e.month)
  {
    var g := MonthlyGroups(s);
    var sorted := SortBy(g, MonthKey);
    var r := TakeLast(sorted, 12);
    TakeLastOfSorted(sorted, MonthKey, 12);
    LastOfSortBy(g, MonthKey, 12);
    KeptGroupsSpec(s, r);
  }

  /** Any sub-multiset of the grouping keeps its months unique and its totals
      and first dates. */
  lemma KeptGroupsSpec(s: seq<MonthlyEnergyData>, r: seq<MonthlyEnergyData>)
    requires multiset(r) <= multiset(MonthlyGroups(s))
    ensures forall i, j :: 0 <= i < j < |r| ==> r[i].month != r[j].month
    ensures forall e :: e in r ==>
              e.totalEnergy == Total(MonthEntries(s), e.month) && e.date == FirstDate(s, e.month)
  {
    var g := MonthlyGroups(s);
    MonthlyGroupsSpec(s);
    DistinctByProjection(r, g, MonthOf);
    forall e | e in r
      ensures e.totalEnergy == Total(MonthEntries(s), e.month) && e.date == FirstDate(s, e.month)
    {
      assert e in multiset(g);
    }
  }

  /** `getLastTwelveMonths`: groups the entries by month in a mutable map, sorts
      the groups by date and keeps the last twelve. */
  method LastTwelveMonths(monthlyEnergy: seq<MonthlyEnergyData>) returns (r: seq<MonthlyEnergyData>)
    ensures r == TakeLast(SortBy(MonthlyGroups(monthlyEnergy), MonthKey), 12)
    ensures |r| <= 12 && SortedBy(r, MonthKey)
    ensures forall i, j :: 0 <= i < j < |r| ==> r[i].month != r[j].month
    ensures forall e :: e in r ==>
              e.totalEnergy == Total(MonthEntries(monthlyEnergy), e.month) &&
              e.date == FirstDate(monthlyEnergy, e.month)
  {
    // A LinkedHashMap: the map itself and the order its keys were inserted in.
    var monthlyMap: map<string, (real, Option<int>)> := map[];
    var order: seq<string> := [];
    var i := 0;
    while i < |monthlyEnergy|
      invariant 0 <= i <= |monthlyEnergy|
      invariant MonthMapHolds(monthlyEnergy[..i], order, monthlyMap)
    {
      var data := monthlyEnergy[i];
      var monthKey := data.month;
      ghost var oldOrder, oldMap := order, monthlyMap;
      if monthKey in monthlyMap {
        var existingData := monthlyMap[monthKey];
        monthlyMap := monthlyMap[monthKey := (existingData.0 + data.totalEnergy,
                                              if existingData.1.Some? then existingData.1 else data.date)];
      } else {
        monthlyMap := monthlyMap[monthKey := (data.totalEnergy, data.date)];
        order := order + [monthKey];
      }
      MonthMapNext(monthlyEnergy, i, oldOrder, oldMap, order, monthlyMap);
      i := i + 1;
    }
    assert monthlyEnergy[..i] == monthlyEnergy;
    var grouped := seq(|order|, j requires 0 <= j < |order| =>
      MonthlyEnergyData(order[j], monthlyMap[order[j]].0, monthlyMap[order[j]].1));
    MonthMapGroups(monthlyEnergy, order, monthlyMap, grouped);
    r := TakeLast(SortBy(grouped, MonthKey), 12);
    LastTwelveMonthsSpec(monthlyEnergy);
  }

  /** What the month map of `getLastTwelveMonths` holds after reading s: its
      keys in order of insertion, and for each the summed energy and first date. */
  ghost predicate MonthMapHolds(s: seq<MonthlyEnergyData>, order: seq<string>, m: map<string, (real, Option<int>)>) {
    && order == Distinct(MonthEntries(s))
    && (forall k :: k in m <==> k in order)
    && (forall k :: k in m ==> m[k] == (Total(MonthEntries(s), k), FirstDate(s, k)))
  }

  /** One pass of the loop body keeps MonthMapHolds. */
  lemma MonthMapStep(s: seq<MonthlyEnergyData>, d: MonthlyEnergyData,
                     order: seq<string>, m: map<string, (real, Option<int>)>,
                     order': seq<string>, m': map<string, (real, Option<int>)>)
    requires MonthMapHolds(s, order, m)
    requires d.month in m ==>
               order' == order &&
               m' == m[d.month := (m[d.month].0 + d.totalEnergy, if m[d.month].1.Some? then m[d.month].1 else d.date)]
    requires d.month !in m ==> order' == order + [d.month] && m' == m[d.month := (d.totalEnergy, d.date)]
    ensures MonthMapHolds(s + [d], order', m')
  {
    var after := s + [d];
    MonthAppend(s, d, d.month);
    DistinctAndTotalStep(MonthEntries(s), (d.month, d.totalEnergy));
    forall k | k in m'
      ensures m'[k] == (Total(MonthEntries(after), k), FirstDate(after, k))
    {
      MonthEntryStep(s, d, order, m, m', k);
    }
  }

  /** MonthMapStep for the loop's prefixes of the input. */
  lemma MonthMapNext(all: seq<MonthlyEnergyData>, i: nat,
                     order: seq<string>, m: map<string, (real, Option<int>)>,
                     order': seq<string>, m': map<string, (real, Option<int>)>)
    requires i < |all|
    requires MonthMapHolds(all[..i], order, m)
    requires all[i].month in m ==>
               order' == order &&
               m' == m[all[i].month := (m[all[i].month].0 + all[i].totalEnergy,
                                        if m[all[i].month].1.Some? then m[all[i].month].1 else all[i].date)]
    requires all[i].month !in m ==> order' == order + [all[i].month] && m' == m[all[i].month := (all[i].totalEnergy, all[i].date)]
    ensures MonthMapHolds(all[..i + 1], order', m')
  {
    MonthMapStep(all[..i], all[i], order, m, order', m');
    assert all[..i + 1] == all[..i] + [all[i]];
  }

  lemma MonthEntryStep(s: seq<MonthlyEnergyData>, d: MonthlyEnergyData,
                       order: seq<string>, m: map<string, (real, Option<int>)>,
                       m': map<string, (real, Option<int>)>, k: string)
    requires MonthMapHolds(s, order, m)
    requires d.month in m ==>
               m' == m[d.month := (m[d.month].0 + d.totalEnergy, if m[d.month].1.Some? then m[d.month].1 else d.date)]
    requires d.month !in m ==> m' == m[d.month := (d.totalEnergy, d.date)]
    requires k in m'
    ensures m'[k] == (Total(MonthEntries(s + [d]), k), FirstDate(s + [d], k))
  {
    MonthAppend(s, d, k);
    if k != d.month {
      assert m'[k] == m[k];
    } else if d.month !in m {
      FirstDateOfAbsentMonth(s, d.month);
      TotalOfAbsentKey(MonthEntries(s), d.month);
    }
  }

  /** Appending one entry: its energy joins its month's total, and its date
      becomes the month's date if the month had none. */
  lemma MonthAppend(s: seq<MonthlyEnergyData>, d: MonthlyEnergyData, k: string)
    ensures MonthEntries(s + [d]) == MonthEntries(s) + [(d.month, d.totalEnergy)]
    ensures Total(MonthEntries(s + [d]), k) == Total(MonthEntries(s), k) + (if k == d.month then d.totalEnergy else 0.0)
    ensures FirstDate(s + [d], k) == if FirstDate(s, k).Some? then FirstDate(s, k)
                                     else if k == d.month then d.date else None
  {
    assert (s + [d])[..|s|] == s;
    assert MonthEntries(s + [d]) == MonthEntries(s) + [(d.month, d.totalEnergy)];
    TotalAppend(MonthEntries(s), [(d.month, d.totalEnergy)], k);
    assert [(d.month, d.totalEnergy)][..0] == [];
  }

  /** The map read in insertion order is MonthlyGroups. */
  lemma MonthMapGroups(s: seq<MonthlyEnergyData>, order: seq<string>, m: map<string, (real, Option<int>)>,
                       grouped: seq<MonthlyEnergyData>)
    requires MonthMapHolds(s, order, m)
    requires |grouped| == |order|
    requires forall j :: 0 <= j < |order| ==> grouped[j] == MonthlyEnergyData(order[j], m[order[j]].0, m[order[j]].1)
    ensures grouped == MonthlyGroups(s)
  {
  }

  lemma FirstDateOfAbsentMonth(s: seq<MonthlyEnergyData>, k: string)
    requires k !in Distinct(MonthEntries(s))
    ensures FirstDate(s, k) == None
  {
    FirstDateSpec(s, k);
    if FirstDate(s, k).Some? {
      var i :| 0 <= i < |s| && s[i].month == k && s[i].date == FirstDate(s, k);
      KeySetHas(MonthEntries(s), i);
    }
  }

  // ---------------------------------------------------------------------------
  // Reading a device record

  /** How a power-history key is read as a date, tried in this order. */
  datatype TimestampFormat = IsoDateTime | CalendarDate | EpochMillis | EpochSeconds | Unrecognised

  /** The regular expression `\d{4}-\d{2}-\d{2}`, matched against the whole key. */
  predicate IsCalendarDate(ts: string) {
    |ts| == 10 && forall i :: 0 <= i < 10 ==> if i == 4 || i == 7 then ts[i] == '-' else IsDigit(ts[i])
  }

  function ClassifyTimestamp(ts: string): (f: TimestampFormat)
    ensures f == IsoDateTime <==> 'T' in ts
    ensures f == CalendarDate <==> IsCalendarDate(ts)
    ensures f == EpochMillis <==> AllDigits(ts) && |ts| > 10
    ensures f == EpochSeconds <==> AllDigits(ts) && |ts| <= 10
    ensures f == Unrecognised <==> !('T' in ts || IsCalendarDate(ts) || AllDigits(ts))
  {
    assert IsCalendarDate(ts) ==> !AllDigits(ts) && 'T' !in ts by {
      if IsCalendarDate(ts) {
        assert !IsDigit(ts[4]);
        assert forall i :: 0 <= i < |ts| ==> ts[i] != 'T';
      }
    }
    if 'T' in ts then IsoDateTime
    else if IsCalendarDate(ts) then CalendarDate
    else if AllDigits(ts) && |ts| > 10 then EpochMillis
    else if AllDigits(ts) && |ts| <= 10 then EpochSeconds
    else Unrecognised
  }

  /** Long.MAX_VALUE: `toLong()` throws above it. */
  const LongMax: nat := 0x7FFF_FFFF_FFFF_FFFF

  /** The date given to a power-history entry: parsed from its key by the first
      matching format, or `now` when the key matches none or its parse throws
      (including `"".toLong()` and a millisecond count beyond Long). */
  function HistoryDate(ts: string, parsers: DateParsers, now: int): int {
    match ClassifyTimestamp(ts)
    case IsoDateTime => parsers.isoDateTime(ts).GetOr(now)
    case CalendarDate => parsers.calendarDate(ts).GetOr(now)
    case EpochMillis => if DigitsValue(ts) <= LongMax then DigitsValue(ts) else now
    case EpochSeconds => if ts == [] then now else DigitsValue(ts) * 1000
    case Unrecognised => now
  }

  /** A key holding a millisecond count of 11 or more digits reads back as that count. */
  lemma EpochMillisRoundTrip(ms: nat, parsers: DateParsers, now: int)
    requires Pow10(10) <= ms <= LongMax
    ensures HistoryDate(Decimal(ms), parsers, now) == ms
  {
    DecimalLength(ms, 10);
    DecimalRoundTrip(ms);
  }

  /** A key holding a second count of at most 10 digits reads back as that many
      seconds, in milliseconds. */
  lemma EpochSecondsRoundTrip(sec: nat, parsers: DateParsers, now: int)
    requires sec < Pow10(10)
    ensures HistoryDate(Decimal(sec), parsers, now) == sec * 1000
  {
    DecimalLength(sec, 10);
    DecimalRoundTrip(sec);
  }

  function NumberValue(v: DbValue): real
    requires IsNumber(v)
  {
    match v
    case IntV(i) => i as real
    case LongV(l) => l as real
    case DoubleV(d) => d
  }

  /** The `when (rawValue)` coercion: a number as itself, a string through
      `toFloatOrNull()` (the parameter parseFloat), anything else 0. */
  function CoerceValue(raw: DbValue, parseFloat: string -> Option<real>): (v: real)
    ensures IsNumber(raw) ==> v == NumberValue(raw)
    ensures raw.StrV? ==> v == parseFloat(raw.s).GetOr(0.0)
    ensures !IsNumber(raw) && !raw.StrV? ==> v == 0.0
  {
    if IsNumber(raw) then NumberValue(raw)
    else if raw.StrV? then parseFloat(raw.s).GetOr(0.0)
    else 0.0
  }

  /** A device snapshot as the listener sees it. Its children lists are in
      snapshot order; field values are already converted (missing ones None). */
  datatype DeviceSnapshot = DeviceSnapshot(
    present: bool,
    livePower: Option<int>,
    deviceName: Option<string>,
    deviceLogo: Option<string>,
    powerHistory: seq<(string, DbValue)>,
    powerMonth: seq<(string, DbValue)>)

  function HistoryReadings(children: seq<(string, DbValue)>, parsers: DateParsers,
                           parseFloat: string -> Option<real>, now: int): (r: seq<PowerReading>)
    ensures |r| == |children|
  {
    seq(|children|, i requires 0 <= i < |children| =>
      PowerReading(children[i].0, CoerceValue(children[i].1, parseFloat),
                   Some(HistoryDate(children[i].0, parsers, now))))
  }

  function CoercedMonths(children: seq<(string, DbValue)>, parseFloat: string -> Option<real>): (r: seq<Entry>)
    ensures |r| == |children|
  {
    seq(|children|, i requires 0 <= i < |children| =>
      (children[i].0, CoerceValue(children[i].1, parseFloat)))
  }

  /** The monthly entries of a device: one per month key in order of first
      appearance, with the sum of that key's coerced values and the key parsed
      as a date. */
  function MonthTotals(children: seq<(string, DbValue)>, parsers: DateParsers,
                       parseFloat: string -> Option<real>): (r: seq<MonthlyEnergyData>)
    ensures var entries := CoercedMonths(children, parseFloat);
            var keys := Distinct(entries);
            |r| == |keys| &&
            forall i :: 0 <= i < |r| ==>
              r[i].month == keys[i] && r[i].totalEnergy == Total(entries, keys[i]) &&
              r[i].date == parsers.yearMonth(keys[i])
  {
    var entries := CoercedMonths(children, parseFloat);
    var keys := Distinct(entries);
    seq(|keys|, i requires 0 <= i < |keys| =>
      MonthlyEnergyData(keys[i], Total(entries, keys[i]), parsers.yearMonth(keys[i])))
  }

  /** Adding the monthly totals gives the sum of every coerced month value:
      grouping by key neither drops nor counts twice. */
  lemma MonthTotalsKeepEveryValue(children: seq<(string, DbValue)>, parsers: DateParsers,
                                  parseFloat: string -> Option<real>)
    ensures Sum(Energies(MonthTotals(children, parsers, parseFloat)))
         == Sum(Amounts(CoercedMonths(children, parseFloat)))
  {
    var entries := CoercedMonths(children, parseFloat);
    SumOfKeyTotals(Distinct(entries), entries, Energies(MonthTotals(children, parsers, parseFloat)));
    GroupingPreservesSum(entries);
  }

  /** The sum of a list of per-key totals, back to front, is SumOfTotals. */
  lemma {:induction false} SumOfKeyTotals(keys: seq<string>, s: seq<Entry>, xs: seq<real>)
    requires |xs| == |keys| && forall i :: 0 <= i < |xs| ==> xs[i] == Total(s, keys[i])
    ensures Sum(xs) == SumOfTotals(keys, s)
  {
    if keys != [] {
      var n := |keys| - 1;
      SumOfKeyTotals(keys[..n], s, xs[..n]);
      SumOfTotalsAppendKey(keys[..n], keys[n], s);
      assert keys[..n] + [keys[n]] == keys;
    }
  }

  /** The listener's `onDataChange`: no device for a missing record; otherwise
      the record's fields with their defaults, the history readings sorted by
      date, and the month values grouped by key, summed and sorted by date. */
  method ReadDevice(snapshot: DeviceSnapshot, parsers: DateParsers,
                    parseFloat: string -> Option<real>, now: int) returns (device: Option<Device>)
    ensures device.None? <==> !snapshot.present
    ensures device.Some? ==> device.value == Device(
              snapshot.deviceLogo.GetOr(""),
              snapshot.deviceName.GetOr("Unknown Device"),
              snapshot.livePower.GetOr(0),
              SortBy(HistoryReadings(snapshot.powerHistory, parsers, parseFloat, now), ReadingKey),
              SortBy(MonthTotals(snapshot.powerMonth, parsers, parseFloat), MonthKey))
    ensures device.Some? && OptionalInt32(snapshot.livePower) ==> IsInt32(device.value.livePower)
    ensures device.Some? ==> forall r :: r in device.value.powerHistory ==> r.date.Some?
    ensures device.Some? ==> var m := device.value.monthlyEnergy;
              forall i, j :: 0 <= i < j < |m| ==> m[i].month != m[j].month
  {
    if !snapshot.present {
      return None;
    }
    var power := snapshot.livePower.GetOr(0);
    var deviceName := snapshot.deviceName.GetOr("Unknown Device");
    var deviceLogo := snapshot.deviceLogo.GetOr("");

    var history := snapshot.powerHistory;
    var powerHistory := ReadHistory(history, parsers, parseFloat, now);
    var months := snapshot.powerMonth;
    var order, monthlyEnergyMap := GroupMonthValues(months, parseFloat);

    var monthlyEnergy := seq(|order|, j requires 0 <= j < |order| =>
      MonthlyEnergyData(order[j], Sum(monthlyEnergyMap[order[j]]), parsers.yearMonth(order[j])));
    AmountsMapTotals(months, parsers, parseFloat, order, monthlyEnergyMap, monthlyEnergy);

    powerHistory := SortBy(powerHistory, ReadingKey);
    monthlyEnergy := SortBy(monthlyEnergy, MonthKey);
    device := Some(Device(deviceLogo, deviceName, power, powerHistory, monthlyEnergy));
    ReadDeviceSorted(history, months, parsers, parseFloat, now);
  }

  /** The listener's loop over `powerHistory`: each child becomes a reading with
      its coerced value and the date its key denotes. */
  method ReadHistory(history: seq<(string, DbValue)>, parsers: DateParsers,
                     parseFloat: string -> Option<real>, now: int) returns (powerHistory: seq<PowerReading>)
    ensures powerHistory == HistoryReadings(history, parsers, parseFloat, now)
  {
    powerHistory := [];
    var i := 0;
    while i < |history|
      invariant 0 <= i <= |history|
      invariant powerHistory == HistoryReadings(history[..i], parsers, parseFloat, now)
    {
      var timestamp := history[i].0;
      var value := CoerceValue(history[i].1, parseFloat);
      var date := HistoryDate(timestamp, parsers, now);
      powerHistory := powerHistory + [PowerReading(timestamp, value, Some(date))];
      i := i + 1;
    }
    assert history[..i] == history;
  }

  /** The listener's loop over `powerMonth`: the coerced values collected per
      month key in a LinkedHashMap of lists, keys in insertion order. */
  method GroupMonthValues(months: seq<(string, DbValue)>, parseFloat: string -> Option<real>)
    returns (order: seq<string>, monthlyEnergyMap: map<string, seq<real>>)
    ensures AmountsMapHolds(CoercedMonths(months, parseFloat), order, monthlyEnergyMap)
  {
    monthlyEnergyMap := map[];
    order := [];
    var i := 0;
    while i < |months|
      invariant 0 <= i <= |months|
      invariant AmountsMapHolds(CoercedMonths(months[..i], parseFloat), order, monthlyEnergyMap)
    {
      var monthKey := months[i].0;
      var value := CoerceValue(months[i].1, parseFloat);
      ghost var oldOrder, oldMap := order, monthlyEnergyMap;
      if monthKey !in monthlyEnergyMap {
        monthlyEnergyMap := monthlyEnergyMap[monthKey := []];
        order := order + [monthKey];
      }
      monthlyEnergyMap := monthlyEnergyMap[monthKey := monthlyEnergyMap[monthKey] + [value]];
      AmountsMapStep(CoercedMonths(months[..i], parseFloat), (monthKey, value), oldOrder, oldMap, order, monthlyEnergyMap);
      CoercedMonthsStep(months, i, parseFloat);
      i := i + 1;
    }
    assert months[..i] == months;
  }

  /** What the `MutableList` map of the listener holds after reading the
      entries s: its keys in order of insertion, each with its list of amounts. */
  ghost predicate AmountsMapHolds(s: seq<Entry>, order: seq<string>, m: map<string, seq<real>>) {
    && order == Distinct(s)
    && (forall k :: k in m <==> k in order)
    && (forall k :: k in m ==> m[k] == AmountsFor(s, k))
  }

  lemma AmountsMapStep(s: seq<Entry>, e: Entry,
                       order: seq<string>, m: map<string, seq<real>>,
                       order': seq<string>, m': map<string, seq<real>>)
    requires AmountsMapHolds(s, order, m)
    requires e.0 in m ==> order' == order && m' == m[e.0 := m[e.0] + [e.1]]
    requires e.0 !in m ==> order' == order + [e.0] && m' == m[e.0 := []][e.0 := [] + [e.1]]
    ensures AmountsMapHolds(s + [e], order', m')
  {
    DistinctAndTotalStep(s, e);
    AmountsForStep(s, e);
    if e.0 !in m {
      AmountsForAbsentKey(s, e.0);
    }
    forall k | k in m' ensures m'[k] == AmountsFor(s + [e], k) {
      if k != e.0 {
        assert m'[k] == m[k];
      }
    }
  }

  /** Summing each list of the map, in insertion order, gives MonthTotals. */
  lemma AmountsMapTotals(months: seq<(string, DbValue)>, parsers: DateParsers, parseFloat: string -> Option<real>,
                         order: seq<string>, m: map<string, seq<real>>, monthlyEnergy: seq<MonthlyEnergyData>)
    requires AmountsMapHolds(CoercedMonths(months, parseFloat), order, m)
    requires |monthlyEnergy| == |order|
    requires forall j :: 0 <= j < |order| ==>
               monthlyEnergy[j] == MonthlyEnergyData(order[j], Sum(m[order[j]]), parsers.yearMonth(order[j]))
    ensures monthlyEnergy == MonthTotals(months, parsers, parseFloat)
  {
    var entries := CoercedMonths(months, parseFloat);
    forall j | 0 <= j < |order| ensures Sum(m[order[j]]) == Total(entries, order[j]) {
      SumOfAmountsFor(entries, order[j]);
    }
  }

  /** The sorted history has a date on every reading, and the sorted months
      have one entry per month key. */
  lemma ReadDeviceSorted(history: seq<(string, DbValue)>, months: seq<(string, DbValue)>,
                         parsers: DateParsers, parseFloat: string -> Option<real>, now: int)
    ensures forall r :: r in SortBy(HistoryReadings(history, parsers, parseFloat, now), ReadingKey) ==> r.date.Some?
    ensures var m := SortBy(MonthTotals(months, parsers, parseFloat), MonthKey);
            forall i, j :: 0 <= i < j < |m| ==> m[i].month != m[j].month
  {
    var readings := HistoryReadings(history, parsers, parseFloat, now);
    forall r | r in SortBy(readings, ReadingKey) ensures r.date.Some? {
      assert r in multiset(readings);
    }
    var totals := MonthTotals(months, parsers, parseFloat);
    DistinctByProjection(SortBy(totals, MonthKey), totals, MonthOf);
  }

  lemma CoercedMonthsStep(months: seq<(string, DbValue)>, i: nat, parseFloat: string -> Option<real>)
    requires i < |months|
    ensures CoercedMonths(months[..i + 1], parseFloat)
         == CoercedMonths(months[..i], parseFloat) + [(months[i].0, CoerceValue(months[i].1, parseFloat))]
  {
    assert months[..i + 1] == months[..i] + [months[i]];
  }

  lemma AmountsForStep(s: seq<Entry>, e: Entry)
    ensures forall k :: AmountsFor(s + [e], k) == AmountsFor(s, k) + (if k == e.0 then [e.1] else [])
  {
    assert (s + [e])[..|s|] == s;
  }

  lemma {:induction false} AmountsForAbsentKey(s: seq<Entry>, k: string)
    requires k !in KeySet(s)
    ensures AmountsFor(s, k) == []
  {
    if s != [] {
      AmountsForAbsentKey(s[..|s| - 1], k);
    }
  }

  /** The value coercion defaults to 0: a non-zero value comes from a number or
      from a string that parses. */
  lemma CoercionDefaultsToZero(raw: DbValue, parseFloat: string -> Option<real>)
    ensures CoerceValue(raw, parseFloat) != 0.0 ==>
              IsNumber(raw) || (raw.StrV? && parseFloat(raw.s).Some?)
  {
  }

  // ---------------------------------------------------------------------------
  // Logo

  /** The `when (device.deviceLogo)` of the details card: each room name the
      picker offers gets the picker's own picture for it. */
  function DetailsLogo(logo: string): (d: Drawable)
    ensures d == QuestionMark <==> logo !in {"bedroom", "kitchen", "living_room", "bathroom"}
    ensures d != Add
    ensures forall i :: 0 <= i < |RoomLogos| && logo == RoomLogos[i].0 ==> d == RoomLogos[i].1
  {
    match logo
    case "bedroom" => Bedroom
    case "kitchen" => Kitchen
    case "living_room" => LivingRoom
    case "bathroom" => Bathroom
    case _ => QuestionMark
  }
}
