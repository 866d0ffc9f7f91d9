/** The analytics screen: every device record of the current user is read, the
    power readings of all of them are added up per timestamp and the monthly
    energy per month, live power and latest monthly energy are totalled, the
    devices are listed by falling power, and weekly and monthly averages are
    taken over the combined readings. */
module Analytics {
  import opened Base
  import opened Sorting
  import opened Grouping
  import opened DeviceDetails

  datatype DeviceConsumption = DeviceConsumption(
    deviceId: string,
    deviceName: string,
    currentPower: int,
    monthlyEnergy: real,
    powerHistory: seq<PowerReading>,
    monthlyEnergyHistory: seq<MonthlyEnergyData>)

  /** One child of the `devices` node: its key and its fields, already read as
      the typed values `getValue` returns (None for a missing field); history
      and month entries in snapshot order. */
  datatype DeviceRecord = DeviceRecord(
    key: string,
    userId: Option<string>,
    deviceName: Option<string>,
    livePower: Option<int>,
    powerHistory: seq<(string, Option<real>)>,
    powerMonth: seq<(string, Option<real>)>)

  // ---------------------------------------------------------------------------
  // 32-bit Int arithmetic of the live-power total

  const IntModulus: int := 0x1_0000_0000

  /** The value a Kotlin `Int` holds after an addition that may overflow. */
  function Wrap32(x: int): (r: int)
    ensures IsInt32(r)
    ensures (r - x) % IntModulus == 0
  {
    (x + 0x8000_0000) % IntModulus - 0x8000_0000
  }

  /** A value that already fits an `Int` is left as it is. */
  lemma Wrap32OfInt(x: int)
    requires IsInt32(x)
    ensures Wrap32(x) == x
  {
  }

  /** Records read as Kotlin gives them have live powers that fit an `Int`,
      and so do the consumptions built from them. */
  lemma ConsumptionPowersAreInts(devices: seq<DeviceRecord>, parsers: DateParsers)
    requires forall d :: d in devices ==> OptionalInt32(d.livePower)
    ensures forall c :: c in Consumptions(devices, parsers) ==> IsInt32(c.currentPower)
  {
    var cs := Consumptions(devices, parsers);
    forall c | c in cs ensures IsInt32(c.currentPower) {
      var j :| 0 <= j < |cs| && cs[j] == c;
      assert devices[j] in devices;
    }
  }

  lemma {:induction false} ModOfMultipleShift(x: int, q: int)
    ensures (x + q * IntModulus) % IntModulus == x % IntModulus
    decreases if q < 0 then -q else q
  {
    if q > 0 {
      ModOfMultipleShift(x, q - 1);
      assert x + q * IntModulus == (x + (q - 1) * IntModulus) + IntModulus;
    } else if q < 0 {
      ModOfMultipleShift(x, q + 1);
      assert x + q * IntModulus == (x + (q + 1) * IntModulus) - IntModulus;
    }
  }

  /** Adding to a wrapped total wraps to the same value as adding exactly and
      wrapping once at the end. */
  lemma Wrap32Add(a: int, b: int)
    ensures Wrap32(Wrap32(a) + b) == Wrap32(a + b)
  {
    var q := (Wrap32(a) - a) / IntModulus;
    assert Wrap32(a) == a + q * IntModulus;
    ModOfMultipleShift(a + b + 0x8000_0000, q);
  }

  // ---------------------------------------------------------------------------
  // Specification of the roll-up

  /** The records whose `userId` is the current user's, in snapshot order. */
  function Included(records: seq<DeviceRecord>, userId: string): seq<DeviceRecord> {
    if records == [] then []
    else
      var init := Included(records[..|records| - 1], userId);
      var last := records[|records| - 1];
      if last.userId == Some(userId) then init + [last] else init
  }

  /** Exactly the current user's records take part in the roll-up, each as
      often as it occurs. */
  lemma {:induction false} IncludedSpec(records: seq<DeviceRecord>, userId: string)
    ensures forall d :: d in Included(records, userId) <==> d in records && d.userId == Some(userId)
    ensures forall d: DeviceRecord :: d.userId == Some(userId) ==>
              multiset(Included(records, userId))[d] == multiset(records)[d]
  {
    if records != [] {
      var init := records[..|records| - 1];
      IncludedSpec(init, userId);
      assert records == init + [records[|records| - 1]];
    }
  }

  function HistoryEntriesOf(d: DeviceRecord): (r: seq<Entry>)
    ensures |r| == |d.powerHistory|
  {
    seq(|d.powerHistory|, j requires 0 <= j < |d.powerHistory| =>
      (d.powerHistory[j].0, d.powerHistory[j].1.GetOr(0.0)))
  }

  function MonthEntriesOf(d: DeviceRecord): (r: seq<Entry>)
    ensures |r| == |d.powerMonth|
  {
    seq(|d.powerMonth|, j requires 0 <= j < |d.powerMonth| =>
      (d.powerMonth[j].0, d.powerMonth[j].1.GetOr(0.0)))
  }

  /** Everything `powerReadingsMap` receives, device after device. */
  function HistoryEntries(devices: seq<DeviceRecord>): seq<Entry> {
    if devices == [] then []
    else HistoryEntries(devices[..|devices| - 1]) + HistoryEntriesOf(devices[|devices| - 1])
  }

  /** Everything `monthlyEnergyMap` receives, device after device. */
  function MonthlyEntries(devices: seq<DeviceRecord>): seq<Entry> {
    if devices == [] then []
    else MonthlyEntries(devices[..|devices| - 1]) + MonthEntriesOf(devices[|devices| - 1])
  }

  /** The device's readings: a missing value is 0, the date is the key parsed
      as "yyyy-MM-dd'T'HH:mm" or null. */
  function DeviceReadings(d: DeviceRecord, parsers: DateParsers): (r: seq<PowerReading>)
    ensures |r| == |d.powerHistory|
  {
    seq(|d.powerHistory|, j requires 0 <= j < |d.powerHistory| =>
      PowerReading(d.powerHistory[j].0, d.powerHistory[j].1.GetOr(0.0),
                   parsers.isoDateTime(d.powerHistory[j].0)))
  }

  function DeviceMonths(d: DeviceRecord, parsers: DateParsers): (r: seq<MonthlyEnergyData>)
    ensures |r| == |d.powerMonth|
  {
    seq(|d.powerMonth|, j requires 0 <= j < |d.powerMonth| =>
      MonthlyEnergyData(d.powerMonth[j].0, d.powerMonth[j].1.GetOr(0.0),
                        parsers.yearMonth(d.powerMonth[j].0)))
  }

  /** `lastOrNull()?.totalEnergy ?: 0f`. */
  function LastMonthEnergy(months: seq<MonthlyEnergyData>): (e: real)
    ensures months == [] ==> e == 0.0
    ensures months != [] ==> e == months[|months| - 1].totalEnergy
  {
    if months == [] then 0.0 else months[|months| - 1].totalEnergy
  }

  function ConsumptionOf(d: DeviceRecord, parsers: DateParsers): DeviceConsumption {
    DeviceConsumption(d.key, d.deviceName.GetOr("Unknown"), d.livePower.GetOr(0),
                      LastMonthEnergy(DeviceMonths(d, parsers)),
                      DeviceReadings(d, parsers), DeviceMonths(d, parsers))
  }

  function Consumptions(devices: seq<DeviceRecord>, parsers: DateParsers): (r: seq<DeviceConsumption>)
    ensures |r| == |devices|
  {
    seq(|devices|, j requires 0 <= j < |devices| => ConsumptionOf(devices[j], parsers))
  }

  /** The exact sum of the live powers, a missing one counted as 0. */
  function PowerSum(devices: seq<DeviceRecord>): int {
    if devices == [] then 0
    else PowerSum(devices[..|devices| - 1]) + devices[|devices| - 1].livePower.GetOr(0)
  }

  /** The sum of every device's latest monthly energy. */
  function EnergySum(devices: seq<DeviceRecord>, parsers: DateParsers): real {
    if devices == [] then 0.0
    else EnergySum(devices[..|devices| - 1], parsers)
         + LastMonthEnergy(DeviceMonths(devices[|devices| - 1], parsers))
  }

  /** `sortedBy { it.date }` on a nullable date: null first. */
  function ReadingDate(r: PowerReading): Key {
    match r.date
    case None => Null
    case Some(t) => At(t)
  }

  function MonthDate(m: MonthlyEnergyData): Key {
    match m.date
    case None => Null
    case Some(t) => At(t)
  }

  /** `sortedByDescending { it.currentPower }`, as a stable sort on the negated power. */
  function PowerDescending(c: DeviceConsumption): Key {
    At(-c.currentPower)
  }

  /** The combined readings before sorting: one per timestamp, in order of first
      appearance, with the summed power. */
  function GroupedReadings(entries: seq<Entry>, parsers: DateParsers): (r: seq<PowerReading>)
    ensures |r| == |Distinct(entries)|
  {
    var keys := Distinct(entries);
    seq(|keys|, j requires 0 <= j < |keys| =>
      PowerReading(keys[j], Total(entries, keys[j]), parsers.isoDateTime(keys[j])))
  }

  function GroupedMonths(entries: seq<Entry>, parsers: DateParsers): (r: seq<MonthlyEnergyData>)
    ensures |r| == |Distinct(entries)|
  {
    var keys := Distinct(entries);
    seq(|keys|, j requires 0 <= j < |keys| =>
      MonthlyEnergyData(keys[j], Total(entries, keys[j]), parsers.yearMonth(keys[j])))
  }

  /** `calculateAverages`: (weekly, monthly) in kWh, from the last 7 and the
      last 30 readings. */
  function Averages(readings: seq<PowerReading>): (r: (real, real))
    ensures readings == [] ==> r == (0.0, 0.0)
    ensures readings != [] ==>
              r.0 * 1000.0 == AverageOfLastSeven(TakeLast(readings, 7)) &&
              r.1 * 1000.0 == AverageOfLastSeven(TakeLast(readings, 30))
  {
    if readings == [] then (0.0, 0.0)
    else (Mean(Values(TakeLast(readings, 7))) / 1000.0, Mean(Values(TakeLast(readings, 30))) / 1000.0)
  }

  // ---------------------------------------------------------------------------
  // Properties of the roll-up

  /** With seven readings or fewer the weekly and the monthly average coincide. */
  lemma AveragesAgreeOnShortHistory(readings: seq<PowerReading>)
    requires |readings| <= 7
    ensures Averages(readings).0 == Averages(readings).1
  {
    assert TakeLast(readings, 7) == readings && TakeLast(readings, 30) == readings;
  }

  /** Both averages lie within the range of the readings, in kWh. */
  lemma AveragesWithinReadings(readings: seq<PowerReading>, lo: real, hi: real)
    requires forall r :: r in readings ==> lo <= r.value <= hi
    requires readings != []
    ensures lo / 1000.0 <= Averages(readings).0 <= hi / 1000.0
    ensures lo / 1000.0 <= Averages(readings).1 <= hi / 1000.0
  {
    var week := TakeLast(readings, 7);
    var month := TakeLast(readings, 30);
    forall r | r in week ensures lo <= r.value <= hi {
      assert r in readings;
    }
    forall r | r in month ensures lo <= r.value <= hi {
      assert r in readings;
    }
    AverageWithinReadings(week, lo, hi);
    AverageWithinReadings(month, lo, hi);
  }

  /** Each device's total under key k, device by device. */
  function PerDeviceTotals(devices: seq<DeviceRecord>, k: string): (r: seq<real>)
    ensures |r| == |devices|
  {
    seq(|devices|, j requires 0 <= j < |devices| => Total(HistoryEntriesOf(devices[j]), k))
  }

  /** The combined power at a timestamp is the sum, over the included devices,
      of each device's readings at that timestamp. */
  lemma {:induction false} CombinedPowerIsSumOverDevices(devices: seq<DeviceRecord>, k: string)
    ensures Total(HistoryEntries(devices), k) == Sum(PerDeviceTotals(devices, k))
  {
    if devices != [] {
      var init := devices[..|devices| - 1];
      var last := devices[|devices| - 1];
      CombinedPowerIsSumOverDevices(init, k);
      TotalAppend(HistoryEntries(init), HistoryEntriesOf(last), k);
      assert PerDeviceTotals(devices, k)[..|devices| - 1] == PerDeviceTotals(init, k);
    }
  }

  function PerDeviceMonthTotals(devices: seq<DeviceRecord>, k: string): (r: seq<real>)
    ensures |r| == |devices|
  {
    seq(|devices|, j requires 0 <= j < |devices| => Total(MonthEntriesOf(devices[j]), k))
  }

  /** The combined energy of a month is the sum, over the included devices, of
      each device's energy for that month. */
  lemma {:induction false} CombinedMonthIsSumOverDevices(devices: seq<DeviceRecord>, k: string)
    ensures Total(MonthlyEntries(devices), k) == Sum(PerDeviceMonthTotals(devices, k))
  {
    if devices != [] {
      var init := devices[..|devices| - 1];
      var last := devices[|devices| - 1];
      CombinedMonthIsSumOverDevices(init, k);
      TotalAppend(MonthlyEntries(init), MonthEntriesOf(last), k);
      assert PerDeviceMonthTotals(devices, k)[..|devices| - 1] == PerDeviceMonthTotals(init, k);
    }
  }

  /** Each combined reading carries the full total of its timestamp, and each
      timestamp of an included device's history has exactly one combined reading. */
  lemma CombinedReadingsSpec(devices: seq<DeviceRecord>, parsers: DateParsers)
    ensures var c := SortBy(GroupedReadings(HistoryEntries(devices), parsers), ReadingDate);
            forall r :: r in c ==> r.value == Sum(PerDeviceTotals(devices, r.timestamp))
    ensures var c := SortBy(GroupedReadings(HistoryEntries(devices), parsers), ReadingDate);
            forall i, j :: 0 <= i < j < |c| ==> c[i].timestamp != c[j].timestamp
    ensures var c := SortBy(GroupedReadings(HistoryEntries(devices), parsers), ReadingDate);
            forall k :: k in KeySet(HistoryEntries(devices)) ==> exists r :: r in c && r.timestamp == k
  {
    var entries := HistoryEntries(devices);
    var g := GroupedReadings(entries, parsers);
    var c := SortBy(g, ReadingDate);
    forall r | r in c ensures r.value == Sum(PerDeviceTotals(devices, r.timestamp)) {
      assert r in multiset(g);
      CombinedPowerIsSumOverDevices(devices, r.timestamp);
    }
    DistinctByProjection(c, g, ReadingTimestamp);
    forall k | k in KeySet(entries) ensures exists r :: r in c && r.timestamp == k {
      var keys := Distinct(entries);
      var j :| 0 <= j < |keys| && keys[j] == k;
      assert g[j] in multiset(c);
    }
  }

  function ReadingTimestamp(r: PowerReading): string {
    r.timestamp
  }

  /** The device list is the included devices, reordered so that live power
      never increases along it; devices of equal power keep snapshot order. */
  lemma DevicesByPowerSpec(consumptions: seq<DeviceConsumption>, k: Key)
    ensures var l := SortBy(consumptions, PowerDescending);
            multiset(l) == multiset(consumptions) &&
            forall i, j :: 0 <= i < j < |l| ==> l[i].currentPower >= l[j].currentPower
    ensures KeyFilter(SortBy(consumptions, PowerDescending), PowerDescending, k)
         == KeyFilter(consumptions, PowerDescending, k)
  {
    SortByStable(consumptions, PowerDescending, k);
  }

  /** What the charts receive: the latest 7 combined readings and the latest 12
      combined months, in date order. */
  lemma ChartInputs(readings: seq<PowerReading>, months: seq<MonthlyEnergyData>)
    requires SortedBy(readings, ReadingDate) && SortedBy(months, MonthDate)
    ensures |TakeLast(readings, 7)| <= 7 && SortedBy(TakeLast(readings, 7), ReadingDate)
    ensures |TakeLast(months, 12)| <= 12 && SortedBy(TakeLast(months, 12), MonthDate)
    ensures forall i, j :: 0 <= i < |readings| - |TakeLast(readings, 7)| && 0 <= j < |TakeLast(readings, 7)| ==>
              KeyLe(ReadingDate(readings[i]), ReadingDate(TakeLast(readings, 7)[j]))
    ensures forall i, j :: 0 <= i < |months| - |TakeLast(months, 12)| && 0 <= j < |TakeLast(months, 12)| ==>
              KeyLe(MonthDate(months[i]), MonthDate(TakeLast(months, 12)[j]))
  {
    TakeLastOfSorted(readings, ReadingDate, 7);
    TakeLastOfSorted(months, MonthDate, 12);
  }

  // ---------------------------------------------------------------------------
  // The listener's loops

  /** The loop over one device's `powerHistory` children: builds the device's
      readings and adds each value into the combined per-timestamp map. */
  method ReadPowerHistory(deviceSnap: DeviceRecord, parsers: DateParsers,
                          ghost before: seq<Entry>, powerReadingsMap: LinkedTotals)
    returns (powerHistory: seq<PowerReading>, powerReadingsMap': LinkedTotals)
    requires TotalsOf(before, powerReadingsMap)
    ensures powerHistory == DeviceReadings(deviceSnap, parsers)
    ensures TotalsOf(before + HistoryEntriesOf(deviceSnap), powerReadingsMap')
  {
    powerHistory := [];
    powerReadingsMap' := powerReadingsMap;
    assert before + HistoryEntriesOf(deviceSnap)[..0] == before;
    var j := 0;
    while j < |deviceSnap.powerHistory|
      invariant 0 <= j <= |deviceSnap.powerHistory|
      invariant powerHistory == DeviceReadings(deviceSnap, parsers)[..j]
      invariant TotalsOf(before + HistoryEntriesOf(deviceSnap)[..j], powerReadingsMap')
    {
      var timestamp := deviceSnap.powerHistory[j].0;
      var value := deviceSnap.powerHistory[j].1.GetOr(0.0);
      var date := parsers.isoDateTime(timestamp);
      HistoryNext(deviceSnap, parsers, before, j, powerReadingsMap');
      powerHistory := powerHistory + [PowerReading(timestamp, value, date)];
      powerReadingsMap' := AddAmount(powerReadingsMap', timestamp, value);
      j := j + 1;
    }
    assert HistoryEntriesOf(deviceSnap)[..j] == HistoryEntriesOf(deviceSnap);
    assert DeviceReadings(deviceSnap, parsers)[..j] == DeviceReadings(deviceSnap, parsers);
  }

  /** One pass of the `powerHistory` loop: the next reading, and its value
      added into the combined map. */
  lemma HistoryNext(d: DeviceRecord, parsers: DateParsers, before: seq<Entry>, j: nat, t: LinkedTotals)
    requires j < |d.powerHistory|
    requires TotalsOf(before + HistoryEntriesOf(d)[..j], t)
    ensures var ts := d.powerHistory[j].0;
            DeviceReadings(d, parsers)[..j + 1]
              == DeviceReadings(d, parsers)[..j] + [PowerReading(ts, d.powerHistory[j].1.GetOr(0.0), parsers.isoDateTime(ts))]
    ensures TotalsOf(before + HistoryEntriesOf(d)[..j + 1], AddAmount(t, d.powerHistory[j].0, d.powerHistory[j].1.GetOr(0.0)))
  {
    var entries := HistoryEntriesOf(d);
    AddAmountStep(before + entries[..j], entries[j], t);
    PrefixStep(before, entries, j);
    var r := DeviceReadings(d, parsers);
    assert r[..j + 1] == r[..j] + [r[j]];
  }

  /** The loop over one device's `powerMonth` children: builds the device's
      monthly entries and adds each value into the combined per-month map. */
  method ReadPowerMonths(deviceSnap: DeviceRecord, parsers: DateParsers,
                         ghost before: seq<Entry>, monthlyEnergyMap: LinkedTotals)
    returns (monthlyEnergyHistory: seq<MonthlyEnergyData>, monthlyEnergyMap': LinkedTotals)
    requires TotalsOf(before, monthlyEnergyMap)
    ensures monthlyEnergyHistory == DeviceMonths(deviceSnap, parsers)
    ensures TotalsOf(before + MonthEntriesOf(deviceSnap), monthlyEnergyMap')
  {
    monthlyEnergyHistory := [];
    monthlyEnergyMap' := monthlyEnergyMap;
    assert before + MonthEntriesOf(deviceSnap)[..0] == before;
    var j := 0;
    while j < |deviceSnap.powerMonth|
      invariant 0 <= j <= |deviceSnap.powerMonth|
      invariant monthlyEnergyHistory == DeviceMonths(deviceSnap, parsers)[..j]
      invariant TotalsOf(before + MonthEntriesOf(deviceSnap)[..j], monthlyEnergyMap')
    {
      var month := deviceSnap.powerMonth[j].0;
      var energy := deviceSnap.powerMonth[j].1.GetOr(0.0);
      var date := parsers.yearMonth(month);
      MonthNext(deviceSnap, parsers, before, j, monthlyEnergyMap');
      monthlyEnergyHistory := monthlyEnergyHistory + [MonthlyEnergyData(month, energy, date)];
      monthlyEnergyMap' := AddAmount(monthlyEnergyMap', month, energy);
      j := j + 1;
    }
    assert MonthEntriesOf(deviceSnap)[..j] == MonthEntriesOf(deviceSnap);
    assert DeviceMonths(deviceSnap, parsers)[..j] == DeviceMonths(deviceSnap, parsers);
  }

  /** One pass of the `powerMonth` loop. */
  lemma MonthNext(d: DeviceRecord, parsers: DateParsers, before: seq<Entry>, j: nat, t: LinkedTotals)
    requires j < |d.powerMonth|
    requires TotalsOf(before + MonthEntriesOf(d)[..j], t)
    ensures var m := d.powerMonth[j].0;
            DeviceMonths(d, parsers)[..j + 1]
              == DeviceMonths(d, parsers)[..j] + [MonthlyEnergyData(m, d.powerMonth[j].1.GetOr(0.0), parsers.yearMonth(m))]
    ensures TotalsOf(before + MonthEntriesOf(d)[..j + 1], AddAmount(t, d.powerMonth[j].0, d.powerMonth[j].1.GetOr(0.0)))
  {
    var entries := MonthEntriesOf(d);
    AddAmountStep(before + entries[..j], entries[j], t);
    PrefixStep(before, entries, j);
    var r := DeviceMonths(d, parsers);
    assert r[..j + 1] == r[..j] + [r[j]];
  }

  lemma PrefixStep(base: seq<Entry>, s: seq<Entry>, j: nat)
    requires j < |s|
    ensures base + s[..j + 1] == (base + s[..j]) + [s[j]]
  {
    assert s[..j + 1] == s[..j] + [s[j]];
  }

  /** What the loop over `snapshot.children` has accumulated once it has read
      every record of `devices`. */
  datatype Accumulators = Accumulators(
    devices: seq<DeviceConsumption>,
    currentPowerSum: int,
    monthlyEnergySum: real,
    powerReadingsMap: LinkedTotals,
    monthlyEnergyMap: LinkedTotals)

  ghost predicate Accumulated(devices: seq<DeviceRecord>, parsers: DateParsers, acc: Accumulators) {
    && acc.devices == Consumptions(devices, parsers)
    && acc.currentPowerSum == Wrap32(PowerSum(devices))
    && acc.monthlyEnergySum == EnergySum(devices, parsers)
    && TotalsOf(HistoryEntries(devices), acc.powerReadingsMap)
    && TotalsOf(MonthlyEntries(devices), acc.monthlyEnergyMap)
  }

  /** The loop over the device records: skips other users' devices and folds
      each of the current user's into the accumulators. */
  method CollectDevices(records: seq<DeviceRecord>, userId: string, parsers: DateParsers)
    returns (acc: Accumulators)
    ensures Accumulated(Included(records, userId), parsers, acc)
  {
    acc := Accumulators([], 0, 0.0, LinkedTotals([], map[]), LinkedTotals([], map[]));
    var i := 0;
    while i < |records|
      invariant 0 <= i <= |records|
      invariant Accumulated(Included(records[..i], userId), parsers, acc)
    {
      var deviceSnap := records[i];
      ghost var included := Included(records[..i], userId);
      IncludedStep(records, i, userId);
      if deviceSnap.userId == Some(userId) {
        var deviceId := deviceSnap.key;
        var deviceName := deviceSnap.deviceName.GetOr("Unknown");
        var currentPower := deviceSnap.livePower.GetOr(0);
        var powerHistory, powerReadingsMap :=
          ReadPowerHistory(deviceSnap, parsers, HistoryEntries(included), acc.powerReadingsMap);
        var monthlyEnergyHistory, monthlyEnergyMap :=
          ReadPowerMonths(deviceSnap, parsers, MonthlyEntries(included), acc.monthlyEnergyMap);
        var lastEnergy := if monthlyEnergyHistory == [] then 0.0
                          else monthlyEnergyHistory[|monthlyEnergyHistory| - 1].totalEnergy;
        ghost var before := acc;
        acc := Accumulators(
          acc.devices + [DeviceConsumption(deviceId, deviceName, currentPower, lastEnergy,
                                           powerHistory, monthlyEnergyHistory)],
          Wrap32(acc.currentPowerSum + currentPower),
          acc.monthlyEnergySum + lastEnergy,
          powerReadingsMap,
          monthlyEnergyMap);
        AccumulateDevice(included, deviceSnap, parsers, before, acc);
      }
      i := i + 1;
    }
    assert records[..i] == records;
  }

  lemma IncludedStep(records: seq<DeviceRecord>, i: nat, userId: string)
    requires i < |records|
    ensures records[i].userId == Some(userId) ==>
              Included(records[..i + 1], userId) == Included(records[..i], userId) + [records[i]]
    ensures records[i].userId != Some(userId) ==>
              Included(records[..i + 1], userId) == Included(records[..i], userId)
  {
    assert records[..i + 1][..i] == records[..i];
  }

  /** Folding one more of the user's devices into the accumulators keeps them
      in step with the specification. */
  lemma AccumulateDevice(devices: seq<DeviceRecord>, d: DeviceRecord, parsers: DateParsers,
                         acc: Accumulators, acc': Accumulators)
    requires Accumulated(devices, parsers, acc)
    requires acc'.devices == acc.devices + [ConsumptionOf(d, parsers)]
    requires acc'.currentPowerSum == Wrap32(acc.currentPowerSum + d.livePower.GetOr(0))
    requires acc'.monthlyEnergySum == acc.monthlyEnergySum + LastMonthEnergy(DeviceMonths(d, parsers))
    requires TotalsOf(HistoryEntries(devices) + HistoryEntriesOf(d), acc'.powerReadingsMap)
    requires TotalsOf(MonthlyEntries(devices) + MonthEntriesOf(d), acc'.monthlyEnergyMap)
    ensures Accumulated(devices + [d], parsers, acc')
  {
    var all := devices + [d];
    assert all[..|all| - 1] == devices;
    assert Consumptions(all, parsers) == Consumptions(devices, parsers) + [ConsumptionOf(d, parsers)];
    Wrap32Add(PowerSum(devices), d.livePower.GetOr(0));
  }

  /** `powerReadingsMap.map { … }`: one reading per key, in insertion order. */
  method CombineReadings(powerReadingsMap: LinkedTotals, parsers: DateParsers, ghost entries: seq<Entry>)
    returns (combined: seq<PowerReading>)
    requires TotalsOf(entries, powerReadingsMap)
    ensures combined == GroupedReadings(entries, parsers)
  {
    var keys := powerReadingsMap.keys;
    combined := seq(|keys|, j requires 0 <= j < |keys| =>
      PowerReading(keys[j], powerReadingsMap.totals[keys[j]], parsers.isoDateTime(keys[j])));
  }

  /** `monthlyEnergyMap.map { … }`: one entry per month key, in insertion order. */
  method CombineMonths(monthlyEnergyMap: LinkedTotals, parsers: DateParsers, ghost entries: seq<Entry>)
    returns (combined: seq<MonthlyEnergyData>)
    requires TotalsOf(entries, monthlyEnergyMap)
    ensures combined == GroupedMonths(entries, parsers)
  {
    var keys := monthlyEnergyMap.keys;
    combined := seq(|keys|, j requires 0 <= j < |keys| =>
      MonthlyEnergyData(keys[j], monthlyEnergyMap.totals[keys[j]], parsers.yearMonth(keys[j])));
  }

  // ---------------------------------------------------------------------------
  // The screen state

  class AnalyticsState {
    var isLoading: bool
    var totalCurrentPower: int
    var totalMonthlyEnergy: real
    var devicesList: seq<DeviceConsumption>
    var errorMessage: Option<string>
    var combinedPowerReadings: seq<PowerReading>
    var combinedMonthlyEnergy: seq<MonthlyEnergyData>
    var weeklyAverage: real
    var monthlyAverage: real

    constructor ()
      ensures isLoading && totalCurrentPower == 0 && totalMonthlyEnergy == 0.0
      ensures devicesList == [] && errorMessage.None?
      ensures combinedPowerReadings == [] && combinedMonthlyEnergy == []
      ensures weeklyAverage == 0.0 && monthlyAverage == 0.0
    {
      isLoading := true;
      totalCurrentPower := 0;
      totalMonthlyEnergy := 0.0;
      devicesList := [];
      errorMessage := None;
      combinedPowerReadings := [];
      combinedMonthlyEnergy := [];
      weeklyAverage := 0.0;
      monthlyAverage := 0.0;
    }

    /** `calculateAverages`: sets the two averages and nothing else. */
    method CalculateAverages(readings: seq<PowerReading>)
      modifies this
      ensures (weeklyAverage, monthlyAverage) == Averages(readings)
      ensures isLoading == old(isLoading) && totalCurrentPower == old(totalCurrentPower)
      ensures totalMonthlyEnergy == old(totalMonthlyEnergy) && devicesList == old(devicesList)
      ensures errorMessage == old(errorMessage) && combinedPowerReadings == old(combinedPowerReadings)
      ensures combinedMonthlyEnergy == old(combinedMonthlyEnergy)
    {
      if readings == [] {
        weeklyAverage := 0.0;
        monthlyAverage := 0.0;
        return;
      }
      weeklyAverage := Mean(Values(TakeLast(readings, 7))) / 1000.0;
      monthlyAverage := Mean(Values(TakeLast(readings, 30))) / 1000.0;
    }

    /** No signed-in user: the listener is never attached. */
    method NoSignedInUser()
      modifies this
      ensures errorMessage == Some("User not authenticated") && !isLoading
      ensures totalCurrentPower == old(totalCurrentPower) && totalMonthlyEnergy == old(totalMonthlyEnergy)
      ensures devicesList == old(devicesList) && combinedPowerReadings == old(combinedPowerReadings)
      ensures combinedMonthlyEnergy == old(combinedMonthlyEnergy)
      ensures weeklyAverage == old(weeklyAverage) && monthlyAverage == old(monthlyAverage)
    {
      errorMessage := Some("User not authenticated");
      isLoading := false;
    }

    /** `onCancelled`: the database error is shown; the data stays as it was. */
    method OnCancelled(message: string)
      modifies this
      ensures errorMessage == Some("Database error: " + message) && !isLoading
      ensures totalCurrentPower == old(totalCurrentPower) && totalMonthlyEnergy == old(totalMonthlyEnergy)
      ensures devicesList == old(devicesList) && combinedPowerReadings == old(combinedPowerReadings)
      ensures combinedMonthlyEnergy == old(combinedMonthlyEnergy)
      ensures weeklyAverage == old(weeklyAverage) && monthlyAverage == old(monthlyAverage)
    {
      errorMessage := Some("Database error: " + message);
      isLoading := false;
    }

    /** `onDataChange` on the `devices` node, for the signed-in user `userId`. */
    method OnDataChange(records: seq<DeviceRecord>, userId: string, parsers: DateParsers)
      modifies this
      ensures var devices := Included(records, userId);
              && devicesList == SortBy(Consumptions(devices, parsers), PowerDescending)
              && totalCurrentPower == Wrap32(PowerSum(devices))
              && totalMonthlyEnergy == EnergySum(devices, parsers)
              && combinedPowerReadings == SortBy(GroupedReadings(HistoryEntries(devices), parsers), ReadingDate)
              && combinedMonthlyEnergy == SortBy(GroupedMonths(MonthlyEntries(devices), parsers), MonthDate)
      ensures (weeklyAverage, monthlyAverage) == Averages(combinedPowerReadings)
      ensures !isLoading && errorMessage.None?
    {
      ghost var devices := Included(records, userId);
      var acc := CollectDevices(records, userId, parsers);
      var readings := CombineReadings(acc.powerReadingsMap, parsers, HistoryEntries(devices));
      combinedPowerReadings := SortBy(readings, ReadingDate);
      CalculateAverages(combinedPowerReadings);
      var months := CombineMonths(acc.monthlyEnergyMap, parsers, MonthlyEntries(devices));
      combinedMonthlyEnergy := SortBy(months, MonthDate);
      devicesList := SortBy(acc.devices, PowerDescending);
      totalCurrentPower := acc.currentPowerSum;
      totalMonthlyEnergy := acc.monthlyEnergySum;
      isLoading := false;
      errorMessage := None;
    }
  }
}
