# GreenMeter — a Dafny model of the energy screens, the weather helpers and the device forms

GreenMeter is an Android app that shows the power use of a user's devices. The
devices are stored in a Firebase realtime database under `devices/<id>`, each
with its owner's `userId`, a name, a logo, a live power value, a
`powerHistory` of timestamped readings and a `powerMonth` of monthly energy
totals. This project models, and proves properties of, the logic behind five
parts of the app:

- **Device details** (`DeviceDetails.kt`):
  - turning one device record into a `Device`: value coercion, timestamp
    classification, grouping of monthly values by month key, sorting by date;
  - the helpers that feed the charts: last seven readings, last twelve months,
    averages and axis labels;
  - the logo choice.

  Unlike the other screens, the details screen listens on (and deletes)
  `users/<uid>/<deviceId>`, not `devices/<id>`. `DeviceDetails.ReadDevice`'s
  `DeviceSnapshot` stands for that node. No modelled code writes it, so for a
  device added through the form the snapshot is absent in the app as written.
- **Analytics** (`AnalyticsScreen.kt`):
  - the aggregation over all of a user's devices: the 32-bit sum of live
    power, the sum of each device's latest month;
  - readings and months combined across devices by timestamp and by month;
  - the device list sorted by descending power;
  - the weekly and monthly averages;
  - the screen state that `onDataChange`, `onCancelled` and the
    missing-user branch assign.
- **Weather** (`WeatherService.kt`):
  - the compass name of a wind bearing and the API-key guard;
  - the request URL with its form-encoded key;
  - the mapping of the decoded JSON response onto a `Weather` record;
  - the choice of the most accurate last known location after the location
    request times out.
- **Home screen** (`HomeScreen.kt`):
  - the time-of-day greeting;
  - the device cards: the user's devices followed by the "New device" card;
  - each card's logo and where a click on it leads;
  - the weather error text.
- **Add device** (`AddDevice.kt`):
  - the blank-field check;
  - the record written to the database: the form's fields over the device's
    existing values, with defaults where those are missing or of another type;
  - the messages shown afterwards.

Modules:

- `Base` holds Option/Result, the Kotlin string helpers (`trim`, `isBlank`,
  `contains`, string `compareTo`), decimal digit strings, real sums and means,
  and Java's truncating `/` and `%`.
- `Sorting` is Kotlin's stable `sortedBy`/`sortBy` and `takeLast`.
- `Grouping` is group-and-sum in a `LinkedHashMap`, which keeps the order in
  which keys first appear.
- `Drawables` names the logo pictures.
- The remaining five modules follow the five source files.

How the source's features are represented:

- **Dates** are epoch milliseconds. A `SimpleDateFormat` parse is a parameter
  `string -> Option<int>`, and a format is a parameter `int -> string`.
- **`Date()`** (the clock) is a parameter `now`.
- **Kotlin `Float`/`Double`** values are exact reals.
- **Kotlin `Int` addition** wraps modulo 2^32 (`Analytics.Wrap32`).
- **Database values** are tagged with their JVM type (`Base.DbValue`). This
  lets `is Number`, `as? Int`, `as? String` and `as? Map` be tested on the tag.
- **The JSON response** arrives already decoded as a `Weather.WeatherJson`
  record. Each field read holds its value or the message of the exception the
  JSON library raises for it.

Loops stay loops:

- `getLastTwelveMonths`;
- the two loops of the details `onDataChange`;
- the nested loops of the analytics `onDataChange`;
- the best-location loop;
- the home screen's list building.

Each of these is a method proved against a specification function, and the
specification functions carry the lemmas. The analytics screen state and the
home screen's card list are classes whose methods assign their fields.

Four source behaviours that the model keeps:

- **Wind direction below -67 degrees.** `getWindDirection` computes
  `((degrees + 22.5) % 360 / 45).toInt()` with a `%` that keeps the sign of its
  left operand. Below -67 degrees the index can turn negative and the array
  read fails; the model returns `Err(DirectionIndexOutOfBounds(index))`.
  Bearings of -67 degrees and up always name a compass point.
- **Add-device counters that are not Ints.** The merge keeps `livePower` and
  `lightIntensity` only when they are Ints at run time (`as? Int`). A whole
  number that the database hands back as a Long is written back as 0
  (`AddDevice.IntOr0`).
- **History keys that `toLong()` rejects.** An empty key passes the all-digits
  test and a digit string beyond `Long.MAX_VALUE` overflows. In both cases
  `toLong()` throws, and the `catch` dates the reading now
  (`DeviceDetails.HistoryDate`).
- **Devices without a user id.** With nobody signed in, the home screen lists
  the devices whose `userId` is the empty string, because the missing user
  becomes `""` (`HomeScreen.ListingUser`).

## Model

| member | source | states |
|---|---|---|
| Sorting.SortBy | app/src/main/java/com/example/greenmeter/views/DeviceDetails.kt:68 | `sortedBy` returns a permutation of its input, ordered by key, nulls first |
| Sorting.SortByStable | app/src/main/java/com/example/greenmeter/views/DeviceDetails.kt:68 | the sort is stable: for every key, the elements with that key keep their input order |
| Sorting.TakeLast | app/src/main/java/com/example/greenmeter/views/DeviceDetails.kt:68 | `takeLast(n)` is the suffix of length min(n, size) |
| Sorting.LastOfSortBy | app/src/main/java/com/example/greenmeter/views/DeviceDetails.kt:68 | `sortedBy(key).takeLast(n)` keeps elements of the input, and none left out has a key above a kept one |
| Base.Trim | app/src/main/java/com/example/greenmeter/service/WeatherService.kt:25 | `trim()` removes the leading and trailing whitespace: the result is a slice of the text with only whitespace before and after it, it is empty exactly when the text is blank, and otherwise starts and ends with non-whitespace |
| Base.TDiv | app/src/main/java/com/example/greenmeter/service/WeatherService.kt:281 | Java `/` truncates toward zero: the remainder `a - q * b` lies in [0, b) for a non-negative dividend and in (-b, 0] for a negative one |
| Base.TRem | app/src/main/java/com/example/greenmeter/service/WeatherService.kt:232 | Java `%` takes the sign of the dividend and satisfies a == (a / b) * b + a % b |
| Base.DecimalRoundTrip | app/src/main/java/com/example/greenmeter/views/DeviceDetails.kt:604-609 | reading back the decimal digits of n gives n, as `toLong()` of a digit string does |
| Grouping.GroupingPreservesSum | app/src/main/java/com/example/greenmeter/views/AnalyticsScreen.kt:107 | adding values into a map by key loses nothing: the totals over the distinct keys add up to the sum of all values |
| Grouping.AddAmountStep | app/src/main/java/com/example/greenmeter/views/AnalyticsScreen.kt:107 | `map[k] = (map[k] ?: 0) + v` keeps the map equal to the per-key totals of the entries seen so far, keys in first-appearance order |
| DeviceDetails.LastSevenValues | app/src/main/java/com/example/greenmeter/views/DeviceDetails.kt:66-69 | returns min(n, 7) readings ordered by date, a missing date counting as epoch 0 |
| DeviceDetails.LastSevenAreLatest | app/src/main/java/com/example/greenmeter/views/DeviceDetails.kt:66-69 | the readings returned come from the input, and no reading left out is dated after a returned one |
| DeviceDetails.AverageOfLastSeven | app/src/main/java/com/example/greenmeter/views/DeviceDetails.kt:72-78 | 0 for no readings; otherwise average × count equals the sum of the values |
| DeviceDetails.AverageWithinReadings | app/src/main/java/com/example/greenmeter/views/DeviceDetails.kt:72-78 | the average lies within any bounds that hold for every reading |
| DeviceDetails.TimeLabels | app/src/main/java/com/example/greenmeter/views/DeviceDetails.kt:81-88 | one label per reading: its formatted date, or its raw timestamp when it has no date |
| DeviceDetails.AverageMonthlyEnergy | app/src/main/java/com/example/greenmeter/views/DeviceDetails.kt:116-122 | 0 for no months; otherwise average × count equals the sum of the monthly totals |
| DeviceDetails.MonthLabels | app/src/main/java/com/example/greenmeter/views/DeviceDetails.kt:125-132 | one label per month: its formatted date, or its key when it has no date |
| DeviceDetails.FirstDateSpec | app/src/main/java/com/example/greenmeter/views/DeviceDetails.kt:99-102 | a month's date is the first non-null date among its entries (`existing ?: new`), or null when all are null |
| DeviceDetails.MonthlyGroups | app/src/main/java/com/example/greenmeter/views/DeviceDetails.kt:93-112 | one entry per distinct month in first-appearance order, holding that month's total and first date |
| DeviceDetails.MonthlyGroupsSpec | app/src/main/java/com/example/greenmeter/views/DeviceDetails.kt:93-107 | months are unique, every input month is present, and each total is the sum over that month's entries |
| DeviceDetails.LastTwelveMonthsSpec | app/src/main/java/com/example/greenmeter/views/DeviceDetails.kt:91-113 | at most 12 months, sorted by date, each month once, with its full total and first date |
| DeviceDetails.LastTwelveMonths | app/src/main/java/com/example/greenmeter/views/DeviceDetails.kt:91-113 | the map-building loop returns the grouped months sorted by date with the last 12 kept, so all of the above hold of its result |
| DeviceDetails.ClassifyTimestamp | app/src/main/java/com/example/greenmeter/views/DeviceDetails.kt:594-616 | which branch of the `when` a history key takes, each condition stated as an if-and-only-if in branch order |
| DeviceDetails.EpochMillisRoundTrip | app/src/main/java/com/example/greenmeter/views/DeviceDetails.kt:604-606 | a key of more than 10 digits is read as that many epoch milliseconds |
| DeviceDetails.EpochSecondsRoundTrip | app/src/main/java/com/example/greenmeter/views/DeviceDetails.kt:608-610 | a key of at most 10 digits is read as epoch seconds, times 1000 |
| DeviceDetails.CoerceValue | app/src/main/java/com/example/greenmeter/views/DeviceDetails.kt:586-590 | a Number is taken as is, a String is parsed with 0 on failure, anything else is 0 |
| DeviceDetails.CoercionDefaultsToZero | app/src/main/java/com/example/greenmeter/views/DeviceDetails.kt:586-590 | a non-zero value comes from a number or from a string that parses |
| DeviceDetails.MonthTotals | app/src/main/java/com/example/greenmeter/views/DeviceDetails.kt:657-665 | one month per distinct key, in first-appearance order, carrying the sum of that key's coerced values and the key parsed as a year-month date |
| DeviceDetails.MonthTotalsKeepEveryValue | app/src/main/java/com/example/greenmeter/views/DeviceDetails.kt:657-665 | the monthly totals add up to the sum of all coerced month values: grouping drops nothing and counts nothing twice |
| DeviceDetails.ReadDevice | app/src/main/java/com/example/greenmeter/views/DeviceDetails.kt:566-678 | null for a missing node; otherwise the defaults "", "Unknown Device" and 0, the history in date order, and the months grouped and summed in date order; every reading has a date, and months are unique; a live power read as a Kotlin Int stays one |
| DeviceDetails.ReadHistory | app/src/main/java/com/example/greenmeter/views/DeviceDetails.kt:583-625 | the history loop yields one reading per child, in order, with the coerced value and the date its key denotes |
| DeviceDetails.GroupMonthValues | app/src/main/java/com/example/greenmeter/views/DeviceDetails.kt:631-654 | the month loop leaves the map holding, for each month key in first-appearance order, the list of its coerced values |
| DeviceDetails.ReadDeviceSorted | app/src/main/java/com/example/greenmeter/views/DeviceDetails.kt:667-668 | after `sortBy`, every reading has a date and no month appears twice |
| DeviceDetails.DetailsLogo | app/src/main/java/com/example/greenmeter/views/DeviceDetails.kt:789-795 | each of the four room names gets the picture the add-device picker pairs with it; the question-mark picture exactly for names other than the four rooms; never the "add" picture |
| Analytics.Wrap32 | app/src/main/java/com/example/greenmeter/views/AnalyticsScreen.kt:134 | the sum of Ints is the exact sum reduced into the 32-bit range |
| Analytics.Wrap32OfInt | app/src/main/java/com/example/greenmeter/views/AnalyticsScreen.kt:134 | a total that fits an Int is not changed by the wrap |
| Analytics.ConsumptionPowersAreInts | app/src/main/java/com/example/greenmeter/views/AnalyticsScreen.kt:92 | records whose live power was read with `getValue(Int::class.java)` give consumptions whose power fits an Int |
| Analytics.Wrap32Add | app/src/main/java/com/example/greenmeter/views/AnalyticsScreen.kt:134 | wrapping after every `+=` gives the same as wrapping the exact total once |
| Analytics.IncludedSpec | app/src/main/java/com/example/greenmeter/views/AnalyticsScreen.kt:87-89 | the devices aggregated are exactly the user's devices, each as often as it appears |
| Analytics.LastMonthEnergy | app/src/main/java/com/example/greenmeter/views/AnalyticsScreen.kt:130 | a device's monthly energy is its last month's total, or 0 when it has none |
| Analytics.Averages | app/src/main/java/com/example/greenmeter/views/AnalyticsScreen.kt:54-66 | 0 and 0 for no readings; otherwise the means of the last 7 and the last 30 readings, in thousands |
| Analytics.AveragesAgreeOnShortHistory | app/src/main/java/com/example/greenmeter/views/AnalyticsScreen.kt:54-66 | with 7 readings or fewer, the weekly and monthly averages are equal |
| Analytics.AveragesWithinReadings | app/src/main/java/com/example/greenmeter/views/AnalyticsScreen.kt:54-66 | both averages lie within the readings' bounds divided by 1000 |
| Analytics.CombinedPowerIsSumOverDevices | app/src/main/java/com/example/greenmeter/views/AnalyticsScreen.kt:95-108 | the combined value at a timestamp is the sum, over devices, of each device's readings at that timestamp |
| Analytics.CombinedMonthIsSumOverDevices | app/src/main/java/com/example/greenmeter/views/AnalyticsScreen.kt:111-124 | the combined energy of a month is the sum, over devices, of each device's values for that month |
| Analytics.CombinedReadingsSpec | app/src/main/java/com/example/greenmeter/views/AnalyticsScreen.kt:139-147 | the combined readings hold each timestamp once, cover every timestamp of every device, and carry the summed value |
| Analytics.DevicesByPowerSpec | app/src/main/java/com/example/greenmeter/views/AnalyticsScreen.kt:161 | the device list is a permutation in non-increasing power, and devices of equal power keep their order |
| Analytics.ChartInputs | app/src/main/java/com/example/greenmeter/views/AnalyticsScreen.kt:405-440 | the charts get at most 7 readings and 12 months, still in date order; no reading or month left out is dated after one that is shown |
| Analytics.ReadPowerHistory | app/src/main/java/com/example/greenmeter/views/AnalyticsScreen.kt:95-108 | the loop over one device's history builds its readings and keeps the combined map equal to the per-timestamp totals so far |
| Analytics.ReadPowerMonths | app/src/main/java/com/example/greenmeter/views/AnalyticsScreen.kt:111-124 | the same for the months and the per-month totals |
| Analytics.CollectDevices | app/src/main/java/com/example/greenmeter/views/AnalyticsScreen.kt:87-137 | the outer loop leaves the device list, both sums and both maps equal to their definitions over the user's devices |
| Analytics.AccumulateDevice | app/src/main/java/com/example/greenmeter/views/AnalyticsScreen.kt:126-135 | adding one device's consumption, power and latest month keeps the accumulators correct |
| Analytics.CombineReadings | app/src/main/java/com/example/greenmeter/views/AnalyticsScreen.kt:140-147 | the map becomes one reading per timestamp, in insertion order, with its total |
| Analytics.CombineMonths | app/src/main/java/com/example/greenmeter/views/AnalyticsScreen.kt:152-159 | the map becomes one month per key, in insertion order, with its total |
| Analytics.AnalyticsState.constructor | app/src/main/java/com/example/greenmeter/views/AnalyticsScreen.kt:43-51 | the screen starts loading, with zero totals, empty lists and no error |
| Analytics.AnalyticsState.CalculateAverages | app/src/main/java/com/example/greenmeter/views/AnalyticsScreen.kt:54-66 | sets exactly the two averages |
| Analytics.AnalyticsState.NoSignedInUser | app/src/main/java/com/example/greenmeter/views/AnalyticsScreen.kt:71-76 | "User not authenticated", loading stops, nothing else changes |
| Analytics.AnalyticsState.OnCancelled | app/src/main/java/com/example/greenmeter/views/AnalyticsScreen.kt:173-176 | "Database error: " and the message, loading stops, nothing else changes |
| Analytics.AnalyticsState.OnDataChange | app/src/main/java/com/example/greenmeter/views/AnalyticsScreen.kt:79-166 | every field is set from the user's devices: the sorted list, the wrapped power sum, the energy sum, the combined lists in date order and their averages; no error |
| Weather.DirectionIndex | app/src/main/java/com/example/greenmeter/service/WeatherService.kt:232 | the computed index always lies in -7..7 |
| Weather.WindDirection | app/src/main/java/com/example/greenmeter/service/WeatherService.kt:230-234 | one of the eight compass names exactly when the index is not negative, which includes every bearing of -67 degrees and up; otherwise the array error |
| Weather.WindSectors | app/src/main/java/com/example/greenmeter/service/WeatherService.kt:230-234 | 0-359 degrees fall in 45-degree sectors centred on each direction: 0-22 N, 23-67 NE, ..., 338-359 N |
| Weather.WindDirectionPeriodic | app/src/main/java/com/example/greenmeter/service/WeatherService.kt:232 | for d ≥ 0, d and d + 360 name the same direction |
| Weather.UrlEncode | app/src/main/java/com/example/greenmeter/service/WeatherService.kt:255 | the encoded key uses only letters, digits, `.-*_`, `+` and `%`; a key of unreserved characters is unchanged |
| Weather.EncodedKeyHasNoDelimiters | app/src/main/java/com/example/greenmeter/service/WeatherService.kt:255 | the encoded key holds no '?' and no '&' |
| Weather.WeatherUrlSplitsAtQuery | app/src/main/java/com/example/greenmeter/service/WeatherService.kt:251-257 | whatever the key, the URL is the base address, one '?', and the query |
| Weather.QueryParameters | app/src/main/java/com/example/greenmeter/service/WeatherService.kt:251-257 | whatever the key, the query is exactly lat, lon, appid and units, in that order |
| Weather.ApiKey | app/src/main/java/com/example/greenmeter/service/WeatherService.kt:25 | the trimmed key is empty exactly when the configured key is blank |
| Weather.ToWeather | app/src/main/java/com/example/greenmeter/service/WeatherService.kt:266-285 | no "main" gives the invalid-data error; the record is built exactly when every read succeeds and the direction exists; visibility is metres / 1000 truncated, and the location is "name, country" |
| Weather.GetWeatherData | app/src/main/java/com/example/greenmeter/service/WeatherService.kt:236-291 | the configuration error exactly for a blank or "YOUR_API_KEY" key, whatever the network does; otherwise the request goes to the key's URL and its failure or response decides the result |
| Weather.BestLastKnownLocation | app/src/main/java/com/example/greenmeter/service/WeatherService.kt:197-222 | "Could not get location" exactly when every provider gives null; otherwise a location of least accuracy value, the earliest such one |
| HomeScreen.Greeting | app/src/main/java/com/example/greenmeter/views/HomeScreen.kt:171-176 | for any text, each greeting exactly when the text is in its range and in none of the earlier ones ("Good Night" for "00:00:00".."06:00:00", then morning, afternoon, evening), no greeting exactly when it is in none, and only the four greetings are ever chosen |
| HomeScreen.NonClockTextGreeted | app/src/main/java/com/example/greenmeter/views/HomeScreen.kt:171-176 | the ranges compare strings, so a text that is not a clock time, such as "1", can still get a greeting ("Good Morning") |
| HomeScreen.ClockTextOrder | app/src/main/java/com/example/greenmeter/views/HomeScreen.kt:170-171 | on "HH:mm:ss" texts, string order is the order of the times of day |
| HomeScreen.RangesBySeconds | app/src/main/java/com/example/greenmeter/views/HomeScreen.kt:171-176 | each range holds exactly the times between its ends: up to 06:00:00, then to 12:00:00, to 18:00:00, and the rest of the day |
| HomeScreen.GreetingCoversTheDay | app/src/main/java/com/example/greenmeter/views/HomeScreen.kt:171-176 | every time of day gets the greeting of the range it falls in |
| HomeScreen.GreetingRangesDisjoint | app/src/main/java/com/example/greenmeter/views/HomeScreen.kt:171-176 | no time of day falls in two ranges |
| HomeScreen.CardLogo | app/src/main/java/com/example/greenmeter/views/HomeScreen.kt:252-260 | the "add" picture exactly for "add"; otherwise the same picture as the details screen, so each room name gets the picker's picture for it |
| HomeScreen.Route | app/src/main/java/com/example/greenmeter/views/HomeScreen.kt:285-293 | "new" opens the add-device form; any other id opens "details/" followed by that id |
| HomeScreen.UserDevicesSpec | app/src/main/java/com/example/greenmeter/views/HomeScreen.kt:309-318 | every listed device comes from a child the user owns, and every such child is listed |
| HomeScreen.CardsFor | app/src/main/java/com/example/greenmeter/views/HomeScreen.kt:321-324 | one card per listed device, in list order |
| HomeScreen.DeviceCards.AddCard | app/src/main/java/com/example/greenmeter/views/HomeScreen.kt:231-282 | one card appended to the container, with the device's logo, name and click target |
| HomeScreen.DeviceCards.OnDevicesRead | app/src/main/java/com/example/greenmeter/views/HomeScreen.kt:303-335 | list and container are cleared; the list becomes the user's devices (none when the node is missing); the cards are theirs followed by the "New device" card |
| HomeScreen.DeviceCards.OnDevicesReadFailed | app/src/main/java/com/example/greenmeter/views/HomeScreen.kt:336-343 | the container holds only the "New device" card |
| HomeScreen.CardsEndWithNewDevice | app/src/main/java/com/example/greenmeter/views/HomeScreen.kt:321-334 | there is one more card than devices; the last is the "add" card routed to the form, and every other card whose device id is not "new" opens its device's details (a device stored under "new" opens the form) |
| HomeScreen.ShownError | app/src/main/java/com/example/greenmeter/views/HomeScreen.kt:92-96 | the configuration text exactly when the message contains "API key", otherwise the generic text |
| HomeScreen.MissingKeyShown | app/src/main/java/com/example/greenmeter/views/HomeScreen.kt:92-96 | a key that is not configured shows the configuration text |
| HomeScreen.InvalidDataShown | app/src/main/java/com/example/greenmeter/views/HomeScreen.kt:92-96 | a response without "main" shows the generic text |
| HomeScreen.DirectionErrorShown | app/src/main/java/com/example/greenmeter/views/HomeScreen.kt:92-96 | a failed wind-direction lookup shows the generic text |
| AddDevice.PickedLogoIsNotBlank | app/src/main/java/com/example/greenmeter/views/AddDevice.kt:38-43 | any logo picked from the picker passes the blank check |
| AddDevice.CurrentData | app/src/main/java/com/example/greenmeter/views/AddDevice.kt:164-168 | the existing map for an existing map node, otherwise the empty map |
| AddDevice.IntOr0 | app/src/main/java/com/example/greenmeter/views/AddDevice.kt:175-176 | an Int is kept; anything else, including a Long, becomes 0 |
| AddDevice.StringOr | app/src/main/java/com/example/greenmeter/views/AddDevice.kt:177 | a String is kept; anything else becomes the default "manual" |
| AddDevice.MapOrEmpty | app/src/main/java/com/example/greenmeter/views/AddDevice.kt:178-179 | a map is kept; anything else becomes the empty map |
| AddDevice.DeviceData | app/src/main/java/com/example/greenmeter/views/AddDevice.kt:171-180 | the record has exactly the eight keys, each of the expected type, with the form's name and logo and the user's id; each other field keeps the old value when it has the expected type and otherwise takes its default (0, "manual", the empty map), field by field; a record that was already well typed keeps every other field |
| AddDevice.DeviceDataIdempotent | app/src/main/java/com/example/greenmeter/views/AddDevice.kt:171-180 | saving the same form again writes the same record |
| AddDevice.OnAddClicked | app/src/main/java/com/example/greenmeter/views/AddDevice.kt:150-204 | a blank field gives "Please fill all fields"; no user, nothing; a failed read, "Failed to access device data"; otherwise the merged record goes to devices/<id>; the message is one of the four write messages and tells an update from an addition and success from failure, so each of the four outcomes has its own message; the form goes home only on success |

## Left out

- Chart drawing (`UsageGraph`, `MonthlyEnergyGraph`) and all Compose layout:
  these are canvas geometry and widgets with no stated result. The model
  stops at the lists handed to them.
- The Firebase plumbing: `callbackFlow`, listeners, `addValueEventListener`,
  `setValue` and navigation calls. A snapshot is a parameter: a sequence of
  children in the order the database delivers them.
- The `getValue(X::class.java)` conversions and the exceptions they may throw.
  These are taken as already done: a child's value is an Option of the
  expected type, or a tagged `DbValue`. The outer `try`/`catch` of both
  `onDataChange` handlers ("Error loading data: …", `trySend(null)`) only
  fires on such exceptions, so it is not modelled.
- `SimpleDateFormat` parsing and formatting: parameters. Which strings a
  pattern accepts, the locale and the time zone are outside the model.
- Float rounding, and `average()` in double converted to float: sums and means
  are exact reals. `%.1f`/`%.2f` formatting is left out.
- `Char.isDigit()` is taken for ASCII digits only, and `Char.isWhitespace()` for
  the Java whitespace characters and the Unicode space separators listed in
  `Base.IsWhitespace`.
- Location acquisition in `WeatherService.kt` apart from the best-location loop:
  the fused-location request, the listeners and the timeouts. They are
  asynchronous and callback-driven. `getWeatherData` uses fixed coordinates
  and never calls them.
- `URL.readText()` and `JSONObject`: `fetch` is a parameter returning the
  decoded record or the library's message. A library exception whose message
  is null is shown as the generic weather error; the model keeps only
  messages that are strings.
- The array exception's message depends on the runtime. The model takes
  Android ART's "length=8; index=<i>"; a desktop JVM writes
  "Index <i> out of bounds for length 8". Neither contains "API key", so the
  home screen shows the generic weather error either way.
- The listener-driven weather reload after the permission request
  (`HomeScreen.kt` lines 70-102) repeats the same error mapping, which
  `HomeScreen.ShownError` models once.
- Authentication, profile, sign-up and log-in screens, `MainActivity`.
- `Weather.BestLastKnownLocation`: the `SecurityException` a provider may
  raise is modelled as that provider giving no location, which is what the
  `catch` does.
- `HomeScreen.Greeting` is proved total and disjoint only for the
  zero-padded 24-hour texts `SimpleDateFormat("HH:mm:ss")` produces. Other
  texts may fall in any of the four ranges or in none (the string "1", for
  one, lies in the morning range); only the `None` case leaves the greeting
  unchanged.
