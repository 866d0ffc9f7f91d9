/** The home screen: the greeting chosen from the time of day, the device
    cards (the user's devices followed by the "New device" card), their logos
    and where a click on a card leads, and the message shown when the weather
    cannot be loaded. */
module HomeScreen {
  import opened Base
  import opened Drawables
  import DeviceDetails
  import Weather

  // ---------------------------------------------------------------------------
  // Greeting

  /** `s in lo..hi` on strings: compareTo is lexicographic on the characters. */
  predicate InRange(s: string, lo: string, hi: string) {
    LexLe(lo, s) && LexLe(s, hi)
  }

  /** The `when (currenttime)` over the "HH:mm:ss" text; None when no branch
      matches, in which case the greeting text is left as it was. */
  function Greeting(time: string): (g: Option<string>)
    ensures g.Some? ==> g.value in {"Good Night", "Good Morning", "Good Afternoon", "Good Evening"}
    ensures g == Some("Good Night") <==> InRange(time, "00:00:00", "06:00:00")
    ensures g == Some("Good Morning") <==>
              !InRange(time, "00:00:00", "06:00:00") && InRange(time, "06:00:01", "12:00:00")
    ensures g == Some("Good Afternoon") <==>
              !InRange(time, "00:00:00", "06:00:00") && !InRange(time, "06:00:01", "12:00:00")
              && InRange(time, "12:00:01", "18:00:00")
    ensures g == Some("Good Evening") <==>
              !InRange(time, "00:00:00", "06:00:00") && !InRange(time, "06:00:01", "12:00:00")
              && !InRange(time, "12:00:01", "18:00:00") && InRange(time, "18:00:01", "23:59:59")
    ensures g.None? <==>
              !InRange(time, "00:00:00", "06:00:00") && !InRange(time, "06:00:01", "12:00:00")
              && !InRange(time, "12:00:01", "18:00:00") && !InRange(time, "18:00:01", "23:59:59")
  {
    if InRange(time, "00:00:00", "06:00:00") then Some("Good Night")
    else if InRange(time, "06:00:01", "12:00:00") then Some("Good Morning")
    else if InRange(time, "12:00:01", "18:00:00") then Some("Good Afternoon")
    else if InRange(time, "18:00:01", "23:59:59") then Some("Good Evening")
    else None
  }

  /** The comparison is on strings, so texts that are not clock times can fall
      in a range too: "1" sorts between "06:00:01" and "12:00:00". */
  lemma NonClockTextGreeted()
    ensures Greeting("1") == Some("Good Morning")
  {
  }

  function TwoDigits(n: nat): (s: string)
    requires n < 100
    ensures |s| == 2
  {
    [DigitChar(n / 10), DigitChar(n % 10)]
  }

  /** The "HH:mm:ss" rendering of a time of day. */
  function ClockText(h: nat, m: nat, s: nat): (t: string)
    requires h < 24 && m < 60 && s < 60
    ensures |t| == 8
  {
    TwoDigits(h) + ":" + TwoDigits(m) + ":" + TwoDigits(s)
  }

  function SecondsOfDay(h: nat, m: nat, s: nat): nat {
    h * 3600 + m * 60 + s
  }

  /** Comparing two strings that begin with parts of equal length: the first
      parts decide unless they are equal. */
  lemma {:induction false} LexLeConcat(p: string, q: string, p2: string, q2: string)
    requires |p| == |p2|
    ensures LexLe(p + q, p2 + q2) <==> if p == p2 then LexLe(q, q2) else LexLe(p, p2)
  {
    if p != [] {
      assert (p + q)[0] == p[0] && (p2 + q2)[0] == p2[0];
      assert (p + q)[1..] == p[1..] + q && (p2 + q2)[1..] == p2[1..] + q2;
      LexLeConcat(p[1..], q, p2[1..], q2);
      if p[0] == p2[0] {
        assert p == p2 <==> p[1..] == p2[1..] by {
          assert p == [p[0]] + p[1..] && p2 == [p2[0]] + p2[1..];
        }
      }
    } else {
      assert p + q == q && p2 + q2 == q2;
    }
  }

  lemma TwoDigitsOrder(a: nat, b: nat)
    requires a < 100 && b < 100
    ensures TwoDigits(a) == TwoDigits(b) <==> a == b
    ensures LexLe(TwoDigits(a), TwoDigits(b)) <==> a <= b
  {
    var x, y := TwoDigits(a), TwoDigits(b);
    assert DigitValue(x[0]) == a / 10 && DigitValue(x[1]) == a % 10;
    assert DigitValue(y[0]) == b / 10 && DigitValue(y[1]) == b % 10;
    assert a == 10 * (a / 10) + a % 10 && b == 10 * (b / 10) + b % 10;
    assert x[1..] == [x[1]] && y[1..] == [y[1]];
    assert [x[1]][1..] == [] && [y[1]][1..] == [];
    if x == y {
      assert a / 10 == b / 10 && a % 10 == b % 10;
    }
    if x[0] != y[0] {
      assert LexLe(x, y) == (x[0] < y[0]);
      assert x[0] < y[0] <==> a / 10 < b / 10;
    } else {
      assert LexLe(x, y) == LexLe([x[1]], [y[1]]);
      assert LexLe([x[1]], [y[1]]) <==> x[1] <= y[1];
    }
  }

  /** On "HH:mm:ss" texts the string order is the order of the times of day. */
  lemma {:induction false} ClockTextOrder(h1: nat, m1: nat, s1: nat, h2: nat, m2: nat, s2: nat)
    requires h1 < 24 && m1 < 60 && s1 < 60 && h2 < 24 && m2 < 60 && s2 < 60
    ensures LexLe(ClockText(h1, m1, s1), ClockText(h2, m2, s2))
        <==> SecondsOfDay(h1, m1, s1) <= SecondsOfDay(h2, m2, s2)
  {
    var rest1 := ":" + TwoDigits(m1) + ":" + TwoDigits(s1);
    var rest2 := ":" + TwoDigits(m2) + ":" + TwoDigits(s2);
    assert ClockText(h1, m1, s1) == TwoDigits(h1) + rest1;
    assert ClockText(h2, m2, s2) == TwoDigits(h2) + rest2;
    LexLeConcat(TwoDigits(h1), rest1, TwoDigits(h2), rest2);
    TwoDigitsOrder(h1, h2);
    var tail1 := TwoDigits(m1) + (":" + TwoDigits(s1));
    var tail2 := TwoDigits(m2) + (":" + TwoDigits(s2));
    assert rest1 == ":" + tail1 && rest2 == ":" + tail2;
    LexLeConcat(":", tail1, ":", tail2);
    LexLeConcat(TwoDigits(m1), ":" + TwoDigits(s1), TwoDigits(m2), ":" + TwoDigits(s2));
    TwoDigitsOrder(m1, m2);
    LexLeConcat(":", TwoDigits(s1), ":", TwoDigits(s2));
    TwoDigitsOrder(s1, s2);
    if h1 != h2 {
      assert h1 < h2 ==> h1 * 3600 + 3600 <= h2 * 3600;
      assert h2 < h1 ==> h2 * 3600 + 3600 <= h1 * 3600;
    } else if m1 != m2 {
      assert m1 < m2 ==> m1 * 60 + 60 <= m2 * 60;
      assert m2 < m1 ==> m2 * 60 + 60 <= m1 * 60;
    }
  }

  /** The greeting for a time given in seconds since midnight, with the range
      ends the source writes: 06:00:00 is 21600, 12:00:00 is 43200 and
      18:00:00 is 64800. */
  function GreetingAt(seconds: nat): string {
    if seconds <= 21600 then "Good Night"
    else if seconds <= 43200 then "Good Morning"
    else if seconds <= 64800 then "Good Afternoon"
    else "Good Evening"
  }

  /** Every time of day gets a greeting, and it is the one of the range the
      time falls in: the four ranges of the `when` are disjoint and together
      cover the day. */
  lemma GreetingCoversTheDay(h: nat, m: nat, s: nat)
    requires h < 24 && m < 60 && s < 60
    ensures Greeting(ClockText(h, m, s)) == Some(GreetingAt(SecondsOfDay(h, m, s)))
  {
    RangesBySeconds(h, m, s);
  }

  lemma TextOf(h: nat, m: nat, s: nat, text: string)
    requires h < 24 && m < 60 && s < 60
    requires |text| == 8 && text[2] == ':' && text[5] == ':'
    requires DigitChar(h / 10) == text[0] && DigitChar(h % 10) == text[1]
    requires DigitChar(m / 10) == text[3] && DigitChar(m % 10) == text[4]
    requires DigitChar(s / 10) == text[6] && DigitChar(s % 10) == text[7]
    ensures ClockText(h, m, s) == text
  {
  }

  /** Each range of the `when`, read as seconds since midnight. */
  lemma RangesBySeconds(h: nat, m: nat, s: nat)
    requires h < 24 && m < 60 && s < 60
    ensures var t, secs := ClockText(h, m, s), SecondsOfDay(h, m, s);
            && (InRange(t, "00:00:00", "06:00:00") <==> secs <= 21600)
            && (InRange(t, "06:00:01", "12:00:00") <==> 21600 < secs <= 43200)
            && (InRange(t, "12:00:01", "18:00:00") <==> 43200 < secs <= 64800)
            && (InRange(t, "18:00:01", "23:59:59") <==> 64800 < secs)
  {
    NightRange(h, m, s);
    MorningRange(h, m, s);
    AfternoonRange(h, m, s);
    EveningRange(h, m, s);
  }

  lemma NightRange(h: nat, m: nat, s: nat)
    requires h < 24 && m < 60 && s < 60
    ensures InRange(ClockText(h, m, s), "00:00:00", "06:00:00") <==> SecondsOfDay(h, m, s) <= 21600
  {
    DayStartsAtMidnight(h, m, s);
    TextOf(6, 0, 0, "06:00:00");
    ClockTextOrder(h, m, s, 6, 0, 0);
  }

  /** "00:00:00" comes first. */
  lemma DayStartsAtMidnight(h: nat, m: nat, s: nat)
    requires h < 24 && m < 60 && s < 60
    ensures LexLe("00:00:00", ClockText(h, m, s))
  {
    var t := ClockText(h, m, s);
    var zero := "00:00:00";
    forall i | 0 <= i < 8 ensures zero[i] <= t[i] {
      if i != 2 && i != 5 {
        assert IsDigit(t[i]);
      }
    }
    PointwiseLexLe(zero, t);
  }

  /** A string no longer than another and nowhere above it comes first. */
  lemma {:induction false} PointwiseLexLe(a: string, b: string)
    requires |a| <= |b|
    requires forall i :: 0 <= i < |a| ==> a[i] <= b[i]
    ensures LexLe(a, b)
  {
    if a != [] && a[0] == b[0] {
      PointwiseLexLe(a[1..], b[1..]);
    }
  }

  lemma MorningRange(h: nat, m: nat, s: nat)
    requires h < 24 && m < 60 && s < 60
    ensures InRange(ClockText(h, m, s), "06:00:01", "12:00:00") <==> 21600 < SecondsOfDay(h, m, s) <= 43200
  {
    TextOf(6, 0, 1, "06:00:01");
    TextOf(12, 0, 0, "12:00:00");
    RangeBySeconds(h, m, s, 6, 0, 1, 12, 0, 0);
  }

  lemma AfternoonRange(h: nat, m: nat, s: nat)
    requires h < 24 && m < 60 && s < 60
    ensures InRange(ClockText(h, m, s), "12:00:01", "18:00:00") <==> 43200 < SecondsOfDay(h, m, s) <= 64800
  {
    TextOf(12, 0, 1, "12:00:01");
    TextOf(18, 0, 0, "18:00:00");
    RangeBySeconds(h, m, s, 12, 0, 1, 18, 0, 0);
  }

  lemma EveningRange(h: nat, m: nat, s: nat)
    requires h < 24 && m < 60 && s < 60
    ensures InRange(ClockText(h, m, s), "18:00:01", "23:59:59") <==> 64800 < SecondsOfDay(h, m, s)
  {
    TextOf(18, 0, 1, "18:00:01");
    TextOf(23, 59, 59, "23:59:59");
    RangeBySeconds(h, m, s, 18, 0, 1, 23, 59, 59);
  }

  lemma RangeBySeconds(h: nat, m: nat, s: nat, h1: nat, m1: nat, s1: nat, h2: nat, m2: nat, s2: nat)
    requires h < 24 && m < 60 && s < 60
    requires h1 < 24 && m1 < 60 && s1 < 60 && h2 < 24 && m2 < 60 && s2 < 60
    ensures InRange(ClockText(h, m, s), ClockText(h1, m1, s1), ClockText(h2, m2, s2))
        <==> SecondsOfDay(h1, m1, s1) <= SecondsOfDay(h, m, s) <= SecondsOfDay(h2, m2, s2)
  {
    ClockTextOrder(h1, m1, s1, h, m, s);
    ClockTextOrder(h, m, s, h2, m2, s2);
  }

  /** No time of day lies in two of the ranges. */
  lemma GreetingRangesDisjoint(h: nat, m: nat, s: nat)
    requires h < 24 && m < 60 && s < 60
    ensures var t := ClockText(h, m, s);
            && !(InRange(t, "00:00:00", "06:00:00") && InRange(t, "06:00:01", "12:00:00"))
            && !(InRange(t, "06:00:01", "12:00:00") && InRange(t, "12:00:01", "18:00:00"))
            && !(InRange(t, "12:00:01", "18:00:00") && InRange(t, "18:00:01", "23:59:59"))
            && !(InRange(t, "00:00:00", "06:00:00") && InRange(t, "12:00:01", "18:00:00"))
            && !(InRange(t, "00:00:00", "06:00:00") && InRange(t, "18:00:01", "23:59:59"))
            && !(InRange(t, "06:00:01", "12:00:00") && InRange(t, "18:00:01", "23:59:59"))
  {
    RangesBySeconds(h, m, s);
  }

  // ---------------------------------------------------------------------------
  // Device cards

  /** The record of a device card (model/Device.kt). */
  datatype Device = Device(deviceId: string, deviceName: string, deviceLogo: string)

  /** The card that leads to the add-device form. */
  const NewDeviceCard: Device := Device("new", "New device", "add")

  /** One child of the "devices" node, as far as the home screen reads it. */
  datatype DeviceChild = DeviceChild(
    key: Option<string>,
    userId: Option<string>,
    deviceName: Option<string>,
    deviceLogo: Option<string>)

  /** The `when (device?.deviceLogo)` of a card: the details screen's choice,
      plus the "add" picture. */
  function CardLogo(logo: string): (d: Drawable)
    ensures d == Add <==> logo == "add"
    ensures logo != "add" ==> d == DeviceDetails.DetailsLogo(logo)
  {
    match logo
    case "bedroom" => Bedroom
    case "kitchen" => Kitchen
    case "living_room" => LivingRoom
    case "bathroom" => Bathroom
    case "add" => Add
    case _ => QuestionMark
  }

  /** The screen a click on the card of `deviceId` navigates to. */
  function Route(deviceId: string): (route: string)
    ensures route == "AddDevice" <==> deviceId == "new"
    ensures deviceId != "new" ==> |route| >= 8 && route[..8] == "details/" && route[8..] == deviceId
  {
    if deviceId == "new" then "AddDevice"
    else
      var route := "details/" + deviceId;
      assert route[0] == 'd' && route[..8] == "details/" && route[8..] == deviceId;
      route
  }

  /** A card as the container shows it: picture, title and click target. */
  datatype Card = Card(logo: Drawable, title: string, route: string)

  function CardOf(d: Device): Card {
    Card(CardLogo(d.deviceLogo), d.deviceName, Route(d.deviceId))
  }

  function DeviceOf(child: DeviceChild): Device {
    Device(child.key.GetOr(""), child.deviceName.GetOr("unknown"), child.deviceLogo.GetOr("unknown"))
  }

  predicate Owns(child: DeviceChild, userId: string) {
    child.userId == Some(userId)
  }

  /** The devices of the user, in the order of the snapshot's children. */
  function UserDevices(children: seq<DeviceChild>, userId: string): (r: seq<Device>)
    ensures |r| <= |children|
  {
    if children == [] then []
    else
      var last := children[|children| - 1];
      UserDevices(children[..|children| - 1], userId) + (if Owns(last, userId) then [DeviceOf(last)] else [])
  }

  /** Every listed device comes from a child the user owns, and every such
      child is listed. */
  lemma {:induction false} UserDevicesSpec(children: seq<DeviceChild>, userId: string)
    ensures forall d :: d in UserDevices(children, userId) ==>
              exists i :: 0 <= i < |children| && Owns(children[i], userId) && d == DeviceOf(children[i])
    ensures forall i :: 0 <= i < |children| && Owns(children[i], userId) ==>
              DeviceOf(children[i]) in UserDevices(children, userId)
  {
    if children != [] {
      var init := children[..|children| - 1];
      UserDevicesSpec(init, userId);
      forall i | 0 <= i < |init| ensures init[i] == children[i] { }
    }
  }

  /** The user whose devices are listed: the signed-in user's id, or "" when
      nobody is signed in. */
  function ListingUser(currentUid: Option<string>): string {
    currentUid.GetOr("")
  }

  /** The cards the container holds after the devices were read (or not). */
  function CardsFor(devices: seq<Device>): (r: seq<Card>)
    ensures |r| == |devices|
    ensures forall i :: 0 <= i < |r| ==> r[i] == CardOf(devices[i])
  {
    if devices == [] then [] else CardsFor(devices[..|devices| - 1]) + [CardOf(devices[|devices| - 1])]
  }

  /** The card list of the home screen: the container of cards and the list of
      devices found for the user. */
  class DeviceCards {
    var devicesList: seq<Device>
    var cards: seq<Card>

    constructor ()
      ensures devicesList == [] && cards == []
    {
      devicesList := [];
      cards := [];
    }

    /** `addCard`: one more card at the end of the container. */
    method AddCard(device: Device)
      modifies this
      ensures cards == old(cards) + [CardOf(device)]
      ensures devicesList == old(devicesList)
    {
      cards := cards + [CardOf(device)];
    }

    /** The success listener: clears the list and the container, lists the
        user's devices when the node exists, shows a card for each, then the
        "New device" card. */
    method OnDevicesRead(nodeExists: bool, children: seq<DeviceChild>, userId: string)
      modifies this
      ensures devicesList == if nodeExists then UserDevices(children, userId) else []
      ensures cards == CardsFor(devicesList) + [CardOf(NewDeviceCard)]
    {
      devicesList := [];
      cards := [];
      if nodeExists {
        for i := 0 to |children|
          invariant devicesList == UserDevices(children[..i], userId)
          invariant cards == []
        {
          var deviceSnap := children[i];
          assert children[..i + 1][..i] == children[..i];
          if deviceSnap.userId == Some(userId) {
            devicesList := devicesList + [DeviceOf(deviceSnap)];
          }
        }
        assert children[..|children|] == children;
        for j := 0 to |devicesList|
          invariant devicesList == UserDevices(children, userId)
          invariant cards == CardsFor(devicesList[..j])
        {
          assert devicesList[..j + 1][..j] == devicesList[..j];
          AddCard(devicesList[j]);
        }
        assert devicesList[..|devicesList|] == devicesList;
      }
      AddCard(NewDeviceCard);
    }

    /** The failure listener: the container is cleared and gets only the
        "New device" card. */
    method OnDevicesReadFailed()
      modifies this
      ensures cards == [CardOf(NewDeviceCard)]
      ensures devicesList == old(devicesList)
    {
      cards := [];
      AddCard(NewDeviceCard);
    }
  }

  /** Whatever the database holds, the last card leads to the add-device form
      and is the only one that does unless a device is stored under the key
      "new"; every other card opens the details of its device. */
  lemma CardsEndWithNewDevice(devices: seq<Device>)
    ensures var cards := CardsFor(devices) + [CardOf(NewDeviceCard)];
            && |cards| == |devices| + 1
            && cards[|devices|] == Card(Add, "New device", "AddDevice")
            && forall i :: 0 <= i < |devices| && devices[i].deviceId != "new" ==>
                 cards[i].route == "details/" + devices[i].deviceId
  {
  }

  // ---------------------------------------------------------------------------
  // Weather error message

  /** The message of the exception getWeatherData raises for each error; the
      array error's text depends on the runtime: Android's ART writes
      "length=8; index=-1" (a desktop JVM would write "Index -1 out of bounds
      for length 8"); neither contains "API key". */
  function ErrorMessage(e: Weather.WeatherError): string {
    match e
    case ApiKeyNotConfigured => "Weather API key not configured"
    case InvalidWeatherData => "Invalid weather data received"
    case LibraryFailure(m) => m
    case DirectionIndexOutOfBounds(i) => "length=8; index=" + (if i < 0 then "-" + Decimal(-i) else Decimal(i))
  }

  /** The error text the weather card shows for an exception message. */
  function ShownError(message: Option<string>): (shown: string)
    ensures shown == "Weather service configuration error" <==> message.Some? && Contains(message.value, "API key")
    ensures shown != "Weather service configuration error" ==> shown == "Error loading weather data"
  {
    if message.Some? && Contains(message.value, "API key") then "Weather service configuration error"
    else "Error loading weather data"
  }

  lemma NotContainsFirst(s: string, t: string)
    requires t != [] && t[0] !in s
    ensures !Contains(s, t)
  {
  }

  /** A missing key shows the configuration error. */
  lemma MissingKeyShown()
    ensures ShownError(Some(ErrorMessage(Weather.ApiKeyNotConfigured))) == "Weather service configuration error"
  {
    var missing := "Weather API key not configured";
    assert missing[8..][..7] == "API key";
  }

  /** Malformed data shows the generic error. */
  lemma InvalidDataShown()
    ensures ShownError(Some(ErrorMessage(Weather.InvalidWeatherData))) == "Error loading weather data"
  {
    var invalid := "Invalid weather data received";
    assert 'A' !in invalid;
    NotContainsFirst(invalid, "API key");
  }

  /** A wind direction the compass array cannot name shows the generic error. */
  lemma DirectionErrorShown(i: int)
    requires i < 0
    ensures ShownError(Some(ErrorMessage(Weather.DirectionIndexOutOfBounds(i)))) == "Error loading weather data"
  {
    var digits := Decimal(-i);
    var m := "length=8; index=-" + digits;
    assert ErrorMessage(Weather.DirectionIndexOutOfBounds(i)) == m;
    assert 'A' !in digits by {
      forall k | 0 <= k < |digits| ensures digits[k] != 'A' { assert IsDigit(digits[k]); }
    }
    assert 'A' !in "length=8; index=-";
    assert 'A' !in m;
    NotContainsFirst(m, "API key");
  }
}
