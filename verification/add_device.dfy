/** The Add button of the add-device form: the blank-field check, the record
    written under "devices/<id>" (the form's fields over whatever the device
    already holds, with defaults for what it lacks or holds with another type),
    and the message shown once the write finishes. */
module AddDevice {
  import opened Base
  import opened Drawables

  /** The three text fields of the form. */
  datatype Form = Form(deviceName: string, deviceId: string, selectedLogo: string)

  /** The form can be saved only when no field is blank. */
  predicate Filled(form: Form) {
    !(IsBlank(form.deviceName) || IsBlank(form.deviceId) || IsBlank(form.selectedLogo))
  }

  /** The logo picker offers the four room pictures; picking one fills the logo field. */
  lemma PickedLogoIsNotBlank(i: nat)
    requires i < |RoomLogos|
    ensures !IsBlank(RoomLogos[i].0)
  {
    assert RoomLogos[i].0[0] != ' ';
    assert !IsWhitespace(RoomLogos[i].0[0]);
  }

  /** `snapshot.value as? Map<*, *> ?: mapOf()` for an existing node, the empty
      map for a missing one. */
  function CurrentData(snapshot: Option<DbValue>): (current: map<string, DbValue>)
    ensures snapshot.Some? && snapshot.value.MapV? ==> current == snapshot.value.m
    ensures !(snapshot.Some? && snapshot.value.MapV?) ==> current == map[]
  {
    match snapshot
    case Some(MapV(m)) => m
    case _ => map[]
  }

  /** `current[key] as? Int ?: 0` */
  function IntOr0(current: map<string, DbValue>, key: string): (v: DbValue)
    ensures v.IntV?
    ensures key in current && current[key].IntV? ==> v == current[key]
    ensures !(key in current && current[key].IntV?) ==> v == IntV(0)
  {
    if key in current && current[key].IntV? then current[key] else IntV(0)
  }

  /** `current[key] as? String ?: default` */
  function StringOr(current: map<string, DbValue>, key: string, default: string): (v: DbValue)
    ensures v.StrV?
    ensures key in current && current[key].StrV? ==> v == current[key]
    ensures !(key in current && current[key].StrV?) ==> v == StrV(default)
  {
    if key in current && current[key].StrV? then current[key] else StrV(default)
  }

  /** `current[key] as? Map<*, *> ?: mapOf()` */
  function MapOrEmpty(current: map<string, DbValue>, key: string): (v: DbValue)
    ensures v.MapV?
    ensures key in current && current[key].MapV? ==> v == current[key]
    ensures !(key in current && current[key].MapV?) ==> v == MapV(map[])
  {
    if key in current && current[key].MapV? then current[key] else MapV(map[])
  }

  const RecordKeys: set<string> :=
    {"deviceName", "deviceLogo", "userId", "livePower", "lightIntensity", "lightMode", "powerHistory", "powerMonth"}

  /** The record has the shape the rest of the app reads: string name, logo
      and owner, integer counters, a string mode and map-valued histories. */
  predicate WellTyped(data: map<string, DbValue>) {
    && RecordKeys <= data.Keys
    && data["deviceName"].StrV? && data["deviceLogo"].StrV? && data["userId"].StrV?
    && data["livePower"].IntV? && data["lightIntensity"].IntV?
    && data["lightMode"].StrV?
    && data["powerHistory"].MapV? && data["powerMonth"].MapV?
  }

  /** The record written for the device: the form's name and logo and the
      user's id, and each of the device's own counters, mode and histories
      kept when it has the expected type and reset to its default otherwise
      (a Long counter included). Whatever the node held before, the record
      is well typed, and it keeps every field of an old record that was. */
  function DeviceData(form: Form, userId: string, current: map<string, DbValue>): (data: map<string, DbValue>)
    ensures data.Keys == RecordKeys && WellTyped(data)
    ensures data["deviceName"] == StrV(form.deviceName)
    ensures data["deviceLogo"] == StrV(form.selectedLogo)
    ensures data["userId"] == StrV(userId)
    ensures data["livePower"] == IntOr0(current, "livePower")
    ensures data["lightIntensity"] == IntOr0(current, "lightIntensity")
    ensures data["lightMode"] == StringOr(current, "lightMode", "manual")
    ensures data["powerHistory"] == MapOrEmpty(current, "powerHistory")
    ensures data["powerMonth"] == MapOrEmpty(current, "powerMonth")
    ensures WellTyped(current) ==>
              forall k :: k in RecordKeys - {"deviceName", "deviceLogo", "userId"} ==> data[k] == current[k]
  {
    map[
      "deviceName" := StrV(form.deviceName),
      "deviceLogo" := StrV(form.selectedLogo),
      "userId" := StrV(userId),
      "livePower" := IntOr0(current, "livePower"),
      "lightIntensity" := IntOr0(current, "lightIntensity"),
      "lightMode" := StringOr(current, "lightMode", "manual"),
      "powerHistory" := MapOrEmpty(current, "powerHistory"),
      "powerMonth" := MapOrEmpty(current, "powerMonth")
    ]
  }

  /** Saving the same form twice writes the same record: the merge is
      idempotent. */
  lemma {:induction false} DeviceDataIdempotent(form: Form, userId: string, current: map<string, DbValue>)
    ensures DeviceData(form, userId, DeviceData(form, userId, current)) == DeviceData(form, userId, current)
  {
    var data := DeviceData(form, userId, current);
    var again := DeviceData(form, userId, data);
    assert again.Keys == data.Keys;
    forall k | k in data ensures again[k] == data[k] {
    }
  }

  /** What the button leads to. */
  datatype Outcome =
    | Toast(message: string)                                       // a message and no write
    | NothingHappens                                               // nobody signed in
    // a write to `path` was attempted; `message` tells how it went, and the
    // form goes home only if it succeeded
    | Written(path: seq<string>, data: map<string, DbValue>, message: string, toHome: bool)

  /** The read of the device node: None when it failed, otherwise whether the
      node exists and its value. */
  function OnAddClicked(form: Form, currentUid: Option<string>, read: Option<Option<DbValue>>, writeSucceeded: bool)
    : (o: Outcome)
    ensures !Filled(form) ==> o == Toast("Please fill all fields")
    ensures Filled(form) && currentUid.None? ==> o == NothingHappens
    ensures Filled(form) && currentUid.Some? && read.None? ==> o == Toast("Failed to access device data")
    ensures o.Written? ==> o.path == ["devices", form.deviceId] && o.toHome == writeSucceeded
                           && o.data == DeviceData(form, currentUid.value, CurrentData(read.value))
    ensures o.Written? <==> Filled(form) && currentUid.Some? && read.Some?
    ensures o.Written? ==> (o.message in {"Device updated successfully", "Failed to update device"} <==> read.value.Some?)
    ensures o.Written? ==> (o.message in {"Device updated successfully", "Device added successfully"} <==> writeSucceeded)
    ensures o.Written? ==> o.message in WriteMessages
  {
    if !Filled(form) then Toast("Please fill all fields")
    else if currentUid.None? then NothingHappens
    else if read.None? then Toast("Failed to access device data")
    else
      var snapshot := read.value;
      var data := DeviceData(form, currentUid.value, CurrentData(snapshot));
      Written(["devices", form.deviceId], data, WriteMessage(snapshot.Some?, writeSucceeded), writeSucceeded)
  }

  const WriteMessages: set<string> :=
    {"Device updated successfully", "Device added successfully", "Failed to update device", "Failed to add device"}

  /** The message after the write, telling an update from a first write. */
  function WriteMessage(existed: bool, succeeded: bool): string
  {
    if succeeded then
      if existed then "Device updated successfully" else "Device added successfully"
    else
      if existed then "Failed to update device" else "Failed to add device"
  }
}
