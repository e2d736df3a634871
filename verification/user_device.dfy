/**
 * `UserDeviceService.createOrUpdateDeviceInfo`: the device row a login is
 * bound to. Each (user, device id) pair has at most one row; logging in
 * again from the same device updates that row instead of adding one.
 */
module UserDevices {
  import opened Common
  import DeviceTypes

  /** A `UserDevice` row: its owner, the client's device id, the normalised type and whether refresh is active. */
  datatype Device = Device(userId: int, deviceId: Option<string>, deviceType: string, isRefreshActive: bool)

  predicate SameKey(d: Device, userId: int, deviceId: Option<string>) {
    d.userId == userId && d.deviceId == deviceId
  }

  /** `findByUserAndDeviceId`: the position of the row for the pair, if there is one. */
  function Find(devices: seq<Device>, userId: int, deviceId: Option<string>): (r: Option<nat>)
    ensures r.Some? ==> r.value < |devices| && SameKey(devices[r.value], userId, deviceId)
    ensures r.None? ==> forall i :: 0 <= i < |devices| ==> !SameKey(devices[i], userId, deviceId)
    decreases |devices|
  {
    if |devices| == 0 then None
    else if SameKey(devices[0], userId, deviceId) then Some(0)
    else
      var rest := Find(devices[1..], userId, deviceId);
      if rest.Some? then Some(rest.value + 1) else None
  }

  /** No two rows share a (user, device id) pair. */
  predicate KeysUnique(devices: seq<Device>) {
    forall i, j :: 0 <= i < j < |devices| ==>
      !SameKey(devices[j], devices[i].userId, devices[i].deviceId)
  }

  /**
   * The rows after the call: the existing row of the pair gets the type and
   * an active refresh flag, or a new row is appended; an invalid type
   * leaves the rows as they were and the call throws.
   */
  function Upsert(devices: seq<Device>, userId: int, deviceId: Option<string>, deviceType: Option<string>)
    : (r: Result<(seq<Device>, Device)>)
    ensures DeviceTypes.NormalizeOrThrow(deviceType).Err? <==> r.Err?
    ensures r.Err? ==> r.error == DeviceTypes.NormalizeOrThrow(deviceType).error
  {
    match DeviceTypes.NormalizeOrThrow(deviceType)
    case Err(e) => Err(e)
    case Ok(kind) =>
      var device := Device(userId, deviceId, kind, true);
      match Find(devices, userId, deviceId)
      case Some(i) => Ok((devices[i := device], device))
      case None => Ok((devices + [device], device))
  }

  /**
   * A successful call leaves exactly one row for the pair, holding the
   * normalised type with refresh active; it adds a row only when the pair
   * had none, and every other row is unchanged.
   */
  lemma UpsertKeepsOneRow(devices: seq<Device>, userId: int, deviceId: Option<string>, deviceType: Option<string>)
    requires KeysUnique(devices)
    requires Upsert(devices, userId, deviceId, deviceType).Ok?
    ensures var (after, device) := Upsert(devices, userId, deviceId, deviceType).value;
      KeysUnique(after)
      && device == Device(userId, deviceId, DeviceTypes.NormalizeOrThrow(deviceType).value, true)
      && device.deviceType in DeviceTypes.Allowed
      && (forall i :: 0 <= i < |after| && SameKey(after[i], userId, deviceId) ==> after[i] == device)
      && (exists i :: 0 <= i < |after| && after[i] == device)
      && |after| == (if Find(devices, userId, deviceId).Some? then |devices| else |devices| + 1)
      && (forall i :: 0 <= i < |devices| && !SameKey(devices[i], userId, deviceId) ==> after[i] == devices[i])
  {
    var (after, device) := Upsert(devices, userId, deviceId, deviceType).value;
    match Find(devices, userId, deviceId)
    case Some(i) =>
      assert after[i] == device;
    case None =>
      assert after[|devices|] == device;
  }

  /** The device repository: its rows in order. */
  class DeviceRepository {
    var devices: seq<Device>

    constructor ()
      ensures devices == []
    {
      devices := [];
    }

    /** `createOrUpdateDeviceInfo` against this repository. */
    method CreateOrUpdate(userId: int, deviceId: Option<string>, deviceType: Option<string>) returns (r: Result<Device>)
      requires KeysUnique(devices)
      modifies this
      ensures KeysUnique(devices)
      ensures var u := Upsert(old(devices), userId, deviceId, deviceType);
        (u.Err? ==> r == Err(u.error) && devices == old(devices))
        && (u.Ok? ==> r == Ok(u.value.1) && devices == u.value.0)
    {
      var existing := Find(devices, userId, deviceId);
      var normalized := DeviceTypes.NormalizeOrThrow(deviceType);
      if normalized.Err? {
        return Err(normalized.error);
      }
      UpsertKeepsOneRow(devices, userId, deviceId, deviceType);
      var device := Device(userId, deviceId, normalized.value, true);
      if existing.Some? {
        devices := devices[existing.value := device];
      } else {
        devices := devices + [device];
      }
      r := Ok(device);
    }
  }
}
