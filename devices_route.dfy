/** The device listing endpoint (app/api/devices/route.ts): lists the vendor's devices,
    optionally restricted to one platform. */
module DevicesRoute {
  import opened Common
  import opened Text

  /** One entry of the `filters` of a ListDevices call. */
  datatype DeviceFilter = DeviceFilter(attribute: string, operator: string, values: seq<string>)

  /** The filters built from the `platform` query parameter: none without it, otherwise
      exactly one, PLATFORM EQUALS the upper-cased platform. */
  function PlatformFilters(platform: Option<string>): (r: Option<seq<DeviceFilter>>)
    ensures !Present(platform) ==> r.None?
    ensures Present(platform) ==>
      r.Some? && |r.value| == 1 && r.value[0].attribute == "PLATFORM" && r.value[0].operator == "EQUALS" &&
      r.value[0].values == [ToUpper(platform.value)]
  {
    if Present(platform) then Some([DeviceFilter("PLATFORM", "EQUALS", [ToUpper(platform.value)])]) else None
  }

  /** The platform value sent holds no lower-case letter, and the same platform spelt in
      any letter case gives the same filter. */
  lemma {:induction false} PlatformFilterCaseInsensitive(a: string, b: string)
    requires a != "" && b != ""
    requires |a| == |b| && forall i :: 0 <= i < |a| ==> UpperChar(a[i]) == UpperChar(b[i])
    ensures PlatformFilters(Some(a)) == PlatformFilters(Some(b))
    ensures forall i :: 0 <= i < |a| ==> !('a' <= PlatformFilters(Some(a)).value[0].values[0][i] <= 'z')
  {
    assert ToUpper(a) == ToUpper(b);
  }

  /** `GET`: 401 without a user; otherwise one ListDevices call with the platform filters,
      answered with the devices, or `[]` when the reply has none; a failure is a 500. The
      second component is the filters sent, when the call was made. */
  function GetDevices(userId: Option<string>, platform: Option<string>, listed: Outcome<Option<seq<Value>>>)
    : (r: (Reply<seq<Value>>, Option<Option<seq<DeviceFilter>>>))
    ensures !Present(userId) ==> r == (ErrorJson(401, "Unauthorized"), None)
    ensures Present(userId) ==> r.1 == Some(PlatformFilters(platform))
    ensures Present(userId) && listed.Threw? ==> r.0 == ErrorJson(500, "Failed to fetch devices")
    ensures Present(userId) && listed.Done? ==> r.0 == Json(200, if listed.value.Some? then listed.value.value else [])
  {
    if !Present(userId) then (Unauthorized(), None)
    else
      var sent := Some(PlatformFilters(platform));
      match listed
      case Threw(_) => (ErrorJson(500, "Failed to fetch devices"), sent)
      case Done(devices) => (Json(200, if devices.Some? then devices.value else []), sent)
  }
}
