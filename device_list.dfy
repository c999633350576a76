/** The device list panel (components/dashboard/device-list.tsx): the devices fetched from
    the devices endpoint, the search over name and manufacturer, the grouping by platform
    and form factor, and the Connect button of each device. */
module DeviceList {
  import opened Common
  import opened Text
  import opened Seqs

  /** The fields of a listed device the panel reads. Platform and form factor are the
      vendor's strings (`"ANDROID"`, `"IOS"`, `"PHONE"`, `"TABLET"`). */
  datatype Device = Device(arn: string, name: string, manufacturer: string, platform: string, formFactor: string)

  /** The search keeps a device whose lower-cased name or manufacturer contains the
      lower-cased search text. */
  predicate Matches(d: Device, search: string) {
    Contains(ToLower(d.name), ToLower(search)) || Contains(ToLower(d.manufacturer), ToLower(search))
  }

  function MatchesFn(search: string): Device -> bool {
    (d: Device) => Matches(d, search)
  }

  /** `filteredDevices`: the devices that match, in their listed order. */
  function FilteredDevices(devices: seq<Device>, search: string): (r: seq<Device>)
    ensures forall d :: d in r <==> d in devices && Matches(d, search)
    ensures Subsequence(r, devices)
  {
    var r := Filter(devices, MatchesFn(search));
    forall d ensures d in r <==> d in devices && Matches(d, search) {
      FilterMembership(devices, MatchesFn(search), d);
    }
    FilterIsSubsequence(devices, MatchesFn(search));
    r
  }

  /** A match is an occurrence of the lower-cased search text at some position of the
      lower-cased name or manufacturer. */
  lemma MatchesIffOccurs(d: Device, search: string)
    ensures Matches(d, search) <==>
      (exists i :: OccursAt(ToLower(d.name), ToLower(search), i)) ||
      (exists i :: OccursAt(ToLower(d.manufacturer), ToLower(search), i))
  {
    ContainsIffOccurs(ToLower(d.name), ToLower(search));
    ContainsIffOccurs(ToLower(d.manufacturer), ToLower(search));
  }

  /** An empty search keeps every device, in order. */
  lemma EmptySearchKeepsAll(devices: seq<Device>)
    ensures FilteredDevices(devices, "") == devices
  {
    forall i | 0 <= i < |devices| ensures MatchesFn("")(devices[i]) {
      ContainsEmpty(ToLower(devices[i].name));
    }
    FilterAll(devices, MatchesFn(""));
  }

  /** The search ignores letter case on both sides. */
  lemma SearchIgnoresCase(devices: seq<Device>, search: string)
    ensures FilteredDevices(devices, ToLower(search)) == FilteredDevices(devices, search)
  {
    ToLowerIdempotent(search);
    FilterCongruent(devices, MatchesFn(ToLower(search)), MatchesFn(search));
  }

  /** `groupedDevices`. */
  datatype Groups = Groups(androidPhone: seq<Device>, androidTablet: seq<Device>, iosPhone: seq<Device>, iosTablet: seq<Device>)

  function KindFn(platform: string, formFactor: string): Device -> bool {
    (d: Device) => d.platform == platform && d.formFactor == formFactor
  }

  /** Each group holds exactly the given devices of its platform and form factor, in the
      order they were given. */
  function GroupedDevices(filtered: seq<Device>): (g: Groups)
    ensures forall d :: d in g.androidPhone <==> d in filtered && d.platform == "ANDROID" && d.formFactor == "PHONE"
    ensures forall d :: d in g.androidTablet <==> d in filtered && d.platform == "ANDROID" && d.formFactor == "TABLET"
    ensures forall d :: d in g.iosPhone <==> d in filtered && d.platform == "IOS" && d.formFactor == "PHONE"
    ensures forall d :: d in g.iosTablet <==> d in filtered && d.platform == "IOS" && d.formFactor == "TABLET"
    ensures Subsequence(g.androidPhone, filtered) && Subsequence(g.androidTablet, filtered)
    ensures Subsequence(g.iosPhone, filtered) && Subsequence(g.iosTablet, filtered)
  {
    FilterIsSubsequence(filtered, KindFn("ANDROID", "PHONE"));
    FilterIsSubsequence(filtered, KindFn("ANDROID", "TABLET"));
    FilterIsSubsequence(filtered, KindFn("IOS", "PHONE"));
    FilterIsSubsequence(filtered, KindFn("IOS", "TABLET"));
    forall d ensures d in Filter(filtered, KindFn("ANDROID", "PHONE")) <==> d in filtered && KindFn("ANDROID", "PHONE")(d) {
      FilterMembership(filtered, KindFn("ANDROID", "PHONE"), d);
    }
    forall d ensures d in Filter(filtered, KindFn("ANDROID", "TABLET")) <==> d in filtered && KindFn("ANDROID", "TABLET")(d) {
      FilterMembership(filtered, KindFn("ANDROID", "TABLET"), d);
    }
    forall d ensures d in Filter(filtered, KindFn("IOS", "PHONE")) <==> d in filtered && KindFn("IOS", "PHONE")(d) {
      FilterMembership(filtered, KindFn("IOS", "PHONE"), d);
    }
    forall d ensures d in Filter(filtered, KindFn("IOS", "TABLET")) <==> d in filtered && KindFn("IOS", "TABLET")(d) {
      FilterMembership(filtered, KindFn("IOS", "TABLET"), d);
    }
    Groups(Filter(filtered, KindFn("ANDROID", "PHONE")), Filter(filtered, KindFn("ANDROID", "TABLET")),
           Filter(filtered, KindFn("IOS", "PHONE")), Filter(filtered, KindFn("IOS", "TABLET")))
  }

  /** A device of one of the four known kinds. */
  predicate KnownKind(d: Device) {
    (d.platform == "ANDROID" || d.platform == "IOS") && (d.formFactor == "PHONE" || d.formFactor == "TABLET")
  }

  function GroupSizes(g: Groups): nat {
    |g.androidPhone| + |g.androidTablet| + |g.iosPhone| + |g.iosTablet|
  }

  /** When every device is of a known kind, the groups split the list: each device lands
      in exactly one group, so the group sizes add up to the list's length. A device of any
      other kind is shown in no group. */
  lemma {:induction false} GroupsPartition(filtered: seq<Device>)
    ensures (forall i :: 0 <= i < |filtered| ==> KnownKind(filtered[i])) ==>
      GroupSizes(GroupedDevices(filtered)) == |filtered|
    ensures GroupSizes(GroupedDevices(filtered)) <= |filtered|
  {
    if filtered != [] {
      var init := filtered[..|filtered| - 1];
      GroupsPartition(init);
      assert filtered == init + [filtered[|filtered| - 1]];
    }
  }

  /** How a device's Connect button is shown: hidden without a project arn; otherwise
      disabled while any device is connecting, with a spinner on the connecting one. */
  datatype ConnectButton = Hidden | Shown(disabled: bool, spinner: bool)

  function ConnectButtonOf(projectArn: Option<string>, connectingDeviceId: Option<string>, d: Device): (b: ConnectButton)
    ensures b.Shown? <==> Present(projectArn)
    ensures b.Shown? ==> (b.disabled <==> Present(connectingDeviceId))
    ensures b.Shown? ==> (b.spinner <==> connectingDeviceId == Some(d.arn))
  {
    if Present(projectArn) then Shown(Present(connectingDeviceId), connectingDeviceId == Some(d.arn)) else Hidden
  }

  /** The panel's own state. */
  class Panel {
    var devices: seq<Device>
    var loading: bool
    var error: bool
    var search: string

    constructor ()
      ensures devices == [] && loading && !error && search == ""
    {
      devices := [];
      loading := true;
      error := false;
      search := "";
    }

    /** The devices on show. */
    function Shown(): seq<Device>
      reads this
    {
      FilteredDevices(devices, search)
    }

    /** `fetchDevices`: `listed` is the device list of an ok reply, or nothing when the
        request fails or is not ok. A success replaces the list and clears the error; a
        failure keeps the old list and sets the error; loading ends either way. */
    method FetchDevices(listed: Option<seq<Device>>)
      modifies this
      ensures listed.Some? ==> devices == listed.value && !error
      ensures listed.None? ==> devices == old(devices) && error
      ensures !loading && search == old(search)
    {
      error := false;
      if listed.Some? {
        devices := listed.value;
      } else {
        error := true;
      }
      loading := false;
    }
  }
}
