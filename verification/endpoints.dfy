/**
 * The endpoint directory: `get_default_endpoint` and `get_endpoint_list`.
 * Every backend call is replaced by the status code (and value) it
 * returned; a failed status ends the query as `exit_on_failed` does.
 */
module Endpoints {
  import opened WinTypes

  /** The two data flows enumerated, in this order. */
  datatype DataFlow = Render | Capture

  /** An active device as read from the collection: its id and friendly name. */
  datatype Device = Device(id: string, name: string)

  /** One entry of `endpoint_list_t`: the device id and its labelled name. */
  type Entry = (string, string)

  /** The appended endpoint list and the returned `default_index`. */
  datatype Listing = Listing(entries: seq<Entry>, defaultIndex: int)

  /** The replies to the calls of `get_default_endpoint`. */
  datatype DefaultReply = DefaultReply(
    createHr: HRESULT,   // CoCreateInstance of the enumerator
    lookupHr: HRESULT,   // GetDefaultAudioEndpoint(eRender, eConsole)
    idHr: HRESULT,       // GetId
    id: string)

  /** The replies to the four calls made per device of a collection. */
  datatype DeviceReply = DeviceReply(
    itemHr: HRESULT,     // Item(i)
    idHr: HRESULT,       // GetId
    propsHr: HRESULT,    // OpenPropertyStore
    nameHr: HRESULT,     // GetValue(PKEY_Device_FriendlyName)
    id: string,
    name: string)

  /** The replies to the calls made for one data flow, in call order. */
  datatype FlowReply = FlowReply(
    createHr: HRESULT,   // CoCreateInstance of the enumerator
    enumHr: HRESULT,     // EnumAudioEndpoints(flow, DEVICE_STATE_ACTIVE)
    countHr: HRESULT,    // GetCount
    defaultReply: DefaultReply,  // the get_default_endpoint call made for this flow
    devices: seq<DeviceReply>)

  /** The label put in front of a device name of the given flow. */
  function Label(flow: DataFlow): string {
    if flow == Render then "[Playback]" else "[Recording]"
  }

  /** The entry appended for a device of the given flow. */
  function Labelled(flow: DataFlow, d: Device): Entry {
    (d.id, Label(flow) + " " + d.name)
  }

  /**
   * The entries appended for a collection of one flow: one per device, in
   * collection order, each the device id with the flow's label and a space
   * in front of its name.
   */
  function LabelAll(flow: DataFlow, devices: seq<Device>): (r: seq<Entry>)
    ensures |r| == |devices|
    ensures forall k :: 0 <= k < |devices| ==> r[k] == (devices[k].id, Label(flow) + " " + devices[k].name)
  {
    if |devices| == 0 then [] else [Labelled(flow, devices[0])] + LabelAll(flow, devices[1..])
  }

  /** The two labels spelled out. */
  lemma LabelText(d: Device)
    ensures Labelled(Render, d).1 == "[Playback] " + d.name
    ensures Labelled(Capture, d).1 == "[Recording] " + d.name
  {
    assert "[Playback]" + " " + d.name == "[Playback] " + d.name;
    assert "[Recording]" + " " + d.name == "[Recording] " + d.name;
  }

  // ---------------------------------------------------------------------
  // get_default_endpoint

  /** Every call of `get_default_endpoint` goes through, or the lookup reports "not found". */
  predicate DefaultSucceeds(q: DefaultReply) {
    && !Failed(q.createHr)
    && (q.lookupHr == NotFound() || (!Failed(q.lookupHr) && !Failed(q.idHr)))
  }

  /**
   * `get_default_endpoint`: the id of the default console render device,
   * the empty string when the lookup reports ERROR_NOT_FOUND, and a fatal
   * exit on any other failed call.
   */
  function GetDefaultEndpoint(q: DefaultReply): (r: Checked<string>)
    ensures r.Ok? <==> DefaultSucceeds(q)
    ensures r.Ok? && q.lookupHr == NotFound() ==> r.value == ""
    ensures r.Ok? && q.lookupHr != NotFound() ==> r.value == q.id
    ensures r.Fatal? ==> r.hr in {q.createHr, q.lookupHr, q.idHr} && Failed(r.hr)
  {
    if Failed(q.createHr) then Fatal(q.createHr)
    else if q.lookupHr == NotFound() then Ok("")
    else if Failed(q.lookupHr) then Fatal(q.lookupHr)
    else if Failed(q.idHr) then Fatal(q.idHr)
    else Ok(q.id)
  }

  /** The id `get_default_endpoint` yields when it succeeds. */
  function DefaultId(q: DefaultReply): string {
    if q.lookupHr == NotFound() then "" else q.id
  }

  // ---------------------------------------------------------------------
  // Reading the collections

  /** All four per-device calls succeed. */
  predicate DeviceSucceeds(d: DeviceReply) {
    !Failed(d.itemHr) && !Failed(d.idHr) && !Failed(d.propsHr) && !Failed(d.nameHr)
  }

  /** Reads one device; the first failed call of the four is fatal. */
  function ReadDevice(d: DeviceReply): (r: Checked<Device>)
    ensures r.Ok? <==> DeviceSucceeds(d)
    ensures r.Ok? ==> r.value == Device(d.id, d.name)
    ensures r.Fatal? ==> Failed(r.hr)
  {
    if Failed(d.itemHr) then Fatal(d.itemHr)
    else if Failed(d.idHr) then Fatal(d.idHr)
    else if Failed(d.propsHr) then Fatal(d.propsHr)
    else if Failed(d.nameHr) then Fatal(d.nameHr)
    else Ok(Device(d.id, d.name))
  }

  /**
   * Reads a collection in index order. It succeeds with every device, in
   * order, when all reads succeed, and otherwise fails with the status of
   * the first device whose read fails.
   */
  function ReadDevices(ds: seq<DeviceReply>): (r: Checked<seq<Device>>)
    ensures r.Ok? <==> forall k :: 0 <= k < |ds| ==> DeviceSucceeds(ds[k])
    ensures r.Ok? ==> |r.value| == |ds| && forall k :: 0 <= k < |ds| ==> r.value[k] == Device(ds[k].id, ds[k].name)
    ensures r.Fatal? ==> exists k :: 0 <= k < |ds| && ReadDevice(ds[k]) == Fatal(r.hr)
                                    && forall j :: 0 <= j < k ==> DeviceSucceeds(ds[j])
  {
    if |ds| == 0 then Ok([])
    else
      match ReadDevice(ds[0])
      case Fatal(hr) => Fatal(hr)
      case Ok(d) =>
        match ReadDevices(ds[1..])
        case Fatal(hr) =>
          assert forall k :: 1 <= k < |ds| ==> ds[1..][k - 1] == ds[k];
          Fatal(hr)
        case Ok(rest) => Ok([d] + rest)
  }

  /** All calls made for one flow succeed (the default lookup may report "not found"). */
  predicate FlowSucceeds(f: FlowReply) {
    && !Failed(f.createHr) && !Failed(f.enumHr) && !Failed(f.countHr)
    && DefaultSucceeds(f.defaultReply)
    && forall k :: 0 <= k < |f.devices| ==> DeviceSucceeds(f.devices[k])
  }

  /** The devices of a flow whose reads all succeed. */
  function Devices(f: FlowReply): (r: seq<Device>)
    ensures |r| == |f.devices|
    ensures forall k :: 0 <= k < |r| ==> r[k] == Device(f.devices[k].id, f.devices[k].name)
  {
    seq(|f.devices|, k requires 0 <= k < |f.devices| => Device(f.devices[k].id, f.devices[k].name))
  }

  // ---------------------------------------------------------------------
  // The per-flow scan

  /** Appending one device's entry and then the rest's is appending from `i` on. */
  lemma ScanStep(flow: DataFlow, devices: seq<Device>, i: nat, entries: seq<Entry>)
    requires i < |devices|
    ensures (entries + [Labelled(flow, devices[i])]) + LabelAll(flow, devices[i + 1..])
         == entries + LabelAll(flow, devices[i..])
  {
    assert devices[i..][1..] == devices[i + 1..];
    assert LabelAll(flow, devices[i..]) == [Labelled(flow, devices[i])] + LabelAll(flow, devices[i + 1..]);
  }

  /**
   * The inner `for` loop of `get_endpoint_list`, from index `i` on: it
   * appends each device's labelled entry and sets the index to `i`
   * whenever the device's id equals `defaultId`. The result holds the
   * position of the last match within THIS collection, or the incoming
   * `index` if nothing from `i` on matches.
   */
  function ScanDevices(flow: DataFlow, devices: seq<Device>, defaultId: string,
                       i: nat, entries: seq<Entry>, index: int): (r: Listing)
    requires i <= |devices|
    ensures r.entries == entries + LabelAll(flow, devices[i..])
    ensures (forall k :: i <= k < |devices| ==> devices[k].id != defaultId) ==> r.defaultIndex == index
    ensures (exists k :: i <= k < |devices| && devices[k].id == defaultId) ==>
              && i <= r.defaultIndex < |devices|
              && devices[r.defaultIndex].id == defaultId
              && forall k :: r.defaultIndex < k < |devices| ==> devices[k].id != defaultId
    decreases |devices| - i
  {
    if i == |devices| then
      Listing(entries, index)
    else
      var entries' := entries + [Labelled(flow, devices[i])];
      var index' := if devices[i].id == defaultId then i else index;
      ScanStep(flow, devices, i, entries);
      ScanDevices(flow, devices, defaultId, i + 1, entries', index')
  }

  /**
   * The two flows assembled as written: render devices then capture
   * devices are appended to `list`, and `default_index` is reset to -1
   * before each flow, so only the capture scan decides it.
   */
  function Assemble(list: seq<Entry>, render: seq<Device>, renderDefault: string,
                    capture: seq<Device>, captureDefault: string): (r: Listing)
    ensures r.entries == list + LabelAll(Render, render) + LabelAll(Capture, capture)
    ensures r.defaultIndex == -1 <==> forall k :: 0 <= k < |capture| ==> capture[k].id != captureDefault
    ensures r.defaultIndex != -1 ==>
              && 0 <= r.defaultIndex < |capture|
              && capture[r.defaultIndex].id == captureDefault
              && forall k :: r.defaultIndex < k < |capture| ==> capture[k].id != captureDefault
  {
    var afterRender := ScanDevices(Render, render, renderDefault, 0, list, -1);
    var r := ScanDevices(Capture, capture, captureDefault, 0, afterRender.entries, -1);
    assert render[0..] == render && capture[0..] == capture;
    r
  }

  // ---------------------------------------------------------------------
  // get_endpoint_list

  /** Every call `get_endpoint_list` makes goes through. */
  predicate ListingSucceeds(first: DefaultReply, render: FlowReply, capture: FlowReply) {
    DefaultSucceeds(first) && FlowSucceeds(render) && FlowSucceeds(capture)
  }

  /** The status of the enumerator, collection and count calls of one flow. */
  function FlowCalls(f: FlowReply): (r: Checked<()>)
    ensures r.Ok? <==> !Failed(f.createHr) && !Failed(f.enumHr) && !Failed(f.countHr)
  {
    if Failed(f.createHr) then Fatal(f.createHr)
    else if Failed(f.enumHr) then Fatal(f.enumHr)
    else if Failed(f.countHr) then Fatal(f.countHr)
    else Ok(())
  }

  /**
   * Reads one flow in call order: enumerator, collection, count, the
   * default id (re-queried per flow), then every device.
   */
  function ReadFlow(f: FlowReply): (r: Checked<(seq<Device>, string)>)
    ensures r.Ok? <==> FlowSucceeds(f)
    ensures r.Ok? ==> r.value == (Devices(f), DefaultId(f.defaultReply))
  {
    match FlowCalls(f)
    case Fatal(hr) => Fatal(hr)
    case Ok(_) =>
      match GetDefaultEndpoint(f.defaultReply)
      case Fatal(hr) => Fatal(hr)
      case Ok(defaultId) =>
        match ReadDevices(f.devices)
        case Fatal(hr) => Fatal(hr)
        case Ok(devices) =>
          assert devices == Devices(f);
          Ok((devices, defaultId))
  }

  /**
   * `get_endpoint_list`: appends every render device and then every
   * capture device to the caller's `list`, labelled "[Playback] " and
   * "[Recording] ", and returns as `default_index` the in-group position of
   * the last capture device whose id equals the default id queried for the
   * capture flow, or -1. The caller's entries are kept in front. Any failed
   * call ends the query.
   */
  function GetEndpointList(list: seq<Entry>, first: DefaultReply,
                           render: FlowReply, capture: FlowReply): (r: Checked<Listing>)
    ensures r.Ok? <==> ListingSucceeds(first, render, capture)
    ensures r.Fatal? ==> Failed(r.hr)
    ensures r.Ok? ==>
      var l := r.value;
      var cs := capture.devices;
      var cd := DefaultId(capture.defaultReply);
      && l.entries == list + LabelAll(Render, Devices(render)) + LabelAll(Capture, Devices(capture))
      && (l.defaultIndex == -1 <==> forall k :: 0 <= k < |cs| ==> cs[k].id != cd)
      && (l.defaultIndex != -1 ==>
            && 0 <= l.defaultIndex < |cs|
            && cs[l.defaultIndex].id == cd
            && forall k :: l.defaultIndex < k < |cs| ==> cs[k].id != cd)
  {
    match GetDefaultEndpoint(first)  // the value is overwritten before use
    case Fatal(hr) => Fatal(hr)
    case Ok(_) =>
      match ReadFlow(render)
      case Fatal(hr) => Fatal(hr)
      case Ok((rs, rd)) =>
        match ReadFlow(capture)
        case Fatal(hr) => Fatal(hr)
        case Ok((cs, cd)) => Ok(Assemble(list, rs, rd, cs, cd))
  }

  /**
   * The render group never influences `default_index`: two queries that
   * differ only in their render flow return the same index.
   */
  lemma RenderGroupIgnored(list: seq<Entry>, first: DefaultReply,
                           render1: FlowReply, render2: FlowReply, capture: FlowReply)
    requires ListingSucceeds(first, render1, capture) && ListingSucceeds(first, render2, capture)
    ensures GetEndpointList(list, first, render1, capture).value.defaultIndex
         == GetEndpointList(list, first, render2, capture).value.defaultIndex
  {
  }

  // ---------------------------------------------------------------------
  // The index the name `default_index` suggests

  /**
   * The listing with `default_index` as its name suggests: the position,
   * in the returned list, of the entry of the default PLAYBACK device (the
   * last render entry with that id), or -1 if no render device has it.
   */
  function ListEndpointsIntended(list: seq<Entry>, render: seq<Device>,
                                 capture: seq<Device>, defaultId: string): (r: Listing)
    ensures r.entries == list + LabelAll(Render, render) + LabelAll(Capture, capture)
    ensures r.defaultIndex == -1 <==> forall k :: 0 <= k < |render| ==> render[k].id != defaultId
    ensures r.defaultIndex != -1 ==>
              && |list| <= r.defaultIndex < |list| + |render|
              && r.entries[r.defaultIndex] == Labelled(Render, render[r.defaultIndex - |list|])
              && r.entries[r.defaultIndex].0 == defaultId
              && forall k :: r.defaultIndex - |list| < k < |render| ==> render[k].id != defaultId
  {
    var afterRender := ScanDevices(Render, render, defaultId, 0, list, -1);
    var r := ScanDevices(Capture, capture, defaultId, 0, afterRender.entries, -1);
    assert render[0..] == render && capture[0..] == capture;
    var index := if afterRender.defaultIndex == -1 then -1 else |list| + afterRender.defaultIndex;
    Listing(r.entries, index)
  }

  /**
   * The as-written index loses the default playback device: with one
   * speaker "A" that is the default and one microphone "B", the list has
   * the speaker at position 0 but `default_index` is -1.
   */
  lemma DefaultPlaybackNotReported()
    ensures var render := [Device("A", "Speakers")];
            var capture := [Device("B", "Microphone")];
            && Assemble([], render, "A", capture, "A").defaultIndex == -1
            && ListEndpointsIntended([], render, capture, "A").defaultIndex == 0
            && Assemble([], render, "A", capture, "A").entries[0].0 == "A"
  {
    var render := [Device("A", "Speakers")];
    var capture := [Device("B", "Microphone")];
    assert capture[0].id != "A";
    assert render[0].id == "A";
  }
}
