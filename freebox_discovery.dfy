/** Discovery of the things behind a Freebox server: the wired phone line, the LAN hosts
    and their layer-3 interfaces, and the AirPlay receivers that accept pushed media.
    A discovery scan turns one snapshot of the Freebox data into an ordered sequence of
    discovery results; four configuration toggles switch each category on or off. */
module FreeboxDiscovery {
  import opened Wrappers

  // ---------------------------------------------------------------------------
  // Snapshot data reported by the Freebox (nullable fields are Options)
  // ---------------------------------------------------------------------------

  /** One layer-3 connectivity of a LAN host. */
  datatype L3Connectivity = L3Connectivity(addr: Option<string>)

  /** One LAN host configuration. */
  datatype LanHost = LanHost(
    mac: Option<string>,
    primaryName: Option<string>,
    vendorName: Option<string>,
    l3connectivities: Option<seq<L3Connectivity>>)

  /** One AirMedia receiver; `videoCapable` is a nullable Boolean. */
  datatype AirMediaReceiver = AirMediaReceiver(name: Option<string>, videoCapable: Option<bool>)

  // ---------------------------------------------------------------------------
  // Discovery results
  // ---------------------------------------------------------------------------

  /** The thing type of a discovered thing. */
  datatype ThingKind = Phone | NetDevice | NetInterface | AirPlay

  /** The property names a discovery result may carry. */
  datatype PropertyKey = Vendor | MacAddress | IpAddress | ReceiverName

  /** A discovery result: the thing UID is (kind, bridge, id); then label and properties. */
  datatype DiscoveryResult = DiscoveryResult(
    kind: ThingKind,
    bridge: string,
    id: string,
    labelText: string,
    properties: map<PropertyKey, string>)

  /** The four discovery toggles, as one value. */
  datatype Toggles = Toggles(phone: bool, netDevice: bool, netInterface: bool, airPlay: bool)

  /** The configuration keys read by applyConfig. */
  datatype ConfigKey = DiscoverPhone | DiscoverNetDevice | DiscoverNetInterface | DiscoverAirPlayReceiver

  const PhoneId: string := "wired"
  const PhoneLabel: string := "Wired phone"
  const NetDevicePrefix: string := "Freebox Network Device "
  const AirPlaySuffix: string := " (AirPlay)"

  // ---------------------------------------------------------------------------
  // Pure helpers: emptiness, UID sanitisation, labels
  // ---------------------------------------------------------------------------

  /** StringUtils.isNotEmpty: not null and at least one character. */
  predicate NotEmpty(s: Option<string>) {
    s.Some? && |s.value| > 0
  }

  /** The characters a thing UID segment may keep: [A-Za-z0-9_]. */
  predicate IsUidChar(c: char) {
    ('A' <= c <= 'Z') || ('a' <= c <= 'z') || ('0' <= c <= '9') || c == '_'
  }

  /** A string made only of UID characters. */
  predicate IsUid(s: string) {
    forall i :: 0 <= i < |s| ==> IsUidChar(s[i])
  }

  /** One character of a sanitised string: itself when allowed, else '_'. */
  function SanitizeChar(c: char): char {
    if IsUidChar(c) then c else '_'
  }

  /** replaceAll("[^A-Za-z0-9_]", "_"): every character outside the UID alphabet becomes '_'. */
  function Sanitize(s: string): (r: string)
    ensures |r| == |s|
    ensures forall i :: 0 <= i < |s| ==> r[i] == SanitizeChar(s[i])
  {
    seq(|s|, i requires 0 <= i < |s| => SanitizeChar(s[i]))
  }

  /** The label of a net device: its primary name, or a placeholder built from the MAC. */
  function DeviceLabel(mac: string, primaryName: Option<string>): (labelText: string)
    ensures NotEmpty(primaryName) ==> labelText == primaryName.value
    ensures !NotEmpty(primaryName) ==> labelText == NetDevicePrefix + mac
  {
    if !NotEmpty(primaryName) then NetDevicePrefix + mac else primaryName.value
  }

  /** The label of a net interface: its address, followed by the host's primary name in parentheses. */
  function InterfaceLabel(addr: string, primaryName: Option<string>): (labelText: string)
    ensures NotEmpty(primaryName) ==> labelText == addr + " (" + primaryName.value + ")"
    ensures !NotEmpty(primaryName) ==> labelText == addr
  {
    if NotEmpty(primaryName) then addr + " (" + (primaryName.value + ")") else addr
  }

  /** The vendor property, present only when the vendor name is not empty. */
  function VendorProperty(vendorName: Option<string>): (m: map<PropertyKey, string>)
    ensures Vendor in m <==> NotEmpty(vendorName)
    ensures Vendor in m ==> m[Vendor] == vendorName.value
    ensures m.Keys <= {Vendor}
  {
    if NotEmpty(vendorName) then map[Vendor := vendorName.value] else map[]
  }

  // ---------------------------------------------------------------------------
  // The result built for each kind of thing
  // ---------------------------------------------------------------------------

  /** The wired phone line, which every Freebox server has. */
  function PhoneResult(bridge: string): DiscoveryResult {
    DiscoveryResult(Phone, bridge, PhoneId, PhoneLabel, map[])
  }

  /** A LAN host as a net device: keyed by its sanitised MAC, which it carries as a property. */
  function NetDeviceResult(bridge: string, host: LanHost, mac: string): DiscoveryResult {
    DiscoveryResult(NetDevice, bridge, Sanitize(mac), DeviceLabel(mac, host.primaryName),
                    VendorProperty(host.vendorName)[MacAddress := mac])
  }

  /** One address of a LAN host as a net interface: keyed by its sanitised address, which it
      carries as a property. */
  function NetInterfaceResult(bridge: string, host: LanHost, addr: string): DiscoveryResult {
    DiscoveryResult(NetInterface, bridge, Sanitize(addr), InterfaceLabel(addr, host.primaryName),
                    VendorProperty(host.vendorName)[IpAddress := addr])
  }

  /** An AirPlay receiver: keyed by its sanitised name, labelled with the AirPlay suffix. */
  function AirPlayResult(bridge: string, name: string): DiscoveryResult {
    DiscoveryResult(AirPlay, bridge, Sanitize(name), name + AirPlaySuffix, map[ReceiverName := name])
  }

  /** Only receivers with a name and video capability exactly TRUE accept pushed media. */
  predicate Pushable(device: AirMediaReceiver) {
    NotEmpty(device.name) && device.videoCapable == Some(true)
  }

  // ---------------------------------------------------------------------------
  // The scan, as a specification: the results in the order they are emitted
  // ---------------------------------------------------------------------------

  /** The interface results of one host, over its connectivities with a non-empty address. */
  function InterfaceResults(bridge: string, host: LanHost, l3s: seq<L3Connectivity>): seq<DiscoveryResult>
  {
    if l3s == [] then []
    else
      var l3 := l3s[|l3s| - 1];
      InterfaceResults(bridge, host, l3s[..|l3s| - 1])
        + (if NotEmpty(l3.addr) then [NetInterfaceResult(bridge, host, l3.addr.value)] else [])
  }

  /** The net device result of a host, when that category is on. */
  function DeviceResults(bridge: string, t: Toggles, host: LanHost): seq<DiscoveryResult>
    requires NotEmpty(host.mac)
  {
    if t.netDevice then [NetDeviceResult(bridge, host, host.mac.value)] else []
  }

  /** The interface results of a host, when that category is on and it lists connectivities. */
  function HostInterfaceResults(bridge: string, t: Toggles, host: LanHost): seq<DiscoveryResult>
  {
    if host.l3connectivities.Some? && t.netInterface
    then InterfaceResults(bridge, host, host.l3connectivities.value) else []
  }

  /** The results of one host: nothing without a MAC, else its device then its interfaces. */
  function HostResults(bridge: string, t: Toggles, host: LanHost): seq<DiscoveryResult>
  {
    if !NotEmpty(host.mac) then []
    else
      DeviceResults(bridge, t, host) + HostInterfaceResults(bridge, t, host)
  }

  /** The results of a list of hosts, host after host. */
  function HostsResults(bridge: string, t: Toggles, hosts: seq<LanHost>): seq<DiscoveryResult>
  {
    if hosts == [] then []
    else HostsResults(bridge, t, hosts[..|hosts| - 1]) + HostResults(bridge, t, hosts[|hosts| - 1])
  }

  /** The results of a list of AirPlay receivers, keeping the pushable ones. */
  function AirPlayResults(bridge: string, devices: seq<AirMediaReceiver>): seq<DiscoveryResult>
  {
    if devices == [] then []
    else
      var device := devices[|devices| - 1];
      AirPlayResults(bridge, devices[..|devices| - 1])
        + (if Pushable(device) then [AirPlayResult(bridge, device.name.value)] else [])
  }

  /** The phone category of a scan. */
  function PhoneResults(b: string, t: Toggles): seq<DiscoveryResult> {
    if t.phone then [PhoneResult(b)] else []
  }

  /** The LAN categories of a scan: visited only with a host list and one of their toggles on. */
  function LanResults(b: string, t: Toggles, hostsConfig: Option<seq<LanHost>>): seq<DiscoveryResult> {
    if hostsConfig.Some? && (t.netDevice || t.netInterface) then HostsResults(b, t, hostsConfig.value) else []
  }

  /** The AirPlay category of a scan. */
  function AirResults(b: string, t: Toggles, airPlayDevices: Option<seq<AirMediaReceiver>>): seq<DiscoveryResult> {
    if airPlayDevices.Some? && t.airPlay then AirPlayResults(b, airPlayDevices.value) else []
  }

  /** Everything one scan emits, in order: the phone, the hosts, the AirPlay receivers. */
  function Discover(t: Toggles, bridge: Option<string>, hostsConfig: Option<seq<LanHost>>,
                    airPlayDevices: Option<seq<AirMediaReceiver>>): seq<DiscoveryResult>
  {
    if bridge.None? then []
    else
      var b := bridge.value;
      PhoneResults(b, t) + LanResults(b, t, hostsConfig) + AirResults(b, t, airPlayDevices)
  }

  /** The value a toggle takes from a configuration map: the key's Boolean when the map and
      the value are not null, else the prior value. */
  function Configured(prior: bool, config: Option<map<ConfigKey, Option<bool>>>, key: ConfigKey): bool
  {
    if config.Some? && key in config.value && config.value[key].Some? then config.value[key].value
    else prior
  }

  // ---------------------------------------------------------------------------
  // The scan, step by step
  // ---------------------------------------------------------------------------

  /** The interface results of one host, one per connectivity with an address, in list order. */
  method DiscoverInterfaces(b: string, hostConfig: LanHost, l3s: seq<L3Connectivity>)
    returns (results: seq<DiscoveryResult>)
    ensures results == InterfaceResults(b, hostConfig, l3s)
  {
    results := [];
    for j := 0 to |l3s|
      invariant results == InterfaceResults(b, hostConfig, l3s[..j])
    {
      var addr := l3s[j].addr;
      if NotEmpty(addr) {
        var uid := Sanitize(addr.value);
        var name := InterfaceLabel(addr.value, hostConfig.primaryName);
        var properties: map<PropertyKey, string> := map[];
        if NotEmpty(hostConfig.vendorName) {
          properties := properties[Vendor := hostConfig.vendorName.value];
        }
        properties := properties[IpAddress := addr.value];
        results := results + [DiscoveryResult(NetInterface, b, uid, name, properties)];
      }
      assert l3s[..j + 1][..j] == l3s[..j];
    }
    assert l3s[..|l3s|] == l3s;
  }

  /** The results one LAN host contributes, in the order they are emitted: its net device
      then its interfaces; nothing when its MAC is empty. */
  method DiscoverHost(b: string, t: Toggles, hostConfig: LanHost) returns (results: seq<DiscoveryResult>)
    ensures results == HostResults(b, t, hostConfig)
  {
    results := [];
    if NotEmpty(hostConfig.mac) {
      var mac := hostConfig.mac.value;
      if t.netDevice {
        var uid := Sanitize(mac);
        var name := DeviceLabel(mac, hostConfig.primaryName);
        var properties: map<PropertyKey, string> := map[];
        if NotEmpty(hostConfig.vendorName) {
          properties := properties[Vendor := hostConfig.vendorName.value];
        }
        properties := properties[MacAddress := mac];
        results := results + [DiscoveryResult(NetDevice, b, uid, name, properties)];
      }
      ghost var device := results;
      assert device == DeviceResults(b, t, hostConfig);

      ghost var interfaces: seq<DiscoveryResult> := [];
      if hostConfig.l3connectivities.Some? && t.netInterface {
        var interfaceResults := DiscoverInterfaces(b, hostConfig, hostConfig.l3connectivities.value);
        results := results + interfaceResults;
        interfaces := interfaceResults;
      }
      assert interfaces == HostInterfaceResults(b, t, hostConfig);
    }
  }

  /** The results the LAN hosts contribute, host after host. */
  method DiscoverHosts(b: string, t: Toggles, hosts: seq<LanHost>) returns (results: seq<DiscoveryResult>)
    ensures results == HostsResults(b, t, hosts)
  {
    results := [];
    for i := 0 to |hosts|
      invariant results == HostsResults(b, t, hosts[..i])
    {
      var hostResults := DiscoverHost(b, t, hosts[i]);
      results := results + hostResults;
      assert hosts[..i + 1][..i] == hosts[..i];
    }
    assert hosts[..|hosts|] == hosts;
  }

  /** The results the AirPlay receivers contribute: the pushable ones, in list order. */
  method DiscoverAirPlay(b: string, devices: seq<AirMediaReceiver>) returns (results: seq<DiscoveryResult>)
    ensures results == AirPlayResults(b, devices)
  {
    results := [];
    for i := 0 to |devices|
      invariant results == AirPlayResults(b, devices[..i])
    {
      var device := devices[i];
      var name := device.name;
      var videoCapable := device.videoCapable;
      if NotEmpty(name) && videoCapable == Some(true) {
        var uid := Sanitize(name.value);
        var properties: map<PropertyKey, string> := map[];
        properties := properties[ReceiverName := name.value];
        results := results + [DiscoveryResult(AirPlay, b, uid, name.value + AirPlaySuffix, properties)];
      }
      assert devices[..i + 1][..i] == devices[..i];
    }
    assert devices[..|devices|] == devices;
  }

  // ---------------------------------------------------------------------------
  // The discovery service
  // ---------------------------------------------------------------------------

  class DiscoveryService {
    var discoverPhone: bool
    var discoverNetDevice: bool
    var discoverNetInterface: bool
    var discoverAirPlayReceiver: bool

    /** The toggles, as one value. */
    function Settings(): Toggles
      reads this
    {
      Toggles(discoverPhone, discoverNetDevice, discoverNetInterface, discoverAirPlayReceiver)
    }

    /** A new service discovers every category. */
    constructor ()
      ensures Settings() == Toggles(true, true, true, true)
    {
      discoverPhone := true;
      discoverNetDevice := true;
      discoverNetInterface := true;
      discoverAirPlayReceiver := true;
    }

    /** Overwrites each toggle whose key the configuration holds with a non-null value. */
    method ApplyConfig(config: Option<map<ConfigKey, Option<bool>>>)
      modifies this
      ensures discoverPhone == Configured(old(discoverPhone), config, DiscoverPhone)
      ensures discoverNetDevice == Configured(old(discoverNetDevice), config, DiscoverNetDevice)
      ensures discoverNetInterface == Configured(old(discoverNetInterface), config, DiscoverNetInterface)
      ensures discoverAirPlayReceiver
              == Configured(old(discoverAirPlayReceiver), config, DiscoverAirPlayReceiver)
    {
      if config.Some? {
        var properties := config.value;
        if DiscoverPhone in properties && properties[DiscoverPhone].Some? {
          discoverPhone := properties[DiscoverPhone].value;
        }
        if DiscoverNetDevice in properties && properties[DiscoverNetDevice].Some? {
          discoverNetDevice := properties[DiscoverNetDevice].value;
        }
        if DiscoverNetInterface in properties && properties[DiscoverNetInterface].Some? {
          discoverNetInterface := properties[DiscoverNetInterface].value;
        }
        if DiscoverAirPlayReceiver in properties && properties[DiscoverAirPlayReceiver].Some? {
          discoverAirPlayReceiver := properties[DiscoverAirPlayReceiver].value;
        }
      }
    }

    /** Handles one data snapshot; `discovered` is the sequence of results handed to the
        discovery inbox, one append per thingDiscovered call. */
    method OnDataFetched(bridge: Option<string>, hostsConfig: Option<seq<LanHost>>,
                         airPlayDevices: Option<seq<AirMediaReceiver>>)
      returns (discovered: seq<DiscoveryResult>)
      ensures discovered == Discover(Settings(), bridge, hostsConfig, airPlayDevices)
    {
      discovered := [];
      if bridge.None? {
        return;
      }
      var b := bridge.value;
      var t := Settings();

      if t.phone {
        discovered := discovered + [DiscoveryResult(Phone, b, PhoneId, PhoneLabel, map[])];
      }
      assert discovered == PhoneResults(b, t);

      var lan: seq<DiscoveryResult> := [];
      if hostsConfig.Some? && (t.netDevice || t.netInterface) {
        lan := DiscoverHosts(b, t, hostsConfig.value);
      }
      assert lan == LanResults(b, t, hostsConfig);

      var air: seq<DiscoveryResult> := [];
      if airPlayDevices.Some? && t.airPlay {
        air := DiscoverAirPlay(b, airPlayDevices.value);
      }
      assert air == AirResults(b, t, airPlayDevices);

      discovered := discovered + lan + air;
    }
  }
}
