/** What a Freebox discovery scan emits, stated per category and proved about the
    specification `Discover` that `DiscoveryService.OnDataFetched` is verified against. */
module FreeboxDiscoveryProperties {
  import opened Wrappers
  import opened FreeboxDiscovery

  // ---------------------------------------------------------------------------
  // Which inputs a result comes from
  // ---------------------------------------------------------------------------

  /** r is the interface result of some connectivity of `host` with a non-empty address. */
  ghost predicate InterfaceOf(b: string, host: LanHost, l3s: seq<L3Connectivity>, r: DiscoveryResult) {
    exists j :: 0 <= j < |l3s| && NotEmpty(l3s[j].addr) && r == NetInterfaceResult(b, host, l3s[j].addr.value)
  }

  /** r is the device result of `host`, which has a non-empty MAC. */
  ghost predicate DeviceOfHost(b: string, host: LanHost, r: DiscoveryResult) {
    NotEmpty(host.mac) && r == NetDeviceResult(b, host, host.mac.value)
  }

  /** r is an interface result of `host`, which has a non-empty MAC and a non-null
      connectivity list. */
  ghost predicate InterfaceOfHost(b: string, host: LanHost, r: DiscoveryResult) {
    NotEmpty(host.mac) && host.l3connectivities.Some? && InterfaceOf(b, host, host.l3connectivities.value, r)
  }

  /** r is the device result of some host. */
  ghost predicate DeviceOf(b: string, hosts: seq<LanHost>, r: DiscoveryResult) {
    exists i :: 0 <= i < |hosts| && DeviceOfHost(b, hosts[i], r)
  }

  /** r is an interface result of some host. */
  ghost predicate HostInterfaceOf(b: string, hosts: seq<LanHost>, r: DiscoveryResult) {
    exists i :: 0 <= i < |hosts| && InterfaceOfHost(b, hosts[i], r)
  }

  /** r is the result of some pushable receiver. */
  ghost predicate ReceiverOf(b: string, devices: seq<AirMediaReceiver>, r: DiscoveryResult) {
    exists i :: 0 <= i < |devices| && Pushable(devices[i]) && r == AirPlayResult(b, devices[i].name.value)
  }

  /** The position of a category in the emission order. */
  function Rank(kind: ThingKind): nat {
    match kind
    case Phone => 0
    case NetDevice => 1
    case NetInterface => 1
    case AirPlay => 2
  }

  // ---------------------------------------------------------------------------
  // UID sanitisation
  // ---------------------------------------------------------------------------

  /** A sanitised string is a valid UID segment. */
  lemma SanitizeYieldsUid(s: string)
    ensures IsUid(Sanitize(s))
  {
  }

  /** A string that already is a UID segment is left unchanged. */
  lemma SanitizeKeepsUid(s: string)
    requires IsUid(s)
    ensures Sanitize(s) == s
  {
  }

  /** Sanitising twice is sanitising once. */
  lemma SanitizeIdempotent(s: string)
    ensures Sanitize(Sanitize(s)) == Sanitize(s)
  {
    SanitizeYieldsUid(s);
    SanitizeKeepsUid(Sanitize(s));
  }

  /** Keys already made of UID characters keep distinct identifiers. */
  lemma SanitizeInjectiveOnUids(s: string, u: string)
    requires IsUid(s) && IsUid(u) && s != u
    ensures Sanitize(s) != Sanitize(u)
  {
    SanitizeKeepsUid(s);
    SanitizeKeepsUid(u);
  }

  /** Sanitisation is not injective: two different keys can share an identifier. */
  lemma SanitizeNotInjective()
    ensures "a:b" != "a-b" && Sanitize("a:b") == Sanitize("a-b")
  {
    assert "a:b"[1] != "a-b"[1];
    assert Sanitize("a:b") == "a_b" by {
      assert !IsUidChar(':');
    }
    assert Sanitize("a-b") == "a_b" by {
      assert !IsUidChar('-');
    }
  }

  // ---------------------------------------------------------------------------
  // The result of each kind of thing
  // ---------------------------------------------------------------------------

  /** The phone result: id "wired", label "Wired phone", no property. */
  lemma PhoneResultShape(b: string)
    ensures var r := PhoneResult(b);
            r.kind == Phone && r.bridge == b && r.id == "wired" && r.labelText == "Wired phone"
            && r.properties == map[]
  {
  }

  /** A net device is keyed by its sanitised MAC and labelled with the host's primary name or a
      placeholder; it always carries the MAC, and the vendor exactly when that is not empty. */
  lemma NetDeviceResultShape(b: string, host: LanHost, mac: string)
    ensures var r := NetDeviceResult(b, host, mac);
            r.kind == NetDevice && r.bridge == b && r.id == Sanitize(mac) && IsUid(r.id)
            && r.labelText == (if NotEmpty(host.primaryName) then host.primaryName.value
                               else "Freebox Network Device " + mac)
            && MacAddress in r.properties && r.properties[MacAddress] == mac
            && (Vendor in r.properties <==> NotEmpty(host.vendorName))
            && (Vendor in r.properties ==> r.properties[Vendor] == host.vendorName.value)
            && r.properties.Keys <= {Vendor, MacAddress}
  {
    SanitizeYieldsUid(mac);
  }

  /** A net interface is keyed by its sanitised address and labelled with the address and the
      host's primary name; it always carries the address, and the vendor exactly when that is
      not empty. */
  lemma NetInterfaceResultShape(b: string, host: LanHost, addr: string)
    ensures var r := NetInterfaceResult(b, host, addr);
            r.kind == NetInterface && r.bridge == b && r.id == Sanitize(addr) && IsUid(r.id)
            && r.labelText == (if NotEmpty(host.primaryName) then addr + " (" + host.primaryName.value + ")"
                               else addr)
            && IpAddress in r.properties && r.properties[IpAddress] == addr
            && (Vendor in r.properties <==> NotEmpty(host.vendorName))
            && (Vendor in r.properties ==> r.properties[Vendor] == host.vendorName.value)
            && r.properties.Keys <= {Vendor, IpAddress}
  {
    SanitizeYieldsUid(addr);
  }

  /** An AirPlay receiver is keyed by its sanitised name, labelled "name (AirPlay)" and carries
      its name as its only property. */
  lemma AirPlayResultShape(b: string, name: string)
    ensures var r := AirPlayResult(b, name);
            r.kind == AirPlay && r.bridge == b && r.id == Sanitize(name) && IsUid(r.id)
            && r.labelText == name + " (AirPlay)" && r.properties == map[ReceiverName := name]
  {
    SanitizeYieldsUid(name);
  }

  // ---------------------------------------------------------------------------
  // Per-category membership
  // ---------------------------------------------------------------------------

  lemma {:induction false} InterfaceResultsMembers(b: string, host: LanHost, l3s: seq<L3Connectivity>)
    ensures forall r :: r in InterfaceResults(b, host, l3s) <==> InterfaceOf(b, host, l3s, r)
  {
    if l3s != [] {
      var init := l3s[..|l3s| - 1];
      InterfaceResultsMembers(b, host, init);
      forall r
        ensures r in InterfaceResults(b, host, l3s) <==> InterfaceOf(b, host, l3s, r)
      {
        if InterfaceOf(b, host, l3s, r) {
          var j :| 0 <= j < |l3s| && NotEmpty(l3s[j].addr) && r == NetInterfaceResult(b, host, l3s[j].addr.value);
          if j < |init| {
            assert init[j] == l3s[j];
          }
        }
        if InterfaceOf(b, host, init, r) {
          var j :| 0 <= j < |init| && NotEmpty(init[j].addr) && r == NetInterfaceResult(b, host, init[j].addr.value);
          assert l3s[j] == init[j];
        }
      }
    }
  }

  /** One host: its device result when that toggle is on, its interface results when that
      toggle is on, and nothing else. */
  lemma HostResultsMembers(b: string, t: Toggles, host: LanHost)
    ensures forall r :: r in HostResults(b, t, host) && r.kind == NetDevice <==> t.netDevice && DeviceOfHost(b, host, r)
    ensures forall r :: r in HostResults(b, t, host) && r.kind == NetInterface
                        <==> t.netInterface && InterfaceOfHost(b, host, r)
    ensures forall r :: r in HostResults(b, t, host) ==> r.kind == NetDevice || r.kind == NetInterface
  {
    if NotEmpty(host.mac) && host.l3connectivities.Some? {
      var l3s := host.l3connectivities.value;
      InterfaceResultsMembers(b, host, l3s);
      forall r | InterfaceOf(b, host, l3s, r) ensures r.kind == NetInterface { }
    }
  }

  lemma {:induction false} HostsResultsKinds(b: string, t: Toggles, hosts: seq<LanHost>)
    ensures forall r :: r in HostsResults(b, t, hosts) ==> r.kind == NetDevice || r.kind == NetInterface
  {
    if hosts != [] {
      HostsResultsKinds(b, t, hosts[..|hosts| - 1]);
      HostResultsMembers(b, t, hosts[|hosts| - 1]);
    }
  }

  lemma {:induction false} HostsResultsDevices(b: string, t: Toggles, hosts: seq<LanHost>)
    ensures forall r :: r in HostsResults(b, t, hosts) && r.kind == NetDevice
                        <==> t.netDevice && DeviceOf(b, hosts, r)
  {
    if hosts != [] {
      var init, host := hosts[..|hosts| - 1], hosts[|hosts| - 1];
      HostsResultsDevices(b, t, init);
      HostResultsMembers(b, t, host);
      forall r
        ensures DeviceOf(b, hosts, r) <==> DeviceOf(b, init, r) || DeviceOfHost(b, host, r)
      {
        if DeviceOf(b, hosts, r) {
          var i :| 0 <= i < |hosts| && DeviceOfHost(b, hosts[i], r);
          if i < |init| {
            assert init[i] == hosts[i];
          }
        }
        if DeviceOf(b, init, r) {
          var i :| 0 <= i < |init| && DeviceOfHost(b, init[i], r);
          assert hosts[i] == init[i];
        }
      }
    }
  }

  lemma {:induction false} HostsResultsInterfaces(b: string, t: Toggles, hosts: seq<LanHost>)
    ensures forall r :: r in HostsResults(b, t, hosts) && r.kind == NetInterface
                        <==> t.netInterface && HostInterfaceOf(b, hosts, r)
  {
    if hosts != [] {
      var init, host := hosts[..|hosts| - 1], hosts[|hosts| - 1];
      HostsResultsInterfaces(b, t, init);
      HostResultsMembers(b, t, host);
      forall r
        ensures HostInterfaceOf(b, hosts, r) <==> HostInterfaceOf(b, init, r) || InterfaceOfHost(b, host, r)
      {
        if HostInterfaceOf(b, hosts, r) {
          var i :| 0 <= i < |hosts| && InterfaceOfHost(b, hosts[i], r);
          if i < |init| {
            assert init[i] == hosts[i];
          }
        }
        if HostInterfaceOf(b, init, r) {
          var i :| 0 <= i < |init| && InterfaceOfHost(b, init[i], r);
          assert hosts[i] == init[i];
        }
      }
    }
  }

  lemma {:induction false} AirPlayResultsMembers(b: string, devices: seq<AirMediaReceiver>)
    ensures forall r :: r in AirPlayResults(b, devices) <==> ReceiverOf(b, devices, r)
  {
    if devices != [] {
      var init := devices[..|devices| - 1];
      AirPlayResultsMembers(b, init);
      forall r
        ensures r in AirPlayResults(b, devices) <==> ReceiverOf(b, devices, r)
      {
        if ReceiverOf(b, devices, r) {
          var i :| 0 <= i < |devices| && Pushable(devices[i]) && r == AirPlayResult(b, devices[i].name.value);
          if i < |init| {
            assert init[i] == devices[i];
          }
        }
        if ReceiverOf(b, init, r) {
          var i :| 0 <= i < |init| && Pushable(init[i]) && r == AirPlayResult(b, init[i].name.value);
          assert devices[i] == init[i];
        }
      }
    }
  }

  // ---------------------------------------------------------------------------
  // Configuration
  // ---------------------------------------------------------------------------

  /** A toggle takes the configured value when there is one, whatever it was before, and keeps
      its value when the configuration is null or does not set it; applying the same
      configuration twice changes nothing more. */
  lemma ConfiguredOverrides(prior: bool, config: Option<map<ConfigKey, Option<bool>>>, key: ConfigKey)
    ensures config.Some? && key in config.value && config.value[key].Some?
            ==> Configured(prior, config, key) == config.value[key].value
                && Configured(!prior, config, key) == Configured(prior, config, key)
    ensures !(config.Some? && key in config.value && config.value[key].Some?)
            ==> Configured(prior, config, key) == prior
    ensures Configured(Configured(prior, config, key), config, key) == Configured(prior, config, key)
  {
  }

  // ---------------------------------------------------------------------------
  // The whole scan
  // ---------------------------------------------------------------------------

  /** A null bridge yields no result at all. */
  lemma NullBridgeDiscoversNothing(t: Toggles, hostsConfig: Option<seq<LanHost>>,
                                   airPlayDevices: Option<seq<AirMediaReceiver>>)
    ensures Discover(t, None, hostsConfig, airPlayDevices) == []
  {
  }

  /** With the phone toggle on, the first result is the wired phone and no other result is a
      phone; with it off, no result is a phone. */
  lemma PhoneDiscoveredOnce(t: Toggles, b: string, hostsConfig: Option<seq<LanHost>>,
                            airPlayDevices: Option<seq<AirMediaReceiver>>)
    ensures var out := Discover(t, Some(b), hostsConfig, airPlayDevices);
            (t.phone ==> |out| > 0 && out[0] == DiscoveryResult(Phone, b, "wired", "Wired phone", map[]))
            && (forall i :: 0 <= i < |out| && out[i].kind == Phone ==> t.phone && i == 0)
  {
    var phone := if t.phone then [PhoneResult(b)] else [];
    var lan := if hostsConfig.Some? && (t.netDevice || t.netInterface)
               then HostsResults(b, t, hostsConfig.value) else [];
    var air := if airPlayDevices.Some? && t.airPlay then AirPlayResults(b, airPlayDevices.value) else [];
    if hostsConfig.Some? {
      HostsResultsKinds(b, t, hostsConfig.value);
    }
    if airPlayDevices.Some? {
      AirPlayResultsMembers(b, airPlayDevices.value);
      forall r | ReceiverOf(b, airPlayDevices.value, r) ensures r.kind == AirPlay { }
    }
    var out := phone + lan + air;
    forall i | 0 <= i < |out| && out[i].kind == Phone
      ensures t.phone && i == 0
    {
    }
  }

  /** Every result of a scan, category by category, together with the input it comes from:
      each direction of each equivalence holds. */
  lemma DiscoverMembers(t: Toggles, bridge: Option<string>, hostsConfig: Option<seq<LanHost>>,
                        airPlayDevices: Option<seq<AirMediaReceiver>>)
    ensures var out := Discover(t, bridge, hostsConfig, airPlayDevices);
            forall r :: r in out ==> bridge.Some? && r.bridge == bridge.value
    ensures var out := Discover(t, bridge, hostsConfig, airPlayDevices);
            forall r :: r in out && r.kind == Phone <==> bridge.Some? && t.phone && r == PhoneResult(bridge.value)
    ensures var out := Discover(t, bridge, hostsConfig, airPlayDevices);
            forall r :: r in out && r.kind == NetDevice
                        <==> bridge.Some? && hostsConfig.Some? && t.netDevice
                             && DeviceOf(bridge.value, hostsConfig.value, r)
    ensures var out := Discover(t, bridge, hostsConfig, airPlayDevices);
            forall r :: r in out && r.kind == NetInterface
                        <==> bridge.Some? && hostsConfig.Some? && t.netInterface
                             && HostInterfaceOf(bridge.value, hostsConfig.value, r)
    ensures var out := Discover(t, bridge, hostsConfig, airPlayDevices);
            forall r :: r in out && r.kind == AirPlay
                        <==> bridge.Some? && airPlayDevices.Some? && t.airPlay
                             && ReceiverOf(bridge.value, airPlayDevices.value, r)
  {
    if bridge.Some? {
      var b := bridge.value;
      if hostsConfig.Some? {
        var hosts := hostsConfig.value;
        HostsResultsKinds(b, t, hosts);
        HostsResultsDevices(b, t, hosts);
        HostsResultsInterfaces(b, t, hosts);
        forall r | DeviceOf(b, hosts, r) ensures r.bridge == b && r.kind == NetDevice {
          var i :| 0 <= i < |hosts| && DeviceOfHost(b, hosts[i], r);
        }
        forall r | HostInterfaceOf(b, hosts, r) ensures r.bridge == b && r.kind == NetInterface {
          var i :| 0 <= i < |hosts| && InterfaceOfHost(b, hosts[i], r);
          var j :| 0 <= j < |hosts[i].l3connectivities.value| && NotEmpty(hosts[i].l3connectivities.value[j].addr)
                   && r == NetInterfaceResult(b, hosts[i], hosts[i].l3connectivities.value[j].addr.value);
        }
      }
      if airPlayDevices.Some? {
        AirPlayResultsMembers(b, airPlayDevices.value);
        forall r | ReceiverOf(b, airPlayDevices.value, r) ensures r.bridge == b && r.kind == AirPlay { }
      }
    }
  }

  /** A category whose toggle is off contributes nothing, whatever the inputs. */
  lemma DisabledCategoryDiscoversNothing(t: Toggles, bridge: Option<string>, hostsConfig: Option<seq<LanHost>>,
                                         airPlayDevices: Option<seq<AirMediaReceiver>>)
    ensures forall r :: r in Discover(t, bridge, hostsConfig, airPlayDevices) ==>
              (r.kind == Phone ==> t.phone) && (r.kind == NetDevice ==> t.netDevice)
              && (r.kind == NetInterface ==> t.netInterface) && (r.kind == AirPlay ==> t.airPlay)
  {
    DiscoverMembers(t, bridge, hostsConfig, airPlayDevices);
  }

  /** Every identifier of a scan is made of UID characters only. */
  lemma DiscoveredIdsAreUids(t: Toggles, bridge: Option<string>, hostsConfig: Option<seq<LanHost>>,
                             airPlayDevices: Option<seq<AirMediaReceiver>>)
    ensures forall r :: r in Discover(t, bridge, hostsConfig, airPlayDevices) ==> IsUid(r.id)
  {
    DiscoverMembers(t, bridge, hostsConfig, airPlayDevices);
    forall r | r in Discover(t, bridge, hostsConfig, airPlayDevices)
      ensures IsUid(r.id)
    {
      if r.kind == NetInterface {
        var hosts := hostsConfig.value;
        var i :| 0 <= i < |hosts| && NotEmpty(hosts[i].mac) && hosts[i].l3connectivities.Some?
                 && InterfaceOf(bridge.value, hosts[i], hosts[i].l3connectivities.value, r);
      }
    }
  }

  /** Three runs of results, each of a single rank and ranked 0, 1, 2, are ordered by rank. */
  lemma RankedRunsOrdered(phone: seq<DiscoveryResult>, lan: seq<DiscoveryResult>, air: seq<DiscoveryResult>)
    requires forall r :: r in phone ==> Rank(r.kind) == 0
    requires forall r :: r in lan ==> Rank(r.kind) == 1
    requires forall r :: r in air ==> Rank(r.kind) == 2
    ensures var out := phone + lan + air;
            forall i, j :: 0 <= i < j < |out| ==> Rank(out[i].kind) <= Rank(out[j].kind)
  {
    var out := phone + lan + air;
    forall i, j | 0 <= i < j < |out|
      ensures Rank(out[i].kind) <= Rank(out[j].kind)
    {
      if i >= |phone| + |lan| {
        assert out[i] in air && out[j] in air;
      } else if i >= |phone| {
        assert out[i] in lan;
        if j < |phone| + |lan| {
          assert out[j] in lan;
        } else {
          assert out[j] in air;
        }
      }
    }
  }

  /** The phone comes first, then the LAN hosts' results, then the AirPlay receivers'. */
  lemma DiscoverOrder(t: Toggles, bridge: Option<string>, hostsConfig: Option<seq<LanHost>>,
                      airPlayDevices: Option<seq<AirMediaReceiver>>)
    ensures var out := Discover(t, bridge, hostsConfig, airPlayDevices);
            forall i, j :: 0 <= i < j < |out| ==> Rank(out[i].kind) <= Rank(out[j].kind)
  {
    if bridge.Some? {
      var b := bridge.value;
      if hostsConfig.Some? {
        HostsResultsKinds(b, t, hostsConfig.value);
      }
      if airPlayDevices.Some? {
        AirPlayResultsMembers(b, airPlayDevices.value);
        forall r | ReceiverOf(b, airPlayDevices.value, r) ensures r.kind == AirPlay { }
      }
      RankedRunsOrdered(PhoneResults(b, t), LanResults(b, t, hostsConfig), AirResults(b, t, airPlayDevices));
    }
  }

  // ---------------------------------------------------------------------------
  // Hosts without a MAC
  // ---------------------------------------------------------------------------

  /** The results of a non-empty list are those of its prefix followed by its last host's. */
  lemma HostsResultsSnoc(b: string, t: Toggles, hosts: seq<LanHost>, host: LanHost)
    ensures HostsResults(b, t, hosts + [host]) == HostsResults(b, t, hosts) + HostResults(b, t, host)
  {
    assert (hosts + [host])[..|hosts|] == hosts;
  }

  lemma ConcatAssociative<T>(a: seq<T>, b: seq<T>, c: seq<T>)
    ensures a + b + c == a + (b + c)
  {
  }

  lemma {:induction false} HostsResultsAppend(b: string, t: Toggles, xs: seq<LanHost>, ys: seq<LanHost>)
    ensures HostsResults(b, t, xs + ys) == HostsResults(b, t, xs) + HostsResults(b, t, ys)
  {
    if ys == [] {
      assert xs + ys == xs;
    } else {
      var init, last := ys[..|ys| - 1], ys[|ys| - 1];
      assert ys == init + [last];
      assert xs + ys == (xs + init) + [last];
      HostsResultsSnoc(b, t, xs + init, last);
      HostsResultsAppend(b, t, xs, init);
      HostsResultsSnoc(b, t, init, last);
      ConcatAssociative(HostsResults(b, t, xs), HostsResults(b, t, init), HostResults(b, t, last));
    }
  }

  /** A host whose MAC is null or empty contributes nothing: neither a device nor any of its
      interfaces, so removing it from the list does not change the results. */
  lemma HostWithoutMacIgnored(b: string, t: Toggles, hosts: seq<LanHost>, k: nat)
    requires k < |hosts| && !NotEmpty(hosts[k].mac)
    ensures HostsResults(b, t, hosts) == HostsResults(b, t, hosts[..k] + hosts[k + 1..])
  {
    var before, after := hosts[..k], hosts[k + 1..];
    assert hosts == before + ([hosts[k]] + after);
    assert [hosts[k]][..0] == [];
    assert HostsResults(b, t, [hosts[k]]) == [];
    calc {
      HostsResults(b, t, hosts);
      { HostsResultsAppend(b, t, before, [hosts[k]] + after); }
      HostsResults(b, t, before) + HostsResults(b, t, [hosts[k]] + after);
      { HostsResultsAppend(b, t, [hosts[k]], after); }
      HostsResults(b, t, before) + HostsResults(b, t, after);
      { HostsResultsAppend(b, t, before, after); }
      HostsResults(b, t, before + after);
    }
  }

  // ---------------------------------------------------------------------------
  // Worked examples
  // ---------------------------------------------------------------------------

  /** The separators of a MAC address become underscores. */
  lemma SanitizeMacExample()
    ensures Sanitize("AA:BB:CC:DD:EE:FF") == "AA_BB_CC_DD_EE_FF"
  {
    var mac := "AA:BB:CC:DD:EE:FF";
    var r := Sanitize(mac);
    forall i | 0 <= i < 17 ensures r[i] == "AA_BB_CC_DD_EE_FF"[i] {
      if i in {2, 5, 8, 11, 14} {
        assert mac[i] == ':';
      } else {
        assert mac[i] in "ABCDEF";
      }
    }
  }

  /** A host with MAC "AA:BB:CC:DD:EE:FF", an empty primary name and no vendor gives the
      device "AA_BB_CC_DD_EE_FF" with the placeholder label. */
  lemma NetDeviceExample(b: string)
    ensures var host := LanHost(Some("AA:BB:CC:DD:EE:FF"), Some(""), None, None);
            Discover(Toggles(false, true, false, false), Some(b), Some([host]), None)
            == [DiscoveryResult(NetDevice, b, "AA_BB_CC_DD_EE_FF",
                                "Freebox Network Device " + "AA:BB:CC:DD:EE:FF",
                                map[MacAddress := "AA:BB:CC:DD:EE:FF"])]
  {
    var mac := "AA:BB:CC:DD:EE:FF";
    var host := LanHost(Some(mac), Some(""), None, None);
    SanitizeMacExample();
    assert [host][..0] == [];
    assert VendorProperty(None)[MacAddress := mac] == map[MacAddress := mac];
    assert HostsResults(b, Toggles(false, true, false, false), [host])
           == [NetDeviceResult(b, host, mac)];
  }

  /** A video-capable receiver named "LivingRoomTV" is discovered with the AirPlay label; the
      same receiver without video capability is not. */
  lemma AirPlayExample(b: string)
    ensures Discover(Toggles(false, false, false, true), Some(b), None,
                     Some([AirMediaReceiver(Some("LivingRoomTV"), Some(true))]))
            == [DiscoveryResult(AirPlay, b, "LivingRoomTV", "LivingRoomTV" + " (AirPlay)",
                                map[ReceiverName := "LivingRoomTV"])]
    ensures Discover(Toggles(false, false, false, true), Some(b), None,
                     Some([AirMediaReceiver(Some("LivingRoomTV"), Some(false))])) == []
  {
    var name := "LivingRoomTV";
    assert IsUid(name) by {
      forall i | 0 <= i < |name| ensures IsUidChar(name[i]) { }
    }
    assert Sanitize(name) == name;
    var tv, audio := AirMediaReceiver(Some(name), Some(true)), AirMediaReceiver(Some(name), Some(false));
    assert [tv][..0] == [] && [audio][..0] == [];
    assert AirPlayResults(b, [tv]) == [AirPlayResult(b, name)];
    assert AirPlayResults(b, [audio]) == [];
  }
}
