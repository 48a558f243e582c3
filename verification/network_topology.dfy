/** The parsers of the network topology mapper (`src/apps/network-topology.ts`):
 *  device classification, the three readers of LLDP neighbour tables, CDP
 *  neighbour details and routing tables, the format detector that chooses
 *  between them, and the connection list of the details panel. The regular
 *  expressions are not modelled: each reader takes its input already cut
 *  into lines (or CDP entries) together with what the line's patterns
 *  captured, and the model keeps the classification and accumulation logic. */
module NetworkTopology {
  import opened Wrappers
  import opened Text

  datatype DeviceType = Router | Switch | Firewall | Host | Cloud | Server | Wireless | Unknown
  datatype LinkType = Trunk | Access | Routed | UnknownLink
  datatype Format = Lldp | Cdp | Routing | Config | UnknownFormat

  /** `NetworkDevice` without the layout fields (position, velocity) and the
   *  interface list, which the parsers always leave empty. */
  datatype Device = Device(id: string, kind: DeviceType, name: string, ip: Option<string>, platform: Option<string>)

  datatype Link = Link(source: string, target: string, sourcePort: string, targetPort: string, kind: LinkType)

  datatype Topology = Topology(devices: seq<Device>, links: seq<Link>, format: Format, errors: seq<string>)

  // ---------------------------------------------------------------------------
  // detectDeviceType

  /** The first rule that fires wins: router, firewall, wireless, switch,
   *  server, otherwise unknown. */
  function DetectDeviceType(capabilities: string, platform: string, name: string): DeviceType
  {
    Classify(Lower(capabilities), Lower(platform), Lower(name))
  }

  /** The rules on the lower-cased capability, platform and name. */
  function Classify(cap: string, plat: string, nm: string): DeviceType
  {
    if IsRouter(cap, plat, nm) then Router
    else if IsFirewall(plat, nm) then Firewall
    else if IsWireless(plat, nm) then Wireless
    else if IsSwitch(cap, plat, nm) then Switch
    else if IsServer(cap, plat, nm) then Server
    else Unknown
  }

  predicate IsRouter(cap: string, plat: string, nm: string)
  {
    Contains(cap, "router") || Contains(plat, "isr") || Contains(nm, "rtr")
  }

  predicate IsFirewall(plat: string, nm: string)
  {
    Contains(plat, "asa") || Contains(nm, "fw") || Contains(nm, "firewall")
  }

  predicate IsWireless(plat: string, nm: string)
  {
    Contains(plat, "air") || Contains(plat, "wlc") || Contains(nm, "wlc") || Contains(nm, "ap")
  }

  predicate IsSwitch(cap: string, plat: string, nm: string)
  {
    Contains(cap, "switch") || cap == "b" || Contains(plat, "ws-c") || Contains(nm, "sw")
  }

  predicate IsServer(cap: string, plat: string, nm: string)
  {
    cap == "s" || Contains(plat, "server") || Contains(nm, "server") || Contains(nm, "srv")
  }

  /** A rule decides only when every earlier rule fails: a router capability
   *  beats everything, and a name containing "ap" (as in any "…map…" or
   *  "laptop") makes a device wireless before the switch and server rules
   *  are looked at. */
  lemma DeviceTypePrecedence(capabilities: string, platform: string, name: string)
    ensures var cap, plat, nm := Lower(capabilities), Lower(platform), Lower(name);
      var t := DetectDeviceType(capabilities, platform, name);
      (t == Router <==> IsRouter(cap, plat, nm))
      && (t == Firewall <==> !IsRouter(cap, plat, nm) && IsFirewall(plat, nm))
      && (t == Wireless <==> !IsRouter(cap, plat, nm) && !IsFirewall(plat, nm) && IsWireless(plat, nm))
      && (t == Switch <==> !IsRouter(cap, plat, nm) && !IsFirewall(plat, nm) && !IsWireless(plat, nm)
                           && IsSwitch(cap, plat, nm))
      && (t == Unknown <==> !IsRouter(cap, plat, nm) && !IsFirewall(plat, nm) && !IsWireless(plat, nm)
                            && !IsSwitch(cap, plat, nm) && !IsServer(cap, plat, nm))
      && t != Host && t != Cloud
  {
  }

  /** The capability, platform and name are compared without regard to case. */
  lemma DeviceTypeIgnoresCase(capabilities: string, platform: string, name: string)
    ensures DetectDeviceType(Lower(capabilities), Lower(platform), Lower(name))
         == DetectDeviceType(capabilities, platform, name)
  {
    LowerIdempotent(capabilities);
    LowerIdempotent(platform);
    LowerIdempotent(name);
    assert DetectDeviceType(Lower(capabilities), Lower(platform), Lower(name))
        == Classify(Lower(Lower(capabilities)), Lower(Lower(platform)), Lower(Lower(name)));
  }

  // ---------------------------------------------------------------------------
  // The device map: a JavaScript `Map` keyed by device id, which lists its
  // values in insertion order; `set` on a present key replaces the value in
  // its place.

  function Ids(m: seq<Device>): (r: seq<string>)
    ensures |r| == |m|
    ensures forall i :: 0 <= i < |m| ==> r[i] == m[i].id
  {
    if m == [] then [] else [m[0].id] + Ids(m[1..])
  }

  predicate Has(m: seq<Device>, id: string)
  {
    id in Ids(m)
  }

  /** Every id is a key once. */
  predicate Keyed(m: seq<Device>)
  {
    forall i, j :: 0 <= i < j < |m| ==> m[i].id != m[j].id
  }

  /** `map.set(d.id, d)`. */
  function Set(m: seq<Device>, d: Device): (r: seq<Device>)
    ensures |r| == |m| + (if Has(m, d.id) then 0 else 1)
  {
    if m == [] then [d]
    else if m[0].id == d.id then [d] + m[1..]
    else
      assert Has(m, d.id) <==> Has(m[1..], d.id) by {
        assert Ids(m) == [m[0].id] + Ids(m[1..]);
      }
      [m[0]] + Set(m[1..], d)
  }

  /** `set` replaces in place or appends: the keys stay as they were, or
   *  gain the new id at the end, and the new value is present. */
  lemma {:induction false} SetIds(m: seq<Device>, d: Device)
    ensures Ids(Set(m, d)) == if Has(m, d.id) then Ids(m) else Ids(m) + [d.id]
  {
    if m != [] {
      assert Ids(m) == [m[0].id] + Ids(m[1..]);
      if m[0].id != d.id {
        SetIds(m[1..], d);
        assert Ids(Set(m, d)) == [m[0].id] + Ids(Set(m[1..], d));
      } else {
        assert Ids(Set(m, d)) == [d.id] + Ids(m[1..]);
      }
    }
  }

  /** `set` of a new id appends the value. */
  lemma {:induction false} SetAppends(m: seq<Device>, d: Device)
    requires !Has(m, d.id)
    ensures Set(m, d) == m + [d]
  {
    if m != [] {
      assert Ids(m) == [m[0].id] + Ids(m[1..]);
      SetAppends(m[1..], d);
      assert [m[0]] + (m[1..] + [d]) == m + [d];
    }
  }

  /** Whether ids are unique depends on the id list alone. */
  lemma KeyedByIds(m: seq<Device>, m': seq<Device>)
    requires Ids(m) == Ids(m') && Keyed(m)
    ensures Keyed(m')
  {
    assert forall i :: 0 <= i < |m'| ==> m'[i].id == Ids(m)[i];
  }

  /** `set` keeps every id a key once. */
  lemma SetKeyed(m: seq<Device>, d: Device)
    requires Keyed(m)
    ensures Keyed(Set(m, d)) && Ids(Set(m, d)) == if Has(m, d.id) then Ids(m) else Ids(m) + [d.id]
  {
    SetIds(m, d);
    if Has(m, d.id) {
      KeyedByIds(m, Set(m, d));
    } else {
      SetAppends(m, d);
      AppendIfAbsent(m, m + [d], d.id);
    }
  }

  // ---------------------------------------------------------------------------
  // parseLLDP

  const LocalDevice: string := "LOCAL-DEVICE"
  const NoLldpNeighbors: string := "No LLDP neighbors found in the data"

  /** A line of the LLDP table: one that matches the header-comment pattern,
   *  with the name it captures, or any other line. */
  datatype LldpLine = Header(capture: string) | Row(text: string)

  /** The local device a header names: trimmed, white-space runs turned into
   *  "-", upper-cased. */
  function HeaderId(capture: string): string
  {
    Upper(Join(Tokens(capture), "-"))
  }

  /** Column headings, blank lines and rules are skipped. */
  predicate Skipped(text: string)
  {
    StartsWith(text, "Device ID") || Trim(text) == "" || StartsWith(text, "-")
  }

  /** A row that describes a neighbour: not skipped, with at least five
   *  fields (neighbour, local port, hold time, capability, remote port). */
  predicate Neighbour(line: LldpLine)
  {
    line.Row? && !Skipped(line.text) && |Tokens(line.text)| >= 5
  }

  datatype LldpState = LldpState(devices: seq<Device>, links: seq<Link>, current: string)

  /** One pass of the loop body. */
  function LldpStep(s: LldpState, line: LldpLine): LldpState
  {
    match line
    case Header(c) =>
      var id := HeaderId(c);
      var ds := if Has(s.devices, id) then s.devices else s.devices + [Device(id, Switch, id, None, None)];
      LldpState(ds, s.links, id)
    case Row(t) =>
      if !Neighbour(line) then s
      else
        var f := Tokens(t);
        var id := f[0];
        var ds := if Has(s.devices, id) then s.devices
                  else s.devices + [Device(id, DetectDeviceType(f[3], "", id), id, None, None)];
        LldpState(ds, s.links + [Link(s.current, id, f[1], f[4], Trunk)], s.current)
  }

  function LldpRun(lines: seq<LldpLine>): LldpState
  {
    if lines == [] then LldpState([], [], LocalDevice)
    else LldpStep(LldpRun(lines[..|lines| - 1]), lines[|lines| - 1])
  }

  function LldpTopology(lines: seq<LldpLine>): Topology
  {
    var s := LldpRun(lines);
    Topology(s.devices, s.links, Lldp, if s.devices == [] then [NoLldpNeighbors] else [])
  }

  /** `parseLLDP`. */
  method ParseLLDP(lines: seq<LldpLine>) returns (t: Topology)
    ensures t == LldpTopology(lines)
  {
    var devices: seq<Device> := [];
    var links: seq<Link> := [];
    var current := LocalDevice;
    var i := 0;
    while i < |lines|
      invariant 0 <= i <= |lines|
      invariant LldpState(devices, links, current) == LldpRun(lines[..i])
    {
      assert lines[..i + 1][..i] == lines[..i];
      var line := lines[i];
      match line {
        case Header(c) =>
          current := HeaderId(c);
          if !Has(devices, current) {
            devices := devices + [Device(current, Switch, current, None, None)];
          }
        case Row(text) =>
          if !Skipped(text) {
            var parts := Tokens(text);
            if |parts| >= 5 {
              var deviceId := parts[0];
              if !Has(devices, deviceId) {
                devices := devices + [Device(deviceId, DetectDeviceType(parts[3], "", deviceId), deviceId, None, None)];
              }
              links := links + [Link(current, deviceId, parts[1], parts[4], Trunk)];
            }
          }
      }
      i := i + 1;
    }
    assert lines[..i] == lines;
    t := Topology(devices, links, Lldp, if devices == [] then [NoLldpNeighbors] else []);
  }

  /** Device ids stay unique, every link ends at a listed device, and after
   *  a header the current local device is listed too. */
  lemma {:induction false} LldpWellFormed(lines: seq<LldpLine>)
    ensures var s := LldpRun(lines);
      Keyed(s.devices)
      && (forall k :: 0 <= k < |s.links| ==> Has(s.devices, s.links[k].target))
      && (s.current == LocalDevice || Has(s.devices, s.current))
  {
    if lines != [] {
      var init := lines[..|lines| - 1];
      LldpWellFormed(init);
      var p := LldpRun(init);
      var s := LldpRun(lines);
      var line := lines[|lines| - 1];
      var id := if line.Header? then HeaderId(line.capture) else if Neighbour(line) then Tokens(line.text)[0] else "";
      if line.Header? || Neighbour(line) {
        AppendIfAbsent(p.devices, s.devices, id);
      }
    }
  }

  /** A device list grown by "add unless present": still keyed, still
   *  holding every id it held, and now holding `id`. */
  lemma AppendIfAbsent(ds: seq<Device>, ds': seq<Device>, id: string)
    requires Keyed(ds)
    requires ds' == ds || (!Has(ds, id) && |ds'| == |ds| + 1 && ds' == ds + [ds'[|ds|]] && ds'[|ds|].id == id)
    requires ds' == ds ==> Has(ds, id)
    ensures Keyed(ds') && Has(ds', id)
    ensures forall k :: Has(ds, k) ==> Has(ds', k)
  {
    if ds' != ds {
      assert Ids(ds') == Ids(ds) + [id];
    }
  }

  /** A neighbour row adds exactly one trunk link, from the current local
   *  device to the first field, with the second and fifth fields as ports;
   *  every other line adds none. A header switches the current device. */
  lemma LldpLinkPerRow(lines: seq<LldpLine>, line: LldpLine)
    ensures var p, s := LldpRun(lines), LldpRun(lines + [line]);
      if Neighbour(line) then
        var f := Tokens(line.text);
        s.links == p.links + [Link(p.current, f[0], f[1], f[4], Trunk)] && s.current == p.current
      else
        s.links == p.links && s.current == (if line.Header? then HeaderId(line.capture) else p.current)
  {
    assert (lines + [line])[..|lines|] == lines;
  }

  /** The "no neighbours" error is reported exactly when the table has no
   *  header comment and no neighbour row. */
  lemma {:induction false} LldpErrorIffNothingFound(lines: seq<LldpLine>)
    ensures LldpTopology(lines).errors != [] <==>
      forall k :: 0 <= k < |lines| ==> !lines[k].Header? && !Neighbour(lines[k])
  {
    if lines != [] {
      var init := lines[..|lines| - 1];
      LldpErrorIffNothingFound(init);
      assert forall k :: 0 <= k < |init| ==> init[k] == lines[k];
    }
  }

  // ---------------------------------------------------------------------------
  // parseCDP

  const NoCdpNeighbors: string := "No CDP neighbors found in the data"

  /** One entry between dashed rules, as its field patterns read it. */
  datatype CdpEntry = CdpEntry(
    deviceId: Option<string>, ip: Option<string>, platform: Option<string>,
    capabilities: Option<string>, intf: Option<string>, port: Option<string>)

  const LocalSwitch: Device := Device(LocalDevice, Switch, LocalDevice, None, None)

  function TrimmedOr(o: Option<string>): string
  {
    if o.Some? then Trim(o.value) else ""
  }

  datatype Graph = Graph(devices: seq<Device>, links: seq<Link>)

  function CdpStep(g: Graph, e: CdpEntry): Graph
  {
    if e.deviceId.None? then g
    else
      var id := e.deviceId.value;
      var platform, caps := TrimmedOr(e.platform), TrimmedOr(e.capabilities);
      var ds := if Has(g.devices, id) then g.devices
                else g.devices + [Device(id, DetectDeviceType(caps, platform, id), id, e.ip, Some(platform))];
      var ls := if e.intf.Some? && e.port.Some? then
                  g.links + [Link(LocalDevice, id, e.intf.value, e.port.value,
                                  if Contains(Lower(caps), "router") then Routed else Trunk)]
                else g.links;
      Graph(ds, ls)
  }

  function CdpRun(entries: seq<CdpEntry>): Graph
  {
    if entries == [] then Graph([LocalSwitch], [])
    else CdpStep(CdpRun(entries[..|entries| - 1]), entries[|entries| - 1])
  }

  function CdpTopology(entries: seq<CdpEntry>): Topology
  {
    var g := CdpRun(entries);
    Topology(g.devices, g.links, Cdp, if |g.devices| <= 1 then [NoCdpNeighbors] else [])
  }

  /** `parseCDP`. */
  method ParseCDP(entries: seq<CdpEntry>) returns (t: Topology)
    ensures t == CdpTopology(entries)
  {
    var devices := [LocalSwitch];
    var links: seq<Link> := [];
    var i := 0;
    while i < |entries|
      invariant 0 <= i <= |entries|
      invariant Graph(devices, links) == CdpRun(entries[..i])
    {
      assert entries[..i + 1][..i] == entries[..i];
      var e := entries[i];
      assert CdpRun(entries[..i + 1]) == CdpStep(Graph(devices, links), e);
      if e.deviceId.Some? {
        var deviceId := e.deviceId.value;
        var platform := if e.platform.Some? then Trim(e.platform.value) else "";
        var capabilities := if e.capabilities.Some? then Trim(e.capabilities.value) else "";
        if !Has(devices, deviceId) {
          devices := devices + [Device(deviceId, DetectDeviceType(capabilities, platform, deviceId), deviceId, e.ip, Some(platform))];
        }
        if e.intf.Some? && e.port.Some? {
          var kind := if Contains(Lower(capabilities), "router") then Routed else Trunk;
          links := links + [Link(LocalDevice, deviceId, e.intf.value, e.port.value, kind)];
        }
      }
      i := i + 1;
    }
    assert entries[..i] == entries;
    t := Topology(devices, links, Cdp, if |devices| <= 1 then [NoCdpNeighbors] else []);
  }

  /** The local device is always listed first; a link is added only for an
   *  entry with a device id, an interface and a port id, always from the
   *  local device, and it is routed exactly when the capabilities mention
   *  a router. */
  lemma {:induction false} CdpShape(entries: seq<CdpEntry>)
    ensures var g := CdpRun(entries);
      |g.devices| >= 1 && g.devices[0] == LocalSwitch
      && forall k :: 0 <= k < |g.links| ==> g.links[k].source == LocalDevice
  {
    if entries != [] {
      CdpShape(entries[..|entries| - 1]);
    }
  }

  lemma CdpLinkPerEntry(entries: seq<CdpEntry>, e: CdpEntry)
    ensures var p, g := CdpRun(entries), CdpRun(entries + [e]);
      if e.deviceId.Some? && e.intf.Some? && e.port.Some? then
        var caps := TrimmedOr(e.capabilities);
        |g.links| == |p.links| + 1
        && g.links[|p.links|] == Link(LocalDevice, e.deviceId.value, e.intf.value, e.port.value,
                                     if Contains(Lower(caps), "router") then Routed else Trunk)
      else g.links == p.links
  {
    assert (entries + [e])[..|entries|] == entries;
  }

  /** The "no neighbours" error is reported exactly when no entry names a
   *  device other than the local one. */
  lemma {:induction false} CdpErrorIffNoNeighbour(entries: seq<CdpEntry>)
    ensures CdpTopology(entries).errors != [] <==>
      forall k :: 0 <= k < |entries| && entries[k].deviceId.Some? ==> entries[k].deviceId.value == LocalDevice
  {
    if entries != [] {
      var init := entries[..|entries| - 1];
      CdpErrorIffNoNeighbour(init);
      CdpShape(init);
      assert forall k :: 0 <= k < |init| ==> init[k] == entries[k];
      var g := CdpRun(init);
      if |g.devices| <= 1 {
        assert Ids(g.devices) == [LocalDevice];
      }
    }
  }

  // ---------------------------------------------------------------------------
  // parseRouting

  const LocalRouterId: string := "LOCAL-ROUTER"
  const NoRoutes: string := "No routes found in the data"
  const LocalRouter: Device := Device(LocalRouterId, Router, LocalRouterId, None, None)

  /** A line of the routing table as its patterns read it: the prefix and
   *  outgoing interface of a connected ("C") route, and the address after
   *  "via". */
  datatype RouteLine = RouteLine(connected: Option<(string, string)>, via: Option<string>)

  /** `s.replace(/[…]/g, "-")` for the characters in `chars`. */
  function Dashed(s: string, chars: set<char>): (r: string)
    ensures |r| == |s|
    ensures forall i :: 0 <= i < |s| ==> r[i] == (if s[i] in chars then '-' else s[i])
  {
    if s == [] then [] else [if s[0] in chars then '-' else s[0]] + Dashed(s[1..], chars)
  }

  function NetworkId(prefix: string): string { "NET-" + Dashed(prefix, {'.', '/'}) }
  function NextHopId(addr: string): string { "NH-" + Dashed(addr, {'.'}) }

  datatype RouteState = RouteState(devices: seq<Device>, links: seq<Link>, networks: nat)

  /** The connected-route part of the loop body. */
  function ConnectedStep(s: RouteState, line: RouteLine): RouteState
  {
    if line.connected.None? then s
    else
      var (prefix, port) := line.connected.value;
      var id := NetworkId(prefix);
      RouteState(Set(s.devices, Device(id, Cloud, prefix, None, None)),
                 s.links + [Link(LocalRouterId, id, port, "direct", Routed)], s.networks + 1)
  }

  /** The next-hop part of the loop body. */
  function ViaStep(s: RouteState, line: RouteLine): RouteState
  {
    if line.via.None? then s
    else
      var id := NextHopId(line.via.value);
      if Has(s.devices, id) then s
      else RouteState(s.devices + [Device(id, Router, line.via.value, Some(line.via.value), None)],
                      s.links + [Link(LocalRouterId, id, "routing", "routing", Routed)], s.networks)
  }

  function RouteStep(s: RouteState, line: RouteLine): RouteState
  {
    ViaStep(ConnectedStep(s, line), line)
  }

  function RouteRun(lines: seq<RouteLine>): RouteState
  {
    if lines == [] then RouteState([LocalRouter], [], 0)
    else RouteStep(RouteRun(lines[..|lines| - 1]), lines[|lines| - 1])
  }

  function RoutingTopology(lines: seq<RouteLine>): Topology
  {
    var s := RouteRun(lines);
    Topology(s.devices, s.links, Routing, if s.networks == 0 then [NoRoutes] else [])
  }

  /** `parseRouting`. */
  method ParseRouting(lines: seq<RouteLine>) returns (t: Topology)
    ensures t == RoutingTopology(lines)
  {
    var devices := [LocalRouter];
    var links: seq<Link> := [];
    var networkCount := 0;
    var i := 0;
    while i < |lines|
      invariant 0 <= i <= |lines|
      invariant RouteState(devices, links, networkCount) == RouteRun(lines[..i])
    {
      assert lines[..i + 1][..i] == lines[..i];
      var line := lines[i];
      assert RouteRun(lines[..i + 1]) == ViaStep(ConnectedStep(RouteState(devices, links, networkCount), line), line);
      if line.connected.Some? {
        networkCount := networkCount + 1;
        var network := NetworkId(line.connected.value.0);
        devices := Set(devices, Device(network, Cloud, line.connected.value.0, None, None));
        links := links + [Link(LocalRouterId, network, line.connected.value.1, "direct", Routed)];
      }
      if line.via.Some? {
        var nextHop := NextHopId(line.via.value);
        if !Has(devices, nextHop) {
          devices := devices + [Device(nextHop, Router, line.via.value, Some(line.via.value), None)];
          links := links + [Link(LocalRouterId, nextHop, "routing", "routing", Routed)];
        }
      }
      i := i + 1;
    }
    assert lines[..i] == lines;
    t := Topology(devices, links, Routing, if networkCount == 0 then [NoRoutes] else []);
  }

  /** Network and next-hop ids never clash with each other or with the
   *  local router. */
  lemma IdsApart(prefix: string, addr: string)
    ensures NetworkId(prefix) != NextHopId(addr)
    ensures NetworkId(prefix) != LocalRouterId && NextHopId(addr) != LocalRouterId
  {
    assert NetworkId(prefix)[1] == 'E' && NextHopId(addr)[1] == 'H';
    assert LocalRouterId[0] == 'L';
  }

  /** The local router stays first and a router; ids stay unique; every
   *  link starts at the local router and ends at a listed device; and no
   *  two links go to the same next hop. */
  predicate RoutesWellFormed(s: RouteState)
  {
    |s.devices| >= 1 && s.devices[0] == LocalRouter && Keyed(s.devices)
    && LinksListed(s) && HopLinksOnce(s.links)
  }

  predicate LinksListed(s: RouteState)
  {
    forall k :: 0 <= k < |s.links| ==> s.links[k].source == LocalRouterId && Has(s.devices, s.links[k].target)
  }

  predicate HopLinksOnce(links: seq<Link>)
  {
    (forall a, b :: 0 <= a < b < |links| && links[a].targetPort == "routing" ==> links[a].target != links[b].target)
    && (forall k :: 0 <= k < |links| ==> (links[k].targetPort == "routing") == StartsWith(links[k].target, "NH"))
  }

  lemma {:induction false} RoutingWellFormed(lines: seq<RouteLine>)
    ensures RoutesWellFormed(RouteRun(lines))
  {
    if lines != [] {
      RoutingWellFormed(lines[..|lines| - 1]);
      RouteStepKeeps(RouteRun(lines[..|lines| - 1]), lines[|lines| - 1]);
    }
  }

  lemma RouteStepKeeps(s: RouteState, line: RouteLine)
    requires RoutesWellFormed(s)
    ensures RoutesWellFormed(RouteStep(s, line))
  {
    ConnectedKeeps(s, line);
    ViaKeeps(ConnectedStep(s, line), line);
  }

  lemma ConnectedKeeps(s: RouteState, line: RouteLine)
    requires RoutesWellFormed(s)
    ensures RoutesWellFormed(ConnectedStep(s, line))
  {
    if line.connected.Some? {
      var d := Device(NetworkId(line.connected.value.0), Cloud, line.connected.value.0, None, None);
      IdsApart(line.connected.value.0, "");
      SetKeyed(s.devices, d);
      SetKeepsFirst(s.devices, d);
      ConnectedListed(s, line);
      ConnectedHopsOnce(s, line);
    }
  }

  lemma ConnectedListed(s: RouteState, line: RouteLine)
    requires LinksListed(s) && line.connected.Some?
    ensures LinksListed(ConnectedStep(s, line))
  {
    var d := Device(NetworkId(line.connected.value.0), Cloud, line.connected.value.0, None, None);
    var s1 := ConnectedStep(s, line);
    SetIds(s.devices, d);
    assert Ids(s1.devices) == Ids(Set(s.devices, d));
    assert forall k :: Has(s.devices, k) ==> Has(s1.devices, k);
    assert Has(s1.devices, d.id);
  }

  lemma ConnectedHopsOnce(s: RouteState, line: RouteLine)
    requires HopLinksOnce(s.links) && line.connected.Some?
    ensures HopLinksOnce(ConnectedStep(s, line).links)
  {
    var id := NetworkId(line.connected.value.0);
    assert ConnectedStep(s, line).links == s.links + [Link(LocalRouterId, id, line.connected.value.1, "direct", Routed)];
    assert !StartsWith(id, "NH") by {
      assert id[1] == 'E';
    }
  }

  lemma ViaKeeps(s: RouteState, line: RouteLine)
    requires RoutesWellFormed(s)
    ensures RoutesWellFormed(ViaStep(s, line))
  {
    if line.via.Some? {
      var id := NextHopId(line.via.value);
      assert StartsWith(id, "NH");
      if !Has(s.devices, id) {
        var d := Device(id, Router, line.via.value, Some(line.via.value), None);
        AppendIfAbsent(s.devices, s.devices + [d], id);
        IdsApart("", line.via.value);
        assert forall k :: 0 <= k < |s.links| ==> s.links[k].target != id;
      }
    }
  }

  /** `set` of an id other than the first entry's leaves the first entry. */
  lemma SetKeepsFirst(m: seq<Device>, d: Device)
    requires |m| >= 1 && m[0].id != d.id
    ensures Set(m, d)[0] == m[0]
  {
  }

  /** Each connected route adds its network as a cloud device and one link
   *  to it; a next hop not seen before adds one router and one link. */
  lemma RouteLinksPerLine(lines: seq<RouteLine>, line: RouteLine)
    ensures var p, s := RouteRun(lines), RouteRun(lines + [line]);
      var n := if line.connected.Some? then 1 else 0;
      var hopNew := line.via.Some? && !Has(p.devices, NextHopId(line.via.value));
      s.networks == p.networks + n
      && |s.links| == |p.links| + n + (if hopNew then 1 else 0)
      && (line.connected.Some? ==> Has(s.devices, NetworkId(line.connected.value.0)))
      && (line.via.Some? ==> Has(s.devices, NextHopId(line.via.value)))
  {
    assert (lines + [line])[..|lines|] == lines;
    var p := RouteRun(lines);
    ConnectedCounts(p, line);
    var s1 := ConnectedStep(p, line);
    if line.via.Some? && line.connected.Some? {
      IdsApart(line.connected.value.0, line.via.value);
    }
    ViaCounts(s1, line);
  }

  lemma ConnectedCounts(p: RouteState, line: RouteLine)
    ensures var s := ConnectedStep(p, line);
      var n := if line.connected.Some? then 1 else 0;
      s.networks == p.networks + n && |s.links| == |p.links| + n
      && (line.connected.Some? ==> Has(s.devices, NetworkId(line.connected.value.0)))
      && forall k :: Has(s.devices, k) <==> Has(p.devices, k) || (line.connected.Some? && k == NetworkId(line.connected.value.0))
  {
    if line.connected.Some? {
      SetIds(p.devices, Device(NetworkId(line.connected.value.0), Cloud, line.connected.value.0, None, None));
    }
  }

  lemma ViaCounts(p: RouteState, line: RouteLine)
    ensures var s := ViaStep(p, line);
      var hopNew := line.via.Some? && !Has(p.devices, NextHopId(line.via.value));
      s.networks == p.networks && |s.links| == |p.links| + (if hopNew then 1 else 0)
      && (line.via.Some? ==> Has(s.devices, NextHopId(line.via.value)))
      && forall k :: Has(p.devices, k) ==> Has(s.devices, k)
  {
    if line.via.Some? {
      var id := NextHopId(line.via.value);
      if !Has(p.devices, id) {
        assert Ids(p.devices + [Device(id, Router, line.via.value, Some(line.via.value), None)]) == Ids(p.devices) + [id];
      }
    }
  }

  /** The "no routes" error is reported exactly when no line is a connected
   *  route. */
  lemma {:induction false} RoutingErrorIffNoConnected(lines: seq<RouteLine>)
    ensures RoutingTopology(lines).errors != [] <==>
      forall k :: 0 <= k < |lines| ==> lines[k].connected.None?
  {
    if lines != [] {
      var init := lines[..|lines| - 1];
      RoutingErrorIffNoConnected(init);
      assert forall k :: 0 <= k < |init| ==> init[k] == lines[k];
    }
  }

  // ---------------------------------------------------------------------------
  // detectFormat and parseTopology

  /** The pasted text together with what its patterns find: whether a
   *  "Device ID … Local Intf" heading occurs, whether some line starts like
   *  a route ("C", "S", "O", "R" or "B" and an address), and the three
   *  readings of its lines. */
  datatype Input = Input(
    data: string, lldpHeading: bool, routeLine: bool,
    lldp: seq<LldpLine>, cdp: seq<CdpEntry>, routes: seq<RouteLine>)

  const UnknownFormatError: string := "Could not detect input format. Try LLDP, CDP, or routing table output."

  /** `detectFormat`: CDP needs both "Device ID:" and "Platform:"; then
   *  LLDP; then a routing table. */
  function DetectFormat(inp: Input): (r: Format)
    ensures r != Config
  {
    if Contains(inp.data, "Device ID:") && Contains(inp.data, "Platform:") then Cdp
    else if inp.lldpHeading || Contains(inp.data, "LLDP") then Lldp
    else if inp.routeLine || Contains(inp.data, "Gateway of last resort") then Routing
    else UnknownFormat
  }

  /** `parseTopology`: the reader for the detected format. */
  method ParseTopology(inp: Input) returns (t: Topology)
    ensures t.format == DetectFormat(inp)
    ensures t.format == Lldp ==> t == LldpTopology(inp.lldp)
    ensures t.format == Cdp ==> t == CdpTopology(inp.cdp)
    ensures t.format == Routing ==> t == RoutingTopology(inp.routes)
    ensures t.format == UnknownFormat ==> t == Topology([], [], UnknownFormat, [UnknownFormatError])
  {
    var format := DetectFormat(inp);
    match format {
      case Lldp => t := ParseLLDP(inp.lldp);
      case Cdp => t := ParseCDP(inp.cdp);
      case Routing => t := ParseRouting(inp.routes);
      case _ => t := Topology([], [], UnknownFormat, [UnknownFormatError]);
    }
  }

  /** A table containing "Device ID:" and "Platform:" is read as CDP even
   *  when it also says "LLDP". */
  lemma CdpBeatsLldp(inp: Input)
    requires Contains(inp.data, "Device ID:") && Contains(inp.data, "Platform:")
    ensures DetectFormat(inp) == Cdp
  {
  }

  /** Every reader reports an error exactly when it found nothing to draw,
   *  and an unrecognised text yields one error and an empty graph. */
  lemma ErrorMeansNothingFound(inp: Input)
    ensures DetectFormat(inp) == Lldp ==>
      (LldpTopology(inp.lldp).errors != [] <==> LldpTopology(inp.lldp).devices == [])
    ensures DetectFormat(inp) == Cdp ==>
      (CdpTopology(inp.cdp).errors != [] <==> |CdpTopology(inp.cdp).devices| <= 1)
    ensures |LldpTopology(inp.lldp).errors| <= 1 && |CdpTopology(inp.cdp).errors| <= 1
      && |RoutingTopology(inp.routes).errors| <= 1
  {
  }

  // ---------------------------------------------------------------------------
  // The details panel

  /** `links.filter(l => l.source === id || l.target === id)`. */
  function Connections(links: seq<Link>, id: string): (r: seq<Link>)
    ensures |r| <= |links|
  {
    if links == [] then []
    else (if links[0].source == id || links[0].target == id then [links[0]] else []) + Connections(links[1..], id)
  }

  /** What a connection line shows: the port on the selected device's side
   *  and the device at the other end. */
  function Describe(l: Link, id: string): (string, string)
  {
    if l.source == id then (l.sourcePort, l.target) else (l.targetPort, l.source)
  }

  /** The panel lists exactly the links touching the selected device. */
  lemma {:induction false} ConnectionsExactly(links: seq<Link>, id: string)
    ensures forall l :: l in Connections(links, id) <==> l in links && (l.source == id || l.target == id)
  {
    if links != [] {
      ConnectionsExactly(links[1..], id);
      assert forall l :: l in links <==> l == links[0] || l in links[1..];
    }
  }

  /** ... in the order of the link list. */
  lemma {:induction false} ConnectionsAppend(a: seq<Link>, b: seq<Link>, id: string)
    ensures Connections(a + b, id) == Connections(a, id) + Connections(b, id)
  {
    if a == [] {
      assert a + b == b;
    } else {
      var head := if a[0].source == id || a[0].target == id then [a[0]] else [];
      assert (a + b)[0] == a[0];
      assert (a + b)[1..] == a[1..] + b;
      assert Connections(a + b, id) == head + Connections(a[1..] + b, id);
      assert Connections(a, id) == head + Connections(a[1..], id);
      ConnectionsAppend(a[1..], b, id);
    }
  }

  /** Each line names the other end of its link, seen from the selected
   *  device. */
  lemma DescribeOtherEnd(l: Link, id: string)
    requires l.source == id || l.target == id
    ensures var (port, other) := Describe(l, id);
      (l.source == id ==> port == l.sourcePort && other == l.target)
      && (l.source != id ==> port == l.targetPort && other == l.source && l.target == id)
  {
  }
}
