/** The resource kinds, the API surface each is served from, and the body fields each may be written with. */
module ResourceKinds {
  import opened Wrappers

  datatype ApiSurface = Supported | PrivateV1 | PrivateV2 | Cloud

  datatype ResourceKind =
    | Station | Device | Network | Wlan | PortProfile | DhcpReservation
    | FirewallPolicy | FirewallZone | FirewallGroup | TrafficRoute | RadiusProfile
    | FirewallRule | PortForward | StaticRoute
  {
    function Surface(): ApiSurface {
      match this
      case Station | Device => Supported
      case FirewallPolicy | FirewallZone | TrafficRoute => PrivateV2
      case _ => PrivateV1
    }
  }

  const ALL_KINDS := [Station, Device, Network, Wlan, PortProfile, DhcpReservation, FirewallPolicy, FirewallZone,
                      FirewallGroup, TrafficRoute, RadiusProfile, FirewallRule, PortForward, StaticRoute]

  const ZONE_KIND := "firewall_zone"

  /** The snake_case name each kind is staged under. */
  function KindName(kind: ResourceKind): string {
    match kind
    case Station => "station"
    case Device => "device"
    case Network => "network"
    case Wlan => "wlan"
    case PortProfile => "port_profile"
    case DhcpReservation => "dhcp_reservation"
    case FirewallPolicy => "firewall_policy"
    case FirewallZone => ZONE_KIND
    case FirewallGroup => "firewall_group"
    case TrafficRoute => "traffic_route"
    case RadiusProfile => "radius_profile"
    case FirewallRule => "firewall_rule"
    case PortForward => "port_forward"
    case StaticRoute => "static_route"
  }

  function ParseFrom(candidates: seq<ResourceKind>, name: string): Option<ResourceKind> {
    if candidates == [] then None
    else if KindName(candidates[0]) == name then Some(candidates[0])
    else ParseFrom(candidates[1..], name)
  }

  /** The kind a staged name stands for, if it stands for one. */
  function ParseKind(name: string): Option<ResourceKind> {
    ParseFrom(ALL_KINDS, name)
  }

  lemma {:induction false} ParseFromFinds(candidates: seq<ResourceKind>, name: string, kind: ResourceKind)
    ensures ParseFrom(candidates, name) == Some(kind) ==> KindName(kind) == name
    ensures KindName(kind) == name && kind in candidates ==> ParseFrom(candidates, name).Some?
  {
    if candidates != [] {
      ParseFromFinds(candidates[1..], name, kind);
      assert kind in candidates ==> kind == candidates[0] || kind in candidates[1..];
    }
  }

  /** Length, first letter and tenth letter tell every pair of names apart. */
  lemma NamesAreDistinct(a: ResourceKind, b: ResourceKind)
    requires KindName(a) == KindName(b)
    ensures a == b
  {
    assert |KindName(a)| == |KindName(b)| && KindName(a)[0] == KindName(b)[0];
    assert |KindName(a)| > 9 ==> KindName(a)[9] == KindName(b)[9];
  }

  /** Parsing inverts naming: the fourteen names are distinct and nothing else parses. */
  lemma ParseInvertsName(name: string, kind: ResourceKind)
    ensures ParseKind(name) == Some(kind) <==> name == KindName(kind)
  {
    assert kind in ALL_KINDS by {
      assert ALL_KINDS[0] == Station && ALL_KINDS[1] == Device && ALL_KINDS[2] == Network && ALL_KINDS[3] == Wlan;
      assert ALL_KINDS[4] == PortProfile && ALL_KINDS[5] == DhcpReservation && ALL_KINDS[6] == FirewallPolicy;
      assert ALL_KINDS[7] == FirewallZone && ALL_KINDS[8] == FirewallGroup && ALL_KINDS[9] == TrafficRoute;
      assert ALL_KINDS[10] == RadiusProfile && ALL_KINDS[11] == FirewallRule && ALL_KINDS[12] == PortForward;
      assert ALL_KINDS[13] == StaticRoute;
    }
    ParseFromFinds(ALL_KINDS, name, kind);
    if name == KindName(kind) {
      var parsed := ParseKind(name).value;
      ParseFromFinds(ALL_KINDS, name, parsed);
      NamesAreDistinct(parsed, kind);
    }
  }

  lemma ZoneNameParses(name: string, kind: ResourceKind)
    requires ParseKind(name) == Some(kind)
    ensures kind == FirewallZone <==> name == ZONE_KIND
  {
    ParseInvertsName(name, kind);
    ParseInvertsName(name, FirewallZone);
  }

  /** Whether an update of this kind is a partial write that apply merges. */
  predicate MergesPartially(name: string) {
    ParseKind(name).Some? && ParseKind(name).value.Surface() == PrivateV2
  }

  /** Exactly the three kinds of the Private v2 surface are merged. */
  lemma MergedKinds(name: string)
    ensures MergesPartially(name) <==> name in {"firewall_policy", "firewall_zone", "traffic_route"}
  {
    if ParseKind(name).Some? {
      ParseInvertsName(name, ParseKind(name).value);
    }
    ParseInvertsName(name, FirewallPolicy);
    ParseInvertsName(name, FirewallZone);
    ParseInvertsName(name, TrafficRoute);
  }

  /** The top-level fields a staged body may set; `None` when the kind may not be written at all. */
  function WritableFields(kind: ResourceKind): Option<set<string>> {
    match kind
    case Station | Device | FirewallRule | PortForward | StaticRoute => None
    case Network => Some({"name", "purpose", "ip_subnet", "vlan", "dhcpd_enabled", "dhcpd_start", "dhcpd_stop",
                          "wan_dns1", "wan_dns2", "wan_ipv6_dns1", "wan_ipv6_dns2"})
    case Wlan => Some({"name", "enabled", "security", "wlan_band", "is_guest"})
    case PortProfile => Some({"name", "forward", "native_networkconf_id"})
    case DhcpReservation => Some({"mac", "last_ip", "fixed_ip", "hostname", "use_fixedip"})
    case FirewallGroup => Some({"name", "group_type", "group_members"})
    case RadiusProfile => Some({"name", "external_id"})
    case FirewallZone => Some({"name", "default_zone", "network_ids", "external_id"})
    case FirewallPolicy => Some({"name", "action", "enabled", "index", "predefined", "source", "destination",
                                 "protocol", "schedule", "connection_state_type", "connection_states",
                                 "ip_version", "logging"})
    case TrafficRoute => Some({"name"})
  }
}
