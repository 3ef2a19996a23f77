/** The request and response structures the API client exchanges with the
    management API (the structs at the top of shieldoo.go). */
module ApiTypes {

  /** A group reference: by id, by display name or by object id. */
  datatype Group = Group(id: string, name: string, objectId: string)

  /** A firewall rule; `host` is derived by normalisation ("group" or "any"). */
  datatype FirewallRule = FirewallRule(protocol: string, port: string, host: string, groups: seq<Group>)

  datatype Firewall = Firewall(id: string, name: string, rulesIn: seq<FirewallRule>, rulesOut: seq<FirewallRule>)

  /** A port forwarding on a server. Go's `int` is 64 bits wide, so the
      configured 64-bit numbers are carried over unchanged. */
  datatype Listener = Listener(listenPort: int, protocol: string, forwardPort: int, forwardHost: string, description: string)

  /** `updateHour` 0 means any time, otherwise a GMT hour; it is not checked locally. */
  datatype OSAutoupdatePolicy = OSAutoupdatePolicy(
    enabled: bool,
    securityAutoupdateEnabled: bool,
    allAutoupdateEnabled: bool,
    restartAfterUpdate: bool,
    updateHour: int)

  datatype Server = Server(
    id: string,
    name: string,
    groups: seq<Group>,
    firewall: Firewall,
    listeners: seq<Listener>,
    autoupdate: bool,
    ipAddress: string,
    description: string,
    configuration: string,
    osUpdatePolicy: OSAutoupdatePolicy)

  /** The three ways a configuration can name a group. */
  datatype GroupKind = ById | ByName | ByObjectId

  /** The group reference with exactly the field of `kind` set to `s`. */
  function GroupOf(kind: GroupKind, s: string): Group {
    match kind
    case ById => Group(s, "", "")
    case ByName => Group("", s, "")
    case ByObjectId => Group("", "", s)
  }

  /** One group reference of `kind` per string, in order. */
  function GroupsOf(kind: GroupKind, strings: seq<string>): (r: seq<Group>)
    ensures |r| == |strings|
  {
    seq(|strings|, i requires 0 <= i < |strings| => GroupOf(kind, strings[i]))
  }

  lemma GroupsOfSnoc(kind: GroupKind, strings: seq<string>, s: string)
    ensures GroupsOf(kind, strings + [s]) == GroupsOf(kind, strings) + [GroupOf(kind, s)]
  {
  }

  const NoFirewall := Firewall("", "", [], [])

  const NoUpdatePolicy := OSAutoupdatePolicy(false, false, false, false, 0)
}
