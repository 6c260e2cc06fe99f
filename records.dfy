/**
 * The entities the handler reads from EC2 and Route 53 and the changes it writes back.
 * Optional fields of the AWS shapes are `Option`s; only the fields the handler reads are kept.
 */
module Records {
  import opened Wrappers

  /** Tag keys the handler recognises. */
  const HostedZoneKey: string := "HostedZone"
  const HostNameKey: string := "HostName"
  const NameKey: string := "Name"

  /** The fixed time-to-live of every created record set, in seconds. */
  const Ttl: int := 300

  datatype Tag = Tag(key: Option<string>, value: Option<string>)

  /** The public IPv4 association of a private address entry. */
  datatype Association = Association(publicIp: Option<string>)

  /** One entry of an interface's `PrivateIpAddresses`. */
  datatype PrivateAddress = PrivateAddress(privateIpAddress: Option<string>, association: Option<Association>)

  /** One entry of an interface's `Ipv6Addresses`. */
  datatype Ipv6Entry = Ipv6Entry(ipv6Address: Option<string>)

  datatype NetworkInterface = NetworkInterface(
    privateIpAddresses: Option<seq<PrivateAddress>>,
    ipv6Addresses: Option<seq<Ipv6Entry>>)

  datatype Instance = Instance(
    instanceId: string,
    networkInterfaces: Option<seq<NetworkInterface>>,
    tags: Option<seq<Tag>>)

  datatype ZoneConfig = ZoneConfig(privateZone: bool)

  /** A hosted zone; `name` is the zone's domain suffix, trailing dot included when Route 53 gives one. */
  datatype HostedZone = HostedZone(id: string, name: string, config: Option<ZoneConfig>)

  /** A Route 53 record set; each record is kept as its `Value` string. */
  datatype RecordSet = RecordSet(
    name: string,
    rrType: string,
    ttl: Option<int>,
    resourceRecords: Option<seq<string>>)

  datatype Action = Create | Delete

  datatype Change = Change(action: Action, recordSet: RecordSet)

  /** JavaScript truthiness of an optional string: present and not empty. */
  predicate Truthy(s: Option<string>) {
    s.Some? && s.value != ""
  }

  /** `hostedZone.Config?.PrivateZone` taken as a condition. */
  predicate IsPrivate(zone: HostedZone) {
    zone.config.Some? && zone.config.value.privateZone
  }

  /** The name that joins an instance to the records it owns: `<instance-id>.<zone name>`, no dot added. */
  function CanonicalName(instanceId: string, zoneName: string): string {
    instanceId + "." + zoneName
  }
}
