/**
 * The register path: collect the instance's addresses into three buckets, emit the address
 * record sets the zone's privacy calls for, add a CNAME from the label tag, and wrap every set
 * as a CREATE with the fixed TTL.
 */
module RegisterPlanner {
  import opened Wrappers
  import opened Records
  import opened Tags

  // ---------------------------------------------------------------------------------------------
  // Address buckets

  /** The truthy values of `field` over `xs`, in order: absent and empty values are skipped. */
  function Present<T>(xs: seq<T>, field: T -> Option<string>): seq<string>
    decreases |xs|
  {
    if xs == [] then []
    else
      var v := field(xs[|xs| - 1]);
      Present(xs[..|xs| - 1], field) + (if Truthy(v) then [v.value] else [])
  }

  /** The per-interface buckets concatenated in interface order. */
  function Gather(nics: seq<NetworkInterface>, bucket: NetworkInterface -> seq<string>): seq<string>
    decreases |nics|
  {
    if nics == [] then [] else Gather(nics[..|nics| - 1], bucket) + bucket(nics[|nics| - 1])
  }

  function PrivateIpOf(a: PrivateAddress): Option<string> {
    a.privateIpAddress
  }

  /** `addr.Association?.PublicIp` */
  function PublicIpOf(a: PrivateAddress): Option<string> {
    match a.association
    case None => None
    case Some(assoc) => assoc.publicIp
  }

  function Ipv6Of(a: Ipv6Entry): Option<string> {
    a.ipv6Address
  }

  function Interfaces(instance: Instance): seq<NetworkInterface> {
    instance.networkInterfaces.GetOr([])
  }

  function PrivateEntries(nic: NetworkInterface): seq<PrivateAddress> {
    nic.privateIpAddresses.GetOr([])
  }

  function Ipv6Entries(nic: NetworkInterface): seq<Ipv6Entry> {
    nic.ipv6Addresses.GetOr([])
  }

  function NicPrivateV4(nic: NetworkInterface): seq<string> {
    Present(PrivateEntries(nic), PrivateIpOf)
  }

  function NicPublicV4(nic: NetworkInterface): seq<string> {
    Present(PrivateEntries(nic), PublicIpOf)
  }

  function NicPublicV6(nic: NetworkInterface): seq<string> {
    Present(Ipv6Entries(nic), Ipv6Of)
  }

  /** The private IPv4 bucket, in interface-then-entry order. */
  function PrivateV4(instance: Instance): seq<string> {
    Gather(Interfaces(instance), NicPrivateV4)
  }

  /** The public IPv4 bucket, taken from the association of each private address entry. */
  function PublicV4(instance: Instance): seq<string> {
    Gather(Interfaces(instance), NicPublicV4)
  }

  /** The IPv6 bucket. */
  function PublicV6(instance: Instance): seq<string> {
    Gather(Interfaces(instance), NicPublicV6)
  }

  /** A value is collected exactly when some element carries it, non-empty, in `field`. */
  lemma {:induction false} PresentMembers<T>(xs: seq<T>, field: T -> Option<string>, x: string)
    ensures x in Present(xs, field) <==> x != "" && exists i :: 0 <= i < |xs| && field(xs[i]) == Some(x)
    decreases |xs|
  {
    if xs != [] {
      var init := xs[..|xs| - 1];
      PresentMembers(init, field, x);
      if x != "" && exists i :: 0 <= i < |xs| && field(xs[i]) == Some(x) {
        var i :| 0 <= i < |xs| && field(xs[i]) == Some(x);
        if i < |xs| - 1 {
          assert init[i] == xs[i];
        }
      }
      if x != "" && exists i :: 0 <= i < |init| && field(init[i]) == Some(x) {
        var i :| 0 <= i < |init| && field(init[i]) == Some(x);
        assert xs[i] == init[i];
      }
    }
  }

  /** A value is gathered exactly when some interface's bucket holds it. */
  lemma {:induction false} GatherMembers(nics: seq<NetworkInterface>, bucket: NetworkInterface -> seq<string>, x: string)
    ensures x in Gather(nics, bucket) <==> exists i :: 0 <= i < |nics| && x in bucket(nics[i])
    decreases |nics|
  {
    if nics != [] {
      var init := nics[..|nics| - 1];
      GatherMembers(init, bucket, x);
      if exists i :: 0 <= i < |nics| && x in bucket(nics[i]) {
        var i :| 0 <= i < |nics| && x in bucket(nics[i]);
        if i < |nics| - 1 {
          assert init[i] == nics[i];
        }
      }
      if exists i :: 0 <= i < |init| && x in bucket(init[i]) {
        var i :| 0 <= i < |init| && x in bucket(init[i]);
        assert nics[i] == init[i];
      }
    }
  }

  /** The private bucket holds exactly the non-empty `PrivateIpAddress` fields of the instance. */
  lemma PrivateV4Members(instance: Instance, x: string)
    ensures x in PrivateV4(instance) <==>
      x != "" && (exists i, j :: 0 <= i < |Interfaces(instance)| && 0 <= j < |PrivateEntries(Interfaces(instance)[i])| &&
                                 PrivateEntries(Interfaces(instance)[i])[j].privateIpAddress == Some(x))
  {
    var nics := Interfaces(instance);
    GatherMembers(nics, NicPrivateV4, x);
    forall i | 0 <= i < |nics|
      ensures x in NicPrivateV4(nics[i]) <==>
        x != "" && exists j :: 0 <= j < |PrivateEntries(nics[i])| && PrivateIpOf(PrivateEntries(nics[i])[j]) == Some(x)
    {
      PresentMembers(PrivateEntries(nics[i]), PrivateIpOf, x);
    }
  }

  /** The public IPv4 bucket holds exactly the non-empty public IPs associated with private address entries. */
  lemma PublicV4Members(instance: Instance, x: string)
    ensures x in PublicV4(instance) <==>
      x != "" && (exists i, j :: 0 <= i < |Interfaces(instance)| && 0 <= j < |PrivateEntries(Interfaces(instance)[i])| &&
                                 PublicIpOf(PrivateEntries(Interfaces(instance)[i])[j]) == Some(x))
  {
    var nics := Interfaces(instance);
    GatherMembers(nics, NicPublicV4, x);
    forall i | 0 <= i < |nics|
      ensures x in NicPublicV4(nics[i]) <==>
        x != "" && exists j :: 0 <= j < |PrivateEntries(nics[i])| && PublicIpOf(PrivateEntries(nics[i])[j]) == Some(x)
    {
      PresentMembers(PrivateEntries(nics[i]), PublicIpOf, x);
    }
  }

  /** The IPv6 bucket holds exactly the non-empty `Ipv6Address` fields of the instance. */
  lemma PublicV6Members(instance: Instance, x: string)
    ensures x in PublicV6(instance) <==>
      x != "" && (exists i, j :: 0 <= i < |Interfaces(instance)| && 0 <= j < |Ipv6Entries(Interfaces(instance)[i])| &&
                                 Ipv6Entries(Interfaces(instance)[i])[j].ipv6Address == Some(x))
  {
    var nics := Interfaces(instance);
    GatherMembers(nics, NicPublicV6, x);
    forall i | 0 <= i < |nics|
      ensures x in NicPublicV6(nics[i]) <==>
        x != "" && exists j :: 0 <= j < |Ipv6Entries(nics[i])| && Ipv6Of(Ipv6Entries(nics[i])[j]) == Some(x)
    {
      PresentMembers(Ipv6Entries(nics[i]), Ipv6Of, x);
    }
  }

  // ---------------------------------------------------------------------------------------------
  // Label normalisation

  predicate Printable(c: char) {
    '!' <= c <= '~'
  }

  /** `replace(/[^!-~]/g, '_')`: every character outside `'!'..'~'` becomes `'_'`, the rest stay. */
  function Sanitize(s: string): (r: string)
    ensures |r| == |s|
    ensures forall i :: 0 <= i < |s| ==> Printable(r[i])
    ensures forall i :: 0 <= i < |s| && Printable(s[i]) ==> r[i] == s[i]
    ensures forall i :: 0 <= i < |s| && !Printable(s[i]) ==> r[i] == '_'
    decreases |s|
  {
    if s == [] then []
    else [if Printable(s[0]) then s[0] else '_'] + Sanitize(s[1..])
  }

  /** Sanitising leaves a printable label as it is, and so sanitising twice changes nothing more. */
  lemma SanitizeIdempotent(s: string)
    ensures (forall i :: 0 <= i < |s| ==> Printable(s[i])) ==> Sanitize(s) == s
    ensures Sanitize(Sanitize(s)) == Sanitize(s)
  {
    var r := Sanitize(s);
    assert |Sanitize(r)| == |r|;
  }

  // ---------------------------------------------------------------------------------------------
  // The plan

  /** The address record sets for the instance: private zones get the private IPv4 bucket as `A`;
      public zones get the public IPv4 bucket as `A` and then the IPv6 bucket as `AAAA`; each only
      when its bucket is non-empty. */
  function AddressSets(instance: Instance, zone: HostedZone): seq<RecordSet> {
    var name := CanonicalName(instance.instanceId, zone.name);
    if IsPrivate(zone) then
      (if PrivateV4(instance) != [] then [RecordSet(name, "A", None, Some(PrivateV4(instance)))] else [])
    else
      (if PublicV4(instance) != [] then [RecordSet(name, "A", None, Some(PublicV4(instance)))] else [])
      + (if PublicV6(instance) != [] then [RecordSet(name, "AAAA", None, Some(PublicV6(instance)))] else [])
  }

  /** `getTagValue(instance, 'HostName') || getTagValue(instance, 'Name')` */
  function Label(instance: Instance): Option<string> {
    var hostName := TagValue(instance.tags, HostNameKey);
    if Truthy(hostName) then hostName else TagValue(instance.tags, NameKey)
  }

  /** The CNAME for a label: named `<normalised label>.<zone name>.`, pointing at the canonical name. */
  function CnameSet(labelText: string, instance: Instance, zone: HostedZone, toAscii: string -> string): RecordSet {
    RecordSet(Sanitize(toAscii(labelText)) + "." + zone.name + ".", "CNAME", None,
              Some([CanonicalName(instance.instanceId, zone.name)]))
  }

  /** Every set as a CREATE change carrying the fixed TTL. */
  function Creates(sets: seq<RecordSet>): seq<Change> {
    seq(|sets|, i requires 0 <= i < |sets| => Change(Create, sets[i].(ttl := Some(Ttl))))
  }

  /** The register plan: no address set means no change at all; otherwise the address sets, then
      the label's CNAME when there is a label, all as CREATE changes. */
  function RegisterPlan(instance: Instance, zone: HostedZone, toAscii: string -> string): seq<Change> {
    var sets := AddressSets(instance, zone);
    if sets == [] then []
    else
      var tagLabel := Label(instance);
      Creates(sets + (if Truthy(tagLabel) then [CnameSet(tagLabel.value, instance, zone, toAscii)] else []))
  }

  /** The record types of a change list, in order. */
  function Types(changes: seq<Change>): seq<string> {
    seq(|changes|, i requires 0 <= i < |changes| => changes[i].recordSet.rrType)
  }

  /** The position of a record type in a register plan: `A`, then `AAAA`, then `CNAME`. */
  function TypeRank(rrType: string): nat {
    if rrType == "A" then 0 else if rrType == "AAAA" then 1 else if rrType == "CNAME" then 2 else 3
  }

  /** Every change of a register plan is a CREATE carrying the fixed TTL of 300 seconds. */
  lemma RegisterPlanCreates(instance: Instance, zone: HostedZone, toAscii: string -> string)
    ensures var changes := RegisterPlan(instance, zone, toAscii);
      forall i :: 0 <= i < |changes| ==> changes[i].action == Create && changes[i].recordSet.ttl == Some(Ttl)
  {
  }

  /** The record types of some record sets, in order. */
  function SetTypes(sets: seq<RecordSet>): seq<string> {
    seq(|sets|, i requires 0 <= i < |sets| => sets[i].rrType)
  }

  /** The address sets are `A`, `AAAA`, or `A` then `AAAA`, when there are any. */
  lemma AddressSetTypes(instance: Instance, zone: HostedZone)
    ensures var types := SetTypes(AddressSets(instance, zone));
      types == [] || types == ["A"] || types == ["AAAA"] || types == ["A", "AAAA"]
  {
  }

  /** The ranks of record types in a plan strictly increase, and no rank is past CNAME's. */
  predicate InTypeOrder(types: seq<string>) {
    (forall i :: 0 <= i < |types| ==> TypeRank(types[i]) < 3) &&
    (forall i, j :: 0 <= i < j < |types| ==> TypeRank(types[i]) < TypeRank(types[j]))
  }

  /** An address-type sequence, then possibly a CNAME, is in type order. */
  lemma AddressThenCnameInOrder(address: seq<string>, cname: seq<string>)
    requires address == ["A"] || address == ["AAAA"] || address == ["A", "AAAA"]
    requires cname == [] || cname == ["CNAME"]
    ensures InTypeOrder(address + cname)
  {
  }

  /** The types of a non-empty register plan: those of the address sets, then CNAME when the label
      is truthy. */
  lemma PlanTypes(instance: Instance, zone: HostedZone, toAscii: string -> string)
    requires AddressSets(instance, zone) != []
    ensures Types(RegisterPlan(instance, zone, toAscii)) ==
      SetTypes(AddressSets(instance, zone)) + (if Truthy(Label(instance)) then ["CNAME"] else [])
  {
    var sets := AddressSets(instance, zone);
    var tagLabel := Label(instance);
    var extra := if Truthy(tagLabel) then [CnameSet(tagLabel.value, instance, zone, toAscii)] else [];
    assert Types(RegisterPlan(instance, zone, toAscii)) == SetTypes(sets + extra);
    assert SetTypes(sets + extra) == SetTypes(sets) + SetTypes(extra);
  }

  /** The record types of a register plan come in the order A, AAAA, CNAME, each at most once. */
  lemma RegisterPlanOrder(instance: Instance, zone: HostedZone, toAscii: string -> string)
    ensures InTypeOrder(Types(RegisterPlan(instance, zone, toAscii)))
  {
    if AddressSets(instance, zone) != [] {
      PlanTypes(instance, zone, toAscii);
      AddressSetTypes(instance, zone);
      AddressThenCnameInOrder(SetTypes(AddressSets(instance, zone)), if Truthy(Label(instance)) then ["CNAME"] else []);
    }
  }

  /** With the TTL taken off again, the CREATE changes give back exactly the planned record sets. */
  lemma CreatesRoundTrip(sets: seq<RecordSet>)
    requires forall i :: 0 <= i < |sets| ==> sets[i].ttl.None?
    ensures var changes := Creates(sets);
      |changes| == |sets| &&
      forall i :: 0 <= i < |sets| ==> changes[i].action == Create && changes[i].recordSet.(ttl := None) == sets[i]
  {
  }

  /** Private zone: only an `A` set of the private IPv4 bucket, under the canonical name, and only
      when that bucket is non-empty; no `AAAA`, and no public address is ever emitted. */
  lemma PrivateZonePlan(instance: Instance, zone: HostedZone, toAscii: string -> string)
    requires IsPrivate(zone)
    ensures var changes := RegisterPlan(instance, zone, toAscii);
      (PrivateV4(instance) == [] ==> changes == []) &&
      (PrivateV4(instance) != [] ==>
        1 <= |changes| <= 2 &&
        changes[0] == Change(Create, RecordSet(CanonicalName(instance.instanceId, zone.name), "A", Some(Ttl), Some(PrivateV4(instance))))) &&
      (forall c :: c in changes ==> c.recordSet.rrType != "AAAA") &&
      (forall c :: c in changes && c.recordSet.rrType == "A" ==> c.recordSet.resourceRecords == Some(PrivateV4(instance)))
  {
  }

  /** Public zone: an `A` set of the public IPv4 bucket first when that bucket is non-empty, then an
      `AAAA` set of the IPv6 bucket when that one is non-empty, independently of each other. */
  lemma PublicZonePlan(instance: Instance, zone: HostedZone, toAscii: string -> string)
    requires !IsPrivate(zone)
    ensures var changes := RegisterPlan(instance, zone, toAscii);
      var name := CanonicalName(instance.instanceId, zone.name);
      var v4, v6 := PublicV4(instance), PublicV6(instance);
      (v4 == [] && v6 == [] ==> changes == []) &&
      (v4 != [] ==> |changes| >= 1 && changes[0] == Change(Create, RecordSet(name, "A", Some(Ttl), Some(v4)))) &&
      (v6 != [] ==>
        var k := if v4 != [] then 1 else 0;
        |changes| > k && changes[k] == Change(Create, RecordSet(name, "AAAA", Some(Ttl), Some(v6))))
  {
  }

  /** Public zone: an `A` change appears iff there is a public IPv4 address, an `AAAA` change iff
      there is an IPv6 address. */
  lemma PublicZoneTypes(instance: Instance, zone: HostedZone, toAscii: string -> string)
    requires !IsPrivate(zone)
    ensures var changes := RegisterPlan(instance, zone, toAscii);
      ((exists c :: c in changes && c.recordSet.rrType == "A") <==> PublicV4(instance) != []) &&
      ((exists c :: c in changes && c.recordSet.rrType == "AAAA") <==> PublicV6(instance) != [])
  {
    var changes := RegisterPlan(instance, zone, toAscii);
    PublicZonePlan(instance, zone, toAscii);
    if PublicV4(instance) != [] {
      assert changes[0] in changes;
    }
    if PublicV6(instance) != [] {
      var k := if PublicV4(instance) != [] then 1 else 0;
      assert changes[k] in changes;
    }
    var sets := AddressSets(instance, zone);
    var tagLabel := Label(instance);
    var all := sets + (if Truthy(tagLabel) then [CnameSet(tagLabel.value, instance, zone, toAscii)] else []);
    forall c | c in changes && c.recordSet.rrType in {"A", "AAAA"}
      ensures c.recordSet.rrType == "A" ==> PublicV4(instance) != []
      ensures c.recordSet.rrType == "AAAA" ==> PublicV6(instance) != []
    {
      var i :| 0 <= i < |changes| && changes[i] == c;
      assert c.recordSet.rrType == all[i].rrType;
      if i >= |sets| {
        assert all[i].rrType == "CNAME";
      }
    }
  }

  /** No address set means an empty plan whatever the tags: there is never a CNAME on its own. With
      address sets, the plan is one CREATE per address set, then one CNAME exactly when the label
      is truthy: named `<label>.<zone name>.` with every label character in `'!'..'~'`, and pointing
      at the canonical name. */
  lemma CnamePlan(instance: Instance, zone: HostedZone, toAscii: string -> string)
    ensures var changes := RegisterPlan(instance, zone, toAscii);
      var sets := AddressSets(instance, zone);
      var tagLabel := Label(instance);
      (sets == [] ==> changes == []) &&
      (sets != [] && !Truthy(tagLabel) ==>
        |changes| == |sets| && forall c :: c in changes ==> c.recordSet.rrType != "CNAME") &&
      (sets != [] && Truthy(tagLabel) ==>
        var normalised := Sanitize(toAscii(tagLabel.value));
        var cname := changes[|changes| - 1].recordSet;
        |changes| == |sets| + 1 &&
        changes[|changes| - 1].action == Create &&
        cname == RecordSet(normalised + "." + zone.name + ".", "CNAME", Some(Ttl),
                           Some([CanonicalName(instance.instanceId, zone.name)])) &&
        (forall k :: 0 <= k < |normalised| ==> Printable(cname.name[k])))
  {
    var changes := RegisterPlan(instance, zone, toAscii);
    var sets := AddressSets(instance, zone);
    if sets != [] && !Truthy(Label(instance)) {
      forall c | c in changes ensures c.recordSet.rrType != "CNAME" {
        var i :| 0 <= i < |changes| && changes[i] == c;
        assert c.recordSet.rrType == sets[i].rrType;
      }
    }
  }

  /** Label precedence: a truthy `HostName` tag (the first one carrying that key) names the CNAME;
      otherwise the first `Name` tag does. */
  lemma LabelPrecedence(instance: Instance, ts: seq<Tag>, i: nat)
    requires instance.tags == Some(ts)
    requires i < |ts| && ts[i].key == Some(HostNameKey) && Truthy(ts[i].value)
    requires forall j :: 0 <= j < i ==> ts[j].key != Some(HostNameKey)
    ensures Label(instance) == ts[i].value
  {
    FirstValueAt(ts, HostNameKey, i);
  }

  /** When the first `HostName` tag is missing or falsy, the label falls back to the first `Name`
      tag, whatever later `HostName` tags hold. */
  lemma LabelFallback(instance: Instance, ts: seq<Tag>, i: nat)
    requires instance.tags == Some(ts)
    requires !Truthy(FirstValue(ts, HostNameKey))
    requires i < |ts| && ts[i].key == Some(NameKey)
    requires forall j :: 0 <= j < i ==> ts[j].key != Some(NameKey)
    ensures Label(instance) == ts[i].value
  {
    FirstValueAt(ts, NameKey, i);
  }

  /** The instance of the register tests: one interface with a private address, its public IP and
      an IPv6 address, tagged `Name=dummy`. The tests give it no `InstanceId`; the model names it
      `i-dummy`, which changes neither the record types nor the record counts stated below. */
  function FixtureInstance(): Instance {
    Instance("i-dummy",
      Some([NetworkInterface(
        Some([PrivateAddress(Some("PrivateIpAddress"), Some(Association(Some("PublicIp"))))]),
        Some([Ipv6Entry(Some("Ipv6Address"))]))]),
      Some([Tag(Some("Name"), Some("dummy"))]))
  }

  /** The register tests: a public zone gets A, AAAA and CNAME; a private zone gets A and CNAME;
      each set has one record. */
  lemma RegisterFixture(toAscii: string -> string)
    ensures var publicPlan := RegisterPlan(FixtureInstance(), HostedZone("Id", "Name", Some(ZoneConfig(false))), toAscii);
      Types(publicPlan) == ["A", "AAAA", "CNAME"] &&
      forall i :: 0 <= i < 3 ==> |publicPlan[i].recordSet.resourceRecords.value| == 1
    ensures var privatePlan := RegisterPlan(FixtureInstance(), HostedZone("Id", "Name", Some(ZoneConfig(true))), toAscii);
      Types(privatePlan) == ["A", "CNAME"] &&
      forall i :: 0 <= i < 2 ==> |privatePlan[i].recordSet.resourceRecords.value| == 1
  {
    var instance := FixtureInstance();
    var nic := Interfaces(instance)[0];
    assert Interfaces(instance)[..0] == [];
    assert NicPrivateV4(nic) == ["PrivateIpAddress"];
    assert NicPublicV4(nic) == ["PublicIp"];
    assert NicPublicV6(nic) == ["Ipv6Address"];
    assert PrivateV4(instance) == ["PrivateIpAddress"];
    assert PublicV4(instance) == ["PublicIp"];
    assert PublicV6(instance) == ["Ipv6Address"];
    assert Label(instance) == Some("dummy");
  }

  /** The `PrivateIpAddresses` callback: pushes each truthy private IPv4 address and each truthy
      associated public IP of the entries, in order. */
  method PushPrivateEntries(entries: seq<PrivateAddress>, privateV4: seq<string>, publicV4: seq<string>)
    returns (privateOut: seq<string>, publicOut: seq<string>)
    ensures privateOut == privateV4 + Present(entries, PrivateIpOf)
    ensures publicOut == publicV4 + Present(entries, PublicIpOf)
  {
    privateOut, publicOut := privateV4, publicV4;
    var j := 0;
    while j < |entries|
      invariant 0 <= j <= |entries|
      invariant privateOut == privateV4 + Present(entries[..j], PrivateIpOf)
      invariant publicOut == publicV4 + Present(entries[..j], PublicIpOf)
    {
      var addr := entries[j];
      if Truthy(addr.privateIpAddress) {
        privateOut := privateOut + [addr.privateIpAddress.value];
      }
      if addr.association.Some? && Truthy(addr.association.value.publicIp) {
        publicOut := publicOut + [addr.association.value.publicIp.value];
      }
      assert entries[..j + 1][..j] == entries[..j];
      j := j + 1;
    }
    assert entries[..j] == entries;
  }

  /** The `Ipv6Addresses` callback: pushes each truthy IPv6 address, in order. */
  method PushIpv6Entries(entries: seq<Ipv6Entry>, publicV6: seq<string>) returns (v6Out: seq<string>)
    ensures v6Out == publicV6 + Present(entries, Ipv6Of)
  {
    v6Out := publicV6;
    var k := 0;
    while k < |entries|
      invariant 0 <= k <= |entries|
      invariant v6Out == publicV6 + Present(entries[..k], Ipv6Of)
    {
      if Truthy(entries[k].ipv6Address) {
        v6Out := v6Out + [entries[k].ipv6Address.value];
      }
      assert entries[..k + 1][..k] == entries[..k];
      k := k + 1;
    }
    assert entries[..k] == entries;
  }

  /** The `NetworkInterfaces` walk: the three buckets of the instance. */
  method CollectBuckets(instance: Instance) returns (privateV4: seq<string>, publicV4: seq<string>, publicV6: seq<string>)
    ensures privateV4 == PrivateV4(instance)
    ensures publicV4 == PublicV4(instance)
    ensures publicV6 == PublicV6(instance)
  {
    privateV4, publicV4, publicV6 := [], [], [];
    var nics := instance.networkInterfaces.GetOr([]);
    var i := 0;
    while i < |nics|
      invariant 0 <= i <= |nics|
      invariant privateV4 == Gather(nics[..i], NicPrivateV4)
      invariant publicV4 == Gather(nics[..i], NicPublicV4)
      invariant publicV6 == Gather(nics[..i], NicPublicV6)
    {
      var eni := nics[i];
      privateV4, publicV4 := PushPrivateEntries(eni.privateIpAddresses.GetOr([]), privateV4, publicV4);
      publicV6 := PushIpv6Entries(eni.ipv6Addresses.GetOr([]), publicV6);
      assert nics[..i + 1][..i] == nics[..i];
      i := i + 1;
    }
    assert nics[..i] == nics;
  }

  /**
   * register: collects the three buckets, builds the address record sets by zone privacy, stops
   * with no change when there is none, appends the label's CNAME, and maps every set to a CREATE
   * change. `toAscii` stands for `punycode.toASCII`.
   */
  method Register(instance: Instance, zone: HostedZone, toAscii: string -> string) returns (changes: seq<Change>)
    ensures changes == RegisterPlan(instance, zone, toAscii)
  {
    var privateV4, publicV4, publicV6 := CollectBuckets(instance);

    var name := CanonicalName(instance.instanceId, zone.name);
    var sets: seq<RecordSet> := [];
    if IsPrivate(zone) {
      if |privateV4| > 0 {
        sets := sets + [RecordSet(name, "A", None, Some(privateV4))];
      }
    } else {
      if |publicV4| > 0 {
        sets := sets + [RecordSet(name, "A", None, Some(publicV4))];
      }
      if |publicV6| > 0 {
        sets := sets + [RecordSet(name, "AAAA", None, Some(publicV6))];
      }
    }
    assert sets == AddressSets(instance, zone);
    if |sets| == 0 {
      return [];
    }

    var tagLabel := GetTagValue(instance, HostNameKey);
    if !Truthy(tagLabel) {
      tagLabel := GetTagValue(instance, NameKey);
    }
    if Truthy(tagLabel) {
      var normalised := Sanitize(toAscii(tagLabel.value));
      sets := sets + [RecordSet(normalised + "." + zone.name + ".", "CNAME", None, Some([name]))];
    }
    changes := Creates(sets);
  }
}
