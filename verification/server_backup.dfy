/** The observable contract of the server protection plugin's
    `create_backup`, as the plugin's tests pin it down: the inventories the
    fake compute, volume and network clients serve, the metadata record
    derived from them, and the two bank keys written under the server's
    resource section. */
module ServerBackup {
  import opened Results
  import opened Values
  import opened FakeBank
  import opened BankSections

  datatype ResourceKind = ServerKind | VolumeKind | ImageKind

  datatype Resource = Resource(id: string, kind: ResourceKind, name: string)

  /** A resource and the resources that depend on it (a server and its volumes). */
  datatype ResourceNode = ResourceNode(value: Resource, childNodes: seq<ResourceNode>)

  /** One entry of a server's `addresses` list for a network. */
  datatype AddressEntry = AddressEntry(macAddr: string, ipType: string, addr: string, version: int)

  /** The entries of `addresses` under one network name, in dict order. */
  datatype NetworkAddresses = NetworkAddresses(network: string, entries: seq<AddressEntry>)

  datatype Server = Server(
    id: string,
    addresses: seq<NetworkAddresses>,
    availabilityZone: string,
    flavorId: string,
    keyName: Option<string>,
    securityGroups: string)

  datatype Attachment = Attachment(serverId: string, attachmentId: string, hostName: string,
                                   volumeId: string, device: string, id: string)

  datatype Volume = Volume(id: string, volumeType: string, status: string, attachments: seq<Attachment>)

  datatype Port = Port(id: string, macAddress: string, deviceId: string, networkId: string)

  /** What the fake clients serve: servers and volumes by id, ports as a list. */
  datatype Inventory = Inventory(servers: map<string, Server>, volumes: map<string, Volume>, ports: seq<Port>)

  datatype ServerMetadata = ServerMetadata(
    availabilityZone: string,
    networks: seq<string>,
    floatingIps: seq<string>,
    flavor: string,
    keyName: Option<string>,
    securityGroups: string)

  /** The record written under the resource's `metadata` key. */
  datatype ResourceDefinition = ResourceDefinition(
    resourceId: string,
    attachMetadata: map<string, string>,
    serverMetadata: ServerMetadata)

  const ProtectingStatus := "protecting"
  const ErrorStatus := "error"

  // ---------------------------------------------------------------------
  // Fake clients

  /** `FakeNovaClient.servers.get`: a dict lookup that raises on a miss. */
  function GetServer(inv: Inventory, id: string): (r: Result<Server>)
    ensures r.Success? <==> id in inv.servers
    ensures r.Success? ==> r.value == inv.servers[id]
  {
    if id in inv.servers then Success(inv.servers[id]) else Failure(KeyError(id))
  }

  /** `FakeCinderClient.volumes.get`: a dict lookup that raises on a miss. */
  function GetVolume(inv: Inventory, id: string): (r: Result<Volume>)
    ensures r.Success? <==> id in inv.volumes
    ensures r.Success? ==> r.value == inv.volumes[id]
  {
    if id in inv.volumes then Success(inv.volumes[id]) else Failure(KeyError(id))
  }

  /** The ports whose MAC address is one of `macs`, in list order. */
  function PortsWithMac(ports: seq<Port>, macs: set<string>): (r: seq<Port>)
    ensures |r| <= |ports|
    ensures forall p :: p in r <==> p in ports && p.macAddress in macs
  {
    if |ports| == 0 then []
    else
      var last := ports[|ports| - 1];
      assert ports == ports[..|ports| - 1] + [last];
      PortsWithMac(ports[..|ports| - 1], macs) + (if last.macAddress in macs then [last] else [])
  }

  /** `FakeNeutronClient.list_ports(mac_address)`: the loop over the port
      list keeping the ports with that MAC. */
  method ListPorts(ports: seq<Port>, macAddress: string) returns (result: seq<Port>)
    ensures result == PortsWithMac(ports, {macAddress})
    ensures forall p :: p in result ==> p.macAddress == macAddress
  {
    result := [];
    var i := 0;
    while i < |ports|
      invariant i <= |ports|
      invariant result == PortsWithMac(ports[..i], {macAddress})
    {
      if ports[i].macAddress == macAddress {
        result := result + [ports[i]];
      }
      assert ports[..i + 1][..i] == ports[..i];
      i := i + 1;
    }
    assert ports[..i] == ports;
  }

  /** The first attachment of a volume to server `serverId`, if any. */
  function AttachmentTo(attachments: seq<Attachment>, serverId: string): (r: Option<Attachment>)
    ensures r.Some? ==> r.value in attachments && r.value.serverId == serverId
    ensures r.None? ==> forall a :: a in attachments ==> a.serverId != serverId
  {
    if |attachments| == 0 then None
    else if attachments[0].serverId == serverId then Some(attachments[0])
    else AttachmentTo(attachments[1..], serverId)
  }

  // ---------------------------------------------------------------------
  // Metadata derivation

  /** All address entries of a server, network by network. */
  function AddressEntries(addresses: seq<NetworkAddresses>): (r: seq<AddressEntry>)
    ensures forall e :: e in r <==> exists i :: 0 <= i < |addresses| && e in addresses[i].entries
  {
    if |addresses| == 0 then []
    else addresses[0].entries + AddressEntries(addresses[1..])
  }

  /** The MAC addresses that appear anywhere in a server's `addresses`. */
  function ServerMacs(server: Server): set<string> {
    set e | e in AddressEntries(server.addresses) :: e.macAddr
  }

  /** The addresses of type "floating", in address order. */
  function FloatingIps(entries: seq<AddressEntry>): (r: seq<string>)
    ensures forall a :: a in r ==> exists e :: e in entries && e.ipType == "floating" && e.addr == a
    ensures forall e :: e in entries && e.ipType == "floating" ==> e.addr in r
  {
    if |entries| == 0 then []
    else (if entries[0].ipType == "floating" then [entries[0].addr] else []) + FloatingIps(entries[1..])
  }

  function NetworkIds(ports: seq<Port>): (r: seq<string>)
    ensures |r| == |ports|
    ensures forall i :: 0 <= i < |ports| ==> r[i] == ports[i].networkId
  {
    seq(|ports|, i requires 0 <= i < |ports| => ports[i].networkId)
  }

  /** The `networks` list: network ids of the ports matching the server's MACs. */
  function Networks(server: Server, ports: seq<Port>): (r: seq<string>)
    ensures |r| <= |ports|
    ensures forall net :: net in r ==>
              exists p :: p in ports && p.macAddress in ServerMacs(server) && p.networkId == net
  {
    var matching := PortsWithMac(ports, ServerMacs(server));
    var r := NetworkIds(matching);
    forall net | net in r
      ensures exists p :: p in ports && p.macAddress in ServerMacs(server) && p.networkId == net
    {
      var i :| 0 <= i < |r| && r[i] == net;
      assert matching[i] in matching;
    }
    r
  }

  /** A child node that is a volume. */
  predicate IsVolumeChild(c: ResourceNode) {
    c.value.kind == VolumeKind
  }

  /** A child volume that is in the inventory and attached to server `vmId`. */
  predicate AttachedTo(c: ResourceNode, vmId: string, volumes: map<string, Volume>) {
    IsVolumeChild(c) && c.value.id in volumes
    && AttachmentTo(volumes[c.value.id].attachments, vmId).Some?
  }

  /** `attach_metadata`: each child volume's id mapped to the device of its
      attachment to the server. Children that are not volumes, or volumes not
      attached to this server, contribute nothing; a child volume the volume
      service does not know makes the lookup raise. */
  function AttachMetadata(vmId: string, children: seq<ResourceNode>, volumes: map<string, Volume>)
    : (r: Result<map<string, string>>)
    ensures r.Failure? <==> exists i :: 0 <= i < |children| && IsVolumeChild(children[i])
                                        && children[i].value.id !in volumes
    ensures r.Success? ==> forall v :: v in r.value <==>
              exists i :: 0 <= i < |children| && children[i].value.id == v
                          && AttachedTo(children[i], vmId, volumes)
    ensures r.Success? ==> forall v :: v in r.value ==>
              && v in volumes && AttachmentTo(volumes[v].attachments, vmId).Some?
              && r.value[v] == AttachmentTo(volumes[v].attachments, vmId).value.device
  {
    if |children| == 0 then Success(map[])
    else
      var n := |children| - 1;
      var c := children[n];
      assert children[..n] + [c] == children;
      var rest := AttachMetadata(vmId, children[..n], volumes);
      if rest.Failure? then rest
      else if !IsVolumeChild(c) then rest
      else if c.value.id !in volumes then Failure(KeyError(c.value.id))
      else match AttachmentTo(volumes[c.value.id].attachments, vmId)
        case None => rest
        case Some(a) => Success(rest.value[c.value.id := a.device])
  }

  /** The metadata record for a server node, or the lookup failure. */
  function BackupMetadata(node: ResourceNode, inv: Inventory): (r: Result<ResourceDefinition>)
    ensures r.Success? <==> GetServer(inv, node.value.id).Success?
                            && AttachMetadata(node.value.id, node.childNodes, inv.volumes).Success?
    ensures r.Success? ==> r.value.resourceId == node.value.id
    ensures r.Success? ==>
              r.value.attachMetadata == AttachMetadata(node.value.id, node.childNodes, inv.volumes).value
    ensures r.Success? ==>
              var server := inv.servers[node.value.id];
              var m := r.value.serverMetadata;
              && m.availabilityZone == server.availabilityZone
              && m.networks == Networks(server, inv.ports)
              && m.floatingIps == FloatingIps(AddressEntries(server.addresses))
              && m.flavor == server.flavorId
              && m.keyName == server.keyName
              && m.securityGroups == server.securityGroups
  {
    var server :- GetServer(inv, node.value.id);
    var attach :- AttachMetadata(node.value.id, node.childNodes, inv.volumes);
    Success(ResourceDefinition(
      node.value.id,
      attach,
      ServerMetadata(
        server.availabilityZone,
        Networks(server, inv.ports),
        FloatingIps(AddressEntries(server.addresses)),
        server.flavorId,
        server.keyName,
        server.securityGroups)))
  }

  // ---------------------------------------------------------------------
  // The record as stored in the bank

  function OptionalStr(x: Option<string>): Value {
    match x
    case None => Null
    case Some(s) => Str(s)
  }

  /** The record as the dict the tests compare against. */
  function MetadataValue(d: ResourceDefinition): (v: Value)
    ensures v.Dict? && v.entries.Keys == {"resource_id", "attach_metadata", "server_metadata"}
    ensures v.entries["server_metadata"].Dict?
    ensures v.entries["server_metadata"].entries.Keys
            == {"availability_zone", "networks", "floating_ips", "flavor", "key_name", "security_groups"}
  {
    var m := d.serverMetadata;
    Dict(map[
      "resource_id" := Str(d.resourceId),
      "attach_metadata" := StrDict(d.attachMetadata),
      "server_metadata" := Dict(map[
        "availability_zone" := Str(m.availabilityZone),
        "networks" := StrList(m.networks),
        "floating_ips" := StrList(m.floatingIps),
        "flavor" := Str(m.flavor),
        "key_name" := OptionalStr(m.keyName),
        "security_groups" := Str(m.securityGroups)])])
  }

  function AsStr(v: Value): Option<string> {
    if v.Str? then Some(v.s) else None
  }

  function AsOptionalStr(v: Value): Option<Option<string>> {
    match v
    case Null => Some(None)
    case Str(s) => Some(Some(s))
    case _ => None
  }

  function AsStrList(v: Value): (r: Option<seq<string>>)
    ensures r.Some? ==> v == StrList(r.value)
  {
    if v.List? && forall i :: 0 <= i < |v.items| ==> v.items[i].Str? then
      var xs := seq(|v.items|, i requires 0 <= i < |v.items| => v.items[i].s);
      assert v.items == StrList(xs).items;
      Some(xs)
    else None
  }

  function AsStrDict(v: Value): (r: Option<map<string, string>>)
    ensures r.Some? ==> v == StrDict(r.value)
  {
    if v.Dict? && forall k :: k in v.entries ==> v.entries[k].Str? then
      var m := map k | k in v.entries :: v.entries[k].s;
      assert v.entries == StrDict(m).entries;
      Some(m)
    else None
  }

  /** Reads a stored record back; `None` when the value does not have the
      record's layout. */
  function DecodeMetadata(v: Value): Option<ResourceDefinition> {
    if !v.Dict? then None
    else
      var e := v.entries;
      if !("resource_id" in e && "attach_metadata" in e && "server_metadata" in e) then None
      else if !e["server_metadata"].Dict? then None
      else
        var s := e["server_metadata"].entries;
        if !("availability_zone" in s && "networks" in s && "floating_ips" in s
             && "flavor" in s && "key_name" in s && "security_groups" in s) then None
        else
          match (AsStr(e["resource_id"]), AsStrDict(e["attach_metadata"]), AsStr(s["availability_zone"]),
                 AsStrList(s["networks"]), AsStrList(s["floating_ips"]), AsStr(s["flavor"]),
                 AsOptionalStr(s["key_name"]), AsStr(s["security_groups"]))
          case (Some(id), Some(attach), Some(az), Some(nets), Some(fips), Some(flavor), Some(key), Some(sg)) =>
            Some(ResourceDefinition(id, attach, ServerMetadata(az, nets, fips, flavor, key, sg)))
          case _ => None
  }

  /** The stored record loses nothing: it reads back as the record written. */
  lemma MetadataRoundTrip(d: ResourceDefinition)
    ensures DecodeMetadata(MetadataValue(d)) == Some(d)
  {
    var m := d.serverMetadata;
    var attach := StrDict(d.attachMetadata);
    assert AsStrDict(attach).Some?;
    assert AsStrDict(attach).value == d.attachMetadata;
    assert AsStrList(StrList(m.networks)).Some?;
    assert AsStrList(StrList(m.networks)).value == m.networks;
    assert AsStrList(StrList(m.floatingIps)).Some?;
    assert AsStrList(StrList(m.floatingIps)).value == m.floatingIps;
  }

  // ---------------------------------------------------------------------
  // create_backup

  /** The bank after a backup call and what the call reported. */
  datatype BackupRun = BackupRun(bank: Bank, result: Result<ResourceDefinition>)

  /** `create_backup` on a server node, as far as the bank shows it: the
      resource's `status` is set to "protecting" first; then the metadata
      record is gathered and stored under `metadata`. When gathering fails
      the status becomes "error" and no record is stored. */
  function CreateBackup(bank: Bank, checkpointId: string, node: ResourceNode, inv: Inventory)
    : (r: BackupRun)
    ensures var section := ResourceSectionPrefix(checkpointId, node.value.id);
            r.result.Success? ==>
              && SectionGet(r.bank, section, "status") == Success(Str(ProtectingStatus))
              && SectionGet(r.bank, section, "metadata") == Success(MetadataValue(r.result.value))
              && r.result.value.resourceId == node.value.id
    ensures var section := ResourceSectionPrefix(checkpointId, node.value.id);
            r.result.Failure? ==>
              && SectionGet(r.bank, section, "status") == Success(Str(ErrorStatus))
              && SectionGet(r.bank, section, "metadata") == SectionGet(bank, section, "metadata")
    ensures var mk := SectionKey(ResourceSectionPrefix(checkpointId, node.value.id), "metadata");
            r.result.Failure? ==> (mk in r.bank <==> mk in bank) && (mk in bank ==> r.bank[mk] == bank[mk])
    ensures r.result == BackupMetadata(node, inv)
    ensures var section := ResourceSectionPrefix(checkpointId, node.value.id);
            forall k :: k != SectionKey(section, "status") && k != SectionKey(section, "metadata")
                        ==> (k in r.bank <==> k in bank) && (k in bank ==> r.bank[k] == bank[k])
  {
    var section := ResourceSectionPrefix(checkpointId, node.value.id);
    var protecting := SectionUpdate(bank, section, "status", Str(ProtectingStatus));
    match BackupMetadata(node, inv)
    case Success(d) => BackupRun(SectionUpdate(protecting, section, "metadata", MetadataValue(d)), Success(d))
    case Failure(e) => BackupRun(SectionUpdate(protecting, section, "status", Str(ErrorStatus)), Failure(e))
  }

  // ---------------------------------------------------------------------
  // Properties of the contract

  /** A server with no child nodes gets an empty `attach_metadata` and the
      networks of the ports carrying its MACs; the backup then succeeds
      exactly when the server is known. */
  lemma NoChildrenNoAttachments(node: ResourceNode, inv: Inventory)
    requires node.childNodes == []
    ensures BackupMetadata(node, inv).Success? <==> node.value.id in inv.servers
    ensures BackupMetadata(node, inv).Success? ==>
              && BackupMetadata(node, inv).value.attachMetadata == map[]
              && BackupMetadata(node, inv).value.serverMetadata.networks
                 == Networks(inv.servers[node.value.id], inv.ports)
  {
  }

  /** A server with exactly one child volume that is attached to it maps that
      volume to the device of its attachment to the server. */
  lemma OneAttachedVolume(node: ResourceNode, inv: Inventory, att: Attachment)
    requires |node.childNodes| == 1
    requires node.value.id in inv.servers
    requires var vol := node.childNodes[0].value;
             vol.kind == VolumeKind && vol.id in inv.volumes
             && AttachmentTo(inv.volumes[vol.id].attachments, node.value.id) == Some(att)
    ensures BackupMetadata(node, inv).Success?
    ensures BackupMetadata(node, inv).value.attachMetadata == map[node.childNodes[0].value.id := att.device]
  {
    var children := node.childNodes;
    assert children[..0] == [];
  }

  /** `networks` names exactly the networks of ports that carry one of the
      server's MAC addresses. */
  lemma NetworksExact(server: Server, ports: seq<Port>, net: string)
    ensures net in Networks(server, ports) <==>
            exists p :: p in ports && p.macAddress in ServerMacs(server) && p.networkId == net
  {
    var matching := PortsWithMac(ports, ServerMacs(server));
    if net in Networks(server, ports) {
      var i :| 0 <= i < |matching| && Networks(server, ports)[i] == net;
      assert matching[i] in matching;
    }
    if exists p :: p in ports && p.macAddress in ServerMacs(server) && p.networkId == net {
      var p :| p in ports && p.macAddress in ServerMacs(server) && p.networkId == net;
      var i :| 0 <= i < |matching| && matching[i] == p;
      assert Networks(server, ports)[i] == net;
    }
  }

  /** A successful backup leaves "protecting" under `status` and the
      gathered record under `metadata`, read through the bank driver. */
  lemma BackupReadBack(bank: Bank, checkpointId: string, node: ResourceNode, inv: Inventory,
                       d: ResourceDefinition)
    requires BackupMetadata(node, inv) == Success(d)
    ensures var b := CreateBackup(bank, checkpointId, node, inv).bank;
            && GetObject(b, ResourceKey(checkpointId, node.value.id, "status")) == Success(Str(ProtectingStatus))
            && GetObject(b, ResourceKey(checkpointId, node.value.id, "metadata")) == Success(MetadataValue(d))
  {
  }

  /** A backup writes only inside its own resource's section: the section of
      any other resource of any checkpoint reads as before. */
  lemma BackupStaysInSection(bank: Bank, checkpointId: string, node: ResourceNode, inv: Inventory,
                             otherCheckpoint: string, otherResource: string, key: string)
    requires IsSegment(checkpointId) && IsSegment(node.value.id)
    requires IsSegment(otherCheckpoint) && IsSegment(otherResource)
    requires otherCheckpoint != checkpointId || otherResource != node.value.id
    ensures SectionGet(CreateBackup(bank, checkpointId, node, inv).bank,
                       ResourceSectionPrefix(otherCheckpoint, otherResource), key)
            == SectionGet(bank, ResourceSectionPrefix(otherCheckpoint, otherResource), key)
  {
    var k := ResourceKey(otherCheckpoint, otherResource, key);
    if k == ResourceKey(checkpointId, node.value.id, "status") {
      ResourceKeyInjective(otherCheckpoint, otherResource, key, checkpointId, node.value.id, "status");
    }
    if k == ResourceKey(checkpointId, node.value.id, "metadata") {
      ResourceKeyInjective(otherCheckpoint, otherResource, key, checkpointId, node.value.id, "metadata");
    }
  }
}
