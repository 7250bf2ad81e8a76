/** The fixtures of the server protection plugin's tests and the records its
    two `create_backup` tests assert, proved of the model. */
module BackupScenarios {
  import opened Results
  import opened Values
  import opened FakeBank
  import opened BankSections
  import opened ServerBackup

  const CheckpointId := "checkpoint_id"

  const FakePorts: seq<Port> := [
    Port("port-1", "mac_address_1", "vm_id_1", "network_id_1"),
    Port("port-2", "mac_address_2", "vm_id_2", "network_id_2")
  ]

  function FakeServer(id: string, mac: string, addr: string): Server {
    Server(id,
           [NetworkAddresses("fake_net", [AddressEntry(mac, "fixed", addr, 4)])],
           "nova", "flavor_id", None, "default")
  }

  const FakeServers: map<string, Server> := map[
    "vm_id_1" := FakeServer("vm_id_1", "mac_address_1", "10.0.0.21"),
    "vm_id_2" := FakeServer("vm_id_2", "mac_address_2", "10.0.0.22")
  ]

  const FakeVolumes: map<string, Volume> := map[
    "vol_id_1" := Volume("vol_id_1", "", "in-use",
                         [Attachment("vm_id_2", "", "", "vol_id_1", "/dev/vdb", "attach_id_1")])
  ]

  const FakeInventory := Inventory(FakeServers, FakeVolumes, FakePorts)

  /** The record a test expects, as the dict literal it compares with. */
  function ExpectedRecord(vmId: string, attach: Value, network: string): Value {
    Dict(map[
      "resource_id" := Str(vmId),
      "attach_metadata" := attach,
      "server_metadata" := Dict(map[
        "availability_zone" := Str("nova"),
        "networks" := List([Str(network)]),
        "floating_ips" := List([]),
        "flavor" := Str("flavor_id"),
        "key_name" := Null,
        "security_groups" := Str("default")])])
  }

  /** Each fake server's networks: the one port carrying its MAC. */
  lemma FakeServerNetworks(id: string, mac: string, addr: string, port: nat)
    requires port < |FakePorts| && FakePorts[port].macAddress == mac
    requires FakePorts[1 - port].macAddress != mac
    ensures Networks(FakeServer(id, mac, addr), FakePorts) == [FakePorts[port].networkId]
    ensures FloatingIps(AddressEntries(FakeServer(id, mac, addr).addresses)) == []
  {
    var server := FakeServer(id, mac, addr);
    var entries := AddressEntries(server.addresses);
    assert entries == [AddressEntry(mac, "fixed", addr, 4)] by {
      assert server.addresses[1..] == [];
    }
    assert ServerMacs(server) == {mac};
    assert FakePorts[..1] == [FakePorts[0]];
    assert FakePorts[..1][..0] == [];
    assert PortsWithMac(FakePorts, {mac}) == [FakePorts[port]];
    assert entries[1..] == [];
  }

  /** The record stored for a fake server with the given attachments. */
  lemma StoredRecord(vmId: string, attach: map<string, string>, network: string)
    ensures MetadataValue(ResourceDefinition(vmId, attach,
              ServerMetadata("nova", [network], [], "flavor_id", None, "default")))
            == ExpectedRecord(vmId, StrDict(attach), network)
  {
    assert StrList([network]) == List([Str(network)]);
    assert StrList([]) == List([]);
  }

  /** The bank keys the tests read are the keys `ResourceKey` composes. */
  lemma StatusKeyOne()
    ensures ResourceKey(CheckpointId, "vm_id_1", "status") == "/resource_data/checkpoint_id/vm_id_1/status"
  {
    assert ResourceSectionPrefix("checkpoint_id", "vm_id_1") == "/resource_data/checkpoint_id/vm_id_1";
  }

  lemma MetadataKeyOne()
    ensures ResourceKey(CheckpointId, "vm_id_1", "metadata") == "/resource_data/checkpoint_id/vm_id_1/metadata"
  {
    assert ResourceSectionPrefix("checkpoint_id", "vm_id_1") == "/resource_data/checkpoint_id/vm_id_1";
  }

  lemma StatusKeyTwo()
    ensures ResourceKey(CheckpointId, "vm_id_2", "status") == "/resource_data/checkpoint_id/vm_id_2/status"
  {
    assert ResourceSectionPrefix("checkpoint_id", "vm_id_2") == "/resource_data/checkpoint_id/vm_id_2";
  }

  lemma MetadataKeyTwo()
    ensures ResourceKey(CheckpointId, "vm_id_2", "metadata") == "/resource_data/checkpoint_id/vm_id_2/metadata"
  {
    assert ResourceSectionPrefix("checkpoint_id", "vm_id_2") == "/resource_data/checkpoint_id/vm_id_2";
  }

  /** The metadata gathered for the first fake server, which has no volumes. */
  lemma VmOneMetadata(node: ResourceNode)
    requires node == ResourceNode(Resource("vm_id_1", ServerKind, "fake_vm"), [])
    ensures BackupMetadata(node, FakeInventory)
            == Success(ResourceDefinition("vm_id_1", map[],
                 ServerMetadata("nova", ["network_id_1"], [], "flavor_id", None, "default")))
  {
    FakeServerNetworks("vm_id_1", "mac_address_1", "10.0.0.21", 0);
  }

  /** The metadata gathered for the second fake server and its volume. */
  lemma VmTwoMetadata(node: ResourceNode)
    requires node == ResourceNode(Resource("vm_id_2", ServerKind, "fake_vm"),
                                  [ResourceNode(Resource("vol_id_1", VolumeKind, "fake_vol"), [])])
    ensures BackupMetadata(node, FakeInventory)
            == Success(ResourceDefinition("vm_id_2", map["vol_id_1" := "/dev/vdb"],
                 ServerMetadata("nova", ["network_id_2"], [], "flavor_id", None, "default")))
  {
    FakeServerNetworks("vm_id_2", "mac_address_2", "10.0.0.22", 1);
    var att := FakeVolumes["vol_id_1"].attachments[0];
    assert AttachmentTo(FakeVolumes["vol_id_1"].attachments, "vm_id_2") == Some(att);
    OneAttachedVolume(node, FakeInventory, att);
  }

  /** `test_create_backup_without_volumes`. */
  lemma CreateBackupWithoutVolumes(bank: Bank)
    ensures var node := ResourceNode(Resource("vm_id_1", ServerKind, "fake_vm"), []);
            var run := CreateBackup(bank, CheckpointId, node, FakeInventory);
            && run.result.Success?
            && GetObject(run.bank, "/resource_data/checkpoint_id/vm_id_1/status") == Success(Str("protecting"))
            && GetObject(run.bank, "/resource_data/checkpoint_id/vm_id_1/metadata")
               == Success(ExpectedRecord("vm_id_1", Dict(map[]), "network_id_1"))
  {
    var node := ResourceNode(Resource("vm_id_1", ServerKind, "fake_vm"), []);
    VmOneMetadata(node);
    var d := ResourceDefinition("vm_id_1", map[],
               ServerMetadata("nova", ["network_id_1"], [], "flavor_id", None, "default"));
    StoredRecord("vm_id_1", map[], "network_id_1");
    assert StrDict(map[]) == Dict(map[]);
    BackupReadBack(bank, CheckpointId, node, FakeInventory, d);
    StatusKeyOne();
    MetadataKeyOne();
  }

  /** `test_create_backup_with_volumes`. */
  lemma CreateBackupWithVolumes(bank: Bank)
    ensures var vol := ResourceNode(Resource("vol_id_1", VolumeKind, "fake_vol"), []);
            var node := ResourceNode(Resource("vm_id_2", ServerKind, "fake_vm"), [vol]);
            var run := CreateBackup(bank, CheckpointId, node, FakeInventory);
            && run.result.Success?
            && GetObject(run.bank, "/resource_data/checkpoint_id/vm_id_2/status") == Success(Str("protecting"))
            && GetObject(run.bank, "/resource_data/checkpoint_id/vm_id_2/metadata")
               == Success(ExpectedRecord("vm_id_2", Dict(map["vol_id_1" := Str("/dev/vdb")]), "network_id_2"))
  {
    var vol := ResourceNode(Resource("vol_id_1", VolumeKind, "fake_vol"), []);
    var node := ResourceNode(Resource("vm_id_2", ServerKind, "fake_vm"), [vol]);
    VmTwoMetadata(node);
    var d := ResourceDefinition("vm_id_2", map["vol_id_1" := "/dev/vdb"],
               ServerMetadata("nova", ["network_id_2"], [], "flavor_id", None, "default"));
    StoredRecord("vm_id_2", map["vol_id_1" := "/dev/vdb"], "network_id_2");
    assert StrDict(map["vol_id_1" := "/dev/vdb"]) == Dict(map["vol_id_1" := Str("/dev/vdb")]);
    BackupReadBack(bank, CheckpointId, node, FakeInventory, d);
    StatusKeyTwo();
    MetadataKeyTwo();
  }
}
