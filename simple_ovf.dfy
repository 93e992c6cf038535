/** `generate_simple_ovf` (nixops/backends/vsphere.py lines 264-289): the
    descriptor of one virtual machine with a disk, a SCSI controller, video
    and VMCI devices and one network adapter per network. SimpleEnvelope gives
    the envelope it builds as a value; the lemmas state how its parts refer
    to each other. */
module SimpleOvf {
  import opened Text
  import opened OvfNames
  import opened ElementTree
  import opened OvfElements
  import opened VirtualHardware
  import opened VirtualSystem
  import opened Envelope

  const DiskFormat := "http://www.vmware.com/interfaces/specifications/vmdk.html#streamOptimized"

  /** The adapter for the `k`-th network: instance id 7 + k (seven setting
      data elements come before it), named `Ethernet k + 1`, at address
      7 + k on its parent. */
  function Nic(k: nat, network: string): Element
  {
    EthernetItem(7 + k, k + 1, 7 + k, network, "VmxNet3", true)
  }

  /** The `Network` elements for `networks`, in order. */
  function NetworkElements(networks: seq<string>): (r: seq<Element>)
    ensures |r| == |networks|
  {
    if networks == [] then [] else NetworkElements(networks[..|networks| - 1]) + [Network(networks[|networks| - 1])]
  }

  /** The setting data appended before the adapters, one element per
      builder call, numbered 0 to 6; the hard disk's parent is the SCSI
      controller, number 3. */
  function FixedHardware(name: string, numVcpus: int, memoryMb: int): (r: seq<Element>)
    ensures |r| == 7
  {
    [SystemItem(0, name, "vmx-11")] + [VcpusItem(1, numVcpus)] + [MemoryItem(2, memoryMb)] + [ScsiControllerItem(3, 0)]
    + [VideoCardItem(4, false, false, "automatic", false, 4096)] + [VmciDeviceItem(5, false)]
    + [HardDiskItem(6, 1, 3, 0, "ovf:/disk/vmdisk1", false, None)]
  }

  /** `hw` followed by one adapter per network, in network order. */
  function WithNics(hw: seq<Element>, networks: seq<string>): (r: seq<Element>)
    ensures |r| == |hw| + |networks|
  {
    if networks == [] then hw
    else WithNics(hw, networks[..|networks| - 1]) + [Nic(|networks| - 1, networks[|networks| - 1])]
  }

  /** The hardware section of the machine before `get_xml` sorts it. */
  function SimpleHardware(name: string, numVcpus: int, memoryMb: int, networks: seq<string>): seq<Element>
  {
    WithNics(FixedHardware(name, numVcpus, memoryMb), networks)
  }

  /** The virtual system element as `get_xml` leaves it. */
  function SimpleSystem(name: string, numVcpus: int, memoryMb: int, networks: seq<string>): Element
  {
    var root := VirtualSystemRoot(name);
    root.(children := root.children + [HardwareSectionOf(SortItems(SimpleHardware(name, numVcpus, memoryMb, networks)))]
                      + [OsSection(100, "other3xLinux64Guest")])
  }

  /** The envelope `generate_simple_ovf` writes out. */
  function SimpleEnvelope(name: string, numVcpus: int, memoryMb: int, diskCapacityMb: int, networks: seq<string>): Element
  {
    EnvelopeOf([FileReference("disk-1.vmdk", "file1", 0)],
               [Disk(diskCapacityMb, "byte * 2^20", "vmdisk1", "file1", DiskFormat)],
               NetworkElements(networks),
               [SimpleSystem(name, numVcpus, memoryMb, networks)])
  }

  /** The adapters leave the elements in front of them as they are. */
  lemma {:induction false} WithNicsBefore(hw: seq<Element>, networks: seq<string>, i: nat)
    requires i < |hw|
    ensures WithNics(hw, networks)[i] == hw[i]
  {
    if networks != [] {
      WithNicsBefore(hw, networks[..|networks| - 1], i);
    }
  }

  /** The element `k` places after `hw` is the adapter for the `k`-th network. */
  lemma {:induction false} WithNicsAt(hw: seq<Element>, networks: seq<string>, k: nat)
    requires k < |networks|
    ensures WithNics(hw, networks)[|hw| + k] == Nic(k, networks[k])
  {
    if k < |networks| - 1 {
      WithNicsAt(hw, networks[..|networks| - 1], k);
    }
  }

  lemma {:induction false} NetworkElementsAt(networks: seq<string>, k: nat)
    requires k < |networks|
    ensures NetworkElements(networks)[k] == Network(networks[k])
  {
    if k < |networks| - 1 {
      NetworkElementsAt(networks[..|networks| - 1], k);
    }
  }

  /** Seven setting-data elements appended in turn, the `i`-th carrying
      instance id `i`, are numbered 0 to 6. */
  lemma NumberedSeven(a: Element, b: Element, c: Element, d: Element, e: Element, f: Element, g: Element)
    requires IsSettingData(a) && InstanceIdOf(a) == Some(NatToString(0))
    requires IsSettingData(b) && InstanceIdOf(b) == Some(NatToString(1))
    requires IsSettingData(c) && InstanceIdOf(c) == Some(NatToString(2))
    requires IsSettingData(d) && InstanceIdOf(d) == Some(NatToString(3))
    requires IsSettingData(e) && InstanceIdOf(e) == Some(NatToString(4))
    requires IsSettingData(f) && InstanceIdOf(f) == Some(NatToString(5))
    requires IsSettingData(g) && InstanceIdOf(g) == Some(NatToString(6))
    ensures Numbered([a] + [b] + [c] + [d] + [e] + [f] + [g], 7)
  {
    NumberedSnoc([], 0, a);
    assert [] + [a] == [a];
    NumberedSnoc([a], 1, b);
    NumberedSnoc([a] + [b], 2, c);
    NumberedSnoc([a] + [b] + [c], 3, d);
    NumberedSnoc([a] + [b] + [c] + [d], 4, e);
    NumberedSnoc([a] + [b] + [c] + [d] + [e], 5, f);
    NumberedSnoc([a] + [b] + [c] + [d] + [e] + [f], 6, g);
  }

  /** The seven fixed elements are numbered 0 to 6. */
  lemma FixedHardwareNumbered(name: string, numVcpus: int, memoryMb: int)
    ensures Numbered(FixedHardware(name, numVcpus, memoryMb), 7)
  {
    SystemItemContents(0, name, "vmx-11");
    VcpusItemHeader(1, numVcpus);
    MemoryItemHeader(2, memoryMb);
    ScsiControllerItemHeader(3, 0);
    VideoCardItemHeader(4, false, false, "automatic", false, 4096);
    VmciDeviceItemHeader(5, false);
    HardDiskItemHeader(6, 1, 3, 0, "ovf:/disk/vmdisk1", false, None);
    NumberedSeven(SystemItem(0, name, "vmx-11"), VcpusItem(1, numVcpus), MemoryItem(2, memoryMb),
                  ScsiControllerItem(3, 0), VideoCardItem(4, false, false, "automatic", false, 4096),
                  VmciDeviceItem(5, false), HardDiskItem(6, 1, 3, 0, "ovf:/disk/vmdisk1", false, None));
  }

  /** The adapter for the `k`-th network is an `Item` numbered 7 + k. */
  lemma NicHeader(k: nat, network: string)
    ensures IsSettingData(Nic(k, network)) && InstanceIdOf(Nic(k, network)) == Some(NatToString(7 + k))
  {
    EthernetItemHeader(7 + k, k + 1, 7 + k, network, "VmxNet3", true);
  }

  /** Adapters appended after seven numbered elements take the ids 7, 8, …
      in network order. */
  lemma {:induction false} WithNicsNumbered(hw: seq<Element>, networks: seq<string>)
    requires Numbered(hw, 7)
    ensures Numbered(WithNics(hw, networks), 7 + |networks|)
  {
    if networks != [] {
      var init := networks[..|networks| - 1];
      var k := |init|;
      var before := WithNics(hw, init);
      assert WithNics(hw, networks) == before + [Nic(k, networks[k])];
      assert Numbered(before, 7 + k) by {
        WithNicsNumbered(hw, init);
      }
      assert Numbered(before + [Nic(k, networks[k])], 8 + k) by {
        NumberedNicSnoc(before, k, networks[k]);
      }
    }
  }

  /** Appending the adapter for the `k`-th network after 7 + k numbered
      elements keeps the numbering. */
  lemma NumberedNicSnoc(hw: seq<Element>, k: nat, network: string)
    requires Numbered(hw, 7 + k)
    ensures Numbered(hw + [Nic(k, network)], 8 + k)
  {
    NicHeader(k, network);
    NumberedSnoc(hw, 7 + k, Nic(k, network));
  }

  /** The machine's setting data carries the instance ids 0 to
      6 + |networks| in order, the adapters 7, 8, … in network order. */
  lemma SimpleHardwareNumbered(name: string, numVcpus: int, memoryMb: int, networks: seq<string>)
    ensures Numbered(SimpleHardware(name, numVcpus, memoryMb, networks), 7 + |networks|)
  {
    FixedHardwareNumbered(name, numVcpus, memoryMb);
    WithNicsNumbered(FixedHardware(name, numVcpus, memoryMb), networks);
  }

  /** The sort of `get_xml` keeps that numbering, so no two setting-data
      elements of the machine share an id. */
  lemma SimpleSortedNumbered(name: string, numVcpus: int, memoryMb: int, networks: seq<string>)
    ensures Numbered(SortItems(SimpleHardware(name, numVcpus, memoryMb, networks)), 7 + |networks|)
  {
    SimpleHardwareNumbered(name, numVcpus, memoryMb, networks);
    SortItemsNumbered(SimpleHardware(name, numVcpus, memoryMb, networks), 7 + |networks|);
  }

  /** The SCSI controller and the hard disk are the fourth and seventh
      setting-data elements, whatever the networks. */
  lemma SimpleControllerAndDisk(name: string, numVcpus: int, memoryMb: int, networks: seq<string>)
    ensures var hw := SimpleHardware(name, numVcpus, memoryMb, networks);
      hw[3] == ScsiControllerItem(3, 0) && hw[6] == HardDiskItem(6, 1, 3, 0, "ovf:/disk/vmdisk1", false, None)
  {
    var fixed := FixedHardware(name, numVcpus, memoryMb);
    FixedControllerAndDisk(name, numVcpus, memoryMb);
    WithNicsBefore(fixed, networks, 3);
    WithNicsBefore(fixed, networks, 6);
  }

  lemma FixedControllerAndDisk(name: string, numVcpus: int, memoryMb: int)
    ensures var fixed := FixedHardware(name, numVcpus, memoryMb);
      fixed[3] == ScsiControllerItem(3, 0) && fixed[6] == HardDiskItem(6, 1, 3, 0, "ovf:/disk/vmdisk1", false, None)
  {
  }

  /** The hard disk `generate_simple_ovf` adds hangs off the SCSI
      controller it added first, at address 0. */
  lemma DiskOnController(scsi: Element, disk: Element)
    requires scsi == ScsiControllerItem(3, 0)
    requires disk == HardDiskItem(6, 1, 3, 0, "ovf:/disk/vmdisk1", false, None)
    ensures ChildText(scsi, Qualified(Rasd, "ResourceType")) == Some(NatToString(6))
    ensures ChildText(disk, Qualified(Rasd, "ResourceType")) == Some(NatToString(17))
    ensures ChildText(disk, Qualified(Rasd, "Parent")) == InstanceIdOf(scsi)
    ensures ChildText(disk, Qualified(Rasd, "AddressOnParent")) == Some("0")
    ensures ChildText(disk, Qualified(Rasd, "HostResource")) == Some("ovf:/disk/vmdisk1")
  {
    ScsiControllerItemHeader(3, 0);
    HardDiskItemHeader(6, 1, 3, 0, "ovf:/disk/vmdisk1", false, None);
    HardDiskItemFields(6, 1, 3, 0, "ovf:/disk/vmdisk1", false, None);
    HardDiskItemMoreFields(6, 1, 3, 0, "ovf:/disk/vmdisk1", false, None);
  }

  /** The hard disk hangs off the SCSI controller at address 0: its
      `Parent` is the controller's instance id. */
  lemma SimpleDiskOnScsi(name: string, numVcpus: int, memoryMb: int, networks: seq<string>)
    ensures var hw := SimpleHardware(name, numVcpus, memoryMb, networks);
      ChildText(hw[3], Qualified(Rasd, "ResourceType")) == Some(NatToString(6)) &&
      ChildText(hw[6], Qualified(Rasd, "ResourceType")) == Some(NatToString(17)) &&
      ChildText(hw[6], Qualified(Rasd, "Parent")) == InstanceIdOf(hw[3]) &&
      ChildText(hw[6], Qualified(Rasd, "AddressOnParent")) == Some("0")
  {
    var hw := SimpleHardware(name, numVcpus, memoryMb, networks);
    SimpleControllerAndDisk(name, numVcpus, memoryMb, networks);
    DiskOnController(hw[3], hw[6]);
  }

  /** The disk `generate_simple_ovf` declares is `vmdisk1`, stored in the
      file the one file reference declares. */
  lemma SimpleDiskEntry(diskCapacityMb: int)
    ensures var disk := Disk(diskCapacityMb, "byte * 2^20", "vmdisk1", "file1", DiskFormat);
      "ovf:/disk/" + disk.attrib[Qualified(Ovf, "diskId")] == "ovf:/disk/vmdisk1" &&
      disk.attrib[Qualified(Ovf, "fileRef")] == FileReference("disk-1.vmdk", "file1", 0).attrib[Qualified(Ovf, "id")]
  {
    DiskContents(diskCapacityMb, "byte * 2^20", "vmdisk1", "file1", DiskFormat);
    FileReferenceContents("disk-1.vmdk", "file1", 0);
    assert "ovf:/disk/" + "vmdisk1" == "ovf:/disk/vmdisk1";
  }

  /** The disk the hard disk item names as its host resource is the one the
      `DiskSection` declares, and that disk's file is the one `References`
      lists. */
  lemma SimpleDiskBacked(name: string, numVcpus: int, memoryMb: int, diskCapacityMb: int, networks: seq<string>)
    ensures var disk := Disk(diskCapacityMb, "byte * 2^20", "vmdisk1", "file1", DiskFormat);
      ChildText(SimpleHardware(name, numVcpus, memoryMb, networks)[6], Qualified(Rasd, "HostResource")) ==
        Some("ovf:/disk/" + disk.attrib[Qualified(Ovf, "diskId")]) &&
      disk.attrib[Qualified(Ovf, "fileRef")] == FileReference("disk-1.vmdk", "file1", 0).attrib[Qualified(Ovf, "id")]
  {
    var hw := SimpleHardware(name, numVcpus, memoryMb, networks);
    SimpleControllerAndDisk(name, numVcpus, memoryMb, networks);
    DiskOnController(hw[3], hw[6]);
    SimpleDiskEntry(diskCapacityMb);
  }

  /** The adapter for the `k`-th network is connected to it, sits at
      address 7 + k, is a `VmxNet3` adapter, and the network it is connected
      to is the `k`-th of the `NetworkSection`. */
  lemma SimpleNic(name: string, numVcpus: int, memoryMb: int, networks: seq<string>, k: nat)
    requires k < |networks|
    ensures var nic := SimpleHardware(name, numVcpus, memoryMb, networks)[7 + k];
      ChildText(nic, Qualified(Rasd, "Connection")) == Some(networks[k]) &&
      ChildText(nic, Qualified(Rasd, "AddressOnParent")) == Some(IntToString(7 + k)) &&
      ChildText(nic, Qualified(Rasd, "ResourceSubType")) == Some("VmxNet3") &&
      NetworkElements(networks)[k] == Network(networks[k])
  {
    WithNicsAt(FixedHardware(name, numVcpus, memoryMb), networks, k);
    EthernetItemFields(7 + k, k + 1, 7 + k, networks[k], "VmxNet3", true);
    EthernetItemMoreFields(7 + k, k + 1, 7 + k, networks[k], "VmxNet3", true);
    EthernetItemLastFields(7 + k, k + 1, 7 + k, networks[k], "VmxNet3", true);
    NetworkElementsAt(networks, k);
  }

  /** In the returned descriptor, where the items are sorted, the hard
      disk still hangs off the SCSI controller at address 0. */
  lemma SortedDiskOnScsi(name: string, numVcpus: int, memoryMb: int, networks: seq<string>)
    ensures var hw := SortItems(SimpleHardware(name, numVcpus, memoryMb, networks));
      |hw| == 7 + |networks| &&
      ChildText(hw[3], Qualified(Rasd, "ResourceType")) == Some(NatToString(6)) &&
      ChildText(hw[6], Qualified(Rasd, "ResourceType")) == Some(NatToString(17)) &&
      ChildText(hw[6], Qualified(Rasd, "Parent")) == InstanceIdOf(hw[3]) &&
      ChildText(hw[6], Qualified(Rasd, "AddressOnParent")) == Some("0")
  {
    var raw := SimpleHardware(name, numVcpus, memoryMb, networks);
    SimpleDiskOnScsi(name, numVcpus, memoryMb, networks);
    SortItemsKeepLookupsAt(raw, 3, Qualified(Rasd, "ResourceType"));
    SortItemsKeepLookupsAt(raw, 6, Qualified(Rasd, "ResourceType"));
    SortItemsKeepLookupsAt(raw, 6, Qualified(Rasd, "Parent"));
    SortItemsKeepLookupsAt(raw, 6, Qualified(Rasd, "AddressOnParent"));
  }

  /** In the returned descriptor the hard disk still names the declared
      disk as its host resource, and that disk is stored in the listed file. */
  lemma SortedDiskBacked(name: string, numVcpus: int, memoryMb: int, diskCapacityMb: int, networks: seq<string>)
    ensures var disk := Disk(diskCapacityMb, "byte * 2^20", "vmdisk1", "file1", DiskFormat);
      ChildText(SortItems(SimpleHardware(name, numVcpus, memoryMb, networks))[6], Qualified(Rasd, "HostResource")) ==
        Some("ovf:/disk/" + disk.attrib[Qualified(Ovf, "diskId")]) &&
      disk.attrib[Qualified(Ovf, "fileRef")] == FileReference("disk-1.vmdk", "file1", 0).attrib[Qualified(Ovf, "id")]
  {
    var raw := SimpleHardware(name, numVcpus, memoryMb, networks);
    SimpleDiskBacked(name, numVcpus, memoryMb, diskCapacityMb, networks);
    SortItemsKeepLookupsAt(raw, 6, Qualified(Rasd, "HostResource"));
  }

  /** In the returned descriptor the adapter for the `k`-th network is
      still connected to it at address 7 + k, as a `VmxNet3` adapter. */
  lemma SortedNic(name: string, numVcpus: int, memoryMb: int, networks: seq<string>, k: nat)
    requires k < |networks|
    ensures var nic := SortItems(SimpleHardware(name, numVcpus, memoryMb, networks))[7 + k];
      ChildText(nic, Qualified(Rasd, "Connection")) == Some(networks[k]) &&
      ChildText(nic, Qualified(Rasd, "AddressOnParent")) == Some(IntToString(7 + k)) &&
      ChildText(nic, Qualified(Rasd, "ResourceSubType")) == Some("VmxNet3")
  {
    var raw := SimpleHardware(name, numVcpus, memoryMb, networks);
    assert ChildText(raw[7 + k], Qualified(Rasd, "Connection")) == Some(networks[k]) &&
           ChildText(raw[7 + k], Qualified(Rasd, "AddressOnParent")) == Some(IntToString(7 + k)) &&
           ChildText(raw[7 + k], Qualified(Rasd, "ResourceSubType")) == Some("VmxNet3") by {
      SimpleNic(name, numVcpus, memoryMb, networks, k);
    }
    AdapterSurvivesSort(raw, 7 + k, networks[k], IntToString(7 + k), "VmxNet3");
  }

  /** The sort keeps an adapter's connection, address and subtype. */
  lemma AdapterSurvivesSort(hw: seq<Element>, i: nat, connection: string, address: string, subtype: string)
    requires i < |hw|
    requires ChildText(hw[i], Qualified(Rasd, "Connection")) == Some(connection)
    requires ChildText(hw[i], Qualified(Rasd, "AddressOnParent")) == Some(address)
    requires ChildText(hw[i], Qualified(Rasd, "ResourceSubType")) == Some(subtype)
    ensures ChildText(SortItems(hw)[i], Qualified(Rasd, "Connection")) == Some(connection)
    ensures ChildText(SortItems(hw)[i], Qualified(Rasd, "AddressOnParent")) == Some(address)
    ensures ChildText(SortItems(hw)[i], Qualified(Rasd, "ResourceSubType")) == Some(subtype)
  {
    SortItemsKeepLookupsAt(hw, i, Qualified(Rasd, "Connection"));
    SortItemsKeepLookupsAt(hw, i, Qualified(Rasd, "AddressOnParent"));
    SortItemsKeepLookupsAt(hw, i, Qualified(Rasd, "ResourceSubType"));
  }

  /** The seven setting-data calls of `generate_simple_ovf`, from the
      system entry to the hard disk on the SCSI controller. */
  method AddFixedHardware(system: VirtualSystemBuilder, name: string, numVcpus: int, memoryMb: int)
    requires system.Valid() && system.hardware == [] && system.instanceId == 0 && system.numHardDrive == 1
    modifies system
    ensures system.Valid() && system.hardware == FixedHardware(name, numVcpus, memoryMb) && system.instanceId == 7
    ensures system.numEthernet == old(system.numEthernet) && system.osSections == old(system.osSections)
  {
    var systemId := system.AddHardwareSystem(name, "vmx-11");
    var vcpusId := system.AddHardwareVcpus(numVcpus);
    var memoryId := system.AddHardwareMemory(memoryMb);
    var scsiCtrl := system.AddHardwareScsiController(0);
    var videoId := system.AddHardwareVideoCard(false, false, "automatic", false, 4096);
    var vmciId := system.AddHardwareVmciDevice(false);
    var diskId := system.AddHardwareHardDisk(scsiCtrl, 0, "ovf:/disk/vmdisk1", false, None);
  }

  /** The adapter loop of `generate_simple_ovf`: one `VmxNet3` adapter per
      network, at addresses counting up from 7. */
  method AddNics(system: VirtualSystemBuilder, networks: seq<string>)
    requires system.Valid() && system.instanceId == 7 && system.numEthernet == 1
    modifies system
    ensures system.Valid() && system.hardware == WithNics(old(system.hardware), networks)
    ensures system.osSections == old(system.osSections)
  {
    var nicAddressOnParent := 7;
    var k := 0;
    while k < |networks|
      invariant 0 <= k <= |networks|
      invariant nicAddressOnParent == 7 + k
      invariant system.Valid() && system.instanceId == 7 + k && system.numEthernet == k + 1
      invariant system.hardware == WithNics(old(system.hardware), networks[..k])
      invariant system.osSections == old(system.osSections)
    {
      assert networks[..k + 1][..k] == networks[..k];
      var nicId := system.AddHardwareEthernet(nicAddressOnParent, networks[k], "VmxNet3", true);
      nicAddressOnParent := nicAddressOnParent + 1;
      k := k + 1;
    }
    assert networks[..k] == networks;
  }

  /** The setting-data calls of `generate_simple_ovf` on a fresh virtual
      system. */
  method AddSimpleHardware(system: VirtualSystemBuilder, name: string, numVcpus: int, memoryMb: int,
                           networks: seq<string>)
    requires system.Valid() && system.hardware == [] && system.instanceId == 0
    requires system.numHardDrive == 1 && system.numEthernet == 1
    modifies system
    ensures system.Valid() && system.hardware == SimpleHardware(name, numVcpus, memoryMb, networks)
    ensures system.osSections == old(system.osSections)
  {
    AddFixedHardware(system, name, numVcpus, memoryMb);
    AddNics(system, networks);
  }

  /** The first loop of `generate_simple_ovf`: one `Network` per network
      name, in order. */
  method AddNetworks(ovf: OvfBuilder, networks: seq<string>)
    modifies ovf
    ensures ovf.networks == old(ovf.networks) + NetworkElements(networks)
    ensures ovf.references == old(ovf.references) && ovf.disks == old(ovf.disks) && ovf.systems == old(ovf.systems)
  {
    var i := 0;
    while i < |networks|
      invariant 0 <= i <= |networks|
      invariant ovf.networks == old(ovf.networks) + NetworkElements(networks[..i])
      invariant ovf.references == old(ovf.references) && ovf.disks == old(ovf.disks) && ovf.systems == old(ovf.systems)
    {
      assert networks[..i + 1][..i] == networks[..i];
      ovf.AddNetwork(networks[i]);
      i := i + 1;
    }
    assert networks[..i] == networks;
  }

  /** The virtual system of `generate_simple_ovf` once its builder is done
      and `get_xml` has sorted its items. */
  lemma SimpleSystemOf(system: VirtualSystemBuilder, name: string, numVcpus: int, memoryMb: int,
                       networks: seq<string>)
    requires system.root == VirtualSystemRoot(name)
    requires system.hardware == SortItems(SimpleHardware(name, numVcpus, memoryMb, networks))
    requires system.osSections == [OsSection(100, "other3xLinux64Guest")]
    ensures system.Root() == SimpleSystem(name, numVcpus, memoryMb, networks)
  {
  }

  /** The builder calls of `generate_simple_ovf`, up to `get_xml`. */
  method BuildSimpleOvf(name: string, numVcpus: int, memoryMb: int, diskCapacityMb: int, networks: seq<string>)
    returns (ovf: OvfBuilder, system: VirtualSystemBuilder)
    ensures fresh(ovf) && fresh(system) && ovf.Valid() && ovf.systems == [system]
    ensures ovf.references == [FileReference("disk-1.vmdk", "file1", 0)]
    ensures ovf.disks == [Disk(diskCapacityMb, "byte * 2^20", "vmdisk1", "file1", DiskFormat)]
    ensures ovf.networks == NetworkElements(networks)
    ensures system.root == VirtualSystemRoot(name)
    ensures system.hardware == SimpleHardware(name, numVcpus, memoryMb, networks)
    ensures system.osSections == [OsSection(100, "other3xLinux64Guest")]
  {
    ovf, system := NewSimpleOvf(name, diskCapacityMb, networks);
    system.AddOperatingSystemSection(100, "other3xLinux64Guest");
    AddSimpleHardware(system, name, numVcpus, memoryMb, networks);
  }

  /** The envelope calls of `generate_simple_ovf`: the disk file, the disk,
      the networks and the empty virtual system. */
  method NewSimpleOvf(name: string, diskCapacityMb: int, networks: seq<string>)
    returns (ovf: OvfBuilder, system: VirtualSystemBuilder)
    ensures fresh(ovf) && fresh(system) && ovf.Valid() && ovf.systems == [system]
    ensures ovf.references == [FileReference("disk-1.vmdk", "file1", 0)]
    ensures ovf.disks == [Disk(diskCapacityMb, "byte * 2^20", "vmdisk1", "file1", DiskFormat)]
    ensures ovf.networks == NetworkElements(networks)
    ensures system.root == VirtualSystemRoot(name) && system.Valid()
    ensures system.instanceId == 0 && system.hardware == [] && system.osSections == []
    ensures system.numHardDrive == 1 && system.numEthernet == 1
  {
    ovf := new OvfBuilder();
    ovf.AddFileReference("disk-1.vmdk", "file1", 0);
    ovf.AddDisk(diskCapacityMb, "byte * 2^20", "vmdisk1", "file1", DiskFormat);
    AddNetworks(ovf, networks);
    system := ovf.AddVirtualSystem(name);
  }

  /** `generate_simple_ovf(name, num_vcpus, memory_mb, disk_capacity_mb,
      networks)`, up to writing the envelope out as text. */
  method GenerateSimpleOvf(name: string, numVcpus: int, memoryMb: int, diskCapacityMb: int, networks: seq<string>)
    returns (doc: Element)
    ensures doc == SimpleEnvelope(name, numVcpus, memoryMb, diskCapacityMb, networks)
  {
    var ovf, system := BuildSimpleOvf(name, numVcpus, memoryMb, diskCapacityMb, networks);
    doc := GetSingleSystemXml(ovf, system, SimpleHardware(name, numVcpus, memoryMb, networks));
    SimpleSystemOf(system, name, numVcpus, memoryMb, networks);
    SimpleEnvelopeOf(ovf.references, ovf.disks, ovf.networks, [system.Root()], name, numVcpus, memoryMb,
                     diskCapacityMb, networks);
  }

  /** `get_xml` on an envelope with one virtual system whose hardware
      section holds `hw`: that section comes out with its items sorted. */
  method GetSingleSystemXml(ovf: OvfBuilder, system: VirtualSystemBuilder, ghost hw: seq<Element>)
    returns (doc: Element)
    requires ovf.Valid() && ovf.systems == [system] && system.hardware == hw
    modifies system
    ensures system.hardware == SortItems(hw) && system.osSections == old(system.osSections)
    ensures doc == EnvelopeOf(ovf.references, ovf.disks, ovf.networks, [system.Root()])
  {
    doc := ovf.GetXml();
    assert Roots(ovf.systems) == [system.Root()];
  }

  /** The envelope is the one of `generate_simple_ovf` once its four parts are. */
  lemma SimpleEnvelopeOf(references: seq<Element>, disks: seq<Element>, networkElements: seq<Element>,
                         systems: seq<Element>, name: string, numVcpus: int, memoryMb: int, diskCapacityMb: int,
                         networks: seq<string>)
    requires references == [FileReference("disk-1.vmdk", "file1", 0)]
    requires disks == [Disk(diskCapacityMb, "byte * 2^20", "vmdisk1", "file1", DiskFormat)]
    requires networkElements == NetworkElements(networks)
    requires systems == [SimpleSystem(name, numVcpus, memoryMb, networks)]
    ensures EnvelopeOf(references, disks, networkElements, systems) ==
            SimpleEnvelope(name, numVcpus, memoryMb, diskCapacityMb, networks)
  {
  }
}
