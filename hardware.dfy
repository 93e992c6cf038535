/** The hardware items of a virtual system (nixops/backends/vsphere.py
    lines 77-203). Each `add_hardware_*` method appends one setting-data
    element to the `VirtualHardwareSection`; the functions here give that
    element, its children listed in the order the method appends them. */
module VirtualHardware {
  import opened Text
  import opened OvfNames
  import opened ElementTree
  import opened OvfElements

  /** The `InstanceID` text of a setting-data element: `vssd:` for the
      system, `rasd:` for an item. */
  function InstanceIdOf(e: Element): Option<string>
  {
    if e.tag == Plain("System") then ChildText(e, Qualified(Vssd, "InstanceID"))
    else ChildText(e, Qualified(Rasd, "InstanceID"))
  }

  /** `_add_setting_data(ns, tag, name)` with instance id `id`, followed
      by the `fields` its caller appends. */
  function SettingData(ns: Namespace, tag: string, attrib: map<Name, string>, name: string, id: nat,
                       fields: seq<Element>): Element
  {
    Element(Plain(tag), attrib, None,
      [NsText(ns, "ElementName", name), NsText(ns, "InstanceID", NatToString(id))] + fields)
  }

  /** `_add_virtual_system_setting_data(name, resource_type)` followed by
      what its caller appends: the `fields`, then one `vmw:Config` per pair
      of `configs`. */
  function ResourceItem(attrib: map<Name, string>, name: string, id: nat, resourceType: nat,
                        fields: seq<Element>, configs: seq<(string, string)>): Element
  {
    SettingData(Rasd, "Item", attrib, name, id,
      [NsText(Rasd, "ResourceType", NatToString(resourceType))] + fields + Configs(configs))
  }

  /** A setting-data element is named `name` and numbered `id`, and every
      other lookup in it is a lookup in its fields. */
  lemma SettingDataLookups(ns: Namespace, tag: string, attrib: map<Name, string>, name: string, id: nat,
                           fields: seq<Element>, t: Name)
    requires t != Qualified(ns, "ElementName") && t != Qualified(ns, "InstanceID")
    ensures var e := SettingData(ns, tag, attrib, name, id, fields);
      ChildText(e, Qualified(ns, "ElementName")) == Some(name) &&
      ChildText(e, Qualified(ns, "InstanceID")) == Some(NatToString(id)) &&
      FindAll(e, t) == WithTag(fields, t)
  {
    var e := SettingData(ns, tag, attrib, name, id, fields);
    var head := [NsText(ns, "ElementName", name), NsText(ns, "InstanceID", NatToString(id))];
    FindAt(e, 0);
    FindAt(e, 1);
    WithTagAppend(head, fields, t);
    WithTagNone(head, t);
  }

  /** An item is named `name`, numbered `id` and of type `resourceType`. */
  lemma ResourceItemLookups(attrib: map<Name, string>, name: string, id: nat, resourceType: nat,
                            fields: seq<Element>, configs: seq<(string, string)>)
    ensures var e := ResourceItem(attrib, name, id, resourceType, fields, configs);
      e.tag == Plain("Item") && e.attrib == attrib &&
      InstanceIdOf(e) == Some(NatToString(id)) &&
      ChildText(e, Qualified(Rasd, "ElementName")) == Some(name) &&
      ChildText(e, Qualified(Rasd, "ResourceType")) == Some(NatToString(resourceType))
  {
    var rest := [NsText(Rasd, "ResourceType", NatToString(resourceType))] + fields + Configs(configs);
    SettingDataLookups(Rasd, "Item", attrib, name, id, rest, Qualified(Rasd, "ResourceType"));
    FirstWithTag(rest, 0);
  }

  /** The tags of the three children every item starts with. */
  predicate IsHeadTag(t: Name)
  {
    t == Qualified(Rasd, "ElementName") || t == Qualified(Rasd, "InstanceID") || t == Qualified(Rasd, "ResourceType")
  }

  /** The text of a field of an item that no earlier field shares a tag
      with is what `find(tag).text` gives. */
  lemma FieldLookup(attrib: map<Name, string>, name: string, id: nat, resourceType: nat,
                    fields: seq<Element>, configs: seq<(string, string)>, k: nat)
    requires k < |fields| && !IsHeadTag(fields[k].tag) && fields[k].tag != Qualified(Vmw, "Config")
    requires forall j :: 0 <= j < k ==> fields[j].tag != fields[k].tag
    ensures var e := ResourceItem(attrib, name, id, resourceType, fields, configs);
      ChildText(e, fields[k].tag) == fields[k].text
  {
    FieldFind(attrib, name, id, resourceType, fields, configs, k);
  }

  /** A field of an item that no earlier field shares a tag with is what
      `find` returns for that tag. */
  lemma FieldFind(attrib: map<Name, string>, name: string, id: nat, resourceType: nat,
                  fields: seq<Element>, configs: seq<(string, string)>, k: nat)
    requires k < |fields| && !IsHeadTag(fields[k].tag) && fields[k].tag != Qualified(Vmw, "Config")
    requires forall j :: 0 <= j < k ==> fields[j].tag != fields[k].tag
    ensures var e := ResourceItem(attrib, name, id, resourceType, fields, configs);
      Find(e, fields[k].tag) == Some(fields[k])
  {
    var t := fields[k].tag;
    var rt := [NsText(Rasd, "ResourceType", NatToString(resourceType))];
    SettingDataLookups(Rasd, "Item", attrib, name, id, rt + fields + Configs(configs), t);
    WithTagAppend(rt + fields, Configs(configs), t);
    ConfigsTags(configs, t);
    WithTagAppend(rt, fields, t);
    WithTagNone(rt, t);
    FirstWithTag(fields, k);
  }

  /** When no field is a config, an item's configs are the ones its pairs
      give, the first pair for a key winning. */
  lemma ConfigLookup(attrib: map<Name, string>, name: string, id: nat, resourceType: nat,
                     fields: seq<Element>, configs: seq<(string, string)>, key: string)
    requires forall j :: 0 <= j < |fields| ==> fields[j].tag != Qualified(Vmw, "Config")
    ensures ConfigValue(ResourceItem(attrib, name, id, resourceType, fields, configs), key) == PairValue(configs, key)
  {
    var head := [NsText(Rasd, "ElementName", name), NsText(Rasd, "InstanceID", NatToString(id)),
                 NsText(Rasd, "ResourceType", NatToString(resourceType))];
    var e := ResourceItem(attrib, name, id, resourceType, fields, configs);
    assert e.children == (head + fields) + Configs(configs);
    ConfigInAfter(head + fields, Configs(configs), key);
    ConfigsLookup(configs, key);
  }

  /** add_hardware_system: the `vssd` System element naming the virtual
      system and its hardware family. */
  function SystemItem(id: nat, systemName: string, systemType: string): Element
  {
    SettingData(Vssd, "System", map[], "Virtual Hardware Family", id,
      [NsText(Vssd, "VirtualSystemIdentifier", systemName), NsText(Vssd, "VirtualSystemType", systemType)])
  }

  lemma SystemItemContents(id: nat, systemName: string, systemType: string)
    ensures var e := SystemItem(id, systemName, systemType);
      e.tag == Plain("System") && InstanceIdOf(e) == Some(NatToString(id)) &&
      ChildText(e, Qualified(Vssd, "ElementName")) == Some("Virtual Hardware Family") &&
      ChildText(e, Qualified(Vssd, "VirtualSystemIdentifier")) == Some(systemName) &&
      ChildText(e, Qualified(Vssd, "VirtualSystemType")) == Some(systemType)
  {
    var fields := [NsText(Vssd, "VirtualSystemIdentifier", systemName), NsText(Vssd, "VirtualSystemType", systemType)];
    var e := SystemItem(id, systemName, systemType);
    FindAt(e, 2);
    SettingDataLookups(Vssd, "System", map[], "Virtual Hardware Family", id, fields, fields[1].tag);
    FirstWithTag(fields, 1);
  }

  /** add_hardware_vcpus: resource type 3, with `VirtualQuantity` and the
      optional `vmw:CoresPerSocket` both the number of CPUs. */
  function VcpusItem(id: nat, numVcpus: int): Element
  {
    ResourceItem(map[], IntToString(numVcpus) + " virtual CPU(s)", id, 3, VcpusFields(numVcpus), [])
  }

  lemma VcpusItemHeader(id: nat, numVcpus: int)
    ensures var e := VcpusItem(id, numVcpus);
      e.tag == Plain("Item") && e.attrib == map[] && InstanceIdOf(e) == Some(NatToString(id)) &&
      ChildText(e, Qualified(Rasd, "ElementName")) == Some(IntToString(numVcpus) + " virtual CPU(s)") &&
      ChildText(e, Qualified(Rasd, "ResourceType")) == Some(NatToString(3))
  {
    ResourceItemLookups(map[], IntToString(numVcpus) + " virtual CPU(s)", id, 3, VcpusFields(numVcpus), []);
  }

  function VcpusFields(numVcpus: int): seq<Element>
  {
    [NsText(Rasd, "AllocationUnits", "hertz * 10^6"),
     NsText(Rasd, "Description", "Number of Virtual CPUs"),
     NsText(Rasd, "VirtualQuantity", IntToString(numVcpus)),
     Element(Qualified(Vmw, "CoresPerSocket"), NotRequired(), Some(IntToString(numVcpus)), [])]
  }

  lemma VcpusItemFields(id: nat, numVcpus: int)
    ensures var e := VcpusItem(id, numVcpus);
      ChildText(e, Qualified(Rasd, "AllocationUnits")) == Some("hertz * 10^6") &&
      ChildText(e, Qualified(Rasd, "Description")) == Some("Number of Virtual CPUs")
  {
    var e := VcpusItem(id, numVcpus);
    var fields, configs := VcpusFields(numVcpus), [];
    assert ChildText(e, Qualified(Rasd, "AllocationUnits")) == Some("hertz * 10^6") by {
      FieldLookup(map[], IntToString(numVcpus) + " virtual CPU(s)", id, 3, fields, configs, 0);
    }
    assert ChildText(e, Qualified(Rasd, "Description")) == Some("Number of Virtual CPUs") by {
      FieldLookup(map[], IntToString(numVcpus) + " virtual CPU(s)", id, 3, fields, configs, 1);
    }
  }

  lemma VcpusItemMoreFields(id: nat, numVcpus: int)
    ensures var e := VcpusItem(id, numVcpus);
      ChildText(e, Qualified(Rasd, "VirtualQuantity")) == Some(IntToString(numVcpus)) &&
      Find(e, Qualified(Vmw, "CoresPerSocket")) == Some(Element(Qualified(Vmw, "CoresPerSocket"), NotRequired(), Some(IntToString(numVcpus)), []))
  {
    var e := VcpusItem(id, numVcpus);
    var fields, configs := VcpusFields(numVcpus), [];
    assert ChildText(e, Qualified(Rasd, "VirtualQuantity")) == Some(IntToString(numVcpus)) by {
      FieldLookup(map[], IntToString(numVcpus) + " virtual CPU(s)", id, 3, fields, configs, 2);
    }
    assert Find(e, Qualified(Vmw, "CoresPerSocket")) == Some(Element(Qualified(Vmw, "CoresPerSocket"),
                NotRequired(), Some(IntToString(numVcpus)), [])) by {
      FieldFind(map[], IntToString(numVcpus) + " virtual CPU(s)", id, 3, fields, configs, 3);
    }
  }

  /** add_hardware_memory: resource type 4, with the size in MB as `VirtualQuantity`. */
  function MemoryItem(id: nat, memoryMb: int): Element
  {
    ResourceItem(map[], IntToString(memoryMb) + "MB of memory", id, 4, MemoryFields(memoryMb), [])
  }

  lemma MemoryItemHeader(id: nat, memoryMb: int)
    ensures var e := MemoryItem(id, memoryMb);
      e.tag == Plain("Item") && e.attrib == map[] && InstanceIdOf(e) == Some(NatToString(id)) &&
      ChildText(e, Qualified(Rasd, "ElementName")) == Some(IntToString(memoryMb) + "MB of memory") &&
      ChildText(e, Qualified(Rasd, "ResourceType")) == Some(NatToString(4))
  {
    ResourceItemLookups(map[], IntToString(memoryMb) + "MB of memory", id, 4, MemoryFields(memoryMb), []);
  }

  function MemoryFields(memoryMb: int): seq<Element>
  {
    [NsText(Rasd, "AllocationUnits", "byte * 2^20"),
     NsText(Rasd, "Description", "Memory Size"),
     NsText(Rasd, "VirtualQuantity", IntToString(memoryMb))]
  }

  lemma MemoryItemFields(id: nat, memoryMb: int)
    ensures var e := MemoryItem(id, memoryMb);
      ChildText(e, Qualified(Rasd, "AllocationUnits")) == Some("byte * 2^20") &&
      ChildText(e, Qualified(Rasd, "Description")) == Some("Memory Size")
  {
    var e := MemoryItem(id, memoryMb);
    var fields, configs := MemoryFields(memoryMb), [];
    assert ChildText(e, Qualified(Rasd, "AllocationUnits")) == Some("byte * 2^20") by {
      FieldLookup(map[], IntToString(memoryMb) + "MB of memory", id, 4, fields, configs, 0);
    }
    assert ChildText(e, Qualified(Rasd, "Description")) == Some("Memory Size") by {
      FieldLookup(map[], IntToString(memoryMb) + "MB of memory", id, 4, fields, configs, 1);
    }
  }

  lemma MemoryItemMoreFields(id: nat, memoryMb: int)
    ensures var e := MemoryItem(id, memoryMb);
      ChildText(e, Qualified(Rasd, "VirtualQuantity")) == Some(IntToString(memoryMb))
  {
    var e := MemoryItem(id, memoryMb);
    var fields, configs := MemoryFields(memoryMb), [];
    assert ChildText(e, Qualified(Rasd, "VirtualQuantity")) == Some(IntToString(memoryMb)) by {
      FieldLookup(map[], IntToString(memoryMb) + "MB of memory", id, 4, fields, configs, 2);
    }
  }

  /** add_hardware_sata_controller: resource type 20 at `address`. */
  function SataControllerItem(id: nat, address: int): Element
  {
    ResourceItem(map[], "SATA Controller " + IntToString(address), id, 20, SataControllerFields(address), [])
  }

  lemma SataControllerItemHeader(id: nat, address: int)
    ensures var e := SataControllerItem(id, address);
      e.tag == Plain("Item") && e.attrib == map[] && InstanceIdOf(e) == Some(NatToString(id)) &&
      ChildText(e, Qualified(Rasd, "ElementName")) == Some("SATA Controller " + IntToString(address)) &&
      ChildText(e, Qualified(Rasd, "ResourceType")) == Some(NatToString(20))
  {
    ResourceItemLookups(map[], "SATA Controller " + IntToString(address), id, 20, SataControllerFields(address), []);
  }

  function SataControllerFields(address: int): seq<Element>
  {
    [NsText(Rasd, "Address", IntToString(address)),
     NsText(Rasd, "Description", "SATA Controller"),
     NsText(Rasd, "ResourceSubType", "vmware.sata.ahci")]
  }

  lemma SataControllerItemFields(id: nat, address: int)
    ensures var e := SataControllerItem(id, address);
      ChildText(e, Qualified(Rasd, "Address")) == Some(IntToString(address)) &&
      ChildText(e, Qualified(Rasd, "Description")) == Some("SATA Controller")
  {
    var e := SataControllerItem(id, address);
    var fields, configs := SataControllerFields(address), [];
    assert ChildText(e, Qualified(Rasd, "Address")) == Some(IntToString(address)) by {
      FieldLookup(map[], "SATA Controller " + IntToString(address), id, 20, fields, configs, 0);
    }
    assert ChildText(e, Qualified(Rasd, "Description")) == Some("SATA Controller") by {
      FieldLookup(map[], "SATA Controller " + IntToString(address), id, 20, fields, configs, 1);
    }
  }

  lemma SataControllerItemMoreFields(id: nat, address: int)
    ensures var e := SataControllerItem(id, address);
      ChildText(e, Qualified(Rasd, "ResourceSubType")) == Some("vmware.sata.ahci")
  {
    var e := SataControllerItem(id, address);
    var fields, configs := SataControllerFields(address), [];
    assert ChildText(e, Qualified(Rasd, "ResourceSubType")) == Some("vmware.sata.ahci") by {
      FieldLookup(map[], "SATA Controller " + IntToString(address), id, 20, fields, configs, 2);
    }
  }

  /** add_hardware_scsi_controller: resource type 6 at `address`. */
  function ScsiControllerItem(id: nat, address: int): Element
  {
    ResourceItem(map[], "SCSI Controller " + IntToString(address), id, 6, ScsiControllerFields(address), [])
  }

  lemma ScsiControllerItemHeader(id: nat, address: int)
    ensures var e := ScsiControllerItem(id, address);
      e.tag == Plain("Item") && e.attrib == map[] && InstanceIdOf(e) == Some(NatToString(id)) &&
      ChildText(e, Qualified(Rasd, "ElementName")) == Some("SCSI Controller " + IntToString(address)) &&
      ChildText(e, Qualified(Rasd, "ResourceType")) == Some(NatToString(6))
  {
    ResourceItemLookups(map[], "SCSI Controller " + IntToString(address), id, 6, ScsiControllerFields(address), []);
  }

  function ScsiControllerFields(address: int): seq<Element>
  {
    [NsText(Rasd, "Address", IntToString(address)),
     NsText(Rasd, "Description", "SCSI Controller"),
     NsText(Rasd, "ResourceSubType", "VirtualSCSI")]
  }

  lemma ScsiControllerItemFields(id: nat, address: int)
    ensures var e := ScsiControllerItem(id, address);
      ChildText(e, Qualified(Rasd, "Address")) == Some(IntToString(address)) &&
      ChildText(e, Qualified(Rasd, "Description")) == Some("SCSI Controller")
  {
    var e := ScsiControllerItem(id, address);
    var fields, configs := ScsiControllerFields(address), [];
    assert ChildText(e, Qualified(Rasd, "Address")) == Some(IntToString(address)) by {
      FieldLookup(map[], "SCSI Controller " + IntToString(address), id, 6, fields, configs, 0);
    }
    assert ChildText(e, Qualified(Rasd, "Description")) == Some("SCSI Controller") by {
      FieldLookup(map[], "SCSI Controller " + IntToString(address), id, 6, fields, configs, 1);
    }
  }

  lemma ScsiControllerItemMoreFields(id: nat, address: int)
    ensures var e := ScsiControllerItem(id, address);
      ChildText(e, Qualified(Rasd, "ResourceSubType")) == Some("VirtualSCSI")
  {
    var e := ScsiControllerItem(id, address);
    var fields, configs := ScsiControllerFields(address), [];
    assert ChildText(e, Qualified(Rasd, "ResourceSubType")) == Some("VirtualSCSI") by {
      FieldLookup(map[], "SCSI Controller " + IntToString(address), id, 6, fields, configs, 2);
    }
  }

  /** add_hardware_usb_controller: an optional resource of type 23 at
      `address`, with device auto-connection off and EHCI on. */
  function UsbControllerItem(id: nat, address: int): Element
  {
    ResourceItem(NotRequired(), "USB Controller", id, 23, UsbControllerFields(address), UsbControllerConfigs())
  }

  lemma UsbControllerItemHeader(id: nat, address: int)
    ensures var e := UsbControllerItem(id, address);
      e.tag == Plain("Item") && e.attrib == NotRequired() && InstanceIdOf(e) == Some(NatToString(id)) &&
      ChildText(e, Qualified(Rasd, "ElementName")) == Some("USB Controller") &&
      ChildText(e, Qualified(Rasd, "ResourceType")) == Some(NatToString(23))
  {
    ResourceItemLookups(NotRequired(), "USB Controller", id, 23, UsbControllerFields(address), UsbControllerConfigs());
  }

  function UsbControllerFields(address: int): seq<Element>
  {
    [NsText(Rasd, "Address", IntToString(address)),
     NsText(Rasd, "Description", "USB Controller (EHCI)"),
     NsText(Rasd, "ResourceSubType", "vmware.usb.ehci")]
  }

  function UsbControllerConfigs(): seq<(string, string)>
  {
    [("autoConnectDevices", "false"),
     ("ehciEnabled", "true")]
  }

  lemma UsbControllerItemFields(id: nat, address: int)
    ensures var e := UsbControllerItem(id, address);
      ChildText(e, Qualified(Rasd, "Address")) == Some(IntToString(address)) &&
      ChildText(e, Qualified(Rasd, "Description")) == Some("USB Controller (EHCI)")
  {
    var e := UsbControllerItem(id, address);
    var fields, configs := UsbControllerFields(address), UsbControllerConfigs();
    assert ChildText(e, Qualified(Rasd, "Address")) == Some(IntToString(address)) by {
      FieldLookup(NotRequired(), "USB Controller", id, 23, fields, configs, 0);
    }
    assert ChildText(e, Qualified(Rasd, "Description")) == Some("USB Controller (EHCI)") by {
      FieldLookup(NotRequired(), "USB Controller", id, 23, fields, configs, 1);
    }
  }

  lemma UsbControllerItemMoreFields(id: nat, address: int)
    ensures var e := UsbControllerItem(id, address);
      ChildText(e, Qualified(Rasd, "ResourceSubType")) == Some("vmware.usb.ehci")
  {
    var e := UsbControllerItem(id, address);
    var fields, configs := UsbControllerFields(address), UsbControllerConfigs();
    assert ChildText(e, Qualified(Rasd, "ResourceSubType")) == Some("vmware.usb.ehci") by {
      FieldLookup(NotRequired(), "USB Controller", id, 23, fields, configs, 2);
    }
  }

  lemma UsbControllerItemConfigs(id: nat, address: int)
    ensures var e := UsbControllerItem(id, address);
      ConfigValue(e, "autoConnectDevices") == Some("false") &&
      ConfigValue(e, "ehciEnabled") == Some("true")
  {
    var fields, configs := UsbControllerFields(address), UsbControllerConfigs();
    ConfigLookup(NotRequired(), "USB Controller", id, 23, fields, configs, "autoConnectDevices");
    PairValueAt(configs, 0, "autoConnectDevices");
    ConfigLookup(NotRequired(), "USB Controller", id, 23, fields, configs, "ehciEnabled");
    PairValueAt(configs, 1, "ehciEnabled");
  }

  /** add_hardware_ide_controller: resource type 5 at `address`. */
  function IdeControllerItem(id: nat, address: int): Element
  {
    ResourceItem(map[], "VirtualIDEController " + IntToString(address), id, 5, IdeControllerFields(address), [])
  }

  lemma IdeControllerItemHeader(id: nat, address: int)
    ensures var e := IdeControllerItem(id, address);
      e.tag == Plain("Item") && e.attrib == map[] && InstanceIdOf(e) == Some(NatToString(id)) &&
      ChildText(e, Qualified(Rasd, "ElementName")) == Some("VirtualIDEController " + IntToString(address)) &&
      ChildText(e, Qualified(Rasd, "ResourceType")) == Some(NatToString(5))
  {
    ResourceItemLookups(map[], "VirtualIDEController " + IntToString(address), id, 5, IdeControllerFields(address), []);
  }

  function IdeControllerFields(address: int): seq<Element>
  {
    [NsText(Rasd, "Address", IntToString(address)),
     NsText(Rasd, "Description", "IDE Controller")]
  }

  lemma IdeControllerItemFields(id: nat, address: int)
    ensures var e := IdeControllerItem(id, address);
      ChildText(e, Qualified(Rasd, "Address")) == Some(IntToString(address)) &&
      ChildText(e, Qualified(Rasd, "Description")) == Some("IDE Controller")
  {
    var e := IdeControllerItem(id, address);
    var fields, configs := IdeControllerFields(address), [];
    assert ChildText(e, Qualified(Rasd, "Address")) == Some(IntToString(address)) by {
      FieldLookup(map[], "VirtualIDEController " + IntToString(address), id, 5, fields, configs, 0);
    }
    assert ChildText(e, Qualified(Rasd, "Description")) == Some("IDE Controller") by {
      FieldLookup(map[], "VirtualIDEController " + IntToString(address), id, 5, fields, configs, 1);
    }
  }

  /** add_hardware_video_card: an optional resource of type 24 whose five
      settings are configs, the flags written `true` or `false`. */
  function VideoCardItem(id: nat, enable3dSupport: bool, enableMptSupport: bool, use3dRenderer: string,
                         useAutoDetect: bool, videoRamSizeInKb: int): Element
  {
    ResourceItem(NotRequired(), "VirtualVideoCard", id, 24, VideoCardFields(),
                 VideoCardConfigs(enable3dSupport, enableMptSupport, use3dRenderer, useAutoDetect,
                 videoRamSizeInKb))
  }

  lemma VideoCardItemHeader(id: nat, enable3dSupport: bool, enableMptSupport: bool, use3dRenderer: string,
                            useAutoDetect: bool, videoRamSizeInKb: int)
    ensures var e := VideoCardItem(id, enable3dSupport, enableMptSupport, use3dRenderer, useAutoDetect, videoRamSizeInKb);
      e.tag == Plain("Item") && e.attrib == NotRequired() && InstanceIdOf(e) == Some(NatToString(id)) &&
      ChildText(e, Qualified(Rasd, "ElementName")) == Some("VirtualVideoCard") &&
      ChildText(e, Qualified(Rasd, "ResourceType")) == Some(NatToString(24))
  {
    ResourceItemLookups(NotRequired(), "VirtualVideoCard", id, 24, VideoCardFields(), VideoCardConfigs(enable3dSupport, enableMptSupport, use3dRenderer, useAutoDetect, videoRamSizeInKb));
  }

  function VideoCardFields(): seq<Element>
  {
    [NsText(Rasd, "AutomaticAllocation", "false")]
  }

  function VideoCardConfigs(enable3dSupport: bool, enableMptSupport: bool, use3dRenderer: string,
                            useAutoDetect: bool, videoRamSizeInKb: int): seq<(string, string)>
  {
    [("enable3DSupport", BoolText(enable3dSupport)),
     ("enableMPTSupport", BoolText(enableMptSupport)),
     ("use3dRenderer", use3dRenderer),
     ("useAutoDetect", BoolText(useAutoDetect)),
     ("videoRamSizeInKB", IntToString(videoRamSizeInKb))]
  }

  lemma VideoCardItemFields(id: nat, enable3dSupport: bool, enableMptSupport: bool, use3dRenderer: string,
                            useAutoDetect: bool, videoRamSizeInKb: int)
    ensures var e := VideoCardItem(id, enable3dSupport, enableMptSupport, use3dRenderer, useAutoDetect, videoRamSizeInKb);
      ChildText(e, Qualified(Rasd, "AutomaticAllocation")) == Some("false")
  {
    var e := VideoCardItem(id, enable3dSupport, enableMptSupport, use3dRenderer, useAutoDetect, videoRamSizeInKb);
    var fields, configs := VideoCardFields(), VideoCardConfigs(enable3dSupport, enableMptSupport,
                                           use3dRenderer, useAutoDetect, videoRamSizeInKb);
    assert ChildText(e, Qualified(Rasd, "AutomaticAllocation")) == Some("false") by {
      FieldLookup(NotRequired(), "VirtualVideoCard", id, 24, fields, configs, 0);
    }
  }

  lemma VideoCardItemConfigs(id: nat, enable3dSupport: bool, enableMptSupport: bool, use3dRenderer: string,
                             useAutoDetect: bool, videoRamSizeInKb: int)
    ensures var e := VideoCardItem(id, enable3dSupport, enableMptSupport, use3dRenderer, useAutoDetect,
                                   videoRamSizeInKb);
      ConfigValue(e, "enable3DSupport") == Some(BoolText(enable3dSupport)) &&
      ConfigValue(e, "enableMPTSupport") == Some(BoolText(enableMptSupport)) &&
      ConfigValue(e, "use3dRenderer") == Some(use3dRenderer)
  {
    var fields, configs := VideoCardFields(), VideoCardConfigs(enable3dSupport, enableMptSupport,
                                           use3dRenderer, useAutoDetect, videoRamSizeInKb);
    ConfigLookup(NotRequired(), "VirtualVideoCard", id, 24, fields, configs, "enable3DSupport");
    PairValueAt(configs, 0, "enable3DSupport");
    ConfigLookup(NotRequired(), "VirtualVideoCard", id, 24, fields, configs, "enableMPTSupport");
    PairValueAt(configs, 1, "enableMPTSupport");
    ConfigLookup(NotRequired(), "VirtualVideoCard", id, 24, fields, configs, "use3dRenderer");
    PairValueAt(configs, 2, "use3dRenderer");
  }

  lemma VideoCardItemMoreConfigs(id: nat, enable3dSupport: bool, enableMptSupport: bool, use3dRenderer: string,
                                 useAutoDetect: bool, videoRamSizeInKb: int)
    ensures var e := VideoCardItem(id, enable3dSupport, enableMptSupport, use3dRenderer, useAutoDetect,
                                   videoRamSizeInKb);
      ConfigValue(e, "useAutoDetect") == Some(BoolText(useAutoDetect)) &&
      ConfigValue(e, "videoRamSizeInKB") == Some(IntToString(videoRamSizeInKb))
  {
    var fields, configs := VideoCardFields(), VideoCardConfigs(enable3dSupport, enableMptSupport,
                                           use3dRenderer, useAutoDetect, videoRamSizeInKb);
    ConfigLookup(NotRequired(), "VirtualVideoCard", id, 24, fields, configs, "useAutoDetect");
    PairValueAt(configs, 3, "useAutoDetect");
    ConfigLookup(NotRequired(), "VirtualVideoCard", id, 24, fields, configs, "videoRamSizeInKB");
    PairValueAt(configs, 4, "videoRamSizeInKB");
  }


  /** add_hardware_vmci_device: an optional resource of type 1 whose
      unrestricted-communication flag is a config. */
  function VmciDeviceItem(id: nat, allowUnrestrictedCommunication: bool): Element
  {
    ResourceItem(NotRequired(), "VirtualVMCIDevice", id, 1, VmciDeviceFields(),
                 VmciDeviceConfigs(allowUnrestrictedCommunication))
  }

  lemma VmciDeviceItemHeader(id: nat, allowUnrestrictedCommunication: bool)
    ensures var e := VmciDeviceItem(id, allowUnrestrictedCommunication);
      e.tag == Plain("Item") && e.attrib == NotRequired() && InstanceIdOf(e) == Some(NatToString(id)) &&
      ChildText(e, Qualified(Rasd, "ElementName")) == Some("VirtualVMCIDevice") &&
      ChildText(e, Qualified(Rasd, "ResourceType")) == Some(NatToString(1))
  {
    ResourceItemLookups(NotRequired(), "VirtualVMCIDevice", id, 1, VmciDeviceFields(), VmciDeviceConfigs(allowUnrestrictedCommunication));
  }

  function VmciDeviceFields(): seq<Element>
  {
    [NsText(Rasd, "AutomaticAllocation", "false"),
     NsText(Rasd, "ResourceSubType", "vmware.vmci")]
  }

  function VmciDeviceConfigs(allowUnrestrictedCommunication: bool): seq<(string, string)>
  {
    [("allowUnrestrictedCommunication", BoolText(allowUnrestrictedCommunication))]
  }

  lemma VmciDeviceItemFields(id: nat, allowUnrestrictedCommunication: bool)
    ensures var e := VmciDeviceItem(id, allowUnrestrictedCommunication);
      ChildText(e, Qualified(Rasd, "AutomaticAllocation")) == Some("false") &&
      ChildText(e, Qualified(Rasd, "ResourceSubType")) == Some("vmware.vmci")
  {
    var e := VmciDeviceItem(id, allowUnrestrictedCommunication);
    var fields, configs := VmciDeviceFields(), VmciDeviceConfigs(allowUnrestrictedCommunication);
    assert ChildText(e, Qualified(Rasd, "AutomaticAllocation")) == Some("false") by {
      FieldLookup(NotRequired(), "VirtualVMCIDevice", id, 1, fields, configs, 0);
    }
    assert ChildText(e, Qualified(Rasd, "ResourceSubType")) == Some("vmware.vmci") by {
      FieldLookup(NotRequired(), "VirtualVMCIDevice", id, 1, fields, configs, 1);
    }
  }

  lemma VmciDeviceItemConfigs(id: nat, allowUnrestrictedCommunication: bool)
    ensures var e := VmciDeviceItem(id, allowUnrestrictedCommunication);
      ConfigValue(e, "allowUnrestrictedCommunication") == Some(BoolText(allowUnrestrictedCommunication))
  {
    var fields, configs := VmciDeviceFields(), VmciDeviceConfigs(allowUnrestrictedCommunication);
    ConfigLookup(NotRequired(), "VirtualVMCIDevice", id, 1, fields, configs, "allowUnrestrictedCommunication");
    PairValueAt(configs, 0, "allowUnrestrictedCommunication");
  }

  /** add_hardware_cd_rom: the `num`-th CD-ROM, an optional resource of
      type 15 attached at `addressOnParent` to the controller `parent`. */
  function CdRomItem(id: nat, num: nat, parent: int, addressOnParent: int): Element
  {
    ResourceItem(NotRequired(), "CD-ROM " + NatToString(num), id, 15, CdRomFields(parent, addressOnParent), [])
  }

  lemma CdRomItemHeader(id: nat, num: nat, parent: int, addressOnParent: int)
    ensures var e := CdRomItem(id, num, parent, addressOnParent);
      e.tag == Plain("Item") && e.attrib == NotRequired() && InstanceIdOf(e) == Some(NatToString(id)) &&
      ChildText(e, Qualified(Rasd, "ElementName")) == Some("CD-ROM " + NatToString(num)) &&
      ChildText(e, Qualified(Rasd, "ResourceType")) == Some(NatToString(15))
  {
    ResourceItemLookups(NotRequired(), "CD-ROM " + NatToString(num), id, 15, CdRomFields(parent, addressOnParent), []);
  }

  function CdRomFields(parent: int, addressOnParent: int): seq<Element>
  {
    [NsText(Rasd, "AddressOnParent", IntToString(addressOnParent)),
     NsText(Rasd, "AutomaticAllocation", "false"),
     NsText(Rasd, "ResourceSubType", "vmware.cdrom.atapi"),
     NsText(Rasd, "Parent", IntToString(parent))]
  }

  lemma CdRomItemFields(id: nat, num: nat, parent: int, addressOnParent: int)
    ensures var e := CdRomItem(id, num, parent, addressOnParent);
      ChildText(e, Qualified(Rasd, "AddressOnParent")) == Some(IntToString(addressOnParent)) &&
      ChildText(e, Qualified(Rasd, "AutomaticAllocation")) == Some("false")
  {
    var e := CdRomItem(id, num, parent, addressOnParent);
    var fields, configs := CdRomFields(parent, addressOnParent), [];
    assert ChildText(e, Qualified(Rasd, "AddressOnParent")) == Some(IntToString(addressOnParent)) by {
      FieldLookup(NotRequired(), "CD-ROM " + NatToString(num), id, 15, fields, configs, 0);
    }
    assert ChildText(e, Qualified(Rasd, "AutomaticAllocation")) == Some("false") by {
      FieldLookup(NotRequired(), "CD-ROM " + NatToString(num), id, 15, fields, configs, 1);
    }
  }

  lemma CdRomItemMoreFields(id: nat, num: nat, parent: int, addressOnParent: int)
    ensures var e := CdRomItem(id, num, parent, addressOnParent);
      ChildText(e, Qualified(Rasd, "ResourceSubType")) == Some("vmware.cdrom.atapi") &&
      ChildText(e, Qualified(Rasd, "Parent")) == Some(IntToString(parent))
  {
    var e := CdRomItem(id, num, parent, addressOnParent);
    var fields, configs := CdRomFields(parent, addressOnParent), [];
    assert ChildText(e, Qualified(Rasd, "ResourceSubType")) == Some("vmware.cdrom.atapi") by {
      FieldLookup(NotRequired(), "CD-ROM " + NatToString(num), id, 15, fields, configs, 2);
    }
    assert ChildText(e, Qualified(Rasd, "Parent")) == Some(IntToString(parent)) by {
      FieldLookup(NotRequired(), "CD-ROM " + NatToString(num), id, 15, fields, configs, 3);
    }
  }

  /** add_hardware_hard_disk: the `num`-th hard disk, a resource of type 17
      backed by `hostResource` and attached at `addressOnParent` to the
      controller `parent`; the disk mode config is there only when a mode is given. */
  function HardDiskItem(id: nat, num: nat, parent: int, addressOnParent: int, hostResource: string,
                        writeThrough: bool, diskMode: Option<string>): Element
  {
    ResourceItem(map[], "Hard Disk " + NatToString(num), id, 17, HardDiskFields(parent, addressOnParent,
                 hostResource), HardDiskConfigs(writeThrough, diskMode))
  }

  lemma HardDiskItemHeader(id: nat, num: nat, parent: int, addressOnParent: int, hostResource: string,
                           writeThrough: bool, diskMode: Option<string>)
    ensures var e := HardDiskItem(id, num, parent, addressOnParent, hostResource, writeThrough, diskMode);
      e.tag == Plain("Item") && e.attrib == map[] && InstanceIdOf(e) == Some(NatToString(id)) &&
      ChildText(e, Qualified(Rasd, "ElementName")) == Some("Hard Disk " + NatToString(num)) &&
      ChildText(e, Qualified(Rasd, "ResourceType")) == Some(NatToString(17))
  {
    ResourceItemLookups(map[], "Hard Disk " + NatToString(num), id, 17, HardDiskFields(parent, addressOnParent, hostResource), HardDiskConfigs(writeThrough, diskMode));
  }

  function HardDiskFields(parent: int, addressOnParent: int, hostResource: string): seq<Element>
  {
    [NsText(Rasd, "AddressOnParent", IntToString(addressOnParent)),
     NsText(Rasd, "Parent", IntToString(parent)),
     NsText(Rasd, "HostResource", hostResource)]
  }

  function HardDiskConfigs(writeThrough: bool, diskMode: Option<string>): seq<(string, string)>
  {
    if diskMode.Some? then [("backing.writeThrough", BoolText(writeThrough)), ("backing.diskMode", diskMode.value)]
    else [("backing.writeThrough", BoolText(writeThrough))]
  }

  lemma HardDiskItemFields(id: nat, num: nat, parent: int, addressOnParent: int, hostResource: string,
                           writeThrough: bool, diskMode: Option<string>)
    ensures var e := HardDiskItem(id, num, parent, addressOnParent, hostResource, writeThrough, diskMode);
      ChildText(e, Qualified(Rasd, "AddressOnParent")) == Some(IntToString(addressOnParent)) &&
      ChildText(e, Qualified(Rasd, "Parent")) == Some(IntToString(parent))
  {
    var e := HardDiskItem(id, num, parent, addressOnParent, hostResource, writeThrough, diskMode);
    var fields, configs := HardDiskFields(parent, addressOnParent, hostResource), HardDiskConfigs(writeThrough,
                                          diskMode);
    assert ChildText(e, Qualified(Rasd, "AddressOnParent")) == Some(IntToString(addressOnParent)) by {
      FieldLookup(map[], "Hard Disk " + NatToString(num), id, 17, fields, configs, 0);
    }
    assert ChildText(e, Qualified(Rasd, "Parent")) == Some(IntToString(parent)) by {
      FieldLookup(map[], "Hard Disk " + NatToString(num), id, 17, fields, configs, 1);
    }
  }

  lemma HardDiskItemMoreFields(id: nat, num: nat, parent: int, addressOnParent: int, hostResource: string,
                               writeThrough: bool, diskMode: Option<string>)
    ensures var e := HardDiskItem(id, num, parent, addressOnParent, hostResource, writeThrough, diskMode);
      ChildText(e, Qualified(Rasd, "HostResource")) == Some(hostResource)
  {
    var e := HardDiskItem(id, num, parent, addressOnParent, hostResource, writeThrough, diskMode);
    var fields, configs := HardDiskFields(parent, addressOnParent, hostResource), HardDiskConfigs(writeThrough,
                                          diskMode);
    assert ChildText(e, Qualified(Rasd, "HostResource")) == Some(hostResource) by {
      FieldLookup(map[], "Hard Disk " + NatToString(num), id, 17, fields, configs, 2);
    }
  }

  lemma HardDiskItemConfigs(id: nat, num: nat, parent: int, addressOnParent: int, hostResource: string,
                            writeThrough: bool, diskMode: Option<string>)
    ensures var e := HardDiskItem(id, num, parent, addressOnParent, hostResource, writeThrough, diskMode);
      ConfigValue(e, "backing.writeThrough") == Some(BoolText(writeThrough)) &&
      ConfigValue(e, "backing.diskMode") == diskMode
  {
    var fields, configs := HardDiskFields(parent, addressOnParent, hostResource), HardDiskConfigs(writeThrough,
                                          diskMode);
    ConfigLookup(map[], "Hard Disk " + NatToString(num), id, 17, fields, configs, "backing.writeThrough");
    PairValueAt(configs, 0, "backing.writeThrough");
    if diskMode.Some? {
      ConfigLookup(map[], "Hard Disk " + NatToString(num), id, 17, fields, configs, "backing.diskMode");
      PairValueAt(configs, 1, "backing.diskMode");
    } else {
      ConfigLookup(map[], "Hard Disk " + NatToString(num), id, 17, fields, configs, "backing.diskMode");
      PairValueNone(configs, "backing.diskMode");
    }
  }

  /** add_hardware_floppy_drive: the `num`-th floppy drive, an optional
      resource of type 14 at `addressOnParent`. */
  function FloppyDriveItem(id: nat, num: nat, addressOnParent: int): Element
  {
    ResourceItem(NotRequired(), "Floppy " + NatToString(num), id, 14, FloppyDriveFields(addressOnParent), [])
  }

  lemma FloppyDriveItemHeader(id: nat, num: nat, addressOnParent: int)
    ensures var e := FloppyDriveItem(id, num, addressOnParent);
      e.tag == Plain("Item") && e.attrib == NotRequired() && InstanceIdOf(e) == Some(NatToString(id)) &&
      ChildText(e, Qualified(Rasd, "ElementName")) == Some("Floppy " + NatToString(num)) &&
      ChildText(e, Qualified(Rasd, "ResourceType")) == Some(NatToString(14))
  {
    ResourceItemLookups(NotRequired(), "Floppy " + NatToString(num), id, 14, FloppyDriveFields(addressOnParent), []);
  }

  function FloppyDriveFields(addressOnParent: int): seq<Element>
  {
    [NsText(Rasd, "AddressOnParent", IntToString(addressOnParent)),
     NsText(Rasd, "AutomaticAllocation", "false"),
     NsText(Rasd, "Description", "Floppy Drive"),
     NsText(Rasd, "ResourceSubType", "vmware.floppy.remotedevice")]
  }

  lemma FloppyDriveItemFields(id: nat, num: nat, addressOnParent: int)
    ensures var e := FloppyDriveItem(id, num, addressOnParent);
      ChildText(e, Qualified(Rasd, "AddressOnParent")) == Some(IntToString(addressOnParent)) &&
      ChildText(e, Qualified(Rasd, "AutomaticAllocation")) == Some("false")
  {
    var e := FloppyDriveItem(id, num, addressOnParent);
    var fields, configs := FloppyDriveFields(addressOnParent), [];
    assert ChildText(e, Qualified(Rasd, "AddressOnParent")) == Some(IntToString(addressOnParent)) by {
      FieldLookup(NotRequired(), "Floppy " + NatToString(num), id, 14, fields, configs, 0);
    }
    assert ChildText(e, Qualified(Rasd, "AutomaticAllocation")) == Some("false") by {
      FieldLookup(NotRequired(), "Floppy " + NatToString(num), id, 14, fields, configs, 1);
    }
  }

  lemma FloppyDriveItemMoreFields(id: nat, num: nat, addressOnParent: int)
    ensures var e := FloppyDriveItem(id, num, addressOnParent);
      ChildText(e, Qualified(Rasd, "Description")) == Some("Floppy Drive") &&
      ChildText(e, Qualified(Rasd, "ResourceSubType")) == Some("vmware.floppy.remotedevice")
  {
    var e := FloppyDriveItem(id, num, addressOnParent);
    var fields, configs := FloppyDriveFields(addressOnParent), [];
    assert ChildText(e, Qualified(Rasd, "Description")) == Some("Floppy Drive") by {
      FieldLookup(NotRequired(), "Floppy " + NatToString(num), id, 14, fields, configs, 2);
    }
    assert ChildText(e, Qualified(Rasd, "ResourceSubType")) == Some("vmware.floppy.remotedevice") by {
      FieldLookup(NotRequired(), "Floppy " + NatToString(num), id, 14, fields, configs, 3);
    }
  }

  /** add_hardware_ethernet: the `num`-th network adapter, an optional
      resource of type 10 of kind `adapterType` at `addressOnParent`,
      connected to the network `connection`. */
  function EthernetItem(id: nat, num: nat, addressOnParent: int, connection: string, adapterType: string,
                        wakeOnLanEnabled: bool): Element
  {
    ResourceItem(NotRequired(), "Ethernet " + NatToString(num), id, 10, EthernetFields(addressOnParent,
                 connection, adapterType), EthernetConfigs(wakeOnLanEnabled))
  }

  lemma EthernetItemHeader(id: nat, num: nat, addressOnParent: int, connection: string, adapterType: string,
                           wakeOnLanEnabled: bool)
    ensures var e := EthernetItem(id, num, addressOnParent, connection, adapterType, wakeOnLanEnabled);
      e.tag == Plain("Item") && e.attrib == NotRequired() && InstanceIdOf(e) == Some(NatToString(id)) &&
      ChildText(e, Qualified(Rasd, "ElementName")) == Some("Ethernet " + NatToString(num)) &&
      ChildText(e, Qualified(Rasd, "ResourceType")) == Some(NatToString(10))
  {
    ResourceItemLookups(NotRequired(), "Ethernet " + NatToString(num), id, 10, EthernetFields(addressOnParent, connection, adapterType), EthernetConfigs(wakeOnLanEnabled));
  }

  function EthernetFields(addressOnParent: int, connection: string, adapterType: string): seq<Element>
  {
    [NsText(Rasd, "AddressOnParent", IntToString(addressOnParent)),
     NsText(Rasd, "AutomaticAllocation", "true"),
     NsText(Rasd, "Connection", connection),
     NsText(Rasd, "Description", EthernetDescription(adapterType, connection)),
     NsText(Rasd, "ResourceSubType", adapterType)]
  }

  function EthernetConfigs(wakeOnLanEnabled: bool): seq<(string, string)>
  {
    [("wakeOnLanEnabled", BoolText(wakeOnLanEnabled))]
  }

  lemma EthernetItemFields(id: nat, num: nat, addressOnParent: int, connection: string, adapterType: string,
                           wakeOnLanEnabled: bool)
    ensures var e := EthernetItem(id, num, addressOnParent, connection, adapterType, wakeOnLanEnabled);
      ChildText(e, Qualified(Rasd, "AddressOnParent")) == Some(IntToString(addressOnParent)) &&
      ChildText(e, Qualified(Rasd, "AutomaticAllocation")) == Some("true")
  {
    var e := EthernetItem(id, num, addressOnParent, connection, adapterType, wakeOnLanEnabled);
    var fields, configs := EthernetFields(addressOnParent, connection, adapterType),
                                          EthernetConfigs(wakeOnLanEnabled);
    assert ChildText(e, Qualified(Rasd, "AddressOnParent")) == Some(IntToString(addressOnParent)) by {
      FieldLookup(NotRequired(), "Ethernet " + NatToString(num), id, 10, fields, configs, 0);
    }
    assert ChildText(e, Qualified(Rasd, "AutomaticAllocation")) == Some("true") by {
      FieldLookup(NotRequired(), "Ethernet " + NatToString(num), id, 10, fields, configs, 1);
    }
  }

  lemma EthernetItemMoreFields(id: nat, num: nat, addressOnParent: int, connection: string,
                               adapterType: string, wakeOnLanEnabled: bool)
    ensures var e := EthernetItem(id, num, addressOnParent, connection, adapterType, wakeOnLanEnabled);
      ChildText(e, Qualified(Rasd, "Connection")) == Some(connection) &&
      ChildText(e, Qualified(Rasd, "Description")) == Some(EthernetDescription(adapterType, connection))
  {
    var e := EthernetItem(id, num, addressOnParent, connection, adapterType, wakeOnLanEnabled);
    var fields, configs := EthernetFields(addressOnParent, connection, adapterType),
                                          EthernetConfigs(wakeOnLanEnabled);
    assert ChildText(e, Qualified(Rasd, "Connection")) == Some(connection) by {
      FieldLookup(NotRequired(), "Ethernet " + NatToString(num), id, 10, fields, configs, 2);
    }
    assert ChildText(e, Qualified(Rasd, "Description")) == Some(EthernetDescription(adapterType, connection)) by {
      FieldLookup(NotRequired(), "Ethernet " + NatToString(num), id, 10, fields, configs, 3);
    }
  }

  lemma EthernetItemLastFields(id: nat, num: nat, addressOnParent: int, connection: string,
                               adapterType: string, wakeOnLanEnabled: bool)
    ensures var e := EthernetItem(id, num, addressOnParent, connection, adapterType, wakeOnLanEnabled);
      ChildText(e, Qualified(Rasd, "ResourceSubType")) == Some(adapterType)
  {
    var e := EthernetItem(id, num, addressOnParent, connection, adapterType, wakeOnLanEnabled);
    var fields, configs := EthernetFields(addressOnParent, connection, adapterType),
                                          EthernetConfigs(wakeOnLanEnabled);
    assert ChildText(e, Qualified(Rasd, "ResourceSubType")) == Some(adapterType) by {
      FieldLookup(NotRequired(), "Ethernet " + NatToString(num), id, 10, fields, configs, 4);
    }
  }

  lemma EthernetItemConfigs(id: nat, num: nat, addressOnParent: int, connection: string, adapterType: string,
                            wakeOnLanEnabled: bool)
    ensures var e := EthernetItem(id, num, addressOnParent, connection, adapterType, wakeOnLanEnabled);
      ConfigValue(e, "wakeOnLanEnabled") == Some(BoolText(wakeOnLanEnabled))
  {
    var fields, configs := EthernetFields(addressOnParent, connection, adapterType),
                                          EthernetConfigs(wakeOnLanEnabled);
    ConfigLookup(NotRequired(), "Ethernet " + NatToString(num), id, 10, fields, configs, "wakeOnLanEnabled");
    PairValueAt(configs, 0, "wakeOnLanEnabled");
  }

  /** The description of an ethernet adapter, `%s ethernet adapter on
      &quot;%s&quot;` with the entity kept as written. */
  function EthernetDescription(adapterType: string, connection: string): string
  {
    adapterType + " ethernet adapter on &quot;" + connection + "&quot;"
  }
}
