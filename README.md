# OVF descriptor builder of the nixops vSphere backend

The vSphere backend of nixops describes the virtual machine it deploys in
an OVF descriptor, an XML document that it builds with ElementTree. This
project models that builder in Dafny and proves properties of it:

- `VirtualSystemBuilder` fills the `VirtualHardwareSection` of one
  `VirtualSystem`. It numbers the setting-data elements it appends with a
  running instance id. It also keeps one name counter each for CD-ROMs,
  hard drives, floppy drives and network adapters.
- `OVFBuilder` holds the `Envelope`, which has a `References` list, a
  `DiskSection`, a `NetworkSection` and the virtual systems. Its `get_xml`
  sorts the children of every hardware `Item` by tag before it writes the
  document.
- `generate_simple_ovf` puts these together for one machine:
  - one file reference, one disk and one network per given name;
  - a system, CPU, memory, SCSI controller, video card, VMCI device and
    hard disk;
  - one VmxNet3 adapter per network.

The model is laid out by module:

- `Text`: decimal rendering of numbers (`str`, `%d`), `'true'`/`'false'`,
  and the code-point order on strings that the tag sort uses.
- `OvfNames`: the six namespaces and the `{uri}local` names that
  `_sub_element_ns` and `_set_attr_ns` build.
- `ElementTree`: an element as a value (tag, attributes, text, children),
  the `findall` and `find` lookups, and the text of the first child with a
  tag (none when that child has no text).
- `OvfElements`: the `vmw:Config` elements that `_add_vmw_config` appends,
  and the config lookup by key.
- `VirtualHardware`: one function per `add_hardware_*` method, giving the
  element it appends. Lemmas state each element's resource type, name,
  fields and configs.
- `VirtualSystem`: the `VirtualSystemBuilder` class, with its counters and
  its hardware list as fields, the sort `get_xml` applies to one system,
  and the invariant that the setting data are numbered 0, 1, 2, ...
- `TagSort`: the stable sort of an item's children by tag, as insertion
  sort. It is proved sorted, a permutation, stable, the only stable sort of
  its input, and idempotent.
- `Envelope`: the `OvfBuilder` class and the envelope `get_xml` returns.
- `SimpleOvf`: `generate_simple_ovf`, the envelope it produces, and how
  that envelope's parts refer to each other.

Source paths below are relative to the repository root.

## Model

| member | source | states |
|---|---|---|
| Text.IntToString | nixops/backends/vsphere.py:176-177 | the text `str` writes for an integer: its decimal digits, after a `-` when it is negative; `IntToStringInjective` shows the text determines the integer |
| Text.BoolText | nixops/backends/vsphere.py:149-152 | the literal written for a flag: "true" for `True` and "false" for `False` |
| Text.NatToStringDigits | nixops/backends/vsphere.py:83 | the text `str` gives for an instance id consists of decimal digits only |
| Text.NatToStringInjective | nixops/backends/vsphere.py:82-83 | two instance ids with the same `InstanceID` text are the same id |
| Text.IntToStringInjective | nixops/backends/vsphere.py:176-177 | a `Parent` or `AddressOnParent` text determines the integer it was written from, negatives included |
| Text.LexLeReflexive | nixops/backends/vsphere.py:253 | the string order the tag sort compares by is reflexive |
| Text.LexLeTotal | nixops/backends/vsphere.py:253 | any two tags are comparable |
| Text.LexLeTransitive | nixops/backends/vsphere.py:253 | the order is transitive |
| Text.LexLeAntisymmetric | nixops/backends/vsphere.py:253 | tags that are ordered both ways are equal |
| Text.LexLeCommonPrefix | nixops/backends/vsphere.py:253 | a shared prefix (the `{uri}` part of a tag) does not change how two strings compare |
| OvfNames.TagText | nixops/backends/vsphere.py:20-25 | the `{uri}local` string ElementTree stores for a name in one of the six namespaces, and the bare local part for an unqualified tag; the lemmas below relate its order and equality to the local parts |
| OvfNames.QualifiedNameOrder | nixops/backends/vsphere.py:20-21 | two names in one namespace sort as their local parts do, and they are equal exactly when their local parts are |
| OvfNames.PrefixCancels | nixops/backends/vsphere.py:20-25 | `{uri}a` equals `{uri}b` exactly when `a` equals `b` |
| OvfElements.NsText | nixops/backends/vsphere.py:20-22 | an element in a namespace whose only content is its text, as `_sub_element_ns(...).text = ...` makes it |
| OvfElements.VmwConfigKey | nixops/backends/vsphere.py:28-32 | a config answers to exactly its own key, and its `vmw:value` is the value passed |
| OvfElements.ConfigsLookup | nixops/backends/vsphere.py:28-32 | looking up a key among the configs appended for a list of pairs gives the first pair's value for that key |
| OvfElements.ConfigInSnoc | nixops/backends/vsphere.py:205-206 | appending a config leaves an earlier config for the same key in charge, and otherwise makes the new value the one found |
| OvfElements.Configs | nixops/backends/vsphere.py:28-32 | one config element per key/value pair, in the order the pairs are given; `ConfigsLookup` shows a lookup of a key finds the first pair for it |
| TagSort.Insert | nixops/backends/vsphere.py:253 | puts one child into a tag-ordered list after every child whose tag is not greater, keeping the length plus one |
| TagSort.SortByTag | nixops/backends/vsphere.py:253 | the stable sort of an item's children by tag; the lemmas below prove it sorted, a permutation, stable and equal to any stable sort |
| TagSort.SortByTagPermutes | nixops/backends/vsphere.py:253 | the sorted children are a permutation of the children |
| TagSort.SortByTagSorted | nixops/backends/vsphere.py:253 | the sorted children are in tag order |
| TagSort.SortByTagStable | nixops/backends/vsphere.py:253 | children with equal tags keep their relative order, as Python's stable `sorted` keeps them |
| TagSort.StableSortUnique | nixops/backends/vsphere.py:253 | two tag-ordered lists that agree on the order within every tag are equal |
| TagSort.SortByTagIsTheStableSort | nixops/backends/vsphere.py:253 | any sorted list that keeps the per-tag order of the input is the model's sort of it, so the model gives what `sorted` gives |
| TagSort.SortByTagIdempotent | nixops/backends/vsphere.py:253 | sorting children already in tag order changes nothing |
| TagSort.SortKeepsLookups | nixops/backends/vsphere.py:253 | `findall` and `find` by tag give the same results after the sort as before |
| TagSort.SortChildren | nixops/backends/vsphere.py:253 | the loop builds the sorted children; they are in tag order, a permutation of the input and stable per tag |
| VirtualSystem.NumberedSnoc | nixops/backends/vsphere.py:79-84 | appending setting data that carries the next id keeps the ids 0..n numbered; appending a config keeps the count |
| VirtualSystem.InstanceIdsUnique | nixops/backends/vsphere.py:53-55 | in a numbered hardware section, no two setting-data elements share an `InstanceID` |
| VirtualSystem.SortItem | nixops/backends/vsphere.py:252-253 | the sort `get_xml` applies to one element of a hardware section: the children of an `Item` are sorted by tag, anything else is kept |
| VirtualSystem.SortItems | nixops/backends/vsphere.py:251-253 | the sort applied to every element of a hardware section, element by element, keeping their number |
| VirtualSystem.SortItemContents | nixops/backends/vsphere.py:252-253 | the sort keeps tag, attributes and text; the children of an `Item` are permuted into tag order; a `System` or other element is left as it is |
| VirtualSystem.SortItemIdempotent | nixops/backends/vsphere.py:252-253 | sorting an element twice is sorting it once |
| VirtualSystem.SortItemKeepsLookups | nixops/backends/vsphere.py:252-253 | after the sort an element still has the same `findall`, `find` and text results, the same instance id and the same config values |
| VirtualSystem.SettingsSortItems | nixops/backends/vsphere.py:251-253 | the sort keeps which elements are setting data and their order |
| VirtualSystem.SortItemsKeepLookupsAt | nixops/backends/vsphere.py:252-253 | the element at any position of a sorted section has the same field texts and the same instance id as the one there before the sort |
| VirtualSystem.SortEveryItem | nixops/backends/vsphere.py:251-253 | the loop over a section's elements returns exactly the sort of every `Item` in it |
| VirtualSystem.SortItemsNumbered | nixops/backends/vsphere.py:251-253 | the sort keeps the numbering 0..n of the setting data |
| VirtualSystem.SortItemsSorted | nixops/backends/vsphere.py:251-253 | after the sort every `Item` has its children in tag order, and sorting again changes nothing |
| VirtualSystem.OsSection | nixops/backends/vsphere.py:73-77 | the operating-system section for an os id and type; `OsSectionContents` states its attributes and info line |
| VirtualSystem.OsSectionContents | nixops/backends/vsphere.py:73-77 | the operating-system section carries `ovf:id`, `vmw:osType` and its fixed info line |
| VirtualSystem.HardwareSectionConfigs | nixops/backends/vsphere.py:205-206 | a config of the hardware section is a config among the elements appended to it |
| VirtualSystem.VirtualSystemBuilder.constructor | nixops/backends/vsphere.py:40-51 | the instance id starts at 0, the four name counters at 1, and the hardware section is empty after its info line |
| VirtualSystem.VirtualSystemBuilder.NewInstanceId | nixops/backends/vsphere.py:53-55 | returns the current id and advances it by one; nothing else changes |
| VirtualSystem.VirtualSystemBuilder.NewCdRomNum | nixops/backends/vsphere.py:57-59 | returns the CD-ROM counter and advances only that counter |
| VirtualSystem.VirtualSystemBuilder.NewHardDriveNum | nixops/backends/vsphere.py:61-63 | returns the hard-drive counter and advances only that counter |
| VirtualSystem.VirtualSystemBuilder.NewFloppyDriveNum | nixops/backends/vsphere.py:65-67 | returns the floppy counter and advances only that counter |
| VirtualSystem.VirtualSystemBuilder.NewEthernetNum | nixops/backends/vsphere.py:69-71 | returns the ethernet counter and advances only that counter |
| VirtualSystem.VirtualSystemBuilder.AppendSetting | nixops/backends/vsphere.py:79-84 | appends one element whose `InstanceID` is the returned id, the previous value of the counter; the numbering invariant holds |
| VirtualSystem.VirtualSystemBuilder.AddOperatingSystemSection | nixops/backends/vsphere.py:73-77 | appends one operating-system section and changes neither the hardware nor any counter |
| VirtualSystem.VirtualSystemBuilder.AddHardwareSystem | nixops/backends/vsphere.py:91-95 | appends exactly the `vssd:System` element, whose `InstanceID` is the returned id; the category counters are unchanged |
| VirtualSystem.VirtualSystemBuilder.AddHardwareVcpus | nixops/backends/vsphere.py:97-105 | appends exactly the CPU item, whose `InstanceID` is the returned id |
| VirtualSystem.VirtualSystemBuilder.AddHardwareMemory | nixops/backends/vsphere.py:107-112 | appends exactly the memory item, whose `InstanceID` is the returned id |
| VirtualSystem.VirtualSystemBuilder.AddHardwareSataController | nixops/backends/vsphere.py:114-119 | appends exactly the SATA controller item, whose `InstanceID` is the returned id |
| VirtualSystem.VirtualSystemBuilder.AddHardwareScsiController | nixops/backends/vsphere.py:121-126 | appends exactly the SCSI controller item, whose `InstanceID` is the returned id |
| VirtualSystem.VirtualSystemBuilder.AddHardwareUsbController | nixops/backends/vsphere.py:128-136 | appends exactly the USB controller item, whose `InstanceID` is the returned id |
| VirtualSystem.VirtualSystemBuilder.AddHardwareIdeController | nixops/backends/vsphere.py:138-142 | appends exactly the IDE controller item, whose `InstanceID` is the returned id |
| VirtualSystem.VirtualSystemBuilder.AddHardwareVideoCard | nixops/backends/vsphere.py:144-154 | appends exactly the video card item, whose `InstanceID` is the returned id |
| VirtualSystem.VirtualSystemBuilder.AddHardwareVmciDevice | nixops/backends/vsphere.py:156-163 | appends exactly the VMCI item, whose `InstanceID` is the returned id |
| VirtualSystem.VirtualSystemBuilder.AddHardwareCdRom | nixops/backends/vsphere.py:165-172 | appends exactly the CD-ROM item named after the old CD-ROM counter, and advances that counter alone |
| VirtualSystem.VirtualSystemBuilder.AddHardwareHardDisk | nixops/backends/vsphere.py:174-182 | appends exactly the hard disk item named after the old hard-drive counter, and advances that counter alone |
| VirtualSystem.VirtualSystemBuilder.AddHardwareFloppyDrive | nixops/backends/vsphere.py:184-191 | appends exactly the floppy item named after the old floppy counter, and advances that counter alone |
| VirtualSystem.VirtualSystemBuilder.AddHardwareEthernet | nixops/backends/vsphere.py:193-203 | appends exactly the adapter item named after the old ethernet counter, and advances that counter alone |
| VirtualSystem.VirtualSystemBuilder.AddVmwConfig | nixops/backends/vsphere.py:205-206 | appends one config to the hardware section, takes no instance id, and a lookup of the key then finds the first config for it |
| VirtualSystem.VirtualSystemBuilder.SortHardwareItems | nixops/backends/vsphere.py:251-253 | the loop leaves the section as the sort of every `Item` in it; the numbering and counters are kept |
| VirtualHardware.SettingData | nixops/backends/vsphere.py:79-84 | a setting-data element in a namespace: its name, then its instance id in decimal, then the fields its caller appends; `SettingDataLookups` states its lookups |
| VirtualHardware.ResourceItem | nixops/backends/vsphere.py:86-89 | a `rasd:Item` with its name, instance id and resource type in decimal; `ResourceItemLookups` states its lookups |
| VirtualHardware.SettingDataLookups | nixops/backends/vsphere.py:79-84 | setting data is named by `ElementName` and numbered by `InstanceID` in its own namespace; any other lookup is a lookup in the fields its caller appended |
| VirtualHardware.ResourceItemLookups | nixops/backends/vsphere.py:86-89 | an `Item` carries its name, its instance id and its `ResourceType` |
| VirtualHardware.SystemItem | nixops/backends/vsphere.py:91-95 | the element the method appends, with its fields and configs in the source's order; `SystemItemContents` and the lemmas after it state its contents |
| VirtualHardware.SystemItemContents | nixops/backends/vsphere.py:91-95 | the `System` element is named "Virtual Hardware Family" and carries the system identifier and type passed |
| VirtualHardware.VcpusItem | nixops/backends/vsphere.py:97-105 | the element the method appends, with its fields and configs in the source's order; `VcpusItemHeader` and the lemmas after it state its contents |
| VirtualHardware.VcpusItemHeader | nixops/backends/vsphere.py:97-98 | the CPU item is "N virtual CPU(s)" with resource type 3 |
| VirtualHardware.VcpusItemFields | nixops/backends/vsphere.py:99-100 | its allocation units are `hertz * 10^6` and its description "Number of Virtual CPUs" |
| VirtualHardware.VcpusItemMoreFields | nixops/backends/vsphere.py:101-104 | its `VirtualQuantity` is N, and its `vmw:CoresPerSocket` has text N and is not required |
| VirtualHardware.MemoryItem | nixops/backends/vsphere.py:107-112 | the element the method appends, with its fields and configs in the source's order; `MemoryItemHeader` and the lemmas after it state its contents |
| VirtualHardware.MemoryItemHeader | nixops/backends/vsphere.py:107-108 | the memory item is "NMB of memory" with resource type 4 |
| VirtualHardware.MemoryItemFields | nixops/backends/vsphere.py:109-110 | its allocation units are `byte * 2^20` and its description "Memory Size" |
| VirtualHardware.MemoryItemMoreFields | nixops/backends/vsphere.py:111 | its `VirtualQuantity` is the size in MB |
| VirtualHardware.SataControllerItem | nixops/backends/vsphere.py:114-119 | the element the method appends, with its fields and configs in the source's order; `SataControllerItemHeader` and the lemmas after it state its contents |
| VirtualHardware.SataControllerItemHeader | nixops/backends/vsphere.py:114-115 | the SATA controller item is "SATA Controller A" with resource type 20 |
| VirtualHardware.SataControllerItemFields | nixops/backends/vsphere.py:116-117 | its `Address` is A and its description "SATA Controller" |
| VirtualHardware.SataControllerItemMoreFields | nixops/backends/vsphere.py:118 | its subtype is `vmware.sata.ahci` |
| VirtualHardware.ScsiControllerItem | nixops/backends/vsphere.py:121-126 | the element the method appends, with its fields and configs in the source's order; `ScsiControllerItemHeader` and the lemmas after it state its contents |
| VirtualHardware.ScsiControllerItemHeader | nixops/backends/vsphere.py:121-122 | the SCSI controller item is "SCSI Controller A" with resource type 6 |
| VirtualHardware.ScsiControllerItemFields | nixops/backends/vsphere.py:123-124 | its `Address` is A and its description "SCSI Controller" |
| VirtualHardware.ScsiControllerItemMoreFields | nixops/backends/vsphere.py:125 | its subtype is `VirtualSCSI` |
| VirtualHardware.UsbControllerItem | nixops/backends/vsphere.py:128-136 | the element the method appends, with its fields and configs in the source's order; `UsbControllerItemHeader` and the lemmas after it state its contents |
| VirtualHardware.UsbControllerItemHeader | nixops/backends/vsphere.py:129-130 | the USB controller item is not required, is named "USB Controller" and has resource type 23 |
| VirtualHardware.UsbControllerItemFields | nixops/backends/vsphere.py:131-132 | its `Address` is A and its description "USB Controller (EHCI)" |
| VirtualHardware.UsbControllerItemMoreFields | nixops/backends/vsphere.py:133 | its subtype is `vmware.usb.ehci` |
| VirtualHardware.UsbControllerItemConfigs | nixops/backends/vsphere.py:134-135 | its configs are `autoConnectDevices` false and `ehciEnabled` true |
| VirtualHardware.IdeControllerItem | nixops/backends/vsphere.py:138-142 | the element the method appends, with its fields and configs in the source's order; `IdeControllerItemHeader` and the lemmas after it state its contents |
| VirtualHardware.IdeControllerItemHeader | nixops/backends/vsphere.py:138-139 | the IDE controller item is "VirtualIDEController A" with resource type 5 |
| VirtualHardware.IdeControllerItemFields | nixops/backends/vsphere.py:140-141 | its `Address` is A and its description "IDE Controller" |
| VirtualHardware.VideoCardItem | nixops/backends/vsphere.py:144-154 | the element the method appends, with its fields and configs in the source's order; `VideoCardItemHeader` and the lemmas after it state its contents |
| VirtualHardware.VideoCardItemHeader | nixops/backends/vsphere.py:146-147 | the video card item is not required, is named "VirtualVideoCard" and has resource type 24 |
| VirtualHardware.VideoCardItemFields | nixops/backends/vsphere.py:148 | its automatic allocation is false |
| VirtualHardware.VideoCardItemConfigs | nixops/backends/vsphere.py:149-151 | the 3D and MPT flags are written "true"/"false" as given, and the renderer is kept as passed |
| VirtualHardware.VideoCardItemMoreConfigs | nixops/backends/vsphere.py:152-153 | the auto-detect flag is written "true"/"false" as given, and the video RAM size in decimal |
| VirtualHardware.VmciDeviceItem | nixops/backends/vsphere.py:156-163 | the element the method appends, with its fields and configs in the source's order; `VmciDeviceItemHeader` and the lemmas after it state its contents |
| VirtualHardware.VmciDeviceItemHeader | nixops/backends/vsphere.py:157-158 | the VMCI item is not required, is named "VirtualVMCIDevice" and has resource type 1 |
| VirtualHardware.VmciDeviceItemFields | nixops/backends/vsphere.py:159-160 | its automatic allocation is false and its subtype `vmware.vmci` |
| VirtualHardware.VmciDeviceItemConfigs | nixops/backends/vsphere.py:161-162 | its unrestricted-communication config is "true"/"false" as the flag given |
| VirtualHardware.CdRomItem | nixops/backends/vsphere.py:165-172 | the element the method appends, with its fields and configs in the source's order; `CdRomItemHeader` and the lemmas after it state its contents |
| VirtualHardware.CdRomItemHeader | nixops/backends/vsphere.py:166-167 | the CD-ROM item is not required, is named "CD-ROM k" after its counter and has resource type 15 |
| VirtualHardware.CdRomItemFields | nixops/backends/vsphere.py:168-169 | its `AddressOnParent` is the address passed, and its automatic allocation is false |
| VirtualHardware.CdRomItemMoreFields | nixops/backends/vsphere.py:170-171 | its subtype is `vmware.cdrom.atapi` and its `Parent` is the parent passed |
| VirtualHardware.HardDiskItem | nixops/backends/vsphere.py:174-182 | the element the method appends, with its fields and configs in the source's order; `HardDiskItemHeader` and the lemmas after it state its contents |
| VirtualHardware.HardDiskItemHeader | nixops/backends/vsphere.py:175 | the hard disk item is "Hard Disk k" after its counter, with resource type 17 |
| VirtualHardware.HardDiskItemFields | nixops/backends/vsphere.py:176-177 | its `AddressOnParent` and `Parent` are the arguments passed |
| VirtualHardware.HardDiskItemMoreFields | nixops/backends/vsphere.py:178 | its `HostResource` is the resource passed |
| VirtualHardware.HardDiskItemConfigs | nixops/backends/vsphere.py:179-181 | write-through is written "true"/"false"; a `backing.diskMode` config exists exactly when a disk mode is given, and then holds it |
| VirtualHardware.FloppyDriveItem | nixops/backends/vsphere.py:184-191 | the element the method appends, with its fields and configs in the source's order; `FloppyDriveItemHeader` and the lemmas after it state its contents |
| VirtualHardware.FloppyDriveItemHeader | nixops/backends/vsphere.py:185-186 | the floppy item is not required, is named "Floppy k" after its counter and has resource type 14 |
| VirtualHardware.FloppyDriveItemFields | nixops/backends/vsphere.py:187-188 | its `AddressOnParent` is the address passed, and its automatic allocation is false |
| VirtualHardware.FloppyDriveItemMoreFields | nixops/backends/vsphere.py:189-190 | its description is "Floppy Drive" and its subtype `vmware.floppy.remotedevice` |
| VirtualHardware.EthernetItem | nixops/backends/vsphere.py:193-203 | the element the method appends, with its fields and configs in the source's order; `EthernetItemHeader` and the lemmas after it state its contents |
| VirtualHardware.EthernetItemHeader | nixops/backends/vsphere.py:194-195 | the adapter item is not required, is named "Ethernet k" after its counter and has resource type 10 |
| VirtualHardware.EthernetItemFields | nixops/backends/vsphere.py:196-197 | its `AddressOnParent` is the address passed, and its automatic allocation is true |
| VirtualHardware.EthernetItemMoreFields | nixops/backends/vsphere.py:198-200 | its `Connection` is the network passed, and its description names the adapter type and the network |
| VirtualHardware.EthernetItemLastFields | nixops/backends/vsphere.py:201 | its subtype is the adapter type passed |
| VirtualHardware.EthernetItemConfigs | nixops/backends/vsphere.py:202 | its wake-on-LAN config is "true"/"false" as the flag given |
| Envelope.FileReference | nixops/backends/vsphere.py:223-227 | the `File` element appended to `References`; `FileReferenceContents` states its attributes |
| Envelope.FileReferenceContents | nixops/backends/vsphere.py:223-227 | a file reference carries exactly the `ovf:href`, `ovf:id` and `ovf:size` passed |
| Envelope.Disk | nixops/backends/vsphere.py:229-235 | the `Disk` element appended to the `DiskSection`; `DiskContents` states its attributes |
| Envelope.DiskContents | nixops/backends/vsphere.py:229-235 | a disk carries the capacity, units, disk id, file reference and format passed |
| Envelope.Network | nixops/backends/vsphere.py:237-240 | the `Network` element appended to the `NetworkSection`; `NetworkContents` states its name and description |
| Envelope.NetworkContents | nixops/backends/vsphere.py:237-240 | a network is named as passed and described as "The name network" |
| Envelope.VirtualSystemRoot | nixops/backends/vsphere.py:242-246 | the `VirtualSystem` element as `add_virtual_system` creates it, with its `ovf:id`, info line and name; `VirtualSystemRootContents` states its parts |
| Envelope.VirtualSystemRootContents | nixops/backends/vsphere.py:242-246 | a virtual system carries its name as `ovf:id` and as `Name`, after the info line "A virtual machine" |
| Envelope.EnvelopeOf | nixops/backends/vsphere.py:210-243 | the `Envelope` with its `xmlns`, `References`, the `DiskSection` and the `NetworkSection` (the last two after their info lines) and the virtual systems; `GetXml` returns it |
| Envelope.OvfBuilder.constructor | nixops/backends/vsphere.py:210-221 | a new envelope has no file references, disks, networks or systems |
| Envelope.OvfBuilder.AddFileReference | nixops/backends/vsphere.py:223-227 | appends one file reference and changes no other section |
| Envelope.OvfBuilder.AddDisk | nixops/backends/vsphere.py:229-235 | appends one disk and changes no other section |
| Envelope.OvfBuilder.AddNetwork | nixops/backends/vsphere.py:237-240 | appends one network and changes no other section |
| Envelope.OvfBuilder.AddVirtualSystem | nixops/backends/vsphere.py:242-247 | appends a fresh system builder with counters at their start values and changes no other section |
| Envelope.OvfBuilder.GetXml | nixops/backends/vsphere.py:249-253 | every system's hardware becomes the sort of its items, its operating-system sections, instance id and four name counters are kept, and the result is the envelope in that sorted state |
| SimpleOvf.FixedHardware | nixops/backends/vsphere.py:276-282 | the seven elements the fixed calls append, ids 0 to 6; `FixedHardwareNumbered` and `DiskOnController` state their numbering and how they refer to each other |
| SimpleOvf.WithNics | nixops/backends/vsphere.py:284-287 | a section followed by one VmxNet3 adapter per network, at addresses 7, 8, ...; `WithNicsBefore` and `WithNicsAt` state where each one lands |
| SimpleOvf.SimpleHardware | nixops/backends/vsphere.py:276-287 | the machine's hardware section before the sort; `SimpleHardwareNumbered` states its numbering |
| SimpleOvf.SimpleEnvelope | nixops/backends/vsphere.py:264-289 | the document `generate_simple_ovf` returns; `GenerateSimpleOvf` proves the calls produce it, and the lemmas below state its parts |
| SimpleOvf.FixedHardwareNumbered | nixops/backends/vsphere.py:276-282 | the seven setting-data elements before the adapters are numbered 0 to 6 |
| SimpleOvf.NicHeader | nixops/backends/vsphere.py:284-286 | the adapter for the k-th network is setting data with instance id 7 + k |
| SimpleOvf.NumberedNicSnoc | nixops/backends/vsphere.py:285-287 | appending the k-th adapter after 7 + k numbered elements extends the numbering by one |
| SimpleOvf.WithNicsNumbered | nixops/backends/vsphere.py:284-287 | after one adapter per network, the section is numbered 0 to 6 + n |
| SimpleOvf.SimpleHardwareNumbered | nixops/backends/vsphere.py:276-287 | the machine's ids are 0, 1, ..., 6 + n, each used once |
| SimpleOvf.SimpleSortedNumbered | nixops/backends/vsphere.py:276-289 | the numbering survives the sort in `get_xml` |
| SimpleOvf.WithNicsBefore | nixops/backends/vsphere.py:284-287 | adding the adapters leaves the elements before them unchanged |
| SimpleOvf.WithNicsAt | nixops/backends/vsphere.py:284-287 | the adapter after the fixed hardware at offset k is the one for the k-th network |
| SimpleOvf.NetworkElementsAt | nixops/backends/vsphere.py:271-272 | the k-th network of the `NetworkSection` is the k-th name given |
| SimpleOvf.SimpleControllerAndDisk | nixops/backends/vsphere.py:279-282 | the same holds once the adapters follow |
| SimpleOvf.DiskOnController | nixops/backends/vsphere.py:279-282 | the disk's `Parent` is the SCSI controller's `InstanceID`, its address on it is 0 and its host resource is `ovf:/disk/vmdisk1` |
| SimpleOvf.SimpleDiskOnScsi | nixops/backends/vsphere.py:279-282 | in the machine's hardware, the type-17 disk hangs off the type-6 controller at address 0 |
| SimpleOvf.SimpleDiskEntry | nixops/backends/vsphere.py:267-269 | the declared disk is `vmdisk1`, and its file reference is the id of the one file listed |
| SimpleOvf.SimpleDiskBacked | nixops/backends/vsphere.py:267-282 | the hard disk's host resource names the declared disk, whose file is the one listed in `References` |
| SimpleOvf.SimpleNic | nixops/backends/vsphere.py:271-287 | the adapter for the k-th network is connected to it, sits at address 7 + k, is a `VmxNet3` adapter, and that network is the k-th of the `NetworkSection` |
| SimpleOvf.SortedDiskOnScsi | nixops/backends/vsphere.py:279-289 | in the sorted document too, the type-17 disk hangs off the type-6 controller at address 0 |
| SimpleOvf.SortedDiskBacked | nixops/backends/vsphere.py:267-289 | in the sorted document too, the hard disk's host resource names the declared disk, whose file is the one listed in `References` |
| SimpleOvf.SortedNic | nixops/backends/vsphere.py:284-289 | in the sorted document too, the adapter for the k-th network is connected to it, sits at address 7 + k and is a `VmxNet3` adapter |
| SimpleOvf.AdapterSurvivesSort | nixops/backends/vsphere.py:252-253 | the sort keeps an adapter's connection, address on its parent and subtype |
| SimpleOvf.AddFixedHardware | nixops/backends/vsphere.py:276-282 | the seven calls append the fixed hardware and leave the instance id at 7 |
| SimpleOvf.AddNics | nixops/backends/vsphere.py:284-287 | the loop appends one adapter per network, each at address 7 + k, in network order |
| SimpleOvf.AddSimpleHardware | nixops/backends/vsphere.py:276-287 | the machine's hardware section, before sorting, is the fixed hardware followed by the adapters |
| SimpleOvf.AddNetworks | nixops/backends/vsphere.py:271-272 | the loop appends one network per name, in order, and changes no other section |
| SimpleOvf.NewSimpleOvf | nixops/backends/vsphere.py:265-274 | the envelope holds the one file reference, the one disk, the networks and one fresh system |
| SimpleOvf.BuildSimpleOvf | nixops/backends/vsphere.py:265-288 | after all the calls, the system holds the operating-system section and the machine's hardware |
| SimpleOvf.GetSingleSystemXml | nixops/backends/vsphere.py:289 | `get_xml` on a one-system envelope sorts that system's items and returns the envelope with it |
| SimpleOvf.GenerateSimpleOvf | nixops/backends/vsphere.py:264-289 | the document returned is exactly the expected envelope: one file, one disk, the networks, and the sorted machine |

## Left out

- XML output (vsphere.py lines 255-261) is not modelled. The byte
  serialisation with an XML declaration and the minidom pretty-printing are
  left out. `GetXml` returns the sorted `Envelope` element, not its text.
- `ET.register_namespace` (lines 35-36) only chooses the prefixes that
  serialisation writes, so it is left out. Names keep their namespace as a
  datatype value, and `TagText` gives the `{uri}local` string that
  ElementTree sorts by.
- An element's text is kept as the string the source assigns; escaping is
  part of serialisation. The adapter description contains the characters
  `&quot;` as written in the source. Serialisation escapes the `&` again,
  so the description file shows `&quot;` and not a quotation mark.
- `VSphereDefinition`, `VSphereState` and the provisioning code
  (lines 292 onward) are not part of this model.
- Aliasing is not modelled. In the source, each `VirtualSystemBuilder`
  writes into a sub-element of the envelope's tree. Here the builder holds
  its hardware and operating-system sections as fields, and the `OvfBuilder`
  holds the builders. `Document()` assembles the element tree from them.
- Integers are unbounded, as they are in Python. `%d` and `str` of a
  negative number are written with a leading `-`. The numeric arguments
  are typed `int`.
- Float arguments are not modelled. The source accepts them, and there
  `%d` truncates a float while `str` keeps its fraction: `memory_mb=512.5`
  gives the name "512MB of memory" (line 108) but the `VirtualQuantity`
  "512.5" (line 111).
- The tag order is code-point order on strings. That equals Python 2's byte
  order for the ASCII tags the builder produces.
- `add_hardware_hard_disk`'s `disk_mode=None` default is an
  `Option<string>` argument, with `None` for the default.
- Text constants (descriptions, subtypes, the disk format URL) are kept as
  opaque literals. Nothing about them beyond equality is proved.
