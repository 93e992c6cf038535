/** One virtual system of the descriptor (nixops/backends/vsphere.py
    lines 39-206): the `VirtualSystemBuilder` that numbers and appends the
    hardware items, and the sort `get_xml` applies to each item's children. */
module VirtualSystem {
  import opened Text
  import opened OvfNames
  import opened ElementTree
  import opened OvfElements
  import opened VirtualHardware
  import opened TagSort

  /** The elements `_add_setting_data` appends: the `System` and the `Item`s. */
  predicate IsSettingData(e: Element)
  {
    e.tag == Plain("System") || e.tag == Plain("Item")
  }

  /** The setting-data elements of a hardware section, in order. */
  function Settings(hw: seq<Element>): (r: seq<Element>)
    ensures |r| <= |hw|
  {
    if hw == [] then []
    else Settings(hw[..|hw| - 1]) + (if IsSettingData(hw[|hw| - 1]) then [hw[|hw| - 1]] else [])
  }

  /** The `n` setting-data elements of `hw` carry the instance ids 0, 1, …,
      n - 1, in the order they were appended. */
  predicate Numbered(hw: seq<Element>, n: nat)
  {
    var s := Settings(hw);
    |s| == n && forall i :: 0 <= i < |s| ==> InstanceIdOf(s[i]) == Some(NatToString(i))
  }

  /** Appending a setting-data element that carries the next id, or any
      other element, keeps the numbering. */
  lemma NumberedSnoc(hw: seq<Element>, n: nat, e: Element)
    requires Numbered(hw, n)
    ensures IsSettingData(e) && InstanceIdOf(e) == Some(NatToString(n)) ==> Numbered(hw + [e], n + 1)
    ensures !IsSettingData(e) ==> Numbered(hw + [e], n)
  {
    assert (hw + [e])[..|hw|] == hw;
  }

  /** No two setting-data elements share an instance id. */
  lemma InstanceIdsUnique(hw: seq<Element>, n: nat)
    requires Numbered(hw, n)
    ensures forall i, j :: 0 <= i < j < |Settings(hw)| ==> InstanceIdOf(Settings(hw)[i]) != InstanceIdOf(Settings(hw)[j])
  {
    var s := Settings(hw);
    forall i, j | 0 <= i < j < |s|
      ensures InstanceIdOf(s[i]) != InstanceIdOf(s[j])
    {
      if InstanceIdOf(s[i]) == InstanceIdOf(s[j]) {
        NatToStringInjective(i, j);
      }
    }
  }

  /** `item[:] = sorted(item, key=tag)` on one element of the hardware
      section, which `get_xml` does to the `Item`s only. */
  function SortItem(e: Element): Element
  {
    if e.tag == Plain("Item") then e.(children := SortByTag(e.children)) else e
  }

  /** SortItem on every element of a hardware section, in place. */
  function SortItems(hw: seq<Element>): (r: seq<Element>)
    ensures |r| == |hw|
  {
    if hw == [] then [] else SortItems(hw[..|hw| - 1]) + [SortItem(hw[|hw| - 1])]
  }

  /** Element `i` of the sorted section is element `i` of the section, sorted. */
  lemma {:induction false} SortItemsAt(hw: seq<Element>, i: nat)
    requires i < |hw|
    ensures SortItems(hw)[i] == SortItem(hw[i])
  {
    if i < |hw| - 1 {
      SortItemsAt(hw[..|hw| - 1], i);
    }
  }

  /** Sorting an element keeps its tag, attributes and text and only
      reorders its children; an `Item` comes out with its children in
      order of tag, every other element unchanged. */
  lemma SortItemContents(e: Element)
    ensures SortItem(e).tag == e.tag && SortItem(e).attrib == e.attrib && SortItem(e).text == e.text
    ensures multiset(SortItem(e).children) == multiset(e.children)
    ensures e.tag == Plain("Item") ==> Sorted(SortItem(e).children)
    ensures e.tag != Plain("Item") ==> SortItem(e) == e
  {
    SortByTagPermutes(e.children);
    SortByTagSorted(e.children);
  }

  /** Sorting an element a second time changes nothing. */
  lemma SortItemIdempotent(e: Element)
    ensures SortItem(SortItem(e)) == SortItem(e)
  {
    if e.tag == Plain("Item") {
      SortByTagSorted(e.children);
      SortByTagIdempotent(SortByTag(e.children));
    }
  }

  /** Sorting an element leaves every lookup in it as it was: `find`,
      `findall`, the text of a child, its instance id and its configs. */
  lemma SortItemKeepsLookups(e: Element, t: Name, key: string)
    ensures FindAll(SortItem(e), t) == FindAll(e, t)
    ensures Find(SortItem(e), t) == Find(e, t)
    ensures ChildText(SortItem(e), t) == ChildText(e, t)
    ensures InstanceIdOf(SortItem(e)) == InstanceIdOf(e)
    ensures ConfigValue(SortItem(e), key) == ConfigValue(e, key)
  {
    if e.tag == Plain("Item") {
      SortKeepsLookups(e, t);
      SortKeepsLookups(e, Qualified(Rasd, "InstanceID"));
      SortKeepsLookups(e, Qualified(Vmw, "Config"));
      ConfigInConfigs(e.children, key);
      ConfigInConfigs(SortItem(e).children, key);
    }
  }

  /** The `i`-th element of the sorted section answers every child-text
      lookup, and carries the instance id, that the `i`-th element of the
      section did. */
  lemma SortItemsKeepLookupsAt(hw: seq<Element>, i: nat, t: Name)
    requires i < |hw|
    ensures ChildText(SortItems(hw)[i], t) == ChildText(hw[i], t)
    ensures InstanceIdOf(SortItems(hw)[i]) == InstanceIdOf(hw[i])
  {
    SortItemsAt(hw, i);
    SortItemKeepsLookups(hw[i], t, "");
  }

  /** The setting data of the sorted section is that of the section, sorted. */
  lemma {:induction false} SettingsSortItems(hw: seq<Element>)
    ensures Settings(SortItems(hw)) == SortItems(Settings(hw))
  {
    if hw != [] {
      var init, last := hw[..|hw| - 1], hw[|hw| - 1];
      SettingsSortItems(init);
      var sorted := SortItems(hw);
      assert sorted[..|sorted| - 1] == SortItems(init);
      SortItemContents(last);
      var part := if IsSettingData(last) then [last] else [];
      assert Settings(hw) == Settings(init) + part;
      if IsSettingData(last) {
        SortItemsSnoc(Settings(init), last);
      } else {
        assert Settings(hw) == Settings(init);
      }
    }
  }

  lemma SortItemsSnoc(hw: seq<Element>, e: Element)
    ensures SortItems(hw + [e]) == SortItems(hw) + [SortItem(e)]
  {
    assert (hw + [e])[..|hw|] == hw;
  }

  /** Sorting the items keeps the numbering of the section. */
  lemma SortItemsNumbered(hw: seq<Element>, n: nat)
    requires Numbered(hw, n)
    ensures Numbered(SortItems(hw), n)
  {
    SettingsSortItems(hw);
    var s := Settings(hw);
    forall i | 0 <= i < |s|
      ensures InstanceIdOf(SortItems(s)[i]) == Some(NatToString(i))
    {
      SortItemsAt(s, i);
      SortItemKeepsLookups(s[i], Qualified(Rasd, "InstanceID"), "");
    }
  }

  /** After the sort every `Item` of the section has its children in
      order of tag, and sorting again changes nothing. */
  lemma SortItemsSorted(hw: seq<Element>)
    ensures forall i :: 0 <= i < |hw| && hw[i].tag == Plain("Item") ==> Sorted(SortItems(hw)[i].children)
    ensures SortItems(SortItems(hw)) == SortItems(hw)
  {
    var sorted := SortItems(hw);
    forall i | 0 <= i < |hw| && hw[i].tag == Plain("Item")
      ensures Sorted(sorted[i].children)
    {
      SortItemsAt(hw, i);
      SortItemContents(hw[i]);
    }
    forall i | 0 <= i < |hw|
      ensures SortItems(sorted)[i] == sorted[i]
    {
      SortItemsAt(hw, i);
      SortItemsAt(sorted, i);
      SortItemIdempotent(hw[i]);
    }
  }

  /** The `OperatingSystemSection` `add_operating_system_section` appends
      to the virtual system. */
  function OsSection(osId: int, osType: string): Element
  {
    Element(Plain("OperatingSystemSection"),
      map[Qualified(Ovf, "id") := IntToString(osId), Qualified(Vmw, "osType") := osType], None,
      [Leaf(Plain("Info"), "The kind of installed guest operating system")])
  }

  lemma OsSectionContents(osId: int, osType: string)
    ensures var e := OsSection(osId, osType);
      e.attrib[Qualified(Ovf, "id")] == IntToString(osId) && e.attrib[Qualified(Vmw, "osType")] == osType &&
      ChildText(e, Plain("Info")) == Some("The kind of installed guest operating system")
  {
    FindAt(OsSection(osId, osType), 0);
  }

  /** The info line every hardware section starts with. */
  function HardwareInfo(): Element
  {
    Leaf(Plain("Info"), "Virtual hardware requirements")
  }

  /** The `VirtualHardwareSection` holding `hw` after its info line. */
  function HardwareSectionOf(hw: seq<Element>): Element
  {
    Element(Plain("VirtualHardwareSection"), map[], None, [HardwareInfo()] + hw)
  }

  /** The configs of a hardware section are those among its elements. */
  lemma HardwareSectionConfigs(hw: seq<Element>, key: string)
    ensures ConfigValue(HardwareSectionOf(hw), key) == ConfigIn(hw, key)
  {
    ConfigInAfter([HardwareInfo()], hw, key);
  }

  /** The loop of `get_xml` over the elements of one hardware section:
      every `Item` gets its children sorted by tag, every other element is
      kept as it is. */
  method SortEveryItem(items: seq<Element>) returns (sorted: seq<Element>)
    ensures sorted == SortItems(items)
  {
    sorted := [];
    var i := 0;
    while i < |items|
      invariant 0 <= i <= |items|
      invariant sorted == SortItems(items[..i])
    {
      var e := items[i];
      if e.tag == Plain("Item") {
        var children := SortChildren(e.children);
        e := e.(children := children);
      }
      assert items[..i + 1] == items[..i] + [items[i]];
      SortItemsSnoc(items[..i], items[i]);
      sorted := sorted + [e];
      i := i + 1;
    }
    assert items[..i] == items;
  }

  /** Builds the hardware and operating-system sections of one
      `VirtualSystem` element. `root` is that element as the builder found
      it; `hardware` lists what was appended to the hardware section after
      its info line, `osSections` what was appended to `root` after the
      hardware section. */
  class VirtualSystemBuilder {
    const root: Element
    var instanceId: nat
    var numCdRom: nat
    var numHardDrive: nat
    var numFloppyDrive: nat
    var numEthernet: nat
    var hardware: seq<Element>
    var osSections: seq<Element>

    /** The device counters start at 1 and only grow, and the setting data
        so far is numbered 0 to `instanceId - 1`. */
    predicate Valid()
      reads this
    {
      numCdRom >= 1 && numHardDrive >= 1 && numFloppyDrive >= 1 && numEthernet >= 1 &&
      Numbered(hardware, instanceId)
    }

    /** Neither the operating-system sections nor any counter changed
        since the previous state. */
    twostate predicate KeptSectionsAndCounters()
      reads this
    {
      osSections == old(osSections) && instanceId == old(instanceId) && numCdRom == old(numCdRom) &&
      numHardDrive == old(numHardDrive) && numFloppyDrive == old(numFloppyDrive) && numEthernet == old(numEthernet)
    }

    /** The hardware section is the sort of what it was in the previous
        state, and nothing else changed. */
    twostate predicate SortedSince()
      reads this
    {
      hardware == SortItems(old(hardware)) && KeptSectionsAndCounters()
    }

    /** Nothing changed since the previous state. */
    twostate predicate UntouchedSince()
      reads this
    {
      hardware == old(hardware) && KeptSectionsAndCounters()
    }

    /** The hardware section as it stands. */
    function HardwareSection(): Element
      reads this
    {
      HardwareSectionOf(hardware)
    }

    /** The virtual system element as it stands. */
    function Root(): Element
      reads this
    {
      root.(children := root.children + [HardwareSection()] + osSections)
    }

    constructor (root: Element)
      ensures this.root == root
      ensures instanceId == 0 && numCdRom == 1 && numHardDrive == 1 && numFloppyDrive == 1 && numEthernet == 1
      ensures hardware == [] && osSections == []
      ensures Valid()
    {
      this.root := root;
      instanceId := 0;
      numCdRom := 1;
      numHardDrive := 1;
      numFloppyDrive := 1;
      numEthernet := 1;
      hardware := [];
      osSections := [];
    }

    method NewInstanceId() returns (id: nat)
      modifies this
      ensures id == old(instanceId) && instanceId == id + 1
      ensures numCdRom == old(numCdRom) && numHardDrive == old(numHardDrive)
      ensures numFloppyDrive == old(numFloppyDrive) && numEthernet == old(numEthernet)
      ensures hardware == old(hardware) && osSections == old(osSections)
    {
      instanceId := instanceId + 1;
      id := instanceId - 1;
    }

    method NewCdRomNum() returns (num: nat)
      modifies this
      ensures num == old(numCdRom) && numCdRom == num + 1
      ensures instanceId == old(instanceId) && numHardDrive == old(numHardDrive)
      ensures numFloppyDrive == old(numFloppyDrive) && numEthernet == old(numEthernet)
      ensures hardware == old(hardware) && osSections == old(osSections)
    {
      numCdRom := numCdRom + 1;
      num := numCdRom - 1;
    }

    method NewHardDriveNum() returns (num: nat)
      modifies this
      ensures num == old(numHardDrive) && numHardDrive == num + 1
      ensures instanceId == old(instanceId) && numCdRom == old(numCdRom)
      ensures numFloppyDrive == old(numFloppyDrive) && numEthernet == old(numEthernet)
      ensures hardware == old(hardware) && osSections == old(osSections)
    {
      numHardDrive := numHardDrive + 1;
      num := numHardDrive - 1;
    }

    method NewFloppyDriveNum() returns (num: nat)
      modifies this
      ensures num == old(numFloppyDrive) && numFloppyDrive == num + 1
      ensures instanceId == old(instanceId) && numCdRom == old(numCdRom)
      ensures numHardDrive == old(numHardDrive) && numEthernet == old(numEthernet)
      ensures hardware == old(hardware) && osSections == old(osSections)
    {
      numFloppyDrive := numFloppyDrive + 1;
      num := numFloppyDrive - 1;
    }

    method NewEthernetNum() returns (num: nat)
      modifies this
      ensures num == old(numEthernet) && numEthernet == num + 1
      ensures instanceId == old(instanceId) && numCdRom == old(numCdRom)
      ensures numHardDrive == old(numHardDrive) && numFloppyDrive == old(numFloppyDrive)
      ensures hardware == old(hardware) && osSections == old(osSections)
    {
      numEthernet := numEthernet + 1;
      num := numEthernet - 1;
    }

    /** Appends `item`, which carries the next instance id, to the hardware
        section and takes that id. */
    method AppendSetting(item: Element) returns (id: nat)
      requires Valid()
      requires IsSettingData(item) && InstanceIdOf(item) == Some(NatToString(instanceId))
      modifies this
      ensures Valid()
      ensures id == old(instanceId) && instanceId == id + 1
      ensures |hardware| == |old(hardware)| + 1 && InstanceIdOf(hardware[|hardware| - 1]) == Some(NatToString(id))
      ensures hardware == old(hardware) + [item]
      ensures numCdRom == old(numCdRom) && numHardDrive == old(numHardDrive)
      ensures numFloppyDrive == old(numFloppyDrive) && numEthernet == old(numEthernet)
      ensures osSections == old(osSections)
    {
      NumberedSnoc(hardware, instanceId, item);
      hardware := hardware + [item];
      id := NewInstanceId();
    }

    method AddOperatingSystemSection(osId: int, osType: string)
      modifies this
      ensures osSections == old(osSections) + [OsSection(osId, osType)]
      ensures hardware == old(hardware) && instanceId == old(instanceId)
      ensures numCdRom == old(numCdRom) && numHardDrive == old(numHardDrive)
      ensures numFloppyDrive == old(numFloppyDrive) && numEthernet == old(numEthernet)
    {
      osSections := osSections + [OsSection(osId, osType)];
    }

    method AddHardwareSystem(systemName: string, systemType: string) returns (id: nat)
      requires Valid()
      modifies this
      ensures Valid()
      ensures id == old(instanceId) && instanceId == id + 1
      ensures |hardware| == |old(hardware)| + 1 && InstanceIdOf(hardware[|hardware| - 1]) == Some(NatToString(id))
      ensures hardware == old(hardware) + [SystemItem(id, systemName, systemType)]
      ensures numCdRom == old(numCdRom) && numHardDrive == old(numHardDrive)
      ensures numFloppyDrive == old(numFloppyDrive) && numEthernet == old(numEthernet)
      ensures osSections == old(osSections)
    {
      SystemItemContents(instanceId, systemName, systemType);
      id := AppendSetting(SystemItem(instanceId, systemName, systemType));
    }

    method AddHardwareVcpus(numVcpus: int) returns (id: nat)
      requires Valid()
      modifies this
      ensures Valid()
      ensures id == old(instanceId) && instanceId == id + 1
      ensures |hardware| == |old(hardware)| + 1 && InstanceIdOf(hardware[|hardware| - 1]) == Some(NatToString(id))
      ensures hardware == old(hardware) + [VcpusItem(id, numVcpus)]
      ensures numCdRom == old(numCdRom) && numHardDrive == old(numHardDrive)
      ensures numFloppyDrive == old(numFloppyDrive) && numEthernet == old(numEthernet)
      ensures osSections == old(osSections)
    {
      VcpusItemHeader(instanceId, numVcpus);
      id := AppendSetting(VcpusItem(instanceId, numVcpus));
    }

    method AddHardwareMemory(memoryMb: int) returns (id: nat)
      requires Valid()
      modifies this
      ensures Valid()
      ensures id == old(instanceId) && instanceId == id + 1
      ensures |hardware| == |old(hardware)| + 1 && InstanceIdOf(hardware[|hardware| - 1]) == Some(NatToString(id))
      ensures hardware == old(hardware) + [MemoryItem(id, memoryMb)]
      ensures numCdRom == old(numCdRom) && numHardDrive == old(numHardDrive)
      ensures numFloppyDrive == old(numFloppyDrive) && numEthernet == old(numEthernet)
      ensures osSections == old(osSections)
    {
      MemoryItemHeader(instanceId, memoryMb);
      id := AppendSetting(MemoryItem(instanceId, memoryMb));
    }

    method AddHardwareSataController(address: int) returns (id: nat)
      requires Valid()
      modifies this
      ensures Valid()
      ensures id == old(instanceId) && instanceId == id + 1
      ensures |hardware| == |old(hardware)| + 1 && InstanceIdOf(hardware[|hardware| - 1]) == Some(NatToString(id))
      ensures hardware == old(hardware) + [SataControllerItem(id, address)]
      ensures numCdRom == old(numCdRom) && numHardDrive == old(numHardDrive)
      ensures numFloppyDrive == old(numFloppyDrive) && numEthernet == old(numEthernet)
      ensures osSections == old(osSections)
    {
      SataControllerItemHeader(instanceId, address);
      id := AppendSetting(SataControllerItem(instanceId, address));
    }

    method AddHardwareScsiController(address: int) returns (id: nat)
      requires Valid()
      modifies this
      ensures Valid()
      ensures id == old(instanceId) && instanceId == id + 1
      ensures |hardware| == |old(hardware)| + 1 && InstanceIdOf(hardware[|hardware| - 1]) == Some(NatToString(id))
      ensures hardware == old(hardware) + [ScsiControllerItem(id, address)]
      ensures numCdRom == old(numCdRom) && numHardDrive == old(numHardDrive)
      ensures numFloppyDrive == old(numFloppyDrive) && numEthernet == old(numEthernet)
      ensures osSections == old(osSections)
    {
      ScsiControllerItemHeader(instanceId, address);
      id := AppendSetting(ScsiControllerItem(instanceId, address));
    }

    method AddHardwareUsbController(address: int) returns (id: nat)
      requires Valid()
      modifies this
      ensures Valid()
      ensures id == old(instanceId) && instanceId == id + 1
      ensures |hardware| == |old(hardware)| + 1 && InstanceIdOf(hardware[|hardware| - 1]) == Some(NatToString(id))
      ensures hardware == old(hardware) + [UsbControllerItem(id, address)]
      ensures numCdRom == old(numCdRom) && numHardDrive == old(numHardDrive)
      ensures numFloppyDrive == old(numFloppyDrive) && numEthernet == old(numEthernet)
      ensures osSections == old(osSections)
    {
      UsbControllerItemHeader(instanceId, address);
      id := AppendSetting(UsbControllerItem(instanceId, address));
    }

    method AddHardwareIdeController(address: int) returns (id: nat)
      requires Valid()
      modifies this
      ensures Valid()
      ensures id == old(instanceId) && instanceId == id + 1
      ensures |hardware| == |old(hardware)| + 1 && InstanceIdOf(hardware[|hardware| - 1]) == Some(NatToString(id))
      ensures hardware == old(hardware) + [IdeControllerItem(id, address)]
      ensures numCdRom == old(numCdRom) && numHardDrive == old(numHardDrive)
      ensures numFloppyDrive == old(numFloppyDrive) && numEthernet == old(numEthernet)
      ensures osSections == old(osSections)
    {
      IdeControllerItemHeader(instanceId, address);
      id := AppendSetting(IdeControllerItem(instanceId, address));
    }

    method AddHardwareVideoCard(enable3dSupport: bool, enableMptSupport: bool, use3dRenderer: string,
                                useAutoDetect: bool, videoRamSizeInKb: int) returns (id: nat)
      requires Valid()
      modifies this
      ensures Valid()
      ensures id == old(instanceId) && instanceId == id + 1
      ensures |hardware| == |old(hardware)| + 1 && InstanceIdOf(hardware[|hardware| - 1]) == Some(NatToString(id))
      ensures hardware == old(hardware) + [VideoCardItem(id, enable3dSupport, enableMptSupport, use3dRenderer,
                                                         useAutoDetect, videoRamSizeInKb)]
      ensures numCdRom == old(numCdRom) && numHardDrive == old(numHardDrive)
      ensures numFloppyDrive == old(numFloppyDrive) && numEthernet == old(numEthernet)
      ensures osSections == old(osSections)
    {
      VideoCardItemHeader(instanceId, enable3dSupport, enableMptSupport, use3dRenderer, useAutoDetect,
                          videoRamSizeInKb);
      id := AppendSetting(VideoCardItem(instanceId, enable3dSupport, enableMptSupport, use3dRenderer,
                                        useAutoDetect, videoRamSizeInKb));
    }

    method AddHardwareVmciDevice(allowUnrestrictedCommunication: bool) returns (id: nat)
      requires Valid()
      modifies this
      ensures Valid()
      ensures id == old(instanceId) && instanceId == id + 1
      ensures |hardware| == |old(hardware)| + 1 && InstanceIdOf(hardware[|hardware| - 1]) == Some(NatToString(id))
      ensures hardware == old(hardware) + [VmciDeviceItem(id, allowUnrestrictedCommunication)]
      ensures numCdRom == old(numCdRom) && numHardDrive == old(numHardDrive)
      ensures numFloppyDrive == old(numFloppyDrive) && numEthernet == old(numEthernet)
      ensures osSections == old(osSections)
    {
      VmciDeviceItemHeader(instanceId, allowUnrestrictedCommunication);
      id := AppendSetting(VmciDeviceItem(instanceId, allowUnrestrictedCommunication));
    }

    /** The CD-ROM number is taken before the instance id, as the name is
        the argument of `_add_virtual_system_setting_data`. */
    method AddHardwareCdRom(parent: int, addressOnParent: int) returns (id: nat)
      requires Valid()
      modifies this
      ensures Valid()
      ensures id == old(instanceId) && instanceId == id + 1
      ensures |hardware| == |old(hardware)| + 1 && InstanceIdOf(hardware[|hardware| - 1]) == Some(NatToString(id))
      ensures hardware == old(hardware) + [CdRomItem(id, old(numCdRom), parent, addressOnParent)]
      ensures numCdRom == old(numCdRom) + 1 && numHardDrive == old(numHardDrive)
      ensures numFloppyDrive == old(numFloppyDrive) && numEthernet == old(numEthernet)
      ensures osSections == old(osSections)
    {
      var num := NewCdRomNum();
      CdRomItemHeader(instanceId, num, parent, addressOnParent);
      id := AppendSetting(CdRomItem(instanceId, num, parent, addressOnParent));
    }

    method AddHardwareHardDisk(parent: int, addressOnParent: int, hostResource: string, writeThrough: bool,
                               diskMode: Option<string>) returns (id: nat)
      requires Valid()
      modifies this
      ensures Valid()
      ensures id == old(instanceId) && instanceId == id + 1
      ensures |hardware| == |old(hardware)| + 1 && InstanceIdOf(hardware[|hardware| - 1]) == Some(NatToString(id))
      ensures hardware == old(hardware) + [HardDiskItem(id, old(numHardDrive), parent, addressOnParent,
                                                        hostResource, writeThrough, diskMode)]
      ensures numCdRom == old(numCdRom) && numHardDrive == old(numHardDrive) + 1
      ensures numFloppyDrive == old(numFloppyDrive) && numEthernet == old(numEthernet)
      ensures osSections == old(osSections)
    {
      var num := NewHardDriveNum();
      HardDiskItemHeader(instanceId, num, parent, addressOnParent, hostResource, writeThrough, diskMode);
      id := AppendSetting(HardDiskItem(instanceId, num, parent, addressOnParent, hostResource, writeThrough,
                                       diskMode));
    }

    method AddHardwareFloppyDrive(addressOnParent: int) returns (id: nat)
      requires Valid()
      modifies this
      ensures Valid()
      ensures id == old(instanceId) && instanceId == id + 1
      ensures |hardware| == |old(hardware)| + 1 && InstanceIdOf(hardware[|hardware| - 1]) == Some(NatToString(id))
      ensures hardware == old(hardware) + [FloppyDriveItem(id, old(numFloppyDrive), addressOnParent)]
      ensures numCdRom == old(numCdRom) && numHardDrive == old(numHardDrive)
      ensures numFloppyDrive == old(numFloppyDrive) + 1 && numEthernet == old(numEthernet)
      ensures osSections == old(osSections)
    {
      var num := NewFloppyDriveNum();
      FloppyDriveItemHeader(instanceId, num, addressOnParent);
      id := AppendSetting(FloppyDriveItem(instanceId, num, addressOnParent));
    }

    method AddHardwareEthernet(addressOnParent: int, connection: string, adapterType: string,
                               wakeOnLanEnabled: bool) returns (id: nat)
      requires Valid()
      modifies this
      ensures Valid()
      ensures id == old(instanceId) && instanceId == id + 1
      ensures |hardware| == |old(hardware)| + 1 && InstanceIdOf(hardware[|hardware| - 1]) == Some(NatToString(id))
      ensures hardware == old(hardware) + [EthernetItem(id, old(numEthernet), addressOnParent, connection,
                                                        adapterType, wakeOnLanEnabled)]
      ensures numCdRom == old(numCdRom) && numHardDrive == old(numHardDrive)
      ensures numFloppyDrive == old(numFloppyDrive) && numEthernet == old(numEthernet) + 1
      ensures osSections == old(osSections)
    {
      var num := NewEthernetNum();
      EthernetItemHeader(instanceId, num, addressOnParent, connection, adapterType, wakeOnLanEnabled);
      id := AppendSetting(EthernetItem(instanceId, num, addressOnParent, connection, adapterType,
                                       wakeOnLanEnabled));
    }

    /** `add_vmw_config`: a config on the hardware section itself. Looking
        its key up afterwards gives its value unless an earlier config for
        the same key was there first. */
    method AddVmwConfig(key: string, value: string)
      requires Valid()
      modifies this
      ensures Valid()
      ensures hardware == old(hardware) + [VmwConfig(key, value)]
      ensures instanceId == old(instanceId) && numCdRom == old(numCdRom) && numHardDrive == old(numHardDrive)
      ensures numFloppyDrive == old(numFloppyDrive) && numEthernet == old(numEthernet)
      ensures osSections == old(osSections)
      ensures ConfigValue(HardwareSection(), key) ==
              if ConfigValue(old(HardwareSection()), key).Some? then ConfigValue(old(HardwareSection()), key)
              else Some(value)
    {
      var c := VmwConfig(key, value);
      NumberedSnoc(hardware, instanceId, c);
      HardwareSectionConfigs(hardware, key);
      ConfigInSnoc(hardware, key, value, key);
      hardware := hardware + [c];
      HardwareSectionConfigs(hardware, key);
    }

    /** The sort `get_xml` applies to this system: every `Item` of the
        hardware section gets its children sorted by tag, in place. */
    method SortHardwareItems()
      requires Valid()
      modifies this
      ensures Valid()
      ensures hardware == SortItems(old(hardware))
      ensures instanceId == old(instanceId) && numCdRom == old(numCdRom) && numHardDrive == old(numHardDrive)
      ensures numFloppyDrive == old(numFloppyDrive) && numEthernet == old(numEthernet)
      ensures osSections == old(osSections)
    {
      var sorted := SortEveryItem(hardware);
      SortItemsNumbered(hardware, instanceId);
      hardware := sorted;
    }
  }
}
