/** The OVF envelope (nixops/backends/vsphere.py lines 209-261): the
    `OVFBuilder` that appends file references, disks, networks and virtual
    systems to the envelope, and the sort step of `get_xml`. */
module Envelope {
  import opened Text
  import opened OvfNames
  import opened ElementTree
  import opened VirtualSystem

  /** The `File` element `add_file_reference` appends to `References`. */
  function FileReference(href: string, referenceId: string, size: int): Element
  {
    Element(Plain("File"),
      map[Qualified(Ovf, "href") := href, Qualified(Ovf, "id") := referenceId, Qualified(Ovf, "size") := IntToString(size)],
      None, [])
  }

  /** The `Disk` element `add_disk` appends to the `DiskSection`. */
  function Disk(capacity: int, capacityAllocationUnits: string, diskId: string, fileRef: string,
                diskFormat: string): Element
  {
    Element(Plain("Disk"),
      map[Qualified(Ovf, "capacity") := IntToString(capacity),
          Qualified(Ovf, "capacityAllocationUnits") := capacityAllocationUnits,
          Qualified(Ovf, "diskId") := diskId, Qualified(Ovf, "fileRef") := fileRef,
          Qualified(Ovf, "format") := diskFormat],
      None, [])
  }

  /** The `Network` element `add_network` appends to the `NetworkSection`. */
  function Network(name: string): Element
  {
    Element(Plain("Network"), map[Qualified(Ovf, "name") := name], None,
      [Leaf(Plain("Description"), "The " + name + " network")])
  }

  /** The `VirtualSystem` element `add_virtual_system` appends, before its
      builder adds anything. */
  function VirtualSystemRoot(systemName: string): Element
  {
    Element(Plain("VirtualSystem"), map[Qualified(Ovf, "id") := systemName], None,
      [Leaf(Plain("Info"), "A virtual machine"), Leaf(Plain("Name"), systemName)])
  }

  /** The envelope holding the given file references, disks, networks and
      virtual systems, each list in the order it was appended. */
  function EnvelopeOf(references: seq<Element>, disks: seq<Element>, networks: seq<Element>,
                      systems: seq<Element>): Element
  {
    Element(Plain("Envelope"), map[Plain("xmlns") := Uri(Ovf)], None,
      [Element(Plain("References"), map[], None, references),
       Element(Plain("DiskSection"), map[], None, [Leaf(Plain("Info"), "Virtual disk information")] + disks),
       Element(Plain("NetworkSection"), map[], None, [Leaf(Plain("Info"), "The list of logical networks")] + networks)]
      + systems)
  }

  lemma FileReferenceContents(href: string, referenceId: string, size: int)
    ensures var e := FileReference(href, referenceId, size);
      e.attrib[Qualified(Ovf, "href")] == href && e.attrib[Qualified(Ovf, "id")] == referenceId &&
      e.attrib[Qualified(Ovf, "size")] == IntToString(size) && |e.attrib| == 3
  {
  }

  lemma DiskContents(capacity: int, capacityAllocationUnits: string, diskId: string, fileRef: string,
                     diskFormat: string)
    ensures var e := Disk(capacity, capacityAllocationUnits, diskId, fileRef, diskFormat);
      e.attrib[Qualified(Ovf, "capacity")] == IntToString(capacity) &&
      e.attrib[Qualified(Ovf, "capacityAllocationUnits")] == capacityAllocationUnits &&
      e.attrib[Qualified(Ovf, "diskId")] == diskId && e.attrib[Qualified(Ovf, "fileRef")] == fileRef &&
      e.attrib[Qualified(Ovf, "format")] == diskFormat
  {
  }

  /** A network is named `name` and described as "The `name` network". */
  lemma NetworkContents(name: string)
    ensures var e := Network(name);
      e.attrib[Qualified(Ovf, "name")] == name &&
      ChildText(e, Plain("Description")) == Some("The " + name + " network")
  {
    FindAt(Network(name), 0);
  }

  /** A virtual system carries its name as `ovf:id` and as `Name`. */
  lemma VirtualSystemRootContents(systemName: string)
    ensures var e := VirtualSystemRoot(systemName);
      e.attrib[Qualified(Ovf, "id")] == systemName &&
      ChildText(e, Plain("Info")) == Some("A virtual machine") && ChildText(e, Plain("Name")) == Some(systemName)
  {
    var e := VirtualSystemRoot(systemName);
    FindAt(e, 0);
    FindAt(e, 1);
  }

  /** The elements of the virtual systems built so far, in order. */
  function Roots(systems: seq<VirtualSystemBuilder>): (r: seq<Element>)
    reads systems
    ensures |r| == |systems|
  {
    if systems == [] then [] else Roots(systems[..|systems| - 1]) + [systems[|systems| - 1].Root()]
  }

  /** Builds an OVF envelope. The lists hold what was appended to
      `References`, to the `DiskSection` and the `NetworkSection` after
      their info lines, and the builders of the virtual systems appended to
      the envelope, in call order. */
  class OvfBuilder {
    var references: seq<Element>
    var disks: seq<Element>
    var networks: seq<Element>
    var systems: seq<VirtualSystemBuilder>

    /** Every virtual system is valid and has its own builder. */
    predicate Valid()
      reads this, systems
    {
      (forall i :: 0 <= i < |systems| ==> systems[i].Valid()) &&
      (forall i, j :: 0 <= i < j < |systems| ==> systems[i] != systems[j])
    }

    /** The envelope as it stands. */
    function Document(): Element
      reads this, systems
    {
      EnvelopeOf(references, disks, networks, Roots(systems))
    }

    constructor ()
      ensures references == [] && disks == [] && networks == [] && systems == []
      ensures Valid()
    {
      references := [];
      disks := [];
      networks := [];
      systems := [];
    }

    method AddFileReference(href: string, referenceId: string, size: int)
      modifies this
      ensures references == old(references) + [FileReference(href, referenceId, size)]
      ensures disks == old(disks) && networks == old(networks) && systems == old(systems)
    {
      references := references + [FileReference(href, referenceId, size)];
    }

    method AddDisk(capacity: int, capacityAllocationUnits: string, diskId: string, fileRef: string,
                   diskFormat: string)
      modifies this
      ensures disks == old(disks) + [Disk(capacity, capacityAllocationUnits, diskId, fileRef, diskFormat)]
      ensures references == old(references) && networks == old(networks) && systems == old(systems)
    {
      disks := disks + [Disk(capacity, capacityAllocationUnits, diskId, fileRef, diskFormat)];
    }

    method AddNetwork(name: string)
      modifies this
      ensures networks == old(networks) + [Network(name)]
      ensures references == old(references) && disks == old(disks) && systems == old(systems)
    {
      networks := networks + [Network(name)];
    }

    /** Appends a virtual system named `systemName` and returns the fresh
        builder for it. */
    method AddVirtualSystem(systemName: string) returns (system: VirtualSystemBuilder)
      requires Valid()
      modifies this
      ensures Valid()
      ensures fresh(system) && systems == old(systems) + [system]
      ensures system.root == VirtualSystemRoot(systemName)
      ensures system.instanceId == 0 && system.hardware == [] && system.osSections == []
      ensures system.numCdRom == 1 && system.numHardDrive == 1 && system.numFloppyDrive == 1 && system.numEthernet == 1
      ensures references == old(references) && disks == old(disks) && networks == old(networks)
    {
      system := new VirtualSystemBuilder(VirtualSystemRoot(systemName));
      systems := systems + [system];
    }

    /** The sort step of `get_xml`: in every virtual system, every `Item`
        of the hardware section gets its children sorted by tag. Returns the
        envelope; writing it out as text is not part of this model. */
    method GetXml() returns (doc: Element)
      requires Valid()
      modifies systems
      ensures Valid()
      ensures forall i :: 0 <= i < |systems| ==> systems[i].SortedSince()
      ensures doc == Document()
    {
      var i := 0;
      while i < |systems|
        invariant 0 <= i <= |systems|
        invariant Valid()
        invariant forall j :: 0 <= j < i ==> systems[j].SortedSince()
        invariant forall j :: i <= j < |systems| ==> systems[j].UntouchedSince()
      {
        systems[i].SortHardwareItems();
        i := i + 1;
      }
      doc := Document();
    }
  }
}
