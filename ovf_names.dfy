/** Names in the OVF descriptor (nixops/backends/vsphere.py lines 10-25):
    a tag or attribute name is either plain or a local name in one of the
    six namespaces the descriptor uses. ElementTree keeps a namespaced name
    as the string `{uri}local`; TagText gives that string, and it is what
    `get_xml` sorts by. */
module OvfNames {
  import opened Text

  /** The prefixes of the namespace table, one per schema the descriptor uses. */
  datatype Namespace = Cim | Ovf | Rasd | Vmw | Vssd | Xsi

  function Uri(ns: Namespace): string
  {
    match ns
    case Cim => "http://schemas.dmtf.org/wbem/wscim/1/common"
    case Ovf => "http://schemas.dmtf.org/ovf/envelope/1"
    case Rasd => "http://schemas.dmtf.org/wbem/wscim/1/cim-schema/2/CIM_ResourceAllocationSettingData"
    case Vmw => "http://www.vmware.com/schema/ovf"
    case Vssd => "http://schemas.dmtf.org/wbem/wscim/1/cim-schema/2/CIM_VirtualSystemSettingData"
    case Xsi => "http://www.w3.org/2001/XMLSchema-instance"
  }

  /** A plain name such as `Item`, or `local` in namespace `ns`. */
  datatype Name = Plain(local: string) | Qualified(ns: Namespace, local: string)

  /** The string ElementTree holds for a name: `'{%s}%s' % (uri, local)`
      for a namespaced one, as `_sub_element_ns` and `_set_attr_ns` build it. */
  function TagText(n: Name): string
  {
    match n
    case Plain(local) => local
    case Qualified(ns, local) => "{" + Uri(ns) + "}" + local
  }

  /** Within one namespace, names compare as their local names do, and
      distinct local names give distinct strings: the order `get_xml` puts
      the `rasd:` children of an item in is the alphabetical order of their
      local names. */
  lemma QualifiedNameOrder(ns: Namespace, a: string, b: string)
    ensures LexLe(TagText(Qualified(ns, a)), TagText(Qualified(ns, b))) == LexLe(a, b)
    ensures TagText(Qualified(ns, a)) == TagText(Qualified(ns, b)) <==> a == b
  {
    var prefix := "{" + Uri(ns) + "}";
    LexLeCommonPrefix(prefix, a, b);
    PrefixCancels(prefix, a, b);
  }

  lemma PrefixCancels(prefix: string, a: string, b: string)
    ensures prefix + a == prefix + b <==> a == b
  {
    if prefix + a == prefix + b {
      assert a == (prefix + a)[|prefix|..];
      assert b == (prefix + b)[|prefix|..];
    }
  }
}
