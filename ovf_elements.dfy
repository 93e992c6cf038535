/** The builder's helpers over ElementTree (nixops/backends/vsphere.py
    lines 20-32): a namespaced child with text, and the vendor `vmw:Config`
    child that carries one key/value option. */
module OvfElements {
  import opened OvfNames
  import opened ElementTree

  /** `_sub_element_ns(parent, ns, local).text = text`: the appended child. */
  function NsText(ns: Namespace, local: string, text: string): Element
  {
    Leaf(Qualified(ns, local), text)
  }

  /** The attributes after `_set_attr_ns(elem, 'ovf', 'required', 'false')`
      on an element that had none. */
  function NotRequired(): map<Name, string>
  {
    map[Qualified(Ovf, "required") := "false"]
  }

  /** The child that `_add_vmw_config(parent, key, value)` appends: a
      `vmw:Config` element whose attributes `ovf:required`, `vmw:key` and
      `vmw:value` are set, in that order, on an empty dictionary. */
  function VmwConfig(key: string, value: string): (c: Element)
    ensures c.tag == Qualified(Vmw, "Config")
  {
    Element(Qualified(Vmw, "Config"), map[Qualified(Ovf, "required") := "false"][Qualified(Vmw, "key") := key][Qualified(Vmw, "value") := value], None, [])
  }

  /** A config is a config for its own key and for no other, and holds its value. */
  lemma VmwConfigKey(key: string, value: string)
    ensures forall other :: IsConfigFor(VmwConfig(key, value), other) <==> other == key
    ensures VmwConfig(key, value).attrib[Qualified(Vmw, "value")] == value
  {
  }

  /** `c` is a `vmw:Config` element with key `key` and a value. */
  predicate IsConfigFor(c: Element, key: string)
  {
    c.tag == Qualified(Vmw, "Config") && Qualified(Vmw, "key") in c.attrib && c.attrib[Qualified(Vmw, "key")] == key
    && Qualified(Vmw, "value") in c.attrib
  }

  /** The value of the first config for `key` among `s`. */
  function ConfigIn(s: seq<Element>, key: string): Option<string>
  {
    if s == [] then None
    else
      var found := ConfigIn(s[..|s| - 1], key);
      if found.Some? then found
      else if IsConfigFor(s[|s| - 1], key) then Some(s[|s| - 1].attrib[Qualified(Vmw, "value")])
      else None
  }

  /** The value an element's config children give `key`: that of the first
      `vmw:Config` child whose `vmw:key` is `key`. */
  function ConfigValue(e: Element, key: string): Option<string>
  {
    ConfigIn(e.children, key)
  }

  /** The first config for `key` is the one at `i` when none before it is for `key`. */
  lemma {:induction false} ConfigAt(s: seq<Element>, i: nat, key: string)
    requires i < |s| && IsConfigFor(s[i], key)
    requires forall j :: 0 <= j < i ==> !IsConfigFor(s[j], key)
    ensures ConfigIn(s, key) == Some(s[i].attrib[Qualified(Vmw, "value")])
  {
    if i < |s| - 1 {
      ConfigAt(s[..|s| - 1], i, key);
    } else {
      ConfigNone(s[..|s| - 1], key);
    }
  }

  /** With no config for `key` among `s`, `key` has no value. */
  lemma {:induction false} ConfigNone(s: seq<Element>, key: string)
    requires forall j :: 0 <= j < |s| ==> !IsConfigFor(s[j], key)
    ensures ConfigIn(s, key) == None
  {
    if s != [] {
      ConfigNone(s[..|s| - 1], key);
    }
  }

  /** Appending a config for `k` leaves the value of every key that already
      had one, and gives `k` the appended value if it had none. */
  lemma ConfigInSnoc(s: seq<Element>, k: string, v: string, key: string)
    ensures ConfigIn(s + [VmwConfig(k, v)], key) ==
            if ConfigIn(s, key).Some? then ConfigIn(s, key) else if key == k then Some(v) else None
  {
    assert (s + [VmwConfig(k, v)])[..|s|] == s;
    VmwConfigKey(k, v);
  }

  /** Elements that are not configs in front of `b` leave its lookups as they are. */
  lemma {:induction false} ConfigInAfter(a: seq<Element>, b: seq<Element>, key: string)
    requires forall j :: 0 <= j < |a| ==> a[j].tag != Qualified(Vmw, "Config")
    ensures ConfigIn(a + b, key) == ConfigIn(b, key)
    decreases |b|
  {
    if b == [] {
      assert a + b == a;
      ConfigNone(a, key);
    } else {
      assert (a + b)[..|a + b| - 1] == a + b[..|b| - 1];
      ConfigInAfter(a, b[..|b| - 1], key);
    }
  }

  /** Only the `vmw:Config` children take part in a config lookup. */
  lemma {:induction false} ConfigInConfigs(s: seq<Element>, key: string)
    ensures ConfigIn(s, key) == ConfigIn(WithTag(s, Qualified(Vmw, "Config")), key)
  {
    if s != [] {
      var init, last := s[..|s| - 1], s[|s| - 1];
      var configs := WithTag(init, Qualified(Vmw, "Config"));
      ConfigInConfigs(init, key);
      if last.tag == Qualified(Vmw, "Config") {
        assert WithTag(s, Qualified(Vmw, "Config")) == configs + [last];
        assert (configs + [last])[..|configs|] == configs;
      } else {
        assert WithTag(s, Qualified(Vmw, "Config")) == configs;
      }
    }
  }

  /** The children a run of `_add_vmw_config` calls appends, one per
      key/value pair, in call order. */
  function Configs(pairs: seq<(string, string)>): (r: seq<Element>)
    ensures |r| == |pairs|
  {
    if pairs == [] then []
    else Configs(pairs[..|pairs| - 1]) + [VmwConfig(pairs[|pairs| - 1].0, pairs[|pairs| - 1].1)]
  }

  /** The value of the first pair whose key is `key`. */
  function PairValue(pairs: seq<(string, string)>, key: string): Option<string>
  {
    if pairs == [] then None
    else
      var found := PairValue(pairs[..|pairs| - 1], key);
      if found.Some? then found
      else if pairs[|pairs| - 1].0 == key then Some(pairs[|pairs| - 1].1)
      else None
  }

  /** Every child of a run of configs is a `vmw:Config`, so looking up any
      other tag among them finds nothing. */
  lemma {:induction false} ConfigsTags(pairs: seq<(string, string)>, t: Name)
    requires t != Qualified(Vmw, "Config")
    ensures WithTag(Configs(pairs), t) == []
  {
    if pairs != [] {
      var init := pairs[..|pairs| - 1];
      ConfigsTags(init, t);
      WithTagSnoc(Configs(init), VmwConfig(pairs[|pairs| - 1].0, pairs[|pairs| - 1].1), t);
    }
  }

  /** Looking a key up among the configs a run of `_add_vmw_config` calls
      appended gives the value of the first call for that key. */
  lemma {:induction false} ConfigsLookup(pairs: seq<(string, string)>, key: string)
    ensures ConfigIn(Configs(pairs), key) == PairValue(pairs, key)
  {
    if pairs != [] {
      var init, last := pairs[..|pairs| - 1], pairs[|pairs| - 1];
      var s := Configs(pairs);
      ConfigsLookup(init, key);
      assert s[..|s| - 1] == Configs(init);
      VmwConfigKey(last.0, last.1);
    }
  }

  /** The first pair for `key` is the one at `i` when none before it has that key. */
  lemma {:induction false} PairValueAt(pairs: seq<(string, string)>, i: nat, key: string)
    requires i < |pairs| && pairs[i].0 == key
    requires forall j :: 0 <= j < i ==> pairs[j].0 != key
    ensures PairValue(pairs, key) == Some(pairs[i].1)
  {
    if i < |pairs| - 1 {
      PairValueAt(pairs[..|pairs| - 1], i, key);
    } else {
      PairValueNone(pairs[..|pairs| - 1], key);
    }
  }

  /** No pair for `key`: no value. */
  lemma {:induction false} PairValueNone(pairs: seq<(string, string)>, key: string)
    requires forall j :: 0 <= j < |pairs| ==> pairs[j].0 != key
    ensures PairValue(pairs, key) == None
  {
    if pairs != [] {
      PairValueNone(pairs[..|pairs| - 1], key);
    }
  }
}
