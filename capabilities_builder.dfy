/**
 * Capability negotiation (src/mcp/utils/capabilities-builder.ts): a shallow
 * copy of the caller's capabilities in which every category that has at least
 * one registration is advertised, keeping a truthy value the caller supplied
 * and defaulting to `{ listChanged: true }` otherwise.
 */
module Capabilities {
  import opened Values
  import opened Descriptors
  import opened Registry

  /** `{ listChanged: true }` */
  const ListChanged: Json := JObj(map["listChanged" := JBool(true)])

  const ToolsKey := "tools"
  const ResourcesKey := "resources"
  const ResourceTemplatesKey := "resourceTemplates"
  const PromptsKey := "prompts"

  /** `options.capabilities || {}`: the caller's capabilities object, or an empty one. */
  function Base(capabilities: Option<map<string, Json>>): map<string, Json> {
    if capabilities.None? then map[] else capabilities.value
  }

  /** The caller supplied a truthy value under `key`. */
  predicate Supplied(caps: map<string, Json>, key: string) {
    key in caps && Truthy(caps[key])
  }

  /** The kind of registration a capability key stands for. */
  function CategoryOf(key: string): Option<Kind> {
    if key == ToolsKey then Some(ToolKind)
    else if key == ResourcesKey || key == ResourceTemplatesKey then Some(ResourceKind)
    else if key == PromptsKey then Some(PromptKind)
    else None
  }

  /** The keys advertised because their category has registrations. */
  function AdvertisedKeys(entries: seq<Entry>): set<string> {
    (if |OfKind(entries, ToolKind)| > 0 then {ToolsKey} else {})
    + (if |OfKind(entries, ResourceKind)| > 0 then {ResourcesKey, ResourceTemplatesKey} else {})
    + (if |OfKind(entries, PromptKind)| > 0 then {PromptsKey} else {})
  }

  /** A key of a category is advertised exactly when that category has registrations. */
  lemma AdvertisedKeyOf(entries: seq<Entry>, key: string, k: Kind)
    requires CategoryOf(key) == Some(k)
    ensures key in AdvertisedKeys(entries) <==> |OfKind(entries, k)| > 0
  {
    var tools, resources, prompts := |OfKind(entries, ToolKind)| > 0, |OfKind(entries, ResourceKind)| > 0, |OfKind(entries, PromptKind)| > 0;
    assert |ToolsKey| == 5 && |ResourcesKey| == 9 && |ResourceTemplatesKey| == 17 && |PromptsKey| == 7;
    if key == ToolsKey {
      assert k == ToolKind;
    } else if key == ResourcesKey || key == ResourceTemplatesKey {
      assert k == ResourceKind;
    } else {
      assert key == PromptsKey && k == PromptKind;
    }
  }

  /** `caps[key] = caps[key] || { listChanged: true }` */
  function Advertise(caps: map<string, Json>, key: string): map<string, Json> {
    if Supplied(caps, key) then caps else caps[key := ListChanged]
  }

  /** `buildMcpCapabilities(registry, options)` for the registrations `entries`. */
  function BuildMcpCapabilities(entries: seq<Entry>, capabilities: Option<map<string, Json>>): (r: map<string, Json>)
    ensures r.Keys == Base(capabilities).Keys + AdvertisedKeys(entries)
    ensures forall k :: k in r ==>
      r[k] == if k in AdvertisedKeys(entries) && !Supplied(Base(capabilities), k) then ListChanged else Base(capabilities)[k]
  {
    var base := Base(capabilities);
    var withTools := if |OfKind(entries, ToolKind)| > 0 then Advertise(base, ToolsKey) else base;
    var withResources :=
      if |OfKind(entries, ResourceKind)| > 0 then Advertise(Advertise(withTools, ResourcesKey), ResourceTemplatesKey)
      else withTools;
    if |OfKind(entries, PromptKind)| > 0 then Advertise(withResources, PromptsKey) else withResources
  }

  /**
   * A category is advertised with a truthy value exactly when it has
   * registrations or the caller supplied a truthy value; with registrations,
   * the value is the caller's if truthy and `{ listChanged: true }` otherwise.
   */
  lemma AdvertisedIff(entries: seq<Entry>, capabilities: Option<map<string, Json>>, key: string, k: Kind)
    requires CategoryOf(key) == Some(k)
    ensures var r := BuildMcpCapabilities(entries, capabilities);
      Supplied(r, key) <==> |OfKind(entries, k)| > 0 || Supplied(Base(capabilities), key)
    ensures var r := BuildMcpCapabilities(entries, capabilities);
      |OfKind(entries, k)| > 0 ==>
        key in r && r[key] == if Supplied(Base(capabilities), key) then Base(capabilities)[key] else ListChanged
  {
    var r := BuildMcpCapabilities(entries, capabilities);
    AdvertisedKeyOf(entries, key, k);
    assert Truthy(ListChanged);
  }

  /** A category without registrations is left exactly as the caller supplied it, possibly absent. */
  lemma EmptyCategoryUntouched(entries: seq<Entry>, capabilities: Option<map<string, Json>>, key: string, k: Kind)
    requires CategoryOf(key) == Some(k)
    requires |OfKind(entries, k)| == 0
    ensures var r, base := BuildMcpCapabilities(entries, capabilities), Base(capabilities);
      (key in r <==> key in base) && (key in r ==> r[key] == base[key])
  {
    AdvertisedKeyOf(entries, key, k);
  }

  /** Every other field of the caller's capabilities is copied unchanged, and no other field appears. */
  lemma OtherFieldsCopied(entries: seq<Entry>, capabilities: Option<map<string, Json>>, key: string)
    requires CategoryOf(key).None?
    ensures var r, base := BuildMcpCapabilities(entries, capabilities), Base(capabilities);
      (key in r <==> key in base) && (key in r ==> r[key] == base[key])
  {
    assert key !in AdvertisedKeys(entries);
  }

  /** `resources` and `resourceTemplates` are advertised together. */
  lemma ResourceTemplatesWithResources(entries: seq<Entry>, capabilities: Option<map<string, Json>>)
    requires |OfKind(entries, ResourceKind)| > 0
    ensures var r := BuildMcpCapabilities(entries, capabilities);
      Supplied(r, ResourcesKey) && Supplied(r, ResourceTemplatesKey)
  {
    AdvertisedIff(entries, capabilities, ResourcesKey, ResourceKind);
    AdvertisedIff(entries, capabilities, ResourceTemplatesKey, ResourceKind);
  }

  /** Building from an already built result changes nothing. */
  lemma BuildIdempotent(entries: seq<Entry>, capabilities: Option<map<string, Json>>)
    ensures BuildMcpCapabilities(entries, Some(BuildMcpCapabilities(entries, capabilities)))
      == BuildMcpCapabilities(entries, capabilities)
  {
    var r := BuildMcpCapabilities(entries, capabilities);
    var r2 := BuildMcpCapabilities(entries, Some(r));
    assert Truthy(ListChanged);
    forall k | k in AdvertisedKeys(entries) ensures Supplied(r, k) {
      assert k in r;
    }
    assert r2.Keys == r.Keys;
    forall k | k in r ensures r2[k] == r[k] { }
  }

  /** Zero tools, one resource, zero prompts and no caller capabilities give exactly `{resources, resourceTemplates}`. */
  lemma OneResourceExample(e: Entry)
    requires e.kind == ResourceKind
    ensures BuildMcpCapabilities([e], None) ==
      map[ResourcesKey := ListChanged, ResourceTemplatesKey := ListChanged]
  {
    var none: seq<Entry> := [];
    assert [e][1..] == none;
    assert OfKind([e], ResourceKind) == [e] + none;
    assert OfKind([e], ToolKind) == [] + none;
    assert OfKind([e], PromptKind) == [] + none;
    var r := BuildMcpCapabilities([e], None);
    assert AdvertisedKeys([e]) == {ResourcesKey, ResourceTemplatesKey};
    assert r.Keys == {ResourcesKey, ResourceTemplatesKey};
  }
}
