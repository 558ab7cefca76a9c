/**
 * The capability registry (src/mcp/services/mcp-registry.service.ts): an
 * ordered list of discovered tool, resource and prompt registrations, filled
 * once at bootstrap, with kind filters, first-match lookup by name and
 * lookup of a resource by URI template.
 */
module Registry {
  import opened Values
  import opened Descriptors
  import opened UriTemplates

  /** The NestJS injection token of the provider a method belongs to. */
  datatype ProviderToken = ProviderToken(id: nat)

  /** `DiscoveredTool`: one registration. */
  datatype Entry = Entry(kind: Kind, metadata: Metadata, providerClass: ProviderToken, methodName: string)

  /** A method of a provider instance, with the metadata each decorator left on it. */
  datatype ScannedMethod = ScannedMethod(
    methodName: string,
    tool: Option<Metadata>,
    resource: Option<Metadata>,
    prompt: Option<Metadata>)

  /**
   * An instance wrapper from discovery, providers first and then controllers.
   * `instance` is `None` when the wrapper holds no object (it is filtered out).
   */
  datatype InstanceWrapper = InstanceWrapper(token: ProviderToken, instance: Option<seq<ScannedMethod>>)

  /** The result of `findResourceByUri`. */
  datatype ResourceMatch = ResourceMatch(resource: Entry, params: map<string, string>)

  // ------------------------------------------------------------------ discovery

  /** `if (!metadata['name']) metadata['name'] = methodName`. */
  function WithDefaultName(m: Metadata, methodName: string): (r: Metadata)
    ensures !NameFalsy(m) ==> r == m
    ensures NameFalsy(m) ==> r.name == Some(methodName)
    ensures r.(name := m.name) == m
  {
    if NameFalsy(m) then m.(name := Some(methodName)) else m
  }

  /** The registrations one scanned method contributes: tool, then resource, then prompt. */
  function MethodEntries(token: ProviderToken, sm: ScannedMethod): seq<Entry> {
    (if sm.tool.Some? then [Entry(ToolKind, WithDefaultName(sm.tool.value, sm.methodName), token, sm.methodName)] else [])
    + (if sm.resource.Some? then [Entry(ResourceKind, WithDefaultName(sm.resource.value, sm.methodName), token, sm.methodName)] else [])
    + (if sm.prompt.Some? then [Entry(PromptKind, WithDefaultName(sm.prompt.value, sm.methodName), token, sm.methodName)] else [])
  }

  /** The registrations of the methods `ms` of one instance, in method order. */
  function MethodsEntries(token: ProviderToken, ms: seq<ScannedMethod>): seq<Entry> {
    if ms == [] then [] else MethodsEntries(token, ms[..|ms| - 1]) + MethodEntries(token, ms[|ms| - 1])
  }

  function WrapperEntries(w: InstanceWrapper): seq<Entry> {
    if w.instance.None? then [] else MethodsEntries(w.token, w.instance.value)
  }

  /** The registrations `discoverTools` appends for the wrappers `ws`, in discovery order. */
  function Discovered(ws: seq<InstanceWrapper>): seq<Entry> {
    if ws == [] then [] else Discovered(ws[..|ws| - 1]) + WrapperEntries(ws[|ws| - 1])
  }

  lemma MethodsEntriesSnoc(token: ProviderToken, ms: seq<ScannedMethod>, j: nat)
    requires j < |ms|
    ensures MethodsEntries(token, ms[..j + 1]) == MethodsEntries(token, ms[..j]) + MethodEntries(token, ms[j])
  {
    assert ms[..j + 1][..j] == ms[..j];
  }

  lemma DiscoveredSnoc(ws: seq<InstanceWrapper>, i: nat)
    requires i < |ws|
    ensures Discovered(ws[..i + 1]) == Discovered(ws[..i]) + WrapperEntries(ws[i])
  {
    assert ws[..i + 1][..i] == ws[..i];
  }

  lemma DiscoveredStep(prefix: seq<Entry>, ws: seq<InstanceWrapper>, i: nat)
    requires i < |ws|
    ensures (prefix + Discovered(ws[..i])) + WrapperEntries(ws[i]) == prefix + Discovered(ws[..i + 1])
  {
    DiscoveredSnoc(ws, i);
  }

  /**
   * After defaulting, an entry's name is never `undefined`, and it is empty
   * only when the method name is empty.
   */
  predicate Named(e: Entry) {
    e.metadata.name.Some? && (e.metadata.name.value == "" ==> e.methodName == "")
  }

  lemma DiscoveredPush(ws: seq<InstanceWrapper>, w: InstanceWrapper)
    ensures Discovered(ws + [w]) == Discovered(ws) + WrapperEntries(w)
  {
    assert (ws + [w])[..|ws|] == ws;
  }

  /** Discovering the wrappers `a` and then `b` registers what each would register, in that order. */
  lemma {:induction false} DiscoveredAppend(a: seq<InstanceWrapper>, b: seq<InstanceWrapper>)
    ensures Discovered(a + b) == Discovered(a) + Discovered(b)
    decreases |b|
  {
    if b == [] {
      assert a + b == a;
    } else {
      var c, last := b[..|b| - 1], b[|b| - 1];
      assert b == c + [last];
      assert a + b == (a + c) + [last];
      calc {
        Discovered(a + b);
        Discovered((a + c) + [last]);
        { DiscoveredPush(a + c, last); }
        Discovered(a + c) + WrapperEntries(last);
        { DiscoveredAppend(a, c); }
        (Discovered(a) + Discovered(c)) + WrapperEntries(last);
        { AppendAssoc(Discovered(a), Discovered(c), WrapperEntries(last)); }
        Discovered(a) + (Discovered(c) + WrapperEntries(last));
        { DiscoveredPush(c, last); }
        Discovered(a) + Discovered(b);
      }
    }
  }

  lemma MethodEntriesNamed(token: ProviderToken, sm: ScannedMethod)
    ensures forall e :: e in MethodEntries(token, sm) ==> Named(e) && e.providerClass == token
  {
  }

  lemma {:induction false} MethodsEntriesNamed(token: ProviderToken, ms: seq<ScannedMethod>)
    ensures forall e :: e in MethodsEntries(token, ms) ==> Named(e) && e.providerClass == token
  {
    if ms != [] {
      var init, last := ms[..|ms| - 1], ms[|ms| - 1];
      MethodsEntriesNamed(token, init);
      MethodEntriesNamed(token, last);
      assert MethodsEntries(token, ms) == MethodsEntries(token, init) + MethodEntries(token, last);
      forall e | e in MethodsEntries(token, ms) ensures Named(e) && e.providerClass == token {
        assert e in MethodsEntries(token, init) || e in MethodEntries(token, last);
      }
    }
  }

  /** Every registration made by discovery is named, and only instances holding an object contribute. */
  lemma {:induction false} DiscoveredNamed(ws: seq<InstanceWrapper>)
    ensures forall e :: e in Discovered(ws) ==> Named(e)
    ensures forall e :: e in Discovered(ws) ==>
      exists i :: 0 <= i < |ws| && ws[i].instance.Some? && ws[i].token == e.providerClass
  {
    if ws != [] {
      var init := ws[..|ws| - 1];
      var w := ws[|ws| - 1];
      DiscoveredNamed(init);
      if w.instance.Some? {
        MethodsEntriesNamed(w.token, w.instance.value);
      }
      forall e | e in Discovered(ws)
        ensures exists i :: 0 <= i < |ws| && ws[i].instance.Some? && ws[i].token == e.providerClass
      {
        if e in Discovered(init) {
          var i :| 0 <= i < |init| && init[i].instance.Some? && init[i].token == e.providerClass;
          assert ws[i] == init[i];
        } else {
          assert ws[|ws| - 1] == w;
        }
      }
    }
  }

  // ------------------------------------------------------- filters and lookups

  /** `discoveredTools.filter((tool) => tool.type === k)`. */
  function OfKind(entries: seq<Entry>, k: Kind): seq<Entry> {
    if entries == [] then []
    else (if entries[0].kind == k then [entries[0]] else []) + OfKind(entries[1..], k)
  }

  /** The filter keeps exactly the registrations of kind `k`. */
  lemma {:induction false} OfKindMembers(entries: seq<Entry>, k: Kind)
    ensures forall e :: e in OfKind(entries, k) <==> e in entries && e.kind == k
  {
    if entries != [] {
      OfKindMembers(entries[1..], k);
      assert entries == [entries[0]] + entries[1..];
    }
  }

  /** Filtering keeps registration order: it distributes over concatenation. */
  lemma {:induction false} OfKindAppend(a: seq<Entry>, b: seq<Entry>, k: Kind)
    ensures OfKind(a + b, k) == OfKind(a, k) + OfKind(b, k)
  {
    if a == [] {
      assert a + b == b;
    } else {
      assert (a + b)[0] == a[0] && (a + b)[1..] == a[1..] + b;
      OfKindAppend(a[1..], b, k);
    }
  }

  /** `list.find((tool) => tool.metadata.name === name)`. */
  function FirstNamed(list: seq<Entry>, name: Option<string>): Option<Entry> {
    if list == [] then None
    else if list[0].metadata.name == name then Some(list[0])
    else FirstNamed(list[1..], name)
  }

  /** `find` returns the first element with that name, and nothing exactly when none has it. */
  lemma {:induction false} FirstNamedSpec(list: seq<Entry>, name: Option<string>)
    ensures FirstNamed(list, name).None? <==> forall i :: 0 <= i < |list| ==> list[i].metadata.name != name
    ensures FirstNamed(list, name).Some? ==> exists i :: (0 <= i < |list| && list[i] == FirstNamed(list, name).value &&
      list[i].metadata.name == name && forall j :: 0 <= j < i ==> list[j].metadata.name != name)
  {
    if list != [] && list[0].metadata.name != name {
      var rest := list[1..];
      FirstNamedSpec(rest, name);
      assert forall i :: 1 <= i < |list| ==> rest[i - 1] == list[i];
      if FirstNamed(rest, name).Some? {
        var i :| 0 <= i < |rest| && rest[i] == FirstNamed(rest, name).value && rest[i].metadata.name == name &&
          forall j :: 0 <= j < i ==> rest[j].metadata.name != name;
        assert list[i + 1] == rest[i];
      }
    }
  }

  /** `findTool` / `findResource` / `findPrompt`: the first entry of kind `k` named `name`. */
  function FindByName(entries: seq<Entry>, k: Kind, name: Option<string>): Option<Entry> {
    FirstNamed(OfKind(entries, k), name)
  }

  predicate Matches(e: Entry, k: Kind, name: Option<string>) {
    e.kind == k && e.metadata.name == name
  }

  /** Lookup by name looks at the registrations one at a time, in order. */
  lemma FindByNameUnfold(entries: seq<Entry>, k: Kind, name: Option<string>)
    requires entries != []
    ensures FindByName(entries, k, name) ==
      if Matches(entries[0], k, name) then Some(entries[0]) else FindByName(entries[1..], k, name)
  {
    var l := OfKind(entries[1..], k);
    if entries[0].kind == k {
      assert OfKind(entries, k) == [entries[0]] + l;
      assert ([entries[0]] + l)[0] == entries[0] && ([entries[0]] + l)[1..] == l;
    } else {
      assert OfKind(entries, k) == [] + l == l;
    }
  }

  /**
   * Lookup by name returns the earliest registration of that kind with that
   * name, and nothing exactly when there is none.
   */
  lemma {:induction false} FindByNameFirst(entries: seq<Entry>, k: Kind, name: Option<string>)
    ensures FindByName(entries, k, name).None? <==> forall i :: 0 <= i < |entries| ==> !Matches(entries[i], k, name)
    ensures FindByName(entries, k, name).Some? ==> exists i :: (0 <= i < |entries| &&
      entries[i] == FindByName(entries, k, name).value && Matches(entries[i], k, name) &&
      forall j :: 0 <= j < i ==> !Matches(entries[j], k, name))
  {
    if entries != [] {
      var rest := entries[1..];
      FindByNameUnfold(entries, k, name);
      FindByNameFirst(rest, k, name);
      assert forall i :: 1 <= i < |entries| ==> rest[i - 1] == entries[i];
      if !Matches(entries[0], k, name) && FindByName(rest, k, name).Some? {
        var i :| 0 <= i < |rest| && rest[i] == FindByName(rest, k, name).value && Matches(rest[i], k, name) &&
          forall j :: 0 <= j < i ==> !Matches(rest[j], k, name);
        assert entries[i + 1] == rest[i];
      }
    }
  }

  // ------------------------------------------------------- findResourceByUri

  /** A resource is tried only when its `uri` is truthy. */
  predicate HasUri(e: Entry) {
    e.metadata.uri.Some? && e.metadata.uri.value != ""
  }

  /** `convertTemplate(convertUri(rawTemplate))`: the path a resource's uri is matched as. */
  function TemplatePath(rawTemplate: string): string {
    ConvertTemplate(ConvertUri(rawTemplate))
  }

  /** Resource `e` has a uri whose template matches `stripped`. */
  predicate TemplateMatches(e: Entry, stripped: string) {
    HasUri(e) && MatchPath(TemplatePath(e.metadata.uri.value), stripped).Some?
  }

  /** The loop of `findResourceByUri` from position `i` of `resources` on. */
  function LookupFrom(resources: seq<Entry>, stripped: string, i: nat): Option<ResourceMatch>
    requires i <= |resources|
    decreases |resources| - i
  {
    if i == |resources| then None
    else if !HasUri(resources[i]) then LookupFrom(resources, stripped, i + 1)
    else
      match MatchPath(TemplatePath(resources[i].metadata.uri.value), stripped)
      case None => LookupFrom(resources, stripped, i + 1)
      case Some(params) =>
        match FirstNamed(resources, resources[i].metadata.name)
        case None => LookupFrom(resources, stripped, i + 1)
        case Some(found) => Some(ResourceMatch(found, params))
  }

  /** What `findResourceByUri(uri)` returns for the registrations `entries`. */
  function ResourceLookup(entries: seq<Entry>, uri: string): Option<ResourceMatch> {
    LookupFrom(OfKind(entries, ResourceKind), ConvertUri(uri), 0)
  }

  /**
   * The name lookup of a resource taken from the same list always finds one,
   * so the `continue` after a failed `findResource` is never taken.
   */
  lemma NameLookupNeverFails(resources: seq<Entry>, i: nat)
    requires i < |resources|
    ensures FirstNamed(resources, resources[i].metadata.name).Some?
  {
    FirstNamedSpec(resources, resources[i].metadata.name);
  }

  /** `LookupFrom` returns the first matching resource at or after `i`, if any. */
  lemma {:induction false} LookupFromSpec(resources: seq<Entry>, stripped: string, i: nat)
    requires i <= |resources|
    ensures LookupFrom(resources, stripped, i).None? <==>
      forall j :: i <= j < |resources| ==> !TemplateMatches(resources[j], stripped)
    ensures LookupFrom(resources, stripped, i).Some? ==>
      var r := LookupFrom(resources, stripped, i).value;
      exists j :: (i <= j < |resources| && TemplateMatches(resources[j], stripped) &&
        (forall l :: i <= l < j ==> !TemplateMatches(resources[l], stripped)) &&
        MatchPath(TemplatePath(resources[j].metadata.uri.value), stripped) == Some(r.params) &&
        FirstNamed(resources, resources[j].metadata.name) == Some(r.resource))
    decreases |resources| - i
  {
    if i < |resources| {
      var e := resources[i];
      if TemplateMatches(e, stripped) {
        NameLookupNeverFails(resources, i);
        var params := MatchPath(TemplatePath(e.metadata.uri.value), stripped).value;
        var found := FirstNamed(resources, e.metadata.name).value;
        assert LookupFrom(resources, stripped, i) == Some(ResourceMatch(found, params));
      } else {
        assert LookupFrom(resources, stripped, i) == LookupFrom(resources, stripped, i + 1);
        LookupFromSpec(resources, stripped, i + 1);
        if LookupFrom(resources, stripped, i).Some? {
          var r := LookupFrom(resources, stripped, i).value;
          var j :| i + 1 <= j < |resources| && TemplateMatches(resources[j], stripped) &&
            (forall l :: i + 1 <= l < j ==> !TemplateMatches(resources[l], stripped)) &&
            MatchPath(TemplatePath(resources[j].metadata.uri.value), stripped) == Some(r.params) &&
            FirstNamed(resources, resources[j].metadata.name) == Some(r.resource);
          assert forall l :: i <= l < j ==> !TemplateMatches(resources[l], stripped);
        }
      }
    }
  }

  /**
   * `findResourceByUri` returns nothing exactly when no resource with a uri
   * has a template matching the scheme-stripped URI; otherwise it returns the
   * parameters of the first such resource in registration order, together
   * with the first resource bearing that resource's name. Since that resource
   * itself bears the name, the `continue` after a failed name lookup is never
   * taken.
   */
  lemma ResourceLookupSpec(entries: seq<Entry>, uri: string)
    ensures var resources, stripped := OfKind(entries, ResourceKind), ConvertUri(uri);
      ResourceLookup(entries, uri).None? <==>
        forall j :: 0 <= j < |resources| ==> !TemplateMatches(resources[j], stripped)
    ensures var resources, stripped := OfKind(entries, ResourceKind), ConvertUri(uri);
      ResourceLookup(entries, uri).Some? ==>
      var r := ResourceLookup(entries, uri).value;
      exists j :: (0 <= j < |resources| && TemplateMatches(resources[j], stripped) &&
        (forall l :: 0 <= l < j ==> !TemplateMatches(resources[l], stripped)) &&
        MatchPath(TemplatePath(resources[j].metadata.uri.value), stripped) == Some(r.params) &&
        FindByName(entries, ResourceKind, resources[j].metadata.name) == Some(r.resource))
  {
    var resources, stripped := OfKind(entries, ResourceKind), ConvertUri(uri);
    assert ResourceLookup(entries, uri) == LookupFrom(resources, stripped, 0);
    LookupFromSpec(resources, stripped, 0);
  }

  /**
   * The resource returned is found by name, so it can be an earlier resource
   * sharing the name of the one whose template matched: here `first` is
   * returned with the parameters captured by `second`'s template.
   */
  lemma ResourceLookupShadowed(first: Entry, second: Entry, uri: string)
    requires first.kind == ResourceKind && second.kind == ResourceKind
    requires first.metadata.name == second.metadata.name
    requires !TemplateMatches(first, ConvertUri(uri)) && TemplateMatches(second, ConvertUri(uri))
    ensures ResourceLookup([first, second], uri) ==
      Some(ResourceMatch(first, MatchPath(TemplatePath(second.metadata.uri.value), ConvertUri(uri)).value))
  {
    var entries := [first, second];
    var none: seq<Entry> := [];
    assert entries[1..] == [second] && [second][1..] == none;
    assert OfKind([second], ResourceKind) == [second] + none == [second];
    assert OfKind(entries, ResourceKind) == [first] + [second] == entries;
    assert FirstNamed(entries, second.metadata.name) == Some(first);
    assert LookupFrom(entries, ConvertUri(uri), 0) == LookupFrom(entries, ConvertUri(uri), 1);
  }

  lemma TemplatePathExample()
    ensures TemplatePath("items/{id}") == "items/:id"
  {
    var raw := "items/{id}";
    NoColonNoSep(raw);
    ConvertUriUnchanged(raw);
    ConvertTemplateExample();
  }

  lemma MatchPathExample()
    ensures MatchPath("items/:id", "items/42") == Some(map["id" := "42"])
  {
    var lit, name, value := "items", "id", "42";
    assert IsWord(name);
    assert !IsParamSegment(lit);
    MatchLiteralThenParam(lit, name, value);
    assert lit + "/:" + name == "items/:id";
    assert lit + "/" + value == "items/42";
  }

  /** A single resource whose template matches is found, with the matched parameters. */
  lemma SingleResourceLookup(e: Entry, uri: string, params: map<string, string>)
    requires e.kind == ResourceKind && HasUri(e)
    requires MatchPath(TemplatePath(e.metadata.uri.value), ConvertUri(uri)) == Some(params)
    ensures ResourceLookup([e], uri) == Some(ResourceMatch(e, params))
  {
    var none: seq<Entry> := [];
    assert [e][1..] == none;
    assert OfKind([e], ResourceKind) == [e] + none == [e];
    assert FirstNamed([e], e.metadata.name) == Some(e);
  }

  /** `"scheme://items/42"` against the template `"items/{id}"` gives `{id: "42"}`. */
  lemma ResourceLookupExample(e: Entry)
    requires e.kind == ResourceKind && e.metadata.uri == Some("items/{id}")
    ensures ResourceLookup([e], "scheme://items/42") == Some(ResourceMatch(e, map["id" := "42"]))
  {
    ConvertUriExample();
    TemplatePathExample();
    MatchPathExample();
    SingleResourceLookup(e, "scheme://items/42", map["id" := "42"]);
  }

  // ------------------------------------------------------------------ the service

  /** `McpRegistryService`: the registrations, in discovery order. */
  class McpRegistry {
    var discovered: seq<Entry>

    constructor()
      ensures discovered == []
    {
      discovered := [];
    }

    /** `addDiscovery`: default the name, then append. */
    method AddDiscovery(kind: Kind, metadata: Metadata, token: ProviderToken, methodName: string)
      modifies this
      ensures discovered == old(discovered) + [Entry(kind, WithDefaultName(metadata, methodName), token, methodName)]
    {
      discovered := discovered + [Entry(kind, WithDefaultName(metadata, methodName), token, methodName)];
    }

    /** The body of the inner `forEach`: one method's tool, resource and prompt metadata. */
    method AddMethod(token: ProviderToken, m: ScannedMethod)
      modifies this
      ensures discovered == old(discovered) + MethodEntries(token, m)
    {
      if m.tool.Some? {
        AddDiscovery(ToolKind, m.tool.value, token, m.methodName);
      }
      if m.resource.Some? {
        AddDiscovery(ResourceKind, m.resource.value, token, m.methodName);
      }
      if m.prompt.Some? {
        AddDiscovery(PromptKind, m.prompt.value, token, m.methodName);
      }
    }

    /** The inner `forEach` over the method names of one instance. */
    method AddInstance(token: ProviderToken, methods: seq<ScannedMethod>)
      modifies this
      ensures discovered == old(discovered) + MethodsEntries(token, methods)
    {
      var j := 0;
      while j < |methods|
        invariant 0 <= j <= |methods|
        invariant discovered == old(discovered) + MethodsEntries(token, methods[..j])
      {
        MethodsEntriesSnoc(token, methods, j);
        AddMethod(token, methods[j]);
        j := j + 1;
      }
      assert methods[..|methods|] == methods;
    }

    /**
     * `discoverTools`: for every wrapper holding an object and every method of
     * it, register its tool, resource and prompt metadata in that order.
     */
    method DiscoverTools(wrappers: seq<InstanceWrapper>)
      modifies this
      ensures discovered == old(discovered) + Discovered(wrappers)
    {
      var i := 0;
      while i < |wrappers|
        invariant 0 <= i <= |wrappers|
        invariant discovered == old(discovered) + Discovered(wrappers[..i])
      {
        DiscoveredStep(old(discovered), wrappers, i);
        DiscoverWrapper(wrappers[i]);
        i := i + 1;
      }
      assert wrappers[..|wrappers|] == wrappers;
    }

    /** One step of `discoverTools`: a wrapper without an object registers nothing. */
    method DiscoverWrapper(w: InstanceWrapper)
      modifies this
      ensures discovered == old(discovered) + WrapperEntries(w)
    {
      if w.instance.Some? {
        AddInstance(w.token, w.instance.value);
      } else {
        assert discovered + [] == discovered;
      }
    }

    /** `getTools` */
    function GetTools(): (r: seq<Entry>)
      reads this
      ensures forall e :: e in r <==> e in discovered && e.kind == ToolKind
      ensures r == OfKind(discovered, ToolKind)
    {
      OfKindMembers(discovered, ToolKind);
      OfKind(discovered, ToolKind)
    }

    /** `getResources` */
    function GetResources(): (r: seq<Entry>)
      reads this
      ensures forall e :: e in r <==> e in discovered && e.kind == ResourceKind
      ensures r == OfKind(discovered, ResourceKind)
    {
      OfKindMembers(discovered, ResourceKind);
      OfKind(discovered, ResourceKind)
    }

    /** `getPrompts` */
    function GetPrompts(): (r: seq<Entry>)
      reads this
      ensures forall e :: e in r <==> e in discovered && e.kind == PromptKind
      ensures r == OfKind(discovered, PromptKind)
    {
      OfKindMembers(discovered, PromptKind);
      OfKind(discovered, PromptKind)
    }

    /** `findTool` */
    function FindTool(name: Option<string>): (r: Option<Entry>)
      reads this
      ensures r.Some? ==> r.value in discovered && Matches(r.value, ToolKind, name)
      ensures r == FindByName(discovered, ToolKind, name)
    {
      FirstNamedSpec(GetTools(), name);
      FirstNamed(GetTools(), name)
    }

    /** `findResource` */
    function FindResource(name: Option<string>): (r: Option<Entry>)
      reads this
      ensures r.Some? ==> r.value in discovered && Matches(r.value, ResourceKind, name)
      ensures r == FindByName(discovered, ResourceKind, name)
    {
      FirstNamedSpec(GetResources(), name);
      FirstNamed(GetResources(), name)
    }

    /** `findPrompt` */
    function FindPrompt(name: Option<string>): (r: Option<Entry>)
      reads this
      ensures r.Some? ==> r.value in discovered && Matches(r.value, PromptKind, name)
      ensures r == FindByName(discovered, PromptKind, name)
    {
      FirstNamedSpec(GetPrompts(), name);
      FirstNamed(GetPrompts(), name)
    }

    /** `findResourceByUri`: try every resource with a uri, in registration order. */
    method FindResourceByUri(uri: string) returns (r: Option<ResourceMatch>)
      ensures r == ResourceLookup(discovered, uri)
    {
      var resources := GetResources();
      var stripped := ConvertUri(uri);
      var i := 0;
      while i < |resources|
        invariant 0 <= i <= |resources|
        invariant LookupFrom(resources, stripped, i) == ResourceLookup(discovered, uri)
      {
        var t := resources[i];
        if !HasUri(t) {
          i := i + 1;
          continue;
        }
        var templatePath := TemplatePath(t.metadata.uri.value);
        var result := MatchPath(templatePath, stripped);
        if result.Some? {
          var foundResource := FindResource(t.metadata.name);
          if foundResource.None? {
            i := i + 1;
            continue;
          }
          return Some(ResourceMatch(foundResource.value, result.value));
        }
        i := i + 1;
      }
      return None;
    }
  }
}
