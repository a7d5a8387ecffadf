/** What a load gives for one server, read from the sources that define it: `loadMcpConfigWithSources`. */
module StackLoad {
  import opened Wrappers
  import opened Runs
  import opened ServerEntries
  import opened UrlBinding
  import opened DisabledOverride

  // ----- What each source gives for one name -----

  function Present(entry: Option<Entry>): seq<Entry> {
    if entry.Some? then [entry.value] else []
  }

  /** A file's own entry merged over the one that its imports give; the own entry of a hidden name is without effect. */
  function GivenByLayer(layer: Layer, name: string): Option<Entry> {
    MergeOpt(Lookup(FirstWins(layer.imports), name), if name in layer.hidden then None else Lookup(layer.own, name))
  }

  function GivenByLayers(layers: seq<Layer>, name: string): seq<Entry> {
    if layers == [] then []
    else GivenByLayers(layers[..|layers| - 1], name) + Present(GivenByLayer(layers[|layers| - 1], name))
  }

  /** An object-valued `auth` that is not accepted for its url makes the entry void. */
  predicate IsVoid(stack: Stack, entry: Entry) {
    Get(entry, Auth).Object? && !stack.authAccepted(Get(entry, Auth), Get(entry, Url))
  }

  /** The override file's own entry: none if it is no object or void, and else without a description that is no string. */
  function OwnGiven(stack: Stack, name: string): Option<Entry> {
    var own := ExistingEntry(stack.file, name);
    if own.None? || IsVoid(stack, own.value) then None
    else
      Some(own.value.(fields := map f | f in own.value.fields &&
                                        (f.Extra? && f.name == "description" ==> own.value.fields[f].Text? || own.value.fields[f].Undefined?) ::
                                      own.value.fields[f]))
  }

  function GivenByFile(stack: Stack, name: string): Option<Entry> {
    if stack.listed && stack.file.loads then MergeOpt(Lookup(FirstWins(stack.file.imports), name), OwnGiven(stack, name))
    else None
  }

  /** What the discovered hosts and the sources give for one name, lowest precedence first. */
  function Given(stack: Stack, name: string): seq<Entry> {
    Present(Lookup(stack.host, name)) + GivenByLayers(stack.lower, name) + Present(GivenByFile(stack, name))
    + GivenByLayers(stack.later, name)
  }

  // ----- A load merges just that -----

  lemma PlainAlone(entry: Entry)
    requires entry.literal == {}
    ensures MergeEntry(None, entry) == entry
  {
  }

  lemma FoldMore(entries: seq<Entry>, more: Option<Entry>)
    ensures Fold(entries + Present(more)) == MergeOpt(Fold(entries), more)
  {
    if more.Some? {
      assert (entries + [more.value])[..|entries|] == entries;
    } else {
      assert entries + [] == entries;
    }
  }

  lemma LayerByName(layer: Layer, name: string)
    requires PlainLayer(layer)
    ensures Lookup(LoadLayer(layer), name) == GivenByLayer(layer, name)
  {
    MergeAt(FirstWins(layer.imports), layer.own - layer.hidden, name);
    if layer.imports == [] && name in layer.own && name !in layer.hidden {
      PlainAlone(layer.own[name]);
    }
  }

  lemma NextLayerByName(below: Servers, entries: seq<Entry>, layer: Layer, name: string)
    requires Lookup(below, name) == Fold(entries) && PlainLayer(layer)
    ensures Lookup(MergeMaps(below, LoadLayer(layer)), name) == Fold(entries + Present(GivenByLayer(layer, name)))
  {
    MergeAt(below, LoadLayer(layer), name);
    LayerByName(layer, name);
    FoldMore(entries, GivenByLayer(layer, name));
  }

  /** The layers merged over `base` give `name` what they define for it after `entries`. */
  ghost predicate GiveByName(base: Servers, entries: seq<Entry>, layers: seq<Layer>, name: string) {
    Lookup(MergeLayers(base, layers), name) == Fold(entries + GivenByLayers(layers, name))
  }

  lemma OneMoreLayerByName(base: Servers, entries: seq<Entry>, layers: seq<Layer>, more: seq<Layer>, name: string)
    requires GiveByName(base, entries, layers, name) && |more| == |layers| + 1 && layers == more[..|layers|]
    requires PlainLayer(more[|layers|])
    ensures GiveByName(base, entries, more, name)
  {
    var below, last := GivenByLayers(layers, name), Present(GivenByLayer(more[|layers|], name));
    NextLayerByName(MergeLayers(base, layers), entries + below, more[|layers|], name);
    assert GivenByLayers(more, name) == below + last;
    assert entries + (below + last) == entries + below + last;
  }

  lemma LayersByName(base: Servers, entries: seq<Entry>, layers: seq<Layer>, name: string)
    requires Lookup(base, name) == Fold(entries)
    requires forall k :: 0 <= k < |layers| ==> PlainLayer(layers[k])
    ensures GiveByName(base, entries, layers, name)
  {
    var holds: nat -> bool := (n: nat) => n <= |layers| && GiveByName(base, entries, layers[..n], name);
    assert layers[..0] == [] && entries + [] == entries;
    forall n: nat | n < |layers| && holds(n)
      ensures holds(n + 1)
    {
      assert layers[..n + 1][..n] == layers[..n];
      OneMoreLayerByName(base, entries, layers[..n], layers[..n + 1], name);
    }
    HoldsAlong(holds, |layers|, |layers|);
    assert layers[..|layers|] == layers;
  }

  lemma OwnByName(stack: Stack, name: string)
    ensures Lookup(LoadOwn(stack.authAccepted, stack.file.servers), name) == OwnGiven(stack, name)
  {
    LoadOwnAt(stack.authAccepted, stack.file, name);
    var own := ExistingEntry(stack.file, name);
    if OwnGiven(stack, name).Some? {
      assert Loaded(own.value).fields == OwnGiven(stack, name).value.fields;
    }
  }

  lemma FileByName(stack: Stack, name: string)
    requires PlainFile(stack.file)
    ensures Lookup(LoadFile(stack.authAccepted, stack.file), name) ==
            MergeOpt(Lookup(FirstWins(stack.file.imports), name), OwnGiven(stack, name))
  {
    var own := LoadOwn(stack.authAccepted, stack.file.servers);
    OwnByName(stack, name);
    PlainOwn(stack.authAccepted, stack.file);
    MergeAt(FirstWins(stack.file.imports), own, name);
    if stack.file.imports == [] && name in own {
      PlainAlone(own[name]);
    }
  }

  lemma HostByName(host: Servers, name: string)
    requires PlainServers(host)
    ensures Lookup(host, name) == Fold(Present(Lookup(host, name)))
  {
    if name in host {
      PlainAlone(host[name]);
      assert [host[name]][..0] == [];
    }
  }

  /** The merged entry of a server is the merge of what each source gives for its name, whatever its other servers are. */
  lemma MergedByName(stack: Stack, name: string)
    requires PlainStack(stack)
    ensures Lookup(Merged(stack), name) == Fold(Given(stack, name))
  {
    var host, lower := Present(Lookup(stack.host, name)), GivenByLayers(stack.lower, name);
    var below := MergeLayers(stack.host, stack.lower);
    HostByName(stack.host, name);
    LayersByName(stack.host, host, stack.lower, name);
    FileByName(stack, name);
    MergeAt(below, LoadFile(stack.authAccepted, stack.file), name);
    FoldMore(host + lower, GivenByFile(stack, name));
    LayersByName(WithFile(stack, below), host + lower + Present(GivenByFile(stack, name)), stack.later, name);
  }

  // ----- Which servers are left out -----

  predicate ImportsHave(imports: seq<Servers>, name: string) {
    exists i :: 0 <= i < |imports| && name in imports[i]
  }

  lemma {:induction false} ImportedExactly(imports: seq<Servers>, name: string)
    ensures name in FirstWins(imports) <==> ImportsHave(imports, name)
  {
    if imports != [] {
      var last := |imports| - 1;
      ImportedExactly(imports[..last], name);
      if ImportsHave(imports[..last], name) {
        var i :| 0 <= i < last && name in imports[..last][i];
        assert name in imports[i];
      }
    }
  }

  /** The file makes the name a project's: by an own entry or an import, if it is of project scope, or by an import that is. */
  predicate NamedBy(project: bool, owns: bool, imports: seq<Servers>, projectImports: set<string>, name: string) {
    || (project && (owns || ImportsHave(imports, name)))
    || (name in projectImports && ImportsHave(imports, name))
  }

  predicate NamedByLayer(layer: Layer, name: string) {
    NamedBy(layer.project, name in layer.own && name !in layer.hidden, layer.imports, layer.projectImports, name)
  }

  predicate NamedByLayers(layers: seq<Layer>, name: string) {
    exists k :: 0 <= k < |layers| && NamedByLayer(layers[k], name)
  }

  /** Some project config defines or overrides the server. */
  predicate NamedByProject(stack: Stack, name: string) {
    || name in stack.hostProject || NamedByLayers(stack.lower, name) || NamedByLayers(stack.later, name)
    || (stack.listed && stack.file.loads &&
        NamedBy(stack.project, OwnGiven(stack, name).Some?, stack.file.imports, stack.file.projectImports, name))
  }

  lemma LayerNames(layer: Layer, name: string)
    ensures name in LayerProjectNames(layer) <==> NamedByLayer(layer, name)
  {
    ImportedExactly(layer.imports, name);
  }

  lemma {:induction false} LayersNames(layers: seq<Layer>, name: string)
    ensures name in LayersProjectNames(layers) <==> NamedByLayers(layers, name)
  {
    if layers != [] {
      var last := |layers| - 1;
      LayersNames(layers[..last], name);
      LayerNames(layers[last], name);
      if NamedByLayers(layers[..last], name) {
        var k :| 0 <= k < last && NamedByLayer(layers[..last][k], name);
        assert NamedByLayer(layers[k], name);
      }
      forall k | 0 <= k < last
        ensures layers[..last][k] == layers[k]
      {
      }
    }
  }

  lemma FileNames(stack: Stack, name: string)
    ensures name in FileProjectNames(stack) <==>
            stack.listed && stack.file.loads &&
            NamedBy(stack.project, OwnGiven(stack, name).Some?, stack.file.imports, stack.file.projectImports, name)
  {
    OwnByName(stack, name);
    ImportedExactly(stack.file.imports, name);
  }

  lemma ProjectNamesExactly(stack: Stack, name: string)
    ensures name in ProjectNames(stack) <==> NamedByProject(stack, name)
  {
    LayersNames(stack.lower, name);
    FileNames(stack, name);
    LayersNames(stack.later, name);
  }

  /**
   * A load gives a server what its own definitions merge to, but leaves it out exactly when that has an
   * object for `auth` and some project config defines or overrides the server.
   */
  lemma ReloadByName(stack: Stack, name: string)
    requires PlainStack(stack)
    ensures var merged := Fold(Given(stack, name));
      Lookup(Reload(stack), name) ==
      if merged.Some? && Get(merged.value, Auth).Object? && NamedByProject(stack, name) then None else merged
  {
    MergedByName(stack, name);
    ProjectNamesExactly(stack, name);
  }
}
