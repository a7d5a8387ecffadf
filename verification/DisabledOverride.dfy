/** `writeProjectServerDisabledOverride`: what it writes, and what a reload then gives. */
module DisabledOverride {
  import opened Wrappers
  import opened ServerEntries

  type Servers = map<string, Entry>

  /**
   * A config file other than the override's, as loaded. A load leaves out the `hidden` names of its own servers.
   * `project` is whether the file has project scope; `projectImports` are the names that its imports give from
   * a file of project scope.
   */
  datatype Layer =
    Layer(imports: seq<Servers>, own: Servers, hidden: set<string>, project: bool, projectImports: set<string>)

  /** A value under a server's name in the override file, as parsed, and whether `disabled` is its last key. */
  datatype RawEntry = NotAnObject | Fields(entry: Entry, disabledLast: bool)

  datatype RawServers = NoServers | BadServers | RawServers(entries: map<string, RawEntry>)

  /**
   * `parses` is whether the file is missing, empty or a JSON object, and `loads` whether a load takes it at all,
   * which it does not when its settings are invalid. `supported` is whether its `imports` is a list of known
   * kinds; `imports` is what those that load give.
   */
  datatype RawFile = RawFile(servers: RawServers, supported: bool, imports: seq<Servers>, projectImports: set<string>,
                             parses: bool, loads: bool)

  /**
   * What a load merges, lowest precedence first: the discovered host configs, the sources before the
   * override file, that file if it is a source at all (`project` when of project scope), and the sources
   * after it. `hostProject` are the names discovered in a file of project scope. `authAccepted` judges an
   * object-valued `auth` with its url; an entry it refuses is ignored.
   */
  datatype Stack = Stack(host: Servers, hostProject: set<string>, lower: seq<Layer>, listed: bool, project: bool,
                         file: RawFile, later: seq<Layer>, authAccepted: (Value, Value) -> bool)

  datatype WriteError = CannotRead | ServersMustBeObject | ServerMustBeObject | UnsupportedImport

  datatype Written = Written(file: RawFile, changed: bool)

  // ----- Loading -----

  /** The first import that has a name gives its entry. */
  function FirstWins(imports: seq<Servers>): Servers {
    if imports == [] then map[] else imports[|imports| - 1] + FirstWins(imports[..|imports| - 1])
  }

  /** The import that gives a name is the first that has it, and its entry is taken whole. */
  lemma {:induction false} FirstImportWins(imports: seq<Servers>, i: nat, name: string)
    requires i < |imports| && name in imports[i] && forall j :: 0 <= j < i ==> name !in imports[j]
    ensures Lookup(FirstWins(imports), name) == Some(imports[i][name])
  {
    var last := |imports| - 1;
    if i < last {
      FirstImportWins(imports[..last], i, name);
    } else {
      NoImportHas(imports[..last], name);
    }
  }

  lemma {:induction false} NoImportHas(imports: seq<Servers>, name: string)
    requires forall j :: 0 <= j < |imports| ==> name !in imports[j]
    ensures name !in FirstWins(imports)
  {
    if imports != [] {
      NoImportHas(imports[..|imports| - 1], name);
    }
  }

  /** The loop over the imports: a name already imported keeps its entry. */
  method ImportServers(imports: seq<Servers>) returns (imported: Servers)
    ensures imported == FirstWins(imports)
  {
    imported := map[];
    for i := 0 to |imports|
      invariant imported == FirstWins(imports[..i])
    {
      assert imports[..i + 1][..i] == imports[..i];
      imported := imported + (map name | name in imports[i] && name !in imported :: imports[i][name]);
    }
    assert imports[..|imports|] == imports;
  }

  /** A file's own servers merged over its imports. */
  function ExpandImports(imports: seq<Servers>, own: Servers): Servers {
    if imports == [] then own else MergeMaps(FirstWins(imports), own)
  }

  function LoadLayer(layer: Layer): Servers {
    ExpandImports(layer.imports, layer.own - layer.hidden)
  }

  predicate Accepts(authAccepted: (Value, Value) -> bool, entry: Entry) {
    Get(entry, Auth).Object? ==> authAccepted(Get(entry, Auth), Get(entry, Url))
  }

  const DESCRIPTION := Extra("description")

  /** An entry as loaded: without a description that is not a string. */
  function Loaded(entry: Entry): Entry {
    if Get(entry, DESCRIPTION) == Undefined || Get(entry, DESCRIPTION).Text? then entry
    else entry.(fields := entry.fields - {DESCRIPTION})
  }

  function LoadOwn(authAccepted: (Value, Value) -> bool, servers: RawServers): Servers {
    if !servers.RawServers? then map[]
    else map n | n in servers.entries && servers.entries[n].Fields? && Accepts(authAccepted, servers.entries[n].entry) ::
           Loaded(servers.entries[n].entry)
  }

  function LoadFile(authAccepted: (Value, Value) -> bool, file: RawFile): Servers {
    ExpandImports(file.imports, LoadOwn(authAccepted, file.servers))
  }

  function MergeLayers(base: Servers, layers: seq<Layer>): Servers {
    if layers == [] then base
    else MergeMaps(MergeLayers(base, layers[..|layers| - 1]), LoadLayer(layers[|layers| - 1]))
  }

  /** The merged servers of all files. */
  function Merged(stack: Stack): Servers {
    MergeLayers(WithFile(stack, MergeLayers(stack.host, stack.lower)), stack.later)
  }

  /** A load reads the override file. */
  predicate Reads(stack: Stack) {
    stack.listed && stack.file.loads
  }

  function WithFile(stack: Stack, below: Servers): Servers {
    if Reads(stack) then MergeMaps(below, LoadFile(stack.authAccepted, stack.file)) else below
  }

  // ----- Provider auth is for user-global servers only -----

  /** The names of `servers`, loaded from a file, that project config defines or overrides. */
  function ProjectNamesIn(servers: Servers, project: bool, imports: seq<Servers>, projectImports: set<string>): set<string> {
    (if project then servers.Keys else {}) + projectImports * FirstWins(imports).Keys
  }

  function LayerProjectNames(layer: Layer): set<string> {
    ProjectNamesIn(LoadLayer(layer), layer.project, layer.imports, layer.projectImports)
  }

  function LayersProjectNames(layers: seq<Layer>): set<string> {
    if layers == [] then {}
    else LayersProjectNames(layers[..|layers| - 1]) + LayerProjectNames(layers[|layers| - 1])
  }

  function FileProjectNames(stack: Stack): set<string> {
    if !Reads(stack) then {}
    else
      ProjectNamesIn(LoadFile(stack.authAccepted, stack.file), stack.project, stack.file.imports, stack.file.projectImports)
  }

  /** Every name that some project config defines or overrides. */
  function ProjectNames(stack: Stack): set<string> {
    stack.hostProject + LayersProjectNames(stack.lower) + FileProjectNames(stack) + LayersProjectNames(stack.later)
  }

  /** The server's `auth` names a provider, or is any other object. */
  predicate HasProviderAuth(servers: Servers, name: string) {
    name in servers && Get(servers[name], Auth).Object?
  }

  /** `stripProjectProviderAuth`. */
  function Strip(servers: Servers, project: set<string>): Servers {
    map n | n in servers && !(n in project && HasProviderAuth(servers, n)) :: servers[n]
  }

  /** The servers a load of the stack gives. */
  function Reload(stack: Stack): Servers {
    Strip(Merged(stack), ProjectNames(stack))
  }

  method StripProjectProviderAuth(servers: Servers, project: set<string>) returns (left: Servers, leftProject: set<string>)
    ensures left == Strip(servers, project)
    ensures leftProject == set n | n in project && !HasProviderAuth(servers, n)
  {
    left, leftProject := servers, project;
    var names := project;
    while names != {}
      invariant names <= project
      invariant left == Strip(servers, project - names)
      invariant leftProject == set n | n in project && (n in names || !HasProviderAuth(servers, n))
      decreases |names|
    {
      var name :| name in names;
      names := names - {name};
      if HasProviderAuth(servers, name) {
        left := left - {name};
        leftProject := leftProject - {name};
      }
    }
    assert project - names == project;
  }

  /** One source of the load: its servers over the ones before it, and the names it makes a project's. */
  method LoadSource(layer: Layer, below: Servers, named: set<string>) returns (servers: Servers, project: set<string>)
    ensures servers == MergeMaps(below, LoadLayer(layer)) && project == named + LayerProjectNames(layer)
  {
    var imported := ImportServers(layer.imports);
    var expanded := layer.own - layer.hidden;
    if layer.imports != [] {
      expanded := MergeServerMaps(imported, expanded);
    }
    project := named;
    if layer.project {
      project := project + expanded.Keys;
    }
    project := project + layer.projectImports * imported.Keys;
    servers := MergeServerMaps(below, expanded);
  }

  method LoadSources(layers: seq<Layer>, below: Servers, named: set<string>) returns (servers: Servers, project: set<string>)
    ensures servers == MergeLayers(below, layers) && project == named + LayersProjectNames(layers)
  {
    servers, project := below, named;
    for i := 0 to |layers|
      invariant servers == MergeLayers(below, layers[..i]) && project == named + LayersProjectNames(layers[..i])
    {
      assert layers[..i + 1][..i] == layers[..i];
      servers, project := LoadSource(layers[i], servers, project);
    }
    assert layers[..|layers|] == layers;
  }

  /** The override file as a source of the load. */
  function FileLayer(stack: Stack): Layer {
    Layer(stack.file.imports, LoadOwn(stack.authAccepted, stack.file.servers), {}, stack.project, stack.file.projectImports)
  }

  /** The loop of `loadMcpConfigWithSources` over all sources, and what it returns. */
  method LoadMcpConfigWithSources(stack: Stack) returns (servers: Servers, project: set<string>)
    ensures servers == Reload(stack)
    ensures project == set n | n in ProjectNames(stack) && !HasProviderAuth(Merged(stack), n)
  {
    servers, project := LoadSources(stack.lower, stack.host, stack.hostProject);
    if stack.listed && stack.file.loads {
      assert FileLayer(stack).own - {} == FileLayer(stack).own;
      servers, project := LoadSource(FileLayer(stack), servers, project);
    }
    servers, project := LoadSources(stack.later, servers, project);
    assert project == ProjectNames(stack);
    servers, project := StripProjectProviderAuth(servers, project);
  }

  function DisabledAt(servers: Servers, name: string): Option<Value> {
    DisabledOf(Lookup(servers, name))
  }

  /** The `disabled` property of an entry, if it has one. */
  function DisabledOf(entry: Option<Entry>): Option<Value> {
    if entry.Some? && Disabled in entry.value.fields then Some(entry.value.fields[Disabled]) else None
  }

  predicate IsServerDisabled(servers: Servers, name: string) {
    DisabledAt(servers, name) == Some(Bool(true))
  }

  // ----- Writing -----

  /** The sources the writer merges: all but the override file, with no name left out, then that file's imports. */
  function LowerConfig(stack: Stack): Servers {
    MergeMaps(WriterLayers(map[], stack.lower + stack.later), FirstWins(stack.file.imports))
  }

  function WriterLayers(base: Servers, layers: seq<Layer>): Servers {
    if layers == [] then base
    else
      var layer := layers[|layers| - 1];
      MergeMaps(WriterLayers(base, layers[..|layers| - 1]), ExpandImports(layer.imports, layer.own))
  }

  function Entries(servers: RawServers): map<string, RawEntry> {
    if servers.RawServers? then servers.entries else map[]
  }

  /** The entry to write: `disabled` set, or removed unless a source below is itself disabled. */
  function NextEntry(existing: Entry, disabled: bool, lowerDisabled: bool): Entry {
    if disabled then existing.(fields := existing.fields[Disabled := Bool(true)])
    else if lowerDisabled then existing.(fields := existing.fields[Disabled := Bool(false)])
    else existing.(fields := existing.fields - {Disabled})
  }

  /** Where `disabled` then stands: a changed value keeps its place, and a new or removed and set one goes last. */
  function NextLast(existing: Entry, last: bool, disabled: bool, lowerDisabled: bool): bool {
    if disabled then Disabled !in existing.fields || last else lowerDisabled
  }

  function NextRaw(existing: Option<RawEntry>, disabled: bool, lowerDisabled: bool): RawEntry {
    var entry, last :=
      if existing.Some? && existing.value.Fields? then existing.value.entry else NO_ENTRY,
      existing.Some? && existing.value.Fields? && existing.value.disabledLast;
    Fields(NextEntry(entry, disabled, lowerDisabled), NextLast(entry, last, disabled, lowerDisabled))
  }

  function Store(file: RawFile, name: string, existing: Option<RawEntry>, next: RawEntry): Written
    requires next.Fields?
  {
    if (existing.None? && next.entry.fields == map[]) || existing == Some(next) then Written(file, false)
    else if next.entry.fields == map[] then
      Written(file.(servers := RawServers(Entries(file.servers) - {name})), true)
    else
      Written(file.(servers := RawServers(Entries(file.servers)[name := next])), true)
  }

  lemma WriterStep(sources: seq<Layer>, i: nat)
    requires i < |sources|
    ensures WriterLayers(map[], sources[..i + 1]) ==
            MergeMaps(WriterLayers(map[], sources[..i]), ExpandImports(sources[i].imports, sources[i].own))
  {
    assert sources[..i + 1][..i] == sources[..i];
  }

  method MergeLowerSources(stack: Stack) returns (lowerConfig: Servers)
    ensures lowerConfig == WriterLayers(map[], stack.lower + stack.later)
  {
    lowerConfig := map[];
    var sources := stack.lower + stack.later;
    for i := 0 to |sources|
      invariant lowerConfig == WriterLayers(map[], sources[..i])
    {
      WriterStep(sources, i);
      lowerConfig := MergeServerMaps(lowerConfig, ExpandImports(sources[i].imports, sources[i].own));
    }
    assert sources[..|sources|] == sources;
  }

  method WriteProjectServerDisabledOverride(stack: Stack, name: string, disabled: bool)
    returns (result: Result<Written, WriteError>)
    ensures result ==
      if !stack.file.parses then Failure(CannotRead)
      else if stack.file.servers.BadServers? then Failure(ServersMustBeObject)
      else if name in Entries(stack.file.servers) && Entries(stack.file.servers)[name].NotAnObject? then
        Failure(ServerMustBeObject)
      else if !disabled && !stack.file.supported then Failure(UnsupportedImport)
      else Success(WrittenOverride(stack, name, disabled))
  {
    if !stack.file.parses {
      return Failure(CannotRead);
    }
    if stack.file.servers.BadServers? {
      return Failure(ServersMustBeObject);
    }
    var servers := Entries(stack.file.servers);
    var existing := Lookup(servers, name);
    if existing == Some(NotAnObject) {
      return Failure(ServerMustBeObject);
    }
    var lowerDisabled := false;
    if !disabled {
      var lowerConfig := MergeLowerSources(stack);
      if !stack.file.supported {
        return Failure(UnsupportedImport);
      }
      lowerConfig := MergeServerMaps(lowerConfig, FirstWins(stack.file.imports));
      lowerDisabled := IsServerDisabled(lowerConfig, name);
    }
    result := Success(Store(stack.file, name, existing, NextRaw(existing, disabled, lowerDisabled)));
  }

  function ExistingEntry(file: RawFile, name: string): Option<Entry> {
    var entries := Entries(file.servers);
    if name in entries && entries[name].Fields? then Some(entries[name].entry) else None
  }

  function EntryOrEmpty(entry: Option<Entry>): Entry {
    if entry.Some? then entry.value else NO_ENTRY
  }

  /** What the writer leaves in the override file. */
  function WrittenOverride(stack: Stack, name: string, disabled: bool): Written {
    var existing := Lookup(Entries(stack.file.servers), name);
    Store(stack.file, name, existing, NextRaw(existing, disabled, !disabled && IsServerDisabled(LowerConfig(stack), name)))
  }

  // ----- One server through the stack -----

  /** One name of a merge of two server maps. */
  function MergeOpt(below: Option<Entry>, next: Option<Entry>): Option<Entry> {
    if next.None? then below else Some(MergeEntry(below, next.value))
  }

  lemma MergeAt(base: Servers, next: Servers, name: string)
    ensures Lookup(MergeMaps(base, next), name) == MergeOpt(Lookup(base, name), Lookup(next, name))
  {
  }

  /** Config files carry no Agent Plugin marks. */
  predicate Plain(entry: Option<Entry>) {
    entry.Some? ==> entry.value.literal == {}
  }

  /** Every property but `disabled`. */
  function Rest(entry: Option<Entry>): map<Field, Value> {
    if entry.None? then map[] else entry.value.fields - {Disabled}
  }

  /** Merging decides `disabled` by the last entry that has it, and every other property apart from it. */
  lemma MergeParts(below: Option<Entry>, next: Option<Entry>)
    requires Plain(below) && Plain(next)
    ensures Plain(MergeOpt(below, next))
    ensures DisabledOf(MergeOpt(below, next)) == if DisabledOf(next).Some? then DisabledOf(next) else DisabledOf(below)
  {
  }

  lemma MergeRest(below: Option<Entry>, next: Option<Entry>, below': Option<Entry>, next': Option<Entry>)
    requires Plain(below) && Plain(next) && Plain(below') && Plain(next')
    requires Rest(below) == Rest(below') && Rest(next) == Rest(next')
    ensures Rest(MergeOpt(below, next)) == Rest(MergeOpt(below', next'))
  {
    forall f | f != Disabled
      ensures GetOpt(MergeOpt(below, next), f) == GetOpt(MergeOpt(below', next'), f)
    {
      MergeGet(below, next, f);
      MergeGet(below', next', f);
      RestDecides(below, below', next, next', f);
    }
    RestByFields(MergeOpt(below, next), MergeOpt(below', next'));
  }

  /** A property, and whether it is there at all. */
  function GetOpt(entry: Option<Entry>, f: Field): Option<Value> {
    if entry.Some? && f in entry.value.fields then Some(entry.value.fields[f]) else None
  }

  lemma RestByFields(a: Option<Entry>, b: Option<Entry>)
    requires forall f :: f != Disabled ==> GetOpt(a, f) == GetOpt(b, f)
    ensures Rest(a) == Rest(b)
  {
    forall f | f in Rest(a) || f in Rest(b)
      ensures f in Rest(a) && f in Rest(b) && Rest(a)[f] == Rest(b)[f]
    {
      assert GetOpt(a, f) == GetOpt(b, f);
    }
  }

  lemma RestGivesFields(a: Option<Entry>, b: Option<Entry>, f: Field)
    requires Rest(a) == Rest(b) && f != Disabled
    ensures GetOpt(a, f) == GetOpt(b, f)
  {
    assert f in Rest(a) <==> GetOpt(a, f).Some?;
    assert f in Rest(b) <==> GetOpt(b, f).Some?;
  }

  predicate RemovesOpt(below: Option<Entry>, next: Option<Entry>, f: Field) {
    next.Some? && Removes(EntryOrEmpty(below), next.value, f)
  }

  lemma MergeGet(below: Option<Entry>, next: Option<Entry>, f: Field)
    requires Plain(below) && Plain(next)
    ensures GetOpt(MergeOpt(below, next), f) ==
            if GetOpt(next, f).Some? then GetOpt(next, f)
            else if RemovesOpt(below, next, f) then None
            else GetOpt(below, f)
  {
  }

  function ValueOpt(entry: Option<Entry>, f: Field): Value {
    var found := GetOpt(entry, f);
    if found.Some? then found.value else Undefined
  }

  /** Whether a layer removes `f`, from the few properties that decide it. */
  predicate RemovedByValues(command: Value, url: Value, socket: Value, supplied: bool, f: Field, belowUrl: Value, belowValue: Value) {
    || f in (if command.Text? then COMMAND_CLEARS else if url.Text? then URL_CLEARS else if socket.Text? then SOCKET_CLEARS else {})
    || (url.Text? && url != belowUrl && f in CREDENTIAL_FIELDS && !supplied && UrlBound(f, belowValue))
  }

  lemma RemovesByValues(below: Option<Entry>, next: Option<Entry>, f: Field)
    requires Plain(below) && Plain(next)
    ensures RemovesOpt(below, next, f) ==
            RemovedByValues(ValueOpt(next, Command), ValueOpt(next, Url), ValueOpt(next, Socket),
                            GetOpt(next, f).Some?, f, ValueOpt(below, Url), ValueOpt(below, f))
  {
    forall g
      ensures ValueOpt(below, g) == Get(EntryOrEmpty(below), g) && ValueOpt(next, g) == Get(EntryOrEmpty(next), g)
    {
    }
    if next.Some? {
      DropsByValues(EntryOrEmpty(below), next.value, f);
    }
  }

  lemma DropsByValues(existing: Entry, definition: Entry, f: Field)
    requires existing.literal == {}
    ensures Removes(existing, definition, f) <==>
            || f in TransportClears(definition)
            || (Rebinds(existing, definition) && f in CREDENTIAL_FIELDS && f !in definition.fields &&
                UrlBound(f, Get(existing, f)))
  {
  }

  lemma RestDecides(below: Option<Entry>, below': Option<Entry>, next: Option<Entry>, next': Option<Entry>, f: Field)
    requires Plain(below) && Plain(next) && Plain(below') && Plain(next') && f != Disabled
    requires Rest(below) == Rest(below') && Rest(next) == Rest(next')
    ensures GetOpt(next, f) == GetOpt(next', f) && GetOpt(below, f) == GetOpt(below', f)
    ensures RemovesOpt(below, next, f) == RemovesOpt(below', next', f)
  {
    RestGivesFields(next, next', f);
    RestGivesFields(below, below', f);
    RestGivesFields(below, below', Url);
    RestGivesFields(next, next', Url);
    RestGivesFields(next, next', Command);
    RestGivesFields(next, next', Socket);
    RemovesByValues(below, next, f);
    RemovesByValues(below', next', f);
  }

  // ----- The whole stack -----

  predicate PlainServers(servers: Servers) {
    forall n :: n in servers ==> servers[n].literal == {}
  }

  /** A hidden entry, which comes from Pi's own global file, can only ever set `disabled` to true. */
  predicate PlainLayer(layer: Layer) {
    && (forall k :: 0 <= k < |layer.imports| ==> PlainServers(layer.imports[k]))
    && PlainServers(layer.own)
    && (forall n :: n in layer.hidden && n in layer.own && Disabled in layer.own[n].fields ==>
         layer.own[n].fields[Disabled] == Bool(true))
  }

  predicate PlainRaw(raw: RawEntry) {
    raw.Fields? ==> raw.entry.literal == {} && (raw.disabledLast ==> Disabled in raw.entry.fields)
  }

  predicate PlainFile(file: RawFile) {
    && (forall k :: 0 <= k < |file.imports| ==> PlainServers(file.imports[k]))
    && (forall n :: n in Entries(file.servers) ==> PlainRaw(Entries(file.servers)[n]))
    && (file.loads ==> file.parses)
  }

  /** A stack of config files. Only sources before the override file can have names left out. */
  predicate PlainStack(stack: Stack) {
    && PlainServers(stack.host) && PlainFile(stack.file)
    && (forall k :: 0 <= k < |stack.lower| ==> PlainLayer(stack.lower[k]))
    && (forall k :: 0 <= k < |stack.later| ==> PlainLayer(stack.later[k]) && stack.later[k].hidden == {})
  }

  function Or(first: Option<Value>, second: Option<Value>): Option<Value> {
    if first.Some? then first else second
  }

  /** The last `disabled` that the layers set for `name`, as loaded. */
  function LastDisabled(layers: seq<Layer>, name: string): Option<Value> {
    if layers == [] then None
    else Or(DisabledAt(LoadLayer(layers[|layers| - 1]), name), LastDisabled(layers[..|layers| - 1], name))
  }

  /** The same as the writer sees it, with no name left out. */
  function LastWritten(layers: seq<Layer>, name: string): Option<Value> {
    if layers == [] then None
    else
      var layer := layers[|layers| - 1];
      Or(DisabledAt(ExpandImports(layer.imports, layer.own), name), LastWritten(layers[..|layers| - 1], name))
  }

  lemma {:induction false} PlainImports(imports: seq<Servers>)
    requires forall k :: 0 <= k < |imports| ==> PlainServers(imports[k])
    ensures PlainServers(FirstWins(imports))
  {
    if imports != [] {
      PlainImports(imports[..|imports| - 1]);
    }
  }

  lemma PlainMerge(base: Servers, next: Servers)
    requires PlainServers(base) && PlainServers(next)
    ensures PlainServers(MergeMaps(base, next))
  {
    forall n | n in MergeMaps(base, next)
      ensures MergeMaps(base, next)[n].literal == {}
    {
      MergeAt(base, next, n);
      MergeParts(Lookup(base, n), Lookup(next, n));
    }
  }

  lemma DisabledOfMerge(base: Servers, next: Servers, name: string)
    requires PlainServers(base) && PlainServers(next)
    ensures PlainServers(MergeMaps(base, next))
    ensures DisabledAt(MergeMaps(base, next), name) == Or(DisabledAt(next, name), DisabledAt(base, name))
  {
    PlainMerge(base, next);
    MergeAt(base, next, name);
    MergeParts(Lookup(base, name), Lookup(next, name));
  }

  lemma DisabledOfExpand(imports: seq<Servers>, own: Servers, name: string)
    requires (forall k :: 0 <= k < |imports| ==> PlainServers(imports[k])) && PlainServers(own)
    ensures PlainServers(ExpandImports(imports, own))
    ensures DisabledAt(ExpandImports(imports, own), name) == Or(DisabledAt(own, name), DisabledAt(FirstWins(imports), name))
  {
    PlainImports(imports);
    DisabledOfMerge(FirstWins(imports), own, name);
  }

  lemma {:induction false} DisabledOfLayers(base: Servers, layers: seq<Layer>, name: string)
    requires PlainServers(base) && forall k :: 0 <= k < |layers| ==> PlainLayer(layers[k])
    ensures PlainServers(MergeLayers(base, layers))
    ensures DisabledAt(MergeLayers(base, layers), name) == Or(LastDisabled(layers, name), DisabledAt(base, name))
  {
    if layers != [] {
      var n := |layers| - 1;
      var layer := layers[n];
      assert PlainLayer(layer);
      DisabledOfLayers(base, layers[..n], name);
      DisabledOfExpand(layer.imports, layer.own - layer.hidden, name);
      DisabledOfMerge(MergeLayers(base, layers[..n]), LoadLayer(layer), name);
    }
  }

  lemma {:induction false} DisabledOfWriterLayers(layers: seq<Layer>, name: string)
    requires forall k :: 0 <= k < |layers| ==> PlainLayer(layers[k])
    ensures PlainServers(WriterLayers(map[], layers))
    ensures DisabledAt(WriterLayers(map[], layers), name) == LastWritten(layers, name)
  {
    if layers != [] {
      var n := |layers| - 1;
      var layer := layers[n];
      assert PlainLayer(layer);
      DisabledOfWriterLayers(layers[..n], name);
      DisabledOfExpand(layer.imports, layer.own, name);
      DisabledOfMerge(WriterLayers(map[], layers[..n]), ExpandImports(layer.imports, layer.own), name);
    }
  }

  /** The writer and a load can disagree about a layer only where the writer sees it disabled. */
  lemma LayerSeenAlike(layer: Layer, name: string)
    requires PlainLayer(layer)
    ensures var written := DisabledAt(ExpandImports(layer.imports, layer.own), name);
      written != Some(Bool(true)) ==> DisabledAt(LoadLayer(layer), name) == written
    ensures layer.hidden == {} ==> LoadLayer(layer) == ExpandImports(layer.imports, layer.own)
  {
    DisabledOfExpand(layer.imports, layer.own, name);
    DisabledOfExpand(layer.imports, layer.own - layer.hidden, name);
    if layer.hidden == {} {
      assert layer.own - layer.hidden == layer.own;
    }
  }

  lemma {:induction false} LayersSeenAlike(layers: seq<Layer>, name: string)
    requires forall k :: 0 <= k < |layers| ==> PlainLayer(layers[k])
    ensures LastWritten(layers, name) != Some(Bool(true)) ==> LastDisabled(layers, name) == LastWritten(layers, name)
    ensures (forall k :: 0 <= k < |layers| ==> layers[k].hidden == {}) ==>
              LastDisabled(layers, name) == LastWritten(layers, name)
  {
    if layers != [] {
      LayersSeenAlike(layers[..|layers| - 1], name);
      LayerSeenAlike(layers[|layers| - 1], name);
    }
  }

  lemma {:induction false} WrittenConcat(a: seq<Layer>, b: seq<Layer>, name: string)
    ensures LastWritten(a + b, name) == Or(LastWritten(b, name), LastWritten(a, name))
    decreases |b|
  {
    if b == [] {
      assert a + b == a;
    } else {
      WrittenConcat(a, b[..|b| - 1], name);
      assert (a + b)[..|a + b| - 1] == a + b[..|b| - 1];
    }
  }

  lemma DisabledOfLowerConfig(stack: Stack, name: string)
    requires PlainStack(stack)
    ensures DisabledAt(LowerConfig(stack), name) ==
            Or(DisabledAt(FirstWins(stack.file.imports), name),
               Or(LastWritten(stack.later, name), LastWritten(stack.lower, name)))
  {
    DisabledOfWriterLayers(stack.lower + stack.later, name);
    PlainImports(stack.file.imports);
    DisabledOfMerge(WriterLayers(map[], stack.lower + stack.later), FirstWins(stack.file.imports), name);
    WrittenConcat(stack.lower, stack.later, name);
  }

  lemma DisabledOfMerged(stack: Stack, name: string)
    requires PlainStack(stack)
    ensures PlainServers(Merged(stack))
    ensures DisabledAt(Merged(stack), name) ==
            DisabledFrom(LastDisabled(stack.later, name), Reads(stack),
                         DisabledAt(LoadOwn(stack.authAccepted, stack.file.servers), name),
                         DisabledAt(FirstWins(stack.file.imports), name), LastDisabled(stack.lower, name),
                         DisabledAt(stack.host, name))
  {
    var below := MergeLayers(stack.host, stack.lower);
    DisabledOfLayers(stack.host, stack.lower, name);
    var own := LoadOwn(stack.authAccepted, stack.file.servers);
    PlainOwn(stack.authAccepted, stack.file);
    DisabledOfExpand(stack.file.imports, own, name);
    DisabledOfMerge(below, LoadFile(stack.authAccepted, stack.file), name);
    DisabledOfLayers(WithFile(stack, below), stack.later, name);
  }

  /** The override is written rather than refused. */
  predicate Writes(stack: Stack, name: string, disabled: bool) {
    && stack.file.parses
    && !stack.file.servers.BadServers?
    && !(name in Entries(stack.file.servers) && Entries(stack.file.servers)[name].NotAnObject?)
    && (disabled || stack.file.supported)
  }

  /** The stack with the override written. */
  function After(stack: Stack, name: string, disabled: bool): Stack {
    stack.(file := WrittenOverride(stack, name, disabled).file)
  }

  /** Two server maps differ in nothing but the `disabled` of `name`; no entry shows as one without properties. */
  ghost predicate SameBut(a: Servers, b: Servers, name: string) {
    forall n :: Rest(Lookup(a, n)) == Rest(Lookup(b, n)) &&
                (n != name ==> DisabledAt(a, n) == DisabledAt(b, n))
  }

  /** One entry of the override file, as loaded. */
  function LoadEntry(authAccepted: (Value, Value) -> bool, entry: Option<Entry>): Option<Entry> {
    if entry.Some? && Accepts(authAccepted, entry.value) then Some(Loaded(entry.value)) else None
  }

  lemma LoadOwnAt(authAccepted: (Value, Value) -> bool, file: RawFile, name: string)
    ensures Lookup(LoadOwn(authAccepted, file.servers), name) == LoadEntry(authAccepted, ExistingEntry(file, name))
  {
  }

  lemma PlainOwn(authAccepted: (Value, Value) -> bool, file: RawFile)
    requires PlainFile(file)
    ensures PlainServers(LoadOwn(authAccepted, file.servers))
  {
    forall n | n in LoadOwn(authAccepted, file.servers)
      ensures LoadOwn(authAccepted, file.servers)[n].literal == {}
    {
      assert n in Entries(file.servers) && Entries(file.servers)[n].Fields?;
    }
  }

  function Next(stack: Stack, name: string, disabled: bool): Entry {
    NextEntry(EntryOrEmpty(ExistingEntry(stack.file, name)), disabled,
              !disabled && IsServerDisabled(LowerConfig(stack), name))
  }

  /** The file has an entry of `name` after the write. An empty one that was there is left there. */
  predicate LeavesEntry(stack: Stack, name: string, disabled: bool) {
    Next(stack, name, disabled).fields != map[] || ExistingEntry(stack.file, name) == Some(NO_ENTRY)
  }

  lemma StoredPlain(stack: Stack, name: string, disabled: bool)
    requires PlainStack(stack) && Writes(stack, name, disabled)
    ensures PlainStack(After(stack, name, disabled))
    ensures After(stack, name, disabled).file.imports == stack.file.imports
  {
  }

  lemma StoreAt(file: RawFile, name: string, existing: Option<RawEntry>, next: RawEntry, n: string)
    requires existing == Lookup(Entries(file.servers), name) && next.Fields?
    ensures Lookup(Entries(Store(file, name, existing, next).file.servers), n) ==
            if n != name then Lookup(Entries(file.servers), n)
            else if next.entry.fields != map[] || existing == Some(next) then Some(next)
            else None
  {
  }

  /** Rewriting an entry without properties gives that entry, so it is left alone. */
  lemma EmptyEntryStays(existing: RawEntry, disabled: bool, lowerDisabled: bool)
    requires existing.Fields? && PlainRaw(existing) && NextRaw(Some(existing), disabled, lowerDisabled).entry.fields == map[]
    ensures existing.entry == NO_ENTRY <==> NextRaw(Some(existing), disabled, lowerDisabled) == existing
  {
    assert existing.entry.fields == map[] ==> existing.entry.fields - {Disabled} == map[];
    assert Disabled !in NextRaw(Some(existing), disabled, lowerDisabled).entry.fields;
  }

  lemma StoredEntry(stack: Stack, name: string, disabled: bool)
    requires PlainFile(stack.file) && Writes(stack, name, disabled)
    ensures forall n :: n != name ==>
              ExistingEntry(After(stack, name, disabled).file, n) == ExistingEntry(stack.file, n)
    ensures var stored := ExistingEntry(After(stack, name, disabled).file, name);
      stored == if LeavesEntry(stack, name, disabled) then Some(Next(stack, name, disabled)) else None
    ensures !LeavesEntry(stack, name, disabled) ==> Next(stack, name, disabled).fields == map[]
  {
    var lowerDisabled := !disabled && IsServerDisabled(LowerConfig(stack), name);
    var existing := Lookup(Entries(stack.file.servers), name);
    var next := NextRaw(existing, disabled, lowerDisabled);
    forall n
      ensures Lookup(Entries(After(stack, name, disabled).file.servers), n) ==
              if n != name then Lookup(Entries(stack.file.servers), n)
              else if next.entry.fields != map[] || existing == Some(next) then Some(next)
              else None
    {
      StoreAt(stack.file, name, existing, next, n);
    }
    if existing.Some? && next.entry.fields == map[] {
      EmptyEntryStays(existing.value, disabled, lowerDisabled);
    }
  }

  /** What stands in the override file under a name, apart from `disabled`. */
  function RawRest(file: RawFile, name: string): map<Field, Value> {
    Rest(ExistingEntry(file, name))
  }

  predicate IsLast(file: RawFile, name: string) {
    name in Entries(file.servers) && Entries(file.servers)[name].Fields? && Entries(file.servers)[name].disabledLast
  }

  /**
   * Only the `disabled` of one server's entry is written: true to disable, false to enable when a lower source
   * is disabled, and none otherwise. No entry without properties is left that was not there before.
   */
  lemma OnlyDisabledIsWritten(stack: Stack, name: string, disabled: bool)
    requires PlainFile(stack.file) && Writes(stack, name, disabled)
    ensures var file, after := stack.file, WrittenOverride(stack, name, disabled).file;
      && after == file.(servers := after.servers)
      && (forall n :: n != name ==> Lookup(Entries(after.servers), n) == Lookup(Entries(file.servers), n))
      && RawRest(after, name) == RawRest(file, name)
      && DisabledOf(ExistingEntry(after, name)) ==
           (if disabled then Some(Bool(true))
            else if IsServerDisabled(LowerConfig(stack), name) then Some(Bool(false)) else None)
      && (ExistingEntry(after, name) == Some(NO_ENTRY) ==> ExistingEntry(file, name) == Some(NO_ENTRY))
  {
    StoredEntry(stack, name, disabled);
    var existing := Lookup(Entries(stack.file.servers), name);
    var next := NextRaw(existing, disabled, !disabled && IsServerDisabled(LowerConfig(stack), name));
    forall n | n != name
      ensures Lookup(Entries(After(stack, name, disabled).file.servers), n) == Lookup(Entries(stack.file.servers), n)
    {
      StoreAt(stack.file, name, existing, next, n);
    }
    assert Rest(Some(next.entry)) == RawRest(stack.file, name);
  }

  /**
   * A write reports a change exactly when the file is another, which is when `disabled` is not yet as it has to
   * be: an enabled entry that has to say so has it last.
   */
  lemma ChangedExactly(stack: Stack, name: string, disabled: bool)
    requires PlainFile(stack.file) && Writes(stack, name, disabled)
    ensures var written, before := WrittenOverride(stack, name, disabled), DisabledOf(ExistingEntry(stack.file, name));
      && (written.changed <==> written.file != stack.file)
      && (written.changed <==>
            if disabled then before != Some(Bool(true))
            else if IsServerDisabled(LowerConfig(stack), name) then
              before != Some(Bool(false)) || !IsLast(stack.file, name)
            else before.Some?)
  {
    var existing := Lookup(Entries(stack.file.servers), name);
    var lowerDisabled := !disabled && IsServerDisabled(LowerConfig(stack), name);
    var next := NextRaw(existing, disabled, lowerDisabled);
    StoreAt(stack.file, name, existing, next, name);
    SameEntry(existing, disabled, lowerDisabled);
  }

  lemma SameEntry(existing: Option<RawEntry>, disabled: bool, lowerDisabled: bool)
    requires existing.Some? ==> existing.value.Fields? && PlainRaw(existing.value)
    requires disabled ==> !lowerDisabled
    ensures var next := NextRaw(existing, disabled, lowerDisabled);
      (existing.None? && next.entry.fields == map[]) || existing == Some(next) <==>
      match existing
      case None => !disabled && !lowerDisabled
      case Some(raw) =>
        if disabled then DisabledOf(Some(raw.entry)) == Some(Bool(true))
        else if lowerDisabled then DisabledOf(Some(raw.entry)) == Some(Bool(false)) && raw.disabledLast
        else DisabledOf(Some(raw.entry)) == None
  {
    var entry := if existing.Some? then existing.value.entry else NO_ENTRY;
    var next := NextEntry(entry, disabled, lowerDisabled);
    if disabled || lowerDisabled {
      assert Disabled in next.fields;
      assert DisabledOf(Some(entry)) == DisabledOf(Some(next)) ==> entry.fields == next.fields;
    } else {
      assert Disabled !in next.fields;
      assert Disabled !in entry.fields ==> entry.fields == next.fields;
    }
  }

  lemma NextLoads(authAccepted: (Value, Value) -> bool, existing: Entry, disabled: bool, lowerDisabled: bool)
    ensures var next := NextEntry(existing, disabled, lowerDisabled);
      && Accepts(authAccepted, next) == Accepts(authAccepted, existing)
      && Rest(Some(Loaded(next))) == Rest(Some(Loaded(existing)))
      && DisabledOf(Some(Loaded(next))) ==
         if disabled then Some(Bool(true)) else if lowerDisabled then Some(Bool(false)) else None
  {
    var next := NextEntry(existing, disabled, lowerDisabled);
    assert Get(next, DESCRIPTION) == Get(existing, DESCRIPTION);
  }

  /** The `disabled` that a load then finds in the override file's own entry. */
  function WrittenDisabled(stack: Stack, name: string, disabled: bool): Option<Value> {
    if !Accepts(stack.authAccepted, EntryOrEmpty(ExistingEntry(stack.file, name))) then None
    else if disabled then Some(Bool(true))
    else if IsServerDisabled(LowerConfig(stack), name) then Some(Bool(false))
    else None
  }

  /** Writing changes the override file's entry of `name` in nothing but `disabled`, and no other entry. */
  lemma WrittenEntry(stack: Stack, name: string, disabled: bool)
    requires PlainStack(stack) && Writes(stack, name, disabled)
    ensures PlainStack(After(stack, name, disabled))
    ensures After(stack, name, disabled).file.imports == stack.file.imports
    ensures SameBut(LoadOwn(stack.authAccepted, stack.file.servers),
                    LoadOwn(stack.authAccepted, After(stack, name, disabled).file.servers), name)
    ensures DisabledAt(LoadOwn(stack.authAccepted, After(stack, name, disabled).file.servers), name) ==
            WrittenDisabled(stack, name, disabled)
  {
    var own := LoadOwn(stack.authAccepted, stack.file.servers);
    var own' := LoadOwn(stack.authAccepted, After(stack, name, disabled).file.servers);
    StoredPlain(stack, name, disabled);
    forall n
      ensures Rest(Lookup(own, n)) == Rest(Lookup(own', n))
      ensures n != name ==> DisabledAt(own, n) == DisabledAt(own', n)
    {
      WrittenEntryAt(stack, name, disabled, n);
    }
    WrittenEntryAt(stack, name, disabled, name);
  }

  lemma WrittenEntryAt(stack: Stack, name: string, disabled: bool, n: string)
    requires PlainFile(stack.file) && Writes(stack, name, disabled)
    ensures var own := LoadOwn(stack.authAccepted, stack.file.servers);
      var own' := LoadOwn(stack.authAccepted, After(stack, name, disabled).file.servers);
      && Rest(Lookup(own, n)) == Rest(Lookup(own', n))
      && (n != name ==> DisabledAt(own, n) == DisabledAt(own', n))
      && (n == name ==> DisabledAt(own', n) == WrittenDisabled(stack, name, disabled))
  {
    StoredEntry(stack, name, disabled);
    LoadOwnAt(stack.authAccepted, stack.file, n);
    LoadOwnAt(stack.authAccepted, After(stack, name, disabled).file, n);
    if n == name {
      WrittenLoads(stack, name, disabled, ExistingEntry(After(stack, name, disabled).file, name));
    }
  }

  lemma WrittenLoads(stack: Stack, name: string, disabled: bool, stored: Option<Entry>)
    requires stored == if LeavesEntry(stack, name, disabled) then Some(Next(stack, name, disabled)) else None
    requires !LeavesEntry(stack, name, disabled) ==> Next(stack, name, disabled).fields == map[]
    ensures var loaded, before := LoadEntry(stack.authAccepted, stored), LoadEntry(stack.authAccepted, ExistingEntry(stack.file, name));
      Rest(loaded) == Rest(before) && DisabledOf(loaded) == WrittenDisabled(stack, name, disabled)
  {
    NextLoads(stack.authAccepted, EntryOrEmpty(ExistingEntry(stack.file, name)), disabled,
              !disabled && IsServerDisabled(LowerConfig(stack), name));
  }

  lemma IgnoredEntry(stack: Stack, name: string)
    requires !Accepts(stack.authAccepted, EntryOrEmpty(ExistingEntry(stack.file, name)))
    ensures DisabledAt(LoadOwn(stack.authAccepted, stack.file.servers), name) == None
  {
  }

  /** When the requested state is what the merged files give after the write. */
  predicate MergeReaches(stack: Stack, name: string, disabled: bool) {
    match LastDisabled(stack.later, name)
    case Some(v) => (v == Bool(true)) == disabled
    case None =>
      if !Reads(stack) || !Accepts(stack.authAccepted, EntryOrEmpty(ExistingEntry(stack.file, name))) then
        IsServerDisabled(Merged(stack), name) == disabled
      else
        disabled || DisabledAt(LowerConfig(stack), name).Some? || DisabledAt(stack.host, name) != Some(Bool(true))
  }

  /** What the values of `disabled` in the parts of a stack come to after the write. */
  lemma ReachesByValues(late: Option<Value>, own: Option<Value>, own': Option<Value>, imports: Option<Value>,
                        below: Option<Value>, belowWritten: Option<Value>, host: Option<Value>, disabled: bool,
                        read: bool, accepted: bool)
    requires own' ==
             if !accepted then None
             else if disabled then Some(Bool(true))
             else if Or(imports, Or(late, belowWritten)) == Some(Bool(true)) then Some(Bool(false))
             else None
    requires !accepted ==> own == None
    requires belowWritten != Some(Bool(true)) ==> below == belowWritten
    ensures var before := DisabledFrom(late, read, own, imports, below, host);
      var after := DisabledFrom(late, read, own', imports, below, host);
      (after == Some(Bool(true))) == disabled <==>
      if late.Some? then (late.value == Bool(true)) == disabled
      else if !read || !accepted then (before == Some(Bool(true))) == disabled
      else disabled || Or(imports, Or(late, belowWritten)).Some? || host != Some(Bool(true))
  {
  }

  /** The parts of `DisabledOfMerged`, one value each. */
  function DisabledFrom(late: Option<Value>, read: bool, own: Option<Value>, imports: Option<Value>,
                        below: Option<Value>, host: Option<Value>): Option<Value> {
    Or(late, Or(if read then Or(own, imports) else None, Or(below, host)))
  }

  lemma MergedAfter(stack: Stack, name: string, disabled: bool)
    requires PlainStack(stack) && Writes(stack, name, disabled)
    ensures var after := After(stack, name, disabled);
      && Reads(after) == Reads(stack)
      && DisabledAt(Merged(after), name) ==
           DisabledFrom(LastDisabled(stack.later, name), Reads(stack),
                        DisabledAt(LoadOwn(stack.authAccepted, after.file.servers), name),
                        DisabledAt(FirstWins(stack.file.imports), name), LastDisabled(stack.lower, name),
                        DisabledAt(stack.host, name))
  {
    StoredPlain(stack, name, disabled);
    DisabledOfMerged(After(stack, name, disabled), name);
  }

  lemma MergedOverride(stack: Stack, name: string, disabled: bool)
    requires PlainStack(stack) && Writes(stack, name, disabled)
    ensures IsServerDisabled(Merged(After(stack, name, disabled)), name) == disabled <==> MergeReaches(stack, name, disabled)
  {
    var after := After(stack, name, disabled);
    var accepts := Accepts(stack.authAccepted, EntryOrEmpty(ExistingEntry(stack.file, name)));
    var late, host := LastDisabled(stack.later, name), DisabledAt(stack.host, name);
    var own := DisabledAt(LoadOwn(stack.authAccepted, stack.file.servers), name);
    var own' := DisabledAt(LoadOwn(stack.authAccepted, after.file.servers), name);
    var imports := DisabledAt(FirstWins(stack.file.imports), name);
    var below, belowWritten := LastDisabled(stack.lower, name), LastWritten(stack.lower, name);
    WrittenEntry(stack, name, disabled);
    DisabledOfMerged(stack, name);
    MergedAfter(stack, name, disabled);
    DisabledOfLowerConfig(stack, name);
    LayersSeenAlike(stack.lower, name);
    LayersSeenAlike(stack.later, name);
    if !accepts {
      IgnoredEntry(stack, name);
    }
    assert DisabledAt(LowerConfig(stack), name) == Or(imports, Or(late, belowWritten));
    ReachesByValues(late, own, own', imports, below, belowWritten, host, disabled, Reads(stack), accepts);
  }

  /** Writing the same override again changes nothing. */
  lemma SecondWriteChangesNothing(stack: Stack, name: string, disabled: bool)
    requires PlainStack(stack) && Writes(stack, name, disabled)
    ensures !WrittenOverride(After(stack, name, disabled), name, disabled).changed
  {
    var after := After(stack, name, disabled);
    StoredPlain(stack, name, disabled);
    StoredEntry(stack, name, disabled);
    assert LowerConfig(after) == LowerConfig(stack);
    var lowerDisabled := !disabled && IsServerDisabled(LowerConfig(stack), name);
    NextTwice(EntryOrEmpty(ExistingEntry(stack.file, name)), disabled, lowerDisabled);
  }

  lemma NextTwice(existing: Entry, disabled: bool, lowerDisabled: bool)
    ensures var next := NextEntry(existing, disabled, lowerDisabled);
      NextEntry(next, disabled, lowerDisabled) == next
    ensures NextEntry(existing, disabled, lowerDisabled).fields == map[] ==>
              NextEntry(NO_ENTRY, disabled, lowerDisabled).fields == map[]
  {
  }

  // ----- Everything else stays -----

  lemma SameButMerge(a: Servers, b: Servers, next: Servers, next': Servers, name: string)
    requires PlainServers(a) && PlainServers(b) && PlainServers(next) && PlainServers(next')
    requires SameBut(a, b, name) && SameBut(next, next', name)
    ensures SameBut(MergeMaps(a, next), MergeMaps(b, next'), name)
  {
    forall n
      ensures Rest(Lookup(MergeMaps(a, next), n)) == Rest(Lookup(MergeMaps(b, next'), n))
      ensures n != name ==> DisabledAt(MergeMaps(a, next), n) == DisabledAt(MergeMaps(b, next'), n)
    {
      MergeAt(a, next, n);
      MergeAt(b, next', n);
      MergeRest(Lookup(a, n), Lookup(next, n), Lookup(b, n), Lookup(next', n));
      MergeParts(Lookup(a, n), Lookup(next, n));
      MergeParts(Lookup(b, n), Lookup(next', n));
    }
  }

  lemma {:induction false} SameButLayers(a: Servers, b: Servers, layers: seq<Layer>, name: string)
    requires PlainServers(a) && PlainServers(b) && SameBut(a, b, name)
    requires forall k :: 0 <= k < |layers| ==> PlainLayer(layers[k])
    ensures SameBut(MergeLayers(a, layers), MergeLayers(b, layers), name)
  {
    if layers != [] {
      var n := |layers| - 1;
      var layer := layers[n];
      assert PlainLayer(layer);
      SameButLayers(a, b, layers[..n], name);
      DisabledOfLayers(a, layers[..n], name);
      DisabledOfLayers(b, layers[..n], name);
      DisabledOfExpand(layer.imports, layer.own - layer.hidden, name);
      SameButMerge(MergeLayers(a, layers[..n]), MergeLayers(b, layers[..n]), LoadLayer(layer), LoadLayer(layer), name);
    }
  }

  lemma FileTouchesNothingElse(stack: Stack, name: string, disabled: bool)
    requires PlainStack(stack) && Writes(stack, name, disabled)
    ensures var file := LoadFile(stack.authAccepted, stack.file);
      var file' := LoadFile(stack.authAccepted, After(stack, name, disabled).file);
      PlainServers(file) && PlainServers(file') && SameBut(file, file', name)
  {
    var after := After(stack, name, disabled);
    WrittenEntry(stack, name, disabled);
    var own, own' := LoadOwn(stack.authAccepted, stack.file.servers), LoadOwn(stack.authAccepted, after.file.servers);
    var imports := FirstWins(stack.file.imports);
    PlainOwn(stack.authAccepted, stack.file);
    PlainOwn(stack.authAccepted, after.file);
    PlainImports(stack.file.imports);
    SameButMerge(imports, imports, own, own', name);
    DisabledOfExpand(stack.file.imports, own, name);
    DisabledOfExpand(stack.file.imports, own', name);
  }

  /** The write leaves every other property of every server's merged entry as it was. */
  lemma MergedTouchesNothingElse(stack: Stack, name: string, disabled: bool)
    requires PlainStack(stack) && Writes(stack, name, disabled)
    ensures SameBut(Merged(stack), Merged(After(stack, name, disabled)), name)
  {
    var after := After(stack, name, disabled);
    var below := MergeLayers(stack.host, stack.lower);
    DisabledOfLayers(stack.host, stack.lower, name);
    FileTouchesNothingElse(stack, name, disabled);
    var file, file' := LoadFile(stack.authAccepted, stack.file), LoadFile(stack.authAccepted, after.file);
    SameButMerge(below, below, file, file', name);
    PlainMerge(below, file);
    PlainMerge(below, file');
    if Reads(stack) {
      SameButLayers(MergeMaps(below, file), MergeMaps(below, file'), stack.later, name);
    }
  }

  // ----- What a reload gives -----

  /** The names that project config gives apart from the override file's own servers. */
  function OtherProjectNames(stack: Stack): set<string> {
    stack.hostProject + LayersProjectNames(stack.lower) + LayersProjectNames(stack.later)
    + (if Reads(stack) then
         ProjectNamesIn(FirstWins(stack.file.imports), stack.project, stack.file.imports, stack.file.projectImports)
       else {})
  }

  lemma ProjectNamesSplit(stack: Stack, name: string)
    ensures name in ProjectNames(stack) <==> name in OtherProjectNames(stack) || OwnProjectName(stack, name)
  {
  }

  /** The override file is a project's and has a server of its own by this name. */
  predicate OwnProjectName(stack: Stack, name: string) {
    Reads(stack) && stack.project && name in LoadOwn(stack.authAccepted, stack.file.servers)
  }

  lemma OtherNamesStay(stack: Stack, name: string, disabled: bool)
    ensures OtherProjectNames(After(stack, name, disabled)) == OtherProjectNames(stack)
  {
  }

  lemma OwnProjectNameAfter(stack: Stack, name: string, disabled: bool, n: string)
    requires PlainStack(stack) && Writes(stack, name, disabled)
    ensures OwnProjectName(After(stack, name, disabled), n) ==
            if n == name then Reads(stack) && stack.project && GivesAfter(stack, name, disabled)
            else OwnProjectName(stack, n)
  {
    OwnNamesAfter(stack, name, disabled, n);
  }

  /** The override file's own servers name `name` after the write, in a load. */
  predicate GivesAfter(stack: Stack, name: string, disabled: bool) {
    Accepts(stack.authAccepted, EntryOrEmpty(ExistingEntry(stack.file, name))) && LeavesEntry(stack, name, disabled)
  }

  lemma OwnNamesAfter(stack: Stack, name: string, disabled: bool, n: string)
    requires PlainStack(stack) && Writes(stack, name, disabled)
    ensures n in LoadOwn(stack.authAccepted, After(stack, name, disabled).file.servers) <==>
            if n == name then GivesAfter(stack, name, disabled) else n in LoadOwn(stack.authAccepted, stack.file.servers)
  {
    StoredEntry(stack, name, disabled);
    LoadOwnAt(stack.authAccepted, stack.file, n);
    LoadOwnAt(stack.authAccepted, After(stack, name, disabled).file, n);
    NextLoads(stack.authAccepted, EntryOrEmpty(ExistingEntry(stack.file, name)), disabled,
              !disabled && IsServerDisabled(LowerConfig(stack), name));
  }

  /** A load leaves the server out for its provider auth. */
  predicate LeftOut(stack: Stack, name: string) {
    name in ProjectNames(stack) && HasProviderAuth(Merged(stack), name)
  }

  /** From the stack before the write: a load after it leaves the server out. */
  predicate LeftOutAfter(stack: Stack, name: string, disabled: bool) {
    && HasProviderAuth(Merged(stack), name)
    && (name in OtherProjectNames(stack) || (Reads(stack) && stack.project && GivesAfter(stack, name, disabled)))
  }

  lemma SameProviderAuth(a: Servers, b: Servers, name: string, n: string)
    requires SameBut(a, b, name)
    ensures HasProviderAuth(a, n) == HasProviderAuth(b, n)
  {
    RestGivesFields(Lookup(a, n), Lookup(b, n), Auth);
  }

  lemma ProjectNamesAfter(stack: Stack, name: string, disabled: bool, n: string)
    requires PlainStack(stack) && Writes(stack, name, disabled)
    ensures n in ProjectNames(After(stack, name, disabled)) <==>
            if n != name then n in ProjectNames(stack)
            else n in OtherProjectNames(stack) || (Reads(stack) && stack.project && GivesAfter(stack, name, disabled))
  {
    var after := After(stack, name, disabled);
    ProjectNamesSplit(stack, n);
    ProjectNamesSplit(after, n);
    OwnProjectNameAfter(stack, name, disabled, n);
    OtherNamesStay(stack, name, disabled);
  }

  lemma LeftOutAlike(stack: Stack, name: string, disabled: bool, n: string)
    requires PlainStack(stack) && Writes(stack, name, disabled)
    ensures LeftOut(After(stack, name, disabled), n) ==
            if n == name then LeftOutAfter(stack, name, disabled) else LeftOut(stack, n)
  {
    MergedTouchesNothingElse(stack, name, disabled);
    SameProviderAuth(Merged(stack), Merged(After(stack, name, disabled)), name, n);
    ProjectNamesAfter(stack, name, disabled, n);
  }

  lemma ReloadAt(stack: Stack, n: string)
    ensures Lookup(Reload(stack), n) == if LeftOut(stack, n) then None else Lookup(Merged(stack), n)
  {
  }

  /** When the requested state is what a reload after the write gives. A server that is left out is not disabled. */
  predicate Reaches(stack: Stack, name: string, disabled: bool) {
    if LeftOutAfter(stack, name, disabled) then !disabled else MergeReaches(stack, name, disabled)
  }

  /**
   * After the write a reload gives the requested state exactly when `Reaches` says so: a disabled server is not
   * left out for its provider auth, no later source sets `disabled` otherwise, the file is a source whose entry
   * loads, and an enable does not have to undo a discovered host config that no other source speaks about.
   */
  lemma OverrideReaches(stack: Stack, name: string, disabled: bool)
    requires PlainStack(stack) && Writes(stack, name, disabled)
    ensures IsServerDisabled(Reload(After(stack, name, disabled)), name) == disabled <==> Reaches(stack, name, disabled)
  {
    MergedOverride(stack, name, disabled);
    LeftOutAlike(stack, name, disabled, name);
    ReloadAt(After(stack, name, disabled), name);
  }

  lemma ReloadSameAt(stack: Stack, name: string, disabled: bool, n: string)
    requires PlainStack(stack) && Writes(stack, name, disabled)
    requires n == name ==> (LeftOut(stack, name) <==> LeftOutAfter(stack, name, disabled))
    ensures Rest(Lookup(Reload(stack), n)) == Rest(Lookup(Reload(After(stack, name, disabled)), n))
    ensures n != name ==> DisabledAt(Reload(stack), n) == DisabledAt(Reload(After(stack, name, disabled)), n)
  {
    MergedTouchesNothingElse(stack, name, disabled);
    LeftOutAlike(stack, name, disabled, n);
    ReloadAt(stack, n);
    ReloadAt(After(stack, name, disabled), n);
  }

  lemma ReloadDiffersAt(stack: Stack, name: string, disabled: bool)
    requires PlainStack(stack) && Writes(stack, name, disabled)
    requires LeftOut(stack, name) != LeftOutAfter(stack, name, disabled)
    ensures Rest(Lookup(Reload(stack), name)) != Rest(Lookup(Reload(After(stack, name, disabled)), name))
  {
    var after := After(stack, name, disabled);
    MergedTouchesNothingElse(stack, name, disabled);
    SameProviderAuth(Merged(stack), Merged(after), name, name);
    LeftOutAlike(stack, name, disabled, name);
    ReloadAt(stack, name);
    ReloadAt(after, name);
    ProviderAuthShows(Merged(stack), name);
    ProviderAuthShows(Merged(after), name);
  }

  /**
   * The write leaves every other property of every server as it was exactly when it does not change whether the
   * server is left out for its provider auth.
   */
  lemma OverrideTouchesNothingElse(stack: Stack, name: string, disabled: bool)
    requires PlainStack(stack) && Writes(stack, name, disabled)
    ensures SameBut(Reload(stack), Reload(After(stack, name, disabled)), name) <==>
            (LeftOut(stack, name) <==> LeftOutAfter(stack, name, disabled))
  {
    if LeftOut(stack, name) == LeftOutAfter(stack, name, disabled) {
      forall n
        ensures Rest(Lookup(Reload(stack), n)) == Rest(Lookup(Reload(After(stack, name, disabled)), n))
        ensures n != name ==> DisabledAt(Reload(stack), n) == DisabledAt(Reload(After(stack, name, disabled)), n)
      {
        ReloadSameAt(stack, name, disabled, n);
      }
    } else {
      ReloadDiffersAt(stack, name, disabled);
    }
  }

  lemma ProviderAuthShows(servers: Servers, name: string)
    ensures HasProviderAuth(servers, name) ==> Auth in Rest(Lookup(servers, name))
  {
  }

  /** A load reads the entry that the write changes. */
  predicate ReadsEntry(stack: Stack, name: string) {
    Reads(stack) && Accepts(stack.authAccepted, EntryOrEmpty(ExistingEntry(stack.file, name)))
  }

  /** A write that no load reads changes nothing that a load gives. */
  lemma UnreadWriteChangesNothing(stack: Stack, name: string, disabled: bool)
    requires PlainStack(stack) && Writes(stack, name, disabled) && !ReadsEntry(stack, name)
    ensures Reload(After(stack, name, disabled)) == Reload(stack)
  {
    if Reads(stack) {
      UnreadEntry(stack, name, disabled);
    }
    SameReload(stack, After(stack, name, disabled));
  }

  /** A load sees of the override file only its imports and its own servers, and those only if it reads the file. */
  lemma SameReload(a: Stack, b: Stack)
    requires b == a.(file := a.file.(servers := b.file.servers))
    requires Reads(a) ==> LoadOwn(a.authAccepted, a.file.servers) == LoadOwn(b.authAccepted, b.file.servers)
    ensures Reload(a) == Reload(b)
  {
    assert Merged(a) == Merged(b);
    assert FileProjectNames(a) == FileProjectNames(b);
  }

  lemma UnreadEntry(stack: Stack, name: string, disabled: bool)
    requires PlainStack(stack) && Writes(stack, name, disabled)
    requires !Accepts(stack.authAccepted, EntryOrEmpty(ExistingEntry(stack.file, name)))
    ensures LoadOwn(stack.authAccepted, After(stack, name, disabled).file.servers) ==
            LoadOwn(stack.authAccepted, stack.file.servers)
  {
    var own, own' :=
      LoadOwn(stack.authAccepted, stack.file.servers), LoadOwn(stack.authAccepted, After(stack, name, disabled).file.servers);
    StoredEntry(stack, name, disabled);
    NextLoads(stack.authAccepted, EntryOrEmpty(ExistingEntry(stack.file, name)), disabled,
              !disabled && IsServerDisabled(LowerConfig(stack), name));
    forall n
      ensures Lookup(own', n) == Lookup(own, n)
    {
      LoadOwnAt(stack.authAccepted, stack.file, n);
      LoadOwnAt(stack.authAccepted, After(stack, name, disabled).file, n);
    }
    SameLookups(own', own);
  }

  lemma SameLookups(a: Servers, b: Servers)
    requires forall n :: Lookup(a, n) == Lookup(b, n)
    ensures a == b
  {
    assert forall n :: n in a <==> Lookup(a, n).Some?;
    assert forall n :: n in b <==> Lookup(b, n).Some?;
    forall n | n in a
      ensures n in b && a[n] == b[n]
    {
      assert Lookup(a, n) == Lookup(b, n);
    }
  }

  /**
   * In the usual stack, without discovered hosts and with a project override file last, every write that a load
   * reads gives the requested state but the disable of a server with provider auth, which it takes away instead.
   * One that no load reads gives it exactly when it was there before.
   */
  lemma UsualOverrideWorks(stack: Stack, name: string, disabled: bool)
    requires PlainStack(stack) && Writes(stack, name, disabled)
    requires stack.listed && stack.project && stack.later == [] && stack.host == map[]
    ensures IsServerDisabled(Reload(After(stack, name, disabled)), name) == disabled <==>
            if ReadsEntry(stack, name) then !(disabled && HasProviderAuth(Merged(stack), name))
            else IsServerDisabled(Reload(stack), name) == disabled
  {
    if ReadsEntry(stack, name) {
      UsualMergeReaches(stack, name, disabled);
      OverrideReaches(stack, name, disabled);
    } else {
      UnreadWriteChangesNothing(stack, name, disabled);
    }
  }

  lemma UsualMergeReaches(stack: Stack, name: string, disabled: bool)
    requires ReadsEntry(stack, name) && stack.later == [] && stack.host == map[]
    ensures MergeReaches(stack, name, disabled)
    ensures disabled ==> GivesAfter(stack, name, disabled)
  {
    assert disabled ==> Disabled in Next(stack, name, disabled).fields;
  }

  // ----- Where the override does not do what it promises -----

  /** A server that only a discovered host config disables stays disabled when it is enabled. */
  lemma HostDisabledStays(name: string)
    ensures var host: Servers := map[name := Entry(map[Command := Text("run"), Disabled := Bool(true)], {})];
      var stack := Stack(host, {}, [], true, true, RawFile(NoServers, true, [], {}, true, true), [], (_, _) => true);
      && PlainStack(stack) && Writes(stack, name, false)
      && IsServerDisabled(Reload(After(stack, name, false)), name)
  {
    var host: Servers := map[name := Entry(map[Command := Text("run"), Disabled := Bool(true)], {})];
    var stack := Stack(host, {}, [], true, true, RawFile(NoServers, true, [], {}, true, true), [], (_, _) => true);
    OverrideReaches(stack, name, false);
    DisabledOfLowerConfig(stack, name);
  }

  /** A user-global file with one server that takes its token from a provider, and an empty project override. */
  function ProviderStack(name: string, url: string, auth: string): Stack {
    var server := Entry(map[Url := Text(url), Auth := Object(auth)], {});
    Stack(map[], {}, [Layer([], map[name := server], {}, false, {})], true, true, RawFile(NoServers, true, [], {}, true, true), [],
          (_, _) => true)
  }

  lemma ProviderServerLoads(name: string, url: string, auth: string)
    ensures var stack := ProviderStack(name, url, auth);
      && PlainStack(stack) && Writes(stack, name, true)
      && name in Merged(stack) && Get(Merged(stack)[name], Url) == Text(url) && HasProviderAuth(Merged(stack), name)
      && name !in OtherProjectNames(stack) && ExistingEntry(stack.file, name) == None
  {
    var stack := ProviderStack(name, url, auth);
    assert stack.lower[..0] == [];
    assert PlainLayer(stack.lower[0]);
  }

  /** Disabling that server takes it away altogether: it is there before the write, and gone after it. */
  lemma DisabledProviderServerIsGone(name: string, url: string, auth: string)
    ensures var stack := ProviderStack(name, url, auth);
      && PlainStack(stack) && Writes(stack, name, true)
      && name in Reload(stack) && Get(Reload(stack)[name], Url) == Text(url)
      && name !in Reload(After(stack, name, true))
  {
    var stack := ProviderStack(name, url, auth);
    ProviderServerLoads(name, url, auth);
    LeftOutAlike(stack, name, true, name);
    ProjectNamesSplit(stack, name);
    ReloadAt(stack, name);
    ReloadAt(After(stack, name, true), name);
  }

  /** A shared file with one server, and an override file whose settings a load refuses. */
  function RefusedStack(name: string): Stack {
    Stack(map[], {}, [Layer([], map[name := Entry(map[Command := Text("run")], {})], {}, false, {})], true, true,
          RawFile(NoServers, true, [], {}, true, false), [], (_, _) => true)
  }

  lemma RefusedFileLoads(name: string)
    ensures var stack := RefusedStack(name);
      && PlainStack(stack) && !Reads(stack)
      && name in Merged(stack) && Disabled !in Merged(stack)[name].fields && !HasProviderAuth(Merged(stack), name)
  {
    var stack := RefusedStack(name);
    assert stack.lower[..0] == [];
    var layer := stack.lower[0];
    assert PlainLayer(layer);
    assert layer.own - layer.hidden == layer.own && LoadLayer(layer) == layer.own;
    assert MergeLayers(stack.host, stack.lower[..0]) == map[];
    assert MergeLayers(stack.host, stack.lower) == MergeMaps(map[], layer.own);
    MergeAt(map[], layer.own, name);
  }

  /** Disabling that server is accepted and reported as a change, and the server stays enabled. */
  lemma RefusedFileIsWritten(name: string)
    ensures var stack := RefusedStack(name);
      && PlainStack(stack) && Writes(stack, name, true) && WrittenOverride(stack, name, true).changed
      && name in Reload(After(stack, name, true)) && !IsServerDisabled(Reload(After(stack, name, true)), name)
  {
    var stack := RefusedStack(name);
    RefusedFileLoads(name);
    UnreadWriteChangesNothing(stack, name, true);
    ReloadAt(stack, name);
    assert Disabled in Next(stack, name, true).fields;
  }
}
