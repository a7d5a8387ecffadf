/** Server entries and the per-field merge of `mergeServerMaps`. */
module ServerEntries {
  import opened Wrappers

  /** The properties the merge treats by name; every other one is an `Extra`. */
  datatype Field =
    | Command | Args | Env | Cwd | PluginDataDir | LiteralEnv | InheritEnv
    | Url | HttpTransport | Socket
    | Headers | BearerToken | BearerTokenEnv | BearerTokenStore | RequestHeadersCommand | CaFile
    | Auth | OAuth
    | Disabled
    | Extra(name: string)

  /** A parsed configuration value. `Object` is every value JavaScript calls an object: null, arrays and records. */
  datatype Value = Undefined | Bool(flag: bool) | Number(number: int) | Text(text: string) | Object(json: string)

  /** An entry's own properties, and the fields whose values an Agent Plugin marked as literal. */
  datatype Entry = Entry(fields: map<Field, Value>, literal: set<Field>)

  const NO_ENTRY := Entry(map[], {})

  /** A property read: a missing property is undefined. */
  function Get(entry: Entry, field: Field): Value {
    if field in entry.fields then entry.fields[field] else Undefined
  }

  const URL_BOUND_AUTH_FIELDS: set<Field> :=
    {Headers, BearerToken, BearerTokenEnv, BearerTokenStore, RequestHeadersCommand, CaFile}
  const CREDENTIAL_FIELDS: set<Field> := URL_BOUND_AUTH_FIELDS + {Auth, OAuth}
  const LITERAL_PLUGIN_FIELDS: set<Field> := {Args, Env, Cwd, Headers}

  /** What a layer that sets a command, a url or a socket deletes from the entry below it. */
  const COMMAND_CLEARS: set<Field> :=
    {Url, Headers, RequestHeadersCommand, CaFile, Auth, BearerToken,
     BearerTokenEnv, BearerTokenStore, OAuth, HttpTransport, Socket}
  const URL_CLEARS: set<Field> :=
    {Command, Args, Env, Cwd, PluginDataDir, LiteralEnv, InheritEnv, Socket}
  const SOCKET_CLEARS: set<Field> :=
    {Command, Args, Env, Cwd, PluginDataDir, LiteralEnv, InheritEnv, Url,
     Headers, RequestHeadersCommand, CaFile, Auth, BearerToken, BearerTokenEnv,
     BearerTokenStore, OAuth, HttpTransport}

  /** A credential that belongs to the url it was set for. */
  predicate UrlBound(field: Field, value: Value) {
    if field == Auth then value.Object?
    else if field == OAuth then value != Undefined && value != Bool(false)
    else field in URL_BOUND_AUTH_FIELDS && value != Undefined
  }

  predicate Rebinds(existing: Entry, definition: Entry) {
    Get(definition, Url).Text? && Get(definition, Url) != Get(existing, Url)
  }

  /** The credential fields of `existing` that a different url in `definition` drops. */
  function DroppedUrlBoundAuth(existing: Entry, definition: Entry): set<Field> {
    if !Rebinds(existing, definition) then {}
    else set f | f in CREDENTIAL_FIELDS && f !in definition.fields && UrlBound(f, Get(existing, f))
  }

  function TransportClears(definition: Entry): set<Field> {
    if Get(definition, Command).Text? then COMMAND_CLEARS
    else if Get(definition, Url).Text? then URL_CLEARS
    else if Get(definition, Socket).Text? then SOCKET_CLEARS
    else {}
  }

  predicate UnmarksEnv(existing: Entry, definition: Entry) {
    Env in definition.fields && Env in existing.literal && LiteralEnv !in definition.fields
  }

  /** `definition` takes `field` away from `existing` rather than leaving it to be inherited. */
  predicate Removes(existing: Entry, definition: Entry, field: Field) {
    || field in TransportClears(definition)
    || field in DroppedUrlBoundAuth(existing, definition)
    || (field == LiteralEnv && UnmarksEnv(existing, definition))
  }

  /** What `definition` inherits from `existing`. */
  function Inherited(existing: Entry, definition: Entry): Entry {
    existing.(fields := map f | f in existing.fields && !Removes(existing, definition, f) :: existing.fields[f])
  }

  /** `mergeBuiltInAgentPluginEntries`: the later entry's properties win, and a literal mark follows its value. */
  function Spread(base: Entry, next: Entry): Entry {
    var fields := base.fields + next.fields;
    Entry(fields, set f | f in LITERAL_PLUGIN_FIELDS && f in fields &&
                          f in (if f in next.fields then next.literal else base.literal))
  }

  function MergeEntry(existing: Option<Entry>, definition: Entry): Entry {
    match existing
    case None => Spread(NO_ENTRY, definition)
    case Some(e) => Spread(Inherited(e, definition), definition)
  }

  /** A merged field is the layer's own, else the inherited one unless the layer removes it. */
  lemma MergedField(existing: Entry, definition: Entry, field: Field)
    ensures Get(MergeEntry(Some(existing), definition), field) ==
            if field in definition.fields then Get(definition, field)
            else if Removes(existing, definition, field) then Undefined
            else Get(existing, field)
    ensures field in MergeEntry(Some(existing), definition).fields <==>
            field in definition.fields || (field in existing.fields && !Removes(existing, definition, field))
  {
  }

  /** How an entry reaches its server. */
  datatype Transport = Process | Http | OverSocket

  /** The transport that a field configures, if it belongs to one. */
  function TransportOf(field: Field): Option<Transport> {
    match field
    case Command | Args | Env | Cwd | PluginDataDir | LiteralEnv | InheritEnv => Some(Process)
    case Url | HttpTransport | Headers | BearerToken | BearerTokenEnv | BearerTokenStore | RequestHeadersCommand => Some(Http)
    case CaFile | Auth | OAuth => Some(Http)
    case Socket => Some(OverSocket)
    case Disabled | Extra(_) => None
  }

  /** The transport that an entry chooses: a string command comes before a string url, and that before a string socket. */
  function Chosen(entry: Entry): Option<Transport> {
    match (Get(entry, Command), Get(entry, Url), Get(entry, Socket))
    case (Text(_), _, _) => Some(Process)
    case (_, Text(_), _) => Some(Http)
    case (_, _, Text(_)) => Some(OverSocket)
    case _ => None
  }

  /** `definition` chooses a transport, and `field` configures another. */
  predicate SwitchesFrom(definition: Entry, field: Field) {
    Chosen(definition).Some? && TransportOf(field).Some? && Chosen(definition) != TransportOf(field)
  }

  /** A layer's transport clears exactly the fields that configure the other two. */
  lemma ClearsOtherTransports(definition: Entry, field: Field)
    ensures field in TransportClears(definition) <==> SwitchesFrom(definition, field)
  {
  }

  /** A value sent to the server of a url: a header, token, certificate or provider, but not the name of a scheme. */
  predicate IsCredential(field: Field, value: Value) {
    match field
    case Headers | BearerToken | BearerTokenEnv | BearerTokenStore | RequestHeadersCommand | CaFile => !value.Undefined?
    case Auth => value.Object?
    case OAuth => !value.Undefined? && !(value.Bool? && !value.flag)
    case _ => false
  }

  lemma CredentialExactly(field: Field, value: Value)
    ensures IsCredential(field, value) <==> field in CREDENTIAL_FIELDS && UrlBound(field, value)
  {
  }

  function Lookup<T>(m: map<string, T>, name: string): Option<T> {
    if name in m then Some(m[name]) else None
  }

  method DeleteFields(entry: Entry, fields: set<Field>) returns (left: Entry)
    ensures left == entry.(fields := entry.fields - fields)
  {
    left := entry;
    var rest := fields;
    while rest != {}
      invariant rest <= fields && left == entry.(fields := entry.fields - (fields - rest))
      decreases |rest|
    {
      var field :| field in rest;
      rest := rest - {field};
      left := left.(fields := left.fields - {field});
    }
  }

  /** The field is deleted if it configures another transport, is a credential of another url, or an unmarked `literalEnv`. */
  predicate Clears(existing: Entry, definition: Entry, left: Entry, f: Field) {
    f in left.fields <==>
    && f in existing.fields && !SwitchesFrom(definition, f)
    && !(Rebinds(existing, definition) && f !in definition.fields && IsCredential(f, existing.fields[f]))
    && !(f == LiteralEnv && UnmarksEnv(existing, definition))
  }

  lemma ClearsExactly(existing: Entry, definition: Entry, f: Field)
    ensures Clears(existing, definition, Inherited(existing, definition), f)
  {
    ClearsOtherTransports(definition, f);
    CredentialExactly(f, Get(existing, f));
  }

  /** The deletions one layer makes in the entry below it. */
  method ClearInherited(existing: Entry, definition: Entry) returns (baseEntry: Entry)
    ensures baseEntry == Inherited(existing, definition)
    ensures forall f :: Clears(existing, definition, baseEntry, f)
  {
    baseEntry := existing;
    if Get(definition, Command).Text? {
      baseEntry := DeleteFields(baseEntry, COMMAND_CLEARS);
    } else if Get(definition, Url).Text? {
      baseEntry := DeleteFields(baseEntry, URL_CLEARS);
    } else if Get(definition, Socket).Text? {
      baseEntry := DeleteFields(baseEntry, SOCKET_CLEARS);
    }
    assert baseEntry.fields == existing.fields - TransportClears(definition);
    if Rebinds(existing, definition) {
      baseEntry := DeleteFields(baseEntry, DroppedUrlBoundAuth(existing, definition));
    }
    if Env in definition.fields && Env in existing.literal && LiteralEnv !in definition.fields {
      baseEntry := DeleteFields(baseEntry, {LiteralEnv});
    }
    assert baseEntry.fields == Inherited(existing, definition).fields;
    forall f
      ensures Clears(existing, definition, baseEntry, f)
    {
      ClearsExactly(existing, definition, f);
    }
  }

  /** Every entry of `next` merged into the entry of its name. */
  function MergeMaps(base: map<string, Entry>, next: map<string, Entry>): map<string, Entry> {
    map name | name in base.Keys + next.Keys ::
      if name in next then MergeEntry(Lookup(base, name), next[name]) else base[name]
  }

  method MergeDefinition(existing: Option<Entry>, definition: Entry) returns (merged: Entry)
    ensures merged == MergeEntry(existing, definition)
  {
    var baseEntry := NO_ENTRY;
    if existing.Some? {
      baseEntry := ClearInherited(existing.value, definition);
    }
    merged := Spread(baseEntry, definition);
  }

  lemma MergeMapsStep(base: map<string, Entry>, next: map<string, Entry>, names: set<string>, name: string)
    requires name in names && names <= next.Keys
    ensures Lookup(MergeMaps(base, next - names), name) == Lookup(base, name)
    ensures MergeMaps(base, next - (names - {name})) ==
            MergeMaps(base, next - names)[name := MergeEntry(Lookup(base, name), next[name])]
  {
  }

  method MergeServerMaps(base: map<string, Entry>, next: map<string, Entry>) returns (merged: map<string, Entry>)
    ensures merged == MergeMaps(base, next)
  {
    merged := base;
    var names := next.Keys;
    while names != {}
      invariant names <= next.Keys && merged == MergeMaps(base, next - names)
      decreases |names|
    {
      var name :| name in names;
      var entry := MergeDefinition(Lookup(merged, name), next[name]);
      MergeMapsStep(base, next, names, name);
      merged := merged[name := entry];
      names := names - {name};
    }
    assert next - names == next;
  }
}

/** Credentials stay bound to the url they were set for, over any number of layers. */
module UrlBinding {
  import opened Wrappers
  import opened ServerEntries

  /** One server's entry after merging its definitions, lowest precedence first. */
  function Fold(layers: seq<Entry>): Option<Entry> {
    if layers == [] then None
    else Some(MergeEntry(Fold(layers[..|layers| - 1]), layers[|layers| - 1]))
  }

  /** The last layer that has `field`, or -1. */
  function LastSupplier(layers: seq<Entry>, field: Field): (i: int)
    ensures -1 <= i < |layers|
    ensures i >= 0 ==> field in layers[i].fields
    ensures forall j :: i < j < |layers| ==> field !in layers[j].fields
  {
    if layers == [] then -1
    else if field in layers[|layers| - 1].fields then |layers| - 1
    else LastSupplier(layers[..|layers| - 1], field)
  }

  /** The last layer takes `field` away from what the layers below it merged to. */
  predicate RemovedByLast(layers: seq<Entry>, field: Field)
    requires layers != []
  {
    var below := Fold(layers[..|layers| - 1]);
    below.Some? && Removes(below.value, layers[|layers| - 1], field)
  }

  /** Some layer after `i` takes `field` away. */
  predicate RemovedAfter(layers: seq<Entry>, i: int, field: Field) {
    layers != [] && i < |layers| - 1 &&
    (RemovedByLast(layers, field) || RemovedAfter(layers[..|layers| - 1], i, field))
  }

  /** One more layer, for one field. */
  lemma FoldField(layers: seq<Entry>, field: Field)
    requires layers != []
    ensures Fold(layers).Some?
    ensures var n := |layers| - 1;
      Get(Fold(layers).value, field) ==
      if field in layers[n].fields then Get(layers[n], field)
      else if n == 0 || RemovedByLast(layers, field) then Undefined
      else Get(Fold(layers[..n]).value, field)
  {
    var n := |layers| - 1;
    if n > 0 {
      MergedField(Fold(layers[..n]).value, layers[n], field);
    }
  }

  /** A merged field has its last supplied value exactly when no later layer removes it. */
  lemma {:induction false} LastSupplierWins(layers: seq<Entry>, field: Field)
    requires layers != []
    ensures Fold(layers).Some?
    ensures var i := LastSupplier(layers, field);
      Get(Fold(layers).value, field) ==
      if i < 0 || RemovedAfter(layers, i, field) then Undefined else Get(layers[i], field)
  {
    var n := |layers| - 1;
    FoldField(layers, field);
    if n > 0 {
      LastSupplierWins(layers[..n], field);
    }
  }

  /** What the layers merge `field` to. */
  function FieldAfter(layers: seq<Entry>, field: Field): Value {
    var merged := Fold(layers);
    if merged.Some? then Get(merged.value, field) else Undefined
  }

  /** An inherited credential of a merged entry with a url was below with that url. */
  lemma BoundBelow(layers: seq<Entry>, field: Field)
    requires layers != [] && field !in layers[|layers| - 1].fields
    requires Get(Fold(layers).value, Url).Text?
    requires IsCredential(field, Get(Fold(layers).value, field))
    ensures var below := layers[..|layers| - 1];
      below != [] && Fold(below).Some? &&
      Get(Fold(below).value, Url) == Get(Fold(layers).value, Url) &&
      Get(Fold(below).value, field) == Get(Fold(layers).value, field)
  {
    FoldField(layers, field);
    StepKeepsUrl(Fold(layers[..|layers| - 1]).value, layers[|layers| - 1], field);
  }

  lemma BoundBelowAfter(layers: seq<Entry>, field: Field)
    requires layers != [] && field !in layers[|layers| - 1].fields && FieldAfter(layers, Url).Text?
    requires IsCredential(field, FieldAfter(layers, field))
    ensures var below := layers[..|layers| - 1];
      && below != [] && LastSupplier(layers, field) == LastSupplier(below, field)
      && FieldAfter(below, Url) == FieldAfter(layers, Url) && FieldAfter(below, field) == FieldAfter(layers, field)
  {
    BoundBelow(layers, field);
  }

  lemma {:induction false} UrlSinceSupplied(layers: seq<Entry>, field: Field, j: nat)
    requires layers != [] && FieldAfter(layers, Url).Text?
    requires IsCredential(field, FieldAfter(layers, field))
    requires LastSupplier(layers, field) < j <= |layers|
    ensures FieldAfter(layers[..j], Url) == FieldAfter(layers, Url)
  {
    if j == |layers| {
      assert layers[..j] == layers;
    } else {
      var below := layers[..|layers| - 1];
      BoundBelowAfter(layers, field);
      assert below[..j] == layers[..j];
      UrlSinceSupplied(below, field, j);
    }
  }

  /**
   * A merged entry with a url holds no credential from before the url last changed: after the layer that
   * last supplied the credential, every number of layers merges to that same url.
   */
  lemma CredentialsStayBound(layers: seq<Entry>, field: Field)
    requires layers != [] && FieldAfter(layers, Url).Text? && IsCredential(field, FieldAfter(layers, field))
    ensures var i := LastSupplier(layers, field);
      && i >= 0 && FieldAfter(layers, field) == Get(layers[i], field)
      && forall j :: i < j <= |layers| ==> FieldAfter(layers[..j], Url) == FieldAfter(layers, Url)
  {
    LastSupplierWins(layers, field);
    CredentialExactly(field, FieldAfter(layers, field));
    forall j | LastSupplier(layers, field) < j <= |layers| && 0 <= j
      ensures FieldAfter(layers[..j], Url) == FieldAfter(layers, Url)
    {
      UrlSinceSupplied(layers, field, j);
    }
  }

  predicate OneTransport(entry: Entry) {
    forall f, g :: f in {Command, Url, Socket} && g in {Command, Url, Socket} && Get(entry, f).Text? && Get(entry, g).Text? ==>
      f == g
  }

  /** Layers that each set at most one transport merge to an entry with at most one. */
  lemma {:induction false} TransportsStaySingle(layers: seq<Entry>)
    requires layers != [] && forall i :: 0 <= i < |layers| ==> OneTransport(layers[i])
    ensures Fold(layers).Some? && OneTransport(Fold(layers).value)
  {
    var n := |layers| - 1;
    assert OneTransport(layers[n]);
    if n > 0 {
      TransportsStaySingle(layers[..n]);
      SingleTransportMerge(Fold(layers[..n]).value, layers[n]);
    } else {
      forall f
        ensures Get(Fold(layers).value, f) == Get(layers[0], f)
      {
        FoldField(layers, f);
      }
    }
  }

  lemma SingleTransportMerge(existing: Entry, definition: Entry)
    requires OneTransport(existing) && OneTransport(definition)
    ensures OneTransport(MergeEntry(Some(existing), definition))
  {
    var merged := MergeEntry(Some(existing), definition);
    forall f, g | f in {Command, Url, Socket} && g in {Command, Url, Socket} && Get(merged, f).Text? && Get(merged, g).Text?
      ensures f == g
    {
      MergedField(existing, definition, f);
      MergedField(existing, definition, g);
    }
  }

  // ----- Exactly which supplied values survive -----

  predicate HasAfter(layers: seq<Entry>, field: Field) {
    layers != [] && field in Fold(layers).value.fields
  }

  predicate MarkedAfter(layers: seq<Entry>, field: Field) {
    layers != [] && field in Fold(layers).value.literal
  }

  lemma OneLayer(layers: seq<Entry>, field: Field)
    requires |layers| == 1
    ensures Fold(layers) == Some(MergeEntry(None, layers[0]))
    ensures LastSupplier(layers, field) == if field in layers[0].fields then 0 else -1
  {
    assert layers[..0] == [];
  }

  /** A value is a plugin's literal one exactly when the layer that last supplied it marked it, and it is still there. */
  lemma {:induction false} MarksFollowValues(layers: seq<Entry>, field: Field)
    ensures var i := LastSupplier(layers, field);
      MarkedAfter(layers, field) <==>
      && i >= 0 && HasAfter(layers, field) && field in layers[i].literal
      && (field.Args? || field.Env? || field.Cwd? || field.Headers?)
  {
    var n := |layers| - 1;
    if n == 0 {
      OneLayer(layers, field);
    } else if n > 0 {
      MarksFollowValues(layers[..n], field);
      MergedField(Fold(layers[..n]).value, layers[n], field);
      MergedMark(Fold(layers[..n]).value, layers[n], field);
    }
  }

  lemma MergedMark(existing: Entry, definition: Entry, field: Field)
    ensures var merged := MergeEntry(Some(existing), definition);
      field in merged.literal <==>
      && field in merged.fields && (field.Args? || field.Env? || field.Cwd? || field.Headers?)
      && field in (if field in definition.fields then definition.literal else existing.literal)
  {
  }

  /**
   * What ends an inherited value at layer `j`: another transport, another url for a credential, or for
   * `literalEnv` a new `env` over a literal one.
   */
  predicate EndsAt(layers: seq<Entry>, j: nat, field: Field, value: Value)
    requires j < |layers|
  {
    || SwitchesFrom(layers[j], field)
    || (IsCredential(field, value) && Get(layers[j], Url).Text? && Get(layers[j], Url) != FieldAfter(layers[..j], Url))
    || (field.LiteralEnv? && Env in layers[j].fields && MarkedAfter(layers[..j], Env))
  }

  lemma RemovesExactly(layers: seq<Entry>, field: Field)
    requires |layers| > 1
    ensures Fold(layers[..|layers| - 1]).Some?
    ensures var n := |layers| - 1;
      var below := Fold(layers[..n]).value;
      field in layers[n].fields || (Removes(below, layers[n], field) <==> EndsAt(layers, n, field, Get(below, field)))
  {
    var n := |layers| - 1;
    var below := Fold(layers[..n]).value;
    ClearsOtherTransports(layers[n], field);
    CredentialExactly(field, Get(below, field));
  }

  lemma EndsBelow(layers: seq<Entry>, n: nat, j: nat, field: Field, value: Value)
    requires j < n <= |layers|
    ensures EndsAt(layers[..n], j, field, value) <==> EndsAt(layers, j, field, value)
  {
    assert layers[..n][..j] == layers[..j];
  }

  /** No layer after `i` ends the value that layer `i` supplied. */
  predicate Survives(layers: seq<Entry>, i: nat, field: Field)
    requires i < |layers|
  {
    forall j :: i < j < |layers| ==> !EndsAt(layers, j, field, Get(layers[i], field))
  }

  lemma SurvivesStep(layers: seq<Entry>, i: nat, field: Field)
    requires i < |layers| - 1
    ensures var n := |layers| - 1;
      Survives(layers, i, field) <==> Survives(layers[..n], i, field) && !EndsAt(layers, n, field, Get(layers[i], field))
  {
    var n := |layers| - 1;
    forall j: nat | i < j < n
      ensures EndsAt(layers[..n], j, field, Get(layers[i], field)) <==> EndsAt(layers, j, field, Get(layers[i], field))
    {
      EndsBelow(layers, n, j, field, Get(layers[i], field));
    }
    if Survives(layers, i, field) {
      forall j | i < j < n
        ensures !EndsAt(layers[..n], j, field, Get(layers[i], field))
      {
        assert !EndsAt(layers, j, field, Get(layers[i], field));
      }
    }
    if Survives(layers[..n], i, field) && !EndsAt(layers, n, field, Get(layers[i], field)) {
      forall j | i < j < |layers|
        ensures !EndsAt(layers, j, field, Get(layers[i], field))
      {
        assert j < n ==> !EndsAt(layers[..n], j, field, Get(layers[i], field));
      }
    }
  }

  /**
   * Over any number of layers, a merged entry has a field exactly when some layer supplied it and none after
   * the last such layer switched the transport, changed the url under a credential, or unmarked the
   * environment; and it then has that layer's value.
   */
  lemma {:induction false} SurvivesExactly(layers: seq<Entry>, field: Field)
    ensures var i := LastSupplier(layers, field);
      && (HasAfter(layers, field) <==> i >= 0 && Survives(layers, i, field))
      && FieldAfter(layers, field) == if HasAfter(layers, field) then Get(layers[i], field) else Undefined
  {
    var n, i := |layers| - 1, LastSupplier(layers, field);
    if n == 0 {
      OneLayer(layers, field);
    } else if n > 0 {
      MergedField(Fold(layers[..n]).value, layers[n], field);
      if i < n {
        SurvivesExactly(layers[..n], field);
        RemovesExactly(layers, field);
        if i >= 0 {
          SurvivesStep(layers, i, field);
        }
      }
    }
  }

  /** A value from before a layer that chose another transport is gone. */
  lemma SwitchDropsOthers(layers: seq<Entry>, t: nat, field: Field)
    requires t < |layers| && LastSupplier(layers, field) < t && SwitchesFrom(layers[t], field)
    ensures !HasAfter(layers, field) && FieldAfter(layers, field) == Undefined
  {
    SurvivesExactly(layers, field);
    assert LastSupplier(layers, field) >= 0 ==>
        EndsAt(layers, t, field, Get(layers[LastSupplier(layers, field)], field));
  }

  // ----- One server at a time -----

  /** The servers after merging maps, lowest precedence first. */
  function MergeAll(maps: seq<map<string, Entry>>): map<string, Entry> {
    if maps == [] then map[] else MergeMaps(MergeAll(maps[..|maps| - 1]), maps[|maps| - 1])
  }

  /** What the maps define under one name. */
  function Definitions(maps: seq<map<string, Entry>>, name: string): seq<Entry> {
    if maps == [] then []
    else
      var last := maps[|maps| - 1];
      Definitions(maps[..|maps| - 1], name) + if name in last then [last[name]] else []
  }

  /** Merging whole maps merges each server's own definitions, whatever the other servers are. */
  lemma {:induction false} MergesByName(maps: seq<map<string, Entry>>, name: string)
    ensures Lookup(MergeAll(maps), name) == Fold(Definitions(maps, name))
  {
    if maps != [] {
      var below, last := maps[..|maps| - 1], maps[|maps| - 1];
      MergesByName(below, name);
      if name in last {
        var defined := Definitions(below, name);
        assert Definitions(maps, name) == defined + [last[name]];
        assert (defined + [last[name]])[..|defined|] == defined;
      } else {
        assert Definitions(maps, name) == Definitions(below, name);
      }
    }
  }

  /** An inherited credential comes with an unchanged url. */
  lemma StepKeepsUrl(existing: Entry, definition: Entry, field: Field)
    requires field !in definition.fields
    requires var merged := MergeEntry(Some(existing), definition);
      Get(merged, Url).Text? && IsCredential(field, Get(merged, field))
    ensures var merged := MergeEntry(Some(existing), definition);
      Get(existing, Url) == Get(merged, Url) && Get(existing, field) == Get(merged, field)
  {
    MergedField(existing, definition, field);
    MergedField(existing, definition, Url);
  }
}
