/** `getDroppedCredentialNotices`: the merges replayed with the file behind each credential field. */
module CredentialReplay {
  import opened Wrappers
  import opened ServerEntries

  type Path = string
  type Servers = map<string, Entry>

  /** A property of a server. */
  datatype Key = Key(name: string, field: Field)

  /** The replay's record: the file behind each credential field of each server. */
  type Files = map<Key, Path>

  /** Where each property of a server map really comes from. */
  type Origins = Key -> Path

  /** The fields of one server that a later file's url drops, and the file they came from. */
  datatype Notice = Notice(name: string, fields: set<Field>, from: Path, urlFile: Path)

  /** A config file: the servers its imports give, the file behind each property of those, and its own servers. */
  datatype Source = Source(path: Path, imports: Servers, importFiles: Files, own: Servers) {
    /** What no import names comes from the source itself. */
    function ImportFile(k: Key): Path {
      if k in importFiles then importFiles[k] else path
    }

    /** The file named as the one that set the url. */
    function UrlFile(name: string): Path {
      if name in own && Get(own[name], Url).Text? then path else ImportFile(Key(name, Url))
    }
  }

  // ----- Where each merged value really comes from -----

  /** The file behind a merged property: the later map's own for its own properties, else the inherited one. */
  function MergedOrigins(baseFrom: Origins, next: Servers, nextFrom: Origins): Origins {
    (k: Key) => if k.name in next && k.field in next[k.name].fields then nextFrom(k) else baseFrom(k)
  }

  predicate Defines(servers: Servers, k: Key) {
    k.name in servers && Get(servers[k.name], k.field) != Undefined
  }

  /** `files` names the real origin of every credential field that is defined. */
  ghost predicate Tracks(servers: Servers, files: Files, origins: Origins) {
    forall k: Key :: k.field in CREDENTIAL_FIELDS && Defines(servers, k) ==> k in files && files[k] == origins(k)
  }

  /** The fields one merge drops from `name` for a different url. */
  function DroppedAt(base: Servers, next: Servers, name: string): set<Field> {
    if name in base && name in next then DroppedUrlBoundAuth(base[name], next[name]) else {}
  }

  predicate Drops(base: Servers, next: Servers, k: Key) {
    k.name in next && k.field in DroppedAt(base, next, k.name)
  }

  /** A dropped credential field, where it came from, and the file whose url dropped it. */
  datatype Report = Report(key: Key, from: Path, urlFile: Path)

  /** Every credential field one merge drops for a different url. */
  function DropReports(base: Servers, baseFrom: Origins, next: Servers, urlFile: string -> Path): set<Report> {
    set n, f | n in next && f in DroppedAt(base, next, n) :: Report(Key(n, f), baseFrom(Key(n, f)), urlFile(n))
  }

  /** What a list of notices tells the user. */
  function Told(notices: seq<Notice>): set<Report> {
    set k, f | 0 <= k < |notices| && f in notices[k].fields ::
      Report(Key(notices[k].name, f), notices[k].from, notices[k].urlFile)
  }

  // ----- The replay's own bookkeeping -----

  /** `credentialFiles`: the defined credential fields of each server with their files. */
  function CredentialFiles(servers: Servers, fileOf: Origins): Files {
    map n, f | n in servers && f in CREDENTIAL_FIELDS && Defines(servers, Key(n, f)) :: Key(n, f) := fileOf(Key(n, f))
  }

  function FileOf(files: Files, k: Key): Option<Path> {
    if k in files then Some(files[k]) else None
  }

  /** What a merge records for a property: the later map's file, else the earlier one unless the field is dropped. */
  function MergedFile(base: Servers, baseFiles: Files, next: Servers, nextFiles: Files, k: Key): Option<Path> {
    if k.name in next && k in nextFiles then Some(nextFiles[k])
    else if Drops(base, next, k) then None
    else FileOf(baseFiles, k)
  }

  /** `files` is the record once the names in `done` are merged. */
  ghost predicate Recorded(base: Servers, baseFiles: Files, next: Servers, nextFiles: Files, done: set<string>, files: Files) {
    forall k: Key :: FileOf(files, k) ==
      if k.name in done then MergedFile(base, baseFiles, next, nextFiles, k) else FileOf(baseFiles, k)
  }

  /** What is told of one server: its dropped fields with a recorded file. */
  function ToldOf(files: Files, dropped: set<Field>, name: string, urlFile: Path): set<Report> {
    set f | f in dropped && Key(name, f) in files :: Report(Key(name, f), files[Key(name, f)], urlFile)
  }

  /** What is told of the servers in `names`. */
  function ToldOfAll(base: Servers, files: Files, next: Servers, names: set<string>, urlFile: string -> Path): set<Report> {
    set n, r | n in names && r in ToldOf(files, DroppedAt(base, next, n), n, urlFile(n)) :: r
  }

  /** The notices for one server: its dropped fields with a recorded file, grouped by that file. */
  method GroupByFile(files: Files, dropped: set<Field>, name: string, urlFile: Path) returns (notices: seq<Notice>)
    ensures Told(notices) == ToldOf(files, dropped, name, urlFile)
    ensures forall k :: 0 <= k < |notices| ==> notices[k].fields != {}
  {
    notices := [];
    var rest := set f | f in dropped && Key(name, f) in files;
    ghost var known := rest;
    while rest != {}
      invariant rest <= known
      invariant Told(notices) == set f | f in known - rest :: Report(Key(name, f), files[Key(name, f)], urlFile)
      invariant forall k :: 0 <= k < |notices| ==> notices[k].fields != {}
      decreases |rest|
    {
      var field :| field in rest;
      var from := files[Key(name, field)];
      var same := set f | f in rest && files[Key(name, f)] == from;
      var notice := Notice(name, same, from, urlFile);
      ToldOneMore(notices, notice);
      notices := notices + [notice];
      rest := rest - same;
    }
  }

  lemma ToldOneMore(notices: seq<Notice>, notice: Notice)
    ensures Told(notices + [notice]) ==
            Told(notices) + set f | f in notice.fields :: Report(Key(notice.name, f), notice.from, notice.urlFile)
  {
    var more := notices + [notice];
    forall r | r in Told(notices)
      ensures r in Told(more)
    {
      var k, f :| 0 <= k < |notices| && f in notices[k].fields &&
                  r == Report(Key(notices[k].name, f), notices[k].from, notices[k].urlFile);
      assert more[k] == notices[k];
    }
    assert more[|notices|] == notice;
  }

  lemma {:induction false} ToldConcat(x: seq<Notice>, y: seq<Notice>)
    ensures Told(x + y) == Told(x) + Told(y)
    decreases |y|
  {
    if y == [] {
      assert x + y == x;
    } else {
      var n := |y| - 1;
      ToldConcat(x, y[..n]);
      ToldOneMore(x + y[..n], y[n]);
      ToldOneMore(y[..n], y[n]);
      assert x + y == x + y[..n] + [y[n]];
      assert y == y[..n] + [y[n]];
    }
  }

  /** The record of one name: its dropped fields deleted, then the later map's files set. */
  method RecordName(files: Files, dropped: set<Field>, nextFiles: Files, name: string) returns (recorded: Files)
    ensures forall k: Key :: FileOf(recorded, k) ==
              if k.name != name then FileOf(files, k)
              else if k in nextFiles then Some(nextFiles[k])
              else if k.field in dropped then None
              else FileOf(files, k)
  {
    recorded := map k | k in files && !(k.name == name && k.field in dropped) :: files[k];
    recorded := recorded + (map k | k in nextFiles && k.name == name :: nextFiles[k]);
  }

  lemma ToldStep(base: Servers, baseFiles: Files, next: Servers, nextFiles: Files, done: set<string>, files: Files,
                 name: string, urlFile: string -> Path)
    requires name !in done && Recorded(base, baseFiles, next, nextFiles, done, files)
    ensures ToldOfAll(base, baseFiles, next, done + {name}, urlFile) ==
            ToldOfAll(base, baseFiles, next, done, urlFile)
            + ToldOf(files, DroppedAt(base, next, name), name, urlFile(name))
  {
    var dropped := DroppedAt(base, next, name);
    forall f | f in dropped
      ensures FileOf(files, Key(name, f)) == FileOf(baseFiles, Key(name, f))
    {
    }
    assert ToldOf(files, dropped, name, urlFile(name)) == ToldOf(baseFiles, dropped, name, urlFile(name));
  }

  lemma RecordStep(base: Servers, baseFiles: Files, next: Servers, nextFiles: Files, done: set<string>, files: Files,
                   name: string, recorded: Files)
    requires name in next && name !in done && Recorded(base, baseFiles, next, nextFiles, done, files)
    requires forall k: Key :: FileOf(recorded, k) ==
               if k.name != name then FileOf(files, k)
               else if k in nextFiles then Some(nextFiles[k])
               else if k.field in DroppedAt(base, next, name) then None
               else FileOf(files, k)
    ensures Recorded(base, baseFiles, next, nextFiles, done + {name}, recorded)
  {
    forall k: Key
      ensures FileOf(recorded, k) ==
        if k.name in done + {name} then MergedFile(base, baseFiles, next, nextFiles, k) else FileOf(baseFiles, k)
    {
      assert FileOf(files, k) ==
        if k.name in done then MergedFile(base, baseFiles, next, nextFiles, k) else FileOf(baseFiles, k);
    }
  }

  /** The replay's `merge`: the merged servers, the file behind each of their fields, and the notices. */
  method Merge(base: Servers, baseFiles: Files, next: Servers, nextFiles: Files, urlFile: string -> Path)
    returns (servers: Servers, files: Files, notices: seq<Notice>)
    ensures servers == MergeMaps(base, next)
    ensures Recorded(base, baseFiles, next, nextFiles, next.Keys, files)
    ensures Told(notices) == ToldOfAll(base, baseFiles, next, next.Keys, urlFile)
  {
    files, notices := baseFiles, [];
    var names := next.Keys;
    ghost var done: set<string> := {};
    while names != {}
      invariant names !! done && names + done == next.Keys
      invariant Recorded(base, baseFiles, next, nextFiles, done, files)
      invariant Told(notices) == ToldOfAll(base, baseFiles, next, done, urlFile)
      decreases |names|
    {
      var name :| name in names;
      var dropped := DroppedAt(base, next, name);
      var more := GroupByFile(files, dropped, name, urlFile(name));
      ToldConcat(notices, more);
      ToldStep(base, baseFiles, next, nextFiles, done, files, name, urlFile);
      notices := notices + more;
      var recorded := RecordName(files, dropped, nextFiles, name);
      RecordStep(base, baseFiles, next, nextFiles, done, files, name, recorded);
      files := recorded;
      names, done := names - {name}, done + {name};
    }
    assert done == next.Keys;
    servers := MergeServerMaps(base, next);
  }

  // ----- The replay's record names the real origins -----

  /** A file is recorded for a credential field only while the server has the field or has left HTTP. */
  ghost predicate Clean(servers: Servers, files: Files) {
    forall k: Key :: k in files && k.field in CREDENTIAL_FIELDS && k.name in servers ==>
      k.field in servers[k.name].fields || k.field in TransportClears(servers[k.name])
  }

  lemma FreshFiles(servers: Servers, origins: Origins)
    ensures Tracks(servers, CredentialFiles(servers, origins), origins)
    ensures Clean(servers, CredentialFiles(servers, origins))
  {
  }

  /** An inherited credential was not dropped, and the later map recorded no file of its own for it. */
  lemma InheritedTracks(base: Entry, next: Entry, recorded: bool, field: Field)
    requires field in CREDENTIAL_FIELDS && field !in next.fields
    requires Get(MergeEntry(Some(base), next), field) != Undefined
    requires recorded ==> field in next.fields || field in TransportClears(next)
    ensures Get(base, field) != Undefined && field !in DroppedUrlBoundAuth(base, next) && !recorded
  {
    MergedField(base, next, field);
  }

  /** Merging keeps the invariant: the file recorded for every defined credential field is its real origin. */
  lemma MergeTracks(base: Servers, baseFiles: Files, baseFrom: Origins, next: Servers, nextFiles: Files, nextFrom: Origins,
                    files: Files)
    requires Tracks(base, baseFiles, baseFrom) && Tracks(next, nextFiles, nextFrom) && Clean(next, nextFiles)
    requires Recorded(base, baseFiles, next, nextFiles, next.Keys, files)
    ensures Tracks(MergeMaps(base, next), files, MergedOrigins(baseFrom, next, nextFrom))
  {
    var merged := MergeMaps(base, next);
    var origins := MergedOrigins(baseFrom, next, nextFrom);
    forall k: Key | k.field in CREDENTIAL_FIELDS && Defines(merged, k)
      ensures k in files && files[k] == origins(k)
    {
      assert FileOf(files, k) ==
        if k.name in next then MergedFile(base, baseFiles, next, nextFiles, k) else FileOf(baseFiles, k);
      if k.name !in next {
        assert Defines(base, k);
      } else if k.field in next[k.name].fields {
        assert Defines(next, k);
      } else {
        InheritedTracks(base[k.name], next[k.name], k in nextFiles, k.field);
        assert Defines(base, k);
      }
    }
  }

  /** A transport switch in a file's own entry shows in the entry merged over its imports. */
  lemma TransportIsInherited(existing: Entry, definition: Entry, field: Field)
    requires field in CREDENTIAL_FIELDS && field in TransportClears(definition)
    ensures field in TransportClears(MergeEntry(Some(existing), definition))
  {
    MergedField(existing, definition, Command);
    MergedField(existing, definition, Url);
    MergedField(existing, definition, Socket);
  }

  lemma OwnEntryClean(existing: Entry, definition: Entry, field: Field)
    requires field in CREDENTIAL_FIELDS && field in existing.fields && field !in DroppedUrlBoundAuth(existing, definition)
    ensures var merged := MergeEntry(Some(existing), definition);
      field in merged.fields || field in TransportClears(merged)
  {
    MergedField(existing, definition, field);
    if field in TransportClears(definition) {
      TransportIsInherited(existing, definition, field);
    }
  }

  lemma OwnEntriesClean(base: Servers, baseFrom: Origins, next: Servers, nextFrom: Origins, files: Files)
    requires Recorded(base, CredentialFiles(base, baseFrom), next, CredentialFiles(next, nextFrom), next.Keys, files)
    ensures Clean(MergeMaps(base, next), files)
  {
    var merged := MergeMaps(base, next);
    var baseFiles, nextFiles := CredentialFiles(base, baseFrom), CredentialFiles(next, nextFrom);
    forall k: Key | k in files && k.field in CREDENTIAL_FIELDS && k.name in merged
      ensures k.field in merged[k.name].fields || k.field in TransportClears(merged[k.name])
    {
      assert FileOf(files, k) ==
        if k.name in next then MergedFile(base, baseFiles, next, nextFiles, k) else FileOf(baseFiles, k);
      if k.name in next && k.field !in next[k.name].fields {
        OwnEntryClean(base[k.name], next[k.name], k.field);
      }
    }
  }

  /** The notices are exactly the dropped fields, each with its real origin. */
  lemma ToldIsDropped(base: Servers, baseFiles: Files, baseFrom: Origins, next: Servers, urlFile: string -> Path)
    requires Tracks(base, baseFiles, baseFrom)
    ensures ToldOfAll(base, baseFiles, next, next.Keys, urlFile) == DropReports(base, baseFrom, next, urlFile)
  {
    forall n, f | n in next && f in DroppedAt(base, next, n)
      ensures Key(n, f) in baseFiles && baseFiles[Key(n, f)] == baseFrom(Key(n, f))
    {
      assert Defines(base, Key(n, f));
    }
    var told, drops := ToldOfAll(base, baseFiles, next, next.Keys, urlFile), DropReports(base, baseFrom, next, urlFile);
    forall r | r in drops
      ensures r in told
    {
      assert r in ToldOf(baseFiles, DroppedAt(base, next, r.key.name), r.key.name, urlFile(r.key.name));
    }
  }

  /**
   * A credential defined before the merge and absent after it, for a different url. The report names the
   * file the credential came from and the one that set the url.
   */
  predicate RealDrop(base: Servers, baseFrom: Origins, next: Servers, nextFrom: Origins, r: Report) {
    var Report(Key(name, field), from, urlFile) := r;
    && name in base && name in next && IsCredential(field, Get(base[name], field))
    && field !in MergeMaps(base, next)[name].fields
    && Get(next[name], Url).Text? && Get(next[name], Url) != Get(base[name], Url)
    && from == baseFrom(r.key) && urlFile == nextFrom(Key(name, Url))
  }

  /** `urlFile` names the file behind each url that a merge takes from `next`. */
  ghost predicate NamesUrls(next: Servers, nextFrom: Origins, urlFile: string -> Path) {
    forall name :: name in next && Get(next[name], Url).Text? ==> urlFile(name) == nextFrom(Key(name, Url))
  }

  lemma DropsAreReal(base: Servers, baseFrom: Origins, next: Servers, nextFrom: Origins, urlFile: string -> Path, r: Report)
    requires NamesUrls(next, nextFrom, urlFile)
    ensures r in DropReports(base, baseFrom, next, urlFile) <==> RealDrop(base, baseFrom, next, nextFrom, r)
  {
    var name, field := r.key.name, r.key.field;
    if name in base && name in next {
      CredentialExactly(field, Get(base[name], field));
      MergedField(base[name], next[name], field);
      if RealDrop(base, baseFrom, next, nextFrom, r) {
        assert field in DroppedAt(base, next, name);
      }
    }
  }

  // ----- Whole runs -----

  function FileServers(source: Source): Servers {
    MergeMaps(source.imports, source.own)
  }

  function FileOrigins(source: Source): Origins {
    MergedOrigins((k: Key) => source.ImportFile(k), source.own, (k: Key) => source.path)
  }

  /** The servers after merging the files of `sources` over the host's. */
  function ServersAfter(host: Servers, sources: seq<Source>): Servers {
    if sources == [] then host
    else MergeMaps(ServersAfter(host, sources[..|sources| - 1]), FileServers(sources[|sources| - 1]))
  }

  /** The real origin of every property of the merged servers. */
  function OriginsAfter(hostFrom: Origins, sources: seq<Source>): Origins {
    if sources == [] then hostFrom
    else
      var source := sources[|sources| - 1];
      MergedOrigins(OriginsAfter(hostFrom, sources[..|sources| - 1]), FileServers(source), FileOrigins(source))
  }

  /** The credential fields one file drops: from its imports, then from the files before it. */
  function FileDrops(servers: Servers, origins: Origins, source: Source): set<Report> {
    DropReports(source.imports, (k: Key) => source.ImportFile(k), source.own, _ => source.path)
    + DropReports(servers, origins, FileServers(source), n => source.UrlFile(n))
  }

  /** Every credential field dropped for a different url in the whole load. */
  function DropsAfter(host: Servers, hostFrom: Origins, sources: seq<Source>): set<Report> {
    if sources == [] then {}
    else
      var below := sources[..|sources| - 1];
      DropsAfter(host, hostFrom, below)
      + FileDrops(ServersAfter(host, below), OriginsAfter(hostFrom, below), sources[|sources| - 1])
  }

  /** The `i`th file drops the field: from its own imports, or from what the files before it merged to. */
  predicate DroppedBy(host: Servers, hostFrom: Origins, sources: seq<Source>, i: nat, r: Report)
    requires i < |sources|
  {
    var source := sources[i];
    || RealDrop(source.imports, (k: Key) => source.ImportFile(k), source.own, (k: Key) => source.path, r)
    || RealDrop(ServersAfter(host, sources[..i]), OriginsAfter(hostFrom, sources[..i]), FileServers(source),
                FileOrigins(source), r)
  }

  /** The file said to set a url is the one it really comes from. */
  lemma UrlsAreNamed(source: Source)
    ensures NamesUrls(source.own, (k: Key) => source.path, _ => source.path)
    ensures NamesUrls(FileServers(source), FileOrigins(source), n => source.UrlFile(n))
  {
    forall name | name in FileServers(source) && Get(FileServers(source)[name], Url).Text?
      ensures source.UrlFile(name) == FileOrigins(source)(Key(name, Url))
    {
      if name in source.imports && name in source.own {
        MergedField(source.imports[name], source.own[name], Url);
      }
    }
  }

  lemma LastDropIsReal(host: Servers, hostFrom: Origins, sources: seq<Source>, r: Report)
    requires sources != []
    ensures var below := sources[..|sources| - 1];
      r in FileDrops(ServersAfter(host, below), OriginsAfter(hostFrom, below), sources[|sources| - 1]) <==>
      DroppedBy(host, hostFrom, sources, |sources| - 1, r)
  {
    var below, source := sources[..|sources| - 1], sources[|sources| - 1];
    var importFrom: Origins, ownFrom: Origins := (k: Key) => source.ImportFile(k), (k: Key) => source.path;
    UrlsAreNamed(source);
    DropsAreReal(source.imports, importFrom, source.own, ownFrom, _ => source.path, r);
    DropsAreReal(ServersAfter(host, below), OriginsAfter(hostFrom, below), FileServers(source), FileOrigins(source),
                 n => source.UrlFile(n), r);
  }

  lemma DroppedEarlier(host: Servers, hostFrom: Origins, sources: seq<Source>, i: nat, r: Report)
    requires i < |sources| - 1
    ensures DroppedBy(host, hostFrom, sources[..|sources| - 1], i, r) <==> DroppedBy(host, hostFrom, sources, i, r)
  {
    assert sources[..|sources| - 1][..i] == sources[..i];
  }

  lemma {:induction false} ReportWasDropped(host: Servers, hostFrom: Origins, sources: seq<Source>, r: Report) returns (i: nat)
    requires r in DropsAfter(host, hostFrom, sources)
    ensures i < |sources| && DroppedBy(host, hostFrom, sources, i, r)
  {
    i := |sources| - 1;
    if r in DropsAfter(host, hostFrom, sources[..i]) {
      i := ReportWasDropped(host, hostFrom, sources[..i], r);
      DroppedEarlier(host, hostFrom, sources, i, r);
    } else {
      LastDropIsReal(host, hostFrom, sources, r);
    }
  }

  lemma {:induction false} DroppedIsReported(host: Servers, hostFrom: Origins, sources: seq<Source>, i: nat, r: Report)
    requires i < |sources| && DroppedBy(host, hostFrom, sources, i, r)
    ensures r in DropsAfter(host, hostFrom, sources)
  {
    var last := |sources| - 1;
    if i < last {
      DroppedEarlier(host, hostFrom, sources, i, r);
      DroppedIsReported(host, hostFrom, sources[..last], i, r);
    } else {
      LastDropIsReal(host, hostFrom, sources, r);
    }
  }

  /**
   * What is reported over a whole load is exactly what one of its merges dropped: each credential that was
   * there before the merge and not after it, where the url changed.
   */
  lemma EveryDropIsReal(host: Servers, hostFrom: Origins, sources: seq<Source>, r: Report)
    ensures r in DropsAfter(host, hostFrom, sources) <==>
            exists i :: 0 <= i < |sources| && DroppedBy(host, hostFrom, sources, i, r)
  {
    if r in DropsAfter(host, hostFrom, sources) {
      var i := ReportWasDropped(host, hostFrom, sources, r);
    }
    forall i | 0 <= i < |sources| && DroppedBy(host, hostFrom, sources, i, r)
      ensures r in DropsAfter(host, hostFrom, sources)
    {
      DroppedIsReported(host, hostFrom, sources, i, r);
    }
  }

  /** The last file that has a property is the one it comes from: the file itself for its own, else what its import names. */
  lemma {:induction false} OriginIsLastFile(host: Servers, hostFrom: Origins, sources: seq<Source>, i: nat, k: Key)
    requires i < |sources| && k.name in FileServers(sources[i]) && k.field in FileServers(sources[i])[k.name].fields
    requires forall j :: i < j < |sources| && k.name in FileServers(sources[j]) ==>
               k.field !in FileServers(sources[j])[k.name].fields
    ensures OriginsAfter(hostFrom, sources)(k) ==
            if k.name in sources[i].own && k.field in sources[i].own[k.name].fields then sources[i].path
            else sources[i].ImportFile(k)
  {
    if i < |sources| - 1 {
      OriginIsLastFile(host, hostFrom, sources[..|sources| - 1], i, k);
    }
  }

  /** A tracked merge: what is told is what is dropped, and the tracking goes on. */
  method TrackedMerge(base: Servers, baseFiles: Files, baseFrom: Origins, next: Servers, nextFiles: Files,
                      nextFrom: Origins, urlFile: string -> Path)
    returns (servers: Servers, files: Files, notices: seq<Notice>)
    requires Tracks(base, baseFiles, baseFrom) && Tracks(next, nextFiles, nextFrom) && Clean(next, nextFiles)
    ensures servers == MergeMaps(base, next) && Recorded(base, baseFiles, next, nextFiles, next.Keys, files)
    ensures Tracks(servers, files, MergedOrigins(baseFrom, next, nextFrom))
    ensures Told(notices) == DropReports(base, baseFrom, next, urlFile)
  {
    servers, files, notices := Merge(base, baseFiles, next, nextFiles, urlFile);
    ToldIsDropped(base, baseFiles, baseFrom, next, urlFile);
    MergeTracks(base, baseFiles, baseFrom, next, nextFiles, nextFrom, files);
  }

  /** One file of the replay, in two merges: inside the file, and onto what has been merged so far. */
  method ReplaySource(servers: Servers, files: Files, origins: Origins, source: Source)
    returns (merged: Servers, mergedFiles: Files, notices: seq<Notice>)
    requires Tracks(servers, files, origins)
    ensures merged == MergeMaps(servers, FileServers(source))
    ensures Tracks(merged, mergedFiles, MergedOrigins(origins, FileServers(source), FileOrigins(source)))
    ensures Told(notices) == FileDrops(servers, origins, source)
  {
    var importFrom, ownFrom := (k: Key) => source.ImportFile(k), (k: Key) => source.path;
    var importFiles, ownFiles := CredentialFiles(source.imports, importFrom), CredentialFiles(source.own, ownFrom);
    FreshFiles(source.imports, importFrom);
    FreshFiles(source.own, ownFrom);
    var file, fileFiles, inner :=
      TrackedMerge(source.imports, importFiles, importFrom, source.own, ownFiles, ownFrom, _ => source.path);
    OwnEntriesClean(source.imports, importFrom, source.own, ownFrom, fileFiles);
    var outer;
    merged, mergedFiles, outer :=
      TrackedMerge(servers, files, origins, file, fileFiles, FileOrigins(source), n => source.UrlFile(n));
    notices := inner + outer;
    ToldConcat(inner, outer);
  }

  /**
   * The whole replay. At its end every defined credential field is tracked to its real origin, and the
   * notices have told exactly the fields some merge dropped for a different url, each with that origin.
   */
  method GetDroppedCredentialNotices(host: Servers, hostFrom: Origins, sources: seq<Source>)
    returns (notices: seq<Notice>, servers: Servers, files: Files)
    ensures servers == ServersAfter(host, sources)
    ensures Tracks(servers, files, OriginsAfter(hostFrom, sources))
    ensures Told(notices) == DropsAfter(host, hostFrom, sources)
  {
    servers, files, notices := host, CredentialFiles(host, hostFrom), [];
    for i := 0 to |sources|
      invariant servers == ServersAfter(host, sources[..i])
      invariant Tracks(servers, files, OriginsAfter(hostFrom, sources[..i]))
      invariant Told(notices) == DropsAfter(host, hostFrom, sources[..i])
    {
      var more;
      assert sources[..i + 1][..i] == sources[..i];
      servers, files, more := ReplaySource(servers, files, OriginsAfter(hostFrom, sources[..i]), sources[i]);
      ToldConcat(notices, more);
      notices := notices + more;
    }
    assert sources[..|sources|] == sources;
  }
}
