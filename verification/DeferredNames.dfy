/** The names of deferred tools: `deferred-tool-surface.ts`. */
module DeferredNames {
  import opened Wrappers

  const MAX_NAME: nat := 64
  const HASH_LENGTH: nat := 8

  predicate IsHexDigit(c: char) {
    '0' <= c <= '9' || 'a' <= c <= 'f'
  }

  /** The first eight hexadecimal digits of a SHA-256 hash. */
  type Digest = s: string | |s| == HASH_LENGTH && forall i :: 0 <= i < |s| ==> IsHexDigit(s[i]) witness "00000000"

  /** What a tool is registered under; `deferredToolKey` renders it as JSON, so two keys are one only if all parts are. */
  datatype Key = Key(server: string, original: string, uri: Option<string>)

  /** A server's namespace, and the hash of a string. */
  datatype Naming = Naming(namespace: string -> string, hash: string -> Digest)

  /** A tool to be named: its key, and everything else about it, such as the Executor path it is called by. */
  datatype Tool = Tool(key: Key, rest: string)

  /** The candidates, with the names in use and the names that earlier in the session went to some key. */
  datatype Scope = Scope(naming: Naming, all: seq<Tool>, reserved: set<string>, owners: map<string, Key>)

  datatype Spec = Spec(tool: Tool, name: string)

  predicate IsSafe(c: char) {
    'A' <= c <= 'Z' || 'a' <= c <= 'z' || '0' <= c <= '9' || c == '_'
  }

  function Sanitize(s: string): (r: string)
    ensures |r| == |s|
    ensures forall i :: 0 <= i < |s| ==> r[i] == if IsSafe(s[i]) then s[i] else '_'
  {
    seq(|s|, i requires 0 <= i < |s| => if IsSafe(s[i]) then s[i] else '_')
  }

  function PlainName(naming: Naming, key: Key): string {
    Sanitize("mcp__" + naming.namespace(key.server) + "__" + key.original)
  }

  function HashInput(key: Key): string {
    key.server + "\0" + key.original + (if key.uri.Some? then "\0" + key.uri.value else "")
  }

  function HashedName(naming: Naming, key: Key): string {
    var name, hash := PlainName(naming, key), naming.hash(HashInput(key));
    (if |name| <= MAX_NAME - HASH_LENGTH - 1 then name else name[..MAX_NAME - HASH_LENGTH - 1]) + "_" + hash
  }

  /** How many of the first `n` candidates have this plain name. */
  function Count(naming: Naming, all: seq<Tool>, name: string, n: nat): nat
    requires n <= |all|
  {
    if n == 0 then 0 else Count(naming, all, name, n - 1) + Has(naming, all[n - 1], name)
  }

  function Has(naming: Naming, tool: Tool, name: string): nat {
    if PlainName(naming, tool.key) == name then 1 else 0
  }

  predicate Shared(scope: Scope, name: string) {
    Count(scope.naming, scope.all, name, |scope.all|) > 1
  }

  predicate OwnedByOther(scope: Scope, name: string, key: Key) {
    name in scope.owners && scope.owners[name] != key
  }

  predicate Unavailable(scope: Scope, name: string, key: Key, taken: set<string>) {
    name in taken || OwnedByOther(scope, name, key)
  }

  /** `formatDeferredToolName` as the resolution calls it. */
  function NameFor(scope: Scope, key: Key, taken: set<string>): string {
    var plain := PlainName(scope.naming, key);
    if |plain| <= MAX_NAME && !Unavailable(scope, plain, key, taken) && !Shared(scope, plain) then plain
    else HashedName(scope.naming, key)
  }

  function NamesOf(specs: seq<Spec>): set<string> {
    set spec | spec in specs :: spec.name
  }

  /** The names given so far, with one more candidate's, unless no name is left for it. */
  function Assign(scope: Scope, tool: Tool, specs: seq<Spec>): (more: seq<Spec>)
    ensures specs <= more
  {
    var taken := scope.reserved + NamesOf(specs);
    var name := NameFor(scope, tool.key, taken);
    if Unavailable(scope, name, tool.key, taken) then specs else specs + [Spec(tool, name)]
  }

  /** One tool after another takes its step. */
  function Fold(tools: seq<Tool>, step: (Tool, seq<Spec>) -> seq<Spec>, n: nat): seq<Spec>
    requires n <= |tools|
  {
    if n == 0 then [] else step(tools[n - 1], Fold(tools, step, n - 1))
  }

  /** What holds of no names, and is kept by each tool's step in turn, holds of the names given to the first `n`. */
  lemma {:induction false} FoldKeeps(tools: seq<Tool>, step: (Tool, seq<Spec>) -> seq<Spec>,
                                     inv: (nat, seq<Spec>) -> bool, from: nat, n: nat)
    requires from <= n <= |tools| && inv(from, Fold(tools, step, from))
    requires forall k: nat, specs :: from <= k < |tools| && inv(k, specs) ==> inv(k + 1, step(tools[k], specs))
    ensures inv(n, Fold(tools, step, n))
  {
    if from < n {
      FoldKeeps(tools, step, inv, from, n - 1);
      assert inv(n - 1 + 1, step(tools[n - 1], Fold(tools, step, n - 1)));
    }
  }

  /** The names given to the first `n` candidates, in their order. */
  function Assigned(scope: Scope, n: nat): seq<Spec>
    requires n <= |scope.all|
  {
    Fold(scope.all, (tool, specs) => Assign(scope, tool, specs), n)
  }

  lemma AssignedNext(scope: Scope, n: nat)
    requires n < |scope.all|
    ensures Assigned(scope, n + 1) == Assign(scope, scope.all[n], Assigned(scope, n))
  {
  }

  function AllAssigned(scope: Scope): seq<Spec> {
    Assigned(scope, |scope.all|)
  }

  ghost predicate CountsAll(naming: Naming, all: seq<Tool>, counts: map<string, nat>) {
    forall name :: (if name in counts then counts[name] else 0) == Count(naming, all, name, |all|)
  }

  /** The loop over all candidates that counts the plain names. */
  method CountNames(naming: Naming, all: seq<Tool>) returns (counts: map<string, nat>)
    ensures CountsAll(naming, all, counts)
  {
    counts := map[];
    for i := 0 to |all|
      invariant forall name :: (if name in counts then counts[name] else 0) == Count(naming, all, name, i)
    {
      var plain := PlainName(naming, all[i].key);
      counts := counts[plain := (if plain in counts then counts[plain] else 0) + 1];
    }
  }

  lemma NamesOfOneMore(specs: seq<Spec>, spec: Spec)
    ensures NamesOf(specs + [spec]) == NamesOf(specs) + {spec.name}
  {
    assert forall s :: s in specs + [spec] <==> s in specs || s == spec;
    forall s | s in specs
      ensures s.name in NamesOf(specs + [spec])
    {
      assert s in specs + [spec];
    }
    assert spec in specs + [spec];
  }

  /** `formatDeferredToolName` with the counted names. */
  method FormatName(scope: Scope, counts: map<string, nat>, key: Key, taken: set<string>) returns (name: string)
    requires CountsAll(scope.naming, scope.all, counts)
    ensures name == NameFor(scope, key, taken)
  {
    name := PlainName(scope.naming, key);
    var shared := name in counts && counts[name] > 1;
    if |name| > MAX_NAME || Unavailable(scope, name, key, taken) || shared {
      name := HashedName(scope.naming, key);
    }
  }

  /** One turn of the naming loop. */
  method NameTool(scope: Scope, counts: map<string, nat>, i: nat, specs: seq<Spec>, taken: set<string>)
      returns (specs': seq<Spec>, taken': set<string>)
    requires CountsAll(scope.naming, scope.all, counts) && i < |scope.all|
    requires specs == Assigned(scope, i) && taken == scope.reserved + NamesOf(specs)
    ensures specs' == Assigned(scope, i + 1) && taken' == scope.reserved + NamesOf(specs')
  {
    AssignedNext(scope, i);
    var tool := scope.all[i];
    var name := FormatName(scope, counts, tool.key, taken);
    if Unavailable(scope, name, tool.key, taken) {
      return specs, taken;
    }
    NamesOfOneMore(specs, Spec(tool, name));
    return specs + [Spec(tool, name)], taken + {name};
  }

  /** The naming loops of `resolveDeferredToolSpecs`. */
  method Resolve(scope: Scope) returns (specs: seq<Spec>)
    ensures specs == AllAssigned(scope)
  {
    var counts := CountNames(scope.naming, scope.all);
    var taken := scope.reserved;
    specs := [];
    for i := 0 to |scope.all|
      invariant specs == Assigned(scope, i)
      invariant taken == scope.reserved + NamesOf(specs)
    {
      specs, taken := NameTool(scope, counts, i, specs, taken);
    }
  }

  // ----- What every assignment keeps -----

  predicate DistinctNames(specs: seq<Spec>) {
    forall i, j :: 0 <= i < j < |specs| ==> specs[i].name != specs[j].name
  }

  predicate NameOk(scope: Scope, spec: Spec) {
    && spec.tool in scope.all
    && spec.name !in scope.reserved
    && !OwnedByOther(scope, spec.name, spec.tool.key)
    && |spec.name| <= MAX_NAME
    && (spec.name == PlainName(scope.naming, spec.tool.key) || spec.name == HashedName(scope.naming, spec.tool.key))
    && (Shared(scope, PlainName(scope.naming, spec.tool.key)) ==> spec.name == HashedName(scope.naming, spec.tool.key))
  }

  predicate SpecsOk(scope: Scope, specs: seq<Spec>) {
    DistinctNames(specs) && forall i :: 0 <= i < |specs| ==> NameOk(scope, specs[i])
  }

  lemma AssignKeepsOk(scope: Scope, tool: Tool, specs: seq<Spec>)
    requires SpecsOk(scope, specs) && tool in scope.all
    ensures SpecsOk(scope, Assign(scope, tool, specs))
  {
    var name := NameFor(scope, tool.key, scope.reserved + NamesOf(specs));
    if Assign(scope, tool, specs) != specs {
      assert NameOk(scope, Spec(tool, name));
      forall i | 0 <= i < |specs|
        ensures specs[i].name != name
      {
        assert specs[i] in specs;
      }
    }
  }

  /**
   * Assigned names are pairwise distinct, at most 64 characters, never reserved or owned by another tool's key, and
   * a tool whose plain name is shared never gets it.
   */
  lemma NamesAreOk(scope: Scope, n: nat)
    requires n <= |scope.all|
    ensures SpecsOk(scope, Assigned(scope, n))
  {
    var step := (tool, specs) => Assign(scope, tool, specs);
    forall k: nat, specs | k < |scope.all| && SpecsOk(scope, specs)
      ensures SpecsOk(scope, step(scope.all[k], specs))
    {
      AssignKeepsOk(scope, scope.all[k], specs);
    }
    FoldKeeps(scope.all, step, (_, specs) => SpecsOk(scope, specs), 0, n);
  }


  lemma AssignKeeps(scope: Scope, tool: Tool, specs: seq<Spec>, spec: Spec)
    requires spec in specs
    ensures spec in Assign(scope, tool, specs)
  {
  }

  /** An assigned name stays assigned. */
  lemma AssignedStays(scope: Scope, n: nat, m: nat, spec: Spec)
    requires n <= m <= |scope.all| && spec in Assigned(scope, n)
    ensures spec in Assigned(scope, m)
  {
    var step := (tool, specs) => Assign(scope, tool, specs);
    forall k: nat, specs | k < |scope.all| && spec in specs
      ensures spec in step(scope.all[k], specs)
    {
      AssignKeeps(scope, scope.all[k], specs, spec);
    }
    FoldKeeps(scope.all, step, (_, specs) => spec in specs, n, m);
  }


  // ----- When the order of the candidates does not matter -----

  /** The same tools in another order. */
  ghost predicate Reordered(a: seq<Tool>, b: seq<Tool>) {
    multiset(a) == multiset(b)
  }

  /** Every tool gets the same name, or none, in both scopes. */
  ghost predicate SameNames(a: Scope, b: Scope) {
    forall spec :: spec in AllAssigned(a) <==> spec in AllAssigned(b)
  }

  ghost predicate OrderFree(scope: Scope) {
    forall other :: Reordered(scope.all, other) ==> SameNames(scope, scope.(all := other))
  }

  /** The name a tool would get if it were the only one to be named. */
  function Wanted(scope: Scope, tool: Tool): string {
    NameFor(scope, tool.key, scope.reserved)
  }

  predicate CanHave(scope: Scope, tool: Tool) {
    !Unavailable(scope, Wanted(scope, tool), tool.key, scope.reserved)
  }

  /** No two different tools want the same name that each could have. */
  predicate NoClash(scope: Scope) {
    forall i, j :: 0 <= i < |scope.all| && 0 <= j < |scope.all| ==> Apart(scope, scope.all[i], scope.all[j])
  }

  predicate Apart(scope: Scope, a: Tool, b: Tool) {
    a != b && CanHave(scope, a) && CanHave(scope, b) ==> Wanted(scope, a) != Wanted(scope, b)
  }

  predicate GetsWanted(scope: Scope, tools: seq<Tool>, spec: Spec) {
    spec.tool in tools && CanHave(scope, spec.tool) && spec.name == Wanted(scope, spec.tool)
  }

  /** A plain name is shared exactly when two candidates have it. */
  lemma {:induction false} CountBounds(naming: Naming, all: seq<Tool>, name: string, n: nat)
    requires n <= |all|
    ensures Count(naming, all, name, n) > 0 <==> exists i :: 0 <= i < n && PlainName(naming, all[i].key) == name
    ensures Count(naming, all, name, n) > 1 <==>
            exists i, j :: 0 <= i < j < n && PlainName(naming, all[i].key) == name && PlainName(naming, all[j].key) == name
  {
    if n > 0 {
      CountBounds(naming, all, name, n - 1);
    }
  }

  /** A tool that is on the list twice wants its hashed name. */
  lemma RepeatedWantsHash(scope: Scope, i: nat, j: nat)
    requires i < j < |scope.all| && scope.all[i].key == scope.all[j].key
    ensures Shared(scope, PlainName(scope.naming, scope.all[j].key))
    ensures Wanted(scope, scope.all[j]) == HashedName(scope.naming, scope.all[j].key)
  {
    CountBounds(scope.naming, scope.all, PlainName(scope.naming, scope.all[j].key), |scope.all|);
  }

  /** The name belongs to nobody before the naming but, if to anybody, to this key. */
  predicate IsFree(scope: Scope, name: string, key: Key) {
    name !in scope.reserved && (name in scope.owners ==> scope.owners[name] == key)
  }

  /**
   * A candidate wants its plain name exactly when that has at most 64 characters, is free, and is no other
   * candidate's too; otherwise its hashed name. It can have the one it wants exactly when that is free.
   */
  lemma WantedExactly(scope: Scope, i: nat)
    requires i < |scope.all|
    ensures var tool := scope.all[i];
      var plain := PlainName(scope.naming, tool.key);
      var alone := forall j :: 0 <= j < |scope.all| && j != i ==> PlainName(scope.naming, scope.all[j].key) != plain;
      && Wanted(scope, tool) == (if |plain| <= 64 && IsFree(scope, plain, tool.key) && alone then plain
                                 else HashedName(scope.naming, tool.key))
      && (CanHave(scope, tool) <==> IsFree(scope, Wanted(scope, tool), tool.key))
  {
    CountBounds(scope.naming, scope.all, PlainName(scope.naming, scope.all[i].key), |scope.all|);
  }

  /** A plain name spells out the namespace and the tool; a hashed one is at most 55 characters of it and the hash. */
  lemma NamesAreRendered(naming: Naming, key: Key)
    ensures PlainName(naming, key) == "mcp__" + Sanitize(naming.namespace(key.server)) + "__" + Sanitize(key.original)
    ensures var plain := PlainName(naming, key);
      HashedName(naming, key) == plain[..if |plain| < 55 then |plain| else 55] + "_" + naming.hash(HashInput(key))
  {
  }

  /** Every name given can be called as an identifier: it begins with `mcp__` and has only letters, digits and underscores. */
  lemma NamesAreIdentifiers(scope: Scope, n: nat, i: nat)
    requires n <= |scope.all| && i < |Assigned(scope, n)|
    ensures var name := Assigned(scope, n)[i].name;
      && |name| <= 64 && "mcp__" <= name
      && forall k :: 0 <= k < |name| ==>
           'A' <= name[k] <= 'Z' || 'a' <= name[k] <= 'z' || '0' <= name[k] <= '9' || name[k] == '_'
  {
    NamesAreOk(scope, n);
    var spec := Assigned(scope, n)[i];
    assert NameOk(scope, spec);
    NamesAreRendered(scope.naming, spec.tool.key);
    var plain, hashed := PlainName(scope.naming, spec.tool.key), HashedName(scope.naming, spec.tool.key);
    assert "mcp__" == plain[..5] == hashed[..5];
    assert forall k :: 0 <= k < |plain| ==> IsSafe(plain[k]);
    assert forall k :: 0 <= k < |hashed| ==> IsSafe(hashed[k]);
  }

  /** How many characters come before the first NUL. */
  function BeforeNul(s: string): (n: nat)
    ensures n <= |s| && '\0' !in s[..n] && (n < |s| ==> s[n] == '\0')
  {
    if s == "" || s[0] == '\0' then 0 else 1 + BeforeNul(s[1..])
  }

  lemma {:induction false} BeforeNulOf(a: string, x: string)
    requires '\0' !in a
    ensures BeforeNul(a + "\0" + x) == |a|
  {
    var s := a + "\0" + x;
    if a != "" {
      assert s[1..] == a[1..] + "\0" + x;
      BeforeNulOf(a[1..], x);
    }
  }

  lemma UpToNul(a: string, x: string, b: string, y: string)
    requires '\0' !in a && '\0' !in b && a + "\0" + x == b + "\0" + y
    ensures a == b && x == y
  {
    BeforeNulOf(a, x);
    BeforeNulOf(b, y);
    var all := a + "\0" + x;
    assert a == all[..|a|] && b == all[..|b|];
    assert x == all[|a| + 1..] && y == all[|b| + 1..];
  }

  function HashTail(key: Key): string {
    key.original + (if key.uri.Some? then "\0" + key.uri.value else "")
  }

  lemma HashTailNul(key: Key)
    requires '\0' !in key.original
    ensures '\0' in HashTail(key) <==> key.uri.Some?
  {
    if key.uri.Some? {
      assert HashTail(key)[|key.original|] == '\0';
    }
  }

  /** Different keys are hashed as different strings when their servers and tools have no NUL: the resource takes part. */
  lemma KeysHashApart(a: Key, b: Key)
    requires '\0' !in a.server && '\0' !in a.original && '\0' !in b.server && '\0' !in b.original
    ensures HashInput(a) == HashInput(b) <==> a == b
  {
    if HashInput(a) == HashInput(b) {
      assert HashInput(a) == a.server + "\0" + HashTail(a) && HashInput(b) == b.server + "\0" + HashTail(b);
      UpToNul(a.server, HashTail(a), b.server, HashTail(b));
      HashTailNul(a);
      HashTailNul(b);
      if a.uri.Some? {
        assert HashTail(a) == a.original + "\0" + a.uri.value && HashTail(b) == b.original + "\0" + b.uri.value;
        UpToNul(a.original, a.uri.value, b.original, b.uri.value);
      } else {
        assert HashTail(a) == a.original && HashTail(b) == b.original;
      }
    }
  }

  /** A new tool whose wanted name nobody has gets it, if it can have it. */
  lemma AssignNew(scope: Scope, tool: Tool, specs: seq<Spec>)
    requires CanHave(scope, tool) ==> forall spec :: spec in specs ==> spec.name != Wanted(scope, tool)
    ensures Assign(scope, tool, specs) == if CanHave(scope, tool) then specs + [Spec(tool, Wanted(scope, tool))] else specs
  {
    var taken := scope.reserved + NamesOf(specs);
    assert CanHave(scope, tool) ==> Wanted(scope, tool) !in taken;
    assert NameFor(scope, tool.key, taken) == Wanted(scope, tool);
  }

  /** A tool that has the hashed name it wants gets no second one. */
  lemma AssignAgain(scope: Scope, tool: Tool, specs: seq<Spec>)
    requires Spec(tool, Wanted(scope, tool)) in specs && Shared(scope, PlainName(scope.naming, tool.key))
    ensures Assign(scope, tool, specs) == specs
  {
    assert Wanted(scope, tool) == HashedName(scope.naming, tool.key);
    assert Spec(tool, Wanted(scope, tool)).name in NamesOf(specs);
  }

  /** One more tool among tools that each have just what they want. */
  lemma OneMoreGetsWanted(scope: Scope, n: nat, specs: seq<Spec>)
    requires NoClash(scope) && n < |scope.all|
    requires forall spec :: spec in specs <==> GetsWanted(scope, scope.all[..n], spec)
    ensures var tool := scope.all[n];
      var added := if CanHave(scope, tool) && tool !in scope.all[..n] then [Spec(tool, Wanted(scope, tool))] else [];
      Assign(scope, tool, specs) == specs + added
  {
    var tool := scope.all[n];
    if CanHave(scope, tool) && tool in scope.all[..n] {
      var i :| 0 <= i < n && scope.all[i] == tool;
      RepeatedWantsHash(scope, i, n);
      assert GetsWanted(scope, scope.all[..n], Spec(tool, Wanted(scope, tool)));
      AssignAgain(scope, tool, specs);
    } else {
      forall spec | spec in specs && CanHave(scope, tool)
        ensures spec.name != Wanted(scope, tool)
      {
        OthersApart(scope, n, spec);
      }
      AssignNew(scope, tool, specs);
    }
  }

  lemma OthersApart(scope: Scope, n: nat, spec: Spec)
    requires NoClash(scope) && n < |scope.all| && CanHave(scope, scope.all[n]) && scope.all[n] !in scope.all[..n]
    requires GetsWanted(scope, scope.all[..n], spec)
    ensures spec.name != Wanted(scope, scope.all[n])
  {
    var i :| 0 <= i < n && scope.all[i] == spec.tool;
    assert Apart(scope, scope.all[i], scope.all[n]);
  }

  /** The first `n` tools have just the names they want. */
  ghost predicate EachHasWanted(scope: Scope, n: nat, specs: seq<Spec>) {
    n <= |scope.all| && forall spec :: spec in specs <==> GetsWanted(scope, scope.all[..n], spec)
  }

  lemma OneMoreSpec(scope: Scope, tools: seq<Tool>, tool: Tool, before: seq<Spec>, spec: Spec)
    requires spec in before <==> GetsWanted(scope, tools, spec)
    ensures var added := if CanHave(scope, tool) && tool !in tools then [Spec(tool, Wanted(scope, tool))] else [];
      spec in before + added <==> GetsWanted(scope, tools + [tool], spec)
  {
    assert spec.tool in tools + [tool] <==> spec.tool in tools || spec.tool == tool;
  }

  lemma EachStep(scope: Scope, n: nat, before: seq<Spec>, after: seq<Spec>)
    requires NoClash(scope) && n < |scope.all| && after == Assign(scope, scope.all[n], before)
    requires EachHasWanted(scope, n, before)
    ensures EachHasWanted(scope, n + 1, after)
  {
    var tools, tool := scope.all[..n], scope.all[n];
    var added := if CanHave(scope, tool) && tool !in tools then [Spec(tool, Wanted(scope, tool))] else [];
    OneMoreGetsWanted(scope, n, before);
    assert after == before + added;
    assert scope.all[..n + 1] == tools + [tool];
    forall spec
      ensures spec in before + added <==> GetsWanted(scope, tools + [tool], spec)
    {
      OneMoreSpec(scope, tools, tool, before, spec);
    }
  }

  /** Without a clash every tool gets just the name it wants, if it can have it. */
  lemma EachGetsWanted(scope: Scope, n: nat)
    requires NoClash(scope) && n <= |scope.all|
    ensures EachHasWanted(scope, n, Assigned(scope, n))
  {
    var step := (tool, specs) => Assign(scope, tool, specs);
    forall k: nat, specs | k < |scope.all| && EachHasWanted(scope, k, specs)
      ensures EachHasWanted(scope, k + 1, step(scope.all[k], specs))
    {
      EachStep(scope, k, specs, step(scope.all[k], specs));
    }
    FoldKeeps(scope.all, step, (k: nat, specs: seq<Spec>) => EachHasWanted(scope, k, specs), 0, n);
  }

  // ----- Counting in any order -----

  lemma {:induction false} CountPrefix(naming: Naming, a: seq<Tool>, b: seq<Tool>, name: string, n: nat)
    requires n <= |a| && n <= |b| && a[..n] == b[..n]
    ensures Count(naming, a, name, n) == Count(naming, b, name, n)
  {
    if n > 0 {
      assert a[..n - 1] == a[..n][..n - 1] && b[..n - 1] == b[..n][..n - 1];
      assert a[n - 1] == a[..n][n - 1] && b[n - 1] == b[..n][n - 1];
      CountPrefix(naming, a, b, name, n - 1);
    }
  }

  function Without(all: seq<Tool>, k: nat): seq<Tool>
    requires k < |all|
  {
    all[..k] + all[k + 1..]
  }

  /** Taking one candidate out takes out what it counts for. */
  lemma {:induction false} CountWithout(naming: Naming, all: seq<Tool>, name: string, k: nat)
    requires k < |all|
    ensures Count(naming, all, name, |all|) ==
            Count(naming, Without(all, k), name, |all| - 1) + Has(naming, all[k], name)
    decreases |all|
  {
    var n := |all| - 1;
    if k == n {
      assert Without(all, k) == all[..n];
      CountPrefix(naming, all, all[..n], name, n);
    } else {
      var most := all[..n];
      assert Without(all, k) == Without(most, k) + [all[n]];
      CountWithout(naming, most, name, k);
      CountPrefix(naming, all, most, name, n);
      CountPrefix(naming, Without(all, k), Without(most, k), name, n - 1);
    }
  }

  lemma {:induction false} CountAnyOrder(naming: Naming, a: seq<Tool>, b: seq<Tool>, name: string)
    requires Reordered(a, b)
    ensures |a| == |b| && Count(naming, a, name, |a|) == Count(naming, b, name, |b|)
    decreases |a|
  {
    SameLength(a, b);
    if a != [] {
      var n := |a| - 1;
      assert a == a[..n] + [a[n]];
      assert a[n] in multiset(b);
      var k :| 0 <= k < |b| && b[k] == a[n];
      WithoutReorders(a, b, k);
      CountAnyOrder(naming, a[..n], Without(b, k), name);
      CountWithout(naming, b, name, k);
      CountPrefix(naming, a, a[..n], name, n);
    }
  }

  lemma SameLength(a: seq<Tool>, b: seq<Tool>)
    requires Reordered(a, b)
    ensures |a| == |b|
  {
    assert |multiset(a)| == |a| && |multiset(b)| == |b|;
  }

  lemma WithoutReorders(a: seq<Tool>, b: seq<Tool>, k: nat)
    requires Reordered(a, b) && a != [] && k < |b| && b[k] == a[|a| - 1]
    ensures Reordered(a[..|a| - 1], Without(b, k))
  {
    var n := |a| - 1;
    TakenOut(b, k);
    TakenOut(a, n);
    assert Without(a, n) == a[..n];
    SameWithout(multiset(a[..n]), multiset(Without(b, k)), b[k]);
  }

  lemma TakenOut(all: seq<Tool>, k: nat)
    requires k < |all|
    ensures multiset(all) == multiset(Without(all, k)) + multiset{all[k]}
  {
    assert all == all[..k] + [all[k]] + all[k + 1..];
  }

  lemma SameWithout(a: multiset<Tool>, b: multiset<Tool>, tool: Tool)
    requires a + multiset{tool} == b + multiset{tool}
    ensures a == b
  {
    assert a == a + multiset{tool} - multiset{tool};
    assert b == b + multiset{tool} - multiset{tool};
  }

  // ----- The exact condition -----

  lemma WantedAnyOrder(scope: Scope, other: seq<Tool>, tool: Tool)
    requires Reordered(scope.all, other)
    ensures Wanted(scope, tool) == Wanted(scope.(all := other), tool)
    ensures CanHave(scope, tool) == CanHave(scope.(all := other), tool)
  {
    var there := scope.(all := other);
    CountAnyOrder(scope.naming, scope.all, other, PlainName(scope.naming, tool.key));
    assert Shared(scope, PlainName(scope.naming, tool.key)) == Shared(there, PlainName(scope.naming, tool.key));
    assert Wanted(scope, tool) == Wanted(there, tool);
    assert OwnedByOther(scope, Wanted(scope, tool), tool.key) == OwnedByOther(there, Wanted(scope, tool), tool.key);
  }

  lemma NoClashAnyOrder(scope: Scope, other: seq<Tool>)
    requires Reordered(scope.all, other) && NoClash(scope)
    ensures NoClash(scope.(all := other))
  {
    forall i, j | 0 <= i < |other| && 0 <= j < |other|
      ensures Apart(scope.(all := other), other[i], other[j])
    {
      WantedAnyOrder(scope, other, other[i]);
      WantedAnyOrder(scope, other, other[j]);
      OnBothLists(scope.all, other, other[i]);
      OnBothLists(scope.all, other, other[j]);
      var k :| 0 <= k < |scope.all| && scope.all[k] == other[i];
      var l :| 0 <= l < |scope.all| && scope.all[l] == other[j];
      assert Apart(scope, scope.all[k], scope.all[l]);
    }
  }

  lemma OnBothLists(a: seq<Tool>, b: seq<Tool>, tool: Tool)
    requires Reordered(a, b)
    ensures tool in a <==> tool in b
  {
    assert tool in a <==> tool in multiset(a);
    assert tool in b <==> tool in multiset(b);
  }

  lemma NoClashIsOrderFree(scope: Scope, other: seq<Tool>)
    requires NoClash(scope) && Reordered(scope.all, other)
    ensures SameNames(scope, scope.(all := other))
  {
    var there := scope.(all := other);
    NoClashAnyOrder(scope, other);
    EachGetsWanted(scope, |scope.all|);
    EachGetsWanted(there, |other|);
    assert scope.all[..|scope.all|] == scope.all && other[..|other|] == other;
    forall spec
      ensures spec in AllAssigned(scope) <==> spec in AllAssigned(there)
    {
      WantedAnyOrder(scope, other, spec.tool);
      OnBothLists(scope.all, other, spec.tool);
      assert GetsWanted(scope, scope.all, spec) <==> GetsWanted(there, other, spec);
    }
  }

  function MovedFirst(all: seq<Tool>, i: nat): seq<Tool>
    requires i < |all|
  {
    [all[i]] + Without(all, i)
  }

  lemma MovedFirstReorders(all: seq<Tool>, i: nat)
    requires i < |all|
    ensures Reordered(all, MovedFirst(all, i)) && MovedFirst(all, i)[0] == all[i]
  {
    assert all == all[..i] + [all[i]] + all[i + 1..];
  }

  /** The first candidate gets the name it wants, if it can have it. */
  lemma FirstGetsWanted(scope: Scope)
    requires scope.all != [] && CanHave(scope, scope.all[0])
    ensures Spec(scope.all[0], Wanted(scope, scope.all[0])) in AllAssigned(scope)
  {
    assert Assigned(scope, 0) == [];
    AssignNew(scope, scope.all[0], []);
    assert Assigned(scope, 1) == Assign(scope, scope.all[0], []);
    AssignedStays(scope, 1, |scope.all|, Spec(scope.all[0], Wanted(scope, scope.all[0])));
  }

  lemma GetsWantedInSomeOrder(scope: Scope, i: nat)
    requires OrderFree(scope) && i < |scope.all| && CanHave(scope, scope.all[i])
    ensures Spec(scope.all[i], Wanted(scope, scope.all[i])) in AllAssigned(scope)
  {
    var other := MovedFirst(scope.all, i);
    MovedFirstReorders(scope.all, i);
    WantedAnyOrder(scope, other, scope.all[i]);
    FirstGetsWanted(scope.(all := other));
    assert SameNames(scope, scope.(all := other));
  }

  /**
   * For any list, also one with repeated keys or tools: its order never decides a name exactly when no two different
   * tools want the same name that each could have.
   */
  lemma OrderDecidesNoNameExactly(scope: Scope)
    ensures OrderFree(scope) <==> NoClash(scope)
  {
    if NoClash(scope) {
      forall other | Reordered(scope.all, other)
        ensures SameNames(scope, scope.(all := other))
      {
        NoClashIsOrderFree(scope, other);
      }
    }
    if OrderFree(scope) {
      forall i, j | 0 <= i < |scope.all| && 0 <= j < |scope.all|
        ensures Apart(scope, scope.all[i], scope.all[j])
      {
        OrderFreeIsApart(scope, i, j);
      }
    }
  }

  lemma OrderFreeIsApart(scope: Scope, i: nat, j: nat)
    requires OrderFree(scope) && i < |scope.all| && j < |scope.all|
    ensures Apart(scope, scope.all[i], scope.all[j])
  {
    var a, b := scope.all[i], scope.all[j];
    if a != b && CanHave(scope, a) && CanHave(scope, b) {
      GetsWantedInSomeOrder(scope, i);
      GetsWantedInSomeOrder(scope, j);
      NamesAreOk(scope, |scope.all|);
      TwoSpecsTwoNames(AllAssigned(scope), Spec(a, Wanted(scope, a)), Spec(b, Wanted(scope, b)));
    }
  }

  lemma TwoSpecsTwoNames(specs: seq<Spec>, a: Spec, b: Spec)
    requires DistinctNames(specs) && a in specs && b in specs && a != b
    ensures a.name != b.name
  {
    var i :| 0 <= i < |specs| && specs[i] == a;
    var j :| 0 <= j < |specs| && specs[j] == b;
    assert i < j || j < i;
  }

  /** Every tool's hashed name differs from every other tool's hashed and plain name. */
  predicate HashesApart(scope: Scope) {
    forall i, j :: 0 <= i < |scope.all| && 0 <= j < |scope.all| && i != j ==>
      && HashedName(scope.naming, scope.all[i].key) != HashedName(scope.naming, scope.all[j].key)
      && HashedName(scope.naming, scope.all[i].key) != PlainName(scope.naming, scope.all[j].key)
  }

  /** A caller that knows the hashes apart gets names that no order decides. */
  lemma HashesApartSuffice(scope: Scope)
    requires HashesApart(scope)
    ensures OrderFree(scope)
  {
    forall i, j | 0 <= i < |scope.all| && 0 <= j < |scope.all|
      ensures Apart(scope, scope.all[i], scope.all[j])
    {
      if i < j {
        PairApart(scope, i, j);
      } else if j < i {
        PairApart(scope, j, i);
      }
    }
    OrderDecidesNoNameExactly(scope);
  }

  lemma PairApart(scope: Scope, i: nat, j: nat)
    requires HashesApart(scope) && i < j < |scope.all|
    ensures Wanted(scope, scope.all[i]) != Wanted(scope, scope.all[j])
  {
    CountBounds(scope.naming, scope.all, PlainName(scope.naming, scope.all[i].key), |scope.all|);
  }

  // ----- The comment that list order never decides is not so for every list -----

  /** Two tools with one plain name, and a third whose plain name is the hashed name of the first. */
  function Clashing(naming: Naming): Scope {
    var first := Key("s", "x.y", None);
    var third := Key("s", "x_y_" + naming.hash(HashInput(first)), None);
    Scope(naming, [Tool(first, ""), Tool(Key("s", "x_y", None), ""), Tool(third, "")], {}, map[])
  }

  /** Whatever the hash, there are three tools of one server for which list order decides who gets a name. */
  lemma OrderCanDecide(naming: Naming)
    requires naming.namespace("s") == "s"
    ensures forall i, j :: 0 <= i < j < |Clashing(naming).all| ==> Clashing(naming).all[i].key != Clashing(naming).all[j].key
    ensures !OrderFree(Clashing(naming))
  {
    var scope := Clashing(naming);
    var a, c := scope.all[0], scope.all[2];
    ClashingNames(naming);
    ClashingShared(scope, PlainName(naming, a.key), PlainName(naming, c.key));
    ClashingWants(scope, a, c);
    assert !Apart(scope, a, c);
    OrderDecidesNoNameExactly(scope);
  }

  lemma ClashingNames(naming: Naming)
    requires naming.namespace("s") == "s"
    ensures var all := Clashing(naming).all;
      var a, b, c := all[0].key, all[1].key, all[2].key;
      && a != b && b != c && a != c
      && PlainName(naming, a) == PlainName(naming, b)
      && PlainName(naming, c) == HashedName(naming, a)
      && |PlainName(naming, a)| < |PlainName(naming, c)| <= MAX_NAME
  {
    var all := Clashing(naming).all;
    var a, b, c := all[0].key, all[1].key, all[2].key;
    var hash := naming.hash(HashInput(a));
    assert |c.original| == 12 && |a.original| == |b.original| == 3 && a.original[1] == '.' && b.original[1] == '_';
    assert PlainName(naming, a) == "mcp__s__x_y" == PlainName(naming, b);
    assert Sanitize(hash) == hash;
    assert PlainName(naming, c) == "mcp__s__x_y" + "_" + hash == HashedName(naming, a);
  }

  lemma ClashingShared(scope: Scope, first: string, third: string)
    requires |scope.all| == 3 && first != third
    requires PlainName(scope.naming, scope.all[0].key) == first == PlainName(scope.naming, scope.all[1].key)
    requires PlainName(scope.naming, scope.all[2].key) == third
    ensures Shared(scope, first) && !Shared(scope, third)
  {
    CountBounds(scope.naming, scope.all, first, 3);
    CountBounds(scope.naming, scope.all, third, 3);
  }

  lemma ClashingWants(scope: Scope, a: Tool, c: Tool)
    requires scope.reserved == {} && scope.owners == map[]
    requires PlainName(scope.naming, c.key) == HashedName(scope.naming, a.key) && |PlainName(scope.naming, c.key)| <= MAX_NAME
    requires Shared(scope, PlainName(scope.naming, a.key)) && !Shared(scope, PlainName(scope.naming, c.key))
    ensures Wanted(scope, a) == Wanted(scope, c) && CanHave(scope, a) && CanHave(scope, c)
  {
  }

  /** Two different tools under one key: list order decides which of them the one name calls. */
  lemma RepeatedKeyOrderDecides(scope: Scope, i: nat, j: nat)
    requires i < j < |scope.all| && scope.all[i].key == scope.all[j].key && scope.all[i] != scope.all[j]
    requires HashedName(scope.naming, scope.all[i].key) !in scope.reserved
    requires !OwnedByOther(scope, HashedName(scope.naming, scope.all[i].key), scope.all[i].key)
    ensures !OrderFree(scope)
  {
    RepeatedWantsHash(scope, i, j);
    assert !Apart(scope, scope.all[i], scope.all[j]);
    OrderDecidesNoNameExactly(scope);
  }
}
