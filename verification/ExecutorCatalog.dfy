/** Paging an Executor server's app catalog: `executor-catalog.ts`. */
module ExecutorCatalog {
  import opened Wrappers

  const TOOL_CAP: nat := 1000
  const PAGE_LIMIT: nat := 200

  /** One listed tool; `rest` is its canonical path, description and input type. */
  datatype Item = Item(path: string, rest: string)

  datatype App = App(name: string, reason: Option<string>)

  datatype Next = NoNext | NotAnOffset | NextOffset(offset: int)

  /** What one `search` call comes to; `NoPage` is a result without a page, or with a malformed part of one. */
  datatype Reply =
    | CallRejects
    | ErrorResult
    | NoPage
    | Reply(items: seq<Item>, remaining: int, next: Next, unavailable: seq<App>)

  datatype SearchPage = SearchPage(items: seq<Item>, remaining: nat, next: Option<int>, unavailable: seq<App>)

  datatype FetchError = Aborted | CallRejected | SearchFailed | Malformed | TooManyPages

  datatype Catalog = Catalog(tools: seq<Item>, total: int, unavailable: seq<App>)

  datatype Request = Request(limit: nat, offset: int)

  /** `parseSearchPage` for the page asked for at `offset`. */
  function ParseSearchPage(reply: Reply, offset: int): (page: Result<SearchPage, FetchError>)
    ensures page.Failure? ==>
              page.error == if reply.CallRejects? then CallRejected else if reply.ErrorResult? then SearchFailed else Malformed
    ensures page.Success? <==>
            && reply.Reply? && reply.remaining >= 0 && !reply.next.NotAnOffset?
            && (reply.next.NextOffset? ==> reply.next.offset > offset || (reply.next.offset == offset && reply.items == []))
    ensures page.Success? ==> page.value.items == reply.items && page.value.remaining == reply.remaining
    ensures page.Success? ==> page.value.unavailable == reply.unavailable
    ensures page.Success? ==> (page.value.next.Some? <==> reply.next.NextOffset? && reply.next.offset > offset)
    ensures page.Success? && page.value.next.Some? ==> page.value.next.value == reply.next.offset
  {
    if reply.CallRejects? then Failure(CallRejected)
    else if reply.ErrorResult? then Failure(SearchFailed)
    else if reply.NoPage? || reply.remaining < 0 then Failure(Malformed)
    else
      match reply.next
      case NoNext => Success(SearchPage(reply.items, reply.remaining, None, reply.unavailable))
      case NotAnOffset => Failure(Malformed)
      case NextOffset(next) =>
        if next == offset && reply.items == [] then
          Success(SearchPage(reply.items, reply.remaining, None, reply.unavailable))
        else if next <= offset then Failure(Malformed)
        else Success(SearchPage(reply.items, reply.remaining, Some(next), reply.unavailable))
  }

  // ----- The simple form: the first entries, by key, that are accepted -----

  /** The entry is accepted and no accepted entry before it has its key. */
  ghost predicate IsFirst<T(!new)>(entries: seq<T>, accepts: T -> bool, key: T -> string, i: nat)
    requires i < |entries|
  {
    accepts(entries[i]) && forall j :: 0 <= j < i && accepts(entries[j]) ==> key(entries[j]) != key(entries[i])
  }

  /** The accepted entries with distinct keys among the first `n`, in order. */
  ghost function Firsts<T(!new)>(entries: seq<T>, accepts: T -> bool, key: T -> string, n: nat): seq<T>
    requires n <= |entries|
  {
    if n == 0 then []
    else
      Firsts(entries, accepts, key, n - 1) + (if IsFirst(entries, accepts, key, n - 1) then [entries[n - 1]] else [])
  }

  ghost function AllFirsts<T(!new)>(entries: seq<T>, accepts: T -> bool, key: T -> string): seq<T> {
    Firsts(entries, accepts, key, |entries|)
  }

  predicate Distinct<T>(entries: seq<T>, key: T -> string) {
    forall i, j :: 0 <= i < j < |entries| ==> key(entries[i]) != key(entries[j])
  }

  ghost predicate HasKey<T(!new)>(entries: seq<T>, key: T -> string, k: string) {
    exists i :: 0 <= i < |entries| && key(entries[i]) == k
  }

  /** Only accepted entries are kept, and the keys kept are exactly those of the accepted entries. */
  lemma {:induction false} FirstsKeys<T(!new)>(entries: seq<T>, accepts: T -> bool, key: T -> string, n: nat)
    requires n <= |entries|
    ensures forall e :: e in Firsts(entries, accepts, key, n) ==> accepts(e) && e in entries[..n]
    ensures forall j :: 0 <= j < n && accepts(entries[j]) ==> HasKey(Firsts(entries, accepts, key, n), key, key(entries[j]))
  {
    if n > 0 {
      FirstsKeys(entries, accepts, key, n - 1);
      var before, all := Firsts(entries, accepts, key, n - 1), Firsts(entries, accepts, key, n);
      forall j | 0 <= j < n && accepts(entries[j])
        ensures HasKey(all, key, key(entries[j]))
      {
        if j == n - 1 && IsFirst(entries, accepts, key, j) {
          assert all[|before|] == entries[j];
        } else {
          var i :| 0 <= i < n - 1 && accepts(entries[i]) && key(entries[i]) == key(entries[j]);
          var k :| 0 <= k < |before| && key(before[k]) == key(entries[i]);
          assert all[k] == before[k];
        }
      }
    }
  }

  lemma {:induction false} FirstsDistinct<T(!new)>(entries: seq<T>, accepts: T -> bool, key: T -> string, n: nat)
    requires n <= |entries|
    ensures Distinct(Firsts(entries, accepts, key, n), key) && |Firsts(entries, accepts, key, n)| <= n
  {
    if n > 0 {
      FirstsDistinct(entries, accepts, key, n - 1);
      FirstsKeys(entries, accepts, key, n - 1);
      var before := Firsts(entries, accepts, key, n - 1);
      forall i | 0 <= i < |before| && IsFirst(entries, accepts, key, n - 1)
        ensures key(before[i]) != key(entries[n - 1])
      {
        assert before[i] in before;
      }
    }
  }

  /** Whether the next entry is kept depends only on the keys kept so far. */
  lemma FirstIsNew<T(!new)>(entries: seq<T>, accepts: T -> bool, key: T -> string, n: nat, keys: set<string>)
    requires n < |entries| && keys == (set e | e in Firsts(entries, accepts, key, n) :: key(e))
    ensures IsFirst(entries, accepts, key, n) <==> accepts(entries[n]) && key(entries[n]) !in keys
  {
    FirstsKeys(entries, accepts, key, n);
    var kept := Firsts(entries, accepts, key, n);
    assert forall k :: HasKey(kept, key, k) <==> k in keys by {
      forall k | k in keys
        ensures HasKey(kept, key, k)
      {
        var e :| e in kept && key(e) == k;
        var i :| 0 <= i < |kept| && kept[i] == e;
      }
      forall i | 0 <= i < |kept|
        ensures key(kept[i]) in keys
      {
        assert kept[i] in kept;
      }
    }
    if accepts(entries[n]) && key(entries[n]) in keys {
      var e :| e in kept && key(e) == key(entries[n]);
      var j :| 0 <= j < n && entries[..n][j] == e;
    }
  }

  /** More entries only add to what is kept. */
  lemma {:induction false} FirstsPrefix<T(!new)>(entries: seq<T>, accepts: T -> bool, key: T -> string, n: nat, m: nat)
    requires n <= m <= |entries|
    ensures Firsts(entries, accepts, key, n) <= Firsts(entries, accepts, key, m)
  {
    if n < m {
      FirstsPrefix(entries, accepts, key, n, m - 1);
    }
  }

  /** What is kept of the first entries does not depend on the ones after them. */
  lemma {:induction false} FirstsLocal<T(!new)>(a: seq<T>, b: seq<T>, accepts: T -> bool, key: T -> string, n: nat)
    requires n <= |a| && a <= b
    ensures Firsts(a, accepts, key, n) == Firsts(b, accepts, key, n)
  {
    if n > 0 {
      FirstsLocal(a, b, accepts, key, n - 1);
      assert IsFirst(a, accepts, key, n - 1) <==> IsFirst(b, accepts, key, n - 1);
    }
  }

  // ----- The fetch -----

  /** The server's answers: to the nth call, given its limit and offset. It may change its mind between calls. */
  type Server = (nat, Request) -> Reply

  /** All items the server listed in answer to the first `n` calls. */
  ghost function Listed(server: Server, calls: seq<Request>, n: nat): seq<Item>
    requires n <= |calls|
  {
    if n == 0 then []
    else
      var reply := server(n - 1, calls[n - 1]);
      Listed(server, calls, n - 1) + (if reply.Reply? then reply.items else [])
  }

  ghost function ListedApps(server: Server, calls: seq<Request>, n: nat): seq<App>
    requires n <= |calls|
  {
    if n == 0 then []
    else
      var reply := server(n - 1, calls[n - 1]);
      ListedApps(server, calls, n - 1) + (if reply.Reply? then reply.unavailable else [])
  }

  lemma {:induction false} ListedLater(server: Server, calls: seq<Request>, call: Request, n: nat)
    requires n <= |calls|
    ensures Listed(server, calls + [call], n) == Listed(server, calls, n)
    ensures ListedApps(server, calls + [call], n) == ListedApps(server, calls, n)
  {
    if n > 0 {
      ListedLater(server, calls, call, n - 1);
      assert (calls + [call])[n - 1] == calls[n - 1];
    }
  }

  function Path(item: Item): string {
    item.path
  }

  ghost function PathsOf(tools: seq<Item>): set<string> {
    set e | e in tools :: Path(e)
  }

  function AppName(app: App): string {
    app.name
  }

  function Any(app: App): bool {
    true
  }

  /** The first entries of `all`, as many as the cap allows. */
  predicate Capped(tools: seq<Item>, all: seq<Item>) {
    tools <= all && |tools| <= 1000 && (|tools| < 1000 ==> tools == all)
  }

  /** One more listed entry is kept exactly when it is accepted and its key is new. */
  lemma OneMore<T(!new)>(listed: seq<T>, entry: T, accepts: T -> bool, key: T -> string, keys: set<string>)
    requires keys == (set e | e in AllFirsts(listed, accepts, key) :: key(e))
    ensures AllFirsts(listed + [entry], accepts, key) ==
            AllFirsts(listed, accepts, key) + (if accepts(entry) && key(entry) !in keys then [entry] else [])
  {
    FirstsLocal(listed, listed + [entry], accepts, key, |listed|);
    FirstIsNew(listed + [entry], accepts, key, |listed|, keys);
  }

  /** The inner loop over a page's items. `taken` is how many it looked at. */
  method TakeItems(items: seq<Item>, accepts: Item -> bool, tools: seq<Item>, paths: set<string>, skipped: int,
                   ghost listed: seq<Item>)
      returns (tools': seq<Item>, paths': set<string>, skipped': int, ghost taken: nat)
    requires tools == AllFirsts(listed, accepts, Path) && |tools| <= TOOL_CAP
    requires paths == PathsOf(tools)
    ensures taken <= |items| && (taken < |items| ==> |tools'| == TOOL_CAP) && |tools| <= |tools'| <= TOOL_CAP
    ensures |tools'| <= |tools| + taken
    ensures tools' == AllFirsts(listed + items[..taken], accepts, Path)
    ensures paths' == PathsOf(tools')
    ensures skipped' == skipped + taken - (|tools'| - |tools|)
  {
    tools', paths', skipped', taken := tools, paths, skipped, 0;
    assert listed + items[..0] == listed;
    for i := 0 to |items|
      invariant taken == i && |tools| <= |tools'| <= TOOL_CAP && |tools'| <= |tools| + taken
      invariant tools' == AllFirsts(listed + items[..taken], accepts, Path)
      invariant paths' == PathsOf(tools')
      invariant skipped' == skipped + taken - (|tools'| - |tools|)
    {
      if |tools'| == TOOL_CAP {
        return;
      }
      OneMore(listed + items[..i], items[i], accepts, Path, paths');
      assert listed + items[..i] + [items[i]] == listed + items[..i + 1];
      if Path(items[i]) in paths' || !accepts(items[i]) {
        skipped' := skipped' + 1;
      } else {
        paths' := paths' + {Path(items[i])};
        tools' := tools' + [items[i]];
      }
      taken := i + 1;
    }
  }

  /** The loop over a page's unavailable apps: the first listing of a name wins. */
  method TakeApps(apps: seq<App>, known: seq<App>, ghost listed: seq<App>) returns (known': seq<App>)
    requires known == AllFirsts(listed, Any, AppName)
    ensures known' == AllFirsts(listed + apps, Any, AppName)
  {
    known' := known;
    var names := set e | e in known :: AppName(e);
    assert listed + apps[..0] == listed;
    for i := 0 to |apps|
      invariant known' == AllFirsts(listed + apps[..i], Any, AppName)
      invariant names == (set e | e in known' :: AppName(e))
    {
      ghost var before := listed + apps[..i];
      OneMore(before, apps[i], Any, AppName, names);
      assert before + [apps[i]] == listed + apps[..i + 1];
      if AppName(apps[i]) !in names {
        known' := known' + [apps[i]];
        names := names + {AppName(apps[i])};
      }
    }
    assert apps[..|apps|] == apps;
  }

  /** The server answers every call within a page limit with a non-empty slice of a fixed catalog. */
  ghost predicate Slices(server: Server, catalog: seq<Item>) {
    forall n, limit, offset :: 0 < limit <= PAGE_LIMIT && 0 <= offset <= |catalog| ==>
      SliceOf(server(n, Request(limit, offset)), catalog, limit, offset)
  }

  predicate SliceOf(reply: Reply, catalog: seq<Item>, limit: nat, offset: nat)
    requires offset <= |catalog|
  {
    && reply.Reply?
    && |reply.items| <= limit
    && (offset < |catalog| ==> reply.items != [])
    && offset + |reply.items| <= |catalog|
    && reply.items == catalog[offset..offset + |reply.items|]
    && reply.remaining == |catalog| - offset - |reply.items|
    && reply.next == if reply.remaining == 0 then NoNext else NextOffset(offset + |reply.items|)
  }

  /** The page asked for after `n` calls: the first, or the next one the last answer named. */
  function NextOffsetOf(server: Server, calls: seq<Request>, n: nat): (next: Option<int>)
    requires n <= |calls|
  {
    if n == 0 then Some(0)
    else
      match ParseSearchPage(server(n - 1, calls[n - 1]), calls[n - 1].offset)
      case Success(page) => page.next
      case Failure(_) => None
  }

  /** The `i`th call asks for the page named by the answer before it, with a limit of what still fits under the cap. */
  ghost predicate CallOk(server: Server, accepts: Item -> bool, calls: seq<Request>, i: nat)
    requires i < |calls|
  {
    var room := TOOL_CAP - |AllFirsts(Listed(server, calls, i), accepts, Path)|;
    && room > 0
    && calls[i].limit == (if 200 < room then 200 else room)
    && NextOffsetOf(server, calls, i) == Some(calls[i].offset)
  }

  ghost predicate CallsOk(server: Server, accepts: Item -> bool, calls: seq<Request>) {
    forall i :: 0 <= i < |calls| ==> CallOk(server, accepts, calls, i)
  }

  /** Every call's answer is a well-formed page. */
  predicate AllPages(server: Server, calls: seq<Request>) {
    forall i :: 0 <= i < |calls| ==> ParseSearchPage(server(i, calls[i]), calls[i].offset).Success?
  }

  /** What the fetch has kept after some calls. */
  ghost predicate Kept(server: Server, accepts: Item -> bool, calls: seq<Request>,
                       tools: seq<Item>, apps: seq<App>, skipped: int) {
    && tools == AllFirsts(Listed(server, calls, |calls|), accepts, Path)
    && apps == AllFirsts(ListedApps(server, calls, |calls|), Any, AppName)
    && skipped == |Listed(server, calls, |calls|)| - |tools|
  }

  lemma NextCallOk(server: Server, accepts: Item -> bool, calls: seq<Request>, call: Request)
    requires NextOffsetOf(server, calls, |calls|) == Some(call.offset)
    requires var room := TOOL_CAP - |AllFirsts(Listed(server, calls, |calls|), accepts, Path)|;
      room > 0 && call.limit == if PAGE_LIMIT < room then PAGE_LIMIT else room
    ensures CallOk(server, accepts, calls + [call], |calls|)
  {
    ListedLater(server, calls, call, |calls|);
    assert calls != [] ==> (calls + [call])[|calls| - 1] == calls[|calls| - 1];
  }

  lemma CallMade(server: Server, accepts: Item -> bool, calls: seq<Request>, call: Request)
    requires CallsOk(server, accepts, calls) && NextOffsetOf(server, calls, |calls|) == Some(call.offset)
    requires var room := TOOL_CAP - |AllFirsts(Listed(server, calls, |calls|), accepts, Path)|;
      room > 0 && call.limit == if PAGE_LIMIT < room then PAGE_LIMIT else room
    ensures CallsOk(server, accepts, calls + [call])
    ensures AllPages(server, calls + [call]) <==>
            AllPages(server, calls) && ParseSearchPage(server(|calls|, call), call.offset).Success?
    ensures ParseSearchPage(server(|calls|, call), call.offset).Success? ==>
              NextOffsetOf(server, calls + [call], |calls + [call]|) ==
              ParseSearchPage(server(|calls|, call), call.offset).value.next
  {
    var calls' := calls + [call];
    NextCallOk(server, accepts, calls, call);
    forall i | 0 <= i < |calls|
      ensures CallOk(server, accepts, calls', i)
    {
      assert CallOk(server, accepts, calls, i);
      ListedLater(server, calls, call, i);
      assert i > 0 ==> calls'[i - 1] == calls[i - 1];
    }
    assert forall i :: 0 <= i < |calls| ==> calls'[i] == calls[i];
    assert calls'[|calls|] == call;
  }

  /** No page is asked for twice: every call's offset is beyond the one before. */
  lemma {:induction false} OffsetsGrow(server: Server, accepts: Item -> bool, calls: seq<Request>, i: nat, j: nat)
    requires CallsOk(server, accepts, calls) && i < j < |calls|
    ensures 0 <= calls[i].offset < calls[j].offset
  {
    assert CallOk(server, accepts, calls, j);
    if i < j - 1 {
      OffsetsGrow(server, accepts, calls, i, j - 1);
    } else if i > 0 {
      OffsetsGrow(server, accepts, calls, i - 1, i);
    } else {
      assert CallOk(server, accepts, calls, 0);
    }
  }

  lemma PageListed(server: Server, calls: seq<Request>, call: Request)
    requires server(|calls|, call).Reply?
    ensures var reply, calls' := server(|calls|, call), calls + [call];
      && Listed(server, calls', |calls'|) == Listed(server, calls, |calls|) + reply.items
      && ListedApps(server, calls', |calls'|) == ListedApps(server, calls, |calls|) + reply.unavailable
  {
    ListedLater(server, calls, call, |calls|);
  }

  /** Stopping at the cap inside a page still gives the first tools of everything listed. */
  lemma CappedInPage(listed: seq<Item>, items: seq<Item>, accepts: Item -> bool, taken: nat)
    requires taken <= |items| && |AllFirsts(listed + items[..taken], accepts, Path)| <= TOOL_CAP
    requires taken < |items| ==> |AllFirsts(listed + items[..taken], accepts, Path)| == TOOL_CAP
    ensures Capped(AllFirsts(listed + items[..taken], accepts, Path), AllFirsts(listed + items, accepts, Path))
  {
    var some, all := listed + items[..taken], listed + items;
    assert some == all[..|some|];
    FirstsLocal(some, all, accepts, Path, |some|);
    FirstsPrefix(all, accepts, Path, |some|, |all|);
    assert taken == |items| ==> some == all;
  }

  /**
   * The result is right for a fixed catalog of which `read` was read: its tools are the first accepted ones of
   * the whole catalog, and its total counts the catalog without the tools skipped, so just the tools below the cap.
   */
  ghost predicate RightFor(c: Catalog, read: seq<Item>, catalog: seq<Item>, accepts: Item -> bool) {
    && Capped(c.tools, AllFirsts(catalog, accepts, Path))
    && read <= catalog
    && c.total == |catalog| - (|read| - |c.tools|)
    && (|c.tools| < TOOL_CAP ==> c.total == |c.tools|)
  }

  lemma SlicesEnd(c: Catalog, read: seq<Item>, catalog: seq<Item>, accepts: Item -> bool, offset: nat)
    requires offset <= |catalog| && read == catalog[..offset]
    requires c.tools == AllFirsts(read, accepts, Path) && |c.tools| <= TOOL_CAP
    requires offset < |catalog| ==> |c.tools| == TOOL_CAP
    requires c.total == |catalog| - (|read| - |c.tools|)
    ensures RightFor(c, read, catalog, accepts)
  {
    FirstsLocal(read, catalog, accepts, Path, offset);
    FirstsPrefix(catalog, accepts, Path, offset, |catalog|);
    assert offset == |catalog| ==> read == catalog;
  }

  /**
   * A success has only well-formed pages, ends at the last page or the cap, and holds exactly the first accepted
   * tools and the first app of each name that the pages list.
   */
  ghost predicate Succeeds(c: Catalog, server: Server, accepts: Item -> bool, calls: seq<Request>) {
    && calls != [] && AllPages(server, calls)
    && Capped(c.tools, AllFirsts(Listed(server, calls, |calls|), accepts, Path))
    && c.unavailable == AllFirsts(ListedApps(server, calls, |calls|), Any, AppName)
    && (|c.tools| < TOOL_CAP ==> NextOffsetOf(server, calls, |calls|).None?)
    && TotalOk(c, server(|calls| - 1, calls[|calls| - 1]), calls[|calls| - 1], accepts, Listed(server, calls, |calls|))
  }

  /** The total of a last page within its limit is what the server reports, less the tools skipped. */
  ghost predicate TotalOk(c: Catalog, last: Reply, request: Request, accepts: Item -> bool, listed: seq<Item>) {
    last.Reply? && |last.items| <= request.limit ==>
      && c.tools == AllFirsts(listed, accepts, Path)
      && c.total == request.offset + |last.items| + last.remaining - (|listed| - |c.tools|)
  }

  /** Every failure has its reason. */
  predicate FailsFor(error: FetchError, server: Server, aborts: nat -> bool, calls: seq<Request>) {
    match error
    case Aborted => aborts(|calls|)
    case TooManyPages => |calls| == TOOL_CAP
    case _ =>
      var n := |calls| - 1;
      calls != [] && ParseSearchPage(server(n, calls[n]), calls[n].offset) == Failure(error)
  }

  /** One well-formed page: its tools and its unavailable apps. */
  method TakePage(server: Server, accepts: Item -> bool, ghost calls: seq<Request>, ghost request: Request,
                  page: SearchPage, tools: seq<Item>, paths: set<string>, apps: seq<App>, skipped: int)
      returns (tools': seq<Item>, paths': set<string>, apps': seq<App>, skipped': int)
    requires Kept(server, accepts, calls, tools, apps, skipped) && paths == PathsOf(tools) && |tools| < TOOL_CAP
    requires var reply := server(|calls|, request);
      && reply.Reply?
      && page.items == reply.items && page.remaining == reply.remaining && page.unavailable == reply.unavailable
    requires request.limit <= TOOL_CAP - |tools|
    ensures paths' == PathsOf(tools') && |tools'| <= TOOL_CAP
    ensures Capped(tools', AllFirsts(Listed(server, calls + [request], |calls + [request]|), accepts, Path))
    ensures |tools'| < TOOL_CAP ==> Kept(server, accepts, calls + [request], tools', apps', skipped')
    ensures TotalOk(Catalog(tools', request.offset + |page.items| + page.remaining - skipped', apps'),
                    server(|calls|, request), request, accepts, Listed(server, calls + [request], |calls + [request]|))
    ensures apps' == AllFirsts(ListedApps(server, calls + [request], |calls + [request]|), Any, AppName)
  {
    ghost var listed, listedApps := Listed(server, calls, |calls|), ListedApps(server, calls, |calls|);
    ghost var taken;
    PageListed(server, calls, request);
    assert |calls + [request]| == |calls| + 1;
    tools', paths', skipped', taken := TakeItems(page.items, accepts, tools, paths, skipped, listed);
    apps' := TakeApps(page.unavailable, apps, listedApps);
    assert page.items[..|page.items|] == page.items;
    CappedInPage(listed, page.items, accepts, taken);
  }

  /** `fetchExecutorCatalog`, with `aborts` saying before which calls the signal is aborted. `calls` is what it sent. */
  method FetchExecutorCatalog(server: Server, accepts: Item -> bool, aborts: nat -> bool)
      returns (r: Result<Catalog, FetchError>, calls: seq<Request>)
    ensures |calls| <= TOOL_CAP && CallsOk(server, accepts, calls)
    ensures r.Success? ==> Succeeds(r.value, server, accepts, calls)
    ensures r.Failure? ==> FailsFor(r.error, server, aborts, calls)
  {
    var tools, paths, apps, skipped := [], {}, [], 0;
    var offset, pages := 0, 0;
    calls := [];
    while true
      invariant pages == |calls| <= TOOL_CAP && |tools| < TOOL_CAP && paths == PathsOf(tools)
      invariant CallsOk(server, accepts, calls) && AllPages(server, calls)
      invariant NextOffsetOf(server, calls, |calls|) == Some(offset)
      invariant Kept(server, accepts, calls, tools, apps, skipped)
      decreases TOOL_CAP - pages
    {
      if aborts(pages) {
        return Failure(Aborted), calls;
      }
      pages := pages + 1;
      if pages > TOOL_CAP {
        return Failure(TooManyPages), calls;
      }
      var request := Request(if PAGE_LIMIT < TOOL_CAP - |tools| then PAGE_LIMIT else TOOL_CAP - |tools|, offset);
      var reply := server(pages - 1, request);
      CallMade(server, accepts, calls, request);
      var parsed := ParseSearchPage(reply, offset);
      if parsed.Failure? {
        return Failure(parsed.error), calls + [request];
      }
      var page := parsed.value;
      tools, paths, apps, skipped := TakePage(server, accepts, calls, request, page, tools, paths, apps, skipped);
      calls := calls + [request];
      if page.next.None? || |tools| == TOOL_CAP {
        return Success(Catalog(tools, offset + |page.items| + page.remaining - skipped, apps)), calls;
      }
      offset := page.next.value;
    }
  }

  /** Against any server the tools are accepted, have distinct paths, fit the cap, and were all listed. */
  lemma ToolsAreDistinct(c: Catalog, server: Server, accepts: Item -> bool, calls: seq<Request>)
    requires Succeeds(c, server, accepts, calls)
    ensures |c.tools| <= TOOL_CAP && Distinct(c.tools, Path)
    ensures forall item :: item in c.tools ==> accepts(item) && item in Listed(server, calls, |calls|)
  {
    var listed := Listed(server, calls, |calls|);
    FirstsDistinct(listed, accepts, Path, |listed|);
    FirstsKeys(listed, accepts, Path, |listed|);
    assert forall i :: 0 <= i < |c.tools| ==> c.tools[i] == AllFirsts(listed, accepts, Path)[i];
  }

  // ----- Against a server that slices a fixed catalog -----

  /** The catalog is read in order: `n` calls have listed exactly its tools up to the next offset. */
  lemma {:induction false} SlicedSoFar(server: Server, accepts: Item -> bool, catalog: seq<Item>, calls: seq<Request>, n: nat)
    requires Slices(server, catalog) && CallsOk(server, accepts, calls) && n <= |calls|
    ensures |Listed(server, calls, n)| <= |catalog| && Listed(server, calls, n) == catalog[..|Listed(server, calls, n)|]
    ensures NextOffsetOf(server, calls, n) ==
            if n > 0 && |Listed(server, calls, n)| == |catalog| then None else Some(|Listed(server, calls, n)|)
    ensures n > 0 ==>
              && 0 <= calls[n - 1].offset <= |catalog|
              && SliceOf(server(n - 1, calls[n - 1]), catalog, calls[n - 1].limit, calls[n - 1].offset)
              && |Listed(server, calls, n)| == calls[n - 1].offset + |server(n - 1, calls[n - 1]).items|
  {
    if n > 0 {
      SlicedSoFar(server, accepts, catalog, calls, n - 1);
      assert CallOk(server, accepts, calls, n - 1);
      var call, read := calls[n - 1], |Listed(server, calls, n - 1)|;
      assert call == Request(call.limit, read);
      var reply := server(n - 1, call);
      assert SliceOf(reply, catalog, call.limit, read);
      assert catalog[..read] + catalog[read..read + |reply.items|] == catalog[..read + |reply.items|];
    }
  }

  /** Against a slicing server a fetch fails only for its signal or its page limit: no page is found malformed. */
  lemma SlicesAreWellFormed(server: Server, accepts: Item -> bool, aborts: nat -> bool, catalog: seq<Item>,
                            calls: seq<Request>, error: FetchError)
    requires Slices(server, catalog) && CallsOk(server, accepts, calls) && FailsFor(error, server, aborts, calls)
    ensures error == Aborted || error == TooManyPages
  {
    if calls != [] {
      SlicedSoFar(server, accepts, catalog, calls, |calls|);
    }
  }

  lemma SlicedTotal(c: Catalog, last: Reply, request: Request, accepts: Item -> bool, catalog: seq<Item>, read: seq<Item>)
    requires TotalOk(c, last, request, accepts, read)
    requires 0 <= request.offset <= |catalog| && SliceOf(last, catalog, request.limit, request.offset)
    requires |read| == request.offset + |last.items|
    ensures c.tools == AllFirsts(read, accepts, Path) && c.total == |catalog| - (|read| - |c.tools|)
  {
  }

  lemma SlicedLastPage(server: Server, accepts: Item -> bool, catalog: seq<Item>, calls: seq<Request>, c: Catalog,
                       read: seq<Item>)
    requires Slices(server, catalog) && CallsOk(server, accepts, calls) && Succeeds(c, server, accepts, calls)
    requires read == Listed(server, calls, |calls|)
    ensures |read| <= |catalog| && read == catalog[..|read|]
    ensures |read| < |catalog| ==> |c.tools| == TOOL_CAP
    ensures c.tools == AllFirsts(read, accepts, Path) && |c.tools| <= TOOL_CAP
    ensures c.total == |catalog| - (|read| - |c.tools|)
  {
    var n := |calls|;
    SlicedSoFar(server, accepts, catalog, calls, n);
    SlicedTotal(c, server(n - 1, calls[n - 1]), calls[n - 1], accepts, catalog, read);
  }

  /**
   * Against a slicing server a success holds exactly the first accepted tools of the whole catalog, with a total
   * of the catalog less the tools skipped, which is the tools found whenever the last page was reached.
   */
  lemma SlicedFetch(server: Server, accepts: Item -> bool, catalog: seq<Item>, calls: seq<Request>, c: Catalog)
    requires Slices(server, catalog) && CallsOk(server, accepts, calls) && Succeeds(c, server, accepts, calls)
    ensures RightFor(c, Listed(server, calls, |calls|), catalog, accepts)
  {
    var read := Listed(server, calls, |calls|);
    SlicedLastPage(server, accepts, catalog, calls, c, read);
    SlicesEnd(c, read, catalog, accepts, |read|);
  }
}
