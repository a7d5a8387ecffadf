/** Re-listing a connection's tools after `tools/list_changed`: `host-managed.ts`. */
module CatalogRefresh {
  import opened Wrappers

  /** A tool frozen at start-up; `checked` says whether it has an output schema. */
  datatype CatalogTool = CatalogTool(name: string, fingerprint: string, checked: bool)

  /** A re-list's outcome: the listed tools as (name, fingerprint) pairs, or any failure. */
  datatype Listing = Listed(tools: seq<(string, string)>) | ListFailed

  /** `refreshing` is whether the connection's refresh promise is set. */
  datatype Connection = Connection(
    open: bool, selected: Option<seq<CatalogTool>>, retired: set<string>, refreshing: bool, refreshRequested: bool)

  /** The fingerprint a map built from the listed tools in order holds for a name. */
  function ListedAs(tools: seq<(string, string)>, name: string): (fingerprint: Option<string>) {
    if tools == [] then None
    else
      var last := tools[|tools| - 1];
      if last.0 == name then Some(last.1) else ListedAs(tools[..|tools| - 1], name)
  }

  /** A name is listed as its last tool of that name, if it has one. */
  lemma {:induction false} ListedAsLast(tools: seq<(string, string)>, name: string, i: nat)
    requires i < |tools| && tools[i].0 == name && forall j :: i < j < |tools| ==> tools[j].0 != name
    ensures ListedAs(tools, name) == Some(tools[i].1)
  {
    if i < |tools| - 1 {
      ListedAsLast(tools[..|tools| - 1], name, i);
    }
  }

  lemma {:induction false} NotListed(tools: seq<(string, string)>, name: string)
    requires forall j :: 0 <= j < |tools| ==> tools[j].0 != name
    ensures ListedAs(tools, name) == None
  {
    if tools != [] {
      NotListed(tools[..|tools| - 1], name);
    }
  }

  /** The re-list failed, or does not show the tool as it was frozen. */
  predicate Retires(listing: Listing, tool: CatalogTool) {
    listing.ListFailed? || ListedAs(listing.tools, tool.name) != Some(tool.fingerprint)
  }

  /** The re-list was answered, and the last tool it lists by the name has the frozen fingerprint. */
  predicate ShowsUnchanged(listing: Listing, tool: CatalogTool) {
    listing.Listed? &&
    exists i :: 0 <= i < |listing.tools| && listing.tools[i] == (tool.name, tool.fingerprint) && IsLastOfName(listing.tools, i)
  }

  predicate IsLastOfName(tools: seq<(string, string)>, i: nat)
    requires i < |tools|
  {
    forall j :: i < j < |tools| ==> tools[j].0 != tools[i].0
  }

  lemma {:induction false} LastOfName(tools: seq<(string, string)>, name: string) returns (i: nat)
    requires ListedAs(tools, name).Some?
    ensures i < |tools| && tools[i] == (name, ListedAs(tools, name).value) && IsLastOfName(tools, i)
  {
    var last := |tools| - 1;
    if tools[last].0 == name {
      i := last;
    } else {
      i := LastOfName(tools[..last], name);
    }
  }

  /** A re-list retires exactly the tools it does not show unchanged. */
  lemma RetiresExactly(listing: Listing, tool: CatalogTool)
    ensures Retires(listing, tool) <==> !ShowsUnchanged(listing, tool)
  {
    if listing.Listed? {
      if ListedAs(listing.tools, tool.name).Some? {
        var i := LastOfName(listing.tools, tool.name);
      }
      forall i | 0 <= i < |listing.tools| && listing.tools[i] == (tool.name, tool.fingerprint) && IsLastOfName(listing.tools, i)
        ensures !Retires(listing, tool)
      {
        ListedAsLast(listing.tools, tool.name, i);
      }
    }
  }

  ghost function RetiredBy(listing: Listing, selected: seq<CatalogTool>): set<string> {
    set i | 0 <= i < |selected| && Retires(listing, selected[i]) :: selected[i].name
  }

  /** `requestCatalogRefresh` up to the first re-list it begins. */
  function Request(c: Connection): Connection {
    if c.selected.None? || c.refreshing then c.(refreshRequested := true)
    else c.(refreshing := true, refreshRequested := false)
  }

  /** One answered re-list: retire, then re-list once more or clear the refresh. */
  ghost function Answered(c: Connection, listing: Listing): Connection
    requires c.selected.Some?
  {
    c.(retired := c.retired + RetiredBy(listing, c.selected.value),
       refreshing := c.refreshRequested,
       refreshRequested := false)
  }

  /** The end of `connectServer`. */
  function Select(c: Connection, tools: seq<CatalogTool>): Connection {
    var selected := c.(selected := Some(tools));
    if c.refreshRequested then Request(selected) else selected
  }
}

/** The protocol of a host-managed tool call, step by step between its awaits: `host-managed.ts`. */
module HostCallSteps {
  import opened Wrappers
  import opened CatalogRefresh

  datatype Decision = AllowOnce | AllowForSession | Deny | DenyWithReason | Abstain | ApprovalThrows

  predicate Allows(d: Decision) {
    d.AllowOnce? || d.AllowForSession?
  }

  /** A raw tool result: its own error flag, whether its structured content validates, and its resource links. */
  datatype CallResult = CallResult(isError: bool, validates: bool, links: seq<string>)

  datatype Delivery = NotSent | MayHaveRun | ServerError | InvalidResult

  /** A `HostManagedMcpError`: its delivery, and whether the approval gate refused the request. */
  datatype HostError = HostError(delivery: Delivery, denied: bool)

  /** How the host's `onToolCall` ends. It may throw a `HostManagedMcpError` of this call, of another, or its own. */
  datatype Outcome = Returned | Threw(error: Option<HostError>)

  /** How a call ends: refused before the host was asked, or as the host's `onToolCall` does. */
  datatype Ending = Early | Host(outcome: Outcome)

  /** Why a request failed; the host's transport may throw a `HostManagedMcpError` too. */
  datatype Cause = HostCause(error: HostError) | JsonRpcError | InvalidAnswer | NotConnected | OtherCause

  function Classify(cause: Cause): Delivery {
    match cause
    case HostCause(error) => error.delivery
    case JsonRpcError => ServerError
    case InvalidAnswer => InvalidResult
    case NotConnected => NotSent
    case OtherCause => MayHaveRun
  }

  /** Where `executeTool` itself stands. */
  datatype Stage = Approving | Waiting | Checked(retired: bool) | InHost | Ended

  /** Where the one `send` of a call stands. */
  datatype Sending = Unsent | SendWaits | SendChecked(retired: bool) | Requested | Rejected(delivery: Delivery) | Answer

  datatype Call = Call(
    conn: nat, tool: CatalogTool, args: string, stage: Stage, aborted: bool, prepared: bool,
    dispatched: bool, sending: Sending, sent: bool, settled: bool, result: Option<CallResult>)

  datatype ReadStage = ReadApproving | ReadRefused | Prepared

  datatype LinkedRead = LinkedRead(call: nat, uri: string, stage: ReadStage, dispatched: bool)

  /** What an observer sees of a connection: each notification numbered, each re-list by the number it began after. */
  datatype ServerEntry =
    | Notified(number: nat)
    | ListBegun(after: nat)
    | ListDone(after: nat, listing: Listing)
    | RefreshCleared
    | ConnectionClosed

  datatype CallEntry =
    | Allowed(args: string)
    | DispatchBegun
    | Sent(conn: nat, tool: CatalogTool, args: string)
    | Validated(links: seq<string>)
    | Rejected(delivery: Delivery)
    | Settled(ending: Ending, notRun: bool)
    | Aborted

  datatype ReadEntry = ReadAllowed(call: nat, uri: string) | ReadSent(call: nat, conn: nat, uri: string)

  /** What an observer sees of the adapter, in order. */
  datatype Entry =
    | OfServer(conn: nat, s: ServerEntry)
    | OfCall(call: nat, c: CallEntry)
    | OfRead(read: nat, r: ReadEntry)
    | AdapterClosed

  /**
   * A connection with the specification's own count of its notifications, the re-lists in flight (each by the
   * count it began after), and the count the latest answered one began after.
   */
  datatype Server = Server(c: Connection, notified: nat, asked: seq<nat>, covered: nat)

  datatype World = World(
    closed: bool, servers: map<nat, Server>, calls: map<nat, Call>, links: map<nat, LinkedRead>, log: seq<Entry>)

  datatype ServerEvent = ToolsSelected(tools: seq<CatalogTool>) | ListChanged | ListAnswered(index: nat, listing: Listing) | ConnectionCloses

  /** `RefreshAwaited` and `SendAwaited`: the refresh that `isRetired` awaits has cleared. */
  datatype CallEvent =
    | ApprovalAnswered(decision: Decision)
    | RefreshAwaited
    | CallContinues
    | HostDispatches
    | SendAwaited
    | SendContinues
    | RequestFails(cause: Cause)
    | ResponseArrives(result: CallResult)
    | HostSettles(outcome: Outcome)
    | CallAborts

  datatype ReadEvent = ReadApprovalAnswered(decision: Decision) | HostReads

  datatype Event =
    | ServerMoves(conn: nat, s: ServerEvent)
    | CallBegins(call: nat, conn: nat, tool: CatalogTool, args: string)
    | CallMoves(call: nat, c: CallEvent)
    | HostLinks(call: nat, read: nat, uri: string)
    | ReadMoves(read: nat, r: ReadEvent)
    | AdapterCloses

  /** The check of `send` and of the reads. */
  predicate Unavailable(call: Call, closed: bool, open: bool) {
    call.settled || closed || !open || call.aborted
  }

  // ----- What each step does to the entity it belongs to -----

  function BeginCall(conn: nat, tool: CatalogTool, args: string, closed: bool, open: bool): Call {
    Call(conn, tool, args, if closed || !open then Ended else Approving, false, false, false, Unsent, false, false, None)
  }

  /** `isRetired`, as far as it runs without waiting: none while a refresh is under way. */
  function RetiredVerdict(c: Connection, name: string): Option<bool> {
    if c.refreshing then None else Some(name in c.retired)
  }

  function AfterApproval(call: Call, decision: Decision, closed: bool, c: Connection): (after: Call)
    ensures after == call.(stage := after.stage)
  {
    if !Allows(decision) || closed || !c.open || call.aborted then call.(stage := Ended)
    else AwaitRefresh(call, c)
  }

  function AwaitRefresh(call: Call, c: Connection): (after: Call)
    ensures after == call.(stage := after.stage)
  {
    match RetiredVerdict(c, call.tool.name)
    case None => call.(stage := Waiting)
    case Some(retired) => call.(stage := Checked(retired))
  }

  function AfterCheck(call: Call): (after: Call)
    requires call.stage.Checked?
    ensures after == call.(stage := after.stage, prepared := after.prepared) && (call.prepared ==> after.prepared)
  {
    if call.stage.retired then call.(stage := Ended) else call.(stage := InHost, prepared := true)
  }

  function SendAwait(call: Call, c: Connection): (after: Call)
    ensures after == call.(sending := after.sending)
  {
    match RetiredVerdict(c, call.tool.name)
    case None => call.(sending := SendWaits)
    case Some(retired) => call.(sending := SendChecked(retired))
  }

  /** `dispatch()`: a second call throws and changes nothing. */
  function Dispatch(call: Call, c: Connection): (after: Call)
    ensures after == call.(dispatched := true, sending := after.sending)
  {
    if call.dispatched then call else SendAwait(call.(dispatched := true), c)
  }

  function Send(call: Call, closed: bool, open: bool): (after: Call)
    requires call.sending.SendChecked?
    ensures after == call.(sending := after.sending, sent := after.sent)
  {
    if Unavailable(call, closed, open) || call.sending.retired then call.(sending := Sending.Rejected(NotSent))
    else call.(sending := Requested, sent := true)
  }

  /** The response to the request: kept only when it passes the tool's output schema. */
  function Receive(call: Call, result: CallResult): (after: Call)
    ensures after == call.(sending := after.sending, result := after.result)
  {
    if !call.tool.checked || result.isError || result.validates then call.(sending := Answer, result := Some(result))
    else call.(sending := Sending.Rejected(InvalidResult))
  }

  predicate LinksTo(call: Call, uri: string) {
    call.result.Some? && uri in call.result.value.links
  }

  function AfterReadApproval(read: LinkedRead, decision: Decision, call: Call, closed: bool, open: bool): LinkedRead {
    read.(stage := if !Allows(decision) || Unavailable(call, closed, open) then ReadRefused else Prepared)
  }

  /**
   * Whether the report of a host's end says the tool was not run. A `HostManagedMcpError` without a dispatched
   * result is reported by its own delivery, whichever call it came from; any other error by the call's `sent`.
   */
  predicate ReportsNotRun(call: Call, outcome: Outcome) {
    match outcome
    case Returned => false
    case Threw(None) => !call.sent
    case Threw(Some(error)) => if call.result.None? then error.delivery.NotSent? else !error.denied && !call.sent
  }

  // ----- Steps -----

  predicate HasCall(w: World, c: nat) {
    c in w.calls && w.calls[c].conn in w.servers
  }

  function Connected(w: World, c: nat): Connection
    requires HasCall(w, c)
  {
    w.servers[w.calls[c].conn].c
  }

  predicate ServerMay(s: Server, e: ServerEvent) {
    match e
    case ToolsSelected(_) => s.c.selected.None?
    case ListAnswered(i, _) => i < |s.asked| && s.c.selected.Some?
    case _ => true
  }

  predicate CallMay(call: Call, e: CallEvent) {
    match e
    case ApprovalAnswered(_) => call.stage.Approving?
    case RefreshAwaited => call.stage.Waiting?
    case CallContinues => call.stage.Checked?
    case HostDispatches => call.prepared
    case SendAwaited => call.sending.SendWaits?
    case SendContinues => call.sending.SendChecked?
    case RequestFails(_) => call.sending.Requested?
    case ResponseArrives(_) => call.sending.Requested?
    case HostSettles(_) => call.stage.InHost?
    case CallAborts => true
  }

  predicate Enabled(w: World, e: Event) {
    match e
    case ServerMoves(k, se) => k in w.servers && ServerMay(w.servers[k], se)
    case CallBegins(c, k, tool, _) =>
      c !in w.calls && k in w.servers && w.servers[k].c.selected.Some? && tool in w.servers[k].c.selected.value
    case CallMoves(c, ce) => HasCall(w, c) && CallMay(w.calls[c], ce)
    case HostLinks(c, r, _) => HasCall(w, c) && w.calls[c].prepared && r !in w.links
    case ReadMoves(r, re) =>
      && r in w.links && HasCall(w, w.links[r].call)
      && (if re.HostReads? then w.links[r].stage.Prepared? else w.links[r].stage.ReadApproving?)
    case AdapterCloses => true
  }

  function BegunEntries(before: bool, k: nat, s: Server): seq<Entry> {
    if s.c.refreshing && !before then [OfServer(k, ListBegun(s.notified))] else []
  }

  /** The server after its connection became `c`, with any re-list that began. */
  function Began(s: Server, c: Connection): Server {
    Server(c, s.notified, if c.refreshing && !s.c.refreshing then s.asked + [s.notified] else s.asked, s.covered)
  }

  ghost function StepServer(s: Server, e: ServerEvent): Server
    requires ServerMay(s, e)
  {
    match e
    case ToolsSelected(tools) => Began(s, Select(s.c, tools))
    case ListChanged => Began(s.(notified := s.notified + 1), Request(s.c))
    case ListAnswered(i, listing) =>
      var c := Answered(s.c, listing);
      Server(c, s.notified, s.asked[..i] + s.asked[i + 1..] + (if c.refreshing then [s.notified] else []), s.asked[i])
    case ConnectionCloses => s.(c := s.c.(open := false))
  }

  ghost function ServerEntries(k: nat, s: Server, e: ServerEvent): seq<Entry>
    requires ServerMay(s, e)
  {
    var s' := StepServer(s, e);
    match e
    case ToolsSelected(_) => BegunEntries(s.c.refreshing, k, s')
    case ListChanged => [OfServer(k, Notified(s'.notified))] + BegunEntries(s.c.refreshing, k, s')
    case ListAnswered(i, listing) =>
      [OfServer(k, ListDone(s.asked[i], listing)),
       OfServer(k, if s'.c.refreshing then ListBegun(s.notified) else RefreshCleared)]
    case ConnectionCloses => [OfServer(k, ConnectionClosed)]
  }

  /** No step changes a call's connection, tool or arguments, or takes the call object back from the host. */
  function StepCall(call: Call, e: CallEvent, closed: bool, c: Connection): (after: Call)
    requires CallMay(call, e)
    ensures after.conn == call.conn && after.tool == call.tool && after.args == call.args
    ensures call.prepared ==> after.prepared
  {
    match e
    case ApprovalAnswered(decision) => AfterApproval(call, decision, closed, c)
    case RefreshAwaited => AwaitRefresh(call, c)
    case CallContinues => AfterCheck(call)
    case HostDispatches => Dispatch(call, c)
    case SendAwaited => SendAwait(call, c)
    case SendContinues => Send(call, closed, c.open)
    case RequestFails(cause) => call.(sending := Sending.Rejected(Classify(cause)))
    case ResponseArrives(result) => Receive(call, result)
    case HostSettles(_) => call.(stage := Ended, settled := true)
    case CallAborts => call.(aborted := true)
  }

  function CallEntries(c: nat, call: Call, call': Call, e: CallEvent): seq<Entry> {
    var ended := if call'.stage.Ended? then [OfCall(c, Settled(Early, true))] else [];
    var rejected := if call'.sending.Rejected? then [OfCall(c, CallEntry.Rejected(call'.sending.delivery))] else [];
    match e
    case ApprovalAnswered(decision) => (if Allows(decision) then [OfCall(c, Allowed(call.args))] else []) + ended
    case CallContinues => ended
    case HostDispatches => if call.dispatched then [] else [OfCall(c, DispatchBegun)]
    case SendContinues =>
      if call'.sending.Requested? then [OfCall(c, Sent(call.conn, call.tool, call.args))] else rejected
    case RequestFails(_) => rejected
    case ResponseArrives(_) =>
      if call'.result.Some? then [OfCall(c, Validated(call'.result.value.links))] else rejected
    case HostSettles(outcome) => [OfCall(c, Settled(Host(outcome), ReportsNotRun(call, outcome)))]
    case CallAborts => [OfCall(c, Aborted)]
    case _ => []
  }

  ghost function ServerStep(w: World, k: nat, e: ServerEvent): World
    requires k in w.servers && ServerMay(w.servers[k], e)
  {
    var s := w.servers[k];
    w.(servers := w.servers[k := StepServer(s, e)], log := w.log + ServerEntries(k, s, e))
  }

  function CallStep(w: World, c: nat, e: CallEvent): World
    requires HasCall(w, c) && CallMay(w.calls[c], e)
  {
    var call' := StepCall(w.calls[c], e, w.closed, Connected(w, c));
    w.(calls := w.calls[c := call'], log := w.log + CallEntries(c, w.calls[c], call', e))
  }

  function BeginStep(w: World, c: nat, k: nat, tool: CatalogTool, args: string): World
    requires k in w.servers
  {
    var call := BeginCall(k, tool, args, w.closed, w.servers[k].c.open);
    w.(calls := w.calls[c := call], log := w.log + (if call.stage.Ended? then [OfCall(c, Settled(Early, true))] else []))
  }

  /** `linkedResource(uri)`: throws without the link, and rejects once the call is unavailable. */
  function LinkStep(w: World, c: nat, r: nat, uri: string): World
    requires HasCall(w, c)
  {
    if !LinksTo(w.calls[c], uri) || Unavailable(w.calls[c], w.closed, Connected(w, c).open) then w
    else w.(links := w.links[r := LinkedRead(c, uri, ReadApproving, false)])
  }

  function ReadApprovalStep(w: World, r: nat, decision: Decision): World
    requires r in w.links && HasCall(w, w.links[r].call)
  {
    var read := w.links[r];
    var read' := AfterReadApproval(read, decision, w.calls[read.call], w.closed, Connected(w, read.call).open);
    w.(links := w.links[r := read'],
       log := w.log + (if Allows(decision) then [OfRead(r, ReadAllowed(read.call, read.uri))] else []))
  }

  /** A read's own `dispatch()`: a second one throws. */
  function ReadStep(w: World, r: nat): World
    requires r in w.links && HasCall(w, w.links[r].call)
  {
    var read := w.links[r];
    var sends := !Unavailable(w.calls[read.call], w.closed, Connected(w, read.call).open);
    if read.dispatched then w
    else
      w.(links := w.links[r := read.(dispatched := true)],
         log := w.log + (if sends then [OfRead(r, ReadSent(read.call, w.calls[read.call].conn, read.uri))] else []))
  }

  ghost function Step(w: World, e: Event): World
    requires Enabled(w, e)
  {
    match e
    case ServerMoves(k, se) => ServerStep(w, k, se)
    case CallBegins(c, k, tool, args) => BeginStep(w, c, k, tool, args)
    case CallMoves(c, ce) => CallStep(w, c, ce)
    case HostLinks(c, r, uri) => LinkStep(w, c, r, uri)
    case ReadMoves(r, ReadApprovalAnswered(decision)) => ReadApprovalStep(w, r, decision)
    case ReadMoves(r, HostReads) => ReadStep(w, r)
    case AdapterCloses => w.(closed := true, log := w.log + [AdapterClosed])
  }
}

/** What every run of the protocol keeps. */
module HostCallRuns {
  import opened Wrappers
  import opened Runs
  import opened CatalogRefresh
  import opened HostCallSteps

  // ----- What an observer of the log is promised -----

  predicate IsSettled(e: Entry, c: nat) {
    e.OfCall? && e.call == c && e.c.Settled?
  }

  /** The call, its connection or the adapter is over. */
  predicate Ends(e: Entry, c: nat, k: nat) {
    IsSettled(e, c) || e == OfCall(c, Aborted) || e == OfServer(k, ConnectionClosed) || e == AdapterClosed
  }

  predicate Over(log: seq<Entry>, c: nat, k: nat) {
    exists i :: 0 <= i < |log| && Ends(log[i], c, k)
  }

  predicate IsSent(e: Entry, c: nat) {
    e.OfCall? && e.call == c && e.c.Sent?
  }

  predicate WasSent(log: seq<Entry>, c: nat) {
    exists i :: 0 <= i < |log| && IsSent(log[i], c)
  }

  predicate WasSettled(log: seq<Entry>, c: nat) {
    exists i :: 0 <= i < |log| && IsSettled(log[i], c)
  }

  predicate IsRejected(e: Entry, c: nat) {
    e.OfCall? && e.call == c && e.c.Rejected?
  }

  /** The call's own `dispatch()` has been rejected. */
  predicate WasRejected(log: seq<Entry>, c: nat) {
    exists i :: 0 <= i < |log| && IsRejected(log[i], c)
  }

  predicate IsValidated(e: Entry, c: nat) {
    e.OfCall? && e.call == c && e.c.Validated?
  }

  predicate WasValidated(log: seq<Entry>, c: nat) {
    exists i :: 0 <= i < |log| && IsValidated(log[i], c)
  }

  predicate IsReadSent(e: Entry, r: nat) {
    e.OfRead? && e.read == r && e.r.ReadSent?
  }

  predicate WasRead(log: seq<Entry>, r: nat) {
    exists i :: 0 <= i < |log| && IsReadSent(log[i], r)
  }

  predicate Offers(e: Entry, c: nat, uri: string) {
    e.OfCall? && e.call == c && e.c.Validated? && uri in e.c.links
  }

  /** A validated result of the call holds a link to `uri`. */
  predicate OffersLink(log: seq<Entry>, c: nat, uri: string) {
    exists i :: 0 <= i < |log| && Offers(log[i], c, uri)
  }

  predicate IsNotified(e: Entry, k: nat) {
    e.OfServer? && e.conn == k && e.s.Notified?
  }

  predicate IsBegun(e: Entry, k: nat) {
    e.OfServer? && e.conn == k && e.s.ListBegun?
  }

  predicate IsDone(e: Entry, k: nat) {
    e.OfServer? && e.conn == k && e.s.ListDone?
  }

  /** A re-list of the connection that began after its `n`th notification has been answered. */
  predicate ListedSince(log: seq<Entry>, k: nat, n: nat) {
    exists i :: 0 <= i < |log| && IsDone(log[i], k) && n <= log[i].s.after
  }

  predicate WasAnswered(log: seq<Entry>, k: nat, m: nat) {
    exists i :: 0 <= i < |log| && IsDone(log[i], k) && log[i].s.after == m
  }

  /** ... and still showed the tool as it was frozen. */
  predicate KeptSince(log: seq<Entry>, k: nat, n: nat, tool: CatalogTool) {
    exists i :: 0 <= i < |log| && IsDone(log[i], k) && n <= log[i].s.after && ShowsUnchanged(log[i].s.listing, tool)
  }

  /**
   * The tool was not retired when the call's dispatch began, and every notification until then was followed
   * by a re-list, begun after it, that still shows the tool as it was frozen.
   */
  predicate FreshDispatch(log: seq<Entry>, c: nat, k: nat, tool: CatalogTool) {
    forall d :: 0 <= d < |log| && log[d] == OfCall(c, DispatchBegun) ==> FreshAt(log, d, k, tool)
  }

  predicate FreshAt(log: seq<Entry>, d: nat, k: nat, tool: CatalogTool)
    requires d <= |log|
  {
    forall j :: 0 <= j < d ==>
      && (IsDone(log[j], k) ==> ShowsUnchanged(log[j].s.listing, tool))
      && (IsNotified(log[j], k) ==> KeptSince(log, k, log[j].s.number, tool))
  }

  /** What holds of a connection's entry given everything logged before it. */
  predicate ServerEntryOk(p: seq<Entry>, k: nat, e: ServerEntry) {
    match e
    case Notified(n) =>
      forall i :: 0 <= i < |p| ==>
        && (IsNotified(p[i], k) ==> p[i].s.number < n)
        && (IsBegun(p[i], k) ==> p[i].s.after < n)
    case ListBegun(m) =>
      forall i :: 0 <= i < |p| ==>
        && (IsNotified(p[i], k) ==> p[i].s.number <= m)
        && (IsBegun(p[i], k) ==> p[i].s.after < m && WasAnswered(p, k, p[i].s.after))
    case ListDone(m, _) => OfServer(k, ListBegun(m)) in p
    case RefreshCleared => forall i :: 0 <= i < |p| && IsNotified(p[i], k) ==> ListedSince(p, k, p[i].s.number)
    case ConnectionClosed => true
  }

  /** What a call's report says, from what was logged before it. */
  predicate SettledOk(p: seq<Entry>, c: nat, ending: Ending, notRun: bool) {
    match ending
    case Early => notRun && !WasSent(p, c)
    case Host(Returned) => !notRun
    case Host(Threw(None)) => notRun <==> !WasSent(p, c)
    case Host(Threw(Some(error))) => notRun <==> error.delivery.NotSent? && !WasValidated(p, c)
  }

  /** What holds of an entry given everything logged before it. */
  predicate EntryOk(p: seq<Entry>, e: Entry) {
    match e
    case OfServer(k, se) => ServerEntryOk(p, k, se)
    case OfCall(c, Sent(k, tool, args)) =>
      && OfCall(c, Allowed(args)) in p && OfCall(c, DispatchBegun) in p
      && !WasSent(p, c) && !WasRejected(p, c) && !Over(p, c, k) && FreshDispatch(p, c, k, tool)
    case OfCall(c, Validated(_)) => WasSent(p, c)
    case OfCall(c, Rejected(delivery)) => !WasRejected(p, c) && (delivery.NotSent? || WasSent(p, c))
    case OfCall(c, Settled(ending, notRun)) => SettledOk(p, c, ending, notRun)
    case OfRead(r, ReadSent(c, k, uri)) =>
      OffersLink(p, c, uri) && OfRead(r, ReadAllowed(c, uri)) in p && !WasRead(p, r) && !Over(p, c, k)
    case _ => true
  }

  predicate LogOk(log: seq<Entry>) {
    log == [] || (LogOk(log[..|log| - 1]) && EntryOk(log[..|log| - 1], log[|log| - 1]))
  }

  lemma LogGrows(log: seq<Entry>, e: Entry)
    requires LogOk(log) && EntryOk(log, e)
    ensures LogOk(log + [e])
  {
    assert (log + [e])[..|log|] == log;
  }

  lemma {:induction false} EveryEntryOk(log: seq<Entry>, i: nat)
    requires LogOk(log) && i < |log|
    ensures EntryOk(log[..i], log[i])
  {
    if i < |log| - 1 {
      EveryEntryOk(log[..|log| - 1], i);
      assert log[..|log| - 1][..i] == log[..i];
    }
  }

  // ----- The invariant -----

  /** A connection's fields against its notifications and re-lists. */
  predicate CountsInv(s: Server) {
    && |s.asked| == (if s.c.refreshing then 1 else 0)
    && (s.c.refreshing ==>
          && s.c.selected.Some?
          && s.covered < s.asked[0] <= s.notified
          && (s.c.refreshRequested <==> s.asked[0] < s.notified))
    && (!s.c.refreshing && s.c.selected.Some? ==> s.covered == s.notified && !s.c.refreshRequested)
    && (s.c.selected.None? ==> s.covered == 0 && (s.c.refreshRequested <==> s.notified > 0))
  }

  /** Every re-list that was answered retired what it had to. */
  predicate RetiredInv(c: Connection, listing: Listing) {
    c.selected.Some? &&
    forall i :: 0 <= i < |c.selected.value| && Retires(listing, c.selected.value[i]) ==>
      c.selected.value[i].name in c.retired
  }

  predicate EntryInv(log: seq<Entry>, k: nat, s: Server, e: Entry) {
    if !e.OfServer? || e.conn != k then true
    else
      match e.s
      case Notified(n) => 0 < n <= s.notified
      case ListBegun(m) => if m <= s.covered then WasAnswered(log, k, m) else m in s.asked
      case ListDone(_, listing) => RetiredInv(s.c, listing)
      case RefreshCleared => true
      case ConnectionClosed => !s.c.open
  }

  predicate ServerInv(log: seq<Entry>, k: nat, s: Server) {
    && CountsInv(s)
    && (forall m :: m in s.asked ==> OfServer(k, ListBegun(m)) in log)
    && (s.covered > 0 ==> WasAnswered(log, k, s.covered))
    && (forall i :: 0 <= i < |log| ==> EntryInv(log, k, s, log[i]))
  }

  predicate CallInv(log: seq<Entry>, c: nat, call: Call) {
    && (call.prepared <==> call.stage.InHost? || call.settled)
    && (call.settled ==> call.stage.Ended?)
    && (call.stage.Waiting? || call.stage.Checked? || call.prepared ==> OfCall(c, Allowed(call.args)) in log)
    && (WasSettled(log, c) ==> call.stage.Ended?)
    && (OfCall(c, Aborted) in log ==> call.aborted)
    && (call.dispatched ==> call.prepared && OfCall(c, DispatchBegun) in log)
    && (!call.dispatched ==> call.sending.Unsent?)
    && (WasSent(log, c) <==> call.sent)
    && (call.sent ==> call.sending.Requested? || call.sending.Rejected? || call.sending.Answer?)
    && (WasRejected(log, c) ==> call.sending.Rejected?)
    && (call.sending.Requested? || call.sending.Answer? ==> call.sent)
    && (call.sending == SendChecked(false) ==> FreshDispatch(log, c, call.conn, call.tool))
    && (call.result.Some? ==> call.sending.Answer?)
    && (call.result.Some? ==> OfCall(c, Validated(call.result.value.links)) in log)
    && (WasValidated(log, c) ==> call.result.Some?)
  }

  predicate ReadInv(log: seq<Entry>, r: nat, read: LinkedRead) {
    && OffersLink(log, read.call, read.uri)
    && (read.stage.Prepared? ==> OfRead(r, ReadAllowed(read.call, read.uri)) in log)
    && (WasRead(log, r) ==> read.dispatched)
  }

  predicate Known(w: World, e: Entry) {
    match e
    case OfServer(_, _) => true
    case OfCall(c, _) => c in w.calls
    case OfRead(r, _) => r in w.links
    case AdapterClosed => w.closed
  }

  predicate BoundTo(servers: map<nat, Server>, call: Call) {
    && call.conn in servers
    && servers[call.conn].c.selected.Some?
    && call.tool in servers[call.conn].c.selected.value
  }

  predicate Bound(w: World, c: nat) {
    HasCall(w, c) && BoundTo(w.servers, w.calls[c])
  }

  ghost predicate ServersInv(log: seq<Entry>, servers: map<nat, Server>) {
    forall k :: k in servers ==> ServerInv(log, k, servers[k])
  }

  ghost predicate CallsInv(log: seq<Entry>, calls: map<nat, Call>) {
    forall c :: c in calls ==> CallInv(log, c, calls[c])
  }

  ghost predicate ReadsInv(log: seq<Entry>, links: map<nat, LinkedRead>) {
    forall r :: r in links ==> ReadInv(log, r, links[r])
  }

  /** Every call is bound to a tool its server selected, and every read to a call the host was given. */
  predicate AllBound(w: World) {
    && (forall c :: c in w.calls ==> Bound(w, c))
    && (forall r :: r in w.links ==> w.links[r].call in w.calls && w.calls[w.links[r].call].prepared)
  }

  predicate AllKnown(w: World) {
    forall i :: 0 <= i < |w.log| ==> Known(w, w.log[i])
  }

  ghost predicate Inv(w: World) {
    && LogOk(w.log) && AllKnown(w) && AllBound(w)
    && ServersInv(w.log, w.servers) && CallsInv(w.log, w.calls) && ReadsInv(w.log, w.links)
  }

  // ----- Framing: an entry matters only to the entities it is about -----

  lemma SeenLater(log: seq<Entry>, e: Entry)
    ensures forall k, n, tool :: KeptSince(log, k, n, tool) ==> KeptSince(log + [e], k, n, tool)
    ensures forall k, m :: WasAnswered(log, k, m) ==> WasAnswered(log + [e], k, m)
    ensures forall c, uri :: OffersLink(log, c, uri) ==> OffersLink(log + [e], c, uri)
    ensures forall c :: WasSent(log, c) ==> WasSent(log + [e], c)
  {
    var longer := log + [e];
    assert forall i :: 0 <= i < |log| ==> longer[i] == log[i];
  }

  lemma FreshLater(log: seq<Entry>, e: Entry, c: nat, k: nat, tool: CatalogTool)
    requires FreshDispatch(log, c, k, tool) && e != OfCall(c, DispatchBegun)
    ensures FreshDispatch(log + [e], c, k, tool)
  {
    var longer := log + [e];
    SeenLater(log, e);
    forall d | 0 <= d < |longer| && longer[d] == OfCall(c, DispatchBegun)
      ensures FreshAt(longer, d, k, tool)
    {
      assert FreshAt(log, d, k, tool);
    }
  }

  lemma ServerFrame(log: seq<Entry>, e: Entry, k: nat, s: Server)
    requires ServerInv(log, k, s) && !(e.OfServer? && e.conn == k)
    ensures ServerInv(log + [e], k, s)
  {
    var longer := log + [e];
    SeenLater(log, e);
    forall i | 0 <= i < |longer|
      ensures EntryInv(longer, k, s, longer[i])
    {
      assert i < |log| ==> longer[i] == log[i] && EntryInv(log, k, s, log[i]);
    }
  }

  lemma CallFrame(log: seq<Entry>, e: Entry, c: nat, call: Call)
    requires CallInv(log, c, call) && !(e.OfCall? && e.call == c)
    ensures CallInv(log + [e], c, call)
  {
    SeenLater(log, e);
    if call.sending == SendChecked(false) {
      FreshLater(log, e, c, call.conn, call.tool);
    }
  }

  lemma ReadFrame(log: seq<Entry>, e: Entry, r: nat, read: LinkedRead)
    requires ReadInv(log, r, read) && !(e.OfRead? && e.read == r)
    ensures ReadInv(log + [e], r, read)
  {
    SeenLater(log, e);
  }

  lemma {:induction false} ServerFrames(log: seq<Entry>, es: seq<Entry>, k: nat, s: Server)
    requires ServerInv(log, k, s) && forall i :: 0 <= i < |es| ==> !(es[i].OfServer? && es[i].conn == k)
    ensures ServerInv(log + es, k, s)
    decreases |es|
  {
    if es == [] {
      assert log + es == log;
    } else {
      ServerFrame(log, es[0], k, s);
      ServerFrames(log + [es[0]], es[1..], k, s);
      assert log + [es[0]] + es[1..] == log + es;
    }
  }

  lemma {:induction false} CallFrames(log: seq<Entry>, es: seq<Entry>, c: nat, call: Call)
    requires CallInv(log, c, call) && forall i :: 0 <= i < |es| ==> !(es[i].OfCall? && es[i].call == c)
    ensures CallInv(log + es, c, call)
    decreases |es|
  {
    if es == [] {
      assert log + es == log;
    } else {
      CallFrame(log, es[0], c, call);
      CallFrames(log + [es[0]], es[1..], c, call);
      assert log + [es[0]] + es[1..] == log + es;
    }
  }

  lemma {:induction false} ReadFrames(log: seq<Entry>, es: seq<Entry>, r: nat, read: LinkedRead)
    requires ReadInv(log, r, read) && forall i :: 0 <= i < |es| ==> !(es[i].OfRead? && es[i].read == r)
    ensures ReadInv(log + es, r, read)
    decreases |es|
  {
    if es == [] {
      assert log + es == log;
    } else {
      ReadFrame(log, es[0], r, read);
      ReadFrames(log + [es[0]], es[1..], r, read);
      assert log + [es[0]] + es[1..] == log + es;
    }
  }

  lemma ServersFrame(log: seq<Entry>, es: seq<Entry>, servers: map<nat, Server>)
    requires ServersInv(log, servers) && forall i :: 0 <= i < |es| ==> !es[i].OfServer?
    ensures ServersInv(log + es, servers)
  {
    forall k | k in servers
      ensures ServerInv(log + es, k, servers[k])
    {
      ServerFrames(log, es, k, servers[k]);
    }
  }

  lemma CallsFrame(log: seq<Entry>, es: seq<Entry>, calls: map<nat, Call>)
    requires CallsInv(log, calls) && forall i :: 0 <= i < |es| ==> !es[i].OfCall?
    ensures CallsInv(log + es, calls)
  {
    forall c | c in calls
      ensures CallInv(log + es, c, calls[c])
    {
      CallFrames(log, es, c, calls[c]);
    }
  }

  lemma ReadsFrame(log: seq<Entry>, es: seq<Entry>, links: map<nat, LinkedRead>)
    requires ReadsInv(log, links) && forall i :: 0 <= i < |es| ==> !es[i].OfRead?
    ensures ReadsInv(log + es, links)
  {
    forall r | r in links
      ensures ReadInv(log + es, r, links[r])
    {
      ReadFrames(log, es, r, links[r]);
    }
  }

  lemma KnownLater(w: World, w': World, es: seq<Entry>)
    requires AllKnown(w)
    requires w'.log == w.log + es && w.calls.Keys <= w'.calls.Keys && w.links.Keys <= w'.links.Keys
    requires w.closed ==> w'.closed
    requires forall i :: 0 <= i < |es| ==> Known(w', es[i])
    ensures AllKnown(w')
  {
    forall i | 0 <= i < |w'.log|
      ensures Known(w', w'.log[i])
    {
      assert i < |w.log| ==> w'.log[i] == w.log[i] && Known(w, w.log[i]);
      assert i >= |w.log| ==> w'.log[i] == es[i - |w.log|];
    }
  }

  lemma BoundLater(w: World, w': World)
    requires AllBound(w) && w'.calls == w.calls && w'.links == w.links && w.servers.Keys <= w'.servers.Keys
    requires forall k :: k in w.servers && w.servers[k].c.selected.Some? ==>
               w'.servers[k].c.selected == w.servers[k].c.selected
    ensures AllBound(w')
  {
    forall c | c in w'.calls
      ensures Bound(w', c)
    {
      assert Bound(w, c);
    }
  }

  lemma BoundWithCall(w: World, c: nat, call': Call, log: seq<Entry>)
    requires AllBound(w)
    requires c in w.calls && w.calls[c].prepared ==> call'.prepared
    requires BoundTo(w.servers, call')
    ensures AllBound(w.(calls := w.calls[c := call'], log := log))
  {
    var w' := w.(calls := w.calls[c := call'], log := log);
    forall c' | c' in w'.calls
      ensures Bound(w', c')
    {
      assert c' != c ==> Bound(w, c');
    }
  }

  lemma BoundWithRead(w: World, r: nat, read': LinkedRead, log: seq<Entry>)
    requires AllBound(w) && read'.call in w.calls && w.calls[read'.call].prepared
    ensures AllBound(w.(links := w.links[r := read'], log := log))
  {
    forall c | c in w.calls
      ensures Bound(w.(links := w.links[r := read'], log := log), c)
    {
      assert Bound(w, c);
    }
  }

  lemma ServersChange(log: seq<Entry>, es: seq<Entry>, servers: map<nat, Server>, k: nat, s': Server)
    requires ServersInv(log, servers) && ServerInv(log + es, k, s')
    requires forall i :: 0 <= i < |es| ==> es[i].OfServer? && es[i].conn == k
    ensures ServersInv(log + es, servers[k := s'])
  {
    forall k' | k' in servers && k' != k
      ensures ServerInv(log + es, k', servers[k'])
    {
      ServerFrames(log, es, k', servers[k']);
    }
  }

  lemma CallsChange(log: seq<Entry>, es: seq<Entry>, calls: map<nat, Call>, c: nat, call': Call)
    requires CallsInv(log, calls) && CallInv(log + es, c, call')
    requires forall i :: 0 <= i < |es| ==> es[i].OfCall? && es[i].call == c
    ensures CallsInv(log + es, calls[c := call'])
  {
    forall c' | c' in calls && c' != c
      ensures CallInv(log + es, c', calls[c'])
    {
      CallFrames(log, es, c', calls[c']);
    }
  }

  lemma ReadsChange(log: seq<Entry>, es: seq<Entry>, links: map<nat, LinkedRead>, r: nat, read': LinkedRead)
    requires ReadsInv(log, links) && ReadInv(log + es, r, read')
    requires forall i :: 0 <= i < |es| ==> es[i].OfRead? && es[i].read == r
    ensures ReadsInv(log + es, links[r := read'])
  {
    forall r' | r' in links && r' != r
      ensures ReadInv(log + es, r', links[r'])
    {
      ReadFrames(log, es, r', links[r']);
    }
  }

  /** A server moves on, logging only entries of its own. */
  lemma ServerChanges(w: World, k: nat, s': Server, es: seq<Entry>)
    requires Inv(w) && k in w.servers && LogOk(w.log + es) && ServerInv(w.log + es, k, s')
    requires w.servers[k].c.selected.Some? ==> s'.c.selected == w.servers[k].c.selected
    requires forall i :: 0 <= i < |es| ==> es[i].OfServer? && es[i].conn == k
    ensures Inv(w.(servers := w.servers[k := s'], log := w.log + es))
  {
    var w' := w.(servers := w.servers[k := s'], log := w.log + es);
    KnownLater(w, w', es);
    ServersChange(w.log, es, w.servers, k, s');
    CallsFrame(w.log, es, w.calls);
    ReadsFrame(w.log, es, w.links);
    BoundLater(w, w');
  }

  /** A call begins or moves on, logging only entries of its own. */
  lemma CallChanges(w: World, c: nat, call': Call, es: seq<Entry>)
    requires Inv(w) && LogOk(w.log + es) && CallInv(w.log + es, c, call')
    requires c in w.calls && w.calls[c].prepared ==> call'.prepared
    requires BoundTo(w.servers, call')
    requires forall i :: 0 <= i < |es| ==> es[i].OfCall? && es[i].call == c
    ensures Inv(w.(calls := w.calls[c := call'], log := w.log + es))
  {
    var w' := w.(calls := w.calls[c := call'], log := w.log + es);
    KnownLater(w, w', es);
    ServersFrame(w.log, es, w.servers);
    CallsChange(w.log, es, w.calls, c, call');
    ReadsFrame(w.log, es, w.links);
    BoundWithCall(w, c, call', w.log + es);
  }

  /** A read begins or moves on, logging only entries of its own. */
  lemma ReadChanges(w: World, r: nat, read': LinkedRead, es: seq<Entry>)
    requires Inv(w) && LogOk(w.log + es) && ReadInv(w.log + es, r, read')
    requires read'.call in w.calls && w.calls[read'.call].prepared
    requires forall i :: 0 <= i < |es| ==> es[i].OfRead? && es[i].read == r
    ensures Inv(w.(links := w.links[r := read'], log := w.log + es))
  {
    var w' := w.(links := w.links[r := read'], log := w.log + es);
    forall i | 0 <= i < |es|
      ensures Known(w', es[i])
    {
      assert es[i].OfRead? && es[i].read == r;
    }
    KnownLater(w, w', es);
    ServersFrame(w.log, es, w.servers);
    CallsFrame(w.log, es, w.calls);
    ReadsChange(w.log, es, w.links, r, read');
    BoundWithRead(w, r, read', w.log + es);
  }

  // ----- Each step keeps the invariant of the entity it belongs to -----

  /** `log` after a step of server `k` is `longer`. */
  ghost predicate ServerKept(log: seq<Entry>, k: nat, s: Server) {
    LogOk(log) && ServerInv(log, k, s)
  }

  lemma EntriesLater(log: seq<Entry>, k: nat, s: Server, s': Server, e: Entry)
    requires ServerInv(log, k, s)
    requires s'.notified >= s.notified && s'.covered == s.covered && s.c.selected == s'.c.selected
    requires s.c.retired == s'.c.retired && (s'.c.open ==> s.c.open)
    requires forall m :: m in s.asked ==> m in s'.asked
    requires EntryInv(log + [e], k, s', e)
    ensures forall i :: 0 <= i < |log + [e]| ==> EntryInv(log + [e], k, s', (log + [e])[i])
    ensures forall m :: WasAnswered(log, k, m) ==> WasAnswered(log + [e], k, m)
  {
    SeenLater(log, e);
    forall i | 0 <= i < |log + [e]|
      ensures EntryInv(log + [e], k, s', (log + [e])[i])
    {
      assert i < |log| ==> (log + [e])[i] == log[i] && EntryInv(log, k, s, log[i]);
    }
  }

  lemma ConnectionClosesKeeps(log: seq<Entry>, k: nat, s: Server)
    requires ServerKept(log, k, s)
    ensures ServerKept(log + [OfServer(k, ConnectionClosed)], k, s.(c := s.c.(open := false)))
  {
    LogGrows(log, OfServer(k, ConnectionClosed));
    EntriesLater(log, k, s, s.(c := s.c.(open := false)), OfServer(k, ConnectionClosed));
  }

  /** A re-list begins while none is in flight. */
  predicate BeginsList(s: Server, s': Server) {
    && s'.asked == [s'.notified] && s.asked == [] && s.covered == s'.covered
    && s.notified == s'.notified && s.c.open == s'.c.open && s.c.retired == s'.c.retired
    && (s.c.selected == s'.c.selected || (s.c.selected.None? && s.covered == 0))
  }

  lemma EntryAfterBegin(log: seq<Entry>, k: nat, s: Server, s': Server, e: Entry)
    requires BeginsList(s, s') && EntryInv(log, k, s, e)
    ensures EntryInv(log + [OfServer(k, ListBegun(s'.notified))], k, s', e)
  {
    SeenLater(log, OfServer(k, ListBegun(s'.notified)));
  }

  lemma BegunIsOk(log: seq<Entry>, k: nat, s: Server)
    requires LogOk(log) && s.asked == [] && s.covered < s.notified
    requires forall i :: 0 <= i < |log| ==> EntryInv(log, k, s, log[i])
    ensures LogOk(log + [OfServer(k, ListBegun(s.notified))])
  {
    forall i | 0 <= i < |log|
      ensures IsNotified(log[i], k) ==> log[i].s.number <= s.notified
      ensures IsBegun(log[i], k) ==> log[i].s.after < s.notified && WasAnswered(log, k, log[i].s.after)
    {
      assert EntryInv(log, k, s, log[i]);
    }
    LogGrows(log, OfServer(k, ListBegun(s.notified)));
  }

  lemma ListBeginsKeeps(log: seq<Entry>, k: nat, s: Server, s': Server)
    requires LogOk(log) && CountsInv(s') && s'.c.refreshing && BeginsList(s, s')
    requires s.covered > 0 ==> WasAnswered(log, k, s.covered)
    requires forall i :: 0 <= i < |log| ==> EntryInv(log, k, s, log[i])
    ensures ServerKept(log + [OfServer(k, ListBegun(s'.notified))], k, s')
  {
    var e := OfServer(k, ListBegun(s'.notified));
    var longer := log + [e];
    BegunIsOk(log, k, s);
    SeenLater(log, e);
    forall i | 0 <= i < |longer|
      ensures EntryInv(longer, k, s', longer[i])
    {
      if i < |log| {
        EntryAfterBegin(log, k, s, s', log[i]);
      }
    }
    assert longer[|log|] == e;
  }

  lemma ToolsSelectedKeeps(log: seq<Entry>, k: nat, s: Server, tools: seq<CatalogTool>)
    requires ServerKept(log, k, s) && s.c.selected.None?
    ensures var s' := StepServer(s, ToolsSelected(tools));
      ServerKept(log + ServerEntries(k, s, ToolsSelected(tools)), k, s')
  {
    var e := ToolsSelected(tools);
    var s' := StepServer(s, e);
    if s.c.refreshRequested {
      assert ServerEntries(k, s, e) == [OfServer(k, ListBegun(s'.notified))];
      ListBeginsKeeps(log, k, s, s');
    } else {
      assert log + ServerEntries(k, s, e) == log;
      forall i | 0 <= i < |log|
        ensures EntryInv(log, k, s', log[i])
      {
        assert EntryInv(log, k, s, log[i]);
      }
    }
  }

  lemma NotifiedKeeps(log: seq<Entry>, k: nat, s: Server)
    requires ServerKept(log, k, s)
    ensures var longer := log + [OfServer(k, Notified(s.notified + 1))];
      && LogOk(longer)
      && (forall i :: 0 <= i < |longer| ==> EntryInv(longer, k, s.(notified := s.notified + 1), longer[i]))
      && (forall m :: WasAnswered(log, k, m) ==> WasAnswered(longer, k, m))
      && (forall m :: m in s.asked ==> OfServer(k, ListBegun(m)) in longer)
  {
    var e := OfServer(k, Notified(s.notified + 1));
    assert forall i :: 0 <= i < |log| ==> EntryInv(log, k, s, log[i]);
    LogGrows(log, e);
    EntriesLater(log, k, s, s.(notified := s.notified + 1), e);
  }

  lemma ListChangedKeeps(log: seq<Entry>, k: nat, s: Server)
    requires ServerKept(log, k, s)
    ensures var s' := StepServer(s, ListChanged);
      ServerKept(log + ServerEntries(k, s, ListChanged), k, s')
  {
    var e := OfServer(k, Notified(s.notified + 1));
    var s1 := s.(notified := s.notified + 1);
    var s' := StepServer(s, ListChanged);
    NotifiedKeeps(log, k, s);
    if s'.c.refreshing && !s.c.refreshing {
      assert log + ServerEntries(k, s, ListChanged) == (log + [e]) + [OfServer(k, ListBegun(s'.notified))];
      ListBeginsKeeps(log + [e], k, s1, s');
    } else {
      assert log + ServerEntries(k, s, ListChanged) == log + [e];
      EntriesLater(log, k, s, s', e);
    }
  }

  lemma EntryAfterAnswer(log: seq<Entry>, k: nat, s: Server, s1: Server, listing: Listing, e: Entry)
    requires CountsInv(s) && s.c.refreshing && EntryInv(log, k, s, e)
    requires s1 == s.(c := Answered(s.c, listing).(refreshing := false), asked := [], covered := s.asked[0])
    ensures EntryInv(log + [OfServer(k, ListDone(s.asked[0], listing))], k, s1, e)
  {
    var longer := log + [OfServer(k, ListDone(s.asked[0], listing))];
    SeenLater(log, OfServer(k, ListDone(s.asked[0], listing)));
    if e.OfServer? && e.conn == k && e.s.ListBegun? && e.s.after > s.covered {
      assert IsDone(longer[|log|], k);
    }
  }

  /** The answer of the one re-list in flight, before the next one begins or the refresh clears. */
  lemma ListDoneKeeps(log: seq<Entry>, k: nat, s: Server, s1: Server, listing: Listing)
    requires ServerKept(log, k, s) && s.c.refreshing
    requires s1 == s.(c := Answered(s.c, listing).(refreshing := false), asked := [], covered := s.asked[0])
    ensures var longer := log + [OfServer(k, ListDone(s.asked[0], listing))];
      && LogOk(longer)
      && WasAnswered(longer, k, s1.covered)
      && forall i :: 0 <= i < |longer| ==> EntryInv(longer, k, s1, longer[i])
  {
    var e := OfServer(k, ListDone(s.asked[0], listing));
    var longer := log + [e];
    assert s.asked[0] in s.asked;
    LogGrows(log, e);
    assert longer[|log|] == e;
    assert RetiredInv(s1.c, listing);
    forall i | 0 <= i < |longer|
      ensures EntryInv(longer, k, s1, longer[i])
    {
      if i < |log| {
        assert longer[i] == log[i] && EntryInv(log, k, s, log[i]);
        EntryAfterAnswer(log, k, s, s1, listing, log[i]);
      }
    }
  }

  lemma AppendTwo(log: seq<Entry>, a: Entry, b: Entry)
    ensures log + [a, b] == log + [a] + [b]
  {
  }

  lemma AnsweredEntries(k: nat, s: Server, i: nat, listing: Listing)
    requires CountsInv(s) && i < |s.asked| && s.c.selected.Some?
    ensures var e := ListAnswered(i, listing);
      var last := OfServer(k, if s.c.refreshRequested then ListBegun(s.notified) else RefreshCleared);
      && ServerEntries(k, s, e) == [OfServer(k, ListDone(s.asked[0], listing)), last]
      && StepServer(s, e) ==
           Server(Answered(s.c, listing), s.notified, if s.c.refreshRequested then [s.notified] else [], s.asked[0])
      && CountsInv(StepServer(s, e))
  {
  }

  lemma ListAnsweredKeeps(log: seq<Entry>, k: nat, s: Server, i: nat, listing: Listing)
    requires ServerKept(log, k, s) && i < |s.asked| && s.c.selected.Some?
    ensures var e := ListAnswered(i, listing);
      ServerKept(log + ServerEntries(k, s, e), k, StepServer(s, e))
  {
    var e := ListAnswered(i, listing);
    var s' := StepServer(s, e);
    var done := OfServer(k, ListDone(s.asked[0], listing));
    var s1 := s.(c := Answered(s.c, listing).(refreshing := false), asked := [], covered := s.asked[0]);
    ListDoneKeeps(log, k, s, s1, listing);
    AnsweredEntries(k, s, i, listing);
    AppendTwo(log, done, ServerEntries(k, s, e)[1]);
    if s'.c.refreshing {
      ListBeginsKeeps(log + [done], k, s1, s');
    } else {
      RefreshClears(log + [done], k, s', s1);
    }
  }

  lemma RefreshClears(log: seq<Entry>, k: nat, s': Server, s1: Server)
    requires LogOk(log) && CountsInv(s') && !s'.c.refreshing && s'.c.selected.Some? && s' == s1
    requires WasAnswered(log, k, s1.covered)
    requires forall i :: 0 <= i < |log| ==> EntryInv(log, k, s1, log[i])
    ensures ServerKept(log + [OfServer(k, RefreshCleared)], k, s')
  {
    var e := OfServer(k, RefreshCleared);
    assert forall i :: 0 <= i < |log| ==> EntryInv(log, k, s1, log[i]);
    LogGrows(log, e);
    SeenLater(log, e);
    forall i | 0 <= i < |log + [e]|
      ensures EntryInv(log + [e], k, s1, (log + [e])[i])
    {
      assert i < |log| ==> (log + [e])[i] == log[i] && EntryInv(log, k, s1, log[i]);
    }
  }

  lemma ServerStepKeeps(log: seq<Entry>, k: nat, s: Server, e: ServerEvent)
    requires ServerKept(log, k, s) && ServerMay(s, e)
    ensures ServerKept(log + ServerEntries(k, s, e), k, StepServer(s, e))
  {
    match e
    case ToolsSelected(tools) => ToolsSelectedKeeps(log, k, s, tools);
    case ListChanged => ListChangedKeeps(log, k, s);
    case ListAnswered(i, listing) => ListAnsweredKeeps(log, k, s, i, listing);
    case ConnectionCloses => ConnectionClosesKeeps(log, k, s);
  }

  ghost predicate CallKept(log: seq<Entry>, c: nat, call: Call) {
    LogOk(log) && CallInv(log, c, call)
  }

  /** A tool that is not retired while no refresh is under way is fresh at every point of the log so far. */
  lemma NotRetiredIsFresh(log: seq<Entry>, k: nat, s: Server, tool: CatalogTool)
    requires ServerInv(log, k, s) && !s.c.refreshing && s.c.selected.Some? && tool in s.c.selected.value
    requires tool.name !in s.c.retired
    ensures forall d :: 0 <= d <= |log| ==> FreshAt(log, d, k, tool)
  {
    forall j | 0 <= j < |log|
      ensures IsDone(log[j], k) ==> ShowsUnchanged(log[j].s.listing, tool)
      ensures IsNotified(log[j], k) ==> KeptSince(log, k, log[j].s.number, tool)
    {
      assert EntryInv(log, k, s, log[j]);
      if IsDone(log[j], k) {
        RetiresExactly(log[j].s.listing, tool);
      } else if IsNotified(log[j], k) {
        var i :| 0 <= i < |log| && IsDone(log[i], k) && log[i].s.after == s.covered;
        assert EntryInv(log, k, s, log[i]);
        RetiresExactly(log[i].s.listing, tool);
      }
    }
  }

  /** `NotRetiredIsFresh`, for a dispatch that begins now. */
  lemma DispatchesFresh(log: seq<Entry>, c: nat, k: nat, s: Server, tool: CatalogTool)
    requires ServerInv(log, k, s) && !s.c.refreshing && s.c.selected.Some? && tool in s.c.selected.value
    requires tool.name !in s.c.retired
    ensures FreshDispatch(log, c, k, tool) && FreshDispatch(log + [OfCall(c, DispatchBegun)], c, k, tool)
  {
    NotRetiredIsFresh(log, k, s, tool);
    var longer := log + [OfCall(c, DispatchBegun)];
    SeenLater(log, OfCall(c, DispatchBegun));
    forall d | 0 <= d < |longer| && longer[d] == OfCall(c, DispatchBegun)
      ensures FreshAt(longer, d, k, tool)
    {
      assert FreshAt(log, d, k, tool);
    }
  }

  lemma NotOverInLog(log: seq<Entry>, c: nat, call: Call, k: nat, s: Server)
    requires CallInv(log, c, call) && ServerInv(log, k, s) && AdapterClosed !in log
    requires call.prepared && !call.settled && !call.aborted && s.c.open
    ensures !Over(log, c, k)
  {
    forall i | 0 <= i < |log|
      ensures !Ends(log[i], c, k)
    {
      assert EntryInv(log, k, s, log[i]);
    }
  }

  lemma NotClosed(w: World)
    requires AllKnown(w) && !w.closed
    ensures AdapterClosed !in w.log
  {
    forall i | 0 <= i < |w.log|
      ensures w.log[i] != AdapterClosed
    {
      assert Known(w, w.log[i]);
    }
  }

  lemma NotOver(w: World, c: nat)
    requires Inv(w) && c in w.calls && w.calls[c].prepared
    requires Bound(w, c) && !Unavailable(w.calls[c], w.closed, Connected(w, c).open)
    ensures !Over(w.log, c, w.calls[c].conn)
  {
    var k := w.calls[c].conn;
    NotClosed(w);
    assert ServerInv(w.log, k, w.servers[k]) && CallInv(w.log, c, w.calls[c]);
    NotOverInLog(w.log, c, w.calls[c], k, w.servers[k]);
  }

  /** A step that logs one entry that promises nothing. */
  lemma CallLogs(log: seq<Entry>, c: nat, call: Call, call': Call, e: Entry)
    requires CallKept(log, c, call)
    requires IsSettled(e, c) || e == OfCall(c, Aborted) || e == OfCall(c, Allowed(call.args))
    requires call' == call.(stage := call'.stage, settled := call'.settled, aborted := call'.aborted)
    requires call.sending != SendChecked(false) || call'.sending == call.sending
    requires call'.prepared <==> call'.stage.InHost? || call'.settled
    requires call'.settled ==> call'.stage.Ended?
    requires call.stage.Ended? ==> call'.stage.Ended?
    requires EntryOk(log, e) && (e.c.Settled? ==> call'.stage.Ended?)
    requires (e == OfCall(c, Aborted) || call.aborted) ==> call'.aborted
    requires call'.stage.Waiting? || call'.stage.Checked? || call'.prepared ==> OfCall(c, Allowed(call.args)) in log + [e]
    ensures CallKept(log + [e], c, call')
  {
    LogGrows(log, e);
    SeenLater(log, e);
    if call.sending == SendChecked(false) {
      FreshLater(log, e, c, call.conn, call.tool);
    }
  }

  lemma ApprovalEntries(c: nat, call: Call, call': Call, decision: Decision)
    requires !Allows(decision) ==> call'.stage.Ended?
    ensures CallEntries(c, call, call', ApprovalAnswered(decision)) ==
            if !Allows(decision) then [OfCall(c, Settled(Early, true))]
            else if call'.stage.Ended? then [OfCall(c, Allowed(call.args)), OfCall(c, Settled(Early, true))]
            else [OfCall(c, Allowed(call.args))]
  {
  }

  lemma ApprovalKeeps(log: seq<Entry>, c: nat, call: Call, decision: Decision, closed: bool, conn: Connection)
    requires CallKept(log, c, call) && call.stage.Approving?
    ensures var e := ApprovalAnswered(decision);
      var call' := StepCall(call, e, closed, conn);
      CallKept(log + CallEntries(c, call, call', e), c, call')
  {
    var e := ApprovalAnswered(decision);
    var call' := StepCall(call, e, closed, conn);
    var allowed, ended := OfCall(c, Allowed(call.args)), OfCall(c, Settled(Early, true));
    ApprovalEntries(c, call, call', decision);
    if !Allows(decision) {
      CallLogs(log, c, call, call', ended);
    } else if call'.stage.Ended? {
      CallLogs(log, c, call, call, allowed);
      CallLogs(log + [allowed], c, call, call', ended);
      AppendTwo(log, allowed, ended);
    } else {
      CallLogs(log, c, call, call', allowed);
    }
  }

  lemma DispatchKeeps(log: seq<Entry>, c: nat, call: Call, s: Server)
    requires CallKept(log, c, call) && call.prepared && ServerInv(log, call.conn, s)
    requires s.c.selected.Some? && call.tool in s.c.selected.value
    ensures var call' := Dispatch(call, s.c);
      CallKept(log + CallEntries(c, call, call', HostDispatches), c, call')
  {
    var call' := Dispatch(call, s.c);
    if call.dispatched {
      assert log + CallEntries(c, call, call', HostDispatches) == log;
    } else {
      LogGrows(log, OfCall(c, DispatchBegun));
      SeenLater(log, OfCall(c, DispatchBegun));
      if call'.sending == SendChecked(false) {
        DispatchesFresh(log, c, call.conn, s, call.tool);
      }
    }
  }

  lemma SendAwaitKeeps(log: seq<Entry>, c: nat, call: Call, s: Server)
    requires CallKept(log, c, call) && call.sending.SendWaits? && ServerInv(log, call.conn, s)
    requires s.c.selected.Some? && call.tool in s.c.selected.value
    ensures CallKept(log, c, SendAwait(call, s.c))
  {
    if SendAwait(call, s.c).sending == SendChecked(false) {
      DispatchesFresh(log, c, call.conn, s, call.tool);
    }
  }

  lemma SentKeeps(log: seq<Entry>, c: nat, call: Call, call': Call)
    requires CallKept(log, c, call) && call.sending == SendChecked(false) && !Over(log, c, call.conn)
    requires call' == call.(sending := Requested, sent := true)
    ensures CallKept(log + [OfCall(c, Sent(call.conn, call.tool, call.args))], c, call')
  {
    var e := OfCall(c, Sent(call.conn, call.tool, call.args));
    LogGrows(log, e);
    SeenLater(log, e);
    assert (log + [e])[|log|] == e;
  }

  lemma RejectedKeeps(log: seq<Entry>, c: nat, call: Call, delivery: Delivery)
    requires CallKept(log, c, call) && (call.sending.Requested? || (call.sending.SendChecked? && delivery.NotSent?))
    ensures CallKept(log + [OfCall(c, CallEntry.Rejected(delivery))], c, call.(sending := Sending.Rejected(delivery)))
  {
    var e := OfCall(c, CallEntry.Rejected(delivery));
    LogGrows(log, e);
    SeenLater(log, e);
  }

  lemma SendEntries(c: nat, call: Call, call': Call)
    ensures call'.sending.Requested? ==>
              CallEntries(c, call, call', SendContinues) == [OfCall(c, Sent(call.conn, call.tool, call.args))]
    ensures call'.sending.Rejected? ==>
              CallEntries(c, call, call', SendContinues) == [OfCall(c, CallEntry.Rejected(call'.sending.delivery))]
  {
  }

  lemma SendKeeps(w: World, c: nat)
    requires Inv(w) && c in w.calls && Bound(w, c) && w.calls[c].sending.SendChecked?
    ensures var call' := Send(w.calls[c], w.closed, Connected(w, c).open);
      CallKept(w.log + CallEntries(c, w.calls[c], call', SendContinues), c, call')
  {
    var call := w.calls[c];
    var call' := Send(call, w.closed, Connected(w, c).open);
    assert CallInv(w.log, c, call);
    SendEntries(c, call, call');
    if call'.sending.Requested? {
      NotOver(w, c);
      SentKeeps(w.log, c, call, call');
    } else {
      RejectedKeeps(w.log, c, call, NotSent);
    }
  }

  lemma ReceiveKeeps(log: seq<Entry>, c: nat, call: Call, result: CallResult)
    requires CallKept(log, c, call) && call.sending.Requested?
    ensures var call' := Receive(call, result);
      CallKept(log + CallEntries(c, call, call', ResponseArrives(result)), c, call')
  {
    var call' := Receive(call, result);
    if call'.result.Some? {
      var e := OfCall(c, Validated(result.links));
      LogGrows(log, e);
      SeenLater(log, e);
      assert (log + [e])[|log|] == e;
    } else {
      RejectedKeeps(log, c, call, InvalidResult);
      assert CallEntries(c, call, call', ResponseArrives(result)) == [OfCall(c, CallEntry.Rejected(InvalidResult))];
    }
  }

  /** Every step of a call but the send itself, which needs the whole world. */
  lemma CallStepKeeps(log: seq<Entry>, c: nat, call: Call, s: Server, e: CallEvent, closed: bool)
    requires CallKept(log, c, call) && ServerInv(log, call.conn, s) && CallMay(call, e) && !e.SendContinues?
    requires s.c.selected.Some? && call.tool in s.c.selected.value
    ensures var call' := StepCall(call, e, closed, s.c);
      CallKept(log + CallEntries(c, call, call', e), c, call')
  {
    assert log + [] == log;
    match e
    case ApprovalAnswered(decision) => ApprovalKeeps(log, c, call, decision, closed, s.c);
    case RefreshAwaited =>
    case CallContinues =>
      if call.stage.retired {
        CallLogs(log, c, call, AfterCheck(call), OfCall(c, Settled(Early, true)));
      }
    case HostDispatches => DispatchKeeps(log, c, call, s);
    case SendAwaited => SendAwaitKeeps(log, c, call, s);
    case RequestFails(cause) => RejectedKeeps(log, c, call, Classify(cause));
    case ResponseArrives(result) => ReceiveKeeps(log, c, call, result);
    case HostSettles(outcome) =>
      CallLogs(log, c, call, call.(stage := Ended, settled := true),
               OfCall(c, Settled(Host(outcome), ReportsNotRun(call, outcome))));
    case CallAborts => CallLogs(log, c, call, call.(aborted := true), OfCall(c, Aborted));
  }

  // ----- Every step keeps the whole invariant -----

  lemma ServerStaysSelected(k: nat, s: Server, e: ServerEvent)
    requires ServerMay(s, e)
    ensures s.c.selected.Some? ==> StepServer(s, e).c.selected == s.c.selected
    ensures forall i :: 0 <= i < |ServerEntries(k, s, e)| ==>
              ServerEntries(k, s, e)[i].OfServer? && ServerEntries(k, s, e)[i].conn == k
  {
  }

  lemma ServerEventKeeps(w: World, k: nat, e: ServerEvent)
    requires Inv(w) && k in w.servers && ServerMay(w.servers[k], e)
    ensures Inv(ServerStep(w, k, e))
  {
    var s := w.servers[k];
    ServerStepKeeps(w.log, k, s, e);
    ServerStaysSelected(k, s, e);
    ServerChanges(w, k, StepServer(s, e), ServerEntries(k, s, e));
  }

  lemma EntriesOfCall(c: nat, call: Call, call': Call, e: CallEvent)
    ensures forall i :: 0 <= i < |CallEntries(c, call, call', e)| ==>
              CallEntries(c, call, call', e)[i].OfCall? && CallEntries(c, call, call', e)[i].call == c
  {
  }

  lemma CallEventKeeps(w: World, c: nat, e: CallEvent)
    requires Inv(w) && HasCall(w, c) && CallMay(w.calls[c], e)
    ensures Inv(CallStep(w, c, e))
  {
    var call := w.calls[c];
    var call' := StepCall(call, e, w.closed, Connected(w, c));
    assert Bound(w, c);
    if e.SendContinues? {
      SendKeeps(w, c);
    } else {
      CallStepKeeps(w.log, c, call, w.servers[call.conn], e, w.closed);
    }
    EntriesOfCall(c, call, call', e);
    CallChanges(w, c, call', CallEntries(c, call, call', e));
  }

  lemma LinkKeeps(w: World, c: nat, r: nat, uri: string)
    requires Inv(w) && HasCall(w, c) && w.calls[c].prepared && r !in w.links
    ensures Inv(LinkStep(w, c, r, uri))
  {
    if LinksTo(w.calls[c], uri) {
      assert CallInv(w.log, c, w.calls[c]);
      forall i | 0 <= i < |w.log|
        ensures !(w.log[i].OfRead? && w.log[i].read == r)
      {
        assert Known(w, w.log[i]);
      }
      assert w.log + [] == w.log;
      ReadChanges(w, r, LinkedRead(c, uri, ReadApproving, false), []);
    }
  }

  lemma ReadDecidedKeeps(log: seq<Entry>, r: nat, read: LinkedRead, read': LinkedRead, es: seq<Entry>)
    requires LogOk(log) && ReadInv(log, r, read) && read' == read.(stage := read'.stage)
    requires es == [OfRead(r, ReadAllowed(read.call, read.uri))] || (es == [] && read'.stage.ReadRefused?)
    ensures LogOk(log + es) && ReadInv(log + es, r, read')
    ensures forall i :: 0 <= i < |es| ==> es[i].OfRead? && es[i].read == r
  {
    if es == [] {
      assert log + es == log;
    } else {
      LogGrows(log, es[0]);
      SeenLater(log, es[0]);
    }
  }

  lemma ReadApprovalKeeps(w: World, r: nat, decision: Decision)
    requires Inv(w) && r in w.links && HasCall(w, w.links[r].call)
    ensures Inv(ReadApprovalStep(w, r, decision))
  {
    var read := w.links[r];
    var es := if Allows(decision) then [OfRead(r, ReadAllowed(read.call, read.uri))] else [];
    var read' := AfterReadApproval(read, decision, w.calls[read.call], w.closed, Connected(w, read.call).open);
    assert ReadInv(w.log, r, read);
    ReadDecidedKeeps(w.log, r, read, read', es);
    ReadChanges(w, r, read', es);
  }

  lemma ReadSentKeeps(log: seq<Entry>, r: nat, read: LinkedRead, k: nat, es: seq<Entry>)
    requires LogOk(log) && ReadInv(log, r, read) && !read.dispatched && read.stage.Prepared?
    requires es == [] || (es == [OfRead(r, ReadSent(read.call, k, read.uri))] && !Over(log, read.call, k))
    ensures LogOk(log + es) && ReadInv(log + es, r, read.(dispatched := true))
    ensures forall i :: 0 <= i < |es| ==> es[i].OfRead? && es[i].read == r
  {
    if es == [] {
      assert log + es == log;
    } else {
      LogGrows(log, es[0]);
      SeenLater(log, es[0]);
    }
  }

  lemma ReadSendKeeps(w: World, r: nat)
    requires Inv(w) && r in w.links && HasCall(w, w.links[r].call) && w.links[r].stage.Prepared?
    ensures Inv(ReadStep(w, r))
  {
    var read := w.links[r];
    if !read.dispatched {
      var k := w.calls[read.call].conn;
      var sends := !Unavailable(w.calls[read.call], w.closed, Connected(w, read.call).open);
      var es := if sends then [OfRead(r, ReadSent(read.call, k, read.uri))] else [];
      assert ReadInv(w.log, r, read) && Bound(w, read.call);
      if sends {
        NotOver(w, read.call);
      }
      ReadSentKeeps(w.log, r, read, k, es);
      ReadChanges(w, r, read.(dispatched := true), es);
    }
  }

  lemma CloseKeeps(w: World)
    requires Inv(w)
    ensures Inv(w.(closed := true, log := w.log + [AdapterClosed]))
  {
    var w' := w.(closed := true, log := w.log + [AdapterClosed]);
    var es := [AdapterClosed];
    LogGrows(w.log, AdapterClosed);
    KnownLater(w, w', es);
    ServersFrame(w.log, es, w.servers);
    CallsFrame(w.log, es, w.calls);
    ReadsFrame(w.log, es, w.links);
    BoundLater(w, w');
  }

  lemma BeginKeeps(w: World, c: nat, k: nat, tool: CatalogTool, args: string)
    requires Inv(w) && c !in w.calls && k in w.servers && w.servers[k].c.selected.Some? && tool in w.servers[k].c.selected.value
    ensures Inv(BeginStep(w, c, k, tool, args))
  {
    var call := BeginCall(k, tool, args, w.closed, w.servers[k].c.open);
    forall i | 0 <= i < |w.log|
      ensures !(w.log[i].OfCall? && w.log[i].call == c)
    {
      assert Known(w, w.log[i]);
    }
    assert CallInv(w.log, c, call.(stage := Approving));
    if call.stage.Ended? {
      CallLogs(w.log, c, call.(stage := Approving), call, OfCall(c, Settled(Early, true)));
      CallChanges(w, c, call, [OfCall(c, Settled(Early, true))]);
    } else {
      assert w.log + [] == w.log;
      CallChanges(w, c, call, []);
    }
  }

  lemma StepKeepsInv(w: World, e: Event)
    requires Inv(w) && Enabled(w, e)
    ensures Inv(Step(w, e))
  {
    match e
    case ServerMoves(k, se) => ServerEventKeeps(w, k, se);
    case CallBegins(c, k, tool, args) => BeginKeeps(w, c, k, tool, args);
    case CallMoves(c, ce) => CallEventKeeps(w, c, ce);
    case HostLinks(c, r, uri) => LinkKeeps(w, c, r, uri);
    case ReadMoves(r, re) =>
      if re.HostReads? {
        ReadSendKeeps(w, r);
      } else {
        ReadApprovalKeeps(w, r, re.decision);
      }
    case AdapterCloses => CloseKeeps(w);
  }

  /** Any set of connections, none of which has selected its tools yet. */
  ghost predicate Initial(w: World) {
    && !w.closed && w.calls == map[] && w.links == map[] && w.log == []
    && forall k :: k in w.servers ==> w.servers[k] == Server(Connection(true, None, {}, false, false), 0, [], 0)
  }

  /** One step of a run. */
  ghost predicate Next(w: World, e: Event, w': World) {
    Enabled(w, e) && w' == Step(w, e)
  }

  ghost predicate IsRun(worlds: seq<World>, events: seq<Event>) {
    IsRunOf(Initial, Next, worlds, events)
  }

  lemma RunsKeepInv(worlds: seq<World>, events: seq<Event>, i: nat)
    requires IsRun(worlds, events) && i < |worlds|
    ensures Inv(worlds[i])
  {
    forall w, e, w' | Inv(w) && Next(w, e, w')
      ensures Inv(w')
    {
      StepKeepsInv(w, e);
    }
    InvariantHolds(Initial, Next, Inv, worlds, events, i);
  }

  // ----- What follows for every run -----

  /** The log only grows, and so does every connection's retired set. */
  ghost predicate Grew(w: World, w': World) {
    && w.log <= w'.log
    && w.servers.Keys == w'.servers.Keys
    && forall k :: k in w.servers ==> w.servers[k].c.retired <= w'.servers[k].c.retired
  }

  lemma GrewOn(w: World, w1: World, w2: World)
    requires Grew(w, w1) && Grew(w1, w2)
    ensures Grew(w, w2)
  {
    forall k | k in w.servers
      ensures w.servers[k].c.retired <= w2.servers[k].c.retired
    {
      assert k in w1.servers;
    }
  }

  lemma HistoryGrows(worlds: seq<World>, events: seq<Event>, i: nat, j: nat)
    requires IsRun(worlds, events) && i <= j < |worlds|
    ensures Grew(worlds[i], worlds[j])
  {
    forall w0, w, e, w' | Grew(w0, w) && Next(w, e, w')
      ensures Grew(w0, w')
    {
      StepGrows(w, e);
      GrewOn(w0, w, w');
    }
    HistoryHolds(Initial, Next, Grew, worlds, events, i, j);
  }

  lemma StepGrows(w: World, e: Event)
    requires Enabled(w, e)
    ensures Grew(w, Step(w, e))
  {
    if e.ServerMoves? {
      RetiredGrows(w.servers[e.conn], e.s);
    }
  }

  lemma RetiredGrows(s: Server, e: ServerEvent)
    requires ServerMay(s, e)
    ensures s.c.retired <= StepServer(s, e).c.retired
  {
  }

  lemma SendInLog(log: seq<Entry>, j: nat)
    requires LogOk(log) && j < |log| && log[j].OfCall? && log[j].c.Sent?
    ensures OfCall(log[j].call, Allowed(log[j].c.args)) in log[..j]
    ensures forall other :: 0 <= other < |log| && IsSent(log[other], log[j].call) ==> other == j
    ensures forall over :: 0 <= over < |log| && Ends(log[over], log[j].call, log[j].c.conn) ==> j < over
  {
    assert forall before :: 0 <= before < j ==> log[..j][before] == log[before];
    EveryEntryOk(log, j);
    forall other | 0 <= other < |log| && IsSent(log[other], log[j].call)
      ensures other == j
    {
      if j < other {
        assert log[..other][j] == log[j];
        EveryEntryOk(log, other);
      }
    }
  }

  lemma {:induction false} PrefixSeen(log: seq<Entry>, s: nat, c: nat)
    requires s <= |log|
    ensures WasSent(log[..s], c) ==> WasSent(log, c)
  {
    if WasSent(log[..s], c) {
      var i :| 0 <= i < s && IsSent(log[..s][i], c);
      assert IsSent(log[i], c);
    }
  }

  /** Nothing is sent after the call settled. */
  lemma SentBeforeSettled(log: seq<Entry>, s: nat, c: nat)
    requires LogOk(log) && s < |log| && IsSettled(log[s], c) && WasSent(log, c)
    ensures WasSent(log[..s], c)
  {
    var j :| 0 <= j < |log| && IsSent(log[j], c);
    SendInLog(log, j);
    assert Ends(log[s], c, log[j].c.conn);
    assert log[..s][j] == log[j];
  }

  lemma ReadInLog(log: seq<Entry>, j: nat)
    requires LogOk(log) && j < |log| && log[j].OfRead? && log[j].r.ReadSent?
    ensures OffersLink(log[..j], log[j].r.call, log[j].r.uri)
    ensures OfRead(log[j].read, ReadAllowed(log[j].r.call, log[j].r.uri)) in log[..j]
    ensures forall other :: 0 <= other < |log| && IsReadSent(log[other], log[j].read) ==> other == j
    ensures forall over :: 0 <= over < |log| && Ends(log[over], log[j].r.call, log[j].r.conn) ==> j < over
  {
    assert forall before :: 0 <= before < j ==> log[..j][before] == log[before];
    EveryEntryOk(log, j);
    forall other | 0 <= other < |log| && IsReadSent(log[other], log[j].read)
      ensures other == j
    {
      if j < other {
        assert log[..other][j] == log[j];
        EveryEntryOk(log, other);
      }
    }
  }

  /**
   * A `tools/call` is sent only with arguments the broker allowed, at most once a call, and never after that
   * call settled, was aborted, or lost its connection or the adapter.
   */
  lemma SendsAreSafe(worlds: seq<World>, events: seq<Event>, i: nat, j: nat)
    requires IsRun(worlds, events) && i < |worlds| && j < |worlds[i].log|
    requires worlds[i].log[j].OfCall? && worlds[i].log[j].c.Sent?
    ensures var log, c, sent := worlds[i].log, worlds[i].log[j].call, worlds[i].log[j].c;
      && OfCall(c, Allowed(sent.args)) in log[..j]
      && (forall other :: 0 <= other < |log| && IsSent(log[other], c) ==> other == j)
      && (forall over :: 0 <= over < |log| && Ends(log[over], c, sent.conn) ==> j < over)
  {
    RunsKeepInv(worlds, events, i);
    SendInLog(worlds[i].log, j);
  }

  /** A request of the call is out: it was sent, and the call's own `dispatch()` was not told that it was not. */
  predicate IsOut(log: seq<Entry>, c: nat) {
    WasSent(log, c) && OfCall(c, CallEntry.Rejected(NotSent)) !in log
  }

  /** The host threw a `HostManagedMcpError` that says not sent. */
  predicate ThrewNotSent(ending: Ending) {
    && ending.Host? && ending.outcome.Threw? && ending.outcome.error.Some?
    && ending.outcome.error.value.delivery.NotSent?
  }

  /** The host threw a `HostManagedMcpError` that says not sent, and that this call's own `dispatch()` did not give it. */
  predicate Borrowed(log: seq<Entry>, c: nat, ending: Ending) {
    ThrewNotSent(ending) && OfCall(c, CallEntry.Rejected(NotSent)) !in log
  }

  lemma OutSinceSettled(log: seq<Entry>, s: nat, c: nat)
    requires LogOk(log) && s < |log| && IsSettled(log[s], c)
    ensures WasSent(log, c) <==> WasSent(log[..s], c)
    ensures IsOut(log, c) ==> IsOut(log[..s], c)
  {
    PrefixSeen(log, s, c);
    if WasSent(log, c) {
      SentBeforeSettled(log, s, c);
    }
  }

  lemma ReportInLog(log: seq<Entry>, s: nat)
    requires LogOk(log) && s < |log| && log[s].OfCall? && log[s].c.Settled?
    ensures var c, settled := log[s].call, log[s].c;
      && (IsOut(log[..s], c) ==> (settled.notRun <==> ThrewNotSent(settled.ending) && !WasValidated(log[..s], c)))
      && (IsOut(log, c) ==> IsOut(log[..s], c))
      && (WasSent(log, c) <==> WasSent(log[..s], c))
  {
    EveryEntryOk(log, s);
    OutSinceSettled(log, s, log[s].call);
  }

  /**
   * While a request of the call is out, its report says that it was not run exactly when the host threw an error
   * that says not sent and no result was validated; and what is not out when the call settles never is.
   */
  lemma NotRunReportsExactly(worlds: seq<World>, events: seq<Event>, i: nat, s: nat)
    requires IsRun(worlds, events) && i < |worlds| && s < |worlds[i].log|
    requires worlds[i].log[s].OfCall? && worlds[i].log[s].c.Settled?
    ensures var log, c, settled := worlds[i].log, worlds[i].log[s].call, worlds[i].log[s].c;
      && (IsOut(log[..s], c) ==> (settled.notRun <==> ThrewNotSent(settled.ending) && !WasValidated(log[..s], c)))
      && (IsOut(log, c) ==> IsOut(log[..s], c))
      && (WasSent(log, c) <==> WasSent(log[..s], c))
  {
    RunsKeepInv(worlds, events, i);
    ReportInLog(worlds[i].log, s);
  }

  /** Without a borrowed error a call reported as not run is never out, before or after its report. */
  lemma NotRunWasNotSent(worlds: seq<World>, events: seq<Event>, i: nat, s: nat)
    requires IsRun(worlds, events) && i < |worlds| && s < |worlds[i].log|
    requires worlds[i].log[s].OfCall? && worlds[i].log[s].c.Settled? && worlds[i].log[s].c.notRun
    requires !Borrowed(worlds[i].log[..s], worlds[i].log[s].call, worlds[i].log[s].c.ending)
    ensures !IsOut(worlds[i].log, worlds[i].log[s].call)
  {
    NotRunReportsExactly(worlds, events, i, s);
  }

  /** A call whose `dispatch()` the adapter refused before sending is never sent in the whole run. */
  lemma RefusedWasNotSent(worlds: seq<World>, events: seq<Event>, i: nat, r: nat)
    requires IsRun(worlds, events) && i < |worlds| && r < |worlds[i].log|
    requires worlds[i].log[r].OfCall? && worlds[i].log[r].c.Rejected? && !WasSent(worlds[i].log[..r], worlds[i].log[r].call)
    ensures worlds[i].log[r].c.delivery.NotSent? && !WasSent(worlds[i].log, worlds[i].log[r].call)
  {
    RunsKeepInv(worlds, events, i);
    var log, c := worlds[i].log, worlds[i].log[r].call;
    EveryEntryOk(log, r);
    forall j | 0 <= j < |log|
      ensures !IsSent(log[j], c)
    {
      NotSentBeside(log, r, j, c);
    }
  }

  lemma NotSentBeside(log: seq<Entry>, r: nat, j: nat, c: nat)
    requires LogOk(log) && r < |log| && j < |log| && IsRejected(log[r], c) && !WasSent(log[..r], c)
    ensures !IsSent(log[j], c)
  {
    if j < r {
      assert log[..r][j] == log[j];
    } else if j > r {
      assert log[..j][r] == log[r];
      EveryEntryOk(log, j);
    }
  }

  /** At most one re-list of a connection is in flight, and one begins only after the last was answered. */
  lemma OneRelistAtATime(worlds: seq<World>, events: seq<Event>, i: nat, k: nat)
    requires IsRun(worlds, events) && i < |worlds| && k in worlds[i].servers
    ensures |worlds[i].servers[k].asked| == if worlds[i].servers[k].c.refreshing then 1 else 0
    ensures var log := worlds[i].log;
      forall a, b :: 0 <= a < b < |log| && IsBegun(log[a], k) && IsBegun(log[b], k) ==>
        log[a].s.after < log[b].s.after && WasAnswered(log[..b], k, log[a].s.after)
  {
    RunsKeepInv(worlds, events, i);
    var log := worlds[i].log;
    assert ServerInv(log, k, worlds[i].servers[k]);
    forall a, b | 0 <= a < b < |log| && IsBegun(log[a], k) && IsBegun(log[b], k)
      ensures log[a].s.after < log[b].s.after && WasAnswered(log[..b], k, log[a].s.after)
    {
      EveryEntryOk(log, b);
      assert log[..b][a] == log[a];
    }
  }

  /**
   * No notification is lost: whenever the refresh clears, and whenever none is under way once the tools are
   * selected, every notification so far was followed by a re-list that began after it and was answered.
   */
  lemma NotificationsAreListed(worlds: seq<World>, events: seq<Event>, i: nat, k: nat, n: nat)
    requires IsRun(worlds, events) && i < |worlds| && k in worlds[i].servers
    requires n < |worlds[i].log| && IsNotified(worlds[i].log[n], k)
    ensures var log, s := worlds[i].log, worlds[i].servers[k];
      && (s.c.selected.Some? && !s.c.refreshing ==> ListedSince(log, k, log[n].s.number))
      && (forall j :: n < j < |log| && log[j] == OfServer(k, RefreshCleared) ==> ListedSince(log[..j], k, log[n].s.number))
  {
    RunsKeepInv(worlds, events, i);
    var log, s := worlds[i].log, worlds[i].servers[k];
    assert ServerInv(log, k, s) && EntryInv(log, k, s, log[n]);
    forall j | n < j < |log| && log[j] == OfServer(k, RefreshCleared)
      ensures ListedSince(log[..j], k, log[n].s.number)
    {
      EveryEntryOk(log, j);
      assert log[..j][n] == log[n];
    }
  }

  /**
   * A re-list carries the number of every notification before it: one that counts for a notification's number
   * began after it.
   */
  lemma RelistsBeginAfter(worlds: seq<World>, events: seq<Event>, i: nat, k: nat, n: nat, b: nat)
    requires IsRun(worlds, events) && i < |worlds| && n < |worlds[i].log| && b < |worlds[i].log|
    requires IsNotified(worlds[i].log[n], k) && IsBegun(worlds[i].log[b], k)
    ensures n < b ==> worlds[i].log[n].s.number <= worlds[i].log[b].s.after
    ensures b < n ==> worlds[i].log[b].s.after < worlds[i].log[n].s.number
  {
    RunsKeepInv(worlds, events, i);
    var log := worlds[i].log;
    EveryEntryOk(log, b);
    EveryEntryOk(log, n);
    assert n < b ==> log[..b][n] == log[n];
    assert b < n ==> log[..n][b] == log[b];
  }

  /**
   * A dispatch begun after a re-list retired its tool sends nothing, and one begun after a notification sends
   * nothing until a re-list that counts for it still shows the tool as it was frozen.
   */
  lemma RetiredToolsAreNotSent(worlds: seq<World>, events: seq<Event>, i: nat, j: nat, d: nat, e: nat)
    requires IsRun(worlds, events) && i < |worlds| && e < d < j < |worlds[i].log|
    requires worlds[i].log[j].OfCall? && worlds[i].log[j].c.Sent?
    requires worlds[i].log[d] == OfCall(worlds[i].log[j].call, DispatchBegun)
    ensures var log, sent := worlds[i].log, worlds[i].log[j].c;
      && (IsDone(log[e], sent.conn) ==> ShowsUnchanged(log[e].s.listing, sent.tool))
      && (IsNotified(log[e], sent.conn) ==> KeptSince(log[..j], sent.conn, log[e].s.number, sent.tool))
  {
    RunsKeepInv(worlds, events, i);
    var log, sent := worlds[i].log, worlds[i].log[j].c;
    EveryEntryOk(log, j);
    assert log[..j][d] == log[d] && log[..j][e] == log[e];
    assert FreshAt(log[..j], d, sent.conn, sent.tool);
  }

  /**
   * A `resources/read` is sent only for a link in the validated result of its own call, after a separate
   * approval of that read, at most once, and never after the call settled or the adapter closed.
   */
  lemma ReadsAreSafe(worlds: seq<World>, events: seq<Event>, i: nat, j: nat)
    requires IsRun(worlds, events) && i < |worlds| && j < |worlds[i].log|
    requires worlds[i].log[j].OfRead? && worlds[i].log[j].r.ReadSent?
    ensures var log, r, sent := worlds[i].log, worlds[i].log[j].read, worlds[i].log[j].r;
      && OffersLink(log[..j], sent.call, sent.uri)
      && OfRead(r, ReadAllowed(sent.call, sent.uri)) in log[..j]
      && (forall other :: 0 <= other < |log| && IsReadSent(log[other], r) ==> other == j)
      && (forall over :: 0 <= over < |log| && Ends(log[over], sent.call, sent.conn) ==> j < over)
  {
    RunsKeepInv(worlds, events, i);
    ReadInLog(worlds[i].log, j);
  }

  /** A result is only validated for a call that was sent. */
  lemma LinksComeFromTheCall(worlds: seq<World>, events: seq<Event>, i: nat, j: nat)
    requires IsRun(worlds, events) && i < |worlds| && j < |worlds[i].log|
    requires worlds[i].log[j].OfCall? && worlds[i].log[j].c.Validated?
    ensures WasSent(worlds[i].log[..j], worlds[i].log[j].call)
  {
    RunsKeepInv(worlds, events, i);
    EveryEntryOk(worlds[i].log, j);
  }

  // ----- A run whose not-run report is not true -----

  /** The world after the events, if each is enabled in turn. */
  ghost predicate Plays(worlds: seq<World>, events: seq<Event>, last: World) {
    IsRun(worlds, events) && worlds[|events|] == last
  }

  lemma PlayOn(worlds: seq<World>, events: seq<Event>, w: World, e: Event) returns (worlds': seq<World>, events': seq<Event>)
    requires Plays(worlds, events, w) && Enabled(w, e)
    ensures Plays(worlds', events', Step(w, e))
  {
    worlds', events' := worlds + [Step(w, e)], events + [e];
  }

  const TOOL := CatalogTool("t", "f", false)

  function OneServer(selected: bool): map<nat, Server> {
    map[0 := Server(Connection(true, if selected then Some([TOOL]) else None, {}, false, false), 0, [], 0)]
  }

  function CallAt(stage: Stage, sending: Sending, aborted: bool): Call {
    var inHost := stage.InHost?;
    Call(0, TOOL, "{}", stage, aborted, inHost, !sending.Unsent?, sending, sending.Requested?, false, None)
  }

  /** The events that bring a call to its send, and what they log. */
  lemma PlayToSend(worlds: seq<World>, events: seq<Event>, calls: map<nat, Call>, log: seq<Entry>, c: nat)
      returns (worlds': seq<World>, events': seq<Event>)
    requires Plays(worlds, events, World(false, OneServer(true), calls, map[], log)) && c !in calls
    ensures Plays(worlds', events', World(false, OneServer(true), calls[c := CallAt(InHost, SendChecked(false), false)], map[],
                                          log + [OfCall(c, Allowed("{}")), OfCall(c, DispatchBegun)]))
  {
    var w := World(false, OneServer(true), calls, map[], log);
    assert w.servers[0].c.selected.value[0] == TOOL;
    worlds', events' := PlayOn(worlds, events, w, CallBegins(c, 0, TOOL, "{}"));
    var w1 := w.(calls := calls[c := CallAt(Approving, Unsent, false)]);
    assert w1.log + [] == w1.log && Step(w, CallBegins(c, 0, TOOL, "{}")) == w1;
    worlds', events' := PlayOn(worlds', events', w1, CallMoves(c, ApprovalAnswered(AllowOnce)));
    var log2 := log + [OfCall(c, Allowed("{}"))];
    var w2 := w.(calls := calls[c := CallAt(Checked(false), Unsent, false)], log := log2);
    assert Step(w1, CallMoves(c, ApprovalAnswered(AllowOnce))) == w2;
    worlds', events' := PlayOn(worlds', events', w2, CallMoves(c, CallContinues));
    var w3 := w2.(calls := calls[c := CallAt(InHost, Unsent, false)]);
    assert w2.log + [] == w2.log && Step(w2, CallMoves(c, CallContinues)) == w3;
    worlds', events' := PlayOn(worlds', events', w3, CallMoves(c, HostDispatches));
    assert Step(w3, CallMoves(c, HostDispatches)) ==
           w3.(calls := calls[c := CallAt(InHost, SendChecked(false), false)], log := log2 + [OfCall(c, DispatchBegun)]);
    assert log2 + [OfCall(c, DispatchBegun)] == log + [OfCall(c, Allowed("{}")), OfCall(c, DispatchBegun)];
  }

  /** Two calls of one server: one sent, the other aborted before its send and refused. */
  lemma PlayBorrowing() returns (worlds: seq<World>, events: seq<Event>, w: World)
    ensures Plays(worlds, events, w) && w.calls.Keys == {0, 1} && HasCall(w, 0)
    ensures w.calls[0] == CallAt(InHost, Requested, false)
    ensures OfCall(1, CallEntry.Rejected(NotSent)) in w.log && OfCall(0, CallEntry.Rejected(NotSent)) !in w.log
    ensures OfCall(0, Sent(0, TOOL, "{}")) in w.log
  {
    var start := World(false, OneServer(false), map[], map[], []);
    var ready := World(false, OneServer(true), map[], map[], []);
    assert Plays([start], [], start);
    worlds, events := PlayOn([start], [], start, ServerMoves(0, ToolsSelected([TOOL])));
    assert Step(start, ServerMoves(0, ToolsSelected([TOOL]))) == ready;
    worlds, events := PlayToSend(worlds, events, map[], [], 0);
    var log1 := [] + [OfCall(0, Allowed("{}")), OfCall(0, DispatchBegun)];
    var w1 := ready.(calls := map[][0 := CallAt(InHost, SendChecked(false), false)], log := log1);
    worlds, events := PlayOn(worlds, events, w1, CallMoves(0, SendContinues));
    var sent := map[0 := CallAt(InHost, Requested, false)];
    var log2 := log1 + [OfCall(0, Sent(0, TOOL, "{}"))];
    assert Step(w1, CallMoves(0, SendContinues)) == ready.(calls := sent, log := log2);
    worlds, events, w := PlayRefusal(worlds, events, sent, log2);
  }

  lemma PlayRefusal(before: seq<World>, soFar: seq<Event>, calls: map<nat, Call>, log: seq<Entry>)
      returns (worlds: seq<World>, events: seq<Event>, w: World)
    requires Plays(before, soFar, World(false, OneServer(true), calls, map[], log)) && 1 !in calls
    ensures Plays(worlds, events, w)
    ensures w == World(false, OneServer(true), calls[1 := CallAt(InHost, Sending.Rejected(NotSent), true)], map[],
                       log + [OfCall(1, Allowed("{}")), OfCall(1, DispatchBegun), OfCall(1, Aborted),
                              OfCall(1, CallEntry.Rejected(NotSent))])
  {
    worlds, events := PlayToSend(before, soFar, calls, log, 1);
    var log1 := log + [OfCall(1, Allowed("{}")), OfCall(1, DispatchBegun)];
    var w1 := World(false, OneServer(true), calls[1 := CallAt(InHost, SendChecked(false), false)], map[], log1);
    worlds, events := PlayOn(worlds, events, w1, CallMoves(1, CallAborts));
    var w2 := w1.(calls := calls[1 := CallAt(InHost, SendChecked(false), true)], log := log1 + [OfCall(1, Aborted)]);
    assert Step(w1, CallMoves(1, CallAborts)) == w2;
    worlds, events := PlayOn(worlds, events, w2, CallMoves(1, SendContinues));
    w := Step(w2, CallMoves(1, SendContinues));
    assert w.log == log1 + [OfCall(1, Aborted)] + [OfCall(1, CallEntry.Rejected(NotSent))];
  }

  /**
   * A run whose report is not true: a call's request is out, its host throws the not-sent error of another call,
   * and the call is reported as not run.
   */
  lemma BorrowedReportIsWrong() returns (worlds: seq<World>, events: seq<Event>)
    ensures IsRun(worlds, events) && |events| > 0
    ensures var log := worlds[|events|].log;
      && log != []
      && log[|log| - 1] == OfCall(0, Settled(Host(Threw(Some(HostError(NotSent, false)))), true))
      && OfCall(1, CallEntry.Rejected(NotSent)) in log
      && IsOut(log, 0)
  {
    var w;
    worlds, events, w := PlayBorrowing();
    var e := CallMoves(0, HostSettles(Threw(Some(HostError(NotSent, false)))));
    worlds, events := PlayOn(worlds, events, w, e);
    var last := OfCall(0, Settled(Host(Threw(Some(HostError(NotSent, false)))), true));
    var log := Step(w, e).log;
    assert log == w.log + [last];
    var i :| 0 <= i < |w.log| && w.log[i] == OfCall(0, Sent(0, TOOL, "{}"));
    assert IsSent(log[i], 0);
  }
}

/** The objects of `host-managed.ts`: a connection, and the closures of one tool call. */
module HostManaged {
  import opened Wrappers
  import opened CatalogRefresh
  import opened HostCallSteps

  class HostConnection {
    var open: bool
    var selected: Option<seq<CatalogTool>>
    var retired: set<string>
    var refreshing: bool
    var refreshRequested: bool

    function Abstract(): Connection
      reads this
    {
      Connection(open, selected, retired, refreshing, refreshRequested)
    }

    constructor ()
      ensures Abstract() == Connection(true, None, {}, false, false)
    {
      open, selected, retired, refreshing, refreshRequested := true, None, {}, false, false;
    }

    /** `requestCatalogRefresh`, up to the wait for a re-list it begins. */
    method RequestCatalogRefresh() returns (begins: bool)
      modifies this
      ensures Abstract() == Request(old(Abstract()))
      ensures begins <==> selected.Some? && !old(refreshing)
      ensures begins ==> refreshing && !refreshRequested
      ensures !begins ==> refreshRequested && refreshing == old(refreshing)
    {
      refreshRequested := true;
      if selected.None? || refreshing {
        return false;
      }
      refreshing := true;
      refreshRequested := false;
      return true;
    }

    /** The map from the listed names to their fingerprints. */
    method CurrentTools(tools: seq<(string, string)>) returns (current: map<string, string>)
      ensures forall name :: (if name in current then Some(current[name]) else None) == ListedAs(tools, name)
    {
      current := map[];
      for i := 0 to |tools|
        invariant forall name :: (if name in current then Some(current[name]) else None) == ListedAs(tools[..i], name)
      {
        assert tools[..i + 1][..i] == tools[..i];
        current := current[tools[i].0 := tools[i].1];
      }
      assert tools[..|tools|] == tools;
    }

    /** The loop body after the wait for a re-list, and the loop's next turn. */
    method ListingArrives(listing: Listing) returns (again: bool)
      requires selected.Some?
      modifies this
      ensures Abstract() == Answered(old(Abstract()), listing)
      ensures again <==> refreshing
      ensures again <==> old(refreshRequested)
      ensures forall name :: name in retired <==>
                || name in old(retired)
                || exists i :: 0 <= i < |selected.value| && selected.value[i].name == name && !ShowsUnchanged(listing, selected.value[i])
    {
      var tools := selected.value;
      var current := map[];
      if listing.Listed? {
        current := CurrentTools(listing.tools);
      }
      for i := 0 to |tools|
        invariant selected == old(selected) && open == old(open) && refreshRequested == old(refreshRequested)
        invariant retired == old(retired) + RetiredBy(listing, tools[..i])
      {
        assert tools[..i + 1][..i] == tools[..i];
        assert RetiredBy(listing, tools[..i + 1]) ==
               RetiredBy(listing, tools[..i]) + (if Retires(listing, tools[i]) then {tools[i].name} else {}) by {
          RetiredByOneMore(listing, tools, i);
        }
        if listing.ListFailed? || tools[i].name !in current || current[tools[i].name] != tools[i].fingerprint {
          retired := retired + {tools[i].name};
        }
      }
      assert tools[..|tools|] == tools;
      again := refreshRequested;
      refreshRequested := false;
      refreshing := again;
      forall i | 0 <= i < |tools|
        ensures Retires(listing, tools[i]) <==> !ShowsUnchanged(listing, tools[i])
      {
        RetiresExactly(listing, tools[i]);
      }
    }

    /** The end of `connectServer`. */
    method SelectTools(tools: seq<CatalogTool>) returns (begins: bool)
      requires selected.None? && !refreshing
      modifies this
      ensures Abstract() == Select(old(Abstract()), tools)
      ensures begins <==> refreshing
      ensures begins <==> old(refreshRequested)
    {
      selected := Some(tools);
      begins := false;
      if refreshRequested {
        begins := RequestCatalogRefresh();
      }
    }
  }

  lemma RetiredByOneMore(listing: Listing, tools: seq<CatalogTool>, i: nat)
    requires i < |tools|
    ensures RetiredBy(listing, tools[..i + 1]) ==
            RetiredBy(listing, tools[..i]) + (if Retires(listing, tools[i]) then {tools[i].name} else {})
  {
    var more, fewer := tools[..i + 1], tools[..i];
    forall name | name in RetiredBy(listing, more)
      ensures name in RetiredBy(listing, fewer) + (if Retires(listing, tools[i]) then {tools[i].name} else {})
    {
      var j :| 0 <= j < |more| && Retires(listing, more[j]) && more[j].name == name;
      assert j < i ==> fewer[j] == more[j];
    }
    forall name | name in RetiredBy(listing, fewer)
      ensures name in RetiredBy(listing, more)
    {
      var j :| 0 <= j < |fewer| && Retires(listing, fewer[j]) && fewer[j].name == name;
      assert more[j] == fewer[j];
    }
    assert more[i] == tools[i];
  }

  /** The variables that the closures of one `executeTool` share. */
  class HostCall {
    const connection: HostConnection
    const conn: nat
    const tool: CatalogTool
    const args: string
    var stage: Stage
    var aborted: bool
    var prepared: bool
    var dispatched: bool
    var sending: Sending
    var sent: bool
    var settled: bool
    var result: Option<CallResult>

    function Abstract(): Call
      reads this
    {
      Call(conn, tool, args, stage, aborted, prepared, dispatched, sending, sent, settled, result)
    }

    constructor (connection: HostConnection, conn: nat, tool: CatalogTool, args: string, closed: bool)
      ensures Abstract() == BeginCall(conn, tool, args, closed, connection.open)
      ensures this.connection == connection
    {
      this.connection, this.conn, this.tool, this.args := connection, conn, tool, args;
      stage := if closed || !connection.open then Ended else Approving;
      aborted, prepared, dispatched, sending, sent, settled, result := false, false, false, Unsent, false, false, None;
    }

    method ApprovalArrives(decision: Decision, closed: bool)
      requires stage.Approving?
      modifies this
      ensures Abstract() == AfterApproval(old(Abstract()), decision, closed, old(connection.Abstract()))
      ensures stage.Ended? <==>
              || (decision != AllowOnce && decision != AllowForSession)
              || closed || !old(connection.open) || old(aborted)
      ensures !stage.Ended? ==>
                stage == if old(connection.refreshing) then Waiting else Checked(tool.name in old(connection.retired))
    {
      if !Allows(decision) {
        stage := Ended;
      } else if closed || !connection.open || aborted {
        stage := Ended;
      } else if connection.refreshing {
        stage := Waiting;
      } else {
        stage := Checked(tool.name in connection.retired);
      }
    }

    /** After the wait in `isRetired` at the approval: wait again, or take the verdict. */
    method RefreshCleared()
      requires stage.Waiting?
      modifies this
      ensures Abstract() == AwaitRefresh(old(Abstract()), old(connection.Abstract()))
      ensures stage == if old(connection.refreshing) then Waiting else Checked(tool.name in old(connection.retired))
    {
      if !connection.refreshing {
        stage := Checked(tool.name in connection.retired);
      }
    }

    method Continue()
      requires stage.Checked?
      modifies this
      ensures Abstract() == AfterCheck(old(Abstract()))
      ensures if old(stage) == Checked(true) then stage.Ended? && prepared == old(prepared) else stage.InHost? && prepared
    {
      if stage.retired {
        stage := Ended;
      } else {
        stage := InHost;
        prepared := true;
      }
    }

    /** `call.dispatch()`, up to the wait in `send`; it throws on a second call. */
    method DispatchOnce() returns (throws: bool)
      requires prepared
      modifies this
      ensures Abstract() == Dispatch(old(Abstract()), old(connection.Abstract()))
      ensures throws <==> old(dispatched)
      ensures if throws then Abstract() == old(Abstract())
              else dispatched && sending == if old(connection.refreshing) then SendWaits
                                            else SendChecked(tool.name in old(connection.retired))
    {
      if dispatched {
        return true;
      }
      dispatched := true;
      if connection.refreshing {
        sending := SendWaits;
      } else {
        sending := SendChecked(tool.name in connection.retired);
      }
      return false;
    }

    /** `send` after its verdict: whether the request goes out. */
    method SendRequest(closed: bool) returns (goesOut: bool)
      requires sending.SendChecked?
      modifies this
      ensures Abstract() == Send(old(Abstract()), closed, old(connection.open))
      ensures goesOut <==>
              !(old(settled) || closed || !old(connection.open) || old(aborted)) && old(sending) == SendChecked(false)
      ensures if goesOut then sent && sending == Requested else sent == old(sent) && sending == Sending.Rejected(NotSent)
    {
      var retired := sending.retired;
      if settled || closed || !connection.open || aborted || retired {
        sending := Sending.Rejected(NotSent);
        return false;
      }
      sent := true;
      sending := Requested;
      return true;
    }

    /** The response in `send`: the validated result, if it is valid. */
    method ResponseArrives(response: CallResult) returns (valid: bool)
      requires sending.Requested?
      modifies this
      ensures Abstract() == Receive(old(Abstract()), response)
      ensures valid <==> !tool.checked || response.isError || response.validates
      ensures if valid then sending == Answer && result == Some(response)
              else sending == Sending.Rejected(InvalidResult) && result == old(result)
    {
      valid := true;
      if tool.checked && !response.isError {
        valid := response.validates;
      }
      if !valid {
        sending := Sending.Rejected(InvalidResult);
        return;
      }
      sending := Answer;
      result := Some(response);
    }

    /** The failure of the request in `send`, and how it is classified. */
    method RequestFails(cause: Cause) returns (delivery: Delivery)
      requires sending.Requested?
      modifies this
      ensures Abstract() == old(Abstract()).(sending := Sending.Rejected(delivery))
      ensures delivery == Classify(cause)
    {
      match cause {
        case HostCause(error) => delivery := error.delivery;
        case JsonRpcError => delivery := ServerError;
        case InvalidAnswer => delivery := InvalidResult;
        case NotConnected => delivery := NotSent;
        case OtherCause => delivery := MayHaveRun;
      }
      sending := Sending.Rejected(delivery);
    }

    /** `call.linkedResource(uri)`: none when it throws, otherwise whether an approval is requested. */
    method LinkedResource(uri: string, closed: bool) returns (asks: Option<bool>)
      ensures asks.Some? <==> result.Some? && uri in result.value.links
      ensures asks == Some(true) <==> asks.Some? && !settled && !closed && connection.open && !aborted
    {
      if result.None? || uri !in result.value.links {
        return None;
      }
      return Some(!(settled || closed || !connection.open || aborted));
    }

    /** The end of `onToolCall`, and whether the report says the tool was not run. */
    method HostEnds(outcome: Outcome) returns (notRun: bool)
      requires stage.InHost?
      modifies this
      ensures Abstract() == old(Abstract()).(stage := Ended, settled := true)
      ensures notRun <==> ReportsNotRun(old(Abstract()), outcome)
      ensures outcome == Returned ==> !notRun
      ensures outcome == Threw(None) ==> (notRun <==> !old(sent))
    {
      settled := true;
      stage := Ended;
      match outcome
      case Returned => return false;
      case Threw(error) =>
        if error.Some? && result.None? {
          return error.value.delivery.NotSent?;
        }
        if error.Some? && error.value.denied {
          return false;
        }
        return !sent;
    }
  }

  /** A prepared read of one linked resource. */
  class HostRead {
    const call: HostCall
    const callId: nat
    const uri: string
    var stage: ReadStage
    var dispatched: bool

    function Abstract(): LinkedRead
      reads this
    {
      LinkedRead(callId, uri, stage, dispatched)
    }

    constructor (call: HostCall, callId: nat, uri: string)
      ensures Abstract() == LinkedRead(callId, uri, ReadApproving, false) && this.call == call
    {
      this.call, this.callId, this.uri := call, callId, uri;
      stage, dispatched := ReadApproving, false;
    }

    /** `readLinkedResource` after its approval: the read is prepared only if the call is still available. */
    method ApprovalArrives(decision: Decision, closed: bool)
      requires stage.ReadApproving?
      modifies this
      ensures Abstract() ==
              AfterReadApproval(old(Abstract()), decision, old(call.Abstract()), closed, old(call.connection.open))
      ensures stage.Prepared? <==>
              && (decision == AllowOnce || decision == AllowForSession)
              && !old(call.settled) && !closed && old(call.connection.open) && !old(call.aborted)
    {
      if Allows(decision) && !(call.settled || closed || !call.connection.open || call.aborted) {
        stage := Prepared;
      } else {
        stage := ReadRefused;
      }
    }

    /** The read's own `dispatch()`: it throws on a second call, and sends only while the call is available. */
    method DispatchOnce(closed: bool) returns (throws: bool, goesOut: bool)
      requires stage.Prepared?
      modifies this
      ensures Abstract() == old(Abstract()).(dispatched := true)
      ensures throws <==> old(dispatched)
      ensures goesOut <==>
              !old(dispatched) && !old(call.settled) && !closed && old(call.connection.open) && !old(call.aborted)
    {
      if dispatched {
        return true, false;
      }
      dispatched := true;
      return false, !(call.settled || closed || !call.connection.open || call.aborted);
    }
  }
}
