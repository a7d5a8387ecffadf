/** What the log of a host-managed run says, read from the run's events: `host-managed.ts`. */
module HostCallEvents {
  import opened Wrappers
  import opened Runs
  import opened CatalogRefresh
  import opened HostCallSteps
  import opened HostCallRuns

  // ----- What an entry must follow from -----

  /** The broker answered that the call may go on. */
  predicate Approves(e: Event, c: nat) {
    e == CallMoves(c, ApprovalAnswered(AllowOnce)) || e == CallMoves(c, ApprovalAnswered(AllowForSession))
  }

  predicate ApprovesRead(e: Event, r: nat) {
    e == ReadMoves(r, ReadApprovalAnswered(AllowOnce)) || e == ReadMoves(r, ReadApprovalAnswered(AllowForSession))
  }

  /** The call is not aborted, and its connection and the adapter are open. */
  predicate Free(w: World, c: nat) {
    c in w.calls && !w.calls[c].aborted && w.calls[c].conn in w.servers && w.servers[w.calls[c].conn].c.open && !w.closed
  }

  /** Event `j` approves the call begun with this connection, tool and arguments, at a time when it is free to go on. */
  predicate ApprovedAt(worlds: seq<World>, events: seq<Event>, j: nat, c: nat, k: nat, tool: CatalogTool, args: string)
    requires j < |events| && j < |worlds|
  {
    Approves(events[j], c) && CallBegins(c, k, tool, args) in events[..j] && Free(worlds[j], c)
  }

  /** An event before `n`, and before the `p`th entry of the log, approves the call. */
  predicate Approved(worlds: seq<World>, events: seq<Event>, n: nat, p: nat, c: nat, k: nat, tool: CatalogTool, args: string)
    requires n <= |events| && n <= |worlds|
  {
    exists j :: 0 <= j < n && |worlds[j].log| <= p && ApprovedAt(worlds, events, j, c, k, tool, args)
  }

  predicate ReadApprovedAt(worlds: seq<World>, events: seq<Event>, j: nat, r: nat, c: nat, uri: string)
    requires j < |events| && j < |worlds|
  {
    && ApprovesRead(events[j], r) && HostLinks(c, r, uri) in events[..j]
    && Free(worlds[j], c) && !worlds[j].calls[c].settled
  }

  predicate ReadApproved(worlds: seq<World>, events: seq<Event>, n: nat, p: nat, r: nat, c: nat, uri: string)
    requires n <= |events| && n <= |worlds|
  {
    exists j :: 0 <= j < n && |worlds[j].log| <= p && ReadApprovedAt(worlds, events, j, r, c, uri)
  }

  /** Event `a` brings the call's response: these links, valid if the tool has an output schema. */
  predicate AnsweredAt(worlds: seq<World>, events: seq<Event>, a: nat, c: nat, links: seq<string>)
    requires a < |events| && a < |worlds|
  {
    && events[a].CallMoves? && events[a].call == c && events[a].c.ResponseArrives?
    && events[a].c.result.links == links
    && c in worlds[a].calls
    && (worlds[a].calls[c].tool.checked ==> events[a].c.result.isError || events[a].c.result.validates)
  }

  predicate Answered(worlds: seq<World>, events: seq<Event>, n: nat, c: nat, links: seq<string>)
    requires n <= |events| && n <= |worlds|
  {
    exists a :: 0 <= a < n && AnsweredAt(worlds, events, a, c, links)
  }

  /** What the `p`th entry of the log follows from. */
  predicate Explained(worlds: seq<World>, events: seq<Event>, n: nat, p: nat, e: Entry)
    requires n <= |events| && n <= |worlds|
  {
    match e
    case OfCall(c, Sent(k, tool, args)) => Approved(worlds, events, n, p, c, k, tool, args)
    case OfCall(c, Validated(links)) => Answered(worlds, events, n, c, links)
    case OfRead(r, ReadSent(c, k, uri)) => ReadApproved(worlds, events, n, p, r, c, uri)
    case _ => true
  }

  // ----- The invariant along a run -----

  predicate CallPast(worlds: seq<World>, events: seq<Event>, n: nat, p: nat, c: nat, call: Call)
    requires n <= |events| && n <= |worlds|
  {
    && CallBegins(c, call.conn, call.tool, call.args) in events[..n]
    && (call.stage.Waiting? || call.stage.Checked? || call.prepared ==>
          Approved(worlds, events, n, p, c, call.conn, call.tool, call.args))
    && (call.result.Some? ==> Answered(worlds, events, n, c, call.result.value.links))
  }

  predicate ReadPast(worlds: seq<World>, events: seq<Event>, n: nat, p: nat, r: nat, read: LinkedRead)
    requires n <= |events| && n <= |worlds|
  {
    && HostLinks(read.call, r, read.uri) in events[..n]
    && (read.stage.Prepared? ==> ReadApproved(worlds, events, n, p, r, read.call, read.uri))
  }

  predicate CallsPast(worlds: seq<World>, events: seq<Event>, n: nat)
    requires n <= |events| && n < |worlds|
  {
    forall c :: c in worlds[n].calls ==> CallPast(worlds, events, n, |worlds[n].log|, c, worlds[n].calls[c])
  }

  predicate ReadsPast(worlds: seq<World>, events: seq<Event>, n: nat)
    requires n <= |events| && n < |worlds|
  {
    forall r :: r in worlds[n].links ==> ReadPast(worlds, events, n, |worlds[n].log|, r, worlds[n].links[r])
  }

  predicate LogPast(worlds: seq<World>, events: seq<Event>, n: nat)
    requires n <= |events| && n < |worlds|
  {
    forall p :: 0 <= p < |worlds[n].log| ==> Explained(worlds, events, n, p, worlds[n].log[p])
  }

  predicate PastInv(worlds: seq<World>, events: seq<Event>, n: nat) {
    && n <= |events| && n < |worlds|
    && CallsPast(worlds, events, n) && ReadsPast(worlds, events, n) && LogPast(worlds, events, n)
  }

  lemma EarlierEvents(events: seq<Event>, n: nat, m: nat, e: Event)
    requires n <= m <= |events| && e in events[..n]
    ensures e in events[..m]
  {
    assert events[..n] == events[..m][..n];
  }

  lemma CallLater(worlds: seq<World>, events: seq<Event>, n: nat, p: nat, p': nat, c: nat, call: Call)
    requires n < |events| && n < |worlds| && p <= p' && CallPast(worlds, events, n, p, c, call)
    ensures CallPast(worlds, events, n + 1, p', c, call)
  {
    EarlierEvents(events, n, n + 1, CallBegins(c, call.conn, call.tool, call.args));
  }

  lemma ReadLater(worlds: seq<World>, events: seq<Event>, n: nat, p: nat, p': nat, r: nat, read: LinkedRead)
    requires n < |events| && n < |worlds| && p <= p' && ReadPast(worlds, events, n, p, r, read)
    ensures ReadPast(worlds, events, n + 1, p', r, read)
  {
    EarlierEvents(events, n, n + 1, HostLinks(read.call, r, read.uri));
  }

  lemma ExplainedLater(worlds: seq<World>, events: seq<Event>, n: nat, p: nat, e: Entry)
    requires n < |events| && n < |worlds| && Explained(worlds, events, n, p, e)
    ensures Explained(worlds, events, n + 1, p, e)
  {
  }

  /** A call's own step. */
  lemma CallMovesPast(worlds: seq<World>, events: seq<Event>, n: nat, p: nat, p': nat, c: nat, call: Call, e: CallEvent,
                      closed: bool, conn: Connection)
    requires n < |events| && n < |worlds| && p <= p' && events[n] == CallMoves(c, e) && CallMay(call, e)
    requires |worlds[n].log| == p && HasCall(worlds[n], c) && worlds[n].calls[c] == call
    requires closed == worlds[n].closed && conn == Connected(worlds[n], c)
    requires CallPast(worlds, events, n, p, c, call)
    ensures CallPast(worlds, events, n + 1, p', c, StepCall(call, e, closed, conn))
  {
    CallLater(worlds, events, n, p, p', c, call);
    var call' := StepCall(call, e, closed, conn);
    match e
    case ApprovalAnswered(decision) =>
      if !call'.stage.Ended? {
        assert ApprovedAt(worlds, events, n, c, call.conn, call.tool, call.args);
      }
    case ResponseArrives(result) =>
      if call'.result != call.result {
        assert AnsweredAt(worlds, events, n, c, result.links);
      }
    case _ =>
  }

  lemma CallEntriesExplained(worlds: seq<World>, events: seq<Event>, n: nat, p: nat, p': nat, c: nat, call: Call, e: CallEvent,
                             closed: bool, conn: Connection, i: nat)
    requires n < |events| && n < |worlds| && p <= p' && CallMay(call, e)
    requires CallPast(worlds, events, n, p, c, call)
    requires call.sending.SendChecked? ==> call.prepared
    requires call.sending.Requested? ==> call.result.None?
    requires CallPast(worlds, events, n + 1, p', c, StepCall(call, e, closed, conn))
    requires i < |CallEntries(c, call, StepCall(call, e, closed, conn), e)|
    ensures Explained(worlds, events, n + 1, p', CallEntries(c, call, StepCall(call, e, closed, conn), e)[i])
  {
    CallLater(worlds, events, n, p, p', c, call);
  }

  /** One event of a run. */
  ghost predicate StepsFrom(worlds: seq<World>, events: seq<Event>, n: nat) {
    n < |events| && n + 1 < |worlds| && Next(worlds[n], events[n], worlds[n + 1])
  }

  /** An event that moves no call keeps what is known of each. */
  lemma OtherCallPast(worlds: seq<World>, events: seq<Event>, n: nat, c: nat)
    requires n < |events| && n + 1 < |worlds| && CallsPast(worlds, events, n)
    requires c in worlds[n].calls && |worlds[n].log| <= |worlds[n + 1].log|
    ensures CallPast(worlds, events, n + 1, |worlds[n + 1].log|, c, worlds[n].calls[c])
  {
    CallLater(worlds, events, n, |worlds[n].log|, |worlds[n + 1].log|, c, worlds[n].calls[c]);
  }

  lemma CallsPastStep(worlds: seq<World>, events: seq<Event>, n: nat, c: nat)
    requires StepsFrom(worlds, events, n) && CallsPast(worlds, events, n) && c in worlds[n + 1].calls
    ensures CallPast(worlds, events, n + 1, |worlds[n + 1].log|, c, worlds[n + 1].calls[c])
  {
    var w, e := worlds[n], events[n];
    StepGrows(w, e);
    match e
    case CallMoves(c', ce) =>
      if c' == c {
        CallMovesPast(worlds, events, n, |w.log|, |worlds[n + 1].log|, c, w.calls[c], ce, w.closed, Connected(w, c));
      } else {
        OtherCallPast(worlds, events, n, c);
      }
    case CallBegins(c', k, tool, args) =>
      if c' == c {
        assert events[..n + 1][n] == e;
      } else {
        OtherCallPast(worlds, events, n, c);
      }
    case _ => OtherCallPast(worlds, events, n, c);
  }

  lemma OtherReadPast(worlds: seq<World>, events: seq<Event>, n: nat, r: nat)
    requires n < |events| && n + 1 < |worlds| && ReadsPast(worlds, events, n)
    requires r in worlds[n].links && |worlds[n].log| <= |worlds[n + 1].log|
    ensures ReadPast(worlds, events, n + 1, |worlds[n + 1].log|, r, worlds[n].links[r])
  {
    ReadLater(worlds, events, n, |worlds[n].log|, |worlds[n + 1].log|, r, worlds[n].links[r]);
  }

  /** A read's own step. */
  lemma ReadMovesPast(worlds: seq<World>, events: seq<Event>, n: nat, p': nat, r: nat, read': LinkedRead)
    requires n < |events| && n < |worlds| && |worlds[n].log| <= p' && events[n].ReadMoves? && events[n].read == r
    requires r in worlds[n].links && HasCall(worlds[n], worlds[n].links[r].call)
    requires ReadPast(worlds, events, n, |worlds[n].log|, r, worlds[n].links[r])
    requires var w, read := worlds[n], worlds[n].links[r];
      match events[n].r
      case ReadApprovalAnswered(decision) =>
        read' == AfterReadApproval(read, decision, w.calls[read.call], w.closed, Connected(w, read.call).open)
      case HostReads => read' == read.(dispatched := read'.dispatched)
    ensures ReadPast(worlds, events, n + 1, p', r, read')
  {
    var read := worlds[n].links[r];
    ReadLater(worlds, events, n, |worlds[n].log|, p', r, read);
    if events[n].r.ReadApprovalAnswered? && read'.stage.Prepared? {
      assert ReadApprovedAt(worlds, events, n, r, read.call, read.uri);
    }
  }

  lemma ReadsPastStep(worlds: seq<World>, events: seq<Event>, n: nat, r: nat)
    requires StepsFrom(worlds, events, n) && ReadsPast(worlds, events, n) && r in worlds[n + 1].links
    ensures ReadPast(worlds, events, n + 1, |worlds[n + 1].log|, r, worlds[n + 1].links[r])
  {
    var w, e := worlds[n], events[n];
    StepGrows(w, e);
    if r in w.links && worlds[n + 1].links[r] == w.links[r] {
      OtherReadPast(worlds, events, n, r);
    } else if e.HostLinks? {
      assert events[..n + 1][n] == e;
    } else {
      ReadMovesPast(worlds, events, n, |worlds[n + 1].log|, r, worlds[n + 1].links[r]);
    }
  }

  lemma NewCallEntry(worlds: seq<World>, events: seq<Event>, n: nat, p: nat)
    requires StepsFrom(worlds, events, n) && CallsPast(worlds, events, n) && |worlds[n].log| <= p < |worlds[n + 1].log|
    requires events[n].CallMoves? && CallInv(worlds[n].log, events[n].call, worlds[n].calls[events[n].call])
    ensures Explained(worlds, events, n + 1, p, worlds[n + 1].log[p])
  {
    var w, c, e := worlds[n], events[n].call, events[n].c;
    CallMovesPast(worlds, events, n, |w.log|, p, c, w.calls[c], e, w.closed, Connected(w, c));
    CallEntriesExplained(worlds, events, n, |w.log|, p, c, w.calls[c], e, w.closed, Connected(w, c), p - |w.log|);
  }

  lemma NewReadEntry(worlds: seq<World>, events: seq<Event>, n: nat, p: nat)
    requires StepsFrom(worlds, events, n) && ReadsPast(worlds, events, n) && |worlds[n].log| <= p < |worlds[n + 1].log|
    requires events[n].ReadMoves?
    ensures Explained(worlds, events, n + 1, p, worlds[n + 1].log[p])
  {
    ReadLater(worlds, events, n, |worlds[n].log|, p, events[n].read, worlds[n].links[events[n].read]);
  }

  /** No other event logs a send, a read or a validated result. */
  lemma NewOtherEntry(w: World, e: Event, p: nat)
    requires Enabled(w, e) && !e.CallMoves? && !e.ReadMoves? && |w.log| <= p < |Step(w, e).log|
    ensures var entry := Step(w, e).log[p];
      !entry.OfRead? && (entry.OfCall? ==> entry.c.Settled?)
  {
    if e.ServerMoves? {
      ServerStaysSelected(e.conn, w.servers[e.conn], e.s);
    }
  }

  /** The entries that one event logs. */
  lemma NewEntryExplained(worlds: seq<World>, events: seq<Event>, n: nat, p: nat)
    requires StepsFrom(worlds, events, n) && CallsPast(worlds, events, n) && ReadsPast(worlds, events, n)
    requires |worlds[n].log| <= p < |worlds[n + 1].log| && CallsInv(worlds[n].log, worlds[n].calls)
    ensures Explained(worlds, events, n + 1, p, worlds[n + 1].log[p])
  {
    if events[n].CallMoves? {
      NewCallEntry(worlds, events, n, p);
    } else if events[n].ReadMoves? {
      NewReadEntry(worlds, events, n, p);
    } else {
      NewOtherEntry(worlds[n], events[n], p);
    }
  }

  lemma LogPastStep(worlds: seq<World>, events: seq<Event>, n: nat, p: nat)
    requires StepsFrom(worlds, events, n) && PastInv(worlds, events, n) && CallsInv(worlds[n].log, worlds[n].calls)
    requires p < |worlds[n + 1].log|
    ensures Explained(worlds, events, n + 1, p, worlds[n + 1].log[p])
  {
    StepGrows(worlds[n], events[n]);
    if p < |worlds[n].log| {
      ExplainedLater(worlds, events, n, p, worlds[n].log[p]);
    } else {
      NewEntryExplained(worlds, events, n, p);
    }
  }

  lemma PastStep(worlds: seq<World>, events: seq<Event>, n: nat)
    requires StepsFrom(worlds, events, n) && PastInv(worlds, events, n) && CallsInv(worlds[n].log, worlds[n].calls)
    ensures PastInv(worlds, events, n + 1)
  {
    var next, w' := n + 1, worlds[n + 1];
    var length := |w'.log|;
    forall c | c in w'.calls
      ensures CallPast(worlds, events, next, length, c, w'.calls[c])
    {
      CallsPastStep(worlds, events, n, c);
    }
    forall r | r in w'.links
      ensures ReadPast(worlds, events, next, length, r, w'.links[r])
    {
      ReadsPastStep(worlds, events, n, r);
    }
    forall p | 0 <= p < length
      ensures Explained(worlds, events, next, p, w'.log[p])
    {
      LogPastStep(worlds, events, n, p);
    }
  }

  lemma PastHolds(worlds: seq<World>, events: seq<Event>, i: nat)
    requires IsRun(worlds, events) && i < |worlds|
    ensures PastInv(worlds, events, i)
  {
    var holds: nat -> bool := (n: nat) => PastInv(worlds, events, n);
    forall n: nat | n < |events| && holds(n)
      ensures holds(n + 1)
    {
      RunsKeepInv(worlds, events, n);
      PastStep(worlds, events, n);
    }
    HoldsAlong(holds, |events|, i);
  }

  // ----- What follows for every run -----

  /**
   * A `tools/call` goes out only for a call that the host began with just this connection, tool and arguments,
   * and only after the broker answered `allow_once` or `allow_for_session` while that call was free to go on.
   */
  lemma SendsFollowApproval(worlds: seq<World>, events: seq<Event>, i: nat, p: nat)
    requires IsRun(worlds, events) && i < |worlds| && p < |worlds[i].log|
    requires worlds[i].log[p].OfCall? && worlds[i].log[p].c.Sent?
    ensures var c, sent := worlds[i].log[p].call, worlds[i].log[p].c;
      Approved(worlds, events, i, p, c, sent.conn, sent.tool, sent.args)
  {
    PastHolds(worlds, events, i);
  }

  /** The host is asked about a call only after such an approval. */
  lemma HostFollowsApproval(worlds: seq<World>, events: seq<Event>, i: nat, c: nat)
    requires IsRun(worlds, events) && i < |worlds| && c in worlds[i].calls && worlds[i].calls[c].prepared
    ensures var call := worlds[i].calls[c];
      Approved(worlds, events, i, |worlds[i].log|, c, call.conn, call.tool, call.args)
  {
    PastHolds(worlds, events, i);
  }

  /**
   * A `resources/read` goes out only for a link that the host asked for, after the broker allowed that very
   * read; and the link is in a response to its call, a valid one if the tool has an output schema.
   */
  lemma ReadsFollowApproval(worlds: seq<World>, events: seq<Event>, i: nat, p: nat)
    requires IsRun(worlds, events) && i < |worlds| && p < |worlds[i].log|
    requires worlds[i].log[p].OfRead? && worlds[i].log[p].r.ReadSent?
    ensures var r, sent := worlds[i].log[p].read, worlds[i].log[p].r;
      && ReadApproved(worlds, events, i, p, r, sent.call, sent.uri)
      && exists links :: sent.uri in links && Answered(worlds, events, i, sent.call, links)
  {
    PastHolds(worlds, events, i);
    ReadsAreSafe(worlds, events, i, p);
    var log, c, uri := worlds[i].log, worlds[i].log[p].r.call, worlds[i].log[p].r.uri;
    var v :| 0 <= v < p && Offers(log[..p][v], c, uri);
    assert Explained(worlds, events, i, v, log[v]);
  }

  /** A result counts as validated only if the server answered so, with a result that validates or is an error. */
  lemma ValidatedWasAnswered(worlds: seq<World>, events: seq<Event>, i: nat, p: nat)
    requires IsRun(worlds, events) && i < |worlds| && p < |worlds[i].log|
    requires worlds[i].log[p].OfCall? && worlds[i].log[p].c.Validated?
    ensures Answered(worlds, events, i, worlds[i].log[p].call, worlds[i].log[p].c.links)
  {
    PastHolds(worlds, events, i);
  }

  // ----- What is logged, and who is retired -----

  /** How the failure of a request is classified. */
  predicate ClassifiedAs(cause: Cause, delivery: Delivery) {
    match cause
    case HostCause(error) => delivery == error.delivery
    case JsonRpcError => delivery.ServerError?
    case InvalidAnswer => delivery.InvalidResult?
    case NotConnected => delivery.NotSent?
    case OtherCause => delivery.MayHaveRun?
  }

  predicate SettledAs(e: Entry, c: nat, outcome: Outcome) {
    IsSettled(e, c) && e.c.ending == Host(outcome)
  }

  predicate ListedAsDone(e: Entry, k: nat, listing: Listing) {
    IsDone(e, k) && e.s.listing == listing
  }

  /** What the event must have put into the log. */
  predicate Logged(w: World, e: Event, added: seq<Entry>) {
    match e
    case ServerMoves(k, ListChanged) => exists i :: 0 <= i < |added| && IsNotified(added[i], k)
    case ServerMoves(k, ListAnswered(_, listing)) => exists i :: 0 <= i < |added| && ListedAsDone(added[i], k, listing)
    case ServerMoves(k, ConnectionCloses) => OfServer(k, ConnectionClosed) in added
    case AdapterCloses => AdapterClosed in added
    case CallMoves(c, CallAborts) => OfCall(c, Aborted) in added
    case CallMoves(c, HostSettles(outcome)) => exists i :: 0 <= i < |added| && SettledAs(added[i], c, outcome)
    case CallMoves(c, HostDispatches) => c in w.calls && (w.calls[c].dispatched || OfCall(c, DispatchBegun) in added)
    case CallMoves(c, RequestFails(cause)) =>
      exists i :: 0 <= i < |added| && IsRejected(added[i], c) && ClassifiedAs(cause, added[i].c.delivery)
    case CallMoves(c, SendContinues) =>
      && c in w.calls
      && added == if Free(w, c) && !w.calls[c].settled && w.calls[c].sending == SendChecked(false)
                then [OfCall(c, Sent(w.calls[c].conn, w.calls[c].tool, w.calls[c].args))]
                else [OfCall(c, CallEntry.Rejected(NotSent))]
    case _ => true
  }

  lemma CallStepLogs(w: World, c: nat, e: CallEvent)
    requires HasCall(w, c) && CallMay(w.calls[c], e)
    ensures Logged(w, CallMoves(c, e), CallEntries(c, w.calls[c], StepCall(w.calls[c], e, w.closed, Connected(w, c)), e))
  {
    var entries := CallEntries(c, w.calls[c], StepCall(w.calls[c], e, w.closed, Connected(w, c)), e);
    match e
    case HostSettles(outcome) => assert SettledAs(entries[0], c, outcome);
    case RequestFails(cause) => assert IsRejected(entries[0], c);
    case _ =>
  }

  lemma ServerStepLogs(w: World, k: nat, e: ServerEvent)
    requires k in w.servers && ServerMay(w.servers[k], e)
    ensures Logged(w, ServerMoves(k, e), ServerEntries(k, w.servers[k], e))
  {
    var entries := ServerEntries(k, w.servers[k], e);
    match e
    case ListChanged => assert IsNotified(entries[0], k);
    case ListAnswered(_, listing) => assert ListedAsDone(entries[0], k, listing);
    case _ =>
  }

  /**
   * The log leaves nothing out: notifications, answered re-lists, closings, aborts, ends, dispatches and failures
   * are all in it, and a checked send goes out exactly when nothing stands against it.
   */
  lemma EventsAreLogged(worlds: seq<World>, events: seq<Event>, i: nat)
    requires IsRun(worlds, events) && i < |events|
    ensures exists added :: worlds[i + 1].log == worlds[i].log + added && Logged(worlds[i], events[i], added)
  {
    var w, e := worlds[i], events[i];
    assert Next(w, e, worlds[i + 1]);
    if e.CallMoves? {
      CallStepLogs(w, e.call, e.c);
      var call := w.calls[e.call];
      assert worlds[i + 1].log == w.log + CallEntries(e.call, call, StepCall(call, e.c, w.closed, Connected(w, e.call)), e.c);
    } else if e.ServerMoves? {
      ServerStepLogs(w, e.conn, e.s);
      assert worlds[i + 1].log == w.log + ServerEntries(e.conn, w.servers[e.conn], e.s);
    } else {
      StepGrows(w, e);
      var added := worlds[i + 1].log[|w.log|..];
      assert worlds[i + 1].log == w.log + added;
      assert e.AdapterCloses? ==> added == [AdapterClosed];
    }
  }

  /** An answered re-list of the connection did not show a tool of this name as it was frozen. */
  predicate RetiredBefore(log: seq<Entry>, k: nat, tools: seq<CatalogTool>, name: string) {
    exists p, t :: 0 <= p < |log| && 0 <= t < |tools| && RetiredAt(log[p], k, tools[t], name)
  }

  predicate RetiredAt(e: Entry, k: nat, tool: CatalogTool, name: string) {
    IsDone(e, k) && tool.name == name && !ShowsUnchanged(e.s.listing, tool)
  }

  predicate OnlyRetired(log: seq<Entry>, k: nat, c: Connection) {
    && (c.selected.None? ==> c.retired == {})
    && forall name :: name in c.retired && c.selected.Some? ==> RetiredBefore(log, k, c.selected.value, name)
  }

  ghost predicate OnlyRetiredIn(w: World) {
    forall k :: k in w.servers ==> OnlyRetired(w.log, k, w.servers[k].c)
  }

  lemma OnlyRetiredLater(log: seq<Entry>, es: seq<Entry>, k: nat, c: Connection)
    requires OnlyRetired(log, k, c)
    ensures OnlyRetired(log + es, k, c)
  {
    forall name | name in c.retired && c.selected.Some?
      ensures RetiredBefore(log + es, k, c.selected.value, name)
    {
      var p, t :| 0 <= p < |log| && 0 <= t < |c.selected.value| && RetiredAt(log[p], k, c.selected.value[t], name);
      assert RetiredAt((log + es)[p], k, c.selected.value[t], name);
    }
  }

  lemma RetiresOnly(log: seq<Entry>, k: nat, s: Server, e: ServerEvent)
    requires ServerMay(s, e) && OnlyRetired(log, k, s.c)
    ensures OnlyRetired(log + ServerEntries(k, s, e), k, StepServer(s, e).c)
  {
    var es := ServerEntries(k, s, e);
    OnlyRetiredLater(log, es, k, s.c);
    if e.ListAnswered? {
      var tools := s.c.selected.value;
      assert (log + es)[|log|] == OfServer(k, ListDone(s.asked[e.index], e.listing));
      forall name | name in RetiredBy(e.listing, tools)
        ensures RetiredBefore(log + es, k, tools, name)
      {
        var t :| 0 <= t < |tools| && Retires(e.listing, tools[t]) && tools[t].name == name;
        RetiresExactly(e.listing, tools[t]);
        assert RetiredAt((log + es)[|log|], k, tools[t], name);
      }
    }
  }

  lemma ServerStepRetiresOnly(w: World, k: nat, e: ServerEvent)
    requires OnlyRetiredIn(w) && k in w.servers && ServerMay(w.servers[k], e)
    ensures OnlyRetiredIn(ServerStep(w, k, e))
  {
    var w' := ServerStep(w, k, e);
    forall k' | k' in w'.servers
      ensures OnlyRetired(w'.log, k', w'.servers[k'].c)
    {
      if k' == k {
        RetiresOnly(w.log, k, w.servers[k], e);
      } else {
        OnlyRetiredLater(w.log, ServerEntries(k, w.servers[k], e), k', w.servers[k'].c);
      }
    }
  }

  lemma OtherStepRetiresOnly(w: World, w': World)
    requires OnlyRetiredIn(w) && w'.servers == w.servers && w.log <= w'.log
    ensures OnlyRetiredIn(w')
  {
    forall k | k in w'.servers
      ensures OnlyRetired(w'.log, k, w'.servers[k].c)
    {
      OnlyRetiredLater(w.log, w'.log[|w.log|..], k, w.servers[k].c);
      assert w.log + w'.log[|w.log|..] == w'.log;
    }
  }

  lemma StepRetiresOnly(w: World, e: Event)
    requires OnlyRetiredIn(w) && Enabled(w, e)
    ensures OnlyRetiredIn(Step(w, e))
  {
    if e.ServerMoves? {
      ServerStepRetiresOnly(w, e.conn, e.s);
    } else {
      StepGrows(w, e);
      OtherStepRetiresOnly(w, Step(w, e));
    }
  }

  lemma OnlyRetiredHolds(worlds: seq<World>, events: seq<Event>, i: nat)
    requires IsRun(worlds, events) && i < |worlds|
    ensures OnlyRetiredIn(worlds[i])
  {
    forall w, e, w' | OnlyRetiredIn(w) && Next(w, e, w')
      ensures OnlyRetiredIn(w')
    {
      StepRetiresOnly(w, e);
    }
    InvariantHolds(Initial, Next, OnlyRetiredIn, worlds, events, i);
  }

  lemma RetiredIsKnown(log: seq<Entry>, k: nat, s: Server, name: string)
    requires ServerInv(log, k, s) && s.c.selected.Some? && RetiredBefore(log, k, s.c.selected.value, name)
    ensures name in s.c.retired
  {
    var p, t :| 0 <= p < |log| && 0 <= t < |s.c.selected.value| && RetiredAt(log[p], k, s.c.selected.value[t], name);
    assert EntryInv(log, k, s, log[p]);
    RetiresExactly(log[p].s.listing, s.c.selected.value[t]);
  }

  /** Over every run, a name is retired exactly when some answered re-list did not show a selected tool of that name unchanged. */
  lemma RetiredExactly(worlds: seq<World>, events: seq<Event>, i: nat, k: nat, name: string)
    requires IsRun(worlds, events) && i < |worlds| && k in worlds[i].servers
    ensures var c := worlds[i].servers[k].c;
      name in c.retired <==> c.selected.Some? && RetiredBefore(worlds[i].log, k, c.selected.value, name)
  {
    OnlyRetiredHolds(worlds, events, i);
    RunsKeepInv(worlds, events, i);
    var s := worlds[i].servers[k];
    assert OnlyRetired(worlds[i].log, k, s.c) && ServerInv(worlds[i].log, k, s);
    if s.c.selected.Some? && RetiredBefore(worlds[i].log, k, s.c.selected.value, name) {
      RetiredIsKnown(worlds[i].log, k, s, name);
    }
  }
}
