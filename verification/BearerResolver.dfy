/** One shared, refreshed token command: the states and steps of `BearerCommandResolver`. */
module BearerSteps {
  import opened Wrappers
  import opened Runs

  datatype Outcome = Token(token: string) | Error(error: string)

  /**
   * How far a command's promise has got: running, settled with its handlers still to run, recorded by
   * its handlers with the promise's own outcome, or settled for its waiters.
   */
  datatype Phase = Running | Returned(outcome: Outcome) | Recorded(result: Outcome) | Settled(result: Outcome)

  datatype Command = Command(waiters: int, aborted: bool, phase: Phase)

  datatype Verdict = OwnSignal | ByCommand(result: Outcome)

  datatype WaitPhase = Waiting | Decided(verdict: Verdict) | Left(verdict: Verdict)

  /** A caller waiting on a command. `cachedBefore` records whether a token was cached when the call began. */
  datatype Wait = Wait(command: nat, cachedBefore: bool, phase: WaitPhase)

  datatype Cached = Cached(token: string, expiresAt: int)

  datatype Outage = Outage(error: string, retryAt: int)

  datatype State = State(ttl: int, cached: Option<Cached>, failure: Option<Outage>, inflight: Option<nat>,
                         commands: seq<Command>, waits: seq<Wait>)

  /** What `resolve` gives its caller: at once, or through a wait. */
  datatype Answer = RejectedBySignal | Now(outcome: Outcome) | Joined(wait: nat)

  predicate FreshToken(s: State, now: int) {
    s.cached.Some? && now < s.cached.value.expiresAt
  }

  predicate FailureWindow(s: State, now: int) {
    s.failure.Some? && now < s.failure.value.retryAt
  }

  /** A command already in flight is joined; otherwise a new one is started with its first waiter. */
  function Join(s: State): State {
    var wait := Wait(if s.inflight.Some? then s.inflight.value else |s.commands|, s.cached.Some?, Waiting);
    if s.inflight.Some? && s.inflight.value < |s.commands| then
      var c := s.commands[s.inflight.value];
      s.(commands := s.commands[s.inflight.value := c.(waiters := c.waiters + 1)], waits := s.waits + [wait])
    else
      s.(inflight := Some(|s.commands|), commands := s.commands + [Command(1, false, Running)],
         waits := s.waits + [wait.(command := |s.commands|)])
  }

  function Resolve(s: State, aborted: bool, now: int): (State, Answer) {
    if aborted then (s, RejectedBySignal)
    else if FreshToken(s, now) then (s, Now(Token(s.cached.value.token)))
    else if FailureWindow(s, now) then
      (s, Now(if s.cached.Some? then Token(s.cached.value.token) else Error(s.failure.value.error)))
    else (Join(s), Joined(|s.waits|))
  }

  function Return(s: State, id: nat, outcome: Outcome): State
    requires id < |s.commands|
  {
    s.(commands := s.commands[id := s.commands[id].(phase := Returned(outcome))])
  }

  /** The handlers of a returned command: cache a token, or open a failure window unless the command was cancelled. */
  function Record(s: State, id: nat, now: int): State
    requires id < |s.commands| && s.commands[id].phase.Returned?
  {
    var c := s.commands[id];
    match c.phase.outcome
    case Token(token) =>
      s.(cached := Some(Cached(token, now + s.ttl)), failure := None,
         commands := s.commands[id := c.(phase := Recorded(c.phase.outcome))])
    case Error(error) =>
      s.(failure := if c.aborted then s.failure else Some(Outage(error, now + s.ttl)),
         commands := s.commands[id := c.(phase := Recorded(
           if s.cached.Some? then Token(s.cached.value.token) else c.phase.outcome))])
  }

  /** The last handler: a command clears the in-flight slot only while it is the one in it. */
  function Settle(s: State, id: nat): State
    requires id < |s.commands| && s.commands[id].phase.Recorded?
  {
    var c := s.commands[id];
    s.(inflight := if s.inflight == Some(id) then None else s.inflight,
       commands := s.commands[id := c.(phase := Settled(c.phase.result))])
  }

  function Decide(s: State, w: nat, verdict: Verdict): State
    requires w < |s.waits|
  {
    s.(waits := s.waits[w := s.waits[w].(phase := Decided(verdict))])
  }

  /** A waiter goes; the last to leave the command in flight cancels it. */
  function Leave(s: State, w: nat): State
    requires w < |s.waits| && s.waits[w].phase.Decided? && s.waits[w].command < |s.commands|
  {
    var id := s.waits[w].command;
    var c := s.commands[id];
    var last := s.inflight == Some(id) && c.waiters - 1 == 0;
    s.(inflight := if last then None else s.inflight,
       commands := s.commands[id := c.(waiters := c.waiters - 1, aborted := c.aborted || last)],
       waits := s.waits[w := s.waits[w].(phase := Left(s.waits[w].phase.verdict))])
  }

  // ----- Runs -----

  datatype Event =
    | Call(signalAborted: bool)
    | CommandReturns(id: nat, outcome: Outcome)
    | HandlersRun(id: nat)
    | PromiseSettles(id: nat)
    | WaitDecided(wait: nat)
    | SignalAborts(wait: nat)
    | WaitLeaves(wait: nat)
    | TimePasses(ms: nat)

  datatype World = World(s: State, now: int)

  /** No promise handler is due, so the event loop is free to let time pass. */
  predicate Idle(s: State) {
    && (forall i :: 0 <= i < |s.commands| ==> !s.commands[i].phase.Returned? && !s.commands[i].phase.Recorded?)
    && (forall w :: 0 <= w < |s.waits| ==> !s.waits[w].phase.Decided?)
  }

  predicate Enabled(w: World, e: Event) {
    match e
    case Call(_) => true
    case CommandReturns(id, _) => id < |w.s.commands| && w.s.commands[id].phase.Running?
    case HandlersRun(id) => id < |w.s.commands| && w.s.commands[id].phase.Returned?
    case PromiseSettles(id) => id < |w.s.commands| && w.s.commands[id].phase.Recorded?
    case WaitDecided(i) =>
      i < |w.s.waits| && w.s.waits[i].phase.Waiting? && w.s.waits[i].command < |w.s.commands| &&
      w.s.commands[w.s.waits[i].command].phase.Settled?
    case SignalAborts(i) => i < |w.s.waits| && w.s.waits[i].phase.Waiting?
    case WaitLeaves(i) => i < |w.s.waits| && w.s.waits[i].phase.Decided? && w.s.waits[i].command < |w.s.commands|
    case TimePasses(_) => Idle(w.s)
  }

  function Step(w: World, e: Event): World
    requires Enabled(w, e)
  {
    match e
    case Call(aborted) => w.(s := Resolve(w.s, aborted, w.now).0)
    case CommandReturns(id, outcome) => w.(s := Return(w.s, id, outcome))
    case HandlersRun(id) => w.(s := Record(w.s, id, w.now))
    case PromiseSettles(id) => w.(s := Settle(w.s, id))
    case WaitDecided(i) => w.(s := Decide(w.s, i, ByCommand(w.s.commands[w.s.waits[i].command].phase.result)))
    case SignalAborts(i) => w.(s := Decide(w.s, i, OwnSignal))
    case WaitLeaves(i) => w.(s := Leave(w.s, i))
    case TimePasses(ms) => w.(now := w.now + ms)
  }

  /** 1 for a wait on `id` that has not left it. */
  function Open(wait: Wait, id: nat): nat {
    if wait.command == id && !wait.phase.Left? then 1 else 0
  }

  /** The number of waits on a command that have not left it. */
  function OpenWaits(waits: seq<Wait>, id: nat): nat {
    if waits == [] then 0 else OpenWaits(waits[..|waits| - 1], id) + Open(waits[|waits| - 1], id)
  }

  lemma {:induction false} OpenUpdate(waits: seq<Wait>, w: nat, wait: Wait, id: nat)
    requires w < |waits|
    ensures OpenWaits(waits[w := wait], id) == OpenWaits(waits, id) - Open(waits[w], id) + Open(wait, id)
  {
    var n := |waits| - 1;
    if w < n {
      OpenUpdate(waits[..n], w, wait, id);
      assert waits[w := wait][..n] == waits[..n][w := wait];
    } else {
      assert waits[w := wait][..n] == waits[..n];
    }
  }

  lemma OpenAppend(waits: seq<Wait>, wait: Wait, id: nat)
    ensures OpenWaits(waits + [wait], id) == OpenWaits(waits, id) + Open(wait, id)
  {
    assert (waits + [wait])[..|waits|] == waits;
  }

  lemma {:induction false} OpenIsCounted(waits: seq<Wait>, w: nat, id: nat)
    requires w < |waits| && Open(waits[w], id) == 1
    ensures OpenWaits(waits, id) > 0
  {
    if w < |waits| - 1 {
      OpenIsCounted(waits[..|waits| - 1], w, id);
    }
  }

  /** Nobody can wait on a command that does not exist yet. */
  lemma {:induction false} NoneOpen(waits: seq<Wait>, id: nat)
    requires forall i :: 0 <= i < |waits| ==> waits[i].command < id
    ensures OpenWaits(waits, id) == 0
  {
    if waits != [] {
      NoneOpen(waits[..|waits| - 1], id);
    }
  }

  predicate Current(s: State, id: nat) {
    s.inflight == Some(id)
  }

  predicate CommandInv(w: World, id: nat)
    requires id < |w.s.commands|
  {
    var s, c := w.s, w.s.commands[id];
    && c.waiters == OpenWaits(s.waits, id)
    // A command that is not in flight has settled, or was cancelled with nobody waiting on it.
    && (Current(s, id) ==> !c.aborted && !c.phase.Settled? && c.waiters > 0)
    && (!Current(s, id) && !c.phase.Settled? ==> c.aborted)
    && (c.aborted ==> c.waiters == 0)
    // A command in flight whose outcome is recorded cannot be joined.
    && (Current(s, id) && c.phase.Recorded? ==> FreshToken(s, w.now) || FailureWindow(s, w.now))
  }

  /** A call begun with a token cached can only be answered by its signal or with a token. */
  predicate WaitInv(w: World, i: nat)
    requires i < |w.s.waits|
  {
    var s, wait := w.s, w.s.waits[i];
    && wait.command < |s.commands|
    && var c := s.commands[wait.command];
    && (wait.cachedBefore ==> s.cached.Some?)
    && (wait.cachedBefore && (c.phase.Recorded? || c.phase.Settled?) ==> c.phase.result.Token?)
    && (!wait.phase.Waiting? && wait.phase.verdict.ByCommand? ==> c.phase == Settled(wait.phase.verdict.result))
  }

  predicate Inv(w: World) {
    && w.s.ttl > 0
    && (w.s.inflight.Some? ==> w.s.inflight.value < |w.s.commands|)
    && (forall id :: 0 <= id < |w.s.commands| ==> CommandInv(w, id))
    && (forall i :: 0 <= i < |w.s.waits| ==> WaitInv(w, i))
  }

  lemma CallKeepsInv(w: World, aborted: bool)
    requires Inv(w)
    ensures Inv(Step(w, Call(aborted)))
  {
    var s, w' := w.s, Step(w, Call(aborted));
    if Resolve(s, aborted, w.now).1.Joined? {
      var s' := w'.s;
      var wait := s'.waits[|s.waits|];
      assert s'.waits == s.waits + [wait];
      forall id | 0 <= id < |s'.commands|
        ensures CommandInv(w', id)
      {
        OpenAppend(s.waits, wait, id);
        if id < |s.commands| {
          assert CommandInv(w, id);
        } else {
          forall i | 0 <= i < |s.waits|
            ensures s.waits[i].command < id
          {
            assert WaitInv(w, i);
          }
          NoneOpen(s.waits, id);
        }
      }
      forall i | 0 <= i < |s'.waits|
        ensures WaitInv(w', i)
      {
        if i < |s.waits| {
          assert WaitInv(w, i);
        } else if s.inflight.Some? {
          assert CommandInv(w, s.inflight.value);
        }
      }
    }
  }

  lemma CommandStepKeepsInv(w: World, e: Event)
    requires Inv(w) && Enabled(w, e)
    requires e.CommandReturns? || e.HandlersRun? || e.PromiseSettles? || e.TimePasses?
    ensures Inv(Step(w, e))
  {
    var w' := Step(w, e);
    forall id | 0 <= id < |w'.s.commands|
      ensures CommandInv(w', id)
    {
      assert CommandInv(w, id);
    }
    forall i | 0 <= i < |w'.s.waits|
      ensures WaitInv(w', i)
    {
      assert WaitInv(w, i);
    }
  }

  lemma WaitStepKeepsInv(w: World, e: Event)
    requires Inv(w) && Enabled(w, e)
    requires e.WaitDecided? || e.SignalAborts? || e.WaitLeaves?
    ensures Inv(Step(w, e))
  {
    var w', i := Step(w, e), e.wait;
    assert WaitInv(w, i);
    forall id | 0 <= id < |w'.s.commands|
      ensures CommandInv(w', id)
    {
      assert CommandInv(w, id);
      OpenUpdate(w.s.waits, i, w'.s.waits[i], id);
    }
    forall j | 0 <= j < |w'.s.waits|
      ensures WaitInv(w', j)
    {
      assert WaitInv(w, j);
    }
  }

  lemma StepKeepsInv(w: World, e: Event)
    requires Inv(w) && Enabled(w, e)
    ensures Inv(Step(w, e))
  {
    if e.Call? {
      CallKeepsInv(w, e.signalAborted);
    } else if e.WaitDecided? || e.SignalAborts? || e.WaitLeaves? {
      WaitStepKeepsInv(w, e);
    } else {
      CommandStepKeepsInv(w, e);
    }
  }

  /** One step of a run. */
  ghost predicate Next(w: World, e: Event, w': World) {
    Enabled(w, e) && w' == Step(w, e)
  }

  ghost predicate IsRun(worlds: seq<World>, events: seq<Event>) {
    IsRunOf(Initial, Next, worlds, events)
  }

  predicate Initial(w: World) {
    w.s.ttl > 0 && w.s == State(w.s.ttl, None, None, None, [], [])
  }

  /** Every world of every run keeps the invariant. */
  lemma RunsKeepInv(worlds: seq<World>, events: seq<Event>, i: nat)
    requires IsRun(worlds, events) && i < |worlds|
    ensures Inv(worlds[i])
  {
    forall w, e, w' | Inv(w) && Next(w, e, w')
      ensures Inv(w')
    {
      StepKeepsInv(w, e);
    }
    InvariantHolds(Initial, Next, Inv, worlds, events, i);
  }

  /** In every world of every run a command's count is the number of waits that have not left it. */
  lemma WaitersAreCounted(worlds: seq<World>, events: seq<Event>, i: nat, id: nat)
    requires IsRun(worlds, events) && i < |worlds| && id < |worlds[i].s.commands|
    ensures worlds[i].s.commands[id].waiters == OpenWaits(worlds[i].s.waits, id)
  {
    RunsKeepInv(worlds, events, i);
    assert CommandInv(worlds[i], id);
  }

  /**
   * A command is cancelled exactly when its last waiter leaves before its promise settled, and it stays
   * cancelled.
   */
  lemma OnlyLastWaiterCancels(worlds: seq<World>, events: seq<Event>, i: nat, id: nat)
    requires IsRun(worlds, events) && i < |events| && id < |worlds[i].s.commands|
    ensures id < |worlds[i + 1].s.commands|
    ensures worlds[i + 1].s.commands[id].aborted <==>
            || worlds[i].s.commands[id].aborted
            || (&& events[i].WaitLeaves? && worlds[i].s.waits[events[i].wait].command == id
                && !worlds[i].s.commands[id].phase.Settled? && OpenWaits(worlds[i + 1].s.waits, id) == 0)
  {
    RunsKeepInv(worlds, events, i);
    WaitersAreCounted(worlds, events, i + 1, id);
    assert CommandInv(worlds[i], id);
    assert Next(worlds[i], events[i], worlds[i + 1]);
  }

  /** The in-flight slot is emptied only by its own command: by that command's promise or its last waiter. */
  lemma OnlyOwnerClears(worlds: seq<World>, events: seq<Event>, i: nat)
    requires IsRun(worlds, events) && i < |events|
    requires worlds[i].s.inflight.Some? && worlds[i + 1].s.inflight != worlds[i].s.inflight
    ensures worlds[i + 1].s.inflight.None?
    ensures var id := worlds[i].s.inflight.value;
      || events[i] == PromiseSettles(id)
      || (events[i].WaitLeaves? && worlds[i].s.waits[events[i].wait].command == id)
  {
    RunsKeepInv(worlds, events, i);
  }

  // ----- What a run has done so far, from its events alone -----

  /** The outcome with which command `id` returned before event `i`. */
  function ReturnOf(events: seq<Event>, i: nat, id: nat): Option<Outcome>
    requires i <= |events|
  {
    if i == 0 then None
    else if events[i - 1].CommandReturns? && events[i - 1].id == id then Some(events[i - 1].outcome)
    else ReturnOf(events, i - 1, id)
  }

  /** The last event before `i` that ran the handlers of command `id`, or -1. */
  function RanAt(events: seq<Event>, i: nat, id: nat): (j: int)
    requires i <= |events|
    ensures -1 <= j < i && (j >= 0 ==> events[j] == HandlersRun(id))
  {
    if i == 0 then -1 else if events[i - 1] == HandlersRun(id) then i - 1 else RanAt(events, i - 1, id)
  }

  /** The outcome of the command whose handlers run at event `j`. */
  function OutcomeAt(events: seq<Event>, j: nat): Option<Outcome>
    requires j < |events|
  {
    if events[j].HandlersRun? then ReturnOf(events, j, events[j].id) else None
  }

  predicate TokenArrives(events: seq<Event>, j: nat)
    requires j < |events|
  {
    OutcomeAt(events, j).Some? && OutcomeAt(events, j).value.Token?
  }

  /** The command had failed, and had not been cancelled. */
  predicate FailureArrives(worlds: seq<World>, events: seq<Event>, j: nat)
    requires j < |events| && j < |worlds|
  {
    && OutcomeAt(events, j).Some? && OutcomeAt(events, j).value.Error?
    && events[j].id < |worlds[j].s.commands| && !worlds[j].s.commands[events[j].id].aborted
  }

  /** The last event before `i` at which a token arrived, or -1. */
  function LastToken(events: seq<Event>, i: nat): (j: int)
    requires i <= |events|
    ensures -1 <= j < i && (j >= 0 ==> TokenArrives(events, j))
    ensures forall k :: j < k < i ==> !TokenArrives(events, k)
  {
    if i == 0 then -1 else if TokenArrives(events, i - 1) then i - 1 else LastToken(events, i - 1)
  }

  function LastFailure(worlds: seq<World>, events: seq<Event>, i: nat): (j: int)
    requires i <= |events| && i < |worlds|
    ensures -1 <= j < i && (j >= 0 ==> FailureArrives(worlds, events, j))
    ensures forall k :: j < k < i ==> !FailureArrives(worlds, events, k)
  {
    if i == 0 then -1 else if FailureArrives(worlds, events, i - 1) then i - 1 else LastFailure(worlds, events, i - 1)
  }

  /** What the waiters of a command get whose handlers ran at `j`: its outcome, but for an error the last token if any. */
  predicate GivenAt(events: seq<Event>, j: int, result: Outcome)
    requires j < |events|
  {
    && j >= 0 && OutcomeAt(events, j).Some?
    && var t := LastToken(events, j);
    && var outcome := OutcomeAt(events, j).value;
    result == if outcome.Error? && t >= 0 then OutcomeAt(events, t).value else outcome
  }

  /** The cache holds the last token, from when it arrived. */
  predicate CachePast(worlds: seq<World>, events: seq<Event>, i: nat)
    requires i <= |events| && i < |worlds|
  {
    var s, t := worlds[i].s, LastToken(events, i);
    s.cached ==
    if t < 0 then None else Some(Cached(OutcomeAt(events, t).value.token, worlds[t].now + s.ttl))
  }

  /** The failure window is that of the last failure, unless a token came after it. */
  predicate FailurePast(worlds: seq<World>, events: seq<Event>, i: nat)
    requires i <= |events| && i < |worlds|
  {
    var s, f := worlds[i].s, LastFailure(worlds, events, i);
    s.failure ==
    if f <= LastToken(events, i) then None else Some(Outage(OutcomeAt(events, f).value.error, worlds[f].now + s.ttl))
  }

  predicate CommandPast(s: State, events: seq<Event>, i: nat, id: nat)
    requires i <= |events| && id < |s.commands|
  {
    match s.commands[id].phase
    case Running => true
    case Returned(outcome) => ReturnOf(events, i, id) == Some(outcome)
    case Recorded(result) => GivenAt(events, RanAt(events, i, id), result)
    case Settled(result) => GivenAt(events, RanAt(events, i, id), result)
  }

  predicate PastInv(worlds: seq<World>, events: seq<Event>, i: nat)
    requires i <= |events| && i < |worlds|
  {
    && worlds[i].s.ttl == worlds[0].s.ttl
    && CachePast(worlds, events, i) && FailurePast(worlds, events, i)
    && forall id :: 0 <= id < |worlds[i].s.commands| ==> CommandPast(worlds[i].s, events, i, id)
  }

  lemma CommandPastStep(worlds: seq<World>, events: seq<Event>, i: nat, id: nat)
    requires i < |events| && i < |worlds| && Enabled(worlds[i], events[i]) && PastInv(worlds, events, i)
    requires id < |Step(worlds[i], events[i]).s.commands|
    ensures CommandPast(Step(worlds[i], events[i]).s, events, i + 1, id)
  {
    assert id < |worlds[i].s.commands| ==> CommandPast(worlds[i].s, events, i, id);
  }

  lemma ArrivalStep(worlds: seq<World>, events: seq<Event>, i: nat)
    requires i < |events| && i + 1 < |worlds| && Next(worlds[i], events[i], worlds[i + 1]) && PastInv(worlds, events, i)
    ensures CachePast(worlds, events, i + 1) && FailurePast(worlds, events, i + 1)
  {
    if events[i].HandlersRun? {
      assert CommandPast(worlds[i].s, events, i, events[i].id);
    }
  }

  lemma PastStep(worlds: seq<World>, events: seq<Event>, i: nat)
    requires i < |events| && i + 1 < |worlds| && Next(worlds[i], events[i], worlds[i + 1]) && PastInv(worlds, events, i)
    ensures PastInv(worlds, events, i + 1)
  {
    ArrivalStep(worlds, events, i);
    var s', next := worlds[i + 1].s, i + 1;
    forall id | 0 <= id < |s'.commands|
      ensures CommandPast(s', events, next, id)
    {
      CommandPastStep(worlds, events, i, id);
    }
    TtlStays(worlds[i], events[i]);
  }

  lemma TtlStays(w: World, e: Event)
    requires Enabled(w, e)
    ensures Step(w, e).s.ttl == w.s.ttl
  {
  }

  lemma PastStart(worlds: seq<World>, events: seq<Event>)
    requires worlds != [] && Initial(worlds[0])
    ensures PastInv(worlds, events, 0)
  {
  }

  /** In every world of every run, the cache, the failure window and every command's result are what its events gave. */
  lemma PastHolds(worlds: seq<World>, events: seq<Event>, i: nat)
    requires IsRun(worlds, events) && i < |worlds|
    ensures PastInv(worlds, events, i)
  {
    var holds: nat -> bool := (k: nat) => k < |worlds| && PastInv(worlds, events, k);
    PastStart(worlds, events);
    forall k: nat | k < |events| && holds(k)
      ensures holds(k + 1)
    {
      PastStep(worlds, events, k);
    }
    HoldsAlong(holds, |events|, i);
  }

  // ----- Answers and commands, from the events alone -----

  /** The last token arrived less than `ttl` ago. */
  predicate TokenIsFresh(worlds: seq<World>, events: seq<Event>, i: nat)
    requires i <= |events| && i < |worlds|
  {
    var t := LastToken(events, i);
    t >= 0 && worlds[i].now - worlds[t].now < worlds[0].s.ttl
  }

  /** The last failure is less than `ttl` ago, and no token came after it. */
  predicate FailureIsRecent(worlds: seq<World>, events: seq<Event>, i: nat)
    requires i <= |events| && i < |worlds|
  {
    var f := LastFailure(worlds, events, i);
    f > LastToken(events, i) && worlds[i].now - worlds[f].now < worlds[0].s.ttl
  }

  /**
   * Over every run, a call is refused by its own signal, or answered at once exactly when the last token or
   * the last failure is less than `ttl` old: with the last token that a command returned, or for lack of any
   * with that failure's error. Any other call waits.
   */
  lemma AnswersAtOnce(worlds: seq<World>, events: seq<Event>, i: nat, aborted: bool)
    requires IsRun(worlds, events) && i < |worlds|
    ensures var t, answer := LastToken(events, i), Resolve(worlds[i].s, aborted, worlds[i].now).1;
      if aborted then answer == RejectedBySignal
      else if TokenIsFresh(worlds, events, i) then answer == Now(OutcomeAt(events, t).value)
      else if FailureIsRecent(worlds, events, i) then
        answer == Now(OutcomeAt(events, if t >= 0 then t else LastFailure(worlds, events, i)).value)
      else answer == Joined(|worlds[i].s.waits|)
  {
    PastHolds(worlds, events, i);
  }

  /** A command that has not settled and was not cancelled. */
  predicate Live(s: State, id: nat) {
    id < |s.commands| && !s.commands[id].phase.Settled? && !s.commands[id].aborted
  }

  /** The command in flight is the only live one. */
  lemma InFlightIsLive(worlds: seq<World>, events: seq<Event>, i: nat, id: nat)
    requires IsRun(worlds, events) && i < |worlds|
    ensures worlds[i].s.inflight == Some(id) <==> Live(worlds[i].s, id)
  {
    RunsKeepInv(worlds, events, i);
    assert id < |worlds[i].s.commands| ==> CommandInv(worlds[i], id);
  }

  predicate NoneLive(s: State) {
    forall id :: 0 <= id < |s.commands| ==> !Live(s, id)
  }

  lemma NoneInFlight(worlds: seq<World>, events: seq<Event>, i: nat)
    requires IsRun(worlds, events) && i < |worlds|
    ensures worlds[i].s.inflight.None? <==> NoneLive(worlds[i].s)
  {
    forall id | 0 <= id < |worlds[i].s.commands|
      ensures Live(worlds[i].s, id) <==> worlds[i].s.inflight == Some(id)
    {
      InFlightIsLive(worlds, events, i, id);
    }
    if worlds[i].s.inflight.Some? {
      InFlightIsLive(worlds, events, i, worlds[i].s.inflight.value);
    }
  }

  /** A call that is not aborted finds the last token and the last failure at least `ttl` old. */
  predicate CallMustWait(worlds: seq<World>, events: seq<Event>, i: nat)
    requires i < |events| && i < |worlds|
  {
    events[i] == Call(false) && !TokenIsFresh(worlds, events, i) && !FailureIsRecent(worlds, events, i)
  }

  lemma MustWaitExactly(worlds: seq<World>, events: seq<Event>, i: nat)
    requires IsRun(worlds, events) && i < |events|
    ensures CallMustWait(worlds, events, i) <==>
            events[i] == Call(false) && !FreshToken(worlds[i].s, worlds[i].now) && !FailureWindow(worlds[i].s, worlds[i].now)
  {
    PastHolds(worlds, events, i);
  }

  lemma StepStarts(w: World, e: Event)
    requires Enabled(w, e) && (w.s.inflight.Some? ==> w.s.inflight.value < |w.s.commands|)
    ensures var s' := Step(w, e).s;
      var waits := e == Call(false) && !FreshToken(w.s, w.now) && !FailureWindow(w.s, w.now);
      && (|s'.waits| > |w.s.waits| <==> waits) && (|s'.commands| > |w.s.commands| <==> waits && w.s.inflight.None?)
  {
  }

  /** A new wait begins exactly when a call must wait, and a new command starts exactly when there is then no live one. */
  lemma CommandStarts(worlds: seq<World>, events: seq<Event>, i: nat)
    requires IsRun(worlds, events) && i < |events|
    ensures |worlds[i + 1].s.commands| > |worlds[i].s.commands| <==> CallMustWait(worlds, events, i) && NoneLive(worlds[i].s)
    ensures |worlds[i + 1].s.waits| > |worlds[i].s.waits| <==> CallMustWait(worlds, events, i)
  {
    MustWaitExactly(worlds, events, i);
    NoneInFlight(worlds, events, i);
    InFlightKnown(worlds, events, i);
    assert Next(worlds[i], events[i], worlds[i + 1]);
    StepStarts(worlds[i], events[i]);
  }

  lemma InFlightKnown(worlds: seq<World>, events: seq<Event>, i: nat)
    requires IsRun(worlds, events) && i < |worlds|
    ensures worlds[i].s.inflight.Some? ==> worlds[i].s.inflight.value < |worlds[i].s.commands|
  {
    RunsKeepInv(worlds, events, i);
  }

  /** The new wait is on the live command. */
  lemma WaitsOnLiveCommand(worlds: seq<World>, events: seq<Event>, i: nat)
    requires IsRun(worlds, events) && i < |events| && CallMustWait(worlds, events, i)
    ensures var s, s' := worlds[i].s, worlds[i + 1].s;
      && |s'.waits| == |s.waits| + 1 && s'.waits[..|s.waits|] == s.waits
      && s'.waits[|s.waits|].phase.Waiting? && Live(s', s'.waits[|s.waits|].command)
  {
    MustWaitExactly(worlds, events, i);
    InFlightKnown(worlds, events, i);
    assert Next(worlds[i], events[i], worlds[i + 1]);
    InFlightIsLive(worlds, events, i + 1, worlds[i + 1].s.waits[|worlds[i].s.waits|].command);
  }

  /**
   * A wait that ended by its command, rather than by its own signal, got the outcome that the command had
   * returned; but for an error the last token before it, if there was one.
   */
  lemma WaitersGetTheOutcome(worlds: seq<World>, events: seq<Event>, i: nat, wait: nat)
    requires IsRun(worlds, events) && i < |worlds| && wait < |worlds[i].s.waits|
    requires !worlds[i].s.waits[wait].phase.Waiting? && worlds[i].s.waits[wait].phase.verdict.ByCommand?
    ensures var w := worlds[i].s.waits[wait];
      GivenAt(events, RanAt(events, i, w.command), w.phase.verdict.result)
  {
    PastHolds(worlds, events, i);
    RunsKeepInv(worlds, events, i);
    assert WaitInv(worlds[i], wait);
    assert CommandPast(worlds[i].s, events, i, worlds[i].s.waits[wait].command);
  }

  /** A failure window opens only from a command that failed and was not cancelled. */
  lemma CancelledOpensNoWindow(worlds: seq<World>, events: seq<Event>, i: nat)
    requires IsRun(worlds, events) && i < |events|
    requires worlds[i + 1].s.failure.Some? && worlds[i + 1].s.failure != worlds[i].s.failure
    ensures events[i].HandlersRun? && !worlds[i].s.commands[events[i].id].aborted
    ensures worlds[i].s.inflight == Some(events[i].id)
    ensures worlds[i].s.commands[events[i].id].phase == Returned(Error(worlds[i + 1].s.failure.value.error))
  {
    RunsKeepInv(worlds, events, i);
    if events[i].HandlersRun? {
      assert CommandInv(worlds[i], events[i].id);
    }
  }

  /** Once a token is cached one always is. */
  lemma {:induction false} CacheStays(worlds: seq<World>, events: seq<Event>, i: nat, j: nat)
    requires IsRun(worlds, events) && i <= j < |worlds| && worlds[i].s.cached.Some?
    ensures worlds[j].s.cached.Some?
    decreases j - i
  {
    if i < j {
      assert Next(worlds[i], events[i], worlds[i + 1]);
      CacheStays(worlds, events, i + 1, j);
    }
  }

  /**
   * A call begun with a token cached is answered at once with a token or refused by its own signal, and if
   * it waits it leaves with a token or by its own signal.
   */
  lemma CachedCallGetsToken(worlds: seq<World>, events: seq<Event>, i: nat, aborted: bool)
    requires IsRun(worlds, events) && i < |worlds| && worlds[i].s.cached.Some?
    ensures var answer := Resolve(worlds[i].s, aborted, worlds[i].now).1;
      && (answer.RejectedBySignal? <==> aborted)
      && (answer.Now? ==> answer.outcome.Token?)
      && (answer.Joined? ==> Resolve(worlds[i].s, aborted, worlds[i].now).0.waits[answer.wait].cachedBefore)
  {
    RunsKeepInv(worlds, events, i);
  }

  lemma CachedWaitGetsToken(worlds: seq<World>, events: seq<Event>, i: nat, wait: nat)
    requires IsRun(worlds, events) && i < |worlds| && wait < |worlds[i].s.waits|
    requires worlds[i].s.waits[wait].cachedBefore && !worlds[i].s.waits[wait].phase.Waiting?
    ensures var verdict := worlds[i].s.waits[wait].phase.verdict;
      verdict == OwnSignal || (verdict.ByCommand? && verdict.result.Token?)
  {
    RunsKeepInv(worlds, events, i);
    assert WaitInv(worlds[i], wait);
  }
}

/** `BearerCommandResolver` itself: each method is the code between two suspensions. */
module BearerResolver {
  import opened Wrappers
  import opened BearerSteps

  class BearerCommandResolver {
    const ttl: int
    var cached: Option<Cached>
    var failure: Option<Outage>
    var inflight: Option<nat>
    /** Every command ever started; `inflight` is the index of the current one. */
    var commands: seq<Command>
    var waits: seq<Wait>

    function Abstract(): State
      reads this
    {
      State(ttl, cached, failure, inflight, commands, waits)
    }

    predicate Valid()
      reads this
    {
      inflight.Some? ==> inflight.value < |commands|
    }

    constructor (ttl: int)
      requires ttl > 0
      ensures Valid() && Initial(World(Abstract(), 0)) && this.ttl == ttl
    {
      this.ttl := ttl;
      cached, failure, inflight := None, None, None;
      commands, waits := [], [];
    }

    /** `resolve`. */
    method Resolve(signalAborted: bool, now: int) returns (answer: Answer)
      requires Valid()
      modifies this
      ensures Valid()
      ensures (Abstract(), answer) == BearerSteps.Resolve(old(Abstract()), signalAborted, now)
    {
      if signalAborted {
        return RejectedBySignal;
      }
      if cached.Some? && now < cached.value.expiresAt {
        return Now(Token(cached.value.token));
      }
      if failure.Some? && now < failure.value.retryAt {
        return if cached.Some? then Now(Token(cached.value.token)) else Now(Error(failure.value.error));
      }
      ghost var before := Abstract();
      var id := |commands|;
      if inflight.Some? {
        id := inflight.value;
      } else {
        commands := commands + [Command(0, false, Running)];
        inflight := Some(id);
      }
      var joined := Wait(id);
      answer := Joined(joined);
      assert Abstract() == Join(before);
    }

    /** The synchronous part of `#wait`: one more waiter on the command. */
    method Wait(id: nat) returns (wait: nat)
      requires id < |commands|
      modifies `commands, `waits
      ensures wait == |old(waits)| && waits == old(waits) + [BearerSteps.Wait(id, cached.Some?, Waiting)]
      ensures commands == old(commands)[id := old(commands[id]).(waiters := old(commands[id]).waiters + 1)]
    {
      wait := |waits|;
      commands := commands[id := commands[id].(waiters := commands[id].waiters + 1)];
      waits := waits + [BearerSteps.Wait(id, cached.Some?, Waiting)];
    }

    /** The promise handlers that run once the command has returned. */
    method RunHandlers(id: nat, now: int)
      requires id < |commands| && commands[id].phase.Returned?
      modifies this
      ensures Abstract() == Record(old(Abstract()), id, now)
      ensures match old(commands)[id].phase.outcome
              case Token(token) => cached == Some(Cached(token, now + ttl)) && failure == None
              case Error(error) =>
                && cached == old(cached)
                && failure == if old(commands)[id].aborted then old(failure) else Some(Outage(error, now + ttl))
    {
      var result := commands[id].phase.outcome;
      match result {
        case Token(token) =>
          cached := Some(Cached(token, now + ttl));
          failure := None;
        case Error(error) =>
          if !commands[id].aborted {
            failure := Some(Outage(error, now + ttl));
          }
          if cached.Some? {
            result := Token(cached.value.token);
          }
      }
      commands := commands[id := commands[id].(phase := Recorded(result))];
    }

    /** The promise's last handler. */
    method SettlePromise(id: nat)
      requires id < |commands| && commands[id].phase.Recorded?
      modifies this
      ensures Abstract() == Settle(old(Abstract()), id)
    {
      if inflight == Some(id) {
        inflight := None;
      }
      commands := commands[id := commands[id].(phase := Settled(commands[id].phase.result))];
    }

    /** The end of `#wait`, once its race is decided. */
    method LeaveWait(wait: nat)
      requires wait < |waits| && waits[wait].phase.Decided? && waits[wait].command < |commands|
      modifies this
      ensures Abstract() == Leave(old(Abstract()), wait)
    {
      var id := waits[wait].command;
      waits := waits[wait := waits[wait].(phase := Left(waits[wait].phase.verdict))];
      commands := commands[id := commands[id].(waiters := commands[id].waiters - 1)];
      if inflight == Some(id) && commands[id].waiters == 0 {
        inflight := None;
        commands := commands[id := commands[id].(aborted := true)];
      }
    }
  }
}
