/** Request deadlines that stop while a prompt is open: the steps of `elicitation-handler.ts`. */
module DeadlineSteps {
  import opened Wrappers
  import opened Runs

  const MAX_TIMER_MS := 0x8000_0000 - 1

  /**
   * One call's deadline. `armed` is whether its timer variable is set, which it stays after the timer has
   * fired; `pending` is whether the timer has yet to fire.
   */
  datatype Deadline = Deadline(timeout: int, remaining: int, startedAt: int, armed: bool, pending: bool, expired: bool)

  function Min(a: int, b: int): int {
    if a < b then a else b
  }

  /** A call's deadline: no longer than a timer can run. */
  function NewDeadline(requested: int): (d: Deadline)
    ensures d.timeout == d.remaining == if requested <= 2147483647 then requested else 2147483647
    ensures !d.armed && !d.pending && !d.expired
  {
    var timeout := Min(requested, MAX_TIMER_MS);
    Deadline(timeout, timeout, 0, false, false, false)
  }

  function Pause(d: Deadline, now: int): Deadline {
    if !d.armed then d
    else d.(armed := false, pending := false, remaining := d.remaining - (now - d.startedAt))
  }

  function Resume(d: Deadline, now: int): Deadline {
    d.(startedAt := now, armed := true, pending := true)
  }

  /** A progress notification restarts the timeout, and the timer only if it was running. */
  function Progress(d: Deadline, now: int): Deadline {
    var restarted := Pause(d, now).(remaining := d.timeout);
    if d.armed then Resume(restarted, now) else restarted
  }

  /** When a pending timer fires. */
  function Due(d: Deadline): int {
    d.startedAt + Max(d.remaining, 0)
  }

  function Fire(d: Deadline): Deadline {
    d.(expired := true, pending := false)
  }

  datatype State = State(open: int, deadlines: map<nat, Deadline>)

  function PauseAll(deadlines: map<nat, Deadline>, now: int): map<nat, Deadline> {
    map c | c in deadlines :: Pause(deadlines[c], now)
  }

  function ResumeAll(deadlines: map<nat, Deadline>, now: int): map<nat, Deadline> {
    map c | c in deadlines :: Resume(deadlines[c], now)
  }

  function OpenPrompt(s: State, now: int): State {
    State(s.open + 1, if s.open == 0 then PauseAll(s.deadlines, now) else s.deadlines)
  }

  function ClosePrompt(s: State, now: int): State {
    State(s.open - 1, if s.open - 1 == 0 then ResumeAll(s.deadlines, now) else s.deadlines)
  }

  function StartCall(s: State, call: nat, requested: int, now: int): State {
    var d := NewDeadline(requested);
    s.(deadlines := s.deadlines[call := if s.open == 0 then Resume(d, now) else d])
  }

  function EndCall(s: State, call: nat): State {
    s.(deadlines := s.deadlines - {call})
  }

  function ProgressCall(s: State, call: nat, now: int): State
    requires call in s.deadlines
  {
    s.(deadlines := s.deadlines[call := Progress(s.deadlines[call], now)])
  }

  function FireTimer(s: State, call: nat): State
    requires call in s.deadlines
  {
    s.(deadlines := s.deadlines[call := Fire(s.deadlines[call])])
  }

  // ----- Runs -----

  datatype Event =
    | PromptOpens(prompt: nat)
    | PromptCloses(prompt: nat)
    | CallStarts(call: nat, requested: int)
    | ProgressArrives(call: nat)
    | TimerFires(call: nat)
    | CallEnds(call: nat)
    | TimePasses(ms: nat)

  /**
   * The state with the clock, the prompts now open, and the specification's own clock for each call: the
   * time no prompt was open since the call began or last made progress.
   */
  datatype World = World(s: State, now: int, prompts: set<nat>, unprompted: map<nat, int>)

  /** The specification's clock of a call; zero for a call that is not registered. */
  function Unprompted(w: World, call: nat): int {
    if call in w.unprompted then w.unprompted[call] else 0
  }

  predicate Enabled(w: World, e: Event) {
    match e
    case PromptOpens(p) => p !in w.prompts
    case PromptCloses(p) => p in w.prompts
    case CallStarts(c, _) => c !in w.s.deadlines
    case ProgressArrives(c) => c in w.s.deadlines
    case TimerFires(c) => c in w.s.deadlines && w.s.deadlines[c].pending && Due(w.s.deadlines[c]) <= w.now
    case CallEnds(c) => c in w.s.deadlines
    // Time does not pass a timer's due time before the timer fires.
    case TimePasses(ms) =>
      forall c :: c in w.s.deadlines && w.s.deadlines[c].pending ==> w.now + ms <= Due(w.s.deadlines[c])
  }

  function Step(w: World, e: Event): World
    requires Enabled(w, e)
  {
    match e
    case PromptOpens(p) => w.(s := OpenPrompt(w.s, w.now), prompts := w.prompts + {p})
    case PromptCloses(p) => w.(s := ClosePrompt(w.s, w.now), prompts := w.prompts - {p})
    case CallStarts(c, requested) => w.(s := StartCall(w.s, c, requested, w.now), unprompted := w.unprompted[c := 0])
    case ProgressArrives(c) => w.(s := ProgressCall(w.s, c, w.now), unprompted := w.unprompted[c := 0])
    case TimerFires(c) => w.(s := FireTimer(w.s, c))
    case CallEnds(c) => w.(s := EndCall(w.s, c), unprompted := w.unprompted - {c})
    case TimePasses(ms) =>
      w.(now := w.now + ms,
         unprompted := if w.prompts != {} then w.unprompted
                       else map c | c in w.unprompted :: w.unprompted[c] + ms)
  }

  /** A deadline's fields against the specification's clock `u`. */
  predicate DeadlineInv(d: Deadline, open: int, now: int, u: int) {
    && (d.armed <==> open == 0)
    && (d.pending ==> d.armed && now <= Due(d))
    && (d.armed ==> d.startedAt <= now)
    && (d.armed && !d.pending ==> d.expired)
    && u >= 0
    && d.timeout - u == d.remaining - (if d.armed then now - d.startedAt else 0)
    && (!d.expired ==> u <= Max(d.timeout, 0))
  }

  predicate Inv(w: World) {
    && w.s.open == |w.prompts|
    && w.s.deadlines.Keys == w.unprompted.Keys
    && forall c :: c in w.s.deadlines ==> DeadlineInv(w.s.deadlines[c], w.s.open, w.now, Unprompted(w, c))
  }

  lemma TimeKeepsInv(w: World, ms: nat)
    requires Inv(w) && Enabled(w, TimePasses(ms))
    ensures Inv(Step(w, TimePasses(ms)))
  {
    var w' := Step(w, TimePasses(ms));
    forall c | c in w'.s.deadlines
      ensures DeadlineInv(w'.s.deadlines[c], w'.s.open, w'.now, Unprompted(w', c))
    {
      assert DeadlineInv(w.s.deadlines[c], w.s.open, w.now, Unprompted(w, c));
    }
  }

  lemma PromptKeepsInv(w: World, e: Event)
    requires Inv(w) && Enabled(w, e) && (e.PromptOpens? || e.PromptCloses?)
    ensures Inv(Step(w, e))
  {
    var w' := Step(w, e);
    if e.PromptCloses? {
      assert w.prompts == w'.prompts + {e.prompt};
    }
    forall c | c in w'.s.deadlines
      ensures DeadlineInv(w'.s.deadlines[c], w'.s.open, w'.now, Unprompted(w', c))
    {
      assert DeadlineInv(w.s.deadlines[c], w.s.open, w.now, Unprompted(w, c));
    }
  }

  lemma StepKeepsInv(w: World, e: Event)
    requires Inv(w) && Enabled(w, e)
    ensures Inv(Step(w, e))
  {
    if e.TimePasses? {
      TimeKeepsInv(w, e.ms);
    } else if e.PromptOpens? || e.PromptCloses? {
      PromptKeepsInv(w, e);
    }
  }

  predicate Initial(w: World) {
    w.s == State(0, map[]) && w.prompts == {} && w.unprompted == map[]
  }

  /** One step of a run. */
  ghost predicate Next(w: World, e: Event, w': World) {
    Enabled(w, e) && w' == Step(w, e)
  }

  ghost predicate IsRun(worlds: seq<World>, events: seq<Event>) {
    IsRunOf(Initial, Next, worlds, events)
  }

  lemma RunsKeepInv(worlds: seq<World>, events: seq<Event>, i: nat)
    requires IsRun(worlds, events) && i < |worlds|
    ensures Inv(worlds[i])
  {
    forall w, e, w' | Inv(w) && Next(w, e, w')
      ensures Inv(w')
    {
      StepKeepsInv(w, e);
    }
    InvariantHolds(Initial, Next, Inv, worlds, events, i);
  }

  // ----- The clock, from the events alone -----

  /** The prompts opened before event `i` and not closed since. */
  function OpenPrompts(events: seq<Event>, i: nat): set<nat>
    requires i <= |events|
  {
    if i == 0 then {}
    else
      match events[i - 1]
      case PromptOpens(p) => OpenPrompts(events, i - 1) + {p}
      case PromptCloses(p) => OpenPrompts(events, i - 1) - {p}
      case _ => OpenPrompts(events, i - 1)
  }

  /** The time that passed without an open prompt since the call began or last made progress. */
  function TimeCounted(events: seq<Event>, i: nat, c: nat): (ms: nat)
    requires i <= |events|
  {
    if i == 0 then 0
    else
      match events[i - 1]
      case CallStarts(c', _) => if c' == c then 0 else TimeCounted(events, i - 1, c)
      case ProgressArrives(c') => if c' == c then 0 else TimeCounted(events, i - 1, c)
      case TimePasses(ms) => TimeCounted(events, i - 1, c) + (if OpenPrompts(events, i - 1) == {} then ms else 0)
      case _ => TimeCounted(events, i - 1, c)
  }

  /** The timeout that the call was last begun with, capped at what a timer can run. */
  function TimeoutOf(events: seq<Event>, i: nat, c: nat): int
    requires i <= |events|
  {
    if i == 0 then 0
    else if events[i - 1].CallStarts? && events[i - 1].call == c then
      if events[i - 1].requested <= 2147483647 then events[i - 1].requested else 2147483647
    else TimeoutOf(events, i - 1, c)
  }

  /** The call has begun and not ended since. */
  predicate IsUnderWay(events: seq<Event>, i: nat, c: nat)
    requires i <= |events|
  {
    i > 0 && match events[i - 1]
             case CallStarts(c', _) => c' == c || IsUnderWay(events, i - 1, c)
             case CallEnds(c') => c' != c && IsUnderWay(events, i - 1, c)
             case _ => IsUnderWay(events, i - 1, c)
  }

  predicate ClockIs(w: World, events: seq<Event>, i: nat, c: nat)
    requires i <= |events| && c in w.s.deadlines
  {
    Unprompted(w, c) == TimeCounted(events, i, c) && w.s.deadlines[c].timeout == TimeoutOf(events, i, c)
  }

  ghost predicate ClocksAre(w: World, events: seq<Event>, i: nat)
    requires i <= |events|
  {
    && w.prompts == OpenPrompts(events, i)
    && (forall c: nat :: c in w.s.deadlines <==> IsUnderWay(events, i, c))
    && (forall c :: c in w.s.deadlines ==> ClockIs(w, events, i, c))
  }

  lemma ClockStep(w: World, events: seq<Event>, i: nat, c: nat)
    requires i < |events| && Enabled(w, events[i]) && w.s.deadlines.Keys == w.unprompted.Keys
    requires ClocksAre(w, events, i) && c in Step(w, events[i]).s.deadlines
    ensures ClockIs(Step(w, events[i]), events, i + 1, c)
  {
    assert c in w.s.deadlines ==> ClockIs(w, events, i, c);
  }

  lemma ClocksStep(w: World, w': World, events: seq<Event>, i: nat)
    requires i < |events| && Next(w, events[i], w') && w.s.deadlines.Keys == w.unprompted.Keys && ClocksAre(w, events, i)
    ensures ClocksAre(w', events, i + 1)
  {
    var next := i + 1;
    forall c | c in w'.s.deadlines
      ensures ClockIs(w', events, next, c)
    {
      ClockStep(w, events, i, c);
    }
  }

  lemma KeysAgree(worlds: seq<World>, events: seq<Event>, i: nat)
    requires IsRun(worlds, events) && i < |worlds|
    ensures worlds[i].s.deadlines.Keys == worlds[i].unprompted.Keys
  {
    RunsKeepInv(worlds, events, i);
  }

  /** Every call's clock, timeout and the open prompts are what the events of the run give. */
  lemma ClocksHold(worlds: seq<World>, events: seq<Event>, i: nat)
    requires IsRun(worlds, events) && i < |worlds|
    ensures ClocksAre(worlds[i], events, i)
  {
    var holds: nat -> bool := (n: nat) => n < |worlds| && n <= |events| && ClocksAre(worlds[n], events, n);
    forall n: nat | n < |events| && holds(n)
      ensures holds(n + 1)
    {
      KeysAgree(worlds, events, n);
      ClocksStep(worlds[n], worlds[n + 1], events, n);
    }
    HoldsAlong(holds, |events|, i);
  }

  /** The open count is the number of open prompts, and a registered timer is armed exactly when there is none. */
  lemma ArmedUnlessPrompted(worlds: seq<World>, events: seq<Event>, i: nat)
    requires IsRun(worlds, events) && i < |worlds|
    ensures worlds[i].s.open == |OpenPrompts(events, i)| >= 0
    ensures forall c: nat :: c in worlds[i].s.deadlines <==> IsUnderWay(events, i, c)
    ensures forall c :: c in worlds[i].s.deadlines ==> (worlds[i].s.deadlines[c].armed <==> OpenPrompts(events, i) == {})
  {
    RunsKeepInv(worlds, events, i);
    ClocksHold(worlds, events, i);
    var w := worlds[i];
    forall c | c in w.s.deadlines
      ensures w.s.deadlines[c].armed <==> w.prompts == {}
    {
      assert DeadlineInv(w.s.deadlines[c], w.s.open, w.now, Unprompted(w, c));
    }
  }

  /** A request expires only at its timer, when its unprompted time since progress is exactly its timeout. */
  lemma ExpiresAtTimeout(worlds: seq<World>, events: seq<Event>, i: nat, c: nat)
    requires IsRun(worlds, events) && i < |events|
    requires c in worlds[i].s.deadlines && c in worlds[i + 1].s.deadlines
    requires !worlds[i].s.deadlines[c].expired && worlds[i + 1].s.deadlines[c].expired
    ensures events[i] == TimerFires(c) && OpenPrompts(events, i) == {}
    ensures TimeCounted(events, i, c) == Max(TimeoutOf(events, i, c), 0)
  {
    RunsKeepInv(worlds, events, i);
    ClocksHold(worlds, events, i);
    assert DeadlineInv(worlds[i].s.deadlines[c], worlds[i].s.open, worlds[i].now, Unprompted(worlds[i], c));
    assert ClockIs(worlds[i], events, i, c);
  }

  /**
   * A request that has not expired has not used up its timeout, and once it has and no prompt is open its
   * timer is due: no time passes before it expires.
   */
  lemma NoTimePastTimeout(worlds: seq<World>, events: seq<Event>, i: nat, c: nat)
    requires IsRun(worlds, events) && i < |worlds| && c in worlds[i].s.deadlines && !worlds[i].s.deadlines[c].expired
    ensures var w, counted := worlds[i], TimeCounted(events, i, c);
      var timeout := Max(TimeoutOf(events, i, c), 0);
      && 0 <= counted <= timeout
      && (OpenPrompts(events, i) == {} ==>
           (counted == timeout <==> Enabled(w, TimerFires(c))) &&
           (forall ms: nat :: Enabled(w, TimePasses(ms)) ==> counted + ms <= timeout))
  {
    RunsKeepInv(worlds, events, i);
    ClocksHold(worlds, events, i);
    var w := worlds[i];
    assert DeadlineInv(w.s.deadlines[c], w.s.open, w.now, Unprompted(w, c));
    assert ClockIs(w, events, i, c);
    if w.prompts == {} {
      forall ms: nat | Enabled(w, TimePasses(ms))
        ensures Unprompted(w, c) + ms <= Max(w.s.deadlines[c].timeout, 0)
      {
        assert w.now + ms <= Due(w.s.deadlines[c]);
      }
    }
  }
}

/** The objects of `elicitation-handler.ts`: a client's open-prompt count and its calls' deadlines. */
module PromptPauses {
  import opened DeadlineSteps

  class PromptPause {
    var open: int
    var deadlines: map<nat, Deadline>

    function Abstract(): State
      reads this
    {
      State(open, deadlines)
    }

    constructor ()
      ensures Abstract() == State(0, map[])
    {
      open, deadlines := 0, map[];
    }

    method PauseDeadlines(now: int)
      modifies `deadlines
      ensures deadlines == PauseAll(old(deadlines), now)
    {
      var rest := deadlines.Keys;
      while rest != {}
        invariant rest <= deadlines.Keys == old(deadlines).Keys
        invariant forall c :: c in deadlines ==>
                    deadlines[c] == if c in rest then old(deadlines)[c] else Pause(old(deadlines)[c], now)
        decreases |rest|
      {
        var c :| c in rest;
        deadlines := deadlines[c := Pause(deadlines[c], now)];
        rest := rest - {c};
      }
    }

    method ResumeDeadlines(now: int)
      modifies `deadlines
      ensures deadlines == ResumeAll(old(deadlines), now)
    {
      var rest := deadlines.Keys;
      while rest != {}
        invariant rest <= deadlines.Keys == old(deadlines).Keys
        invariant forall c :: c in deadlines ==>
                    deadlines[c] == if c in rest then old(deadlines)[c] else Resume(old(deadlines)[c], now)
        decreases |rest|
      {
        var c :| c in rest;
        deadlines := deadlines[c := Resume(deadlines[c], now)];
        rest := rest - {c};
      }
    }

    /** The start of `whilePromptOpen`. */
    method PromptOpens(now: int)
      modifies this
      ensures Abstract() == OpenPrompt(old(Abstract()), now)
    {
      var before := open;
      open := open + 1;
      if before == 0 {
        PauseDeadlines(now);
      }
    }

    /** The end of `whilePromptOpen`, however the prompt ended. */
    method PromptCloses(now: int)
      modifies this
      ensures Abstract() == ClosePrompt(old(Abstract()), now)
    {
      open := open - 1;
      if open == 0 {
        ResumeDeadlines(now);
      }
    }

    /** The start of `callToolPausingForElicitation`. */
    method CallStarts(call: nat, requested: int, now: int)
      requires call !in deadlines
      modifies this
      ensures Abstract() == StartCall(old(Abstract()), call, requested, now)
    {
      var deadline := NewDeadline(requested);
      deadlines := deadlines[call := deadline];
      if open == 0 {
        deadlines := deadlines[call := Resume(deadlines[call], now)];
      }
    }

    /** A progress notification for a call. */
    method ProgressArrives(call: nat, now: int)
      requires call in deadlines
      modifies this
      ensures Abstract() == ProgressCall(old(Abstract()), call, now)
    {
      var deadline := deadlines[call];
      var running := deadline.armed;
      deadline := Pause(deadline, now);
      deadline := deadline.(remaining := deadline.timeout);
      if running {
        deadline := Resume(deadline, now);
      }
      deadlines := deadlines[call := deadline];
    }

    /** The end of the call, however it ended. */
    method CallEnds(call: nat)
      requires call in deadlines
      modifies this
      ensures Abstract() == EndCall(old(Abstract()), call)
    {
      deadlines := deadlines - {call};
    }
  }
}
