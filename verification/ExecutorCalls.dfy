/** Executor's structured results: pauses, outcomes, and missing accounts, as parsed JSON. */
module ExecutorResults {
  import opened Wrappers

  datatype Json = JNull | JBool(b: bool) | JNumber(n: int) | JString(s: string) | JArray(items: seq<Json>) | JObject(fields: map<string, Json>)

  /** A tool result: its structured content, whether `isError` is true, and its text. */
  datatype ToolResult = ToolResult(structured: Option<Json>, isError: bool, text: string)

  datatype Params = Params(name: string, arguments: Option<Json>, meta: Option<Json>)

  datatype Thrown =
    | CallRejected | ResumeRejected | PromptRejected | AbortedBySignal | PausedTooOften
    | MalformedPause | MalformedCall | MalformedProgram | NoSlug

  /** A field of a record; none when it is absent or the value is no record. */
  function Field(value: Option<Json>, name: string): (field: Option<Json>)
    ensures field.Some? ==> value.Some? && value.value.JObject? && (name, field.value) in value.value.fields.Items
    ensures field.None? ==> value.None? || !value.value.JObject? || name !in value.value.fields
  {
    if value.Some? && value.value.JObject? && name in value.value.fields then Some(value.value.fields[name]) else None
  }

  predicate IsRecord(value: Option<Json>) {
    value.Some? && value.value.JObject?
  }

  predicate IsString(value: Option<Json>) {
    value.Some? && value.value.JString?
  }

  predicate IsArray(value: Option<Json>) {
    value.Some? && value.value.JArray?
  }

  // ----- Pauses (executor-pauses.ts) -----

  datatype PauseKind = ApprovalRequired | InputRequired

  datatype Pause = Pause(kind: PauseKind, requestId: string, message: string, schema: Json)

  function PauseStatus(content: Option<Json>): Option<PauseKind> {
    var status := Field(content, "status");
    if status == Some(JString("approval-required")) then Some(ApprovalRequired)
    else if status == Some(JString("input-required")) then Some(InputRequired)
    else None
  }

  function ParsePause(result: ToolResult): (parsed: Result<Option<Pause>, Thrown>)
    ensures parsed.Success? && parsed.value.Some? ==>
              Field(result.structured, "requestId") == Some(JString(parsed.value.value.requestId))
    ensures parsed.Failure? ==> parsed.error == MalformedPause
  {
    var content := result.structured;
    var kind := PauseStatus(content);
    if kind.None? then Success(None)
    else
      var id, elicitation := Field(content, "requestId"), Field(content, "elicitation");
      var message, schema := Field(elicitation, "message"), Field(elicitation, "requestedSchema");
      var properties := Field(schema, "properties");
      if || !IsString(id) || id.value.s == ""
         || Field(elicitation, "mode") != Some(JString("form")) || !IsString(message)
         || Field(schema, "type") != Some(JString("object")) || !IsRecord(properties)
         || (kind.value.ApprovalRequired? && properties.value.fields != map[])
      then Failure(MalformedPause)
      else Success(Some(Pause(kind.value, id.value.s, message.value.s, schema.value)))
  }

  /** The result pauses for just this: its kind and id, and a form with this message and schema, without fields in an approval. */
  predicate Pauses(result: ToolResult, pause: Pause) {
    var elicitation := Field(result.structured, "elicitation");
    && Field(result.structured, "status") ==
         Some(JString(match pause.kind case ApprovalRequired => "approval-required" case InputRequired => "input-required"))
    && Field(result.structured, "requestId") == Some(JString(pause.requestId)) && pause.requestId != ""
    && Field(elicitation, "mode") == Some(JString("form"))
    && Field(elicitation, "message") == Some(JString(pause.message))
    && Field(elicitation, "requestedSchema") == Some(pause.schema)
    && Field(Some(pause.schema), "type") == Some(JString("object"))
    && var properties := Field(Some(pause.schema), "properties");
       properties.Some? && properties.value.JObject? && (pause.kind.ApprovalRequired? ==> properties.value.fields == map[])
  }

  /** The parser gives a pause exactly for a result that pauses so, throws exactly when only the status says so, and else gives none. */
  lemma PauseExactly(result: ToolResult, pause: Pause)
    ensures ParsePause(result) == Success(Some(pause)) <==> Pauses(result, pause)
    ensures ParsePause(result) == Success(None) <==>
            Field(result.structured, "status") !in {Some(JString("approval-required")), Some(JString("input-required"))}
  {
  }

  /** A result whose structured content holds a string `requestId`. */
  predicate HoldsRequestId(result: ToolResult) {
    IsString(Field(result.structured, "requestId"))
  }

  function TextResult(text: string, isError: bool): ToolResult {
    ToolResult(None, isError, text)
  }

  const STILL_ANSWERING := "Executor is still answering an earlier request for this call; try the call again."

  function Redact(result: ToolResult): (r: ToolResult)
    ensures !HoldsRequestId(r) && r.isError == result.isError
    ensures !HoldsRequestId(result) ==> r == result
    ensures HoldsRequestId(result) && IsString(Field(result.structured, "message")) ==>
              Field(result.structured, "message") == Some(JString(r.text))
  {
    if !HoldsRequestId(result) then result
    else
      var message := Field(result.structured, "message");
      TextResult(if IsString(message) then message.value.s else STILL_ANSWERING, result.isError)
  }

  // ----- Missing accounts (executor-accounts.ts) -----

  datatype Gap = Gap(code: string, slug: string, retrySafe: bool)

  datatype Outcome = Succeeded | MissingAccount(code: string) | OtherFailure

  predicate IsAccountCode(code: Option<Json>) {
    code == Some(JString("AppAccountRequired")) || code == Some(JString("AccountRequired"))
  }

  function CodeOf(outcome: Option<Json>): Option<Json> {
    Field(Field(Field(outcome, "error"), "response"), "code")
  }

  predicate NamesMissingAccount(value: Option<Json>) {
    if IsArray(value) then exists i :: 0 <= i < |value.value.items| && IsAccountCode(CodeOf(Some(value.value.items[i])))
    else IsAccountCode(CodeOf(value))
  }

  predicate IsDiagnostic(value: Option<Json>) {
    IsString(Field(value, "kind")) && IsString(Field(value, "message"))
  }

  function ParseOutcome(value: Option<Json>): Result<Outcome, Thrown> {
    if !IsString(Field(value, "path")) then Failure(MalformedCall)
    else if Field(value, "ok") == Some(JBool(true)) && Field(value, "value").Some? then Success(Succeeded)
    else if Field(value, "ok") != Some(JBool(false)) || !IsDiagnostic(Field(value, "error")) then Failure(MalformedCall)
    else
      var response := Field(Field(value, "error"), "response");
      if response.None? then Success(OtherFailure)
      else
        var code := Field(response, "code");
        if !IsString(code) then Failure(MalformedCall)
        else if IsAccountCode(code) then Success(MissingAccount(code.value.s))
        else Success(OtherFailure)
  }

  const CALL_OUTCOMES := {"success", "failure", "interrupted", "awaiting-approval"}

  predicate IsToolCall(call: Json) {
    && IsString(Field(Some(call), "name"))
    && IsString(Field(Some(call), "outcome")) && Field(Some(call), "outcome").value.s in CALL_OUTCOMES
  }

  /** The recorded inner calls: at most one, and none that ran. */
  predicate NothingRan(toolCalls: seq<Json>) {
    |toolCalls| <= 1 && forall i :: 0 <= i < |toolCalls| ==> Field(Some(toolCalls[i]), "outcome") == Some(JString("failure"))
  }

  /** `findAccountGap`; `appSlug` is the app a path names, if it names one. */
  function FindAccountGap(params: Params, result: ToolResult, appSlug: string -> Option<string>)
      : (gap: Result<Option<Gap>, Thrown>)
  {
    var calls := Field(params.arguments, "calls");
    var content := result.structured;
    var execution := Field(content, "execution");
    var value, toolCalls := Field(execution, "value"), Field(execution, "toolCalls");
    if params.name != "call" || IsArray(calls) then Success(None)
    else if Field(content, "status") != Some(JString("completed")) || !IsRecord(execution) then Success(None)
    else if !NamesMissingAccount(value) then Success(None)
    else if Field(execution, "ok") != Some(JBool(true)) || !IsArray(toolCalls) then Failure(MalformedCall)
    else if exists i :: 0 <= i < |toolCalls.value.items| && !IsToolCall(toolCalls.value.items[i]) then
      Failure(MalformedCall)
    else if IsArray(value) then Failure(MalformedCall)
    else
      match ParseOutcome(value)
      case Failure(thrown) => Failure(thrown)
      case Success(Succeeded) => Success(None)
      case Success(OtherFailure) => Failure(MalformedCall)
      case Success(MissingAccount(code)) =>
        var path := Field(calls, "path");
        if !IsString(path) then Failure(MalformedCall)
        else
          match appSlug(path.value.s)
          case None => Failure(NoSlug)
          case Some(slug) => Success(Some(Gap(code, slug, NothingRan(toolCalls.value.items))))
  }

  const APP_ACCOUNT_REQUIRED := Some(JString("AppAccountRequired"))
  const ACCOUNT_REQUIRED := Some(JString("AccountRequired"))

  /** The outcome's error has one of the two codes of a missing account. */
  predicate HasAccountCode(outcome: Option<Json>) {
    Field(Field(Field(outcome, "error"), "response"), "code") in {APP_ACCOUNT_REQUIRED, ACCOUNT_REQUIRED}
  }

  predicate Failed(call: Json) {
    Field(Some(call), "outcome") == Some(JString("failure"))
  }

  /** The final outcome of a single-object `call` that lacked an account and whose inner calls all failed, at most one. */
  predicate LackedAccountOnly(params: Params, result: ToolResult) {
    var execution := Field(result.structured, "execution");
    var value, toolCalls := Field(execution, "value"), Field(execution, "toolCalls");
    && params.name == "call"
    && IsString(Field(Field(params.arguments, "calls"), "path"))
    && Field(result.structured, "status") == Some(JString("completed"))
    && Field(execution, "ok") == Some(JBool(true))
    && IsArray(toolCalls) && |toolCalls.value.items| <= 1
    && (forall i :: 0 <= i < |toolCalls.value.items| ==> Failed(toolCalls.value.items[i]))
    && Field(value, "ok") == Some(JBool(false))
    && HasAccountCode(value)
  }

  /** The parts of such an outcome that the parser insists on besides. */
  predicate WellFormedGap(params: Params, result: ToolResult, appSlug: string -> Option<string>) {
    var execution := Field(result.structured, "execution");
    var value, toolCalls, path := Field(execution, "value"), Field(execution, "toolCalls"), Field(Field(params.arguments, "calls"), "path");
    && IsString(Field(value, "path"))
    && IsString(Field(Field(value, "error"), "kind")) && IsString(Field(Field(value, "error"), "message"))
    && (IsArray(toolCalls) ==>
          forall i :: 0 <= i < |toolCalls.value.items| ==> IsString(Field(Some(toolCalls.value.items[i]), "name")))
    && (IsString(path) ==> appSlug(path.value.s).Some?)
  }

  /** The retry is offered exactly for such outcomes, when they are well formed. */
  lemma RetrySafeExactly(params: Params, result: ToolResult, appSlug: string -> Option<string>)
    ensures var gap := FindAccountGap(params, result, appSlug);
      gap.Success? && gap.value.Some? && gap.value.value.retrySafe <==>
      LackedAccountOnly(params, result) && WellFormedGap(params, result, appSlug)
  {
    var toolCalls := Field(Field(result.structured, "execution"), "toolCalls");
    if IsArray(toolCalls) {
      forall i | 0 <= i < |toolCalls.value.items| && Failed(toolCalls.value.items[i])
        ensures IsToolCall(toolCalls.value.items[i]) <==> IsString(Field(Some(toolCalls.value.items[i]), "name"))
      {
      }
    }
  }

  /** Only a finished single-object `call` that somewhere has an account code is read strictly; all else passes through. */
  lemma OthersPassThrough(params: Params, result: ToolResult, appSlug: string -> Option<string>)
    requires var calls, value := Field(params.arguments, "calls"), Field(Field(result.structured, "execution"), "value");
      || params.name != "call" || IsArray(calls) || Field(result.structured, "status") != Some(JString("completed"))
      || (!HasAccountCode(value) &&
          !(IsArray(value) && exists i :: 0 <= i < |value.value.items| && HasAccountCode(Some(value.value.items[i]))))
    ensures FindAccountGap(params, result, appSlug) == Success(None)
  {
    var value := Field(Field(result.structured, "execution"), "value");
    if IsArray(value) {
      assert Field(value, "error") == None;
      forall i | 0 <= i < |value.value.items|
        ensures IsAccountCode(CodeOf(Some(value.value.items[i]))) <==> HasAccountCode(Some(value.value.items[i]))
      {
      }
    }
  }
}

/** Answering Executor's pauses, and connecting a missing account: the flows of `executor-pauses.ts` and `executor-accounts.ts`. */
module ExecutorFlows {
  import opened Wrappers
  import opened ExecutorResults

  const MAX_PAUSES: nat := 16

  datatype Action = Accept | Decline | Cancel

  datatype Decision = Decision(action: Action, content: Option<Json>)

  datatype Program = Connect(slug: string) | Read(hosted: bool, connection: string)

  /** A request to the server; an answer of an approval goes out as a bare accept. */
  datatype Request =
    | Original(params: Params)
    | Resume(requestId: string, answer: Decision, meta: Option<Json>)
    | Execute(program: Program)

  datatype Form = PauseForm(pause: Pause) | ContinueForm

  datatype Reply = Replied(result: ToolResult) | Rejected

  datatype Prompted = PromptThrows | CannotAsk | Decided(decision: Decision)

  datatype Consent = ConsentThrows | Consented(action: Action)

  datatype Event =
    | Called(request: Request, reply: Reply)
    | Asked(form: Form, prompted: Prompted)
    | Offered(url: string, consent: Consent)

  /**
   * Everything outside: the server, the user and the abort signal, each answering as it likes after what has
   * happened so far.
   */
  datatype Env = Env(
    call: (seq<Event>, Request) -> Reply,
    ask: (seq<Event>, Form) -> Prompted,
    offer: (seq<Event>, string) -> Consent,
    aborted: seq<Event> -> bool,
    offersUrls: bool,
    appSlug: string -> Option<string>,
    isHttpUrl: string -> bool)

  /** The event is what the outside does next, and one that comes after a decision comes before any abort. */
  predicate Happens(env: Env, before: seq<Event>, e: Event) {
    match e
    case Called(request, reply) => reply == env.call(before, request) && (request.Original? || !env.aborted(before))
    case Asked(form, prompted) => prompted == env.ask(before, form) && (form.PauseForm? || !env.aborted(before))
    case Offered(url, consent) => consent == env.offer(before, url) && !env.aborted(before)
  }

  /** Every recorded event is what the outside did at that point. */
  predicate Happened(env: Env, before: seq<Event>, events: seq<Event>) {
    forall i :: 0 <= i < |events| ==> Happens(env, before + events[..i], events[i])
  }

  lemma HappenedGrows(env: Env, before: seq<Event>, events: seq<Event>, e: Event)
    requires Happened(env, before, events) && Happens(env, before + events, e)
    ensures Happened(env, before, events + [e])
  {
    var longer := events + [e];
    forall i | 0 <= i < |longer|
      ensures Happens(env, before + longer[..i], longer[i])
    {
      assert i < |events| ==> Happens(env, before + events[..i], events[i]);
      assert longer[..i] == if i < |events| then events[..i] else events;
    }
  }

  // ----- answerPauses -----

  function AnswerTo(pause: Pause, decision: Decision): Decision {
    if pause.kind.ApprovalRequired? && decision.action.Accept? then Decision(Accept, None) else decision
  }

  const CANNOT_ASK := "paused for an answer that needs an interactive session"

  /** The pause an event shows, if it is an answered request whose result is one. */
  predicate Shows(e: Event, pause: Pause) {
    e.Called? && e.reply.Replied? && ParsePause(e.reply.result) == Success(Some(pause))
  }

  predicate ShowsSome(e: Event) {
    e.Called? && e.reply.Replied? && ParsePause(e.reply.result).Success? && ParsePause(e.reply.result).value.Some?
  }

  /** The request is the resume of the pause decided just before, itself shown by the reply just before that. */
  predicate ResumesLastPause(events: seq<Event>, i: nat, meta: Option<Json>)
    requires 2 <= i < |events|
  {
    var asked := events[i - 1];
    && asked.Asked? && asked.form.PauseForm? && asked.prompted.Decided?
    && Shows(events[i - 2], asked.form.pause)
    && events[i].Called?
    && events[i].request == Resume(asked.form.pause.requestId, AnswerTo(asked.form.pause, asked.prompted.decision), meta)
  }

  predicate AnswerStep(events: seq<Event>, i: nat, meta: Option<Json>)
    requires 0 < i < |events|
  {
    if i % 2 == 1 then events[i].Asked? && events[i].form.PauseForm? && Shows(events[i - 1], events[i].form.pause)
    else ResumesLastPause(events, i, meta)
  }

  /** The original request, then decisions and resumes in turn, each of the pause before it. */
  predicate Answering(events: seq<Event>, params: Params) {
    && events != []
    && events[0].Called? && events[0].request == Original(params)
    && forall i :: 0 < i < |events| ==> AnswerStep(events, i, params.meta)
  }

  lemma AnsweringGrows(events: seq<Event>, params: Params, e: Event)
    requires Answering(events, params) && AnswerStep(events + [e], |events|, params.meta)
    ensures Answering(events + [e], params)
  {
    var longer := events + [e];
    forall i | 0 < i < |longer|
      ensures AnswerStep(longer, i, params.meta)
    {
      assert i < |events| ==> AnswerStep(events, i, params.meta);
    }
  }

  lemma AskedStep(soFar: seq<Event>, params: Params, pause: Pause, prompted: Prompted)
    requires Answering(soFar, params) && |soFar| % 2 == 1 && Shows(soFar[|soFar| - 1], pause)
    ensures Answering(soFar + [Asked(PauseForm(pause), prompted)], params)
  {
    AnsweringGrows(soFar, params, Asked(PauseForm(pause), prompted));
  }

  lemma ResumedStep(soFar: seq<Event>, params: Params, pause: Pause, decision: Decision, reply: Reply)
    requires Answering(soFar, params) && |soFar| % 2 == 1 && Shows(soFar[|soFar| - 1], pause)
    ensures var asked := soFar + [Asked(PauseForm(pause), Decided(decision))];
      Answering(asked + [Called(Resume(pause.requestId, AnswerTo(pause, decision), params.meta), reply)], params)
  {
    AskedStep(soFar, params, pause, Decided(decision));
    var asked := soFar + [Asked(PauseForm(pause), Decided(decision))];
    var called := Called(Resume(pause.requestId, AnswerTo(pause, decision), params.meta), reply);
    assert (asked + [called])[|soFar|] == asked[|soFar|];
    AnsweringGrows(asked, params, called);
  }

  /** How one answered call ends, given its last event. */
  predicate Ends(events: seq<Event>, r: Result<ToolResult, Thrown>)
    requires events != []
  {
    var last := events[|events| - 1];
    match r
    case Success(result) =>
      || (last.Asked? && last.prompted.CannotAsk? && result == TextResult(CANNOT_ASK, true))
      || (last.Called? && last.reply.Replied? && ParsePause(last.reply.result) == Success(None) &&
          result == Redact(last.reply.result))
    case Failure(CallRejected) => |events| == 1 && last.Called? && last.reply.Rejected?
    case Failure(ResumeRejected) => |events| > 1 && last.Called? && last.reply.Rejected?
    case Failure(MalformedPause) => last.Called? && last.reply.Replied? && ParsePause(last.reply.result).Failure?
    case Failure(PausedTooOften) => |events| == 2 * MAX_PAUSES + 1 && ShowsSome(last)
    case Failure(PromptRejected) => last.Asked? && last.prompted.PromptThrows?
    case Failure(AbortedBySignal) =>
      |events| > 1 && if last.Asked? then last.prompted.Decided? else last.Called? && last.reply.Rejected?
    case Failure(_) => false
  }

  /** The loop body from the prompt on: either the call ends, or the program was resumed with a result. */
  method AskAndResume(env: Env, params: Params, before: seq<Event>, soFar: seq<Event>, pause: Pause)
      returns (ended: Option<Result<ToolResult, Thrown>>, events: seq<Event>, result: ToolResult)
    requires Answering(soFar, params) && Happened(env, before, soFar) && |soFar| % 2 == 1
    requires Shows(soFar[|soFar| - 1], pause)
    ensures Answering(events, params) && Happened(env, before, events) && |soFar| < |events| <= |soFar| + 2
    ensures ended.Some? ==> Ends(events, ended.value)
    ensures ended == Some(Failure(AbortedBySignal)) ==> env.aborted(before + events)
    ensures ended.None? ==>
              |events| == |soFar| + 2 && events[|events| - 1].Called? && events[|events| - 1].reply == Replied(result)
  {
    result := TextResult("", false);
    var prompted := env.ask(before + soFar, PauseForm(pause));
    HappenedGrows(env, before, soFar, Asked(PauseForm(pause), prompted));
    AskedStep(soFar, params, pause, prompted);
    events := soFar + [Asked(PauseForm(pause), prompted)];
    match prompted
    case PromptThrows => ended := Some(Failure(PromptRejected));
    case CannotAsk => ended := Some(Success(TextResult(CANNOT_ASK, true)));
    case Decided(decision) =>
      if env.aborted(before + events) {
        ended := Some(Failure(AbortedBySignal));
      } else {
        var request := Resume(pause.requestId, AnswerTo(pause, decision), params.meta);
        var reply := env.call(before + events, request);
        HappenedGrows(env, before, events, Called(request, reply));
        ResumedStep(soFar, params, pause, decision, reply);
        events := events + [Called(request, reply)];
        match reply
        case Rejected =>
          ended := Some(Failure(if env.aborted(before + events) then AbortedBySignal else ResumeRejected));
        case Replied(resumed) =>
          ended, result := None, resumed;
      }
  }

  method AnswerPauses(env: Env, params: Params, before: seq<Event>)
      returns (r: Result<ToolResult, Thrown>, events: seq<Event>)
    ensures Answering(events, params) && |events| <= 2 * MAX_PAUSES + 1
    ensures Ends(events, r) && Happened(env, before, events)
    ensures r == Failure(AbortedBySignal) ==> env.aborted(before + events)
  {
    var reply := env.call(before, Original(params));
    assert before + [] == before && [] + [Called(Original(params), reply)] == [Called(Original(params), reply)];
    HappenedGrows(env, before, [], Called(Original(params), reply));
    events := [Called(Original(params), reply)];
    if reply.Rejected? {
      return Failure(CallRejected), events;
    }
    var result := reply.result;
    var pauses := 0;
    while true
      invariant pauses <= MAX_PAUSES && |events| == 2 * pauses + 1
      invariant Answering(events, params) && Happened(env, before, events)
      invariant events[|events| - 1].Called? && events[|events| - 1].reply == Replied(result)
      decreases MAX_PAUSES - pauses
    {
      var parsed := ParsePause(result);
      if parsed.Failure? {
        return Failure(parsed.error), events;
      }
      if parsed.value.None? {
        return Success(Redact(result)), events;
      }
      if pauses == MAX_PAUSES {
        return Failure(PausedTooOften), events;
      }
      var ended;
      ended, events, result := AskAndResume(env, params, before, events, parsed.value.value);
      if ended.Some? {
        return ended.value, events;
      }
      pauses := pauses + 1;
    }
  }

  predicate IsOriginal(e: Event) {
    e.Called? && e.request.Original?
  }

  predicate IsResume(e: Event) {
    e.Called? && e.request.Resume?
  }

  predicate IsExecute(e: Event) {
    e.Called? && e.request.Execute?
  }

  function CountOf(events: seq<Event>, counted: Event -> bool): nat {
    if events == [] then 0
    else CountOf(events[..|events| - 1], counted) + (if counted(events[|events| - 1]) then 1 else 0)
  }

  lemma {:induction false} CountOfBoth(a: seq<Event>, b: seq<Event>, counted: Event -> bool)
    ensures CountOf(a + b, counted) == CountOf(a, counted) + CountOf(b, counted)
  {
    if b == [] {
      assert a + b == a;
    } else {
      CountOfBoth(a, b[..|b| - 1], counted);
      assert (a + b)[..|a + b| - 1] == a + b[..|b| - 1];
    }
  }

  lemma {:induction false} AnsweringPrefix(events: seq<Event>, params: Params, n: nat)
    requires Answering(events, params) && 0 < n <= |events|
    ensures Answering(events[..n], params)
  {
    var some := events[..n];
    forall i | 0 < i < n
      ensures AnswerStep(some, i, params.meta)
    {
      assert AnswerStep(events, i, params.meta);
    }
  }

  /** One answered call sends its original once, no program, and one resume for every decision but the last. */
  lemma {:induction false} AnsweringCounts(events: seq<Event>, params: Params)
    requires Answering(events, params)
    ensures CountOf(events, IsOriginal) == 1 && CountOf(events, IsExecute) == 0
    ensures CountOf(events, IsResume) == (|events| - 1) / 2
  {
    var n := |events| - 1;
    if n > 0 {
      AnsweringPrefix(events, params, n);
      AnsweringCounts(events[..n], params);
      assert AnswerStep(events, n, params.meta);
    } else {
      assert events[..0] == [];
    }
  }

  lemma ResumeIsOfLastPause(events: seq<Event>, params: Params, i: nat)
    requires Answering(events, params) && i < |events| && IsResume(events[i])
    ensures i >= 2 && ResumesLastPause(events, i, params.meta)
  {
    if i > 0 {
      assert AnswerStep(events, i, params.meta);
    }
  }

  /** The event asks about the pause of the reply just before it. */
  predicate AsksLastPause(events: seq<Event>, i: nat)
    requires i < |events|
  {
    && i > 0 && events[i - 1].Called? && events[i - 1].reply.Replied?
    && events[i].Asked? && events[i].form.PauseForm? && Pauses(events[i - 1].reply.result, events[i].form.pause)
  }

  /** The resume carries the id of the pause just asked about, and what was decided on it; an accepted approval goes bare. */
  predicate SendsTheDecision(events: seq<Event>, i: nat, meta: Option<Json>)
    requires i < |events|
  {
    && i > 1 && AsksLastPause(events, i - 1) && events[i - 1].prompted.Decided?
    && IsResume(events[i])
    && var (pause, decision) := (events[i - 1].form.pause, events[i - 1].prompted.decision);
    && var Resume(id, answer, sentMeta) := events[i].request;
    && id == pause.requestId && sentMeta == meta
    && answer.action == decision.action
    && answer.content == if pause.kind.ApprovalRequired? && decision.action.Accept? then None else decision.content
  }

  lemma ResumeSendsDecision(events: seq<Event>, params: Params, i: nat)
    requires Answering(events, params) && i < |events| && IsResume(events[i])
    ensures SendsTheDecision(events, i, params.meta)
  {
    ResumeIsOfLastPause(events, params, i);
    PauseExactly(events[i - 2].reply.result, events[i - 1].form.pause);
  }

  lemma AskIsOfLastPause(events: seq<Event>, params: Params, i: nat)
    requires Answering(events, params) && i < |events| && events[i].Asked?
    ensures AsksLastPause(events, i)
  {
    assert AnswerStep(events, i, params.meta);
    PauseExactly(events[i - 1].reply.result, events[i].form.pause);
  }

  /**
   * One answered call sends its original once and at most sixteen resumes. The user is only asked about the pause
   * of the last reply, each resume sends what was decided on it, and what the call returns holds no request id.
   */
  lemma AnsweredCallIsSafe(events: seq<Event>, params: Params, r: Result<ToolResult, Thrown>)
    requires Answering(events, params) && |events| <= 2 * MAX_PAUSES + 1 && Ends(events, r)
    ensures CountOf(events, IsOriginal) == 1 && CountOf(events, IsResume) <= 16
    ensures r == Failure(PausedTooOften) ==> CountOf(events, IsResume) == 16
    ensures forall i :: 0 <= i < |events| && events[i].Asked? ==> AsksLastPause(events, i)
    ensures forall i :: 0 <= i < |events| && IsResume(events[i]) ==> SendsTheDecision(events, i, params.meta)
    ensures r.Success? ==> !HoldsRequestId(r.value)
  {
    AnsweringCounts(events, params);
    forall i | 0 <= i < |events| && IsResume(events[i])
      ensures SendsTheDecision(events, i, params.meta)
    {
      ResumeSendsDecision(events, params, i);
    }
    forall i | 0 <= i < |events| && events[i].Asked?
      ensures AsksLastPause(events, i)
    {
      AskIsOfLastPause(events, params, i);
    }
    if r.Success? {
      EndsRedacted(events, r);
    }
  }

  lemma EndsRedacted(events: seq<Event>, r: Result<ToolResult, Thrown>)
    requires events != [] && Ends(events, r) && r.Success?
    ensures !HoldsRequestId(r.value)
  {
  }

  // ----- connectAccount -----

  /** `runProgram`'s reading of a result: the program's value, none to give up, or a throw. */
  function ProgramValue(result: ToolResult): Result<Option<Json>, Thrown> {
    var content := result.structured;
    var execution := Field(content, "execution");
    if !IsRecord(content) then if result.isError then Success(None) else Failure(MalformedProgram)
    else if Field(content, "status") != Some(JString("completed")) then Success(None)
    else if Field(execution, "ok") == Some(JBool(false)) then Success(None)
    else if Field(execution, "ok") != Some(JBool(true)) || Field(execution, "value").None? then Failure(MalformedProgram)
    else Success(Field(execution, "value"))
  }

  datatype Link = Link(hosted: bool, requirement: string, connection: string, url: string)

  function ParseLink(value: Json, isHttpUrl: string -> bool): Result<Option<Link>, Thrown> {
    var hosted, requirement := Field(Some(value), "hosted"), Field(Some(value), "requirement");
    var link := Field(Some(value), "link");
    if value.JNull? then Success(None)
    else if hosted.None? || !hosted.value.JBool? || !IsString(requirement) || requirement.value.s == "" then
      Failure(MalformedProgram)
    else
      var connection, url := Field(link, if hosted.value.b then "id" else "connection"), Field(link, "url");
      if !IsString(connection) || connection.value.s == "" then Failure(MalformedProgram)
      else if !IsString(url) || !isHttpUrl(url.value.s) then Failure(MalformedProgram)
      else Success(Some(Link(hosted.value.b, requirement.value.s, connection.value.s, url.value.s)))
  }

  datatype Connected = AccountConnected | AccountPending | Unchanged

  method RunProgram(env: Env, program: Program, before: seq<Event>)
      returns (value: Result<Option<Json>, Thrown>, event: Event)
    ensures event.Called? && event.request == Execute(program)
    ensures event.reply == env.call(before, Execute(program))
    ensures value == if event.reply.Rejected? then Failure(CallRejected) else ProgramValue(event.reply.result)
  {
    var reply := env.call(before, Execute(program));
    event := Called(Execute(program), reply);
    value := if reply.Rejected? then Failure(CallRejected) else ProgramValue(reply.result);
  }

  /** The value a program was answered with, if it was. */
  function Reported(e: Event, program: Program): Option<Json> {
    if e.Called? && e.request == Execute(program) && e.reply.Replied? && ProgramValue(e.reply.result).Success?
    then ProgramValue(e.reply.result).value
    else None
  }

  /** The link Executor issued for an app, if it did. */
  function IssuedLink(e: Event, slug: string, isHttpUrl: string -> bool): Option<Link> {
    var value := Reported(e, Connect(slug));
    if value.Some? && ParseLink(value.value, isHttpUrl).Success? then ParseLink(value.value, isHttpUrl).value else None
  }

  /**
   * Executor issued a link, the user accepted it and then chose Continue, and the link's connection was read
   * back with this status.
   */
  predicate LinkedAndRead(events: seq<Event>, slug: string, isHttpUrl: string -> bool, status: string) {
    && |events| == 4
    && var link := IssuedLink(events[0], slug, isHttpUrl);
       link.Some? && OfferedAndRead(events, link.value, status)
  }

  predicate OfferedAndRead(events: seq<Event>, link: Link, status: string) {
    |events| == 4 && events[1] == Offered(link.url, Consented(Accept)) && ReadAs(events[2..], link, status)
  }

  predicate ReadAs(events: seq<Event>, link: Link, status: string) {
    && |events| == 2
    && events[0].Asked? && events[0].form.ContinueForm?
    && events[0].prompted.Decided? && events[0].prompted.decision.action.Accept?
    && Field(Reported(events[1], Read(link.hosted, link.connection)), "status") == Some(JString(status))
  }

  /** The program ran to its end with this value. */
  predicate Gave(e: Event, program: Program, value: Json) {
    && e.Called? && e.request == Execute(program) && e.reply.Replied?
    && var content := e.reply.result.structured;
    && Field(content, "status") == Some(JString("completed"))
    && Field(Field(content, "execution"), "ok") == Some(JBool(true))
    && Field(Field(content, "execution"), "value") == Some(value)
  }

  /** The value names a link: hosted Executor names its connection `id`, a local one `connection`. */
  predicate NamesLink(value: Json, link: Link, isHttpUrl: string -> bool) {
    && Field(Some(value), "hosted") == Some(JBool(link.hosted))
    && Field(Some(value), "requirement") == Some(JString(link.requirement)) && link.requirement != ""
    && Field(Field(Some(value), "link"), match link.hosted case true => "id" case false => "connection") ==
         Some(JString(link.connection)) && link.connection != ""
    && Field(Field(Some(value), "link"), "url") == Some(JString(link.url)) && isHttpUrl(link.url)
  }

  /** Executor gave the link for the app, the user accepted its url, chose Continue, and its connection then had this status. */
  predicate ConnectsBy(events: seq<Event>, slug: string, isHttpUrl: string -> bool, status: string, issued: Json, link: Link, read: Json) {
    && |events| == 4
    && Gave(events[0], Connect(slug), issued) && NamesLink(issued, link, isHttpUrl)
    && events[1] == Offered(link.url, Consented(Accept))
    && events[2].Asked? && events[2].form.ContinueForm? && events[2].prompted.Decided? && events[2].prompted.decision.action.Accept?
    && Gave(events[3], Read(link.hosted, link.connection), read) && Field(Some(read), "status") == Some(JString(status))
  }

  /** So the account flow's own reading is just that. */
  lemma LinkedExactly(events: seq<Event>, slug: string, isHttpUrl: string -> bool, status: string)
    ensures LinkedAndRead(events, slug, isHttpUrl, status) <==>
            exists issued, link, read :: ConnectsBy(events, slug, isHttpUrl, status, issued, link, read)
  {
    if LinkedAndRead(events, slug, isHttpUrl, status) {
      var issued := Reported(events[0], Connect(slug)).value;
      var link := IssuedLink(events[0], slug, isHttpUrl).value;
      var read := Reported(events[3], Read(link.hosted, link.connection)).value;
      assert events[2..][1] == events[3] && events[2..][0] == events[2];
      assert ConnectsBy(events, slug, isHttpUrl, status, issued, link, read);
    }
    forall issued, link, read | ConnectsBy(events, slug, isHttpUrl, status, issued, link, read)
      ensures LinkedAndRead(events, slug, isHttpUrl, status)
    {
      assert Reported(events[0], Connect(slug)) == Some(issued);
      assert ParseLink(issued, isHttpUrl) == Success(Some(link));
    }
  }

  predicate NoOriginals(events: seq<Event>) {
    forall i :: 0 <= i < |events| ==> !IsOriginal(events[i]) && !IsResume(events[i])
  }

  /** The program that asks Executor for a link, and the link it gives. */
  method IssueLink(env: Env, slug: string, before: seq<Event>)
      returns (r: Result<Option<Link>, Thrown>, events: seq<Event>)
    requires !env.aborted(before)
    ensures |events| == 1 && NoOriginals(events) && Happened(env, before, events)
    ensures r.Success? && r.value.Some? ==>
              IssuedLink(events[0], slug, env.isHttpUrl) == r.value && !env.aborted(before + events)
  {
    var issued, called := RunProgram(env, Connect(slug), before);
    assert before + [] == before && [] + [called] == [called];
    HappenedGrows(env, before, [], called);
    events := [called];
    if issued.Failure? {
      return Failure(issued.error), events;
    }
    if env.aborted(before + events) {
      return Failure(AbortedBySignal), events;
    }
    if issued.value.None? {
      return Success(None), events;
    }
    return ParseLink(issued.value.value, env.isHttpUrl), events;
  }

  method ConnectAccount(env: Env, slug: string, before: seq<Event>)
      returns (r: Result<Connected, Thrown>, events: seq<Event>)
    ensures |events| <= 4 && NoOriginals(events) && Happened(env, before, events)
    ensures r == Success(AccountConnected) <==> r.Success? && LinkedAndRead(events, slug, env.isHttpUrl, "completed")
    ensures r == Success(AccountPending) <==> r.Success? && LinkedAndRead(events, slug, env.isHttpUrl, "pending")
    ensures r.Failure? && LinkedAndRead(events, slug, env.isHttpUrl, "completed") ==>
              r.error.AbortedBySignal? && env.aborted(before + events)
  {
    if !env.offersUrls {
      return Success(Unchanged), [];
    }
    if env.aborted(before) {
      return Failure(AbortedBySignal), [];
    }
    var issued;
    issued, events := IssueLink(env, slug, before);
    if issued.Failure? {
      return Failure(issued.error), events;
    }
    if issued.value.None? {
      return Success(Unchanged), events;
    }
    var called := events[0];
    r, events := OfferLink(env, issued.value.value, before, events);
    assert events[0] == called;
  }

  /** `connectAccount` once a link was issued: the consent, and then the rest. */
  method OfferLink(env: Env, link: Link, before: seq<Event>, soFar: seq<Event>)
      returns (r: Result<Connected, Thrown>, events: seq<Event>)
    requires |soFar| == 1 && NoOriginals(soFar) && Happened(env, before, soFar) && !env.aborted(before + soFar)
    ensures soFar <= events && |events| <= 4 && NoOriginals(events) && Happened(env, before, events)
    ensures r == Success(AccountConnected) <==> r.Success? && OfferedAndRead(events, link, "completed")
    ensures r == Success(AccountPending) <==> r.Success? && OfferedAndRead(events, link, "pending")
    ensures r.Failure? && OfferedAndRead(events, link, "completed") ==> r.error.AbortedBySignal? && env.aborted(before + events)
  {
    var consent := env.offer(before + soFar, link.url);
    HappenedGrows(env, before, soFar, Offered(link.url, consent));
    events := soFar + [Offered(link.url, consent)];
    if consent.ConsentThrows? {
      return Failure(PromptRejected), events;
    }
    if env.aborted(before + events) {
      return Failure(AbortedBySignal), events;
    }
    if !consent.action.Accept? {
      return Success(Unchanged), events;
    }
    r, events := ReadBack(env, link, before, events);
  }

  /** `connectAccount` once the link was accepted. */
  method ReadBack(env: Env, link: Link, before: seq<Event>, soFar: seq<Event>)
      returns (r: Result<Connected, Thrown>, events: seq<Event>)
    requires |soFar| == 2 && NoOriginals(soFar) && Happened(env, before, soFar) && !env.aborted(before + soFar)
    ensures soFar <= events && |events| <= 4 && NoOriginals(events) && Happened(env, before, events)
    ensures r == Success(AccountConnected) <==> r.Success? && ReadAs(events[2..], link, "completed")
    ensures r == Success(AccountPending) <==> r.Success? && ReadAs(events[2..], link, "pending")
    ensures r.Failure? && ReadAs(events[2..], link, "completed") ==> r.error.AbortedBySignal? && env.aborted(before + events)
  {
    var finished := env.ask(before + soFar, ContinueForm);
    HappenedGrows(env, before, soFar, Asked(ContinueForm, finished));
    events := soFar + [Asked(ContinueForm, finished)];
    if finished.PromptThrows? {
      return Failure(PromptRejected), events;
    }
    if env.aborted(before + events) {
      return Failure(AbortedBySignal), events;
    }
    if !(finished.Decided? && finished.decision.action.Accept?) {
      return Success(Unchanged), events;
    }
    var state, readBack := RunProgram(env, Read(link.hosted, link.connection), before + events);
    HappenedGrows(env, before, events, readBack);
    events := events + [readBack];
    if state.Failure? {
      return Failure(state.error), events;
    }
    if env.aborted(before + events) {
      return Failure(AbortedBySignal), events;
    }
    if state.value.None? {
      return Success(Unchanged), events;
    }
    var status := Field(state.value, "status");
    if !IsString(status) {
      return Failure(MalformedProgram), events;
    }
    if status == Some(JString("completed")) {
      return Success(AccountConnected), events;
    }
    return Success(if status == Some(JString("pending")) then AccountPending else Unchanged), events;
  }

  // ----- callToolAnsweringExecutorPauses -----

  const RESUME_REFUSED := "Pi answers approval and input requests itself; do not call resume."
  const NOT_CONNECTED := "The account has not finished connecting; try the call again."

  /** The parts of a run: the first answered call, the account flow, and the retry. */
  datatype Parts = Parts(first: seq<Event>, connect: seq<Event>, retry: seq<Event>)

  /**
   * How a run on an Executor connection ends: the first answer stands, unless it lacked only an account; then
   * the account is connected, and the call is retried only when the account's link was read back as completed.
   */
  ghost predicate RunOk(parts: Parts, params: Params, env: Env, r: Result<ToolResult, Thrown>) {
    && Answering(parts.first, params) && |parts.first| <= 2 * MAX_PAUSES + 1
    && Happened(env, [], parts.first)
    && Happened(env, parts.first, parts.connect)
    && Happened(env, parts.first + parts.connect, parts.retry)
    && exists first :: Ends(parts.first, first) && AfterFirst(parts, params, env, first, r)
  }

  ghost predicate AfterFirst(parts: Parts, params: Params, env: Env, first: Result<ToolResult, Thrown>, r: Result<ToolResult, Thrown>) {
    if first.Failure? then r == first && parts.connect == [] && parts.retry == []
    else
      match FindAccountGap(params, first.value, env.appSlug)
      case Failure(thrown) => r == Failure(thrown) && parts.connect == [] && parts.retry == []
      case Success(None) => r == first && parts.connect == [] && parts.retry == []
      case Success(Some(gap)) =>
        if !gap.retrySafe then r == first && parts.connect == [] && parts.retry == []
        else
          && |parts.connect| <= 4 && NoOriginals(parts.connect)
          && if parts.retry != [] then
               && LinkedAndRead(parts.connect, gap.slug, env.isHttpUrl, "completed")
               && Answering(parts.retry, params) && |parts.retry| <= 2 * MAX_PAUSES + 1 && Ends(parts.retry, r)
             else if r.Failure? then
               LinkedAndRead(parts.connect, gap.slug, env.isHttpUrl, "completed") ==>
                 r.error.AbortedBySignal? && env.aborted(parts.first + parts.connect)
             else
               && !LinkedAndRead(parts.connect, gap.slug, env.isHttpUrl, "completed")
               && r == if LinkedAndRead(parts.connect, gap.slug, env.isHttpUrl, "pending")
                       then Success(TextResult(NOT_CONNECTED, true)) else first
  }

  method CallToolAnsweringPauses(env: Env, params: Params, isExecutor: bool)
      returns (r: Result<ToolResult, Thrown>, parts: Parts)
    ensures !isExecutor || params.name !in {"execute", "call", "resume"} ==>
              && parts == Parts([Called(Original(params), env.call([], Original(params)))], [], [])
              && r == match env.call([], Original(params))
                      case Rejected => Failure(CallRejected)
                      case Replied(result) => Success(result)
    ensures isExecutor && params.name == "resume" ==>
              r == Success(TextResult(RESUME_REFUSED, true)) && parts == Parts([], [], [])
    ensures isExecutor && params.name in {"execute", "call"} ==> RunOk(parts, params, env, r)
  {
    if !(params.name in {"execute", "call", "resume"} && isExecutor) {
      var reply := env.call([], Original(params));
      parts := Parts([Called(Original(params), reply)], [], []);
      if reply.Rejected? {
        return Failure(CallRejected), parts;
      }
      return Success(reply.result), parts;
    }
    if params.name == "resume" {
      return Success(TextResult(RESUME_REFUSED, true)), Parts([], [], []);
    }
    var first, events := AnswerPauses(env, params, []);
    parts := Parts(events, [], []);
    if first.Failure? {
      return first, parts;
    }
    var gap := FindAccountGap(params, first.value, env.appSlug);
    if gap.Failure? {
      return Failure(gap.error), parts;
    }
    if gap.value.None? || !gap.value.value.retrySafe {
      return first, parts;
    }
    var connected, flow := ConnectAccount(env, gap.value.value.slug, events);
    parts := parts.(connect := flow);
    match connected
    case Failure(thrown) => return Failure(thrown), parts;
    case Success(AccountPending) => return Success(TextResult(NOT_CONNECTED, true)), parts;
    case Success(Unchanged) => return first, parts;
    case Success(AccountConnected) =>
      var again, retried := AnswerPauses(env, params, events + flow);
      return again, parts.(retry := retried);
  }

  lemma {:induction false} NoOriginalsCount(events: seq<Event>)
    requires NoOriginals(events)
    ensures CountOf(events, IsOriginal) == 0 && CountOf(events, IsResume) == 0
  {
    if events != [] {
      NoOriginalsCount(events[..|events| - 1]);
    }
  }

  /** The app that the call's own path names was linked, and its link read back as completed. */
  ghost predicate LinksOwnApp(params: Params, events: seq<Event>, env: Env) {
    var path := Field(Field(params.arguments, "calls"), "path");
    && IsString(path) && env.appSlug(path.value.s).Some?
    && exists issued, link, read ::
         ConnectsBy(events, env.appSlug(path.value.s).value, env.isHttpUrl, "completed", issued, link, read)
  }

  /**
   * Over any run on an Executor connection, the original request is sent once or twice, and twice only when
   * the first final result lacked just an account, its inner calls had not run, and the link of the call's own
   * app was read back as completed. What the caller gets never holds a request id.
   */
  lemma OriginalIsSentTwiceAtMost(parts: Parts, params: Params, env: Env, r: Result<ToolResult, Thrown>)
    requires RunOk(parts, params, env, r)
    ensures var all := parts.first + parts.connect + parts.retry;
      && 1 <= CountOf(all, IsOriginal) <= 2
      && (CountOf(all, IsOriginal) == 2 ==>
            && (exists first :: Ends(parts.first, Success(first)) && LackedAccountOnly(params, first))
            && LinksOwnApp(params, parts.connect, env))
    ensures r.Success? ==> !HoldsRequestId(r.value)
  {
    var first :| Ends(parts.first, first) && AfterFirst(parts, params, env, first, r);
    OriginalsOfParts(parts, params, env, first, r);
    if parts.retry != [] {
      RetryMeans(parts, params, env, first, r);
    }
    if r.Success? {
      ResultIsRedacted(parts, params, env, first, r);
    }
  }

  lemma EndsOnce(events: seq<Event>, result: ToolResult, r: Result<ToolResult, Thrown>)
    requires events != [] && Ends(events, Success(result)) && Ends(events, r)
    ensures r == Success(result)
  {
  }

  /** And it is sent again whenever that is so, unless the call was aborted meanwhile. */
  lemma RetriesWhenConnected(parts: Parts, params: Params, env: Env, r: Result<ToolResult, Thrown>)
    requires RunOk(parts, params, env, r)
    requires exists first ::
               Ends(parts.first, Success(first)) && LackedAccountOnly(params, first) && WellFormedGap(params, first, env.appSlug)
    requires LinksOwnApp(params, parts.connect, env) && !env.aborted(parts.first + parts.connect)
    ensures CountOf(parts.first + parts.connect + parts.retry, IsOriginal) == 2
  {
    var first :| Ends(parts.first, first) && AfterFirst(parts, params, env, first, r);
    var lacked :| Ends(parts.first, Success(lacked)) && LackedAccountOnly(params, lacked) && WellFormedGap(params, lacked, env.appSlug);
    EndsOnce(parts.first, lacked, first);
    OriginalsOfParts(parts, params, env, first, r);
    RetrySafeExactly(params, lacked, env.appSlug);
    GapIsOwnApp(params, lacked, env.appSlug);
    LinkedExactly(parts.connect, FindAccountGap(params, lacked, env.appSlug).value.value.slug, env.isHttpUrl, "completed");
  }

  lemma OriginalsOfParts(parts: Parts, params: Params, env: Env, first: Result<ToolResult, Thrown>, r: Result<ToolResult, Thrown>)
    requires Answering(parts.first, params) && AfterFirst(parts, params, env, first, r)
    ensures CountOf(parts.first + parts.connect + parts.retry, IsOriginal) == if parts.retry == [] then 1 else 2
  {
    CountOfBoth(parts.first + parts.connect, parts.retry, IsOriginal);
    CountOfBoth(parts.first, parts.connect, IsOriginal);
    AnsweringCounts(parts.first, params);
    assert NoOriginals(parts.connect);
    NoOriginalsCount(parts.connect);
    if parts.retry != [] {
      AnsweringCounts(parts.retry, params);
    }
  }

  lemma RetryMeans(parts: Parts, params: Params, env: Env, first: Result<ToolResult, Thrown>, r: Result<ToolResult, Thrown>)
    requires AfterFirst(parts, params, env, first, r) && parts.retry != []
    ensures first.Success? && LackedAccountOnly(params, first.value) && LinksOwnApp(params, parts.connect, env)
  {
    RetrySafeExactly(params, first.value, env.appSlug);
    GapIsOwnApp(params, first.value, env.appSlug);
    LinkedExactly(parts.connect, FindAccountGap(params, first.value, env.appSlug).value.value.slug, env.isHttpUrl, "completed");
  }

  lemma GapIsOwnApp(params: Params, result: ToolResult, appSlug: string -> Option<string>)
    ensures var gap := FindAccountGap(params, result, appSlug);
      var path := Field(Field(params.arguments, "calls"), "path");
      gap.Success? && gap.value.Some? ==> IsString(path) && appSlug(path.value.s) == Some(gap.value.value.slug)
  {
  }

  lemma ResultIsRedacted(parts: Parts, params: Params, env: Env, first: Result<ToolResult, Thrown>, r: Result<ToolResult, Thrown>)
    requires parts.first != [] && Ends(parts.first, first) && AfterFirst(parts, params, env, first, r) && r.Success?
    ensures !HoldsRequestId(r.value)
  {
    if first.Success? {
      EndsRedacted(parts.first, first);
    }
    if parts.retry != [] {
      EndsRedacted(parts.retry, r);
    }
  }
}
