/**
 * `process_task`: the bounded conversation with the remote model. Each
 * iteration asks for the next reply (through the retry policy), runs the
 * tool calls it requests in order, and accepts a reply without tool calls
 * as the end of the task only when the build state is verified; otherwise
 * it appends a corrective user message and goes on. The loop is specified
 * by the function `Converse` and the method `ProcessTask` is proved to
 * compute it.
 */
module Agent {
  import opened Wrappers
  import opened BuildVerification
  import opened Tools
  import opened RetryPolicy

  const MaxIterations: nat := 50
  const CorrectiveText :=
    "SYSTEM: Build has NOT been verified. You MUST run './gradlew build' to verify your changes compile. Do not finish until the build passes."
  const InvalidArgumentsPrefix := "Error: Invalid JSON arguments: "

  /** The `arguments` of a tool call after `json.loads`: invalid JSON, a JSON value that is not an object, or an object. */
  datatype Arguments = Malformed(error: string) | NotAnObject | Object(fields: map<string, string>)

  datatype ToolCall = ToolCall(id: string, name: string, arguments: Arguments)

  /** A reply of the remote model: its text and the tool calls it requests (none when empty). */
  datatype Reply = Reply(content: string, calls: seq<ToolCall>)

  /** A message of the transcript; the system prompt is represented by what it embeds. */
  datatype Message =
    | SystemTurn(architectureGuide: string, projectFiles: string)
    | UserTurn(text: string)
    | AssistantTurn(reply: Reply)
    | ToolTurn(callId: string, name: string, content: string)

  /**
   * The state `process_task` threads through its loop: the build state,
   * the transcript, the iteration counter, the attempts made on the
   * remote service, the tools executed, and the sleeps of the retry policy.
   */
  datatype Session = Session(
    state: Snapshot,
    transcript: seq<Message>,
    iteration: nat,
    apiCalls: nat,
    executed: nat,
    sleeps: seq<nat>)

  /**
   * How a task ends. `process_task` returns True for `Completed` and False
   * for `ApiExhausted` and `IterationCeiling`; `Crashed` is the `TypeError`
   * of a call whose arguments do not bind, which nothing catches.
   */
  datatype Outcome = Completed | ApiExhausted | IterationCeiling | Crashed

  datatype Finish = Finish(outcome: Outcome, session: Session)
  datatype Batch = Batch(session: Session, crashed: bool)

  function Start(task: string, guide: string, files: string): Session {
    Session(Initial(), [SystemTurn(guide, files), UserTurn("TASK: " + task)], 0, 0, 0, [])
  }

  /** The calls of a reply whose name is a known tool. */
  function KnownCalls(calls: seq<ToolCall>): nat {
    if calls == [] then 0
    else (if Lookup(calls[0].name).Some? then 1 else 0) + KnownCalls(calls[1..])
  }

  /**
   * The tool calls of one reply, in the order requested: an unknown name
   * is skipped, invalid JSON yields an error message, a call whose
   * arguments bind runs and its truncated result is appended, and one
   * whose arguments do not bind raises.
   */
  function RunCalls(world: nat -> World, s: Session, calls: seq<ToolCall>): (b: Batch)
    ensures b.session.iteration == s.iteration && b.session.apiCalls == s.apiCalls
    ensures b.session.sleeps == s.sleeps
    decreases |calls|
  {
    if calls == [] then Batch(s, false)
    else
      var call := calls[0];
      match Lookup(call.name)
      case None => RunCalls(world, s, calls[1..])
      case Some(tool) =>
        match call.arguments
        case Malformed(e) =>
          var message := ToolTurn(call.id, call.name, InvalidArgumentsPrefix + e);
          RunCalls(world, s.(transcript := s.transcript + [message]), calls[1..])
        case NotAnObject => Batch(s, true)
        case Object(args) =>
          if !Binds(tool, args) then Batch(s, true)
          else
            var effect := Execute(s.state, tool, args, world(s.executed));
            var message := ToolTurn(call.id, call.name, Truncate(effect.text));
            RunCalls(world, s.(state := effect.state, executed := s.executed + 1,
                               transcript := s.transcript + [message]), calls[1..])
  }

  /** What one iteration of the loop leads to: the end of the task, or the session of the next iteration. */
  datatype Step = Done(finish: Finish) | Continue(next: Session)

  /**
   * One iteration of the loop of `process_task`: ask for a reply through
   * the retry policy, append it, then either run its tool calls, accept it
   * as the end of the task, or append the corrective message.
   */
  function NextStep(api: nat -> Attempt<Reply>, world: nat -> World, s: Session): (step: Step)
    ensures step.Continue? ==> step.next.iteration == s.iteration + 1
  {
    var r := Retry(api, s.apiCalls);
    var s1 := s.(iteration := s.iteration + 1, apiCalls := s.apiCalls + r.attempts,
                 sleeps := s.sleeps + r.delays);
    match r.answer
    case None => Done(Finish(ApiExhausted, s1))
    case Some(reply) =>
      var s2 := s1.(transcript := s1.transcript + [AssistantTurn(reply)]);
      if reply.calls != [] then
        var b := RunCalls(world, s2, reply.calls);
        if b.crashed then Done(Finish(Crashed, b.session)) else Continue(b.session)
      else if s2.state.Verified() || !RequireBuildVerification then Done(Finish(Completed, s2))
      else Continue(s2.(transcript := s2.transcript + [UserTurn(CorrectiveText)]))
  }

  /** The loop of `process_task` from session `s` on. */
  function Converse(api: nat -> Attempt<Reply>, world: nat -> World, s: Session): Finish
    decreases MaxIterations - s.iteration
  {
    if s.iteration >= MaxIterations then Finish(IterationCeiling, s)
    else
      match NextStep(api, world, s)
      case Done(f) => f
      case Continue(next) => Converse(api, world, next)
  }

  /**
   * Running the calls of one reply only appends to the transcript, only
   * tool messages and at most one per call.
   */
  lemma {:induction false} RunCallsFacts(world: nat -> World, s: Session, calls: seq<ToolCall>)
    ensures var b := RunCalls(world, s, calls);
      |s.transcript| <= |b.session.transcript| <= |s.transcript| + |calls| &&
      b.session.transcript[..|s.transcript|] == s.transcript &&
      (forall k | |s.transcript| <= k < |b.session.transcript| :: b.session.transcript[k].ToolTurn?)
    decreases |calls|
  {
    if calls != [] {
      var call := calls[0];
      match Lookup(call.name)
      case None =>
        RunCallsFacts(world, s, calls[1..]);
      case Some(tool) =>
        match call.arguments
        case Malformed(e) =>
          var message := ToolTurn(call.id, call.name, InvalidArgumentsPrefix + e);
          var s' := s.(transcript := s.transcript + [message]);
          RunCallsFacts(world, s', calls[1..]);
          assert s'.transcript[..|s.transcript|] == s.transcript;
        case NotAnObject =>
        case Object(args) =>
          if Binds(tool, args) {
            var effect := Execute(s.state, tool, args, world(s.executed));
            var message := ToolTurn(call.id, call.name, Truncate(effect.text));
            var s' := s.(state := effect.state, executed := s.executed + 1,
                         transcript := s.transcript + [message]);
            RunCallsFacts(world, s', calls[1..]);
            assert s'.transcript[..|s.transcript|] == s.transcript;
          }
    }
  }

  /**
   * Running the calls of one reply keeps the build state consistent.
   */
  lemma {:induction false} RunCallsConsistent(world: nat -> World, s: Session, calls: seq<ToolCall>)
    requires s.state.Consistent()
    ensures RunCalls(world, s, calls).session.state.Consistent()
    decreases |calls|
  {
    if calls != [] {
      var call := calls[0];
      match Lookup(call.name)
      case None =>
        RunCallsConsistent(world, s, calls[1..]);
      case Some(tool) =>
        match call.arguments
        case Malformed(e) =>
          var message := ToolTurn(call.id, call.name, InvalidArgumentsPrefix + e);
          var s' := s.(transcript := s.transcript + [message]);
          RunCallsConsistent(world, s', calls[1..]);
        case NotAnObject =>
        case Object(args) =>
          if Binds(tool, args) {
            var effect := Execute(s.state, tool, args, world(s.executed));
            var message := ToolTurn(call.id, call.name, Truncate(effect.text));
            var s' := s.(state := effect.state, executed := s.executed + 1,
                         transcript := s.transcript + [message]);
            RunCallsConsistent(world, s', calls[1..]);
            }
    }
  }

  /**
   * When nothing raises, the calls of one reply append exactly one message
   * per call with a known name, so none for an unknown name.
   */
  lemma {:induction false} RunCallsCount(world: nat -> World, s: Session, calls: seq<ToolCall>)
    ensures var b := RunCalls(world, s, calls);
      !b.crashed ==> |b.session.transcript| == |s.transcript| + KnownCalls(calls)
    decreases |calls|
  {
    if calls != [] {
      var call := calls[0];
      match Lookup(call.name)
      case None =>
        RunCallsCount(world, s, calls[1..]);
      case Some(tool) =>
        match call.arguments
        case Malformed(e) =>
          var message := ToolTurn(call.id, call.name, InvalidArgumentsPrefix + e);
          RunCallsCount(world, s.(transcript := s.transcript + [message]), calls[1..]);
        case NotAnObject =>
        case Object(args) =>
          if Binds(tool, args) {
            var effect := Execute(s.state, tool, args, world(s.executed));
            var message := ToolTurn(call.id, call.name, Truncate(effect.text));
            RunCallsCount(world, s.(state := effect.state, executed := s.executed + 1,
                                    transcript := s.transcript + [message]), calls[1..]);
          }
    }
  }

  /** The build-state events of the calls of one reply that run a tool, in order, up to one that raises. */
  function BatchEvents(world: nat -> World, executed: nat, calls: seq<ToolCall>): seq<Event>
    decreases |calls|
  {
    if calls == [] then []
    else
      var call := calls[0];
      match Lookup(call.name)
      case None => BatchEvents(world, executed, calls[1..])
      case Some(tool) =>
        match call.arguments
        case Malformed(_) => BatchEvents(world, executed, calls[1..])
        case NotAnObject => []
        case Object(args) =>
          if !Binds(tool, args) then []
          else [ToolEvent(tool, args, world(executed))] + BatchEvents(world, executed + 1, calls[1..])
  }

  /** A call that runs a tool: its event comes first, and the state it leaves is the state that event leads to. */
  lemma RunCallsReplaysStep(world: nat -> World, s: Session, calls: seq<ToolCall>, tool: Tool, args: map<string, string>)
    requires calls != [] && Lookup(calls[0].name) == Some(tool) && calls[0].arguments == Object(args) && Binds(tool, args)
    ensures var effect := Execute(s.state, tool, args, world(s.executed));
      var e := ToolEvent(tool, args, world(s.executed));
      effect.state == Apply(s.state, e) &&
      BatchEvents(world, s.executed, calls) == [e] + BatchEvents(world, s.executed + 1, calls[1..]) &&
      RunCalls(world, s, calls) ==
        RunCalls(world, s.(state := effect.state, executed := s.executed + 1,
                           transcript := s.transcript + [ToolTurn(calls[0].id, calls[0].name, Truncate(effect.text))]),
                 calls[1..])
  {
    ExecuteApplies(s.state, tool, args, world(s.executed));
  }

  /**
   * The calls of one reply change the build state exactly as replaying
   * their tool events does; with `ReplayVerified`, the state after them is
   * verified exactly when the last decisive event among them passed, or,
   * with none, as it was before.
   */
  lemma {:induction false} RunCallsReplays(world: nat -> World, s: Session, calls: seq<ToolCall>)
    ensures RunCalls(world, s, calls).session.state == Replay(s.state, BatchEvents(world, s.executed, calls))
    decreases |calls|
  {
    if calls != [] {
      var call := calls[0];
      match Lookup(call.name)
      case None =>
        RunCallsReplays(world, s, calls[1..]);
      case Some(tool) =>
        match call.arguments
        case Malformed(e) =>
          var message := ToolTurn(call.id, call.name, InvalidArgumentsPrefix + e);
          RunCallsReplays(world, s.(transcript := s.transcript + [message]), calls[1..]);
        case NotAnObject =>
        case Object(args) =>
          if Binds(tool, args) {
            RunCallsReplaysStep(world, s, calls, tool, args);
            var effect := Execute(s.state, tool, args, world(s.executed));
            var message := ToolTurn(call.id, call.name, Truncate(effect.text));
            RunCallsReplays(world, s.(state := effect.state, executed := s.executed + 1,
                                      transcript := s.transcript + [message]), calls[1..]);
            ReplayCons(s.state, ToolEvent(tool, args, world(s.executed)), BatchEvents(world, s.executed + 1, calls[1..]));
          }
    }
  }

  /** Running the calls `a + b` is running `a`, then, unless that raised, `b`. */
  lemma {:induction false} RunCallsSplit(world: nat -> World, s: Session, a: seq<ToolCall>, b: seq<ToolCall>)
    ensures var first := RunCalls(world, s, a);
      RunCalls(world, s, a + b) == if first.crashed then first else RunCalls(world, first.session, b)
    decreases |a|
  {
    if a == [] {
      assert a + b == b;
    } else {
      assert (a + b)[0] == a[0];
      assert (a + b)[1..] == a[1..] + b;
      var call := a[0];
      match Lookup(call.name)
      case None =>
        RunCallsSplit(world, s, a[1..], b);
      case Some(tool) =>
        match call.arguments
        case Malformed(e) =>
          var message := ToolTurn(call.id, call.name, InvalidArgumentsPrefix + e);
          RunCallsSplit(world, s.(transcript := s.transcript + [message]), a[1..], b);
        case NotAnObject =>
        case Object(args) =>
          if Binds(tool, args) {
            var effect := Execute(s.state, tool, args, world(s.executed));
            var message := ToolTurn(call.id, call.name, Truncate(effect.text));
            RunCallsSplit(world, s.(state := effect.state, executed := s.executed + 1,
                                    transcript := s.transcript + [message]), a[1..], b);
          }
    }
  }

  /** The tool message a call with a known name appends when it does not raise. */
  predicate Answers(world: nat -> World, s: Session, call: ToolCall, m: Message)
    requires Lookup(call.name).Some?
  {
    var tool := Lookup(call.name).value;
    m.ToolTurn? && m.callId == call.id && m.name == call.name &&
    !call.arguments.NotAnObject? &&
    (call.arguments.Malformed? ==> m.content == InvalidArgumentsPrefix + call.arguments.error) &&
    (call.arguments.Object? ==>
      Binds(tool, call.arguments.fields) &&
      m.content == Truncate(Execute(s.state, tool, call.arguments.fields, world(s.executed)).text))
  }

  /** When nothing raises, the first call, if its name is known, is answered by the first message appended. */
  lemma RunCallsHead(world: nat -> World, s: Session, calls: seq<ToolCall>)
    requires calls != [] && Lookup(calls[0].name).Some?
    requires !RunCalls(world, s, calls).crashed
    ensures var t := RunCalls(world, s, calls).session.transcript;
      |s.transcript| < |t| && Answers(world, s, calls[0], t[|s.transcript|])
  {
    var call := calls[0];
    var tool := Lookup(call.name).value;
    match call.arguments
    case Malformed(e) =>
      var message := ToolTurn(call.id, call.name, InvalidArgumentsPrefix + e);
      var s' := s.(transcript := s.transcript + [message]);
      RunCallsFacts(world, s', calls[1..]);
      assert RunCalls(world, s', calls[1..]).session.transcript[|s.transcript|] == message;
    case Object(args) =>
      var effect := Execute(s.state, tool, args, world(s.executed));
      var message := ToolTurn(call.id, call.name, Truncate(effect.text));
      var s' := s.(state := effect.state, executed := s.executed + 1, transcript := s.transcript + [message]);
      RunCallsFacts(world, s', calls[1..]);
      assert RunCalls(world, s', calls[1..]).session.transcript[|s.transcript|] == message;
  }

  /**
   * When nothing raises, the call at index `i` with a known name is
   * answered by the tool message that follows those of the known calls
   * before it: it carries the call's id and name, and its content is the
   * JSON error for invalid arguments, or else the truncated result of
   * running the tool on the state the earlier calls left, which is at most
   * 10023 characters long.
   */
  lemma RunCallsAnswers(world: nat -> World, s: Session, calls: seq<ToolCall>, i: nat)
    requires i < |calls| && Lookup(calls[i].name).Some?
    requires !RunCalls(world, s, calls).crashed
    ensures var t := RunCalls(world, s, calls).session.transcript;
      var n := |s.transcript| + KnownCalls(calls[..i]);
      n < |t| && Answers(world, RunCalls(world, s, calls[..i]).session, calls[i], t[n]) &&
      (calls[i].arguments.Object? ==> |t[n].content| <= 2 * KeptEachEnd + |TruncationMarker|)
  {
    var before, rest := calls[..i], calls[i..];
    assert calls == before + rest;
    RunCallsSplit(world, s, before, rest);
    var first := RunCalls(world, s, before);
    assert !first.crashed;
    RunCallsCount(world, s, before);
    assert rest[0] == calls[i];
    RunCallsHead(world, first.session, rest);
    if calls[i].arguments.Object? {
      var p := first.session;
      TruncateCharacterized(Execute(p.state, Lookup(calls[i].name).value, calls[i].arguments.fields, world(p.executed)).text);
    }
  }

  /** One unfolding of the loop, given what its iteration led to. */
  lemma ConverseUnfolds(api: nat -> Attempt<Reply>, world: nat -> World, s: Session, done: bool, outcome: Outcome, t: Session)
    requires s.iteration < MaxIterations
    requires NextStep(api, world, s) == if done then Done(Finish(outcome, t)) else Continue(t)
    ensures Converse(api, world, s) == if done then Finish(outcome, t) else Converse(api, world, t)
  {
  }

  /** `b` starts with `a`. */
  predicate Extends(a: seq<Message>, b: seq<Message>) {
    |a| <= |b| && b[..|a|] == a
  }

  lemma ExtendsTransitive(a: seq<Message>, b: seq<Message>, c: seq<Message>)
    requires Extends(a, b) && Extends(b, c)
    ensures Extends(a, c)
  {
    assert c[..|b|][..|a|] == c[..|a|];
  }

  /** The session a step leads to, whether or not it ends the task. */
  function After(step: Step): Session {
    match step
    case Done(f) => f.session
    case Continue(next) => next
  }

  /**
   * One iteration counts one more iteration, makes at most three attempts
   * on the remote service, and never ends on the ceiling.
   */
  lemma StepBounds(api: nat -> Attempt<Reply>, world: nat -> World, s: Session)
    ensures var step := NextStep(api, world, s); var t := After(step);
      t.iteration == s.iteration + 1 &&
      t.apiCalls <= s.apiCalls + MaxRetries &&
      (step.Done? ==> step.finish.outcome != IterationCeiling)
  {
    RetryCharacterized(api, s.apiCalls);
  }

  /** One iteration only appends to the transcript. */
  lemma StepExtends(api: nat -> Attempt<Reply>, world: nat -> World, s: Session)
    ensures Extends(s.transcript, After(NextStep(api, world, s)).transcript)
  {
    var r := Retry(api, s.apiCalls);
    var s1 := s.(iteration := s.iteration + 1, apiCalls := s.apiCalls + r.attempts,
                 sleeps := s.sleeps + r.delays);
    if r.answer.Some? {
      var reply := r.answer.value;
      var s2 := s1.(transcript := s1.transcript + [AssistantTurn(reply)]);
      assert Extends(s.transcript, s2.transcript);
      if reply.calls != [] {
        RunCallsFacts(world, s2, reply.calls);
        ExtendsTransitive(s.transcript, s2.transcript, RunCalls(world, s2, reply.calls).session.transcript);
      } else if !(s2.state.Verified() || !RequireBuildVerification) {
        var s3 := s2.(transcript := s2.transcript + [UserTurn(CorrectiveText)]);
        assert Extends(s2.transcript, s3.transcript);
        ExtendsTransitive(s.transcript, s2.transcript, s3.transcript);
      }
    }
  }

  /** One iteration keeps the build state consistent. */
  lemma StepConsistent(api: nat -> Attempt<Reply>, world: nat -> World, s: Session)
    requires s.state.Consistent()
    ensures After(NextStep(api, world, s)).state.Consistent()
  {
    var r := Retry(api, s.apiCalls);
    if r.answer.Some? && r.answer.value.calls != [] {
      var s2 := s.(iteration := s.iteration + 1, apiCalls := s.apiCalls + r.attempts,
                   sleeps := s.sleeps + r.delays, transcript := s.transcript + [AssistantTurn(r.answer.value)]);
      RunCallsConsistent(world, s2, r.answer.value.calls);
    }
  }

  /**
   * One iteration ends the task as completed only on a reply without tool
   * calls, appended last, while the build state is verified.
   */
  lemma StepCompletes(api: nat -> Attempt<Reply>, world: nat -> World, s: Session)
    ensures var step := NextStep(api, world, s); var t := After(step);
      step.Done? && step.finish.outcome == Completed ==>
        t.state.Verified() && t.transcript != [] &&
        t.transcript[|t.transcript| - 1].AssistantTurn? &&
        t.transcript[|t.transcript| - 1].reply.calls == []
  {
  }

  /**
   * The loop from any session stops within the iteration ceiling, makes at
   * most three attempts on the remote service per iteration, and fails on
   * the ceiling only after exactly `MaxIterations` iterations.
   */
  lemma {:induction false} ConverseBounds(api: nat -> Attempt<Reply>, world: nat -> World, s: Session)
    requires s.iteration <= MaxIterations
    ensures var f := Converse(api, world, s); var t := f.session;
      s.iteration <= t.iteration <= MaxIterations &&
      t.apiCalls <= s.apiCalls + MaxRetries * (t.iteration - s.iteration) &&
      (f.outcome == IterationCeiling ==> t.iteration == MaxIterations)
    decreases MaxIterations - s.iteration
  {
    if s.iteration < MaxIterations {
      StepBounds(api, world, s);
      var step := NextStep(api, world, s);
      if step.Continue? {
        ConverseBounds(api, world, step.next);
      }
    }
  }

  /** The loop from any session only appends to the transcript. */
  lemma {:induction false} ConverseExtends(api: nat -> Attempt<Reply>, world: nat -> World, s: Session)
    ensures Extends(s.transcript, Converse(api, world, s).session.transcript)
    decreases MaxIterations - s.iteration
  {
    if s.iteration < MaxIterations {
      StepExtends(api, world, s);
      var step := NextStep(api, world, s);
      if step.Continue? {
        ConverseExtends(api, world, step.next);
        ExtendsTransitive(s.transcript, step.next.transcript, Converse(api, world, step.next).session.transcript);
      }
    }
  }

  /** The loop from any session keeps the build state consistent. */
  lemma {:induction false} ConverseConsistent(api: nat -> Attempt<Reply>, world: nat -> World, s: Session)
    requires s.state.Consistent()
    ensures Converse(api, world, s).session.state.Consistent()
    decreases MaxIterations - s.iteration
  {
    if s.iteration < MaxIterations {
      StepConsistent(api, world, s);
      var step := NextStep(api, world, s);
      if step.Continue? {
        ConverseConsistent(api, world, step.next);
      }
    }
  }

  /**
   * The loop from any session completes only on a reply without tool
   * calls, which is the last message, while the build state is verified.
   */
  lemma {:induction false} ConverseCompletes(api: nat -> Attempt<Reply>, world: nat -> World, s: Session)
    ensures var f := Converse(api, world, s); var t := f.session;
      f.outcome == Completed ==>
        t.state.Verified() && t.transcript != [] &&
        t.transcript[|t.transcript| - 1].AssistantTurn? &&
        t.transcript[|t.transcript| - 1].reply.calls == []
    decreases MaxIterations - s.iteration
  {
    if s.iteration < MaxIterations {
      StepCompletes(api, world, s);
      var step := NextStep(api, world, s);
      if step.Continue? {
        ConverseCompletes(api, world, step.next);
      }
    }
  }

  /**
   * A task run from the start: it ends within 50 iterations and 150
   * attempts on the remote service, its transcript starts with the system
   * prompt and the task, and it is completed only with both build flags
   * set.
   */
  lemma TaskGate(api: nat -> Attempt<Reply>, world: nat -> World, task: string, guide: string, files: string)
    ensures var f := Converse(api, world, Start(task, guide, files));
      f.session.iteration <= MaxIterations &&
      f.session.apiCalls <= MaxRetries * MaxIterations &&
      Extends([SystemTurn(guide, files), UserTurn("TASK: " + task)], f.session.transcript) &&
      f.session.state.Consistent() &&
      (f.outcome == Completed ==> f.session.state.buildAttempted && f.session.state.buildPassed)
  {
    ConverseBounds(api, world, Start(task, guide, files));
    ConverseExtends(api, world, Start(task, guide, files));
    ConverseConsistent(api, world, Start(task, guide, files));
    ConverseCompletes(api, world, Start(task, guide, files));
  }

  /**
   * A reply without tool calls while the build is unverified is not the
   * end: exactly one corrective user message follows it and the loop goes
   * on with the next iteration.
   */
  lemma UnverifiedFinishIsCorrected(api: nat -> Attempt<Reply>, world: nat -> World, s: Session, reply: Reply)
    requires s.iteration < MaxIterations
    requires Retry(api, s.apiCalls).answer == Some(reply) && reply.calls == [] && !s.state.Verified()
    ensures var r := Retry(api, s.apiCalls);
      Converse(api, world, s) ==
      Converse(api, world, s.(iteration := s.iteration + 1, apiCalls := s.apiCalls + r.attempts,
                              sleeps := s.sleeps + r.delays,
                              transcript := s.transcript + [AssistantTurn(reply)] + [UserTurn(CorrectiveText)]))
  {
  }

  /** A call that does not raise: an unknown name, invalid JSON, or arguments that bind. */
  predicate Harmless(call: ToolCall) {
    match Lookup(call.name)
    case None => true
    case Some(tool) => call.arguments.Malformed? || (call.arguments.Object? && Binds(tool, call.arguments.fields))
  }

  lemma {:induction false} HarmlessCallsDoNotRaise(world: nat -> World, s: Session, calls: seq<ToolCall>)
    requires forall k | 0 <= k < |calls| :: Harmless(calls[k])
    ensures !RunCalls(world, s, calls).crashed
    decreases |calls|
  {
    if calls != [] {
      var call := calls[0];
      match Lookup(call.name)
      case None =>
        HarmlessCallsDoNotRaise(world, s, calls[1..]);
      case Some(tool) =>
        match call.arguments
        case Malformed(e) =>
          var message := ToolTurn(call.id, call.name, InvalidArgumentsPrefix + e);
          HarmlessCallsDoNotRaise(world, s.(transcript := s.transcript + [message]), calls[1..]);
        case Object(args) =>
          var effect := Execute(s.state, tool, args, world(s.executed));
          var message := ToolTurn(call.id, call.name, Truncate(effect.text));
          HarmlessCallsDoNotRaise(world, s.(state := effect.state, executed := s.executed + 1,
                                            transcript := s.transcript + [message]), calls[1..]);
    }
  }

  /**
   * A remote model that always answers and always requests tools, none of
   * which raises, makes the task fail on the iteration ceiling after
   * exactly `MaxIterations` iterations.
   */
  lemma {:induction false} BusyModelHitsCeiling(api: nat -> Attempt<Reply>, world: nat -> World, s: Session)
    requires s.iteration <= MaxIterations
    requires forall n :: api(n).Success? && api(n).value.calls != []
    requires forall n, k | 0 <= k < |api(n).value.calls| :: Harmless(api(n).value.calls[k])
    ensures Converse(api, world, s).outcome == IterationCeiling
    ensures Converse(api, world, s).session.iteration == MaxIterations
    decreases MaxIterations - s.iteration
  {
    if s.iteration < MaxIterations {
      var r := Retry(api, s.apiCalls);
      assert api(s.apiCalls).Success?;
      assert r.answer == Some(api(s.apiCalls).value);
      var reply := r.answer.value;
      var s2 := s.(iteration := s.iteration + 1, apiCalls := s.apiCalls + r.attempts,
                   sleeps := s.sleeps + r.delays, transcript := s.transcript + [AssistantTurn(reply)]);
      HarmlessCallsDoNotRaise(world, s2, reply.calls);
      BusyModelHitsCeiling(api, world, RunCalls(world, s2, reply.calls).session);
    }
  }

  /**
   * The tool calls of one reply, run on the build state and the transcript:
   * the `for tool_call in message.tool_calls` loop of `process_task`.
   */
  method RunToolCalls(bs: BuildState, world: nat -> World, calls: seq<ToolCall>, transcript: seq<Message>,
                      executed: nat, ghost iteration: nat, ghost apiCalls: nat, ghost sleeps: seq<nat>)
    returns (transcript': seq<Message>, executed': nat, crashed: bool)
    modifies bs
    ensures RunCalls(world, Session(old(bs.Snap()), transcript, iteration, apiCalls, executed, sleeps), calls)
      == Batch(Session(bs.Snap(), transcript', iteration, apiCalls, executed', sleeps), crashed)
  {
    ghost var entry := Session(bs.Snap(), transcript, iteration, apiCalls, executed, sleeps);
    transcript', executed', crashed := transcript, executed, false;
    var i := 0;
    while i < |calls|
      invariant 0 <= i <= |calls|
      invariant RunCalls(world, entry, calls) ==
        RunCalls(world, Session(bs.Snap(), transcript', iteration, apiCalls, executed', sleeps), calls[i..])
    {
      var call := calls[i];
      assert calls[i..][1..] == calls[i + 1..];
      var tool := Lookup(call.name);
      if tool.Some? {
        match call.arguments {
          case Malformed(e) =>
            transcript' := transcript' + [ToolTurn(call.id, call.name, InvalidArgumentsPrefix + e)];
          case NotAnObject =>
            crashed := true;
            return;
          case Object(args) =>
            if !Binds(tool.value, args) {
              crashed := true;
              return;
            }
            var response := Invoke(bs, tool.value, args, world(executed'));
            executed' := executed' + 1;
            transcript' := transcript' + [ToolTurn(call.id, call.name, Truncate(response))];
        }
      }
      i := i + 1;
    }
  }

  /** One iteration of the loop of `process_task`. */
  method Iterate(bs: BuildState, api: nat -> Attempt<Reply>, world: nat -> World,
                 transcript: seq<Message>, iteration: nat, apiCalls: nat, executed: nat, sleeps: seq<nat>)
    returns (done: bool, outcome: Outcome, transcript': seq<Message>, apiCalls': nat, executed': nat, sleeps': seq<nat>)
    modifies bs
    ensures var step := NextStep(api, world, Session(old(bs.Snap()), transcript, iteration, apiCalls, executed, sleeps));
      var t := Session(bs.Snap(), transcript', iteration + 1, apiCalls', executed', sleeps');
      step == if done then Done(Finish(outcome, t)) else Continue(t)
  {
    var answer, attempts, delays := CallApiWithRetry(api, apiCalls);
    apiCalls', sleeps', executed' := apiCalls + attempts, sleeps + delays, executed;
    outcome := ApiExhausted;
    if answer.None? {
      done, transcript' := true, transcript;
      return;
    }
    var reply := answer.value;
    transcript' := transcript + [AssistantTurn(reply)];
    if reply.calls != [] {
      var crashed;
      transcript', executed', crashed :=
        RunToolCalls(bs, world, reply.calls, transcript', executed', iteration + 1, apiCalls', sleeps');
      done := crashed;
      if crashed {
        outcome := Crashed;
      }
    } else if bs.IsVerified() || !RequireBuildVerification {
      done, outcome := true, Completed;
    } else {
      done, transcript' := false, transcript' + [UserTurn(CorrectiveText)];
    }
  }

  /** The loop of `process_task`, from a reset build state to the end of the task. */
  method Conduct(bs: BuildState, task: string, guide: string, files: string,
                 api: nat -> Attempt<Reply>, world: nat -> World)
    returns (outcome: Outcome, transcript: seq<Message>, iterations: nat, sleeps: seq<nat>)
    modifies bs
    ensures var f := Converse(api, world, Start(task, guide, files));
      outcome == f.outcome && transcript == f.session.transcript &&
      iterations == f.session.iteration && sleeps == f.session.sleeps && bs.Snap() == f.session.state
  {
    ghost var start := Start(task, guide, files);
    bs.Reset();
    transcript := [SystemTurn(guide, files), UserTurn("TASK: " + task)];
    var iteration, apiCalls, executed := 0, 0, 0;
    sleeps := [];
    while iteration < MaxIterations
      invariant iteration <= MaxIterations
      invariant Converse(api, world, start) ==
        Converse(api, world, Session(bs.Snap(), transcript, iteration, apiCalls, executed, sleeps))
    {
      ghost var current := Session(bs.Snap(), transcript, iteration, apiCalls, executed, sleeps);
      var done;
      done, outcome, transcript, apiCalls, executed, sleeps :=
        Iterate(bs, api, world, transcript, iteration, apiCalls, executed, sleeps);
      iteration := iteration + 1;
      ConverseUnfolds(api, world, current, done, outcome,
                      Session(bs.Snap(), transcript, iteration, apiCalls, executed, sleeps));
      if done {
        iterations := iteration;
        return;
      }
    }
    outcome, iterations := IterationCeiling, iteration;
  }

  /**
   * `process_task(task, architecture_guide, project_files)`: it computes
   * the loop `Converse` from the start of a task, and so reports success
   * only with the build attempted and passed.
   */
  method ProcessTask(bs: BuildState, task: string, guide: string, files: string,
                     api: nat -> Attempt<Reply>, world: nat -> World)
    returns (outcome: Outcome, transcript: seq<Message>, iterations: nat, sleeps: seq<nat>)
    modifies bs
    ensures var f := Converse(api, world, Start(task, guide, files));
      outcome == f.outcome && transcript == f.session.transcript &&
      iterations == f.session.iteration && sleeps == f.session.sleeps && bs.Snap() == f.session.state
    ensures outcome == Completed ==> bs.IsVerified() && bs.buildAttempted && bs.buildPassed
    ensures iterations <= MaxIterations && bs.Snap().Consistent()
  {
    outcome, transcript, iterations, sleeps := Conduct(bs, task, guide, files, api, world);
    TaskGate(api, world, task, guide, files);
  }
}
