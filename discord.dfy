/**
 * The logging sink of src/discord.rs: the write-once readiness gate held by
 * `Handler`, and `DiscordLogger`, whose `log` checks the gate, creates the
 * destination thread on first use (caching its id only on success), formats
 * the entry and sends it.
 *
 * The two platform calls are not executed: their answers arrive as a
 * `Replies` value, and the calls made are recorded in a ghost effect trace.
 * `LogStep` is the specification of one `log` call, `Run` folds it (and
 * `ready` events) over a sequence, and the class methods are proved against
 * both.
 */
module Discord {
  import opened Platform
  import opened Embeds

  /** The three ways `log` can fail. `NotReady` carries the text "The connection with Discord is not ready". */
  datatype LogError = NotReady | ThreadUnavailable(cause: ApiError) | DispatchFailed(cause: ApiError)

  /** The logger's fixed configuration: parent channel and thread name. */
  datatype Destination = Destination(channel: ChannelId, threadName: string)

  /** The request sent when the thread is created: one-week auto-archive, public thread. */
  function ThreadRequestFor(d: Destination): (q: ThreadRequest)
    ensures q.name == d.threadName && q.autoArchive == OneWeek && q.kind == PublicThread
  {
    ThreadRequest(d.threadName, OneWeek, PublicThread)
  }

  /** A call made to the platform, with the gateway context it went through. */
  datatype Effect =
    | CreateThread(via: Context, parent: ChannelId, request: ThreadRequest)
    | SendMessage(via: Context, thread: ChannelId, embed: Embed)

  /**
   * What the platform would answer one `log` call: the create-thread reply
   * (used only if no thread is cached), the send reply, and the clock.
   */
  datatype Replies = Replies(created: Result<ChannelId, ApiError>, sent: Result<(), ApiError>, now: Timestamp)

  /** The mutable state: the readiness gate and the memoised thread id. */
  datatype State = State(gate: Option<Context>, logThread: Option<ChannelId>)

  /** A fresh logger: empty gate, no thread. */
  const Initial := State(None, None)

  /** `OnceLock::set`: the first handle is kept, later ones are ignored. */
  function SetOnce(gate: Option<Context>, ctx: Context): (g: Option<Context>)
    ensures g.Some?
    ensures gate.Some? ==> g == gate
    ensures gate.None? ==> g == Some(ctx)
  {
    if gate.Some? then gate else Some(ctx)
  }

  /** The result of one `log` call: what it returns, the thread cache afterwards, and the calls it made. */
  datatype Step = Step(result: Result<(), LogError>, logThread: Option<ChannelId>, emitted: seq<Effect>)

  predicate IsCreate(e: Effect) { e.CreateThread? }
  predicate IsSend(e: Effect) { e.SendMessage? }

  /** One `log(role, message, context)` call made with the given gate and cache. */
  function LogStep(d: Destination, gate: Option<Context>, cached: Option<ChannelId>,
                   entry: LogEntry, replies: Replies): (s: Step)
    // Not ready: the error, and nothing is created, sent or cached.
    ensures gate.None? <==> s.result == Err(NotReady)
    ensures gate.None? ==> s.logThread == cached && s.emitted == []
    // A create request goes out exactly when the gate is set and no thread is cached;
    // it is the configured one, sent through the gate's context, and it comes first.
    ensures (exists i :: 0 <= i < |s.emitted| && IsCreate(s.emitted[i])) <==> gate.Some? && cached.None?
    ensures forall i :: 0 <= i < |s.emitted| && IsCreate(s.emitted[i]) ==>
              i == 0 && s.emitted[i] == CreateThread(gate.value, d.channel, ThreadRequestFor(d))
    // The cache is write-once, and only a successful creation fills it.
    ensures cached.Some? ==> s.logThread == cached
    ensures cached.None? && gate.Some? ==>
              s.logThread == (if replies.created.Ok? then Some(replies.created.value) else None)
    // A message is sent exactly when a thread is resolved; it is the last call and goes to that thread.
    ensures (exists i :: 0 <= i < |s.emitted| && IsSend(s.emitted[i])) <==> gate.Some? && s.logThread.Some?
    ensures forall i :: 0 <= i < |s.emitted| && IsSend(s.emitted[i]) ==>
              i == |s.emitted| - 1 && gate.Some? && s.logThread.Some?
              && s.emitted[i] == SendMessage(gate.value, s.logThread.value, BuildEmbed(entry, replies.now))
    // The result.
    ensures s.result.Ok? <==> gate.Some? && s.logThread.Some? && replies.sent.Ok?
    ensures s.result.Err? && s.result.error.ThreadUnavailable? <==>
              gate.Some? && cached.None? && replies.created.Err?
    ensures s.result.Err? && s.result.error.ThreadUnavailable? ==> s.result.error.cause == replies.created.error
    ensures s.result.Err? && s.result.error.DispatchFailed? <==>
              gate.Some? && s.logThread.Some? && replies.sent.Err?
    ensures s.result.Err? && s.result.error.DispatchFailed? ==> s.result.error.cause == replies.sent.error
  {
    match gate
    case None => Step(Err(NotReady), cached, [])
    case Some(ctx) =>
      var create := if cached.None? then [CreateThread(ctx, d.channel, ThreadRequestFor(d))] else [];
      var resolved := if cached.Some? then Ok(cached.value) else replies.created;
      match resolved
      case Err(e) =>
        assert IsCreate(create[0]);
        Step(Err(ThreadUnavailable(e)), cached, create)
      case Ok(thread) =>
        var emitted := create + [SendMessage(ctx, thread, BuildEmbed(entry, replies.now))];
        assert IsSend(emitted[|emitted| - 1]);
        assert cached.None? ==> IsCreate(emitted[0]);
        var result := if replies.sent.Ok? then Ok(()) else Err(DispatchFailed(replies.sent.error));
        Step(result, Some(thread), emitted)
  }

  /** What reaches the sink: a gateway `ready` notification or a `log` call. */
  datatype Event = Ready(ctx: Context) | Log(entry: LogEntry, replies: Replies)

  /** The state after a sequence of events, every call they made, and what each `log` returned. */
  datatype Outcome = Outcome(state: State, effects: seq<Effect>, results: seq<Result<(), LogError>>)

  function Apply(d: Destination, s: State, ev: Event): Outcome {
    match ev
    case Ready(ctx) => Outcome(State(SetOnce(s.gate, ctx), s.logThread), [], [])
    case Log(entry, replies) =>
      var step := LogStep(d, s.gate, s.logThread, entry, replies);
      Outcome(State(s.gate, step.logThread), step.emitted, [step.result])
  }

  function Run(d: Destination, s: State, events: seq<Event>): Outcome
    decreases |events|
  {
    if events == [] then Outcome(s, [], [])
    else
      var first := Apply(d, s, events[0]);
      var rest := Run(d, first.state, events[1..]);
      Outcome(rest.state, first.effects + rest.effects, first.results + rest.results)
  }

  /** The context of the first `ready` event, if any. */
  function FirstReady(events: seq<Event>): Option<Context> {
    if events == [] then None
    else if events[0].Ready? then Some(events[0].ctx)
    else FirstReady(events[1..])
  }

  /** Every `log` call in a run gets one result. */
  function LogCount(events: seq<Event>): nat {
    if events == [] then 0 else (if events[0].Log? then 1 else 0) + LogCount(events[1..])
  }

  /**
   * What a trace of calls and the state must agree on: every call went through
   * the handle in the gate, every create request is the configured one, every
   * message went to the cached thread, and no create follows a send.
   */
  ghost predicate Consistent(d: Destination, s: State, trace: seq<Effect>) {
    && (forall i :: 0 <= i < |trace| ==> s.gate == Some(trace[i].via))
    && (forall i :: 0 <= i < |trace| && IsCreate(trace[i]) ==>
          trace[i].parent == d.channel && trace[i].request == ThreadRequestFor(d))
    && (forall i :: 0 <= i < |trace| && IsSend(trace[i]) ==> s.logThread == Some(trace[i].thread))
    && (forall i, j :: 0 <= i < j < |trace| && IsSend(trace[i]) ==> IsSend(trace[j]))
  }

  lemma InitialConsistent(d: Destination)
    ensures Consistent(d, Initial, [])
  {
  }

  /** `ready` keeps a consistent trace consistent. */
  lemma ReadyKeepsConsistent(d: Destination, s: State, trace: seq<Effect>, ctx: Context)
    requires Consistent(d, s, trace)
    ensures Consistent(d, State(SetOnce(s.gate, ctx), s.logThread), trace)
  {
  }

  /** One `log` call keeps a consistent trace consistent. */
  lemma LogKeepsConsistent(d: Destination, s: State, trace: seq<Effect>, entry: LogEntry, replies: Replies)
    requires Consistent(d, s, trace)
    ensures var step := LogStep(d, s.gate, s.logThread, entry, replies);
            Consistent(d, State(s.gate, step.logThread), trace + step.emitted)
  {
  }

  /** Every step of a run keeps the trace consistent. */
  lemma {:induction false} RunKeepsConsistent(d: Destination, s: State, trace: seq<Effect>, events: seq<Event>)
    requires Consistent(d, s, trace)
    ensures var o := Run(d, s, events); Consistent(d, o.state, trace + o.effects)
    decreases |events|
  {
    if events != [] {
      var first := Apply(d, s, events[0]);
      if events[0].Ready? {
        ReadyKeepsConsistent(d, s, trace, events[0].ctx);
      } else {
        LogKeepsConsistent(d, s, trace, events[0].entry, events[0].replies);
      }
      RunKeepsConsistent(d, first.state, trace + first.effects, events[1..]);
      assert trace + first.effects + Run(d, first.state, events[1..]).effects == trace + Run(d, s, events).effects;
    }
  }

  /** The whole trace of a logger's lifetime is consistent. */
  lemma LifetimeConsistent(d: Destination, events: seq<Event>)
    ensures var o := Run(d, Initial, events); Consistent(d, o.state, o.effects)
  {
    RunKeepsConsistent(d, Initial, [], events);
    assert [] + Run(d, Initial, events).effects == Run(d, Initial, events).effects;
  }

  /** Write-once gate: after any events, the gate holds its old handle or else the first `ready` one. */
  lemma {:induction false} GateFirstWriterWins(d: Destination, s: State, events: seq<Event>)
    ensures Run(d, s, events).state.gate == (if s.gate.Some? then s.gate else FirstReady(events))
    decreases |events|
  {
    if events != [] {
      GateFirstWriterWins(d, Apply(d, s, events[0]).state, events[1..]);
    }
  }

  /** Before any `ready`, every `log` fails with `NotReady` and nothing reaches the platform. */
  lemma {:induction false} NotReadyRunIsInert(d: Destination, s: State, events: seq<Event>)
    requires s.gate.None?
    requires FirstReady(events).None?
    ensures var o := Run(d, s, events);
            o.state == s && o.effects == [] && |o.results| == LogCount(events)
            && forall k :: 0 <= k < |o.results| ==> o.results[k] == Err(NotReady)
    decreases |events|
  {
    if events != [] {
      NotReadyRunIsInert(d, Apply(d, s, events[0]).state, events[1..]);
    }
  }

  /** Once a thread id is cached it never changes, no create request is made, and every message goes to it. */
  lemma {:induction false} CachedThreadIsFinal(d: Destination, s: State, events: seq<Event>)
    requires s.logThread.Some?
    ensures var o := Run(d, s, events);
            o.state.logThread == s.logThread
            && forall i :: 0 <= i < |o.effects| ==>
                 IsSend(o.effects[i]) && o.effects[i].thread == s.logThread.value
    decreases |events|
  {
    if events != [] {
      var first := Apply(d, s, events[0]);
      if events[0].Log? {
        var e := first.effects;
        forall i | 0 <= i < |e| ensures IsSend(e[i]) && e[i].thread == s.logThread.value {
          if IsCreate(e[i]) {
            assert false;
          }
        }
      }
      CachedThreadIsFinal(d, first.state, events[1..]);
    }
  }

  /** A failed creation caches nothing, so the next `log` asks for the thread again. */
  lemma FailedCreationIsRetried(d: Destination, ctx: Context, first: LogEntry, r1: Replies,
                                second: LogEntry, r2: Replies)
    requires r1.created.Err?
    ensures var s1 := LogStep(d, Some(ctx), None, first, r1);
            s1.result == Err(ThreadUnavailable(r1.created.error)) && s1.logThread == None
            && (forall i :: 0 <= i < |s1.emitted| ==> !IsSend(s1.emitted[i]))
            && var s2 := LogStep(d, Some(ctx), s1.logThread, second, r2);
               |s2.emitted| > 0 && s2.emitted[0] == CreateThread(ctx, d.channel, ThreadRequestFor(d))
  {
  }

  /** The gate shared by the logger and the gateway client (`Handler.ctx`). */
  class Handler {
    var ctx: Option<Context>

    /** `Handler::default`: an empty gate. */
    constructor ()
      ensures ctx == None
    {
      ctx := None;
    }

    /** The `ready` event: `OnceLock::set`, with a refusal ignored. */
    method Ready(c: Context)
      modifies this
      ensures ctx == SetOnce(old(ctx), c)
    {
      if ctx.None? {
        ctx := Some(c);
      }
    }
  }

  class DiscordLogger {
    const logChannelId: ChannelId
    const logThreadName: string
    /** Clones of a `Handler` share one gate; here the client and the logger share this object. */
    const handler: Handler
    var logThread: Option<ChannelId>
    /** Every platform call made so far. */
    ghost var effects: seq<Effect>

    function Dest(): Destination {
      Destination(logChannelId, logThreadName)
    }

    ghost function Current(): State
      reads this, handler
    {
      State(handler.ctx, logThread)
    }

    ghost predicate Valid()
      reads this, handler
    {
      Consistent(Dest(), Current(), effects)
    }

    /** `DiscordLogger::new`: a fresh empty gate and no thread. */
    constructor (logChannelId: ChannelId, logThreadName: string)
      ensures this.logChannelId == logChannelId && this.logThreadName == logThreadName
      ensures fresh(handler) && Current() == Initial && effects == []
      ensures Valid()
    {
      this.logChannelId := logChannelId;
      this.logThreadName := logThreadName;
      handler := new Handler();
      logThread := None;
      effects := [];
    }

    /** `log`: gate check, thread resolution, formatting and dispatch. */
    method Log(role: string, message: string, context: Option<string>, replies: Replies)
      returns (r: Result<(), LogError>)
      requires Valid()
      modifies this
      ensures Valid()
      ensures var step := LogStep(Dest(), old(handler.ctx), old(logThread), LogEntry(role, message, context), replies);
              r == step.result && logThread == step.logThread && effects == old(effects) + step.emitted
    {
      ghost var s := Current();
      ghost var entry := LogEntry(role, message, context);
      LogKeepsConsistent(Dest(), s, effects, entry, replies);
      var ctx := handler.ctx;
      if ctx.None? {
        return Err(NotReady);
      }
      if logThread.None? {
        effects := effects + [CreateThread(ctx.value, logChannelId, ThreadRequest(logThreadName, OneWeek, PublicThread))];
        match replies.created
        case Err(e) =>
          return Err(ThreadUnavailable(e));
        case Ok(id) =>
          logThread := Some(id);
      }
      var thread := logThread.value;
      var embed := BuildEmbed(LogEntry(role, message, context), replies.now);
      effects := effects + [SendMessage(ctx.value, thread, embed)];
      if replies.sent.Err? {
        return Err(DispatchFailed(replies.sent.error));
      }
      return Ok(());
    }
  }

  lemma ShoutedRoles()
    ensures ToUpper("assistant") == "ASSISTANT" && ToUpper("human") == "HUMAN"
  {
  }

  /**
   * The end-to-end scenario: the gateway becomes ready, an assistant turn with
   * a context annotation creates the thread and is posted there, and a human
   * turn without one reuses the thread and carries no footer.
   */
  method Scenario(channel: ChannelId, name: string, ctx: Context, thread: ChannelId, t0: Timestamp)
    returns (first: Result<(), LogError>, second: Result<(), LogError>, ghost trace: seq<Effect>)
    ensures first == Ok(()) && second == Ok(())
    ensures trace == [
      CreateThread(ctx, channel, ThreadRequest(name, OneWeek, PublicThread)),
      SendMessage(ctx, thread, Embed(TitlePrefix + "ASSISTANT", "result: 42", AssistantColour, t0 + 1, Some("req-7"))),
      SendMessage(ctx, thread, Embed(TitlePrefix + "HUMAN", "ok", HumanColour, t0 + 2, None))]
  {
    var logger := new DiscordLogger(channel, name);
    ReadyKeepsConsistent(logger.Dest(), logger.Current(), logger.effects, ctx);
    logger.handler.Ready(ctx);
    assert logger.Current() == State(Some(ctx), None);
    first := logger.Log("assistant", "result: 42", Some("req-7"), Replies(Ok(thread), Ok(()), t0 + 1));
    assert logger.logThread == Some(thread);
    second := logger.Log("human", "ok", None, Replies(Err(ApiError("not asked")), Ok(()), t0 + 2));
    ShoutedRoles();
    trace := logger.effects;
  }
}
