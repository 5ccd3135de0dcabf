/**
 * Archie's chat-request orchestrator (src/services/claraApiService.ts).
 *
 * The orchestrator owns no algorithm of its own: it reconciles the requested
 * provider with the provider registry, prepares a request through delegated
 * services, hands it to exactly one of two executors (the autonomous agent or
 * the standard chat), and turns every failure after the provider switch into
 * a reply message. The delegated services are opaque here: their outcomes
 * during a chat request are inputs (`Services`). The calls that start each
 * preparation step, run an executor, post a notice, switch the provider,
 * stop, warm a model or touch the tool blacklist are recorded in a ghost
 * trace, so that their order, and the arguments of all but the three
 * preparation calls, can be stated.
 */
module ChatOrchestration {
  import opened Wrappers
  import opened Text

  datatype Provider = Provider(id: string, name: string, baseUrl: string, isEnabled: bool)

  /** A network client built by the registry for one provider; `serial` tells clients apart. */
  datatype Client = Client(providerId: string, serial: nat, hasAbortStream: bool)

  /**
   * The fields of the request configuration the orchestrator reads.
   * `provider` and `textModel` are absent when undefined; `autonomousEnabled`
   * is absent when `autonomousAgent` or its `enabled` flag is undefined.
   */
  datatype AIConfig = AIConfig(
    provider: Option<string>,
    textModel: Option<string>,
    temperature: real,
    autonomousEnabled: Option<bool>)

  /** A thrown JavaScript value: an `Error` instance, or anything else. */
  datatype Thrown = ErrorObject(name: string, message: string) | OtherValue

  /** The outcome of an awaited call: it resolves with a value or rejects with a thrown value. */
  datatype Step<T> = Done(value: T) | Raised(thrown: Thrown)

  datatype Role = User | Assistant

  /** The metadata fields of a message that this model reads or writes. */
  datatype Metadata = Metadata(
    model: Option<string>,
    temperature: Option<real>,
    aborted: Option<bool>,
    error: Option<string>,
    agentSteps: Option<nat>,
    toolsUsed: Option<seq<string>>)

  datatype Message = Message(id: string, role: Role, content: string, metadata: Option<Metadata>)

  /**
   * What the delegated services do when called during one request: the
   * attachment processor, the model selector (selection and prefix
   * stripping), the tool registry, the streaming policy for tools, and the
   * two executors.
   */
  datatype Services = Services(
    attachments: Step<seq<string>>,
    model: Step<string>,
    tools: Step<seq<string>>,
    disableStreaming: bool,
    agent: Step<Message>,
    chat: Step<Message>)

  datatype NoticeKind = Info | Completion

  /** A call from the orchestrator to a delegated service. */
  datatype Call =
    | SwitchProvider(provider: Provider)
    | ProcessAttachments
    | SelectModel
    | ListTools
    | Notify(kind: NoticeKind, title: string, text: string)
    | RunAgent(client: Client, model: string, message: string, tools: seq<string>,
               attachments: seq<string>, providerId: Option<string>)
    | RunChat(client: Client, model: string, message: string, tools: seq<string>,
              attachments: seq<string>, providerId: Option<string>, disableStreaming: bool)
    | StopAgent
    | AbortStream(client: Client)
    | WarmModel(client: Client, model: string)
    | RecordSuccess(tool: string, description: string, attributedTo: string, callId: Option<string>)
    | ClearBlacklist(forProvider: string, client: Client)

  const NoClientError := ErrorObject("Error", "No API client configured. Please select a provider.")
  const Apology := "I apologize, but I encountered an error while processing your request. Please try again."
  const StoppedByUser := "Stream was stopped by user"
  const AutonomousTitle := "Autonomous Mode Activated"
  const AutonomousText := "Archie is now operating in autonomous mode."
  const AgentCompleteTitle := "Autonomous Agent Complete"

  // ---------------------------------------------------------------------------
  // Provider reconciliation (ensureCorrectProvider)
  // ---------------------------------------------------------------------------

  /** `config.provider` is truthy: defined and not empty. */
  predicate Requested(config: AIConfig)
  {
    config.provider.Some? && config.provider.value != ""
  }

  /** `getCurrentProvider()?.id`. */
  function ProviderId(current: Option<Provider>): Option<string>
  {
    if current.Some? then Some(current.value.id) else None
  }

  /** `providers.find(p => p.id === id)`, as a position: the first provider with that id, or -1. */
  function FirstWithId(providers: seq<Provider>, id: string): (i: int)
    ensures -1 <= i < |providers|
    ensures i == -1 <==> forall p :: p in providers ==> p.id != id
    ensures i >= 0 ==> providers[i].id == id && forall j :: 0 <= j < i ==> providers[j].id != id
  {
    if providers == [] then -1
    else if providers[0].id == id then 0
    else
      var j := FirstWithId(providers[1..], id);
      if j == -1 then
        assert forall p :: p in providers ==> p == providers[0] || p in providers[1..];
        -1
      else j + 1
  }

  /** Position `i` holds the first provider registered under `id`. */
  ghost predicate IsFirstWithId(providers: seq<Provider>, id: string, i: int)
  {
    0 <= i < |providers| && providers[i].id == id && forall j :: 0 <= j < i ==> providers[j].id != id
  }

  function SwitchErrorPrefix(id: string): string
  {
    "Failed to switch to provider " + id + ": "
  }

  /** The error `ensureCorrectProvider`'s catch block throws for whatever the switch raised. */
  function WrapSwitchError(id: string, inner: Thrown): (e: Thrown)
    ensures e.ErrorObject? && SwitchErrorPrefix(id) <= e.message
  {
    var reason := if inner.ErrorObject? then inner.message else "Unknown error";
    var e := ErrorObject("Error", SwitchErrorPrefix(id) + reason);
    assert e.message[..|SwitchErrorPrefix(id)|] == SwitchErrorPrefix(id);
    e
  }

  datatype Reconciliation = Stay | SwitchTo(provider: Provider) | SwitchFailed(error: Thrown)

  /** The decision `ensureCorrectProvider` takes for a request. */
  function Reconcile(config: AIConfig, current: Option<Provider>, providers: seq<Provider>): (r: Reconciliation)
    ensures r.Stay? <==> !Requested(config) || (current.Some? && current.value.id == config.provider.value)
    ensures r.SwitchTo? ==>
      && r.provider in providers
      && r.provider.id == config.provider.value
      && r.provider.isEnabled
      && ProviderId(current) != Some(r.provider.id)
    ensures r.SwitchFailed? ==> r.error.ErrorObject? && SwitchErrorPrefix(config.provider.value) <= r.error.message
  {
    if !Requested(config) then Stay
    else
      var id := config.provider.value;
      if current.Some? && current.value.id == id then Stay
      else
        var i := FirstWithId(providers, id);
        if i == -1 then
          SwitchFailed(WrapSwitchError(id, ErrorObject("Error", "Provider " + id + " not found or not configured")))
        else if !providers[i].isEnabled then
          SwitchFailed(WrapSwitchError(id, ErrorObject("Error", "Provider " + providers[i].name + " is not enabled")))
        else SwitchTo(providers[i])
  }

  /** A request for an unregistered provider other than the current one fails with "not found". */
  lemma ReconcileMissing(config: AIConfig, current: Option<Provider>, providers: seq<Provider>)
    requires Requested(config) && ProviderId(current) != config.provider
    requires forall p :: p in providers ==> p.id != config.provider.value
    ensures var id := config.provider.value;
      Reconcile(config, current, providers) ==
      SwitchFailed(ErrorObject("Error", SwitchErrorPrefix(id) + "Provider " + id + " not found or not configured"))
  {
  }

  /**
   * A request for a registered provider other than the current one switches
   * to the first provider registered under that id when it is enabled, and
   * fails with "not enabled" when it is not.
   */
  lemma ReconcileFound(config: AIConfig, current: Option<Provider>, providers: seq<Provider>, i: int)
    requires Requested(config) && ProviderId(current) != config.provider
    requires IsFirstWithId(providers, config.provider.value, i)
    ensures var id := config.provider.value;
      Reconcile(config, current, providers) ==
      if providers[i].isEnabled then SwitchTo(providers[i])
      else SwitchFailed(ErrorObject("Error", SwitchErrorPrefix(id) + "Provider " + providers[i].name + " is not enabled"))
  {
  }

  /** The calls the switch makes on the registry. */
  function SwitchCalls(d: Reconciliation): seq<Call>
  {
    if d.SwitchTo? then [SwitchProvider(d.provider)] else []
  }

  // ---------------------------------------------------------------------------
  // Failure classification and reply messages
  // ---------------------------------------------------------------------------

  /** The abort test of the catch block. */
  predicate IsAbortError(t: Thrown)
  {
    && t.ErrorObject?
    && (|| Contains(t.message, "aborted")
        || Contains(t.message, "BodyStreamBuffer was aborted")
        || Contains(t.message, "AbortError")
        || t.name == "AbortError")
  }

  /**
   * A failure is an abort exactly when it is an `Error` whose message
   * contains "aborted" or "AbortError" or whose name is "AbortError"; the
   * "BodyStreamBuffer was aborted" test adds nothing.
   */
  lemma AbortSignature(t: Thrown)
    ensures IsAbortError(t) <==>
      t.ErrorObject? && (Contains(t.message, "aborted") || Contains(t.message, "AbortError") || t.name == "AbortError")
  {
    if t.ErrorObject? && Contains(t.message, "BodyStreamBuffer was aborted") {
      assert "BodyStreamBuffer was " + "aborted" == "BodyStreamBuffer was aborted";
      ContainsSuffixPart(t.message, "BodyStreamBuffer was ", "aborted");
    }
  }

  /** `${config.provider}` of a template literal. */
  function ProviderText(provider: Option<string>): string
  {
    provider.GetOr("undefined")
  }

  /** `config.models.text` is truthy. */
  predicate HasTextModel(config: AIConfig)
  {
    config.textModel.Some? && config.textModel.value != ""
  }

  /** `config.models.text || 'unknown'`. */
  function ModelText(textModel: Option<string>): string
  {
    if textModel.Some? && textModel.value != "" then textModel.value else "unknown"
  }

  /** The message the catch block returns for a thrown value; `now` is the value of `Date.now()`. */
  function FailureReply(t: Thrown, config: AIConfig, now: nat): (m: Message)
    ensures m.role == Assistant && m.metadata.Some?
    ensures m.content == "" <==> IsAbortError(t)
    ensures IsAbortError(t) ==>
      && EndsWith(m.id, "-aborted")
      && m.metadata.value.aborted == Some(true)
      && m.metadata.value.error == Some(StoppedByUser)
      && m.metadata.value.model == Some(ProviderText(config.provider) + ":" + ModelText(config.textModel))
      && m.metadata.value.temperature == Some(config.temperature)
    ensures !IsAbortError(t) ==>
      && EndsWith(m.id, "-error")
      && m.content == Apology
      && m.metadata.value.aborted == None
      && m.metadata.value.error == Some(if t.ErrorObject? then t.message else "Unknown error occurred")
  {
    if IsAbortError(t) then
      var id := NatToString(now) + "-aborted";
      assert id[|id| - 8..] == "-aborted";
      Message(id, Assistant, "", Some(Metadata(
        Some(ProviderText(config.provider) + ":" + ModelText(config.textModel)),
        Some(config.temperature), Some(true), Some(StoppedByUser), None, None)))
    else
      var id := NatToString(now) + "-error";
      assert id[|id| - 6..] == "-error";
      Message(id, Assistant, Apology, Some(Metadata(
        None, None, None, Some(if t.ErrorObject? then t.message else "Unknown error occurred"), None, None)))
  }

  // ---------------------------------------------------------------------------
  // The completion notification of the autonomous branch
  // ---------------------------------------------------------------------------

  /** `result.metadata?.agentSteps || 1`. */
  function StepCount(metadata: Option<Metadata>): nat
  {
    if metadata.Some? && metadata.value.agentSteps.Some? && metadata.value.agentSteps.value != 0
    then metadata.value.agentSteps.value else 1
  }

  /** `(result.metadata?.toolsUsed || []).length`. */
  function ToolCount(metadata: Option<Metadata>): nat
  {
    if metadata.Some? && metadata.value.toolsUsed.Some? then |metadata.value.toolsUsed.value| else 0
  }

  const CompletedPrefix := "Completed in "

  function CompletionText(metadata: Option<Metadata>): string
  {
    var tools := ToolCount(metadata);
    CompletedPrefix + NatToString(StepCount(metadata)) + " steps"
      + (if tools > 0 then " using " + NatToString(tools) + " tools" else "") + "."
  }

  /** Reads a completion text back into its step and tool counts. */
  function ParseCompletionText(t: string): Option<(nat, nat)>
  {
    if !(CompletedPrefix <= t) then None
    else match ReadNat(t[|CompletedPrefix|..])
      case None => None
      case Some((steps, rest)) =>
        if !(" steps" <= rest) then None
        else
          var tail := rest[6..];
          if tail == "." then Some((steps, 0))
          else if !(" using " <= tail) then None
          else match ReadNat(tail[7..])
            case None => None
            case Some((tools, last)) => if last == " tools." then Some((steps, tools)) else None
  }

  /** The completion text reports the step count and the tool count it was built from. */
  lemma CompletionTextRoundTrip(metadata: Option<Metadata>)
    ensures ParseCompletionText(CompletionText(metadata)) == Some((StepCount(metadata), ToolCount(metadata)))
  {
    var steps, tools := StepCount(metadata), ToolCount(metadata);
    var tail := (if tools > 0 then " using " + NatToString(tools) + " tools" else "") + ".";
    var t := CompletionText(metadata);
    assert t == CompletedPrefix + (NatToString(steps) + (" steps" + tail));
    assert t[|CompletedPrefix|..] == NatToString(steps) + (" steps" + tail);
    ReadNatOfRendered(steps, " steps" + tail);
    assert (" steps" + tail)[6..] == tail;
    if tools > 0 {
      assert tail == " using " + (NatToString(tools) + " tools.");
      assert tail[7..] == NatToString(tools) + " tools.";
      ReadNatOfRendered(tools, " tools.");
    }
  }

  /** Missing or zero step counts read as one step; missing tool lists as no tools. */
  lemma CompletionDefaults(metadata: Option<Metadata>)
    ensures StepCount(metadata) >= 1
    ensures metadata.None? || metadata.value.agentSteps in {None, Some(0)} ==> StepCount(metadata) == 1
    ensures metadata.None? || metadata.value.toolsUsed.None? ==> ToolCount(metadata) == 0
  {
  }

  /** The tool clause is present exactly when at least one tool was used. */
  lemma CompletionMentionsTools(metadata: Option<Metadata>)
    ensures EndsWith(CompletionText(metadata), " tools.") <==> ToolCount(metadata) > 0
  {
    var t := CompletionText(metadata);
    var tools := ToolCount(metadata);
    var head := CompletedPrefix + NatToString(StepCount(metadata));
    if tools > 0 {
      assert t == (head + " steps using " + NatToString(tools)) + " tools.";
    } else {
      assert t == head + " steps.";
      assert t[|t| - 6] == 's';
    }
  }

  // ---------------------------------------------------------------------------
  // The body of sendChatMessage after the provider switch
  // ---------------------------------------------------------------------------

  /** `config.autonomousAgent?.enabled !== false`. */
  predicate IsAutonomous(config: AIConfig)
  {
    config.autonomousEnabled != Some(false)
  }

  /** The steps before dispatch all resolved. */
  predicate Prepared(env: Services)
  {
    env.attachments.Done? && env.model.Done? && env.tools.Done?
  }

  datatype Outcome = Outcome(reply: Message, calls: seq<Call>)

  /**
   * The try block of `sendChatMessage` and its catch: the reply and the
   * calls made, for the client read before the switch and the provider id
   * read after it.
   */
  function Dispatch(client: Client, providerId: Option<string>, message: string,
                    config: AIConfig, env: Services, now: nat): Outcome
  {
    match env.attachments
    case Raised(t) => Outcome(FailureReply(t, config, now), [ProcessAttachments])
    case Done(attachments) =>
      match env.model
      case Raised(t) => Outcome(FailureReply(t, config, now), [ProcessAttachments, SelectModel])
      case Done(model) =>
        match env.tools
        case Raised(t) => Outcome(FailureReply(t, config, now), [ProcessAttachments, SelectModel, ListTools])
        case Done(tools) =>
          var run := Execute(client, providerId, message, config, env, attachments, model, tools, now);
          Outcome(run.reply, [ProcessAttachments, SelectModel, ListTools] + run.calls)
  }

  /** The dispatch to one executor once attachments, model and tools are ready. */
  function Execute(client: Client, providerId: Option<string>, message: string, config: AIConfig,
                   env: Services, attachments: seq<string>, model: string, tools: seq<string>, now: nat): Outcome
  {
    if IsAutonomous(config) then
      var started := [Notify(Info, AutonomousTitle, AutonomousText),
                      RunAgent(client, model, message, tools, attachments, providerId)];
      match env.agent
      case Raised(t) => Outcome(FailureReply(t, config, now), started)
      case Done(result) =>
        Outcome(result, started + [Notify(Completion, AgentCompleteTitle, CompletionText(result.metadata))])
    else
      var started := [RunChat(client, model, message, tools, attachments, providerId, env.disableStreaming)];
      match env.chat
      case Raised(t) => Outcome(FailureReply(t, config, now), started)
      case Done(result) => Outcome(result, started)
  }

  /** The executor calls among a sequence of calls, in order. */
  function ExecutorCalls(calls: seq<Call>): seq<Call>
  {
    if calls == [] then []
    else (if calls[0].RunAgent? || calls[0].RunChat? then [calls[0]] else []) + ExecutorCalls(calls[1..])
  }

  lemma {:induction false} ExecutorCallsAppend(a: seq<Call>, b: seq<Call>)
    ensures ExecutorCalls(a + b) == ExecutorCalls(a) + ExecutorCalls(b)
  {
    if a != [] {
      assert (a + b)[0] == a[0];
      assert (a + b)[1..] == a[1..] + b;
      ExecutorCallsAppend(a[1..], b);
    } else {
      assert a + b == b;
    }
  }

  /**
   * Exactly one executor runs once the request is prepared, and none
   * otherwise: the agent executor when autonomous mode is on, the chat
   * executor when it is off; either receives the client it was given.
   */
  lemma DispatchRunsOneExecutor(client: Client, providerId: Option<string>, message: string,
                                config: AIConfig, env: Services, now: nat)
    ensures var runs := ExecutorCalls(Dispatch(client, providerId, message, config, env, now).calls);
      && (!Prepared(env) ==> runs == [])
      && (Prepared(env) ==>
            && runs == [if IsAutonomous(config)
                        then RunAgent(client, env.model.value, message, env.tools.value, env.attachments.value, providerId)
                        else RunChat(client, env.model.value, message, env.tools.value, env.attachments.value,
                                     providerId, env.disableStreaming)])
  {
    var prepared := [ProcessAttachments, SelectModel, ListTools];
    assert ExecutorCalls(prepared) == [] by {
      assert prepared[1..] == [SelectModel, ListTools];
      assert prepared[1..][1..] == [ListTools];
      assert prepared[1..][1..][1..] == [];
    }
    if !Prepared(env) {
      assert ExecutorCalls([ListTools]) == [];
      assert ExecutorCalls([SelectModel, ListTools]) == [];
      assert [SelectModel, ListTools][1..] == [ListTools];
      assert [ProcessAttachments, SelectModel][1..] == [SelectModel];
      assert [ProcessAttachments][1..] == [];
    } else {
      var run := Execute(client, providerId, message, config, env, env.attachments.value,
                         env.model.value, env.tools.value, now);
      ExecutorCallsAppend(prepared, run.calls);
      ExecuteRunsOneExecutor(client, providerId, message, config, env, env.attachments.value,
                             env.model.value, env.tools.value, now);
    }
  }

  lemma ExecuteRunsOneExecutor(client: Client, providerId: Option<string>, message: string, config: AIConfig,
                               env: Services, attachments: seq<string>, model: string, tools: seq<string>, now: nat)
    ensures ExecutorCalls(Execute(client, providerId, message, config, env, attachments, model, tools, now).calls) ==
      [if IsAutonomous(config)
       then RunAgent(client, model, message, tools, attachments, providerId)
       else RunChat(client, model, message, tools, attachments, providerId, env.disableStreaming)]
  {
    if IsAutonomous(config) {
      var run := RunAgent(client, model, message, tools, attachments, providerId);
      var notice := Notify(Info, AutonomousTitle, AutonomousText);
      assert [notice, run][1..] == [run];
      assert ExecutorCalls([run]) == [run] by { assert [run][1..] == []; }
      if env.agent.Done? {
        var done := Notify(Completion, AgentCompleteTitle, CompletionText(env.agent.value.metadata));
        ExecutorCallsAppend([notice, run], [done]);
        assert [done][1..] == [];
      }
    } else {
      var run := RunChat(client, model, message, tools, attachments, providerId, env.disableStreaming);
      assert [run][1..] == [];
    }
  }

  /** The message a successful executor returns is the reply, unchanged. */
  lemma DispatchReturnsResult(client: Client, providerId: Option<string>, message: string,
                              config: AIConfig, env: Services, now: nat)
    requires Prepared(env)
    ensures var out := Dispatch(client, providerId, message, config, env, now);
      && (IsAutonomous(config) && env.agent.Done? ==> out.reply == env.agent.value)
      && (!IsAutonomous(config) && env.chat.Done? ==> out.reply == env.chat.value)
  {
  }

  /** The first failure of the request, in the order the steps run. */
  function FirstFailure(config: AIConfig, env: Services): Option<Thrown>
  {
    if env.attachments.Raised? then Some(env.attachments.thrown)
    else if env.model.Raised? then Some(env.model.thrown)
    else if env.tools.Raised? then Some(env.tools.thrown)
    else if IsAutonomous(config) && env.agent.Raised? then Some(env.agent.thrown)
    else if !IsAutonomous(config) && env.chat.Raised? then Some(env.chat.thrown)
    else None
  }

  /**
   * Every failure after the switch is caught: the reply is the failure
   * reply of the first failure, and a completion notice is issued exactly
   * when the agent executor succeeded, as the last call, with its counts.
   */
  lemma DispatchCatchesFailures(client: Client, providerId: Option<string>, message: string,
                                config: AIConfig, env: Services, now: nat)
    ensures var out := Dispatch(client, providerId, message, config, env, now);
      && (FirstFailure(config, env).Some? ==>
            out.reply == FailureReply(FirstFailure(config, env).value, config, now))
      && (out.calls[|out.calls| - 1].Notify? && out.calls[|out.calls| - 1].kind == Completion <==>
            Prepared(env) && IsAutonomous(config) && env.agent.Done?)
      && (Prepared(env) && IsAutonomous(config) && env.agent.Done? ==>
            out.calls[|out.calls| - 1].text == CompletionText(env.agent.value.metadata))
  {
  }

  // ---------------------------------------------------------------------------
  // The provider registry and the orchestrator
  // ---------------------------------------------------------------------------

  /**
   * The provider service's state: the registered providers, the current
   * provider and its client. Switching builds a new client.
   */
  class ProviderRegistry {
    var providers: seq<Provider>
    var current: Option<Provider>
    var client: Option<Client>
    var clientsBuilt: nat
    /** Whether the clients this registry builds can abort a stream. */
    const abortableClients: bool

    ghost predicate Valid()
      reads this
    {
      client.Some? ==> client.value.serial < clientsBuilt
    }

    constructor (providers: seq<Provider>, abortableClients: bool)
      ensures Valid()
      ensures this.providers == providers && this.abortableClients == abortableClients
      ensures current == None && client == None && clientsBuilt == 0
    {
      this.providers := providers;
      this.abortableClients := abortableClients;
      current := None;
      client := None;
      clientsBuilt := 0;
    }

    /** `updateProvider`: makes the provider current and builds a client for it. */
    method UpdateProvider(provider: Provider)
      requires Valid()
      modifies this
      ensures Valid()
      ensures providers == old(providers) && clientsBuilt == old(clientsBuilt) + 1
      ensures current == Some(provider)
      ensures client == Some(Client(provider.id, old(clientsBuilt), abortableClients))
    {
      current := Some(provider);
      client := Some(Client(provider.id, clientsBuilt, abortableClients));
      clientsBuilt := clientsBuilt + 1;
    }
  }

  class ArchieApiService {
    /** Written by `stop` and read nowhere. */
    var stopExecution: bool
    const registry: ProviderRegistry
    /** Every call made to a delegated service, in order. */
    ghost var trace: seq<Call>

    ghost predicate Valid()
      reads this, registry
    {
      registry.Valid()
    }

    constructor (registry: ProviderRegistry)
      requires registry.Valid()
      ensures Valid() && this.registry == registry && !stopExecution && trace == []
    {
      stopExecution := false;
      this.registry := registry;
      trace := [];
    }

    /** `ensureCorrectProvider`: carries out `Reconcile` on the registry. */
    method EnsureCorrectProvider(config: AIConfig) returns (failure: Option<Thrown>)
      requires Valid()
      modifies registry, this`trace
      ensures Valid()
      ensures var d := Reconcile(config, old(registry.current), old(registry.providers));
        && failure == (if d.SwitchFailed? then Some(d.error) else None)
        && registry.providers == old(registry.providers)
        && trace == old(trace) + SwitchCalls(d)
        && (d.SwitchTo? ==>
              && registry.current == Some(d.provider)
              && registry.client == Some(Client(d.provider.id, old(registry.clientsBuilt), registry.abortableClients)))
        && (!d.SwitchTo? ==> registry.current == old(registry.current) && registry.client == old(registry.client))
    {
      failure := None;
      var current := registry.current;
      if Requested(config) && (current.None? || current.value.id != config.provider.value) {
        var id := config.provider.value;
        var providers := registry.providers;
        var i := FirstWithId(providers, id);
        if i == -1 {
          failure := Some(WrapSwitchError(id, ErrorObject("Error", "Provider " + id + " not found or not configured")));
        } else if !providers[i].isEnabled {
          failure := Some(WrapSwitchError(id, ErrorObject("Error", "Provider " + providers[i].name + " is not enabled")));
        } else {
          registry.UpdateProvider(providers[i]);
          trace := trace + [SwitchProvider(providers[i])];
        }
      }
    }

    /**
     * `sendChatMessage`: throws when no client is configured or the switch
     * fails; otherwise returns the reply of `Dispatch` for the client read
     * before the switch.
     */
    method SendChatMessage(message: string, config: AIConfig, env: Services, now: nat) returns (r: Step<Message>)
      requires Valid()
      modifies registry, this`trace
      ensures Valid()
      ensures registry.providers == old(registry.providers)
      ensures old(registry.client).None? ==>
        && r == Raised(NoClientError)
        && registry.current == old(registry.current) && registry.client == old(registry.client)
        && trace == old(trace)
      ensures old(registry.client).Some? ==>
        var d := Reconcile(config, old(registry.current), old(registry.providers));
        if d.SwitchFailed? then
          && r == Raised(d.error)
          && registry.current == old(registry.current) && registry.client == old(registry.client)
          && trace == old(trace)
        else
          var out := Dispatch(old(registry.client).value, ProviderId(registry.current), message, config, env, now);
          && registry.current == (if d.SwitchTo? then Some(d.provider) else old(registry.current))
          && registry.client ==
             (if d.SwitchTo? then Some(Client(d.provider.id, old(registry.clientsBuilt), registry.abortableClients))
              else old(registry.client))
          && (d.SwitchTo? ==> registry.client != old(registry.client))
          && r == Done(out.reply)
          && trace == old(trace) + SwitchCalls(d) + out.calls
    {
      var client := registry.client;
      if client.None? {
        r := Raised(NoClientError);
        return;
      }
      var switchFailure := EnsureCorrectProvider(config);
      if switchFailure.Some? {
        r := Raised(switchFailure.value);
        return;
      }
      var reply := RunRequest(client.value, ProviderId(registry.current), message, config, env, now);
      r := Done(reply);
    }

    /** The try block of `sendChatMessage` and its catch block. */
    method RunRequest(client: Client, providerId: Option<string>, message: string,
                      config: AIConfig, env: Services, now: nat) returns (reply: Message)
      modifies this`trace
      ensures var out := Dispatch(client, providerId, message, config, env, now);
        reply == out.reply && trace == old(trace) + out.calls
    {
      var caught: Option<Thrown> := None;
      reply := FailureReply(OtherValue, config, now);
      trace := trace + [ProcessAttachments];
      match env.attachments {
        case Raised(t) => caught := Some(t);
        case Done(attachments) =>
          trace := trace + [SelectModel];
          match env.model {
            case Raised(t) => caught := Some(t);
            case Done(model) =>
              trace := trace + [ListTools];
              match env.tools {
                case Raised(t) => caught := Some(t);
                case Done(tools) =>
                  reply := RunExecutor(client, providerId, message, config, env, attachments, model, tools, now);
              }
          }
      }
      if caught.Some? {
        reply := FailureReply(caught.value, config, now);
      }
    }

    /** The dispatch to the agent executor or the standard chat executor, and the catch block. */
    method RunExecutor(client: Client, providerId: Option<string>, message: string, config: AIConfig,
                       env: Services, attachments: seq<string>, model: string, tools: seq<string>, now: nat)
      returns (reply: Message)
      modifies this`trace
      ensures var run := Execute(client, providerId, message, config, env, attachments, model, tools, now);
        reply == run.reply && trace == old(trace) + run.calls
    {
      var caught: Option<Thrown> := None;
      reply := FailureReply(OtherValue, config, now);
      if IsAutonomous(config) {
        trace := trace + [Notify(Info, AutonomousTitle, AutonomousText)];
        trace := trace + [RunAgent(client, model, message, tools, attachments, providerId)];
        match env.agent {
          case Raised(t) => caught := Some(t);
          case Done(result) =>
            trace := trace + [Notify(Completion, AgentCompleteTitle, CompletionText(result.metadata))];
            reply := result;
        }
      } else {
        trace := trace + [RunChat(client, model, message, tools, attachments, providerId, env.disableStreaming)];
        match env.chat {
          case Raised(t) => caught := Some(t);
          case Done(result) => reply := result;
        }
      }
      if caught.Some? {
        reply := FailureReply(caught.value, config, now);
      }
    }

    /** `stop`: sets the flag, stops the agent, and aborts the client's stream when it can. */
    method Stop()
      modifies this`stopExecution, this`trace
      ensures stopExecution
      ensures trace == old(trace) + [StopAgent] +
        (if registry.client.Some? && registry.client.value.hasAbortStream then [AbortStream(registry.client.value)] else [])
    {
      stopExecution := true;
      trace := trace + [StopAgent];
      var client := registry.client;
      if client.Some? {
        if client.value.hasAbortStream {
          trace := trace + [AbortStream(client.value)];
        }
      }
    }

    /**
     * `preloadModel`: only with a client, a configured text model and a
     * local provider (`isLocal`, decided by the model service) does it
     * select a model and ask the chat service to warm it.
     */
    method PreloadModel(config: AIConfig, isLocal: bool, model: Step<string>, warm: Step<()>) returns (r: Step<()>)
      modifies this`trace
      ensures registry.client.None? || !HasTextModel(config) || !isLocal ==>
        r == Done(()) && trace == old(trace)
      ensures registry.client.Some? && HasTextModel(config) && isLocal ==>
        if model.Raised? then r == Raised(model.thrown) && trace == old(trace) + [SelectModel]
        else r == warm && trace == old(trace) + [SelectModel, WarmModel(registry.client.value, model.value)]
    {
      var client := registry.client;
      if client.None? || !HasTextModel(config) {
        return Done(());
      }
      if !isLocal {
        return Done(());
      }
      trace := trace + [SelectModel];
      match model {
        case Raised(t) => r := Raised(t);
        case Done(modelId) =>
          trace := trace + [WarmModel(client.value, modelId)];
          r := warm;
      }
    }

    /** `recordToolSuccess`: attributes the success to the current provider, or to "unknown". */
    method RecordToolSuccess(toolName: string, toolDescription: string, toolCallId: Option<string>)
      modifies this`trace
      ensures var current := registry.current;
        var providerId := if current.Some? && current.value.id != "" then current.value.id else "unknown";
        trace == old(trace) + [RecordSuccess(toolName, toolDescription, providerId, toolCallId)]
    {
      var current := registry.current;
      var providerId := if current.Some? && current.value.id != "" then current.value.id else "unknown";
      trace := trace + [RecordSuccess(toolName, toolDescription, providerId, toolCallId)];
    }

    /** `clearBlacklistedTools`: only with a current provider and a client; then announces it. */
    method ClearBlacklistedTools()
      modifies this`trace
      ensures registry.current.None? || registry.client.None? ==> trace == old(trace)
      ensures registry.current.Some? && registry.client.Some? ==>
        trace == old(trace) + [
          ClearBlacklist(registry.current.value.id, registry.client.value),
          Notify(Info, "Tools Reset", "Cleared incorrectly blacklisted tools for " + registry.current.value.name + ".")]
    {
      var current := registry.current;
      var client := registry.client;
      if current.Some? && client.Some? {
        trace := trace + [ClearBlacklist(current.value.id, client.value)];
        trace := trace + [Notify(Info, "Tools Reset", "Cleared incorrectly blacklisted tools for " + current.value.name + ".")];
      }
    }
  }
}
