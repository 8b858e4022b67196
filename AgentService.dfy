/** The simulated agent back end (hugai-hub/services/mockAgentService.ts): one
    entry point that dispatches on the scheme's mode to one of three fixed
    scripts (a supervisor-routed team, a three-stage workflow, a plan/act
    loop). Each script emits progress steps and ends with a final answer.

    The step sink `onStep` becomes the returned `trace`: the steps in the
    order the script emits them. The ids that `generateId` draws at random
    are supplied by the caller, in the order the script asks for them. Every
    `Date.now()` of one run is the single instant `now`. The latency
    placeholders carry no logic and are not modelled. */
module AgentService {
  import opened Types
  import opened Text
  import opened StepLedger

  // ---------------------------------------------------------------------
  // Keyword routing

  /** The markers that send a team-mode request to the search worker. */
  predicate SearchIntent(input: string)
  {
    Contains(input, "搜索") || Contains(input, "查") || Contains(input, "最新")
  }

  /** The markers that send a team-mode request to the knowledge-base worker. */
  predicate KnowledgeIntent(input: string)
  {
    Contains(input, "文档") || Contains(input, "知识库") || Contains(input, "RAG")
  }

  /** The narrower markers that make the agentic loop call a tool; "最新" is not one. */
  predicate ToolIntent(input: string)
  {
    Contains(input, "搜索") || Contains(input, "查")
  }

  /** The worker the supervisor picks: the first matching rule wins. */
  function RouteWorker(input: string): (w: AgentType)
    ensures w == SearchAgent <==> SearchIntent(input)
    ensures w == RagAgent <==> !SearchIntent(input) && KnowledgeIntent(input)
    ensures w == ChatAgent <==> !SearchIntent(input) && !KnowledgeIntent(input)
  {
    if SearchIntent(input) then SearchAgent
    else if KnowledgeIntent(input) then RagAgent
    else ChatAgent
  }

  // ---------------------------------------------------------------------
  // Texts of the team script

  const SupervisorStart := "Supervisor: 分析用户意图并分发任务..."
  const WorkerDone := "执行完成"

  const SearchRouted := "需要实时信息，路由至 Search Agent"
  const KnowledgeRouted := "涉及内部知识，路由至 RAG Agent"
  const ChatRouted := "判断为闲聊任务，路由至 Chat Agent"

  /** The supervisor's verdict for each routed worker. */
  function IntentDescription(w: AgentType): string
  {
    match w
    case SearchAgent => SearchRouted
    case RagAgent => KnowledgeRouted
    case _ => ChatRouted
  }

  /** The `agentNames` table; kinds it does not list have no display name. */
  function AgentDisplayName(kind: AgentType): (r: Option<string>)
    ensures r.None? <==> kind == CustomAgent || kind == WorkflowStep
  {
    match kind
    case Supervisor => Some("Supervisor")
    case RagAgent => Some("RAG 知识库助手")
    case SearchAgent => Some("联网搜索助手")
    case ChatAgent => Some("通用对话助手")
    case _ => None
  }

  function WorkerStart(w: AgentType): string
  {
    AgentDisplayName(w).GetOr("Worker") + " 正在执行..."
  }

  const SearchCallLead := "Tool Call: duckduckgo_search(\""
  const SearchCallResult := "\")\nResult: Found 3 relevant articles."
  const RetrievalLead := "Retrieval: query_chromadb(\""
  const RetrievalResult := "\")\nResult: 2 chunks (Score: 0.92)"
  const ChatInference := "LLM Inference..."

  /** The detail the worker reports when it completes (the `switch` on the routed kind). */
  function WorkerOutput(w: AgentType, input: string): string
  {
    match w
    case SearchAgent => SearchCallLead + input + SearchCallResult
    case RagAgent => RetrievalLead + input + RetrievalResult
    case _ => ChatInference
  }

  const SearchAnswerLead := "根据搜索结果，\""
  const SearchAnswerBody :=
    "\" 的相关信息如下：\n\n1. 2026年 AI Agent 技术已全面普及。\n2. Multi-Agent 架构成为企业级应用首选。\n\n如需更多细节请告知。"
  const KnowledgeAnswer :=
    "检索到相关知识库文档：\n\nHugAi 方案配置文档显示，您可以在“系统配置”中切换 Multi-Agent 或 Agentic 模式。\n\n更多详情请查阅 V3.0 手册。"
  const ChatAnswerLead := "收到！我是您的协作助手。关于 \""
  const ChatAnswerBody := "\"，这是一个很好的问题。\n\n我可以帮您调用工具或查询知识库，请问需要我做什么？"

  /** The worker-specific final answer. */
  function WorkerAnswer(w: AgentType, input: string): string
  {
    match w
    case SearchAgent => SearchAnswerLead + input + SearchAnswerBody
    case RagAgent => KnowledgeAnswer
    case _ => ChatAnswerLead + input + ChatAnswerBody
  }

  /** The team script's events: the supervisor runs and completes under one id
      without any output, then the routed worker runs and completes under a
      second id, and only its completion carries an output. */
  predicate TeamTrace(trace: seq<AgentStep>, input: string, supervisorId: string, workerId: string, now: int)
  {
    var w := RouteWorker(input);
    && |trace| == 4
    && trace[0] == AgentStep(supervisorId, Supervisor, Running, SupervisorStart, None, now)
    && trace[1] == AgentStep(supervisorId, Supervisor, Completed, IntentDescription(w), None, now)
    && trace[2] == AgentStep(workerId, w, Running, WorkerStart(w), None, now)
    && trace[3] == AgentStep(workerId, w, Completed, WorkerDone, Some(WorkerOutput(w, input)), now)
  }

  /** The supervisor's intent test: the chat worker unless a rule matches,
      the search rule tried before the knowledge rule. */
  method SelectWorker(input: string) returns (selected: AgentType, intentDescription: string)
    ensures selected == RouteWorker(input)
    ensures intentDescription == IntentDescription(selected)
  {
    selected := ChatAgent;
    intentDescription := ChatRouted;
    if Contains(input, "搜索") || Contains(input, "查") || Contains(input, "最新") {
      selected := SearchAgent;
      intentDescription := SearchRouted;
    } else if Contains(input, "文档") || Contains(input, "知识库") || Contains(input, "RAG") {
      selected := RagAgent;
      intentDescription := KnowledgeRouted;
    }
  }

  /** Supervisor-routed team mode. */
  method RunTeam(input: string, supervisorId: string, workerId: string, now: int)
    returns (trace: seq<AgentStep>, answer: string)
    ensures TeamTrace(trace, input, supervisorId, workerId, now)
    ensures answer == WorkerAnswer(RouteWorker(input), input)
  {
    var started := AgentStep(supervisorId, Supervisor, Running, SupervisorStart, None, now);
    var selected, intentDescription := SelectWorker(input);
    var routed := AgentStep(supervisorId, Supervisor, Completed, intentDescription, None, now);
    var working := AgentStep(workerId, selected, Running, WorkerStart(selected), None, now);
    var output := WorkerOutput(selected, input);
    answer := WorkerAnswer(selected, input);
    var done := AgentStep(workerId, selected, Completed, WorkerDone, Some(output), now);
    trace := [started, routed, working, done];
  }

  // ---------------------------------------------------------------------
  // The workflow script

  /** The hard-coded stage names; the scheme's own agents are never consulted. */
  const WorkflowStages: seq<string> := ["Input Analysis", "Data Processing", "Final Generation"]

  const AnalysisLead := "Analysis: User asking for \""
  const ProcessingReport := "Processing: Data transformed successfully."
  const GenerationReport := "Generation: Content created."

  /** What stage `i` reports on completion. */
  function StageOutput(i: nat, input: string): string
  {
    if i == 0 then AnalysisLead + input + "\""
    else if i == 1 then ProcessingReport
    else if i == 2 then GenerationReport
    else ""
  }

  function StageStart(i: nat): string
    requires i < |WorkflowStages|
  {
    "Step " + NatToDecimal(i + 1) + ": " + WorkflowStages[i] + " 正在执行..."
  }

  const WorkflowAnswerLead := "(Workflow Result) 流程执行完毕。\n\n输入 \""
  const WorkflowAnswerBody := "\" 已按照预定工序处理完成。"

  function WorkflowAnswer(input: string): string
  {
    WorkflowAnswerLead + input + WorkflowAnswerBody
  }

  /** Stage `i` occupies positions 2i (running) and 2i+1 (completed) of the
      trace, both under the stage's own id. */
  predicate StageEmitted(trace: seq<AgentStep>, i: nat, input: string, stageIds: seq<string>, now: int)
    requires i < |WorkflowStages| <= |stageIds|
  {
    && 2 * i + 1 < |trace|
    && trace[2 * i] == AgentStep(stageIds[i], WorkflowStep, Running, StageStart(i), None, now)
    && trace[2 * i + 1] == AgentStep(stageIds[i], WorkflowStep, Completed, WorkflowStages[i] + " 完成",
                                     Some(StageOutput(i, input)), now)
  }

  /** The workflow script's events: six, whatever the input, three stages in order. */
  predicate WorkflowTrace(trace: seq<AgentStep>, input: string, stageIds: seq<string>, now: int)
    requires |WorkflowStages| <= |stageIds|
  {
    && |trace| == 2 * |WorkflowStages|
    && forall i :: 0 <= i < |WorkflowStages| ==> StageEmitted(trace, i, input, stageIds, now)
  }

  /** Sequential workflow mode: the stage loop. */
  method RunWorkflow(input: string, stageIds: seq<string>, now: int)
    returns (trace: seq<AgentStep>, answer: string)
    requires |stageIds| >= |WorkflowStages|
    ensures WorkflowTrace(trace, input, stageIds, now)
    ensures answer == WorkflowAnswer(input)
  {
    var steps := WorkflowStages;
    trace := [];
    var i := 0;
    while i < |steps|
      invariant 0 <= i <= |steps| && |trace| == 2 * i
      invariant forall j :: 0 <= j < i ==> StageEmitted(trace, j, input, stageIds, now)
    {
      var stepId := stageIds[i];
      var stepName := steps[i];
      ghost var done := trace;
      trace := trace + [AgentStep(stepId, WorkflowStep, Running, StageStart(i), None, now)];
      var output := StageOutput(i, input);
      trace := trace + [AgentStep(stepId, WorkflowStep, Completed, stepName + " 完成", Some(output), now)];
      forall j | 0 <= j < i ensures StageEmitted(trace, j, input, stageIds, now) {
        assert StageEmitted(done, j, input, stageIds, now);
        assert trace[2 * j] == done[2 * j] && trace[2 * j + 1] == done[2 * j + 1];
      }
      i := i + 1;
    }
    answer := WorkflowAnswer(input);
  }

  // ---------------------------------------------------------------------
  // The agentic (plan / act-or-reflect) script

  const PlanStart := "System 2 Thinking: 拆解任务与规划 (Planning)..."
  const PlanDone := "已生成执行计划"

  const ThoughtLead := "Thought: 用户想要 \""
  const ThoughtPlan := "\"。\n1. 检查是否有相关工具。\n2. 如果需要搜索，调用 Search 工具。\n3. 对结果进行反思验证。"

  function PlanOutput(input: string): string
  {
    ThoughtLead + input + ThoughtPlan
  }

  const ToolAction := "Action: 调用工具获取外部信息..."
  const Reflection := "Reflection: 自我反思与生成..."
  const ObservationLead := "Tool: duckduckgo_search\nInput: \""
  const ObservationResult := "\"\nObservation: 获得 3 条结果。"
  const Critique := "Critique: 检查生成内容的逻辑一致性。\nResult: 通过。"

  /** Texts of the second stage: the tool branch when `useTool`, the reflection otherwise. */
  function ActStart(useTool: bool): string
  {
    if useTool then ToolAction else Reflection
  }

  function ActDone(useTool: bool): string
  {
    if useTool then "工具调用成功" else "完成推理"
  }

  function ActOutput(useTool: bool, input: string): string
  {
    if useTool then ObservationLead + input + ObservationResult
    else Critique
  }

  const ToolConclusionLead := "(Agentic Mode) 经过联网检索与反思，关于 \""
  const ToolConclusionBody :=
    "\" 的结论如下：\n\n该领域目前正处于快速上升期，Agentic Workflow (代理工作流) 通过引入循环与反思机制，显著提升了复杂任务的准确率。"
  const ReflectionLead :=
    "(Agentic Mode) 我是一个独立智能体。我通过内部的 ReAct (Reason+Act) 循环来处理您的请求，而不需要 Supervisor 进行分发。\n\n针对 \""
  const ReflectionBody := "\"，我的建议是..."

  function AgenticAnswer(useTool: bool, input: string): string
  {
    if useTool then ToolConclusionLead + input + ToolConclusionBody
    else ReflectionLead + input + ReflectionBody
  }

  /** The agentic script's events: a plan pair, then an act or reflect pair,
      all four tagged `custom_agent`. */
  predicate AgenticTrace(trace: seq<AgentStep>, input: string, planId: string, actId: string, now: int)
  {
    var tool := ToolIntent(input);
    && |trace| == 4
    && trace[0] == AgentStep(planId, CustomAgent, Running, PlanStart, None, now)
    && trace[1] == AgentStep(planId, CustomAgent, Completed, PlanDone, Some(PlanOutput(input)), now)
    && trace[2] == AgentStep(actId, CustomAgent, Running, ActStart(tool), None, now)
    && trace[3] == AgentStep(actId, CustomAgent, Completed, ActDone(tool), Some(ActOutput(tool, input)), now)
  }

  /** Agentic (reasoning loop) mode. */
  method RunAgentic(input: string, planId: string, actId: string, now: int)
    returns (trace: seq<AgentStep>, answer: string)
    ensures AgenticTrace(trace, input, planId, actId, now)
    ensures answer == AgenticAnswer(ToolIntent(input), input)
  {
    var planning := AgentStep(planId, CustomAgent, Running, PlanStart, None, now);
    var planned := AgentStep(planId, CustomAgent, Completed, PlanDone, Some(PlanOutput(input)), now);
    // The tool test picks between the act pair and the reflect pair.
    var useTool := ToolIntent(input);
    var acting := AgentStep(actId, CustomAgent, Running, ActStart(useTool), None, now);
    var acted := AgentStep(actId, CustomAgent, Completed, ActDone(useTool), Some(ActOutput(useTool, input)), now);
    answer := AgenticAnswer(useTool, input);
    trace := [planning, planned, acting, acted];
  }

  // ---------------------------------------------------------------------
  // Dispatch

  /** The events of a run in `mode`: the team script, the stage pipeline or the agentic loop. */
  predicate ModeRun(mode: SolutionMode, trace: seq<AgentStep>, input: string, ids: seq<string>, now: int)
    requires |ids| >= |WorkflowStages|
  {
    match mode
    case MultiAgent => TeamTrace(trace, input, ids[0], ids[1], now)
    case Workflow => WorkflowTrace(trace, input, ids, now)
    case Agentic => AgenticTrace(trace, input, ids[0], ids[1], now)
  }

  /** The final answer of a run in `mode`. */
  function ModeAnswer(mode: SolutionMode, input: string): string
  {
    match mode
    case MultiAgent => WorkerAnswer(RouteWorker(input), input)
    case Workflow => WorkflowAnswer(input)
    case Agentic => AgenticAnswer(ToolIntent(input), input)
  }

  /** `simulateAgentResponse`: 'multi-agent' runs the team, 'workflow' the
      stage pipeline, and every other mode the agentic loop. Every step id
      the run emits ends in `completed`, and no step is ever emitted as
      `pending` or `failed`. */
  method SimulateAgentResponse(input: string, mode: SolutionMode, ids: seq<string>, now: int)
    returns (trace: seq<AgentStep>, answer: string)
    requires |ids| >= |WorkflowStages|
    ensures ModeRun(mode, trace, input, ids, now)
    ensures answer == ModeAnswer(mode, input)
    ensures Settled(trace)
    ensures forall k :: 0 <= k < |trace| ==> trace[k].status == Running || trace[k].status == Completed
  {
    if mode == MultiAgent {
      trace, answer := RunTeam(input, ids[0], ids[1], now);
      TeamIsPaired(trace, input, ids[0], ids[1], now);
    } else if mode == Workflow {
      trace, answer := RunWorkflow(input, ids, now);
      WorkflowIsPaired(trace, input, ids, now);
    } else {
      trace, answer := RunAgentic(input, ids[0], ids[1], now);
      AgenticIsPaired(trace, input, ids[0], ids[1], now);
    }
    PairedRunSettled(trace);
  }

  // ---------------------------------------------------------------------
  // Properties of the scripts

  /** Every script is a series of stages, each emitted as `running` then
      `completed` under one id. */
  predicate PairedRun(trace: seq<AgentStep>)
    decreases |trace|
  {
    trace == []
    || (&& |trace| >= 2
        && trace[0].id == trace[1].id
        && trace[0].status == Running
        && trace[1].status == Completed
        && PairedRun(trace[2..]))
  }

  /** Two stages, each a running/completed pair under one id. */
  lemma TwoPairs(trace: seq<AgentStep>)
    requires |trace| == 4
    requires trace[0].id == trace[1].id && trace[2].id == trace[3].id
    requires trace[0].status == Running && trace[1].status == Completed
    requires trace[2].status == Running && trace[3].status == Completed
    ensures PairedRun(trace)
  {
    assert PairedRun(trace[2..][2..]);
  }

  lemma TeamIsPaired(trace: seq<AgentStep>, input: string, supervisorId: string, workerId: string, now: int)
    requires TeamTrace(trace, input, supervisorId, workerId, now)
    ensures PairedRun(trace)
  {
    TwoPairs(trace);
  }

  lemma AgenticIsPaired(trace: seq<AgentStep>, input: string, planId: string, actId: string, now: int)
    requires AgenticTrace(trace, input, planId, actId, now)
    ensures PairedRun(trace)
  {
    TwoPairs(trace);
  }

  lemma WorkflowIsPaired(trace: seq<AgentStep>, input: string, stageIds: seq<string>, now: int)
    requires |stageIds| >= |WorkflowStages|
    requires WorkflowTrace(trace, input, stageIds, now)
    ensures PairedRun(trace)
  {
    assert StageEmitted(trace, 0, input, stageIds, now);
    assert StageEmitted(trace, 1, input, stageIds, now);
    assert StageEmitted(trace, 2, input, stageIds, now);
    assert PairedRun(trace[2..][2..][2..]);
    assert PairedRun(trace[2..][2..]);
  }

  /** The last event with a given id in `a + b` is in `b` whenever `b` has one. */
  lemma {:induction false} LastWithConcat(a: seq<AgentStep>, b: seq<AgentStep>, id: string)
    ensures LastWith(a + b, id) == if id in Ids(b) then LastWith(b, id) else LastWith(a, id)
    decreases |b|
  {
    if b == [] {
      assert a + b == a;
    } else {
      var n := |b|;
      assert (a + b)[..|a + b| - 1] == a + b[..n - 1];
      assert Ids(b) == Ids(b[..n - 1]) + [b[n - 1].id];
      if b[n - 1].id != id {
        LastWithConcat(a, b[..n - 1], id);
      }
    }
  }

  /** In a run made of running/completed pairs, the last event of every
      emitted id is a completion. */
  lemma {:induction false} PairedRunLastCompleted(trace: seq<AgentStep>, id: string)
    requires PairedRun(trace)
    requires id in Ids(trace)
    ensures LastWith(trace, id).Some? && LastWith(trace, id).value.status == Completed
    decreases |trace|
  {
    var head := trace[..2];
    var rest := trace[2..];
    assert trace == head + rest;
    LastWithConcat(head, rest, id);
    if id in Ids(rest) {
      PairedRunLastCompleted(rest, id);
    } else {
      var k :| 0 <= k < |trace| && Ids(trace)[k] == id;
      if k >= 2 {
        assert Ids(rest)[k - 2] == id;
      }
      assert head[..1] == [trace[0]];
      assert LastWith(head, id) == Some(trace[1]);
    }
  }

  /** A run made of running/completed pairs is settled, and emits only those two statuses. */
  lemma PairedRunSettled(trace: seq<AgentStep>)
    requires PairedRun(trace)
    ensures Settled(trace)
    ensures forall k :: 0 <= k < |trace| ==> trace[k].status == Running || trace[k].status == Completed
  {
    forall k | 0 <= k < |trace|
      ensures LastWith(trace, trace[k].id).Some?
      ensures LastWith(trace, trace[k].id).value.status == Completed
    {
      assert Ids(trace)[k] == trace[k].id;
      PairedRunLastCompleted(trace, trace[k].id);
    }
    PairedRunStatuses(trace);
  }

  lemma {:induction false} PairedRunStatuses(trace: seq<AgentStep>)
    requires PairedRun(trace)
    ensures forall k :: 0 <= k < |trace| ==> trace[k].status == Running || trace[k].status == Completed
    decreases |trace|
  {
    if trace != [] {
      PairedRunStatuses(trace[2..]);
      forall k | 2 <= k < |trace| ensures trace[k].status == Running || trace[k].status == Completed {
        assert trace[k] == trace[2..][k - 2];
      }
    }
  }

  /** With distinct ids, the team run leaves exactly two ledger entries: the
      supervisor's completion, then the routed worker's. */
  lemma TeamLedger(trace: seq<AgentStep>, input: string, supervisorId: string, workerId: string, now: int)
    requires TeamTrace(trace, input, supervisorId, workerId, now)
    requires supervisorId != workerId
    ensures Ledger(trace) == [trace[1], trace[3]]
    ensures Ledger(trace)[0].agent == Supervisor && Ledger(trace)[1].agent == RouteWorker(input)
  {
    assert trace == [trace[0], trace[1], trace[2], trace[3]];
    TwoPairsLedger(trace[0], trace[1], trace[2], trace[3]);
  }

  /** With distinct stage ids, the workflow run leaves the three stage
      completions in stage order. */
  lemma WorkflowLedger(trace: seq<AgentStep>, input: string, stageIds: seq<string>, now: int)
    requires |stageIds| >= |WorkflowStages|
    requires WorkflowTrace(trace, input, stageIds, now)
    requires stageIds[0] != stageIds[1] && stageIds[1] != stageIds[2] && stageIds[0] != stageIds[2]
    ensures Ledger(trace) == [trace[1], trace[3], trace[5]]
  {
    assert StageEmitted(trace, 0, input, stageIds, now);
    assert StageEmitted(trace, 1, input, stageIds, now);
    assert StageEmitted(trace, 2, input, stageIds, now);
    assert trace == [trace[0], trace[1], trace[2], trace[3], trace[4], trace[5]];
    ThreePairsLedger(trace[0], trace[1], trace[2], trace[3], trace[4], trace[5]);
  }

  /** With distinct ids, the agentic run leaves the plan completion, then the
      act (or reflect) completion. */
  lemma AgenticLedger(trace: seq<AgentStep>, input: string, planId: string, actId: string, now: int)
    requires AgenticTrace(trace, input, planId, actId, now)
    requires planId != actId
    ensures Ledger(trace) == [trace[1], trace[3]]
  {
    assert trace == [trace[0], trace[1], trace[2], trace[3]];
    TwoPairsLedger(trace[0], trace[1], trace[2], trace[3]);
  }

  /** An agentic run calls the tool only on a search marker, so a tool call
      implies the team script would route to the search worker. */
  lemma ToolCallImpliesSearchRoute(input: string)
    requires ToolIntent(input)
    ensures RouteWorker(input) == SearchAgent
  {
  }

  /** The two keyword sets differ on "最新": a request that contains it but no
      other search marker goes to the search worker in team mode and to the
      reflection branch in agentic mode. */
  lemma LatestOnlyDiverges()
    ensures RouteWorker("最新消息") == SearchAgent
    ensures !ToolIntent("最新消息")
  {
    var s := "最新消息";
    ContainsInside("", "最新", "消息");
    assert "" + "最新" + "消息" == s;
    ContainsAt(s, "搜索");
    ContainsAt(s, "查");
    forall i | 0 <= i <= |s| ensures !("搜索" <= s[i..]) && !("查" <= s[i..]) {
      if i < |s| {
        assert s[i..][0] == s[i];
      }
    }
  }

  /** A search request is routed to the search worker in team mode and takes
      the tool branch in agentic mode. */
  lemma SearchRequestExample()
    ensures RouteWorker("帮我搜索一下今天的新闻") == SearchAgent
    ensures ToolIntent("帮我搜索一下今天的新闻")
  {
    ContainsInside("帮我", "搜索", "一下今天的新闻");
    assert "帮我" + "搜索" + "一下今天的新闻" == "帮我搜索一下今天的新闻";
  }
}
