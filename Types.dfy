/** The shared data model of the front end (types.ts): conversation messages,
    progress steps, schemes ("solutions") with their agents, tools and the
    application configuration.

    Optional TypeScript fields are modelled as follows: an absent boolean flag
    (`isSystem`, `isThinking`, `requiresKey`, `isCustom`) is `false`, since the
    code only ever tests it for truthiness; an absent `steps` list is `[]`,
    since every reader writes `msg.steps || []`; an absent text (`output`,
    `apiKey`) is `None`. Timestamps are opaque integers. */
module Types {

  datatype Option<T> = None | Some(value: T)
  {
    function GetOr(default: T): T
    {
      match this
      case Some(v) => v
      case None => default
    }
  }

  datatype Role = User | Assistant | System

  /** The agent kinds of types.ts:3. */
  datatype AgentType = Supervisor | RagAgent | SearchAgent | ChatAgent | CustomAgent | WorkflowStep

  /** 'multi-agent' | 'agentic' | 'workflow' */
  datatype SolutionMode = MultiAgent | Agentic | Workflow

  datatype StepStatus = Pending | Running | Completed | Failed

  /** One progress event of a run; re-emitting the same `id` updates that step. */
  datatype AgentStep = AgentStep(
    id: string,
    agent: AgentType,
    status: StepStatus,
    description: string,
    output: Option<string>,
    timestamp: int)

  datatype Message = Message(
    id: string,
    role: Role,
    content: string,
    timestamp: int,
    steps: seq<AgentStep>,
    isThinking: bool)

  datatype AgentDefinition = AgentDefinition(
    id: string,
    agentType: AgentType,
    name: string,
    description: string,
    systemPrompt: string,
    enabled: bool,
    isSystem: bool)

  datatype Solution = Solution(
    id: string,
    name: string,
    description: string,
    mode: SolutionMode,
    agents: seq<AgentDefinition>,
    enabledTools: seq<string>)

  datatype ToolDefinition = ToolDefinition(
    id: string,
    name: string,
    description: string,
    enabled: bool,
    requiresKey: bool,
    apiKey: Option<string>,
    isCustom: bool)

  /** `provider` is kept as the string the settings form stores (it is cast
      with `as any` there); `temperature` is carried but never computed on. */
  datatype AppConfig = AppConfig(
    modelName: string,
    baseUrl: string,
    apiKey: string,
    temperature: real,
    provider: string,
    solutions: seq<Solution>,
    activeSolutionId: string,
    tools: seq<ToolDefinition>)

  /** `solutions.find(s => s.id === id)`: the first solution carrying `id`. */
  function FindSolution(solutions: seq<Solution>, id: string): (r: Option<Solution>)
    ensures r.None? <==> forall k :: 0 <= k < |solutions| ==> solutions[k].id != id
    ensures r.Some? ==> exists k :: 0 <= k < |solutions| && solutions[k] == r.value
                          && r.value.id == id
                          && forall j :: 0 <= j < k ==> solutions[j].id != id
  {
    if |solutions| == 0 then None
    else if solutions[0].id == id then Some(solutions[0])
    else
      var r := FindSolution(solutions[1..], id);
      assert r.Some? ==> exists k :: 0 <= k < |solutions| - 1 && solutions[1..][k] == r.value
                          && forall j :: 0 <= j < k ==> solutions[1..][j].id != id;
      r
  }

  /** find returns the scheme at the first index carrying the id. */
  lemma {:induction false} FindSolutionAt(solutions: seq<Solution>, id: string, k: nat)
    requires k < |solutions| && solutions[k].id == id
    requires forall j :: 0 <= j < k ==> solutions[j].id != id
    ensures FindSolution(solutions, id) == Some(solutions[k])
  {
    if k > 0 {
      FindSolutionAt(solutions[1..], id, k - 1);
    }
  }
}
