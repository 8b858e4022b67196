/** The settings panel's handlers (SettingsPanel.tsx). Each one builds a new
    configuration from the old one; the panel's own state is the id of the
    scheme selected for editing, passed in as `sel`.

    The panel reads the scheme it edits with a fallback to the first scheme,
    but writes back by matching `sel` only, so with a stale selection an edit
    is computed and then dropped. Both halves are kept as written. */
module Settings {
  import opened Types
  import opened Text

  // ---------------------------------------------------------------- models

  /** PROVIDER_MODELS: the model values offered per provider, in listed order. */
  function ProviderModels(provider: string): (models: seq<string>)
    ensures (provider != "openai" && provider != "anthropic" && provider != "deepseek"
             && provider != "ollama") ==> models == []
  {
    if provider == "openai" then ["gpt-4o", "gpt-4-turbo", "gpt-3.5-turbo"]
    else if provider == "anthropic" then ["claude-3-5-sonnet", "claude-3-opus"]
    else if provider == "deepseek" then ["deepseek-chat", "deepseek-coder"]
    else if provider == "ollama" then ["llama3:8b", "llama3:70b", "mistral", "qwen2.5"]
    else []
  }

  /** A provider switch selects the provider's first listed model, or no model
      when none is listed; nothing else in the configuration changes. */
  function HandleProviderChange(cfg: AppConfig, provider: string): (r: AppConfig)
    ensures r.provider == provider
    ensures ProviderModels(provider) != [] ==> r.modelName == ProviderModels(provider)[0]
    ensures ProviderModels(provider) == [] ==> r.modelName == ""
    ensures r.(provider := cfg.provider, modelName := cfg.modelName) == cfg
  {
    var models := ProviderModels(provider);
    cfg.(provider := provider, modelName := if |models| > 0 then models[0] else "")
  }

  /** Choosing the same provider again changes nothing more. */
  lemma ProviderChangeIdempotent(cfg: AppConfig, provider: string)
    ensures HandleProviderChange(HandleProviderChange(cfg, provider), provider)
            == HandleProviderChange(cfg, provider)
  {
  }

  /** The chosen model is always one the provider lists, unless it lists none. */
  lemma ProviderModelIsListed(cfg: AppConfig, provider: string)
    ensures var r := HandleProviderChange(cfg, provider);
            r.modelName in ProviderModels(provider) || (ProviderModels(provider) == [] && r.modelName == "")
  {
  }

  // ------------------------------------------------------------- templates

  function Agent(id: string, kind: AgentType, name: string, description: string, prompt: string,
                 isSystem: bool): AgentDefinition
  {
    AgentDefinition(id, kind, name, description, prompt, true, isSystem)
  }

  const SupervisorTemplate := Agent("supervisor", Supervisor, "Supervisor", "Orchestrator",
                                    "You are the supervisor. Route tasks to the appropriate worker.", true)
  const AssistantTemplate := Agent("worker_1", CustomAgent, "General Assistant", "Worker",
                                   "You are a helpful assistant.", false)
  const CoreAgentTemplate := Agent("primary_brain", CustomAgent, "Core Agent", "The main reasoning loop",
                                   "You are an autonomous agent with ReAct capabilities.", true)
  const AnalysisStepTemplate := Agent("step_1", WorkflowStep, "Step 1: Input Analysis", "First step of the pipeline",
                                      "Analyze the user input and extract key entities.", false)
  const ExecutionStepTemplate := Agent("step_2", WorkflowStep, "Step 2: Execution", "Second step",
                                       "Process the entities and generate a result.", false)

  /** getTemplateAgents: the agents a scheme starts with in each mode. */
  function TemplateAgents(mode: SolutionMode): (r: seq<AgentDefinition>)
    ensures forall i :: 0 <= i < |r| ==> r[i].enabled
    ensures mode == MultiAgent ==>
              && |r| == 2
              && r[0].id == "supervisor" && r[0].agentType == Supervisor && r[0].isSystem
              && r[1].id == "worker_1" && r[1].agentType == CustomAgent && !r[1].isSystem
    ensures mode == Agentic ==>
              |r| == 1 && r[0].id == "primary_brain" && r[0].agentType == CustomAgent && r[0].isSystem
    ensures mode == Workflow ==>
              && |r| == 2
              && r[0].id == "step_1" && r[1].id == "step_2"
              && forall i :: 0 <= i < |r| ==> r[i].agentType == WorkflowStep && !r[i].isSystem
  {
    match mode
    case MultiAgent => [SupervisorTemplate, AssistantTemplate]
    case Agentic => [CoreAgentTemplate]
    case Workflow => [AnalysisStepTemplate, ExecutionStepTemplate]
  }

  // ------------------------------------------------------------- selection

  /** The scheme the panel edits: the selected one, else the first scheme. */
  function EditedSolution(cfg: AppConfig, sel: string): (r: Option<Solution>)
    ensures r.None? <==> cfg.solutions == []
    ensures r.Some? ==> r.value in cfg.solutions
    ensures FindSolution(cfg.solutions, sel).Some? ==> r == FindSolution(cfg.solutions, sel)
    ensures FindSolution(cfg.solutions, sel).None? && cfg.solutions != [] ==> r == Some(cfg.solutions[0])
  {
    match FindSolution(cfg.solutions, sel)
    case Some(s) => Some(s)
    case None => if cfg.solutions == [] then None else Some(cfg.solutions[0])
  }

  /** The selection resync: a selection matching no scheme moves to the first scheme. */
  function ResyncSelection(solutions: seq<Solution>, sel: string): (r: string)
    ensures FindSolution(solutions, sel).Some? ==> r == sel
    ensures solutions != [] ==> FindSolution(solutions, r).Some?
    ensures solutions == [] ==> r == sel
    ensures FindSolution(solutions, sel).None? && solutions != [] ==> r == solutions[0].id
  {
    if FindSolution(solutions, sel).None? && |solutions| > 0 then solutions[0].id else sel
  }

  /** After a resync, the edited scheme is the one the writes reach. */
  lemma ResyncedSelectionIsEdited(cfg: AppConfig, sel: string)
    requires cfg.solutions != []
    ensures var s := ResyncSelection(cfg.solutions, sel);
            EditedSolution(cfg, s) == FindSolution(cfg.solutions, s)
  {
  }

  // --------------------------------------------------------------- updates

  /** A `Partial<Solution>` as the panel builds it: the fields it may carry. */
  datatype SolutionPatch = SolutionPatch(
    name: Option<string>,
    description: Option<string>,
    mode: Option<SolutionMode>,
    agents: Option<seq<AgentDefinition>>)

  function AgentsPatch(agents: seq<AgentDefinition>): SolutionPatch
  {
    SolutionPatch(None, None, None, Some(agents))
  }

  /** `{ ...s, ...updates }`: present fields overwrite, absent ones are kept. */
  function Patch(s: Solution, p: SolutionPatch): (r: Solution)
    ensures r.id == s.id && r.enabledTools == s.enabledTools
    ensures p.name.Some? ==> r.name == p.name.value
    ensures p.name.None? ==> r.name == s.name
    ensures p.description.Some? ==> r.description == p.description.value
    ensures p.description.None? ==> r.description == s.description
    ensures p.mode.Some? ==> r.mode == p.mode.value
    ensures p.mode.None? ==> r.mode == s.mode
    ensures p.agents.Some? ==> r.agents == p.agents.value
    ensures p.agents.None? ==> r.agents == s.agents
    ensures p == SolutionPatch(None, None, None, None) ==> r == s
  {
    s.(name := p.name.GetOr(s.name),
       description := p.description.GetOr(s.description),
       mode := p.mode.GetOr(s.mode),
       agents := p.agents.GetOr(s.agents))
  }

  /** updateActiveSolution: every scheme carrying the selected id is patched;
      every other scheme, and everything outside the scheme list, is unchanged. */
  function UpdateActiveSolution(cfg: AppConfig, sel: string, p: SolutionPatch): (r: AppConfig)
    ensures r == cfg.(solutions := r.solutions)
    ensures |r.solutions| == |cfg.solutions|
    ensures forall i :: 0 <= i < |cfg.solutions| && cfg.solutions[i].id != sel ==>
              r.solutions[i] == cfg.solutions[i]
    ensures forall i :: 0 <= i < |cfg.solutions| && cfg.solutions[i].id == sel ==>
              r.solutions[i] == Patch(cfg.solutions[i], p)
  {
    cfg.(solutions := seq(|cfg.solutions|, i requires 0 <= i < |cfg.solutions| =>
           if cfg.solutions[i].id == sel then Patch(cfg.solutions[i], p) else cfg.solutions[i]))
  }

  /** After an update, looking up the selected scheme finds the patched one. */
  lemma FindAfterUpdate(cfg: AppConfig, sel: string, p: SolutionPatch)
    requires FindSolution(cfg.solutions, sel).Some?
    ensures FindSolution(UpdateActiveSolution(cfg, sel, p).solutions, sel)
            == Some(Patch(FindSolution(cfg.solutions, sel).value, p))
  {
    var r := UpdateActiveSolution(cfg, sel, p);
    var k :| 0 <= k < |cfg.solutions| && cfg.solutions[k] == FindSolution(cfg.solutions, sel).value
             && cfg.solutions[k].id == sel
             && forall j :: 0 <= j < k ==> cfg.solutions[j].id != sel;
    FindSolutionAt(r.solutions, sel, k);
  }

  /** With no scheme carrying the selected id, an update changes nothing. */
  lemma StaleSelectionDropsUpdate(cfg: AppConfig, sel: string, p: SolutionPatch)
    requires FindSolution(cfg.solutions, sel).None?
    ensures UpdateActiveSolution(cfg, sel, p) == cfg
  {
    assert UpdateActiveSolution(cfg, sel, p).solutions == cfg.solutions;
  }

  // ------------------------------------------------------------ mode switch

  /** handleModeChange: switching to the edited scheme's own mode does nothing;
      otherwise the selected scheme takes the new mode and exactly the
      template agents of that mode, and nothing else changes. */
  function ModeChange(cfg: AppConfig, sel: string, mode: SolutionMode): (r: AppConfig)
    requires cfg.solutions != []
    ensures mode == EditedSolution(cfg, sel).value.mode ==> r == cfg
    ensures r == cfg.(solutions := r.solutions) && |r.solutions| == |cfg.solutions|
    ensures forall i :: 0 <= i < |cfg.solutions| && cfg.solutions[i].id != sel ==>
              r.solutions[i] == cfg.solutions[i]
    ensures mode != EditedSolution(cfg, sel).value.mode ==>
              forall i :: 0 <= i < |cfg.solutions| && cfg.solutions[i].id == sel ==>
                r.solutions[i] == cfg.solutions[i].(mode := mode, agents := TemplateAgents(mode))
  {
    if mode == EditedSolution(cfg, sel).value.mode then cfg
    else UpdateActiveSolution(cfg, sel, SolutionPatch(None, None, Some(mode), Some(TemplateAgents(mode))))
  }

  /** Switching to the same mode twice is switching once. */
  lemma ModeChangeIdempotent(cfg: AppConfig, sel: string, mode: SolutionMode)
    requires FindSolution(cfg.solutions, sel).Some?
    ensures ModeChange(ModeChange(cfg, sel, mode), sel, mode) == ModeChange(cfg, sel, mode)
  {
    var once := ModeChange(cfg, sel, mode);
    if mode != EditedSolution(cfg, sel).value.mode {
      FindAfterUpdate(cfg, sel, SolutionPatch(None, None, Some(mode), Some(TemplateAgents(mode))));
    }
    assert EditedSolution(once, sel).value.mode == mode;
  }

  // ----------------------------------------------------------- agent edits

  /** The agent fields the panel edits in place. */
  datatype AgentField = AgentName(name: string) | AgentEnabled(enabled: bool) | AgentPrompt(prompt: string)

  /** `{ ...agent, [field]: value }` */
  function SetAgentField(a: AgentDefinition, f: AgentField): (r: AgentDefinition)
    ensures r.id == a.id && r.agentType == a.agentType && r.isSystem == a.isSystem
    ensures r.description == a.description
    ensures f.AgentName? ==> r == a.(name := f.name)
    ensures f.AgentEnabled? ==> r == a.(enabled := f.enabled)
    ensures f.AgentPrompt? ==> r == a.(systemPrompt := f.prompt)
  {
    match f
    case AgentName(name) => a.(name := name)
    case AgentEnabled(enabled) => a.(enabled := enabled)
    case AgentPrompt(prompt) => a.(systemPrompt := prompt)
  }

  /** updateSolutionAgent: the edited scheme's agent list with one agent's
      field changed is written to the selected scheme. */
  function UpdateSolutionAgent(cfg: AppConfig, sel: string, idx: nat, f: AgentField): (r: AppConfig)
    requires cfg.solutions != [] && idx < |EditedSolution(cfg, sel).value.agents|
    ensures r == cfg.(solutions := r.solutions) && |r.solutions| == |cfg.solutions|
    ensures var agents := EditedSolution(cfg, sel).value.agents;
            forall i :: 0 <= i < |cfg.solutions| && cfg.solutions[i].id == sel ==>
              && |r.solutions[i].agents| == |agents|
              && r.solutions[i].agents[idx] == SetAgentField(agents[idx], f)
              && (forall j :: 0 <= j < |agents| && j != idx ==> r.solutions[i].agents[j] == agents[j])
              && r.solutions[i] == cfg.solutions[i].(agents := r.solutions[i].agents)
    ensures forall i :: 0 <= i < |cfg.solutions| && cfg.solutions[i].id != sel ==>
              r.solutions[i] == cfg.solutions[i]
  {
    var agents := EditedSolution(cfg, sel).value.agents;
    UpdateActiveSolution(cfg, sel, AgentsPatch(agents[idx := SetAgentField(agents[idx], f)]))
  }

  /** The agent handleAddAgentToSolution creates for a scheme in `mode`
      holding `count` agents, stamped with the clock reading `now`. */
  function NewAgent(mode: SolutionMode, count: nat, now: nat): (a: AgentDefinition)
    ensures a.enabled && !a.isSystem
    ensures a.agentType == WorkflowStep <==> mode == Workflow
    ensures mode == Workflow ==> a.name == "Step " + NatToDecimal(count + 1)
    ensures mode != Workflow ==> a.name == "New Worker" && a.agentType == CustomAgent
  {
    if mode == Workflow then
      Agent("step_" + NatToDecimal(now), WorkflowStep, "Step " + NatToDecimal(count + 1),
            "New pipeline step", "Please define instructions...", false)
    else
      Agent("worker_" + NatToDecimal(now), CustomAgent, "New Worker",
            "New team member", "Please define instructions...", false)
  }

  /** handleAddAgentToSolution: exactly one new agent is appended. */
  function AddAgent(cfg: AppConfig, sel: string, now: nat): (r: AppConfig)
    requires cfg.solutions != []
    ensures r == cfg.(solutions := r.solutions) && |r.solutions| == |cfg.solutions|
    ensures var s := EditedSolution(cfg, sel).value;
            forall i :: 0 <= i < |cfg.solutions| && cfg.solutions[i].id == sel ==>
              r.solutions[i] == cfg.solutions[i].(agents := s.agents + [NewAgent(s.mode, |s.agents|, now)])
    ensures forall i :: 0 <= i < |cfg.solutions| && cfg.solutions[i].id != sel ==>
              r.solutions[i] == cfg.solutions[i]
  {
    var s := EditedSolution(cfg, sel).value;
    UpdateActiveSolution(cfg, sel, AgentsPatch(s.agents + [NewAgent(s.mode, |s.agents|, now)]))
  }

  /** `xs.filter((_, i) => i !== idx)`: drops the element at `idx`, if any,
      and keeps the others in order. */
  function RemoveAt<T>(xs: seq<T>, idx: int): (r: seq<T>)
    ensures !(0 <= idx < |xs|) ==> r == xs
    ensures 0 <= idx < |xs| ==>
              && |r| == |xs| - 1
              && (forall i :: 0 <= i < idx ==> r[i] == xs[i])
              && (forall i :: idx <= i < |r| ==> r[i] == xs[i + 1])
  {
    if 0 <= idx < |xs| then xs[..idx] + xs[idx + 1..] else xs
  }

  /** Removing one element removes exactly that element from the multiset. */
  lemma RemoveAtMultiset<T>(xs: seq<T>, idx: nat)
    requires idx < |xs|
    ensures multiset(RemoveAt(xs, idx)) + multiset{xs[idx]} == multiset(xs)
  {
    assert xs == xs[..idx] + [xs[idx]] + xs[idx + 1..];
  }

  /** handleDeleteAgentFromSolution: a system agent is never deleted; any
      other agent is removed from the selected scheme, the rest in order. */
  function DeleteAgent(cfg: AppConfig, sel: string, idx: nat): (r: AppConfig)
    requires cfg.solutions != [] && idx < |EditedSolution(cfg, sel).value.agents|
    ensures r == cfg.(solutions := r.solutions) && |r.solutions| == |cfg.solutions|
    ensures EditedSolution(cfg, sel).value.agents[idx].isSystem ==> r == cfg
    ensures var agents := EditedSolution(cfg, sel).value.agents;
            !agents[idx].isSystem ==>
              forall i :: 0 <= i < |cfg.solutions| && cfg.solutions[i].id == sel ==>
                r.solutions[i] == cfg.solutions[i].(agents := RemoveAt(agents, idx))
    ensures forall i :: 0 <= i < |cfg.solutions| && cfg.solutions[i].id != sel ==>
              r.solutions[i] == cfg.solutions[i]
  {
    var agents := EditedSolution(cfg, sel).value.agents;
    if agents[idx].isSystem then cfg
    else UpdateActiveSolution(cfg, sel, AgentsPatch(RemoveAt(agents, idx)))
  }

  /** No scheme carries an id twice. */
  predicate DistinctSolutionIds(solutions: seq<Solution>)
  {
    forall i, j :: 0 <= i < j < |solutions| ==> solutions[i].id != solutions[j].id
  }

  /** Adding an agent and then deleting it again restores the configuration. */
  lemma AddThenDeleteAgent(cfg: AppConfig, sel: string, now: nat)
    requires FindSolution(cfg.solutions, sel).Some? && DistinctSolutionIds(cfg.solutions)
    ensures var s := EditedSolution(cfg, sel).value;
            var added := AddAgent(cfg, sel, now);
            |s.agents| < |EditedSolution(added, sel).value.agents|
            && DeleteAgent(added, sel, |s.agents|) == cfg
  {
    var s := EditedSolution(cfg, sel).value;
    var grown := s.agents + [NewAgent(s.mode, |s.agents|, now)];
    var added := AddAgent(cfg, sel, now);
    FindAfterUpdate(cfg, sel, AgentsPatch(grown));
    assert EditedSolution(added, sel).value.agents == grown;
    assert RemoveAt(grown, |s.agents|) == s.agents;
    var back := DeleteAgent(added, sel, |s.agents|);
    forall i | 0 <= i < |cfg.solutions| ensures back.solutions[i] == cfg.solutions[i] {
      if cfg.solutions[i].id == sel {
        var k :| 0 <= k < |cfg.solutions| && cfg.solutions[k] == s && s.id == sel;
        assert i == k;
      }
    }
    assert back.solutions == cfg.solutions;
  }

  /** The system agent at the head of a fresh team or agentic scheme cannot be deleted. */
  lemma TemplateHeadIsPinned(cfg: AppConfig, sel: string, mode: SolutionMode)
    requires FindSolution(cfg.solutions, sel).Some? && mode != Workflow
    requires mode != EditedSolution(cfg, sel).value.mode
    ensures var switched := ModeChange(cfg, sel, mode);
            0 < |EditedSolution(switched, sel).value.agents|
            && DeleteAgent(switched, sel, 0) == switched
  {
    FindAfterUpdate(cfg, sel, SolutionPatch(None, None, Some(mode), Some(TemplateAgents(mode))));
  }

  // ---------------------------------------------------------------- moving

  datatype Direction = Up | Down

  /** moveAgent's reordering: swap with the neighbour in that direction when
      there is one, otherwise keep the list as it is. */
  function Move<T>(xs: seq<T>, idx: nat, dir: Direction): (r: seq<T>)
    requires idx < |xs|
    ensures |r| == |xs|
    ensures dir == Up && idx > 0 ==>
              r[idx - 1] == xs[idx] && r[idx] == xs[idx - 1]
              && forall j :: 0 <= j < |xs| && j != idx && j != idx - 1 ==> r[j] == xs[j]
    ensures dir == Down && idx + 1 < |xs| ==>
              r[idx + 1] == xs[idx] && r[idx] == xs[idx + 1]
              && forall j :: 0 <= j < |xs| && j != idx && j != idx + 1 ==> r[j] == xs[j]
    ensures (dir == Up && idx == 0) || (dir == Down && idx + 1 == |xs|) ==> r == xs
  {
    if dir == Up && idx > 0 then xs[idx := xs[idx - 1]][idx - 1 := xs[idx]]
    else if dir == Down && idx + 1 < |xs| then xs[idx := xs[idx + 1]][idx + 1 := xs[idx]]
    else xs
  }

  /** Moving reorders and neither adds nor drops an element. */
  lemma MovePermutes<T>(xs: seq<T>, idx: nat, dir: Direction)
    requires idx < |xs|
    ensures multiset(Move(xs, idx, dir)) == multiset(xs)
  {
    if dir == Up && idx > 0 {
      Swap(xs, idx - 1, idx);
      assert Move(xs, idx, dir) == xs[idx := xs[idx - 1]][idx - 1 := xs[idx]];
    } else if dir == Down && idx + 1 < |xs| {
      Swap(xs, idx, idx + 1);
      assert Move(xs, idx, dir) == xs[idx := xs[idx + 1]][idx + 1 := xs[idx]];
    }
  }

  /** Exchanging two positions keeps the multiset of elements. */
  lemma Swap<T>(xs: seq<T>, i: nat, j: nat)
    requires i < j < |xs|
    ensures multiset(xs[j := xs[i]][i := xs[j]]) == multiset(xs)
  {
    var ys := xs[j := xs[i]][i := xs[j]];
    assert xs == xs[..i] + [xs[i]] + xs[i + 1..j] + [xs[j]] + xs[j + 1..];
    assert ys == xs[..i] + [xs[j]] + xs[i + 1..j] + [xs[i]] + xs[j + 1..];
  }

  /** Moving an element up and then moving it back down restores the list. */
  lemma MoveUpThenDown<T>(xs: seq<T>, idx: nat)
    requires 0 < idx < |xs|
    ensures Move(Move(xs, idx, Up), idx - 1, Down) == xs
  {
  }

  /** moveAgent: the reordered list of the edited scheme is written to the selected scheme. */
  function MoveAgent(cfg: AppConfig, sel: string, idx: nat, dir: Direction): (r: AppConfig)
    requires cfg.solutions != [] && idx < |EditedSolution(cfg, sel).value.agents|
    ensures r == cfg.(solutions := r.solutions) && |r.solutions| == |cfg.solutions|
    ensures var agents := EditedSolution(cfg, sel).value.agents;
            forall i :: 0 <= i < |cfg.solutions| && cfg.solutions[i].id == sel ==>
              r.solutions[i] == cfg.solutions[i].(agents := Move(agents, idx, dir))
              && multiset(r.solutions[i].agents) == multiset(agents)
    ensures forall i :: 0 <= i < |cfg.solutions| && cfg.solutions[i].id != sel ==>
              r.solutions[i] == cfg.solutions[i]
  {
    var agents := EditedSolution(cfg, sel).value.agents;
    MovePermutes(agents, idx, dir);
    UpdateActiveSolution(cfg, sel, AgentsPatch(Move(agents, idx, dir)))
  }

  // ------------------------------------------------------------- schemes

  /** `solutions.filter(s => s.id !== id)` */
  function RemoveById(solutions: seq<Solution>, id: string): (r: seq<Solution>)
    ensures |r| <= |solutions|
    ensures forall s :: s in r <==> s in solutions && s.id != id
  {
    if solutions == [] then []
    else if solutions[0].id == id then RemoveById(solutions[1..], id)
    else [solutions[0]] + RemoveById(solutions[1..], id)
  }

  /** The filter keeps the survivors in their original order. */
  lemma {:induction false} RemoveByIdAppend(a: seq<Solution>, b: seq<Solution>, id: string)
    ensures RemoveById(a + b, id) == RemoveById(a, id) + RemoveById(b, id)
  {
    if a == [] {
      assert a + b == b;
    } else {
      assert (a + b)[1..] == a[1..] + b;
      RemoveByIdAppend(a[1..], b, id);
    }
  }

  /** Removing an id carried by exactly one scheme drops exactly one scheme. */
  lemma {:induction false} RemoveByIdLength(solutions: seq<Solution>, id: string)
    requires DistinctSolutionIds(solutions)
    ensures FindSolution(solutions, id).Some? ==> |RemoveById(solutions, id)| == |solutions| - 1
    ensures FindSolution(solutions, id).None? ==> RemoveById(solutions, id) == solutions
  {
    if solutions != [] {
      assert DistinctSolutionIds(solutions[1..]) by {
        forall i, j | 0 <= i < j < |solutions[1..]| ensures solutions[1..][i].id != solutions[1..][j].id {
          assert solutions[1..][i] == solutions[i + 1] && solutions[1..][j] == solutions[j + 1];
        }
      }
      RemoveByIdLength(solutions[1..], id);
      if solutions[0].id == id {
        assert forall k :: 0 <= k < |solutions[1..]| ==> solutions[1..][k] == solutions[k + 1];
        assert FindSolution(solutions[1..], id).None?;
      }
    }
  }

  /** handleDeleteSolution: refused while at most one scheme exists; otherwise
      every scheme carrying `id` is removed and nothing else changes. */
  function DeleteSolution(cfg: AppConfig, id: string): (r: AppConfig)
    ensures |cfg.solutions| <= 1 ==> r == cfg
    ensures |cfg.solutions| > 1 ==>
              && r == cfg.(solutions := RemoveById(cfg.solutions, id))
              && forall s :: s in r.solutions <==> s in cfg.solutions && s.id != id
  {
    if |cfg.solutions| <= 1 then cfg
    else cfg.(solutions := RemoveById(cfg.solutions, id))
  }

  /** With distinct ids, deleting never leaves the configuration without a scheme. */
  lemma DeleteSolutionKeepsOne(cfg: AppConfig, id: string)
    requires cfg.solutions != [] && DistinctSolutionIds(cfg.solutions)
    ensures DeleteSolution(cfg, id).solutions != []
  {
    RemoveByIdLength(cfg.solutions, id);
  }

  /** Deleting the scheme the chat runs leaves the chat without an active
      scheme: `activeSolutionId` is not re-pointed, so the chat's submit guard
      refuses every message until another scheme is picked. */
  lemma DeletingActiveStrandsChat(cfg: AppConfig)
    requires |cfg.solutions| > 1
    ensures var r := DeleteSolution(cfg, cfg.activeSolutionId);
            r.activeSolutionId == cfg.activeSolutionId
            && FindSolution(r.solutions, r.activeSolutionId).None?
  {
  }

  /** handleAddSolution: a team scheme with the team template, no tools, and
      the given fresh id is appended and becomes the selection. */
  function AddSolution(cfg: AppConfig, newId: string): (r: (AppConfig, string))
    ensures r.1 == newId
    ensures |r.0.solutions| == |cfg.solutions| + 1 && r.0.solutions[..|cfg.solutions|] == cfg.solutions
    ensures var s := r.0.solutions[|cfg.solutions|];
            s.id == newId && s.mode == MultiAgent && s.agents == TemplateAgents(MultiAgent) && s.enabledTools == []
    ensures r.0 == cfg.(solutions := r.0.solutions)
  {
    var s := Solution(newId, "New Solution", "A new empty configuration.", MultiAgent,
                      TemplateAgents(MultiAgent), []);
    (cfg.(solutions := cfg.solutions + [s]), newId)
  }

  /** A freshly added scheme is what the panel then edits. */
  lemma AddedSolutionIsEdited(cfg: AppConfig, newId: string)
    requires forall k :: 0 <= k < |cfg.solutions| ==> cfg.solutions[k].id != newId
    ensures var r := AddSolution(cfg, newId);
            EditedSolution(r.0, r.1) == Some(r.0.solutions[|cfg.solutions|])
  {
    var r := AddSolution(cfg, newId);
    FindSolutionAt(r.0.solutions, newId, |cfg.solutions|);
  }

  // ----------------------------------------------------------------- tools

  /** handleAddTool: a custom tool whose id carries a roll in 0..999 is appended. */
  function AddTool(cfg: AppConfig, roll: nat): (r: AppConfig)
    requires roll < 1000
    ensures |r.tools| == |cfg.tools| + 1 && r.tools[..|cfg.tools|] == cfg.tools
    ensures var t := r.tools[|cfg.tools|];
            t.id == "my_new_tool_" + NatToDecimal(roll) && t.enabled && t.isCustom && !t.requiresKey
            && t.apiKey.None?
    ensures r == cfg.(tools := r.tools)
  {
    var t := ToolDefinition("my_new_tool_" + NatToDecimal(roll), "New Tool", "Mock: Returns current time",
                            true, false, None, true);
    cfg.(tools := cfg.tools + [t])
  }

  /** The tool fields the panel edits in place. */
  datatype ToolField = ToolName(name: string) | ToolId(id: string) | ToolDescription(description: string)
                     | ToolEnabled(enabled: bool)

  /** handleToolUpdate: one field of one tool changes; all other tools stay. */
  function UpdateTool(cfg: AppConfig, idx: nat, f: ToolField): (r: AppConfig)
    requires idx < |cfg.tools|
    ensures |r.tools| == |cfg.tools|
    ensures forall j :: 0 <= j < |cfg.tools| && j != idx ==> r.tools[j] == cfg.tools[j]
    ensures var t := cfg.tools[idx];
            r.tools[idx] == match f
              case ToolName(name) => t.(name := name)
              case ToolId(id) => t.(id := id)
              case ToolDescription(d) => t.(description := d)
              case ToolEnabled(e) => t.(enabled := e)
    ensures r == cfg.(tools := r.tools)
  {
    var t := cfg.tools[idx];
    var t' := match f
      case ToolName(name) => t.(name := name)
      case ToolId(id) => t.(id := id)
      case ToolDescription(d) => t.(description := d)
      case ToolEnabled(e) => t.(enabled := e);
    cfg.(tools := cfg.tools[idx := t'])
  }

  /** handleDeleteTool: the tool at `idx` is removed, the others keep their order. */
  function DeleteTool(cfg: AppConfig, idx: nat): (r: AppConfig)
    ensures idx < |cfg.tools| ==>
              |r.tools| == |cfg.tools| - 1 && multiset(r.tools) + multiset{cfg.tools[idx]} == multiset(cfg.tools)
    ensures idx >= |cfg.tools| ==> r == cfg
    ensures r == cfg.(tools := RemoveAt(cfg.tools, idx))
  {
    if idx < |cfg.tools| then
      RemoveAtMultiset(cfg.tools, idx);
      cfg.(tools := RemoveAt(cfg.tools, idx))
    else cfg.(tools := RemoveAt(cfg.tools, idx))
  }

  /** Adding a tool and deleting the last tool restores the configuration. */
  lemma AddThenDeleteTool(cfg: AppConfig, roll: nat)
    requires roll < 1000
    ensures DeleteTool(AddTool(cfg, roll), |cfg.tools|) == cfg
  {
    assert RemoveAt(AddTool(cfg, roll).tools, |cfg.tools|) == cfg.tools;
  }
}
