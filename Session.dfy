/** The chat page's session state and its submit turn (App.tsx): the
    transcript, the input box and the session-wide "thinking" flag, plus the
    configuration whose active scheme decides the mode.

    A turn is modelled sequentially. The strategy's effect on the page is
    what it delivered to the step callback before its promise settled, and
    how it settled (`StrategyRun`); `SubmitSimulated` plugs in the simulated
    back end. Message ids come from the caller, as the step ids do. */
module Session {
  import opened Types
  import opened Text
  import opened StepLedger
  import opened AgentService

  /** The content written when the strategy's promise rejects. */
  const FallbackContent := "系统遇到错误，请稍后再试。"

  /** How the strategy's promise settled. */
  datatype Outcome = Resolved(text: string) | Rejected

  /** The steps a strategy delivered before settling, and how it settled. */
  datatype StrategyRun = StrategyRun(trace: seq<AgentStep>, outcome: Outcome)

  /** The assistant's final content: the resolved text, or the fixed fallback. */
  function TerminalContent(outcome: Outcome): (content: string)
    ensures outcome.Resolved? ==> content == outcome.text
    ensures outcome.Rejected? ==> content == FallbackContent
  {
    match outcome
    case Resolved(text) => text
    case Rejected => FallbackContent
  }

  function UserMessage(id: string, text: string, now: int): Message
  {
    Message(id, User, text, now, [], false)
  }

  /** The pending assistant message: no content, no steps, thinking. */
  function Placeholder(id: string, now: int): Message
  {
    Message(id, Assistant, "", now, [], true)
  }

  /** The step callback: every message whose id is `target` gets `step`
      upserted into its steps; every other message is left as it was. */
  function MergeStep(messages: seq<Message>, target: string, step: AgentStep): (r: seq<Message>)
    ensures |r| == |messages|
    ensures forall i :: 0 <= i < |messages| && messages[i].id != target ==> r[i] == messages[i]
    ensures forall i :: 0 <= i < |messages| && messages[i].id == target ==>
              r[i] == messages[i].(steps := Upsert(messages[i].steps, step))
  {
    seq(|messages|, i requires 0 <= i < |messages| =>
      if messages[i].id == target then messages[i].(steps := Upsert(messages[i].steps, step))
      else messages[i])
  }

  /** The step callback applied to every event of a run, in emission order. */
  function MergeTrace(messages: seq<Message>, target: string, trace: seq<AgentStep>): (r: seq<Message>)
    ensures |r| == |messages|
    ensures forall i :: 0 <= i < |messages| && messages[i].id != target ==> r[i] == messages[i]
    ensures forall i :: 0 <= i < |messages| && messages[i].id == target ==>
              r[i] == messages[i].(steps := MergeAll(messages[i].steps, trace))
    decreases |trace|
  {
    if trace == [] then messages
    else MergeStep(MergeTrace(messages, target, trace[..|trace| - 1]), target, trace[|trace| - 1])
  }

  /** Folding one more event of the run is one more step callback. */
  lemma MergeTraceSnoc(messages: seq<Message>, target: string, trace: seq<AgentStep>, k: nat)
    requires k < |trace|
    ensures MergeTrace(messages, target, trace[..k + 1])
            == MergeStep(MergeTrace(messages, target, trace[..k]), target, trace[k])
  {
    assert trace[..k + 1][..k] == trace[..k];
  }

  /** The terminal write: content set and thinking cleared on the target message only. */
  function Finish(messages: seq<Message>, target: string, content: string): (r: seq<Message>)
    ensures |r| == |messages|
    ensures forall i :: 0 <= i < |messages| && messages[i].id != target ==> r[i] == messages[i]
    ensures forall i :: 0 <= i < |messages| && messages[i].id == target ==>
              r[i] == messages[i].(content := content, isThinking := false)
  {
    seq(|messages|, i requires 0 <= i < |messages| =>
      if messages[i].id == target then messages[i].(content := content, isThinking := false)
      else messages[i])
  }

  /** No message of the transcript carries `id`. */
  predicate FreshId(messages: seq<Message>, id: string)
  {
    forall i :: 0 <= i < |messages| ==> messages[i].id != id
  }

  /** The transcript once the run has settled: every delivered step folded
      into the target, then the terminal content written to it. */
  function SettledTranscript(pending: seq<Message>, target: string, run: StrategyRun): seq<Message>
  {
    Finish(MergeTrace(pending, target, run.trace), target, TerminalContent(run.outcome))
  }

  /** With fresh message ids, a whole turn appends exactly two messages to the
      transcript: the user's text, and the assistant message holding the
      terminal content, no longer thinking, with the run's ledger as steps. */
  lemma TurnTranscript(messages: seq<Message>, userId: string, assistantId: string, text: string,
                       run: StrategyRun, now: int)
    requires FreshId(messages, assistantId) && userId != assistantId
    ensures SettledTranscript(messages + [UserMessage(userId, text, now)] + [Placeholder(assistantId, now)], assistantId, run)
            == messages + [UserMessage(userId, text, now),
                           Message(assistantId, Assistant, TerminalContent(run.outcome), now, Ledger(run.trace), false)]
  {
    var start := messages + [UserMessage(userId, text, now)] + [Placeholder(assistantId, now)];
    var done := SettledTranscript(start, assistantId, run);
    var expected := messages + [UserMessage(userId, text, now),
                                Message(assistantId, Assistant, TerminalContent(run.outcome), now, Ledger(run.trace), false)];
    forall i | 0 <= i < |start| ensures done[i] == expected[i] {
      if i < |messages| {
        assert start[i] == messages[i];
      }
    }
  }

  /** The step callback invoked once per delivered event, in order. */
  method DeliverSteps(messages: seq<Message>, target: string, trace: seq<AgentStep>) returns (merged: seq<Message>)
    ensures merged == MergeTrace(messages, target, trace)
  {
    merged := messages;
    var i := 0;
    while i < |trace|
      invariant 0 <= i <= |trace|
      invariant merged == MergeTrace(messages, target, trace[..i])
    {
      MergeTraceSnoc(messages, target, trace, i);
      merged := MergeStep(merged, target, trace[i]);
      i := i + 1;
    }
    assert trace[..i] == trace;
  }

  /** The awaited strategy call with its step callback, then the terminal write. */
  method SettleTurn(pending: seq<Message>, target: string, run: StrategyRun) returns (settled: seq<Message>)
    ensures settled == SettledTranscript(pending, target, run)
  {
    var merged := DeliverSteps(pending, target, run.trace);
    settled := Finish(merged, target, TerminalContent(run.outcome));
  }

  class ChatSession {
    var messages: seq<Message>
    var input: string
    var isThinking: bool
    var config: AppConfig

    /** The page as it first renders: the welcome message, an empty input box, not thinking. */
    constructor(config: AppConfig, welcome: string, now: int)
      ensures messages == [Message("welcome", Assistant, welcome, now, [], false)]
      ensures input == "" && !isThinking && this.config == config
    {
      messages := [Message("welcome", Assistant, welcome, now, [], false)];
      input := "";
      isThinking := false;
      this.config := config;
    }

    /** The scheme the chat runs: the first solution carrying `activeSolutionId`, if any. */
    function ActiveSolution(): (r: Option<Solution>)
      reads this
      ensures r.None? <==> forall k :: 0 <= k < |config.solutions| ==> config.solutions[k].id != config.activeSolutionId
      ensures r.Some? ==> r.value in config.solutions && r.value.id == config.activeSolutionId
    {
      FindSolution(config.solutions, config.activeSolutionId)
    }

    /** The chat page's scheme picker: only the active scheme id changes. */
    method SelectSolution(id: string)
      modifies this
      ensures config == old(config).(activeSolutionId := id)
      ensures messages == old(messages) && input == old(input) && isThinking == old(isThinking)
      ensures ActiveSolution() == FindSolution(config.solutions, id)
    {
      config := config.(activeSolutionId := id);
    }

    /** The submit guard: some non-whitespace input, no run in flight, and an active scheme. */
    predicate CanSubmit()
      reads this
      ensures CanSubmit() <==> !Blank(input) && !isThinking && ActiveSolution().Some?
    {
      TrimEmptyIffBlank(input);
      Trim(input) != "" && !isThinking && ActiveSolution().Some?
    }

    /** One submit turn. A refused submit changes nothing. An accepted one
        appends the user message and the assistant placeholder, clears the
        input, folds every delivered step into the placeholder, writes the
        terminal content (the resolved text, or the fallback when the
        strategy rejects, without rethrowing), and clears the session's
        thinking flag in every outcome. */
    method Submit(userId: string, assistantId: string, run: StrategyRun, now: int) returns (accepted: bool)
      modifies this
      ensures accepted == old(CanSubmit())
      ensures config == old(config)
      ensures !accepted ==> messages == old(messages) && input == old(input) && isThinking == old(isThinking)
      ensures accepted ==> input == "" && !isThinking
      ensures accepted ==>
        messages == SettledTranscript(old(messages) + [UserMessage(userId, old(input), now)] + [Placeholder(assistantId, now)],
                            assistantId, run)
      ensures accepted && FreshId(old(messages), assistantId) && userId != assistantId ==>
        messages == old(messages) + [UserMessage(userId, old(input), now),
                                     Message(assistantId, Assistant, TerminalContent(run.outcome), now,
                                             Ledger(run.trace), false)]
    {
      if Trim(input) == "" || isThinking || ActiveSolution().None? {
        accepted := false;
        return;
      }
      ghost var before := messages;
      ghost var text := input;

      var userMsg := UserMessage(userId, input, now);
      messages := messages + [userMsg];
      input := "";
      isThinking := true;
      messages := messages + [Placeholder(assistantId, now)];

      messages := SettleTurn(messages, assistantId, run);
      isThinking := false;
      accepted := true;

      if FreshId(before, assistantId) && userId != assistantId {
        TurnTranscript(before, userId, assistantId, text, run, now);
      }
    }

    /** A submit turn against the simulated back end, run in the active
        scheme's mode. With fresh message ids, the reply is the last message,
        no longer thinking, and its steps hold one completed entry per
        emitted step id. */
    method SubmitSimulated(userId: string, assistantId: string, stepIds: seq<string>, now: int)
      returns (accepted: bool)
      requires |stepIds| >= |WorkflowStages|
      modifies this
      ensures accepted == old(CanSubmit())
      ensures config == old(config)
      ensures !accepted ==> unchanged(this)
      ensures accepted ==> input == "" && !isThinking && |messages| == |old(messages)| + 2
      ensures accepted && FreshId(old(messages), assistantId) && userId != assistantId ==>
        && messages[..|old(messages)|] == old(messages)
        && messages[|messages| - 2] == UserMessage(userId, old(input), now)
        && messages[|messages| - 1].id == assistantId
        && messages[|messages| - 1].role == Assistant
        && messages[|messages| - 1].timestamp == now
        && messages[|messages| - 1].content == ModeAnswer(old(ActiveSolution()).value.mode, old(input))
        && (exists trace :: ModeRun(old(ActiveSolution()).value.mode, trace, old(input), stepIds, now)
                            && messages[|messages| - 1].steps == Ledger(trace)
                            && messages == old(messages) + [UserMessage(userId, old(input), now),
                                 Message(assistantId, Assistant, ModeAnswer(old(ActiveSolution()).value.mode, old(input)),
                                         now, Ledger(trace), false)])
        && !messages[|messages| - 1].isThinking
        && DistinctIds(messages[|messages| - 1].steps)
        && AllCompleted(messages[|messages| - 1].steps)
    {
      if !CanSubmit() {
        accepted := false;
        return;
      }
      var mode := ActiveSolution().value.mode;
      var trace, answer := SimulateAgentResponse(input, mode, stepIds, now);
      LedgerOfSettledRun(trace);
      accepted := Submit(userId, assistantId, StrategyRun(trace, Resolved(answer)), now);
    }
  }
}
