/** The turn pipeline of `Backend/agents.py`: the summariser
    (`ContextManagerAgent.build_context`), the character
    (`CharacterAgent.reply`), the moderator (`ModeratorAgent.check`) and
    `MultiAgentPipeline.run`, which skips the summariser when the persona has
    no history yet. */
module Pipeline {
  import opened Text
  import opened History
  import opened Oracle

  /** The context the character stage gets when the window is empty. */
  const Sentinel: string := "Summary: New conversation. Recent turns: None"

  /** The fixed wording of this file's templates around their inputs;
      only where the inputs sit matters to the model, the instructions are
      paraphrased. */
  const Templates: Wording := Wording(
    "Create a compact summary of the conversation in 2-3 sentences, then quote its last 2-3 messages word for word. Invent nothing.\n\nConversation:\n",
    "\n\nReturn format:\n<summary>\n<recent_messages>\n",
    ".\n\nRULES: continue naturally; do not restart; do not greet unless the user greets first; do not summarise; stay consistent with the recent turns; stay in character.\n\nConversation Summary + Recent Turns:\n",
    "Clean the reply without changing its meaning, style or tone; add no greeting; do not restart; fix only unsafe content, hallucinated details and grammar.\n\nReply to clean:\n")

  /** `ContextManagerAgent.build_context`: one call with the transcript,
      answer stripped. */
  method BuildContext(model: Model, history: seq<Entry>) returns (context: Generated)
    modifies model
    ensures model.calls == old(model.calls) + [SummaryPrompt(Transcript(history))]
    ensures model.script == Drop(old(model.script), 1)
    ensures context == Stripped(AnswerAt(old(model.script), 0), Summarize)
  {
    var a := model.Generate(SummaryPrompt(Transcript(history)));
    context := Stripped(a, Summarize);
  }

  /** `CharacterAgent.reply`: one call with name, tone, context and message. */
  method Reply(model: Model, name: string, tone: string, context: string, userMsg: string)
    returns (draft: Generated)
    modifies model
    ensures model.calls == old(model.calls) + [CharacterPrompt(name, tone, context, userMsg)]
    ensures model.script == Drop(old(model.script), 1)
    ensures draft == Stripped(AnswerAt(old(model.script), 0), Respond)
  {
    var a := model.Generate(CharacterPrompt(name, tone, context, userMsg));
    draft := Stripped(a, Respond);
  }

  /** `ModeratorAgent.check`: one call with the draft. */
  method Check(model: Model, draft: string) returns (clean: Generated)
    modifies model
    ensures model.calls == old(model.calls) + [ModeratorPrompt(draft)]
    ensures model.script == Drop(old(model.script), 1)
    ensures clean == Stripped(AnswerAt(old(model.script), 0), Moderate)
  {
    var a := model.Generate(ModeratorPrompt(draft));
    clean := Stripped(a, Moderate);
  }

  /** The stages a turn goes through when every call succeeds. */
  function Plan(window: seq<Entry>): seq<Stage> {
    if window == [] then [Respond, Moderate] else [Summarize, Respond, Moderate]
  }

  /** Respond, then Moderate the draft, answered from `script`. */
  function RespondAndModerate(name: string, tone: string, context: string, userMsg: string,
                              script: seq<Answer>): Turn
  {
    var reply := CharacterPrompt(name, tone, context, userMsg);
    match Stripped(AnswerAt(script, 0), Respond)
    case GenerationFailure(s) => Turn(GenerationFailure(s), [reply])
    case Generated(draft) =>
      Turn(Stripped(AnswerAt(script, 1), Moderate), [reply, ModeratorPrompt(draft)])
  }

  /** What `run` does with a window and a script of answers. */
  function TurnOf(window: seq<Entry>, name: string, tone: string, userMsg: string,
                  script: seq<Answer>): Turn
  {
    if window == [] then RespondAndModerate(name, tone, Sentinel, userMsg, script)
    else
      var summary := SummaryPrompt(Transcript(window));
      match Stripped(AnswerAt(script, 0), Summarize)
      case GenerationFailure(s) => Turn(GenerationFailure(s), [summary])
      case Generated(context) =>
        var rest := RespondAndModerate(name, tone, context, userMsg, Drop(script, 1));
        Turn(rest.outcome, [summary] + rest.calls)
  }

  /** Every turn runs a non-empty prefix of its plan, in plan order, and stops
      at the first call that fails; it succeeds exactly when the whole plan ran
      and every answer was a reply, and a failure names the stage whose call
      raised. */
  lemma TurnFollowsPlan(window: seq<Entry>, name: string, tone: string, userMsg: string,
                        script: seq<Answer>)
    ensures var t := TurnOf(window, name, tone, userMsg, script);
            var n := |t.calls|;
            && 1 <= n <= |Plan(window)|
            && Stages(t.calls) == Plan(window)[..n]
            && (forall k :: 0 <= k < n - 1 ==> AnswerAt(script, k).Answered?)
            && (t.outcome.Generated? <==> n == |Plan(window)| && AnswerAt(script, n - 1).Answered?)
            && (t.outcome.GenerationFailure? ==>
                  AnswerAt(script, n - 1) == Fault && t.outcome.stage == Plan(window)[n - 1])
  {
    var t := TurnOf(window, name, tone, userMsg, script);
    if window != [] && AnswerAt(script, 0).Answered? {
      DropDrop(script, 1, 0, 0);
      DropDrop(script, 1, 0, 1);
      var rest := RespondAndModerate(name, tone, Strip(AnswerAt(script, 0).text), userMsg, Drop(script, 1));
      assert t.calls == [t.calls[0]] + rest.calls;
    }
  }

  /** A new conversation: the summariser is never called, the character sees
      the sentinel text, and a successful turn makes exactly two calls,
      Respond then Moderate. */
  lemma EmptyWindowSkipsSummary(name: string, tone: string, userMsg: string, script: seq<Answer>)
    ensures var t := TurnOf([], name, tone, userMsg, script);
            && Summarize !in Stages(t.calls)
            && t.calls[0] == CharacterPrompt(name, tone, Sentinel, userMsg)
            && (t.outcome.Generated? ==> Stages(t.calls) == [Respond, Moderate])
  {
    TurnFollowsPlan([], name, tone, userMsg, script);
  }

  /** A conversation with history: the first call summarises the transcript of
      the window, and a successful turn makes exactly three calls, Summarize,
      Respond, Moderate. */
  lemma NonEmptyWindowSummarises(window: seq<Entry>, name: string, tone: string, userMsg: string,
                                 script: seq<Answer>)
    requires window != []
    ensures var t := TurnOf(window, name, tone, userMsg, script);
            && t.calls[0] == SummaryPrompt(Transcript(window))
            && (t.outcome.Generated? ==> Stages(t.calls) == [Summarize, Respond, Moderate])
  {
    TurnFollowsPlan(window, name, tone, userMsg, script);
  }

  /** Each stage's output is an ingredient of the next prompt: the character
      is asked under the pipeline's name and tone, and its prompt carries the
      context (the sentinel, or the stripped summary) and
      the user's message, and the moderator prompt carries the stripped
      draft. What the turn returns is the moderator's stripped answer, never
      the draft. */
  lemma OutputsFlowForward(window: seq<Entry>, name: string, tone: string, userMsg: string,
                           script: seq<Answer>)
    ensures var t := TurnOf(window, name, tone, userMsg, script);
            var r := if window == [] then 0 else 1;
            && (r < |t.calls| ==>
                  t.calls[r] == CharacterPrompt(name, tone,
                                                if window == [] then Sentinel else Strip(AnswerAt(script, 0).text),
                                                userMsg))
            && (r + 1 < |t.calls| ==> t.calls[r + 1] == ModeratorPrompt(Strip(AnswerAt(script, r).text)))
            && (r < |t.calls| ==>
                  StageOf(t.calls[r]) == Respond && Embeds(PromptText(Templates, t.calls[r]), userMsg)
                  && Embeds(PromptText(Templates, t.calls[r]),
                            if window == [] then Sentinel else Strip(AnswerAt(script, 0).text)))
            && (r + 1 < |t.calls| ==>
                  StageOf(t.calls[r + 1]) == Moderate
                  && Embeds(PromptText(Templates, t.calls[r + 1]), Strip(AnswerAt(script, r).text)))
            && (t.outcome.Generated? ==>
                  |t.calls| == r + 2 && t.outcome.text == Strip(AnswerAt(script, r + 1).text)
                  && Unpadded(t.outcome.text))
  {
    DropDrop(script, 1, 0, 0);
    DropDrop(script, 1, 0, 1);
  }

  /** The last two steps of `run`: the character's draft, then the
      moderator's clean-up of it. */
  method RespondThenModerate(model: Model, name: string, tone: string, context: string, userMsg: string)
    returns (result: Generated)
    modifies model
    ensures var t := RespondAndModerate(name, tone, context, userMsg, old(model.script));
            && result == t.outcome
            && model.calls == old(model.calls) + t.calls
            && model.script == Drop(old(model.script), |t.calls|)
  {
    ghost var script := model.script;
    var draft := Reply(model, name, tone, context, userMsg);
    if draft.GenerationFailure? {
      return draft;
    }
    DropDrop(script, 1, 0, 0);
    DropDrop(script, 1, 1, 0);
    result := Check(model, draft.text);
  }

  /** `MultiAgentPipeline`: the persona's name and tone, fixed for one turn. */
  class MultiAgentPipeline {
    const characterName: string
    const tone: string

    constructor (characterName: string, tone: string)
      ensures this.characterName == characterName && this.tone == tone
    {
      this.characterName := characterName;
      this.tone := tone;
    }

    /** `run`: fetch the window (default limit 10); summarise it unless it is
        empty; reply; moderate. An exception of any call ends the turn. */
    method Run(store: MessageTable, model: Model, personaId: int, userMsg: string)
      returns (result: Generated)
      requires store.Valid()
      modifies model
      ensures var t := TurnOf(SqlWindow(store.rows, personaId, DefaultLimit),
                              characterName, tone, userMsg, old(model.script));
              && result == t.outcome
              && model.calls == old(model.calls) + t.calls
              && model.script == Drop(old(model.script), |t.calls|)
    {
      ghost var script, calls := model.script, model.calls;
      var history := store.FetchLast(personaId, DefaultLimit);
      if |history| == 0 {
        result := RespondThenModerate(model, characterName, tone, Sentinel, userMsg);
      } else {
        var summary := BuildContext(model, history);
        if summary.GenerationFailure? {
          return summary;
        }
        result := RespondThenModerate(model, characterName, tone, summary.text, userMsg);
        ghost var rest := RespondAndModerate(characterName, tone, summary.text, userMsg, Drop(script, 1));
        assert model.calls == calls + ([SummaryPrompt(Transcript(history))] + rest.calls);
        DropDrop(script, 1, |rest.calls|, 0);
      }
    }
  }
}
