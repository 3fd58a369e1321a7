/** The second copy of the turn pipeline, in `backend/agents.py`. Its agents
    call the model and strip the answer exactly as those of `Backend/agents.py`
    do (the stage methods of `Pipeline` are shared); its templates are worded
    differently, and its `run` has no empty-history branch: it always
    summarises, so every successful turn makes three calls. */
module VariantPipeline {
  import opened Text
  import opened History
  import opened Oracle
  import Pipeline

  /** The fixed wording of this file's templates around their inputs,
      paraphrased. */
  const Templates: Wording := Wording(
    "Summarise this chat in 3-4 sentences. Invent no facts.\n\nConversation:\n",
    "\n",
    ".\n\nStay completely in character. Do not break the fourth wall.\n\nContext Summary:\n",
    "Clean this reply: no hallucinations, same tone and personality, unsafe content removed.\n\n")

  /** The stages every turn goes through when every call succeeds. */
  const Plan: seq<Stage> := [Summarize, Respond, Moderate]

  /** What this `run` does with a window and a script of answers. */
  function TurnOf(window: seq<Entry>, name: string, tone: string, userMsg: string,
                  script: seq<Answer>): Turn
  {
    var summary := SummaryPrompt(Transcript(window));
    match Stripped(AnswerAt(script, 0), Summarize)
    case GenerationFailure(s) => Turn(GenerationFailure(s), [summary])
    case Generated(context) =>
      var rest := Pipeline.RespondAndModerate(name, tone, context, userMsg, Drop(script, 1));
      Turn(rest.outcome, [summary] + rest.calls)
  }

  /** Every turn starts by summarising the transcript of its window (the empty
      transcript for a new conversation), runs a prefix of Summarize, Respond,
      Moderate in that order and stops at the first call that fails; it
      succeeds exactly when all three calls were answered. */
  lemma TurnFollowsPlan(window: seq<Entry>, name: string, tone: string, userMsg: string,
                        script: seq<Answer>)
    ensures var t := TurnOf(window, name, tone, userMsg, script);
            var n := |t.calls|;
            && 1 <= n <= 3
            && t.calls[0] == SummaryPrompt(Transcript(window))
            && (window == [] ==> t.calls[0] == SummaryPrompt(""))
            && Stages(t.calls) == Plan[..n]
            && (forall k :: 0 <= k < n - 1 ==> AnswerAt(script, k).Answered?)
            && (t.outcome.Generated? <==> n == 3 && AnswerAt(script, 2).Answered?)
            && (t.outcome.GenerationFailure? ==>
                  AnswerAt(script, n - 1) == Fault && t.outcome.stage == Plan[n - 1])
            && (t.outcome.Generated? ==> t.outcome.text == Strip(AnswerAt(script, 2).text))
  {
    var t := TurnOf(window, name, tone, userMsg, script);
    if AnswerAt(script, 0).Answered? {
      DropDrop(script, 1, 0, 0);
      DropDrop(script, 1, 0, 1);
      var rest := Pipeline.RespondAndModerate(name, tone, Strip(AnswerAt(script, 0).text), userMsg, Drop(script, 1));
      assert t.calls == [t.calls[0]] + rest.calls;
    }
  }

  /** The character always works from the model's summary, even of an empty
      conversation: it is asked under the pipeline's name and tone, and its
      prompt, in this file's wording, carries the stripped summary and the user's message, and the moderator's carries the
      stripped draft. */
  lemma SummaryReachesCharacter(window: seq<Entry>, name: string, tone: string, userMsg: string,
                                script: seq<Answer>)
    ensures var t := TurnOf(window, name, tone, userMsg, script);
            && (2 <= |t.calls| ==>
                  && t.calls[1] == CharacterPrompt(name, tone, Strip(AnswerAt(script, 0).text), userMsg)
                  && StageOf(t.calls[1]) == Respond
                  && Embeds(PromptText(Templates, t.calls[1]), Strip(AnswerAt(script, 0).text))
                  && Embeds(PromptText(Templates, t.calls[1]), userMsg))
            && (3 <= |t.calls| ==>
                  && t.calls[2] == ModeratorPrompt(Strip(AnswerAt(script, 1).text))
                  && StageOf(t.calls[2]) == Moderate
                  && Embeds(PromptText(Templates, t.calls[2]), Strip(AnswerAt(script, 1).text)))
  {
    DropDrop(script, 1, 0, 0);
    DropDrop(script, 1, 0, 1);
  }

  /** How the two pipelines differ: on a non-empty window they make the same
      calls with the same inputs and return the same thing; on an empty window
      this one asks the model to summarise an empty transcript, where
      `Backend/agents.py` skips straight to the character with the sentinel,
      so a successful new-conversation turn costs three calls here and two
      there. */
  lemma DiffersOnlyOnEmptyWindow(window: seq<Entry>, name: string, tone: string, userMsg: string,
                                 script: seq<Answer>)
    ensures window != [] ==>
              TurnOf(window, name, tone, userMsg, script)
              == Pipeline.TurnOf(window, name, tone, userMsg, script)
    ensures window == [] ==>
              && StageOf(TurnOf(window, name, tone, userMsg, script).calls[0]) == Summarize
              && StageOf(Pipeline.TurnOf(window, name, tone, userMsg, script).calls[0]) == Respond
  {
  }

  /** `MultiAgentPipeline` of `backend/agents.py`. */
  class MultiAgentPipeline {
    const characterName: string
    const tone: string

    constructor (characterName: string, tone: string)
      ensures this.characterName == characterName && this.tone == tone
    {
      this.characterName := characterName;
      this.tone := tone;
    }

    /** `run`: fetch the window (default limit 10), summarise it, reply,
        moderate; an exception of any call ends the turn. */
    method Run(store: MessageTable, model: Model, personaId: int, userMsg: string)
      returns (result: Generated)
      requires store.Valid()
      modifies model
      ensures var t := TurnOf(SqlWindow(store.rows, personaId, DefaultLimit),
                              characterName, tone, userMsg, old(model.script));
              && result == t.outcome
              && model.calls == old(model.calls) + t.calls
              && model.script == Drop(old(model.script), |t.calls|)
    {
      ghost var script, calls := model.script, model.calls;
      var history := store.FetchLast(personaId, DefaultLimit);
      var summary := Pipeline.BuildContext(model, history);
      if summary.GenerationFailure? {
        return summary;
      }
      result := Pipeline.RespondThenModerate(model, characterName, tone, summary.text, userMsg);
      ghost var rest := Pipeline.RespondAndModerate(characterName, tone, summary.text, userMsg, Drop(script, 1));
      assert model.calls == calls + ([SummaryPrompt(Transcript(history))] + rest.calls);
      DropDrop(script, 1, |rest.calls|, 0);
    }
  }
}
