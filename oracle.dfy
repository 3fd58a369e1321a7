/** The hosted text-generation model, seen from the agents: each
    `generate_content(prompt)` call either returns some text or raises. What it
    returns is not under the program's control, so the model hands out the
    answers of a script given in advance, one per call, and records every
    prompt it is sent. A prompt is recorded as the template it was built from
    and the inputs filled into it; each pipeline module renders it to text. */
module Oracle {
  import opened Text

  /** The three agents that call the model. */
  datatype Stage = Summarize | Respond | Moderate

  /** One answer of the model: its `res.text`, or an exception (network error,
      quota, timeout, a blocked response). */
  datatype Answer = Answered(text: string) | Fault

  /** One prompt sent to the model: which agent's template, with its inputs. */
  datatype Prompt =
    | SummaryPrompt(transcript: string)
    | CharacterPrompt(name: string, tone: string, context: string, userMsg: string)
    | ModeratorPrompt(draft: string)

  /** The agent that sends a prompt of this kind. */
  function StageOf(p: Prompt): Stage {
    match p
    case SummaryPrompt(_) => Summarize
    case CharacterPrompt(_, _, _, _) => Respond
    case ModeratorPrompt(_) => Moderate
  }

  /** The fixed wording of one set of templates, around their inputs: the
      text before and after the transcript, the text between the tone and
      the context in the character's prompt, and the text before the draft. */
  datatype Wording = Wording(summaryHead: string, summaryTail: string,
                             characterMiddle: string, moderatorHead: string)

  /** The summariser's prompt: the transcript between the head and the tail. */
  function SummaryText(w: Wording, transcript: string): (p: string)
    ensures Embeds(p, transcript)
  {
    EmbedsEnd(w.summaryHead, transcript);
    EmbedsExtend(w.summaryHead + transcript, w.summaryTail, transcript);
    w.summaryHead + transcript + w.summaryTail
  }

  /** The character's prompt: its name and tone, the context and the user's
      message, and the name once more in the closing instruction. */
  function CharacterText(w: Wording, name: string, tone: string, context: string, userMsg: string)
    : (p: string)
    ensures Embeds(p, name) && Embeds(p, tone) && Embeds(p, context) && Embeds(p, userMsg)
  {
    var s1 := "You are " + name;
    var s2 := s1 + ".\nTone: ";
    var s3 := s2 + tone;
    var s4 := s3 + w.characterMiddle;
    var s5 := s4 + context;
    var s6 := s5 + "\n\nUser: ";
    var s7 := s6 + userMsg;
    var tail := "\n\nReply as " + name + ".\n";
    EmbedsEnd("You are ", name);
    EmbedsExtend(s1, ".\nTone: ", name);
    EmbedsEnd(s2, tone);
    EmbedsExtend(s2, tone, name);
    EmbedsExtend(s3, w.characterMiddle, name);
    EmbedsExtend(s3, w.characterMiddle, tone);
    EmbedsEnd(s4, context);
    EmbedsExtend(s4, context, name);
    EmbedsExtend(s4, context, tone);
    EmbedsExtend(s5, "\n\nUser: ", name);
    EmbedsExtend(s5, "\n\nUser: ", tone);
    EmbedsExtend(s5, "\n\nUser: ", context);
    EmbedsEnd(s6, userMsg);
    EmbedsExtend(s6, userMsg, name);
    EmbedsExtend(s6, userMsg, tone);
    EmbedsExtend(s6, userMsg, context);
    EmbedsExtend(s7, tail, name);
    EmbedsExtend(s7, tail, tone);
    EmbedsExtend(s7, tail, context);
    EmbedsExtend(s7, tail, userMsg);
    s7 + tail
  }

  /** The moderator's prompt: the draft reply after the head. */
  function ModeratorText(w: Wording, draft: string): (p: string)
    ensures Embeds(p, draft)
  {
    EmbedsEnd(w.moderatorHead, draft);
    EmbedsExtend(w.moderatorHead + draft, "\n", draft);
    w.moderatorHead + draft + "\n"
  }

  /** The text a set of templates gives a prompt: every input of the prompt
      appears in it verbatim. */
  function PromptText(w: Wording, p: Prompt): (t: string)
    ensures p.SummaryPrompt? ==> Embeds(t, p.transcript)
    ensures p.CharacterPrompt? ==>
              Embeds(t, p.name) && Embeds(t, p.tone) && Embeds(t, p.context) && Embeds(t, p.userMsg)
    ensures p.ModeratorPrompt? ==> Embeds(t, p.draft)
  {
    match p
    case SummaryPrompt(transcript) => SummaryText(w, transcript)
    case CharacterPrompt(name, tone, context, userMsg) => CharacterText(w, name, tone, context, userMsg)
    case ModeratorPrompt(draft) => ModeratorText(w, draft)
  }

  /** What a stage produces: its stripped text, or the failure that aborts the
      turn, tagged with the stage whose call raised. */
  datatype Generated = Generated(text: string) | GenerationFailure(stage: Stage)

  /** The answer to the `k`-th call of a turn; calls beyond the script fail. */
  function AnswerAt(script: seq<Answer>, k: nat): Answer {
    if k < |script| then script[k] else Fault
  }

  /** `script` once its first `n` answers have been used. */
  function Drop(script: seq<Answer>, n: nat): seq<Answer> {
    if n <= |script| then script[n..] else []
  }

  /** Using up `n` answers and then `m` more is using up `n + m`; the answer
      to the `k`-th call after the first `n` is the answer to call `n + k`. */
  lemma DropDrop(script: seq<Answer>, n: nat, m: nat, k: nat)
    ensures Drop(Drop(script, n), m) == Drop(script, n + m)
    ensures AnswerAt(Drop(script, n), k) == AnswerAt(script, n + k)
  {
  }

  /** `res.text.strip()`, or the exception passed on. */
  function Stripped(a: Answer, stage: Stage): (g: Generated)
    ensures g.Generated? <==> a.Answered?
    ensures g.Generated? ==> Unpadded(g.text) && g.text == Strip(a.text)
    ensures g.GenerationFailure? ==> g.stage == stage
  {
    match a
    case Answered(t) => Generated(Strip(t))
    case Fault => GenerationFailure(stage)
  }

  /** One turn of a pipeline: what it returns and the calls it made, in order. */
  datatype Turn = Turn(outcome: Generated, calls: seq<Prompt>)

  function Stages(calls: seq<Prompt>): (r: seq<Stage>)
    ensures |r| == |calls|
  {
    seq(|calls|, i requires 0 <= i < |calls| => StageOf(calls[i]))
  }

  class Model {
    /** The answers still to come, in the order they will be given. */
    var script: seq<Answer>
    /** Every prompt sent so far, in the order it was sent. */
    var calls: seq<Prompt>

    constructor (script: seq<Answer>)
      ensures this.script == script && calls == []
    {
      this.script := script;
      calls := [];
    }

    /** `self.model.generate_content(prompt)`: records the call and uses up
        one answer of the script. */
    method Generate(prompt: Prompt) returns (a: Answer)
      modifies this
      ensures calls == old(calls) + [prompt]
      ensures script == Drop(old(script), 1)
      ensures a == AnswerAt(old(script), 0)
    {
      calls := calls + [prompt];
      if script == [] {
        a := Fault;
      } else {
        a := script[0];
        script := script[1..];
      }
    }
  }
}
