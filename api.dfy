/** The persona and chat endpoints of `Backend/main.py` over the two tables
    they use, `persona_flow` (personas) and `persona_messages` (chat rows):
    creating a persona, one chat turn, reading a persona's messages and
    deleting a persona. Every endpoint but creation first checks that the
    persona belongs to the calling user. */
module Api {
  import opened Seqs
  import opened Text
  import opened History
  import opened Oracle
  import Pipeline

  datatype Option<T> = None | Some(value: T)

  /** The body of `POST /personas`: tone and summary may be absent. */
  datatype PersonaCreate = PersonaCreate(userId: int, characterName: string, mode: string,
                                         tone: Option<string>, summary: Option<string>)

  /** One row of `persona_flow`. */
  datatype PersonaRow = PersonaRow(id: int, userId: int, characterName: string, mode: string,
                                   tone: string, summary: string)

  function PersonaId(p: PersonaRow): int {
    p.id
  }

  /** An `HTTPException`, or an exception of a model call that escapes the
      endpoint (the stage says which call raised). */
  datatype ApiError = HttpError(status: int, detail: string) | ModelError(stage: Stage)

  datatype Response<T> = Ok(value: T) | Err(error: ApiError)

  const NeedsSummary: string := "Custom mode needs summary"
  const NotFoundForUser: string := "Persona not found for this user"
  const AccessDenied: string := "Access denied"
  const NotOwned: string := "Persona not found or not owned by user"

  /** Python truthiness of an optional string: present and not empty. */
  predicate Truthy(v: Option<string>) {
    v.Some? && v.value != ""
  }

  /** `v if v else default`. */
  function OrDefault(v: Option<string>, default: string): string {
    if Truthy(v) then v.value else default
  }

  /** What every stored persona satisfies: it has a tone, and a custom persona
      has a summary. */
  predicate WellFormed(p: PersonaRow) {
    p.tone != "" && (p.mode == "custom" ==> p.summary != "")
  }

  /** The defaults, the custom-mode check and the insert of
      `create_persona`: the row it inserts under `id`, or the 400 error it
      raises (and then inserts nothing). The tone falls back to
      "neutral" and the summary to the empty string; a custom persona without
      a summary is refused, any other request is accepted. */
  function NewPersona(p: PersonaCreate, id: int): (r: Response<PersonaRow>)
    ensures r.Err? <==> p.mode == "custom" && !Truthy(p.summary)
    ensures r.Err? ==> r.error == HttpError(400, NeedsSummary)
    ensures r.Ok? ==>
              && WellFormed(r.value)
              && r.value.id == id && r.value.userId == p.userId
              && r.value.characterName == p.characterName && r.value.mode == p.mode
              && (Truthy(p.tone) ==> r.value.tone == p.tone.value)
              && (!Truthy(p.tone) ==> r.value.tone == "neutral")
              && (Truthy(p.summary) ==> r.value.summary == p.summary.value)
              && (!Truthy(p.summary) ==> r.value.summary == "")
  {
    var tone := OrDefault(p.tone, "neutral");
    var summary := OrDefault(p.summary, "");
    if p.mode == "custom" && summary == "" then Err(HttpError(400, NeedsSummary))
    else Ok(PersonaRow(id, p.userId, p.characterName, p.mode, tone, summary))
  }

  /** `persona["tone"] or "neutral"`, the tone `agent_respond` hands to the
      pipeline. */
  function PipelineTone(tone: string): string {
    if tone != "" then tone else "neutral"
  }

  /** The `or "neutral"` fallback of `agent_respond` never fires for a stored persona: creation
      already gave it a tone, which the pipeline gets unchanged. */
  lemma StoredToneReachesPipeline(p: PersonaCreate, id: int)
    ensures NewPersona(p, id).Ok? ==>
              PipelineTone(NewPersona(p, id).value.tone) == NewPersona(p, id).value.tone
              && NewPersona(p, id).value.tone != ""
  {
  }

  /** `user_id` owns the persona `personaId`. */
  ghost predicate Owns(personas: seq<PersonaRow>, personaId: int, userId: int) {
    exists p :: p in personas && p.id == personaId && p.userId == userId
  }

  /** `SELECT * FROM persona_flow WHERE id = ... AND user_id = ...` then
      `fetchone()`: the first matching row, or none exactly when the user
      does not own the persona. */
  function FindOwned(personas: seq<PersonaRow>, personaId: int, userId: int): (r: Option<PersonaRow>)
    ensures r.Some? ==> r.value in personas && r.value.id == personaId && r.value.userId == userId
    ensures r.None? <==> !Owns(personas, personaId, userId)
    decreases |personas|
  {
    if personas == [] then None
    else if personas[0].id == personaId && personas[0].userId == userId then Some(personas[0])
    else
      var r := FindOwned(personas[1..], personaId, userId);
      assert r.None? ==> forall p :: p in personas ==> p == personas[0] || p in personas[1..];
      r
  }

  /** A chat turn never reaches the sentinel of `run`: the user's message is
      saved before the pipeline fetches its window, so the window holds at
      least that message and the first model call is always the summariser,
      over a transcript that ends with the new message. */
  lemma TurnAfterSaveSummarises(rows: seq<MessageRow>, u: MessageRow, name: string, tone: string,
                                script: seq<Answer>)
    ensures var w := SqlWindow(rows + [u], u.personaId, DefaultLimit);
            var t := Pipeline.TurnOf(w, name, tone, u.message, script);
            && w != [] && w[|w| - 1] == EntryOf(u)
            && t.calls[0] == SummaryPrompt(Transcript(w))
            && StageOf(t.calls[0]) == Summarize
  {
    WindowEndsWithLatest(rows, u, DefaultLimit);
    var w := SqlWindow(rows + [u], u.personaId, DefaultLimit);
    Pipeline.NonEmptyWindowSummarises(w, name, tone, u.message, script);
  }

  /** What one exchange with a persona leaves behind: the message table and
      its next id, the endpoint's answer and the prompts sent to the model. */
  datatype Exchanged = Exchanged(rows: seq<MessageRow>, nextId: int, reply: Response<string>,
                                 calls: seq<Prompt>)

  /** The turn the pipeline runs for a persona the user owns, once the
      user's message was saved under `nextId` in `rows`: the pipeline that
      `agent_respond` builds from the persona's name and tone, run on the
      user's input. */
  function ExchangeTurn(rows: seq<MessageRow>, nextId: int, persona: PersonaRow, userInput: string,
                        script: seq<Answer>): Turn
  {
    Pipeline.TurnOf(SqlWindow(rows + [MessageRow(nextId, persona.id, "user", userInput)], persona.id, DefaultLimit),
                    persona.characterName, PipelineTone(persona.tone), userInput, script)
  }

  /** What the two `save_message_api` calls of `agent_respond` leave around
      turn `t`: the user's message, then the reply when the turn produced
      one, each under the next id; an exception of a model call escapes
      after the user's message was saved. */
  function Record(rows: seq<MessageRow>, nextId: int, persona: PersonaRow, userInput: string, t: Turn)
    : Exchanged
  {
    var asked := MessageRow(nextId, persona.id, "user", userInput);
    match t.outcome
    case Generated(text) =>
      Exchanged(rows + [asked, MessageRow(nextId + 1, persona.id, "agent", text)], nextId + 2,
                Ok(text), t.calls)
    case GenerationFailure(stage) =>
      Exchanged(rows + [asked], nextId + 1, Err(ModelError(stage)), t.calls)
  }

  /** `agent_respond` once ownership is established: save, run, save, for a
      persona the user owns, on a
      table `rows` whose next id is `nextId` and a model answering from
      `script`. */
  function ExchangeOf(rows: seq<MessageRow>, nextId: int, persona: PersonaRow, userInput: string,
                      script: seq<Answer>): Exchanged
  {
    Record(rows, nextId, persona, userInput, ExchangeTurn(rows, nextId, persona, userInput, script))
  }

  /** The model calls of one exchange: it always starts by summarising (the
      sentinel of `run` is never reached, since the user's message is saved
      first); the character is then asked under the persona's name and tone
      (`"neutral"` when it has none), with the stripped summary as context,
      and the moderator gets the stripped draft; it answers the user exactly when all three calls were
      answered, and then with the moderator's stripped answer to the third;
      otherwise it fails at the first call that raised. */
  lemma ExchangeCalls(rows: seq<MessageRow>, nextId: int, persona: PersonaRow, userInput: string,
                      script: seq<Answer>)
    ensures var e := ExchangeOf(rows, nextId, persona, userInput, script);
            && 1 <= |e.calls| <= 3
            && StageOf(e.calls[0]) == Summarize
            && (2 <= |e.calls| ==>
                  e.calls[1] == CharacterPrompt(persona.characterName, PipelineTone(persona.tone),
                                                Strip(AnswerAt(script, 0).text), userInput))
            && (3 <= |e.calls| ==> e.calls[2] == ModeratorPrompt(Strip(AnswerAt(script, 1).text)))
            && (forall k :: 0 <= k < |e.calls| - 1 ==> AnswerAt(script, k).Answered?)
            && (e.reply.Ok? <==> |e.calls| == 3 && AnswerAt(script, 2).Answered?)
            && (e.reply.Ok? ==> e.reply.value == Strip(AnswerAt(script, 2).text))
            && (e.reply.Err? ==>
                  && e.reply.error.ModelError? && AnswerAt(script, |e.calls| - 1) == Fault
                  && e.reply.error.stage == StageOf(e.calls[|e.calls| - 1]))
  {
    var asked := MessageRow(nextId, persona.id, "user", userInput);
    var name, tone := persona.characterName, PipelineTone(persona.tone);
    var w := SqlWindow(rows + [asked], persona.id, DefaultLimit);
    var t := ExchangeTurn(rows, nextId, persona, userInput, script);
    assert t == Pipeline.TurnOf(w, name, tone, userInput, script);
    TurnAfterSaveSummarises(rows, asked, name, tone, script);
    Pipeline.TurnFollowsPlan(w, name, tone, userInput, script);
    Pipeline.OutputsFlowForward(w, name, tone, userInput, script);
    assert Stages(t.calls)[|t.calls| - 1] == StageOf(t.calls[|t.calls| - 1]);
    var e := ExchangeOf(rows, nextId, persona, userInput, script);
    assert e.calls == t.calls;
  }

  /** What one exchange saves: the user's message and, when the turn
      succeeded, the agent's reply, in that order, at the end of the
      persona's conversation; a failed exchange keeps only the user's
      message. No other persona's conversation changes, and the
      auto-increment id moves on by one per saved row. */
  lemma ExchangeLogs(rows: seq<MessageRow>, nextId: int, persona: PersonaRow, userInput: string,
                     script: seq<Answer>, other: int)
    ensures var e := ExchangeOf(rows, nextId, persona, userInput, script);
            && (e.reply.Ok? ==>
                  Log(e.rows, persona.id)
                  == Log(rows, persona.id) + [Entry("user", userInput), Entry("agent", e.reply.value)])
            && (e.reply.Err? ==> Log(e.rows, persona.id) == Log(rows, persona.id) + [Entry("user", userInput)])
            && (other != persona.id ==> Log(e.rows, other) == Log(rows, other))
            && e.nextId == nextId + (if e.reply.Ok? then 2 else 1)
  {
    var e := ExchangeOf(rows, nextId, persona, userInput, script);
    var asked := MessageRow(nextId, persona.id, "user", userInput);
    if e.reply.Ok? {
      var answered := MessageRow(nextId + 1, persona.id, "agent", e.reply.value);
      assert e.rows == rows + [asked, answered];
      LogAfterExchange(rows, asked, answered, persona.id);
      LogAfterExchange(rows, asked, answered, other);
    } else {
      assert e.rows == rows + [asked];
      LogAfterAppend(rows, asked, persona.id);
      LogAfterAppend(rows, asked, other);
    }
  }

  /** `ExchangeOf`, carried out on the message table and the model. */
  method Exchange(messages: MessageTable, persona: PersonaRow, userInput: string, model: Model)
    returns (r: Response<string>)
    requires messages.Valid()
    modifies messages, model
    ensures messages.Valid()
    ensures var e := ExchangeOf(old(messages.rows), old(messages.nextId), persona, userInput, old(model.script));
            && messages.rows == e.rows && messages.nextId == e.nextId && r == e.reply
            && model.calls == old(model.calls) + e.calls
            && model.script == Drop(old(model.script), |e.calls|)
  {
    ghost var rows, script := messages.rows, model.script;
    ghost var t := ExchangeTurn(rows, messages.nextId, persona, userInput, script);
    var pipeline := new Pipeline.MultiAgentPipeline(persona.characterName, PipelineTone(persona.tone));
    messages.Save(persona.id, "user", userInput);
    var reply := pipeline.Run(messages, model, persona.id, userInput);
    assert reply == t.outcome && model.calls == old(model.calls) + t.calls;
    if reply.GenerationFailure? {
      return Err(ModelError(reply.stage));
    }
    messages.Save(persona.id, "agent", reply.text);
    r := Ok(reply.text);
  }

  /** The application state: its two tables. */
  class Server {
    var personas: seq<PersonaRow>
    var nextPersonaId: int
    const messages: MessageTable

    ghost predicate Valid()
      reads this, messages
    {
      && messages.Valid()
      && Increasing(personas, PersonaId)
      && (forall p :: p in personas ==> p.id < nextPersonaId)
      && (forall p :: p in personas ==> WellFormed(p))
    }

    constructor ()
      ensures Valid() && fresh(messages) && personas == [] && nextPersonaId == 1 && messages.rows == []
    {
      personas := [];
      nextPersonaId := 1;
      messages := new MessageTable();
    }

    /** `POST /personas`. */
    method CreatePersona(p: PersonaCreate) returns (r: Response<PersonaRow>)
      requires Valid()
      modifies this
      ensures Valid()
      ensures r == NewPersona(p, old(nextPersonaId))
      ensures r.Ok? ==> personas == old(personas) + [r.value] && nextPersonaId == old(nextPersonaId) + 1
      ensures r.Err? ==> personas == old(personas) && nextPersonaId == old(nextPersonaId)
    {
      r := NewPersona(p, nextPersonaId);
      if r.Ok? {
        personas := personas + [r.value];
        nextPersonaId := nextPersonaId + 1;
      }
    }

    /** `POST /agent/respond`: 404 unless the user owns the persona; then
        the exchange with that persona. */
    method AgentRespond(userId: int, personaId: int, userInput: string, model: Model)
      returns (r: Response<string>)
      requires Valid()
      modifies messages, model
      ensures Valid()
      ensures !Owns(personas, personaId, userId) ==>
                && r == Err(HttpError(404, NotFoundForUser))
                && messages.rows == old(messages.rows) && messages.nextId == old(messages.nextId)
                && model.calls == old(model.calls) && model.script == old(model.script)
      ensures Owns(personas, personaId, userId) ==>
                var e := ExchangeOf(old(messages.rows), old(messages.nextId),
                                    FindOwned(personas, personaId, userId).value, userInput,
                                    old(model.script));
                && messages.rows == e.rows && messages.nextId == e.nextId && r == e.reply
                && model.calls == old(model.calls) + e.calls
                && model.script == Drop(old(model.script), |e.calls|)
    {
      var found := FindOwned(personas, personaId, userId);
      if found.None? {
        return Err(HttpError(404, NotFoundForUser));
      }
      r := Exchange(messages, found.value, userInput, model);
    }

    /** `GET /messages/{persona_id}`: 403 unless the user owns the persona;
        otherwise exactly that persona's rows, in id order. */
    method GetMessages(personaId: int, userId: int) returns (r: Response<seq<MessageRow>>)
      requires Valid()
      ensures r.Err? <==> !Owns(personas, personaId, userId)
      ensures r.Err? ==> r.error == HttpError(403, AccessDenied)
      ensures r.Ok? ==>
                && r.value == RowsOf(messages.rows, personaId)
                && Increasing(r.value, MessageId)
                && (forall m :: m in r.value <==> m in messages.rows && m.personaId == personaId)
    {
      var found := FindOwned(personas, personaId, userId);
      if found.None? {
        return Err(HttpError(403, AccessDenied));
      }
      FilterKeepsOrder(messages.rows, OfPersona(personaId), MessageId);
      r := Ok(RowsOf(messages.rows, personaId));
    }

    /** `DELETE /personas/{persona_id}`: 403 unless the user owns the
        persona; otherwise its messages, then its row, are deleted. */
    method DeletePersona(personaId: int, userId: int) returns (r: Response<int>)
      requires Valid()
      modifies this, messages
      ensures Valid()
      ensures !Owns(old(personas), personaId, userId) ==>
                && r == Err(HttpError(403, NotOwned))
                && personas == old(personas) && messages.rows == old(messages.rows)
      ensures Owns(old(personas), personaId, userId) ==>
                && r == Ok(personaId)
                && personas == Filter(old(personas), (p: PersonaRow) => p.id != personaId)
                && messages.rows == Filter(old(messages.rows), NotOfPersona(personaId))
      ensures nextPersonaId == old(nextPersonaId) && messages.nextId == old(messages.nextId)
    {
      var found := FindOwned(personas, personaId, userId);
      if found.None? {
        return Err(HttpError(403, NotOwned));
      }
      messages.DeleteOf(personaId);
      FilterKeepsOrder(personas, (p: PersonaRow) => p.id != personaId, PersonaId);
      personas := Filter(personas, (p: PersonaRow) => p.id != personaId);
      r := Ok(personaId);
    }
  }
}
