# Persona chat backend: a Dafny model

This project models the core of a character-chat backend. A user creates a
*persona*: a character name, a mode, a tone and an optional summary. The
user then chats with it. Each chat turn goes through a three-agent
pipeline that calls a hosted language model:

1. A context manager summarises the persona's recent messages.
2. A character agent writes a reply in the persona's voice.
3. A moderator cleans that reply.

The messages live in a `persona_messages` table. The window the pipeline
reads is the persona's last `limit` messages, with `limit` clamped to
[3, 30] and defaulting to 10.

Modules:

- `Seqs`: filtering, reversal and key order, which model SQL `WHERE`,
  `ORDER BY id DESC` plus `reversed(...)`, and `ORDER BY id`.
- `Text`: Python's `str.strip()` over the `isspace` code points, and
  "this prompt contains that text".
- `History`: message rows, and the table class `MessageTable`. Its methods
  are `Save` (`save_message_api`), `FetchLast` (`fetch_last_messages_api`)
  and `DeleteOf`. The module also has the query as a function
  (`SqlWindow`) and the transcript that `build_context` feeds the
  summariser.
- `Oracle`: the language model, as a class `Model` that hands out a script
  of answers given in advance (text, or an exception) and records every
  prompt it is sent.
  - A prompt is recorded as its template and the inputs filled into it.
  - `PromptText` renders a prompt to text under a given wording, and every
    input appears in the rendered text.
  - Each pipeline module supplies its own file's wording as `Templates`.
- `Pipeline`: the agents and `MultiAgentPipeline` of `Backend/agents.py`.
  - An empty window skips the summariser and uses the sentinel context
    "Summary: New conversation. Recent turns: None".
  - `Run` is proved against the pure function `TurnOf`. Lemmas about
    `TurnOf` cover call order, call count, failure and how data flows from
    stage to stage.
- `VariantPipeline`: the copy of the pipeline in `backend/agents.py`. It
  has different template wording and always summarises, even an empty
  window. A lemma proves that on a non-empty window the two pipelines make
  the same calls, with the same inputs, and return the same result (the
  text of each prompt still follows its own file's wording), and that on an
  empty window they differ.
- `Api`: the endpoints of `Backend/main.py` over a class `Server` that
  holds both tables.
  - Endpoints: persona creation with its defaults and its 400 error;
    `agent_respond` with its 404 error; `get_messages` and
    `delete_persona` with their 403 errors.
  - `Server.Valid()` is kept by every endpoint: id order in both tables,
    ids below the next auto-increment value, and every stored persona
    having a tone.

Both pipelines strip every model answer in the same way, so the stage
methods `Pipeline.BuildContext`, `Pipeline.Reply` and `Pipeline.Check`
serve both. Only the wording of the templates and `run` differ between the
two files.

## Model

| member | source | states |
|---|---|---|
| Seqs.ReverseTakeReverse | Backend/agents.py:99-109 | the newest `k` rows in descending order, reversed, are the last `k` rows in their original order |
| Seqs.FilterKeepsOrder | Backend/main.py:159-162 | selecting rows from a table in id order leaves them in id order |
| Text.Strip | Backend/agents.py:34 | neither end of `s.strip()` is whitespace |
| Text.StripTrims | Backend/agents.py:34 | `s.strip()` is a contiguous piece of `s`, and everything cut from either end is whitespace |
| Text.StripUnpadded | Backend/agents.py:34 | a string with no whitespace at either end comes back unchanged |
| Text.StripIdempotent | Backend/agents.py:34 | stripping twice is stripping once |
| Text.StripRemovesPadding | Backend/agents.py:34 | any whitespace added around an unpadded text is exactly what `strip()` removes |
| Text.StripLeadingCuts | Backend/agents.py:34 | the left strip keeps a suffix of the input and cuts only whitespace |
| Text.StripTrailingCuts | Backend/agents.py:34 | the right strip keeps a prefix of the input and cuts only whitespace |
| History.RowsOf | Backend/agents.py:99-102 | a row is selected exactly when it is in the table and belongs to the persona |
| History.LogAfterAppend | Backend/agents.py:112-123 | saving a row appends it to its own persona's conversation and leaves every other conversation unchanged |
| History.LogAfterExchange | Backend/main.py:136-138 | a saved user message followed by the saved answer adds exactly those two entries, in that order, to that persona's conversation and nothing to any other |
| History.LogAfterDelete | Backend/main.py:233 | deleting a persona's messages empties its conversation and leaves every other persona's conversation as it was |
| History.EffectiveLimit | Backend/agents.py:94 | the limit used is in [3, 30]; it is the limit itself when in range, 3 below and 30 above |
| History.SqlWindow | Backend/agents.py:99-109 | the query as written: the persona's conversation newest first (`ORDER BY id DESC`), cut to the clamped limit (`LIMIT`), turned back (`reversed`); what it returns is stated by `History.WindowIsSuffix` |
| History.WindowIsSuffix | Backend/agents.py:93-109 | the window is exactly the persona's last min(limit', n) messages, oldest first |
| History.WindowLimitClamped | Backend/agents.py:94 | a limit of 1 gives the same window as 3, and 1000 the same as 30 |
| History.WindowEndsWithLatest | Backend/agents.py:93-123 | right after a message is saved, its persona's window is non-empty and ends with that message |
| History.Line | Backend/agents.py:15 | one transcript line, `sender + ": " + message`; how lines are joined is stated by `History.Transcript`, `History.TranscriptConcat` and `History.TranscriptTerminated` |
| History.Transcript | Backend/agents.py:15 | the transcript is empty exactly when the history is |
| History.TranscriptConcat | Backend/agents.py:15 | the transcript of two stretches of history is theirs joined by one newline, so lines keep history order |
| History.TranscriptTerminated | Backend/agents.py:15 | the newline goes between lines and never after the last one |
| History.MessageTable.Save | Backend/agents.py:112-123 | appends one row under the next id and keeps the table in id order |
| History.MessageTable.FetchLast | Backend/agents.py:93-109 | returns the query's result, which is the last min(limit', n) messages of the persona |
| History.MessageTable.DeleteOf | Backend/main.py:233 | keeps exactly the rows of the other personas, in order, and keeps the table valid |
| Oracle.Stripped | Backend/agents.py:33-34 | a stage yields text exactly when the model answered; that text is the stripped answer and is unpadded; otherwise the turn fails at that stage |
| Oracle.Model.Generate | Backend/agents.py:33 | one call records its prompt and uses up the next answer; calls past the script fail |
| Oracle.SummaryText | Backend/agents.py:17-32 | the summariser's prompt contains the transcript, whatever the wording |
| Oracle.CharacterText | Backend/agents.py:45-63 | the character's prompt contains the name, the tone, the context and the user's message |
| Oracle.ModeratorText | Backend/agents.py:74-87 | the moderator's prompt contains the draft |
| Oracle.PromptText | Backend/agents.py:17-87 | every input of a prompt appears in the text sent |
| Pipeline.BuildContext | Backend/agents.py:14-34 | sends one summary prompt over the transcript of the history and returns the stripped answer or the failure |
| Pipeline.Reply | Backend/agents.py:44-65 | sends one character prompt and returns the stripped draft or the failure |
| Pipeline.Check | Backend/agents.py:73-89 | sends one moderator prompt over the draft and returns the stripped answer or the failure |
| Pipeline.RespondAndModerate | Backend/agents.py:141-142 | the character prompt with the given context, then, if a draft came back, the moderator prompt over the stripped draft; the turn's result is the stripped moderator answer or the first failure; its properties are stated by `Pipeline.OutputsFlowForward` and `Pipeline.TurnFollowsPlan` |
| Pipeline.TurnOf | Backend/agents.py:132-142 | a turn over a window: an empty window goes straight to `RespondAndModerate` with the sentinel context; otherwise the summary prompt over the window's transcript comes first, and a failed summary ends the turn; its meaning is stated by `Pipeline.TurnFollowsPlan`, `Pipeline.EmptyWindowSkipsSummary`, `Pipeline.NonEmptyWindowSummarises` and `Pipeline.OutputsFlowForward` |
| Pipeline.TurnFollowsPlan | Backend/agents.py:132-142 | a turn runs a non-empty prefix of its plan in order and stops at the first failed call; it succeeds exactly when the whole plan ran and the last answer arrived; a failure names the failing stage |
| Pipeline.EmptyWindowSkipsSummary | Backend/agents.py:135-137 | with no history the summariser is never called, the character gets the sentinel, and success takes exactly Respond then Moderate |
| Pipeline.NonEmptyWindowSummarises | Backend/agents.py:138-139 | with history the first call summarises its transcript, and success takes Summarize, Respond, Moderate |
| Pipeline.OutputsFlowForward | Backend/agents.py:139-142 | the character prompt is the pipeline's name and tone with the context (the sentinel, or the stripped summary) and the user's message, and its text carries them; the moderator prompt is over the stripped draft; the turn returns the moderator's stripped answer, never the draft |
| Pipeline.RespondThenModerate | Backend/agents.py:141-142 | the calls made and the result are those of the Respond and Moderate steps of `TurnOf` |
| Pipeline.MultiAgentPipeline.constructor | Backend/agents.py:127-130 | the pipeline keeps the persona's name and tone |
| Pipeline.MultiAgentPipeline.Run | Backend/agents.py:132-142 | the result, the prompts sent and the answers used are exactly those of `TurnOf` over the default-limit window |
| VariantPipeline.SummaryReachesCharacter | backend/agents.py:35-49 | the character prompt is the pipeline's name and tone with the stripped summary (of an empty conversation too) and the user's message, and its text in this file's wording carries them; the moderator prompt is over the stripped draft |
| VariantPipeline.TurnOf | backend/agents.py:112-116 | a turn over a window: always the summary prompt over the window's transcript (empty for a new conversation) first, a failed summary ends the turn, then `Pipeline.RespondAndModerate` with the stripped summary; its meaning is stated by `VariantPipeline.TurnFollowsPlan`, `VariantPipeline.SummaryReachesCharacter` and `VariantPipeline.DiffersOnlyOnEmptyWindow` |
| VariantPipeline.TurnFollowsPlan | backend/agents.py:112-116 | every turn first summarises its window's transcript (the empty transcript for a new conversation), runs a prefix of Summarize, Respond, Moderate, and stops at the first failure; it succeeds exactly when all three calls were answered, and returns the stripped moderator answer |
| VariantPipeline.DiffersOnlyOnEmptyWindow | backend/agents.py:112-116 | on a non-empty window this turn equals the one of `Backend/agents.py`; on an empty window this one starts with Summarize and the other with Respond |
| VariantPipeline.MultiAgentPipeline.constructor | backend/agents.py:107-110 | the pipeline keeps the persona's name and tone |
| VariantPipeline.MultiAgentPipeline.Run | backend/agents.py:112-116 | the result, the prompts sent and the answers used are exactly those of this module's `TurnOf` |
| Api.NewPersona | Backend/main.py:82-96 | refused with 400 exactly when a custom persona has no summary; otherwise the row keeps the request's fields, the tone falls back to "neutral" and the summary to "" |
| Api.OrDefault | Backend/main.py:82-83 | `v if v else default` with Python truthiness (absent or empty falls back); its effect on a created persona is stated by `Api.NewPersona` |
| Api.StoredToneReachesPipeline | Backend/main.py:82-134 | a created persona always has a tone, so the `or "neutral"` of the chat endpoint hands that tone through unchanged |
| Api.PipelineTone | Backend/main.py:134 | `tone or "neutral"`; `Api.StoredToneReachesPipeline` states that it hands a stored persona's tone through unchanged |
| Api.FindOwned | Backend/main.py:124-129 | finds a row with that id and user, or none exactly when the user owns no such persona |
| Api.TurnAfterSaveSummarises | Backend/main.py:136-137 | because the user's message is saved before `run`, the window is non-empty, ends with that message, and the first model call is the summariser |
| Api.ExchangeTurn | Backend/main.py:134-137 | the turn of the pipeline built from the persona's name and `PipelineTone` of its tone, over the table with the user's message saved under the next id; its properties are stated by `Api.ExchangeCalls` |
| Api.Record | Backend/main.py:136-140 | around a turn: the user's row under the next id, then on success the agent's row under the id after it, the next id moving on by one per row; on failure only the user's row and a model error; its properties are stated by `Api.ExchangeLogs` |
| Api.ExchangeOf | Backend/main.py:134-140 | `Record` of `ExchangeTurn`: one chat exchange on a table and a script of answers; its meaning is stated by `Api.ExchangeCalls` and `Api.ExchangeLogs` |
| Api.Server.CreatePersona | Backend/main.py:76-107 | inserts exactly the row `NewPersona` gives under the next id, or nothing on the 400 error; the state stays valid |
| Api.ExchangeCalls | Backend/main.py:134-140 | an exchange always starts with the summariser; the character is then asked under the persona's name and `PipelineTone` of its tone, with the stripped summary and the user's input, and the moderator over the stripped draft; it answers the user exactly when all three model calls were answered, with the stripped third answer; otherwise its last call is the first that raised, and it fails with a model error naming that call's stage |
| Api.ExchangeLogs | Backend/main.py:136-140 | a successful exchange adds the user's message then the agent's reply to the persona's conversation and moves the next id on by two; a failed one adds only the user's message and moves it on by one; no other persona's conversation changes |
| Api.Exchange | Backend/main.py:134-140 | the table, its next id, the reply, the prompts sent and the answers used are exactly those of `ExchangeOf` |
| Api.Server.AgentRespond | Backend/main.py:114-140 | 404 with nothing saved, the next message id unchanged and no model call unless the user owns the persona; otherwise exactly the exchange with that persona, next id included |
| Api.Server.GetMessages | Backend/main.py:147-169 | 403 exactly when the user does not own the persona; otherwise exactly that persona's rows, in increasing id order |
| Api.Server.DeletePersona | Backend/main.py:222-240 | 403 with no change unless the user owns the persona; otherwise removes exactly its messages and its row, keeping everything else in order |

## Left out

- `register` and `login` (Backend/main.py:22-69): password hashing and the
  users table are outside the modelled core. The `user_id` of a persona is
  taken as given, and its foreign key to `users` is not modelled.
- `full_history` and `list_personas` (Backend/main.py:175-215): they order
  by `created_at` and count messages.
- Timestamps: the `created_at` columns and `NOW()`/`utcnow()` are not
  modelled because there is no clock in the model.
- The database connections, CORS set-up, FastAPI routing and request
  parsing are left out. Concurrent requests are also left out: each
  endpoint is one atomic step, with no interleaving of two requests on the
  tables.
- The language model:
  - It is a script of answers fixed in advance. What it would write, and
    the model name, are not modelled.
  - "Raises" covers every exception of `generate_content` and of
    `res.text`.
- Api.ApiError: a model exception escaping `agent_respond` reaches the
  client as the framework's generic server error. The model returns it as
  `ModelError` with the failing stage and does not model the HTTP status.
- Oracle.Generated: the stage a `GenerationFailure` names is a label of
  the model. The Python exception carries no such label; it only aborts
  the call stack.
- Prompt wording: the fixed text of each template is paraphrased. Only
  the presence of every input in the prompt is stated, not the exact
  characters.
- A recorded prompt does not say which file's wording it was rendered
  with; each pipeline module's `Templates` supplies that wording.
  `backend/agents.py` has no separate copy of `Pipeline.BuildContext`,
  `Pipeline.Reply` and `Pipeline.Check`, because its agents call the model
  and strip the answer exactly as those do.
- `fetch_last_messages_api` and `save_message_api` of `backend/agents.py`
  (lines 73-103) are identical to those of `Backend/agents.py` and are
  modelled once, in `History`.
- Text.Strip: `str.strip()` is modelled over the 29 code points for which
  Python's `str.isspace()` holds. Characters outside Dafny's `char` range
  and any Unicode normalisation are not modelled.
- The `limit` argument of `fetch_last_messages_api` is always the default
  (10) in both `run` methods. `FetchLast` takes any limit, but `Run` only
  uses 10.
- Pydantic validation (`backend/schemas.py`): a request body is taken as
  already parsed into `PersonaCreate`.
- The response shapes are abbreviated:
  - `create_persona` re-reads the inserted row.
  - `agent_respond` wraps its reply in `{"reply": ...}`.
  - `delete_persona` returns `{"msg": ..., "id": ...}`.
  The model returns the row, the reply text and the id.
