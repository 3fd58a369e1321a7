/** The `persona_messages` table and the two helpers both agent modules use on
    it: `save_message_api` (append one row) and `fetch_last_messages_api` (the
    bounded window of one persona's most recent messages, oldest first), and
    the transcript `build_context` renders from that window. */
module History {
  import opened Seqs

  /** One row of `persona_messages`: its auto-increment `id`, the persona it
      belongs to, the sender (`"user"` or `"agent"`) and the text. */
  datatype MessageRow = MessageRow(id: int, personaId: int, sender: string, message: string)

  /** The two columns `fetch_last_messages_api` selects. */
  datatype Entry = Entry(sender: string, message: string)

  function MessageId(m: MessageRow): int {
    m.id
  }

  function EntryOf(m: MessageRow): Entry {
    Entry(m.sender, m.message)
  }

  /** The condition `persona_id = personaId`. */
  function OfPersona(personaId: int): MessageRow -> bool {
    (m: MessageRow) => m.personaId == personaId
  }

  /** The condition `persona_id <> personaId`: the rows a delete keeps. */
  function NotOfPersona(personaId: int): MessageRow -> bool {
    (m: MessageRow) => m.personaId != personaId
  }

  /** `WHERE persona_id = personaId`, in table (that is, id) order. */
  function RowsOf(rows: seq<MessageRow>, personaId: int): (r: seq<MessageRow>)
    ensures forall m :: m in r <==> m in rows && m.personaId == personaId
  {
    Filter(rows, OfPersona(personaId))
  }

  function Entries(rows: seq<MessageRow>): seq<Entry> {
    seq(|rows|, i requires 0 <= i < |rows| => EntryOf(rows[i]))
  }

  /** The whole conversation of one persona, oldest first. */
  function Log(rows: seq<MessageRow>, personaId: int): seq<Entry> {
    Entries(RowsOf(rows, personaId))
  }

  /** Saving a row extends its persona's conversation by that row and leaves
      every other persona's conversation as it was. */
  lemma LogAfterAppend(rows: seq<MessageRow>, m: MessageRow, personaId: int)
    ensures Log(rows + [m], personaId)
         == Log(rows, personaId) + (if m.personaId == personaId then [EntryOf(m)] else [])
  {
    FilterSnoc(rows, m, OfPersona(personaId));
  }

  /** A user turn followed by the agent's answer extends that persona's
      conversation by exactly those two entries, in that order, and leaves
      every other conversation as it was. */
  lemma LogAfterExchange(rows: seq<MessageRow>, u: MessageRow, a: MessageRow, personaId: int)
    requires u.personaId == a.personaId
    ensures Log(rows + [u, a], personaId)
         == Log(rows, personaId) + (if u.personaId == personaId then [EntryOf(u), EntryOf(a)] else [])
  {
    LogAfterAppend(rows, u, personaId);
    assert rows + [u, a] == (rows + [u]) + [a];
    LogAfterAppend(rows + [u], a, personaId);
  }

  /** `DELETE ... WHERE persona_id = personaId` empties that persona's
      conversation and leaves every other one as it was. */
  lemma LogAfterDelete(rows: seq<MessageRow>, personaId: int, other: int)
    ensures Log(Filter(rows, NotOfPersona(personaId)), personaId) == []
    ensures other != personaId ==>
              Log(Filter(rows, NotOfPersona(personaId)), other) == Log(rows, other)
  {
    if other != personaId {
      FilterFilter(rows, NotOfPersona(personaId), OfPersona(other), OfPersona(other));
    }
  }

  const DefaultLimit: int := 10
  const MinLimit: int := 3
  const MaxLimit: int := 30

  /** `max(3, min(limit, 30))`: the limit the query really uses. */
  function EffectiveLimit(limit: int): (r: int)
    ensures MinLimit <= r <= MaxLimit
    ensures MinLimit <= limit <= MaxLimit ==> r == limit
    ensures limit < MinLimit ==> r == MinLimit
    ensures limit > MaxLimit ==> r == MaxLimit
  {
    var capped := if limit < MaxLimit then limit else MaxLimit;
    if MinLimit < capped then capped else MinLimit
  }

  function Min(a: int, b: int): int {
    if a < b then a else b
  }

  /** The query of `fetch_last_messages_api` as written: the persona's rows
      `ORDER BY id DESC LIMIT limit'` (the table is kept in id order, so the
      descending order is the reversal), then `list(reversed(rows))`. */
  function SqlWindow(rows: seq<MessageRow>, personaId: int, limit: int): seq<Entry> {
    var newestFirst := Reverse(Log(rows, personaId));
    Reverse(newestFirst[..Min(EffectiveLimit(limit), |newestFirst|)])
  }

  /** The window is exactly the last `min(limit', n)` messages of the persona,
      oldest first, where `limit'` is the clamped limit and `n` the number of
      messages the persona has. */
  lemma WindowIsSuffix(rows: seq<MessageRow>, personaId: int, limit: int)
    ensures var log := Log(rows, personaId);
            var m := Min(EffectiveLimit(limit), |log|);
            |SqlWindow(rows, personaId, limit)| == m
            && SqlWindow(rows, personaId, limit) == log[|log| - m..]
  {
    var log := Log(rows, personaId);
    ReverseTakeReverse(log, Min(EffectiveLimit(limit), |log|));
  }

  /** A limit below 3 behaves as 3 and one above 30 as 30. */
  lemma WindowLimitClamped(rows: seq<MessageRow>, personaId: int)
    ensures SqlWindow(rows, personaId, 1) == SqlWindow(rows, personaId, MinLimit)
    ensures SqlWindow(rows, personaId, 1000) == SqlWindow(rows, personaId, MaxLimit)
  {
  }

  /** Right after a row is saved for a persona, that persona's window is not
      empty and its last entry is the row just saved. */
  lemma WindowEndsWithLatest(rows: seq<MessageRow>, m: MessageRow, limit: int)
    ensures var w := SqlWindow(rows + [m], m.personaId, limit);
            w != [] && w[|w| - 1] == EntryOf(m)
  {
    LogAfterAppend(rows, m, m.personaId);
    WindowIsSuffix(rows + [m], m.personaId, limit);
  }

  /** One transcript line of `build_context`: `f"{sender}: {message}"`. */
  function Line(e: Entry): string {
    e.sender + ": " + e.message
  }

  /** `"\n".join(...)` of the lines of `history`, in history order. Every line
      holds at least `": "`, so the transcript is empty exactly when the
      history is. */
  function Transcript(history: seq<Entry>): (r: string)
    ensures r == "" <==> history == []
    decreases |history|
  {
    if history == [] then ""
    else if |history| == 1 then Line(history[0])
    else Line(history[0]) + "\n" + Transcript(history[1..])
  }

  /** The transcript of two consecutive stretches of history is theirs joined
      by one newline: lines keep the order of the history. */
  lemma {:induction false} TranscriptConcat(a: seq<Entry>, b: seq<Entry>)
    requires a != [] && b != []
    ensures Transcript(a + b) == Transcript(a) + "\n" + Transcript(b)
    decreases |a|
  {
    assert (a + b)[0] == a[0];
    assert (a + b)[1..] == a[1..] + b;
    if |a| > 1 {
      TranscriptConcat(a[1..], b);
    }
  }

  /** Each line followed by its own newline. */
  function Terminated(history: seq<Entry>): string
    decreases |history|
  {
    if history == [] then "" else Line(history[0]) + "\n" + Terminated(history[1..])
  }

  /** A non-empty transcript is the newline-terminated lines without the final
      newline: the separator goes between lines, never after the last. */
  lemma {:induction false} TranscriptTerminated(history: seq<Entry>)
    requires history != []
    ensures Transcript(history) + "\n" == Terminated(history)
    decreases |history|
  {
    if |history| > 1 {
      TranscriptTerminated(history[1..]);
    }
  }

  /** The `persona_messages` table: its rows in id order and the next
      auto-increment id. */
  class MessageTable {
    var rows: seq<MessageRow>
    var nextId: int

    ghost predicate Valid()
      reads this
    {
      Increasing(rows, MessageId) && forall m :: m in rows ==> m.id < nextId
    }

    constructor ()
      ensures Valid() && rows == []
    {
      rows := [];
      nextId := 1;
    }

    /** `save_message_api`: one `INSERT`, under the next id. */
    method Save(personaId: int, sender: string, message: string)
      requires Valid()
      modifies this
      ensures Valid()
      ensures rows == old(rows) + [MessageRow(old(nextId), personaId, sender, message)]
      ensures nextId == old(nextId) + 1
    {
      rows := rows + [MessageRow(nextId, personaId, sender, message)];
      nextId := nextId + 1;
    }

    /** `DELETE FROM persona_messages WHERE persona_id = personaId`: the rows
        of every other persona stay, in their order. */
    method DeleteOf(personaId: int)
      requires Valid()
      modifies this
      ensures Valid()
      ensures rows == Filter(old(rows), NotOfPersona(personaId))
      ensures nextId == old(nextId)
    {
      FilterKeepsOrder(rows, NotOfPersona(personaId), MessageId);
      rows := Filter(rows, NotOfPersona(personaId));
    }

    /** `fetch_last_messages_api`: the persona's last `min(limit', n)`
        messages, oldest first. */
    method FetchLast(personaId: int, limit: int) returns (window: seq<Entry>)
      requires Valid()
      ensures window == SqlWindow(rows, personaId, limit)
      ensures var log := Log(rows, personaId);
              var m := Min(EffectiveLimit(limit), |log|);
              |window| == m && window == log[|log| - m..]
    {
      window := SqlWindow(rows, personaId, limit);
      WindowIsSuffix(rows, personaId, limit);
    }
  }
}
