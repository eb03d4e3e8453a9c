/** The `conversations` table of db.py: rows of (id, prompt, response) with a
    SERIAL id, an INSERT of one pair and a DELETE of the row with the largest
    id. Connections and SQL text are not modelled; the table is a sequence. */
module Db {

  /** One row, the dictionary `fetch_conversations` returns. */
  datatype Conversation = Conversation(id: int, prompt: string, response: string)

  /** The table and the next value of its SERIAL id sequence. */
  datatype Table = Table(rows: seq<Conversation>, nextId: int)

  /** What a turn does to the table. */
  datatype StoreOp = Untouched | Insert(prompt: string, response: string) | DeleteLatest

  /** Ids grow along the table and stay below the next SERIAL value
      (a SERIAL sequence never hands out an id twice, even after a DELETE). */
  ghost predicate Ordered(t: Table)
  {
    && 1 <= t.nextId
    && (forall i, j :: 0 <= i < j < |t.rows| ==> t.rows[i].id < t.rows[j].id)
    && (forall i :: 0 <= i < |t.rows| ==> t.rows[i].id < t.nextId)
  }

  /** `SELECT MAX(id) FROM conversations`. */
  function MaxId(rows: seq<Conversation>): (m: int)
    requires rows != []
    ensures exists i :: 0 <= i < |rows| && rows[i].id == m
    ensures forall i :: 0 <= i < |rows| ==> rows[i].id <= m
  {
    if |rows| == 1 then rows[0].id
    else
      var m := MaxId(rows[1..]);
      assert forall i :: 1 <= i < |rows| ==> rows[i] == rows[1..][i - 1];
      if rows[0].id > m then rows[0].id else m
  }

  /** The rows whose id is not `id`, in table order. */
  function DropId(rows: seq<Conversation>, id: int): (r: seq<Conversation>)
    ensures forall c :: c in r <==> c in rows && c.id != id
  {
    if rows == [] then []
    else if rows[0].id == id then DropId(rows[1..], id)
    else [rows[0]] + DropId(rows[1..], id)
  }

  /** `DELETE FROM conversations WHERE id = (SELECT MAX(id) FROM conversations)`;
      on an empty table the subquery is NULL and nothing is deleted. */
  function WithoutMaxId(rows: seq<Conversation>): seq<Conversation>
  {
    if rows == [] then [] else DropId(rows, MaxId(rows))
  }

  /** On an ordered table the row with the largest id is the last one, so
      the DELETE removes exactly the latest stored conversation. */
  lemma {:induction false} DeleteMaxIsLast(t: Table)
    requires Ordered(t) && t.rows != []
    ensures WithoutMaxId(t.rows) == t.rows[..|t.rows| - 1]
  {
    var rows := t.rows;
    var n := |rows|;
    assert MaxId(rows) == rows[n - 1].id;
    assert rows == rows[..n - 1] + [rows[n - 1]];
    DropLast(rows[..n - 1], rows[n - 1]);
  }

  /** Dropping the id of a last row whose id is larger than all others
      removes that row and only it. */
  lemma {:induction false} DropLast(rows: seq<Conversation>, last: Conversation)
    requires forall i :: 0 <= i < |rows| ==> rows[i].id < last.id
    ensures DropId(rows + [last], last.id) == rows
  {
    if rows == [] {
      assert ([] + [last])[1..] == [];
    } else {
      assert (rows + [last])[1..] == rows[1..] + [last];
      DropLast(rows[1..], last);
      assert [rows[0]] + rows[1..] == rows;
    }
  }

  /** The effect of a turn on the table. */
  function Apply(t: Table, op: StoreOp): Table
  {
    match op
    case Untouched => t
    case Insert(p, r) => Table(t.rows + [Conversation(t.nextId, p, r)], t.nextId + 1)
    case DeleteLatest => Table(WithoutMaxId(t.rows), t.nextId)
  }

  /** Both writes keep the table ordered; an INSERT adds the new pair last
      and a DELETE removes the last row. */
  lemma ApplyKeepsOrdered(t: Table, op: StoreOp)
    requires Ordered(t)
    ensures Ordered(Apply(t, op))
    ensures op.DeleteLatest? ==> Apply(t, op).rows == if t.rows == [] then [] else t.rows[..|t.rows| - 1]
  {
    if op.DeleteLatest? && t.rows != [] {
      DeleteMaxIsLast(t);
    }
  }

  /** The database behind `fetch_conversations`, `store_conversation` and
      `remove_last_conversation`. */
  class ConversationStore {
    var rows: seq<Conversation>
    var nextId: int

    function State(): Table
      reads this
    {
      Table(rows, nextId)
    }

    ghost predicate Valid()
      reads this
    {
      Ordered(State())
    }

    /** An empty table whose SERIAL sequence starts at 1. */
    constructor ()
      ensures Valid() && rows == [] && nextId == 1
    {
      rows, nextId := [], 1;
    }

    /** `SELECT id, prompt, response FROM conversations`, in table order. */
    method FetchConversations() returns (r: seq<Conversation>)
      requires Valid()
      ensures r == rows
      ensures forall i, j :: 0 <= i < j < |r| ==> r[i].id < r[j].id
    {
      r := rows;
    }

    /** `INSERT INTO conversations (prompt, response) VALUES (...)`. */
    method StoreConversation(prompt: string, response: string)
      requires Valid()
      modifies this
      ensures Valid()
      ensures State() == Apply(old(State()), Insert(prompt, response))
    {
      ApplyKeepsOrdered(State(), Insert(prompt, response));
      rows := rows + [Conversation(nextId, prompt, response)];
      nextId := nextId + 1;
    }

    /** `DELETE ... WHERE id = (SELECT MAX(id) ...)`. */
    method RemoveLastConversation()
      requires Valid()
      modifies this
      ensures Valid()
      ensures State() == Apply(old(State()), DeleteLatest)
    {
      ApplyKeepsOrdered(State(), DeleteLatest);
      if rows != [] {
        rows := rows[..|rows| - 1];
      }
    }
  }
}
