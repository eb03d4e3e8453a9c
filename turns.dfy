/** One prompt of the Vera engine, as pure functions. vera_core.py
    (`VeraEngine.recall`, `VeraEngine.generate_response`) and vera_cli.py
    (`recall`, `handle_prompt`, `stream_response`) run the same steps over the
    same permanent window `convo` and per-turn `temp_context`; the classes
    that hold that state are proved against these functions. */
module Turns {
  import opened Wrappers
  import opened Text
  import opened Messages
  import opened Oracles
  import opened Db
  import opened QueryBuilder
  import opened VectorStore
  import opened ExternalRag

  const SystemPrompt :=
      "You are Vera, an AI assistant with memory "
      + "of past conversations with this user. "
      + "Always focus on the current user prompt. "
      + "Use past conversation context only if "
      + "it is directly relevant. "
      + "Do not mention or explain that you are "
      + "recalling past conversations. "
      + "Do not repeat past conversations verbatim. "
      + "Respond naturally, clearly, and helpfully, "
      + "using any relevant past information "
      + "only when it is truly useful."

  const MemoryPreamble :=
      "Use the following relevant memories "
      + "to respond intelligently, but do not "
      + "repeat verbatim:\n"
  const TwitchPreamble :=
      "Use these Twitch chat examples as reference "
      + "for style and context, but do not repeat "
      + "verbatim:\n"

  /** The system message carrying the recalled memories, formatted as
      Python formats a set in an f-string. */
  function MemoryContext(memories: set<string>, b: Backend): Message
  {
    Message(System, MemoryPreamble + SetRepr(memories, b))
  }

  /** The system message carrying the Twitch examples, one per line. */
  function TwitchContext(lines: seq<string>): Message
  {
    Message(System, TwitchPreamble + Join("\n", lines))
  }

  /** What `recall` appends to `temp_context`, and whether it returned
      normally or raised after appending those messages. */
  datatype Recalled = Recalled(added: seq<Message>, outcome: Result<(), Failure>)

  /** `recall(prompt)`: build the queries, retrieve the memories (a system
      message only when the set is non-empty), then ask the Twitch corpus
      (a system message only when the list is non-empty). A failure of the
      Twitch step comes after the memory message was appended. */
  function Recall(prompt: string, collection: Option<seq<Entry>>, twitch: TwitchChatRAG, b: Backend): Recalled
  {
    match CreateQueries(prompt, b)
    case Err(e) => Recalled([], Err(e))
    case Ok(queries) =>
      match Retrieval(queries, collection, ResultsPerQuery, b, Classify(b), {})
      case Err(e) => Recalled([], Err(e))
      case Ok(memories) =>
        var mem := if memories != {} then [MemoryContext(memories, b)] else [];
        match twitch.Retrieve(prompt, b)
        case Err(e) => Recalled(mem, Err(e))
        case Ok(lines) => Recalled(mem + (if lines != [] then [TwitchContext(lines)] else []), Ok(()))
  }

  /** Every message of the list is a system message. */
  predicate AllSystem(msgs: seq<Message>)
  {
    forall i :: 0 <= i < |msgs| ==> msgs[i].role == System
  }

  /** `recall` only ever adds system messages: the memory message exactly
      when the retrieved set is non-empty, holding that set and coming first,
      then the Twitch message exactly when the Twitch search returns a
      non-empty list. Nothing is added when building the queries or the
      memory step fails; a failing Twitch search keeps the memory message and
      raises. */
  lemma RecallAddsContext(prompt: string, collection: Option<seq<Entry>>, twitch: TwitchChatRAG, b: Backend)
    ensures var r := Recall(prompt, collection, twitch, b);
      && AllSystem(r.added)
      && (CreateQueries(prompt, b).Err? ==> r == Recalled([], Err(CreateQueries(prompt, b).error)))
      && (CreateQueries(prompt, b).Ok? ==>
            var m := Retrieval(CreateQueries(prompt, b).value, collection, ResultsPerQuery, b, Classify(b), {});
            var t := twitch.Retrieve(prompt, b);
            && (m.Err? ==> r == Recalled([], Err(m.error)))
            && (m.Ok? ==>
                  && |r.added| == (if m.value != {} then 1 else 0) + (if t.Ok? && t.value != [] then 1 else 0)
                  && (m.value != {} ==> r.added[0] == MemoryContext(m.value, b))
                  && (t.Ok? && t.value != [] ==> r.added[|r.added| - 1] == TwitchContext(t.value))
                  && (t.Ok? ==> r.outcome == Ok(()))
                  && (t.Err? ==> r.outcome == Err(t.error))))
  {
  }

  /** The calls of `recall` in order: the queries, the memory search over the
      client's collection, then the Twitch search. It returns the messages
      `recall` appends to `temp_context` and whether it raised. A failure of
      the Twitch search still returns the memory message already appended. */
  method Gather(prompt: string, client: ChromaClient, twitch: TwitchChatRAG, b: Backend) returns (added: seq<Message>, outcome: Result<(), Failure>)
    ensures Recalled(added, outcome) == Recall(prompt, client.collection, twitch, b)
  {
    ghost var spec := Recall(prompt, client.collection, twitch, b);
    var queries := CreateQueries(prompt, b);
    if queries.Err? {
      return [], Err(queries.error);
    }
    var memories := client.RetrieveEmbedding(queries.value, ResultsPerQuery, b);
    if memories.Err? {
      return [], Err(memories.error);
    }
    added := [];
    if memories.value != {} {
      added := added + [MemoryContext(memories.value, b)];
    }
    var lines := twitch.Retrieve(prompt, b);
    if lines.Err? {
      assert spec == Recalled(added, Err(lines.error));
      return added, Err(lines.error);
    }
    if lines.value != [] {
      added := added + [TwitchContext(lines.value)];
    }
    outcome := Ok(());
  }

  /** The state one prompt leaves: the window, the temporary context, the
      write made to the table, and the response or the failure raised. */
  datatype Turn = Turn(convo: seq<Message>, temp: seq<Message>, op: StoreOp, reply: Result<string, Failure>)

  /** `prompt.lower().startswith("/forget")`. */
  predicate IsForget(prompt: string)
  {
    StartsWith(Lower(prompt), "/forget")
  }

  /** `low.startswith('/exit') or low.startswith('/quit')`. */
  predicate IsExit(prompt: string)
  {
    StartsWith(Lower(prompt), "/exit") || StartsWith(Lower(prompt), "/quit")
  }

  /** How the handling of one prompt ends, in vera_cli.py and assistant.py
      alike: it returns, raises SystemExit, or lets an error from recall or
      the model escape. */
  datatype Handled = Continue | Exit | Crash(error: Failure)

  /** How a terminal session's loop ends: SystemExit is caught and breaks the loop;
      any other error propagates out of `main`; running out of typed lines
      ends the input. */
  datatype SessionEnd = Exited | Crashed(error: Failure) | EndOfInput

  /** The state a session leaves behind. */
  datatype Session = Session(convo: seq<Message>, temp: seq<Message>, table: Table, end: SessionEnd)

  /** The `/forget` branch: delete the newest row, drop the last exchange,
      answer "". Nothing is recalled and `temp_context` is kept. */
  function ForgetTurn(convo: seq<Message>, temp: seq<Message>): Turn
  {
    Turn(Forget(convo), temp, DeleteLatest, Ok(""))
  }

  /** The normal branch: recall, stream the answer to
      `convo + temp_context + [user prompt]`, and only once the stream is
      complete clear `temp_context`, store the pair and append the exchange.
      A failure leaves whatever recall appended in `temp_context`. */
  function NormalTurn(convo: seq<Message>, temp: seq<Message>, prompt: string,
                      collection: Option<seq<Entry>>, twitch: TwitchChatRAG, b: Backend): Turn
  {
    var rec := Recall(prompt, collection, twitch, b);
    var temp' := temp + rec.added;
    if rec.outcome.Err? then Turn(convo, temp', Untouched, Err(rec.outcome.error))
    else
      match b.stream(Compose(convo, temp', prompt))
      case None => Turn(convo, temp', Untouched, Err(OllamaUnavailable))
      case Some(chunks) =>
        var response := Concat(chunks);
        Turn(convo + [Message(User, prompt), Message(Assistant, response)], [], Insert(prompt, response), Ok(response))
  }

  /** `generate_response(prompt)`. */
  function EngineTurn(convo: seq<Message>, temp: seq<Message>, prompt: string,
                      collection: Option<seq<Entry>>, twitch: TwitchChatRAG, b: Backend): Turn
  {
    if IsForget(prompt) then ForgetTurn(convo, temp)
    else NormalTurn(convo, temp, prompt, collection, twitch, b)
  }

  /** The messages the model is asked to continue in a normal turn. */
  function GenerationInput(convo: seq<Message>, temp: seq<Message>, prompt: string,
                           collection: Option<seq<Entry>>, twitch: TwitchChatRAG, b: Backend): seq<Message>
  {
    Compose(convo, temp + Recall(prompt, collection, twitch, b).added, prompt)
  }

  /** A turn answers exactly when recall and the stream both succeed; the
      answer is the streamed chunks joined in order, the exchange is appended
      to the window as the last two messages, the pair (with the raw prompt)
      is inserted, and `temp_context` is emptied. */
  lemma NormalTurnSucceeds(convo: seq<Message>, temp: seq<Message>, prompt: string,
                           collection: Option<seq<Entry>>, twitch: TwitchChatRAG, b: Backend)
    ensures var t := NormalTurn(convo, temp, prompt, collection, twitch, b);
      var input := GenerationInput(convo, temp, prompt, collection, twitch, b);
      && (t.reply.Ok? <==> Recall(prompt, collection, twitch, b).outcome.Ok? && b.stream(input).Some?)
      && (t.reply.Ok? ==>
            && t.reply.value == Concat(b.stream(input).value)
            && t.convo == convo + [Message(User, prompt), Message(Assistant, t.reply.value)]
            && t.temp == []
            && t.op == Insert(prompt, t.reply.value))
  {
  }

  /** A failed turn changes neither the window nor the table; every context
      message it recalled stays in `temp_context` after the old ones. */
  lemma FailedTurnKeepsContext(convo: seq<Message>, temp: seq<Message>, prompt: string,
                               collection: Option<seq<Entry>>, twitch: TwitchChatRAG, b: Backend)
    requires NormalTurn(convo, temp, prompt, collection, twitch, b).reply.Err?
    ensures var t := NormalTurn(convo, temp, prompt, collection, twitch, b);
      && t.convo == convo
      && t.op == Untouched
      && |t.temp| >= |temp|
      && t.temp[..|temp|] == temp
      && t.temp == temp + Recall(prompt, collection, twitch, b).added
  {
  }

  /** The context messages sit right after the window in a generation input. */
  lemma ContextFollowsWindow(convo: seq<Message>, stale: seq<Message>, added: seq<Message>, next: string)
    ensures var input := Compose(convo, stale + added, next);
      |input| >= |convo| + |stale| && input[|convo|..|convo| + |stale|] == stale
  {
    assert Compose(convo, stale + added, next) == convo + stale + (added + [Message(User, next)]);
  }

  /** The stale context of a failed turn reaches the next prompt: the next
      generation input holds those messages right after the window. */
  lemma StaleContextReachesNextTurn(convo: seq<Message>, temp: seq<Message>, prompt: string, next: string,
                                    collection: Option<seq<Entry>>, twitch: TwitchChatRAG, b: Backend)
    requires NormalTurn(convo, temp, prompt, collection, twitch, b).reply.Err?
    ensures var stale := NormalTurn(convo, temp, prompt, collection, twitch, b).temp;
      var input := GenerationInput(convo, stale, next, collection, twitch, b);
      && |stale| >= |temp| && stale[..|temp|] == temp
      && |input| >= |convo| + |stale|
      && input[|convo|..|convo| + |stale|] == stale
  {
    FailedTurnKeepsContext(convo, temp, prompt, collection, twitch, b);
    var stale := NormalTurn(convo, temp, prompt, collection, twitch, b).temp;
    ContextFollowsWindow(convo, stale, Recall(next, collection, twitch, b).added, next);
  }

  /** Every turn keeps the window invariant and keeps `temp_context` made of
      system messages only. */
  lemma TurnKeepsWindow(convo: seq<Message>, systemPrompt: string, temp: seq<Message>, prompt: string,
                        collection: Option<seq<Entry>>, twitch: TwitchChatRAG, b: Backend)
    requires Window(convo, systemPrompt) && AllSystem(temp)
    ensures var t := EngineTurn(convo, temp, prompt, collection, twitch, b);
      Window(t.convo, systemPrompt) && AllSystem(t.temp)
  {
    if IsForget(prompt) {
      ForgetKeepsWindow(convo, systemPrompt);
    } else {
      RecallAddsContext(prompt, collection, twitch, b);
      var t := NormalTurn(convo, temp, prompt, collection, twitch, b);
      if t.reply.Ok? {
        ExchangeKeepsWindow(convo, systemPrompt, prompt, t.reply.value);
      }
    }
  }

  /** `/forget` is matched case-insensitively on the prompt's first seven
      characters, and neither recalls nor calls the model. */
  lemma ForgetIgnoresCase(prompt: string)
    ensures IsForget(prompt) <==> |prompt| >= 7 && Lower(prompt[..7]) == "/forget"
    ensures IsForget(prompt) ==> forall convo, temp, collection, twitch, b ::
              EngineTurn(convo, temp, prompt, collection, twitch, b) == ForgetTurn(convo, temp)
  {
    if |prompt| >= 7 {
      assert Lower(prompt)[..7] == Lower(prompt[..7]);
    }
  }

  /** The user/assistant exchanges of a window, oldest first. */
  function Exchanges(convo: seq<Message>): seq<(string, string)>
  {
    if |convo| < 3 then []
    else Exchanges(convo[..|convo| - 2]) + [(convo[|convo| - 2].content, convo[|convo| - 1].content)]
  }

  /** The (prompt, response) pairs of the table, in row order. */
  function Pairs(rows: seq<Conversation>): seq<(string, string)>
  {
    seq(|rows|, i requires 0 <= i < |rows| => (rows[i].prompt, rows[i].response))
  }

  predicate IsSuffix<T(==)>(a: seq<T>, b: seq<T>)
  {
    |a| <= |b| && b[|b| - |a|..] == a
  }

  /** The window mirrors the table: its exchanges are the newest rows. */
  ghost predicate Mirrors(convo: seq<Message>, t: Table)
  {
    IsSuffix(Exchanges(convo), Pairs(t.rows))
  }

  lemma PairsDropLast(rows: seq<Conversation>)
    requires rows != []
    ensures Pairs(rows[..|rows| - 1]) == Pairs(rows)[..|rows| - 1]
  {
  }

  /** Dropping the newest exchange and the newest row keeps the exchanges a
      suffix of the pairs. */
  lemma DropNewestKeepsSuffix(convo: seq<Message>, rows: seq<Conversation>)
    requires IsSuffix(Exchanges(convo), Pairs(rows))
    ensures IsSuffix(Exchanges(Forget(convo)), Pairs(if rows == [] then [] else rows[..|rows| - 1]))
  {
    if |convo| >= 3 {
      var e := Exchanges(convo);
      var p := Pairs(rows);
      assert e == Exchanges(Forget(convo)) + [e[|e| - 1]];
      PairsDropLast(rows);
      assert p[|p| - |e|..|p| - 1] == e[..|e| - 1];
    }
  }

  /** `/forget` drops the newest exchange and the newest row together. */
  lemma ForgetKeepsMirror(convo: seq<Message>, t: Table)
    requires Ordered(t) && Mirrors(convo, t)
    ensures Mirrors(Forget(convo), Apply(t, DeleteLatest))
  {
    ApplyKeepsOrdered(t, DeleteLatest);
    DropNewestKeepsSuffix(convo, t.rows);
  }

  /** An answered prompt adds the same pair to the window and the table. */
  lemma ExchangeKeepsMirror(convo: seq<Message>, t: Table, prompt: string, response: string)
    requires |convo| >= 1 && Mirrors(convo, t)
    ensures Mirrors(convo + [Message(User, prompt), Message(Assistant, response)], Apply(t, Insert(prompt, response)))
  {
    var c' := convo + [Message(User, prompt), Message(Assistant, response)];
    assert c'[..|c'| - 2] == convo;
    var t' := Apply(t, Insert(prompt, response));
    assert Pairs(t'.rows) == Pairs(t.rows) + [(prompt, response)];
  }

  /** Each turn keeps the window a mirror of the newest rows of an ordered
      table: an answered prompt adds the same pair to both, `/forget` drops
      the newest of both, and a failed prompt touches neither. */
  lemma TurnKeepsMirror(convo: seq<Message>, temp: seq<Message>, t: Table, prompt: string,
                        collection: Option<seq<Entry>>, twitch: TwitchChatRAG, b: Backend)
    requires |convo| >= 1 && Ordered(t) && Mirrors(convo, t)
    ensures var turn := EngineTurn(convo, temp, prompt, collection, twitch, b);
      Mirrors(turn.convo, Apply(t, turn.op))
  {
    if IsForget(prompt) {
      ForgetKeepsMirror(convo, t);
    } else {
      var turn := NormalTurn(convo, temp, prompt, collection, twitch, b);
      NormalTurnSucceeds(convo, temp, prompt, collection, twitch, b);
      if turn.reply.Ok? {
        ExchangeKeepsMirror(convo, t, prompt, turn.reply.value);
      } else {
        FailedTurnKeepsContext(convo, temp, prompt, collection, twitch, b);
      }
    }
  }
}
