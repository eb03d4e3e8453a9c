/** assistant.py: the older terminal assistant. Unlike the engine it has no
    temporary context: the recalled memories are folded into the user
    message that stays in the permanent window. */
module AssistantLoop {
  import opened Wrappers
  import opened Text
  import opened Messages
  import opened Oracles
  import opened Db
  import opened QueryBuilder
  import opened VectorStore
  import opened Turns

  const AssistantPrompt :=
      "You are an AI assistant that has memory "
      + "of every conversation you have ever "
      + "had with this user. "
      + "On every prompt from the user, the system "
      + "has checked for any relevant messages "
      + "you have had with the user. "
      + "If any embedded previous conversations "
      + "are attached, use them for context to "
      + "responding to the user, "
      + "if the context is relevant and useful "
      + "to responding. If the recalled "
      + "conversations are irrelevant, "
      + "disregard speaking about them and respond "
      + "normally as an AI assistant. Do not "
      + "talk about recalling conversations. "
      + "Just use any useful data from the previous "
      + "conversations and respond normally as "
      + "an intelligent AI assistant."

  /** `f'MEMORIES: {embeddings} \n USER PROMPT: {prompt}'`. */
  function MemoryPrompt(memories: set<string>, prompt: string, b: Backend): string
  {
    "MEMORIES: " + SetRepr(memories, b) + " \n USER PROMPT: " + prompt
  }

  /** The window after `recall` (and `stream_response`), the write made to
      the table, and the answer or the failure raised. */
  datatype Exchange = Exchange(convo: seq<Message>, op: StoreOp, reply: Result<string, Failure>)

  /** The memories `recall` retrieves: queries from the model, then the
      vector store search. */
  function Memories(prompt: string, collection: Option<seq<Entry>>, b: Backend): Result<set<string>, Failure>
  {
    match CreateQueries(prompt, b)
    case Err(e) => Err(e)
    case Ok(queries) => Retrieval(queries, collection, ResultsPerQuery, b, Classify(b), {})
  }

  /** Once the memories are in hand: append the memory message, then let the
      model continue the whole window. */
  function Answer(convo: seq<Message>, memories: set<string>, prompt: string, b: Backend): Exchange
  {
    var asked := convo + [Message(User, MemoryPrompt(memories, prompt, b))];
    match b.stream(asked)
    case None => Exchange(asked, Untouched, Err(OllamaUnavailable))
    case Some(chunks) =>
      var response := Concat(chunks);
      Exchange(asked + [Message(Assistant, response)], Insert(prompt, response), Ok(response))
  }

  /** `recall(prompt)` then `stream_response(prompt)`: the memory message is
      appended before the model is called, whatever was recalled, and the
      model sees the whole window. */
  function AssistantTurn(convo: seq<Message>, prompt: string, collection: Option<seq<Entry>>, b: Backend): Exchange
  {
    match Memories(prompt, collection, b)
    case Err(e) => Exchange(convo, Untouched, Err(e))
    case Ok(memories) => Answer(convo, memories, prompt, b)
  }

  /** An answered prompt appends one exchange and keeps the window; the
      table receives the raw prompt while the window keeps the memory
      message, which ends with that prompt. A failed model call leaves a
      dangling user message, so the window is broken. */
  lemma AnswerWindow(convo: seq<Message>, systemPrompt: string, memories: set<string>, prompt: string, b: Backend)
    requires Window(convo, systemPrompt)
    ensures var x := Answer(convo, memories, prompt, b);
      && (x.reply.Ok? ==>
            && Window(x.convo, systemPrompt)
            && |x.convo| == |convo| + 2 && x.convo[..|convo|] == convo
            && x.op == Insert(prompt, x.reply.value)
            && x.convo[|convo|].role == User
            && IsSuffix(prompt, x.convo[|convo|].content)
            && x.convo[|convo| + 1] == Message(Assistant, x.reply.value))
      && (x.reply.Err? ==> x.op == Untouched && |x.convo| == |convo| + 1 && !Window(x.convo, systemPrompt))
  {
    var x := Answer(convo, memories, prompt, b);
    var content := MemoryPrompt(memories, prompt, b);
    var asked := convo + [Message(User, content)];
    assert content == ("MEMORIES: " + SetRepr(memories, b) + " \n USER PROMPT: ") + prompt;
    assert content[|content| - |prompt|..] == prompt;
    if x.reply.Ok? {
      assert x.convo == asked + [Message(Assistant, x.reply.value)];
      assert x.convo[..|convo|] == convo;
    } else {
      assert x.convo == asked;
    }
  }

  /** The whole prompt: a failure to recall changes nothing, otherwise the
      memory message goes in first (see `AnswerWindow`). */
  lemma AssistantTurnWindow(convo: seq<Message>, systemPrompt: string, prompt: string, collection: Option<seq<Entry>>, b: Backend)
    requires Window(convo, systemPrompt)
    ensures var x := AssistantTurn(convo, prompt, collection, b);
      && (Memories(prompt, collection, b).Err? ==> x == Exchange(convo, Untouched, Err(Memories(prompt, collection, b).error)))
      && (Memories(prompt, collection, b).Ok? ==> x == Answer(convo, Memories(prompt, collection, b).value, prompt, b))
      && (x.reply.Ok? ==> Window(x.convo, systemPrompt) && x.op == Insert(prompt, x.reply.value))
      && (x.reply.Err? ==> x.op == Untouched)
  {
    var m := Memories(prompt, collection, b);
    if m.Ok? {
      AnswerWindow(convo, systemPrompt, m.value, prompt, b);
    }
  }

  /** The memory message is sent even when nothing was recalled: Python
      formats the empty set as `set()`. */
  lemma EmptyMemoriesStillSent(convo: seq<Message>, prompt: string, b: Backend)
    ensures |Answer(convo, {}, prompt, b).convo| > |convo|
    ensures Answer(convo, {}, prompt, b).convo[|convo|] == Message(User, "MEMORIES: set() \n USER PROMPT: " + prompt)
  {
    assert SetRepr({}, b) == "set()";
    assert MemoryPrompt({}, prompt, b) == "MEMORIES: set() \n USER PROMPT: " + prompt;
  }

  /** The state after one typed line and how the loop goes on. */
  datatype AStep = AStep(convo: seq<Message>, table: Table, handled: Handled)

  /** One iteration of `main`'s loop: strip, skip a blank line, `/forget`,
      then `/exit` or `/quit`, then a prompt. */
  function AssistantLine(convo: seq<Message>, t: Table, line: string, collection: Option<seq<Entry>>, b: Backend): AStep
  {
    var prompt := Strip(line);
    if prompt == "" then AStep(convo, t, Continue)
    else if IsForget(prompt) then AStep(Forget(convo), Apply(t, DeleteLatest), Continue)
    else if IsExit(prompt) then AStep(convo, t, Exit)
    else
      var x := AssistantTurn(convo, prompt, collection, b);
      AStep(x.convo, Apply(t, x.op), if x.reply.Err? then Crash(x.reply.error) else Continue)
  }

  /** The loop of `main`; an error from recall or the model ends it. */
  function AssistantSession(convo: seq<Message>, t: Table, lines: seq<string>, collection: Option<seq<Entry>>, b: Backend): Session
    decreases |lines|
  {
    if lines == [] then Session(convo, [], t, EndOfInput)
    else
      var st := AssistantLine(convo, t, lines[0], collection, b);
      match st.handled
      case Exit => Session(st.convo, [], st.table, Exited)
      case Crash(e) => Session(st.convo, [], st.table, Crashed(e))
      case Continue => AssistantSession(st.convo, st.table, lines[1..], collection, b)
  }

  /** A line the loop goes on after keeps the window invariant and the
      table ordered. */
  lemma AssistantLineKeepsWindow(convo: seq<Message>, systemPrompt: string, t: Table, line: string, collection: Option<seq<Entry>>, b: Backend)
    requires Window(convo, systemPrompt) && Ordered(t)
    ensures var st := AssistantLine(convo, t, line, collection, b);
      Ordered(st.table) && (!st.handled.Crash? ==> Window(st.convo, systemPrompt))
  {
    var prompt := Strip(line);
    if prompt != "" {
      if IsForget(prompt) {
        ForgetKeepsWindow(convo, systemPrompt);
        ApplyKeepsOrdered(t, DeleteLatest);
      } else if !IsExit(prompt) {
        AssistantTurnWindow(convo, systemPrompt, prompt, collection, b);
        ApplyKeepsOrdered(t, AssistantTurn(convo, prompt, collection, b).op);
      }
    }
  }

  /** A session that ends without an error leaves a well-formed window;
      every session leaves the table ordered. */
  lemma {:induction false} AssistantSessionKeepsWindow(convo: seq<Message>, systemPrompt: string, t: Table, lines: seq<string>,
                                                       collection: Option<seq<Entry>>, b: Backend)
    requires Window(convo, systemPrompt) && Ordered(t)
    ensures var s := AssistantSession(convo, t, lines, collection, b);
      Ordered(s.table) && (!s.end.Crashed? ==> Window(s.convo, systemPrompt))
    decreases |lines|
  {
    if lines != [] {
      AssistantLineKeepsWindow(convo, systemPrompt, t, lines[0], collection, b);
      var st := AssistantLine(convo, t, lines[0], collection, b);
      if st.handled.Continue? {
        AssistantSessionKeepsWindow(st.convo, systemPrompt, st.table, lines[1..], collection, b);
      }
    }
  }

  /** The module state of assistant.py: the window `convo`, with the
      database and the Chroma client it talks to. */
  class Assistant {
    var convo: seq<Message>
    const store: ConversationStore
    const client: ChromaClient

    ghost predicate Valid()
      reads this, store
    {
      store.Valid()
    }

    constructor (store: ConversationStore, client: ChromaClient)
      requires store.Valid()
      ensures Valid()
      ensures this.store == store && this.client == client
      ensures convo == Seed(AssistantPrompt)
    {
      this.store := store;
      this.client := client;
      convo := Seed(AssistantPrompt);
    }

    /** `recall(prompt)`: append the memory message, whatever was recalled. */
    method Recall(prompt: string, b: Backend) returns (outcome: Result<(), Failure>)
      requires Valid()
      modifies this
      ensures Valid()
      ensures var m := Memories(prompt, client.collection, b);
        && (m.Err? ==> outcome == Err(m.error) && convo == old(convo))
        && (m.Ok? ==> outcome == Ok(()) && convo == old(convo) + [Message(User, MemoryPrompt(m.value, prompt, b))])
    {
      var queries := CreateQueries(prompt, b);
      if queries.Err? {
        return Err(queries.error);
      }
      var embeddings := client.RetrieveEmbedding(queries.value, ResultsPerQuery, b);
      if embeddings.Err? {
        return Err(embeddings.error);
      }
      convo := convo + [Message(User, "MEMORIES: " + SetRepr(embeddings.value, b) + " \n USER PROMPT: " + prompt)];
      outcome := Ok(());
    }

    /** `stream_response(prompt)`: the model continues the whole window;
        once the stream is complete the pair is stored and the answer
        appended. */
    method StreamResponse(prompt: string, b: Backend) returns (r: Result<string, Failure>)
      requires Valid()
      modifies this, store
      ensures Valid()
      ensures var s := b.stream(old(convo));
        && (s.None? ==> r == Err(OllamaUnavailable) && convo == old(convo) && store.State() == old(store.State()))
        && (s.Some? ==>
              && r == Ok(Concat(s.value))
              && convo == old(convo) + [Message(Assistant, Concat(s.value))]
              && store.State() == Apply(old(store.State()), Insert(prompt, Concat(s.value))))
    {
      var stream := b.stream(convo);
      if stream.None? {
        return Err(OllamaUnavailable);
      }
      var response := CollectStream(stream.value);
      store.StoreConversation(prompt, response);
      convo := convo + [Message(Assistant, response)];
      r := Ok(response);
    }

    /** The body of `main`'s loop for one typed line. */
    method HandleLine(line: string, b: Backend) returns (h: Handled)
      requires Valid()
      modifies this, store
      ensures Valid()
      ensures var st := AssistantLine(old(convo), old(store.State()), line, client.collection, b);
        convo == st.convo && store.State() == st.table && h == st.handled
    {
      var prompt := Strip(line);
      if prompt == "" {
        return Continue;
      }
      if IsForget(prompt) {
        store.RemoveLastConversation();
        if |convo| >= 2 {
          convo := convo[..|convo| - 2];
        }
        return Continue;
      }
      if IsExit(prompt) {
        return Exit;
      }
      var outcome := Recall(prompt, b);
      if outcome.Err? {
        return Crash(outcome.error);
      }
      var r := StreamResponse(prompt, b);
      if r.Err? {
        return Crash(r.error);
      }
      h := Continue;
    }

    /** `main()`: rebuild the memory collection from the table (a failure is
        swallowed), then handle one stripped, non-blank line at a time until
        `/exit`, `/quit`, an error, or the end of input. */
    method Run(lines: seq<string>, b: Backend) returns (end: SessionEnd)
      requires Valid()
      modifies this, store, client
      ensures Valid()
      ensures client.collection == Some(Fill([], old(store.rows), b).entries)
      ensures var s := AssistantSession(old(convo), old(store.State()), lines, client.collection, b);
        convo == s.convo && store.State() == s.table && end == s.end
    {
      var conversations := store.FetchConversations();
      var _ := client.CreateVectorStore(conversations, b);
      ghost var collection := client.collection;
      ghost var whole := AssistantSession(convo, store.State(), lines, collection, b);
      var i := 0;
      while i < |lines|
        invariant 0 <= i <= |lines|
        invariant Valid()
        invariant client.collection == collection
        invariant whole == AssistantSession(convo, store.State(), lines[i..], collection, b)
      {
        ghost var rest := lines[i..];
        assert rest[0] == lines[i] && rest[1..] == lines[i + 1..];
        var h := HandleLine(lines[i], b);
        if h == Exit {
          return Exited;
        }
        if h.Crash? {
          return Crashed(h.error);
        }
        i := i + 1;
      }
      end := EndOfInput;
    }
  }
}
