/** vera_cli.py: the terminal front end. Its module globals (`convo`,
    `temp_context`, `agent_voice_enabled`, `twitch_rag`) are the fields of
    `Cli`; `main` reads typed lines until `/exit`, `/quit` or an error. */
module VeraCli {
  import opened Wrappers
  import opened Text
  import opened Messages
  import opened Oracles
  import opened Db
  import opened QueryBuilder
  import opened VectorStore
  import opened ExternalRag
  import opened Turns

  /** `handle_prompt(prompt)`: `/forget` wins over `/exit` and `/quit`. */
  function HandleStep(convo: seq<Message>, temp: seq<Message>, prompt: string,
                      collection: Option<seq<Entry>>, twitch: TwitchChatRAG, b: Backend): (Turn, Handled)
  {
    if !IsForget(prompt) && IsExit(prompt) then (Turn(convo, temp, Untouched, Ok("")), Exit)
    else
      var t := EngineTurn(convo, temp, prompt, collection, twitch, b);
      (t, if t.reply.Err? then Crash(t.reply.error) else Continue)
  }

  /** The state after one typed line and how its handling ended. */
  datatype Step = Step(convo: seq<Message>, temp: seq<Message>, table: Table, handled: Handled)

  /** One iteration of `main`'s loop on a typed line: the line is stripped
      and a blank line is skipped. */
  function LineStep(convo: seq<Message>, temp: seq<Message>, t: Table, line: string,
                    collection: Option<seq<Entry>>, twitch: TwitchChatRAG, b: Backend): Step
  {
    var prompt := Strip(line);
    if prompt == "" then Step(convo, temp, t, Continue)
    else
      var (turn, h) := HandleStep(convo, temp, prompt, collection, twitch, b);
      Step(turn.convo, turn.temp, Apply(t, turn.op), h)
  }

  /** The loop of `main` over typed lines, stopping at an exit command or
      an error. */
  function CliSession(convo: seq<Message>, temp: seq<Message>, t: Table, lines: seq<string>,
                      collection: Option<seq<Entry>>, twitch: TwitchChatRAG, b: Backend): Session
    decreases |lines|
  {
    if lines == [] then Session(convo, temp, t, EndOfInput)
    else
      var st := LineStep(convo, temp, t, lines[0], collection, twitch, b);
      match st.handled
      case Exit => Session(st.convo, st.temp, st.table, Exited)
      case Crash(e) => Session(st.convo, st.temp, st.table, Crashed(e))
      case Continue => CliSession(st.convo, st.temp, st.table, lines[1..], collection, twitch, b)
  }

  /** The engine invariant: the window, the system-only context, an
      ordered table, and the window mirroring the newest rows. */
  ghost predicate SessionInvariant(systemPrompt: string, convo: seq<Message>, temp: seq<Message>, t: Table)
  {
    Window(convo, systemPrompt) && AllSystem(temp) && Ordered(t) && Mirrors(convo, t)
  }

  /** One handled prompt keeps the engine invariant. */
  lemma HandleStepKeepsInvariant(systemPrompt: string, convo: seq<Message>, temp: seq<Message>, t: Table, prompt: string,
                                 collection: Option<seq<Entry>>, twitch: TwitchChatRAG, b: Backend)
    requires SessionInvariant(systemPrompt, convo, temp, t)
    ensures var (turn, _) := HandleStep(convo, temp, prompt, collection, twitch, b);
      SessionInvariant(systemPrompt, turn.convo, turn.temp, Apply(t, turn.op))
  {
    TurnKeepsWindow(convo, systemPrompt, temp, prompt, collection, twitch, b);
    TurnKeepsMirror(convo, temp, t, prompt, collection, twitch, b);
    ApplyKeepsOrdered(t, EngineTurn(convo, temp, prompt, collection, twitch, b).op);
  }

  /** However a session ends, it leaves the engine invariant in place. */
  lemma {:induction false} SessionKeepsInvariant(systemPrompt: string, convo: seq<Message>, temp: seq<Message>, t: Table, lines: seq<string>,
                                                 collection: Option<seq<Entry>>, twitch: TwitchChatRAG, b: Backend)
    requires SessionInvariant(systemPrompt, convo, temp, t)
    ensures var s := CliSession(convo, temp, t, lines, collection, twitch, b);
      SessionInvariant(systemPrompt, s.convo, s.temp, s.table)
    decreases |lines|
  {
    if lines != [] {
      var prompt := Strip(lines[0]);
      if prompt != "" {
        HandleStepKeepsInvariant(systemPrompt, convo, temp, t, prompt, collection, twitch, b);
      }
      var st := LineStep(convo, temp, t, lines[0], collection, twitch, b);
      if st.handled.Continue? {
        SessionKeepsInvariant(systemPrompt, st.convo, st.temp, st.table, lines[1..], collection, twitch, b);
      }
    }
  }

  /** A session that stopped at an exit command or an error ignores every
      line typed after the ones it consumed. */
  lemma {:induction false} StoppedSessionIgnoresLaterLines(convo: seq<Message>, temp: seq<Message>, t: Table,
                                                           lines: seq<string>, more: seq<string>,
                                                           collection: Option<seq<Entry>>, twitch: TwitchChatRAG, b: Backend)
    requires !CliSession(convo, temp, t, lines, collection, twitch, b).end.EndOfInput?
    ensures CliSession(convo, temp, t, lines + more, collection, twitch, b) == CliSession(convo, temp, t, lines, collection, twitch, b)
    decreases |lines|
  {
    assert lines != [];
    assert (lines + more)[0] == lines[0];
    assert (lines + more)[1..] == lines[1..] + more;
    var st := LineStep(convo, temp, t, lines[0], collection, twitch, b);
    if st.handled.Continue? {
      StoppedSessionIgnoresLaterLines(st.convo, st.temp, st.table, lines[1..], more, collection, twitch, b);
    }
  }

  /** An exit command ends the session and changes nothing, whatever was
      typed after it. */
  lemma ExitChangesNothing(convo: seq<Message>, temp: seq<Message>, t: Table, line: string, rest: seq<string>,
                           collection: Option<seq<Entry>>, twitch: TwitchChatRAG, b: Backend)
    requires Strip(line) != "" && IsExit(Strip(line)) && !IsForget(Strip(line))
    ensures CliSession(convo, temp, t, [line] + rest, collection, twitch, b) == Session(convo, temp, t, Exited)
  {
    assert ([line] + rest)[0] == line;
  }

  class Cli {
    var convo: seq<Message>
    var tempContext: seq<Message>
    const agentVoiceEnabled: bool
    const store: ConversationStore
    const client: ChromaClient
    const twitch: TwitchChatRAG

    ghost predicate Valid()
      reads this, store
    {
      store.Valid() && SessionInvariant(SystemPrompt, convo, tempContext, store.State())
    }

    /** Import of the module: the seeded window and an empty context. */
    constructor (store: ConversationStore, client: ChromaClient, twitch: TwitchChatRAG, agentVoiceEnabled: bool)
      requires store.Valid()
      ensures Valid()
      ensures this.store == store && this.client == client && this.twitch == twitch
      ensures this.agentVoiceEnabled == agentVoiceEnabled
      ensures convo == Seed(SystemPrompt) && tempContext == []
    {
      this.store := store;
      this.client := client;
      this.twitch := twitch;
      this.agentVoiceEnabled := agentVoiceEnabled;
      convo := Seed(SystemPrompt);
      tempContext := [];
    }

    /** `stream_response(prompt)`: stream the answer to
        `convo + temp_context + [user prompt]`; once it is complete, clear the
        context, store the pair, extend the window, and report whether the
        answer would be spoken (`agent_voice_enabled and response.strip()`). */
    method StreamResponse(prompt: string, b: Backend) returns (r: Result<string, Failure>, spoke: bool)
      requires Valid()
      modifies this, store
      ensures Valid()
      ensures var s := b.stream(Compose(old(convo), old(tempContext), prompt));
        && (s.None? ==>
              && r == Err(OllamaUnavailable) && !spoke
              && convo == old(convo) && tempContext == old(tempContext)
              && store.State() == old(store.State()))
        && (s.Some? ==>
              && r == Ok(Concat(s.value))
              && convo == old(convo) + [Message(User, prompt), Message(Assistant, Concat(s.value))]
              && tempContext == []
              && store.State() == Apply(old(store.State()), Insert(prompt, Concat(s.value)))
              && spoke == (agentVoiceEnabled && Strip(Concat(s.value)) != ""))
    {
      var fullContext := convo + tempContext + [Message(User, prompt)];
      var stream := b.stream(fullContext);
      if stream.None? {
        return Err(OllamaUnavailable), false;
      }
      var response := CollectStream(stream.value);
      ExchangeKeepsWindow(convo, SystemPrompt, prompt, response);
      ExchangeKeepsMirror(convo, store.State(), prompt, response);
      ApplyKeepsOrdered(store.State(), Insert(prompt, response));
      tempContext := [];
      store.StoreConversation(prompt, response);
      convo := convo + [Message(User, prompt), Message(Assistant, response)];
      r := Ok(response);
      spoke := agentVoiceEnabled && Strip(response) != "";
    }

    /** `recall(prompt)`: append the recalled context to `temp_context`. */
    method Recall(prompt: string, b: Backend) returns (outcome: Result<(), Failure>)
      requires Valid()
      modifies this
      ensures Valid()
      ensures convo == old(convo)
      ensures tempContext == old(tempContext) + Turns.Recall(prompt, client.collection, twitch, b).added
      ensures outcome == Turns.Recall(prompt, client.collection, twitch, b).outcome
    {
      var added;
      added, outcome := Gather(prompt, client, twitch, b);
      RecallAddsContext(prompt, client.collection, twitch, b);
      tempContext := tempContext + added;
    }

    /** `handle_prompt(prompt)`. */
    method HandlePrompt(prompt: string, b: Backend) returns (h: Handled)
      requires Valid()
      modifies this, store
      ensures Valid()
      ensures var (t, h') := HandleStep(old(convo), old(tempContext), prompt, client.collection, twitch, b);
        && convo == t.convo
        && tempContext == t.temp
        && store.State() == Apply(old(store.State()), t.op)
        && h == h'
    {
      if IsForget(prompt) {
        ForgetKeepsWindow(convo, SystemPrompt);
        ForgetKeepsMirror(convo, store.State());
        store.RemoveLastConversation();
        if |convo| >= 2 {
          convo := convo[..|convo| - 2];
        }
        return Continue;
      }
      if IsExit(prompt) {
        return Exit;
      }
      var outcome := Recall(prompt, b);
      if outcome.Err? {
        return Crash(outcome.error);
      }
      var r, _ := StreamResponse(prompt, b);
      if r.Err? {
        return Crash(r.error);
      }
      h := Continue;
    }

    /** The body of `main`'s loop for one typed line. */
    method HandleLine(line: string, b: Backend) returns (h: Handled)
      requires Valid()
      modifies this, store
      ensures Valid()
      ensures var st := LineStep(old(convo), old(tempContext), old(store.State()), line, client.collection, twitch, b);
        && convo == st.convo
        && tempContext == st.temp
        && store.State() == st.table
        && h == st.handled
    {
      var prompt := Strip(line);
      if prompt == "" {
        return Continue;
      }
      h := HandlePrompt(prompt, b);
    }

    /** `main()` on typed input: rebuild the memory collection from the
        table (a failure is swallowed), then handle one stripped, non-blank
        line at a time until an exit command, an error, or the end of input. */
    method Run(lines: seq<string>, b: Backend) returns (end: SessionEnd)
      requires Valid()
      modifies this, store, client
      ensures Valid()
      ensures client.collection == Some(Fill([], old(store.rows), b).entries)
      ensures var s := CliSession(old(convo), old(tempContext), old(store.State()), lines, client.collection, twitch, b);
        && convo == s.convo
        && tempContext == s.temp
        && store.State() == s.table
        && end == s.end
    {
      var conversations := store.FetchConversations();
      var _ := client.CreateVectorStore(conversations, b);
      ghost var collection := client.collection;
      ghost var whole := CliSession(convo, tempContext, store.State(), lines, collection, twitch, b);
      var i := 0;
      while i < |lines|
        invariant 0 <= i <= |lines|
        invariant Valid()
        invariant client.collection == collection
        invariant whole == CliSession(convo, tempContext, store.State(), lines[i..], collection, twitch, b)
      {
        ghost var rest := lines[i..];
        assert rest[0] == lines[i] && rest[1..] == lines[i + 1..];
        var h := HandleLine(lines[i], b);
        if h == Exit {
          return Exited;
        }
        if h.Crash? {
          return Crashed(h.error);
        }
        i := i + 1;
      }
      end := EndOfInput;
    }
  }
}
