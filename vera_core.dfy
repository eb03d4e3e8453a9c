/** vera_core.py: `VeraEngine`, the stateful engine behind the HTTP API. */
module VeraCore {
  import opened Wrappers
  import opened Messages
  import opened Oracles
  import opened Db
  import opened QueryBuilder
  import opened VectorStore
  import opened ExternalRag
  import opened Turns

  class VeraEngine {
    /** The permanent window `self.convo`. */
    var convo: seq<Message>
    /** The per-turn context `self.temp_context`. */
    var tempContext: seq<Message>
    /** The database, the process-wide Chroma client and the module-level
        Twitch corpus the engine talks to. */
    const store: ConversationStore
    const client: ChromaClient
    const twitch: TwitchChatRAG

    ghost predicate Valid()
      reads this, store
    {
      && Window(convo, SystemPrompt)
      && AllSystem(tempContext)
      && store.Valid()
      && Mirrors(convo, store.State())
    }

    /** `__init__` and `_init_memory`: seed the window, then rebuild the
        memory collection from every stored conversation; a failure while
        rebuilding is swallowed and leaves the records added so far. */
    constructor (store: ConversationStore, client: ChromaClient, twitch: TwitchChatRAG, b: Backend)
      requires store.Valid()
      modifies client
      ensures Valid()
      ensures this.store == store && this.client == client && this.twitch == twitch
      ensures convo == Seed(SystemPrompt) && tempContext == []
      ensures client.collection == Some(Fill([], store.rows, b).entries)
    {
      this.store := store;
      this.client := client;
      this.twitch := twitch;
      tempContext := [];
      convo := Seed(SystemPrompt);
      new;
      var conversations := store.FetchConversations();
      var _ := client.CreateVectorStore(conversations, b);
    }

    /** `recall(prompt)`: append the recalled context to `temp_context`. */
    method Recall(prompt: string, b: Backend) returns (outcome: Result<(), Failure>)
      requires Valid()
      modifies this
      ensures Valid()
      ensures convo == old(convo)
      ensures tempContext == old(tempContext) + Turns.Recall(prompt, client.collection, twitch, b).added
      ensures outcome == Turns.Recall(prompt, client.collection, twitch, b).outcome
    {
      var added;
      added, outcome := Gather(prompt, client, twitch, b);
      RecallAddsContext(prompt, client.collection, twitch, b);
      tempContext := tempContext + added;
    }

    /** `generate_response(prompt)`: one engine turn. */
    method GenerateResponse(prompt: string, b: Backend) returns (r: Result<string, Failure>)
      requires Valid()
      modifies this, store
      ensures Valid()
      ensures var t := EngineTurn(old(convo), old(tempContext), prompt, client.collection, twitch, b);
        && convo == t.convo
        && tempContext == t.temp
        && store.State() == Apply(old(store.State()), t.op)
        && r == t.reply
    {
      TurnKeepsWindow(convo, SystemPrompt, tempContext, prompt, client.collection, twitch, b);
      TurnKeepsMirror(convo, tempContext, store.State(), prompt, client.collection, twitch, b);
      if IsForget(prompt) {
        store.RemoveLastConversation();
        if |convo| >= 2 {
          convo := convo[..|convo| - 2];
        }
        return Ok("");
      }
      var outcome := Recall(prompt, b);
      if outcome.Err? {
        return Err(outcome.error);
      }
      var fullContext := convo + tempContext + [Message(User, prompt)];
      var stream := b.stream(fullContext);
      if stream.None? {
        return Err(OllamaUnavailable);
      }
      var response := CollectStream(stream.value);
      tempContext := [];
      store.StoreConversation(prompt, response);
      convo := convo + [Message(User, prompt), Message(Assistant, response)];
      r := Ok(response);
    }
  }
}
