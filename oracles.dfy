/** The collaborators the core calls but does not contain, as functions: the
    Ollama chat, streaming chat and embedding endpoints, Python's
    `ast.literal_eval`, Chroma's and FAISS's nearest-neighbour search, and
    Python's `str()` of a set. A call that raises is a `None` result. */
module Oracles {
  import opened Wrappers
  import opened Messages

  /** An embedding vector; only the search oracles look inside it. */
  type Embedding = seq<real>

  /** The exceptions the core lets escape. */
  datatype Failure =
    | OllamaUnavailable        // an Ollama call raised
    | CollectionNotFound       // chromadb `get_collection` found no "vera_conversations"
    | NoMessagesAfterCleaning  // the ValueError of TwitchChatRAG.__init__
    | IndexOutOfRange          // a Python IndexError

  datatype Backend = Backend(
    /** `ollama.chat(model="llama3", messages)`: the reply's content. */
    chat: seq<Message> -> Option<string>,
    /** `ollama.chat("llama3", messages, stream=True)`: the chunk contents. */
    stream: seq<Message> -> Option<seq<string>>,
    /** `ollama.embeddings(model="nomic-embed-text", prompt)`. */
    embed: string -> Option<Embedding>,
    /** `ast.literal_eval(text)` on a list of strings; `None` when it raises. */
    literal: string -> Option<seq<string>>,
    /** Chroma `query`: positions of the stored vectors, nearest first. */
    nearest: (seq<Embedding>, Embedding) -> seq<nat>,
    /** FAISS `IndexFlatL2.search(q, k)`: the row `I[0]` of indices (-1 pads a short result). */
    search: (seq<Embedding>, Embedding, int) -> seq<int>,
    /** Python's `str()` of a non-empty set of strings (its order is the hash order). */
    showSet: set<string> -> string
  )

  /** `str(s)` for a set of strings; the empty set prints as `set()`. */
  function SetRepr(s: set<string>, b: Backend): string
  {
    if s == {} then "set()" else b.showSet(s)
  }
}
