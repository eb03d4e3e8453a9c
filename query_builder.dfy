/** query_builder.py: one few-shot chat call that turns a prompt into a list
    of retrieval queries, with the prompt itself as the fallback. */
module QueryBuilder {
  import opened Wrappers
  import opened Messages
  import opened Oracles

  const QueryInstruction :=
      "You are a first principle reasoning "
      + "search query AI agent. Your list of "
      + "search queries will be ran on an embedding "
      + "database of all your conversations you "
      + "have ever had with the user. With first "
      + "principles create a Python list of queries "
      + "to search the embeddings database for "
      + "any data that would be necessary to "
      + "have access to in order to correctly "
      + "respond to the prompt. Your response "
      + "must be a Python list with no syntax "
      + "errors. Do not explain anything and "
      + "do not ever generate anything but a "
      + "perfect syntax Python list"
  const FirstExamplePrompt :=
      "Write an email to my car insurance company "
      + "and create a pursuasive request for "
      + "them to lower prices based on my good "
      + "driving record"
  const FirstExampleQueries :=
      "[\"What is the users name?\", \"What "
      + "is the users current auto insurance "
      + "provider?\", \"What is the users driving "
      + "record?\"]"
  const SecondExamplePrompt :=
      "how can i convert the speak function "
      + "in my llama3 python voice assistant "
      + "to use pyttsx3 instead"
  const SecondExampleQueries :=
      "[\"Llama3 voice assistant\", \"Python "
      + "voice assistant\", \"openAI TTS\", \"openai "
      + "speak\", \"text to speech python\", "
      + "\"convert TTS to pyttsx3\"]"

  /** The fixed part of `query_convo`: the instruction and two worked examples. */
  const FewShot: seq<Message> :=
    [ Message(System, QueryInstruction),
      Message(User, FirstExamplePrompt),
      Message(Assistant, FirstExampleQueries),
      Message(User, SecondExamplePrompt),
      Message(Assistant, SecondExampleQueries) ]

  /** `query_convo`: the few-shot messages, then the prompt. */
  function QueryConvo(prompt: string): seq<Message>
  {
    FewShot + [Message(User, prompt)]
  }

  /** `query_convo` is six messages, the instruction, then user/assistant
      turns alternating, the last one the prompt verbatim; only that last
      message depends on the prompt. */
  lemma QueryConvoShape(prompt: string)
    ensures var convo := QueryConvo(prompt);
      && |convo| == 6
      && convo[0] == Message(System, QueryInstruction)
      && (forall i :: 1 <= i < |convo| ==> convo[i].role == if i % 2 == 1 then User else Assistant)
      && convo[5] == Message(User, prompt)
      && convo[..5] == FewShot
  {
  }

  /** `create_queries(prompt)`: the reply parsed as a literal, or `[prompt]`
      when parsing raises. A failing chat call is not caught. */
  function CreateQueries(prompt: string, b: Backend): (r: Result<seq<string>, Failure>)
    ensures r.Err? <==> b.chat(QueryConvo(prompt)).None?
    ensures r.Ok? ==>
              var parsed := b.literal(b.chat(QueryConvo(prompt)).value);
              (parsed.None? && r.value == [prompt]) || parsed == Some(r.value)
  {
    match b.chat(QueryConvo(prompt))
    case None => Err(OllamaUnavailable)
    case Some(reply) =>
      match b.literal(reply)
      case None => Ok([prompt])
      case Some(queries) => Ok(queries)
  }

  /** One chat call and no retry: the queries depend only on the model's
      single reply to `QueryConvo(prompt)` and on how that reply parses. */
  lemma QueriesFromOneReply(prompt: string, b1: Backend, b2: Backend)
    requires b1.chat(QueryConvo(prompt)) == b2.chat(QueryConvo(prompt))
    requires b1.chat(QueryConvo(prompt)).Some? ==>
               b1.literal(b1.chat(QueryConvo(prompt)).value) == b2.literal(b1.chat(QueryConvo(prompt)).value)
    ensures CreateQueries(prompt, b1) == CreateQueries(prompt, b2)
  {
  }

  /** The fallback yields a non-empty list; an empty query list comes only
      from a reply that parses as the empty list, which is returned unchecked. */
  lemma EmptyQueriesOnlyFromEmptyLiteral(prompt: string, b: Backend)
    requires CreateQueries(prompt, b) == Ok([])
    ensures b.literal(b.chat(QueryConvo(prompt)).value) == Some([])
  {
  }
}
