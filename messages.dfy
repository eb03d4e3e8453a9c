/** Chat messages and the permanent conversation window shared by the three
    conversation front ends (vera_core.py, vera_cli.py, assistant.py). */
module Messages {

  datatype Role = System | User | Assistant

  /** One `{"role": ..., "content": ...}` dictionary. */
  datatype Message = Message(role: Role, content: string)

  /** The window invariant: the seeding system message first, then whole
      user/assistant exchanges in order, so the length is odd. */
  ghost predicate Window(convo: seq<Message>, systemPrompt: string)
  {
    && |convo| % 2 == 1
    && convo[0] == Message(System, systemPrompt)
    && forall i :: 1 <= i < |convo| ==> convo[i].role == if i % 2 == 1 then User else Assistant
  }

  /** The window of a fresh engine, `[{"role": "system", "content": system_prompt}]`. */
  function Seed(systemPrompt: string): (convo: seq<Message>)
    ensures Window(convo, systemPrompt) && |convo| == 1
  {
    [Message(System, systemPrompt)]
  }

  /** The `/forget` edit of the window: two `pop()`s guarded by `len(convo) >= 2`. */
  function Forget(convo: seq<Message>): seq<Message>
  {
    if |convo| >= 2 then convo[..|convo| - 2] else convo
  }

  /** On a window the guard is safe: `/forget` removes exactly the latest
      user/assistant exchange, never the system message, and does nothing
      when only the system message is left. */
  lemma ForgetKeepsWindow(convo: seq<Message>, systemPrompt: string)
    requires Window(convo, systemPrompt)
    ensures Window(Forget(convo), systemPrompt)
    ensures |convo| == 1 ==> Forget(convo) == convo
    ensures |convo| >= 3 ==>
              && convo == Forget(convo) + convo[|convo| - 2..]
              && convo[|convo| - 2].role == User
              && convo[|convo| - 1].role == Assistant
  {
    if |convo| >= 2 {
      assert |convo| >= 3;
      assert (|convo| - 2) % 2 == 1;
    }
  }

  /** Appending one exchange (a user message, then an assistant message)
      keeps the window invariant. */
  lemma ExchangeKeepsWindow(convo: seq<Message>, systemPrompt: string, prompt: string, response: string)
    requires Window(convo, systemPrompt)
    ensures Window(convo + [Message(User, prompt), Message(Assistant, response)], systemPrompt)
  {
  }

  /** The generation input of a turn: `convo + temp_context + [user prompt]`. */
  function Compose(convo: seq<Message>, temp: seq<Message>, prompt: string): seq<Message>
  {
    convo + temp + [Message(User, prompt)]
  }

  /** The response text of a stream: its chunks concatenated in order. */
  function Concat(chunks: seq<string>): string
  {
    if chunks == [] then "" else Concat(chunks[..|chunks| - 1]) + chunks[|chunks| - 1]
  }

  /** Concatenation distributes over splitting the stream. */
  lemma {:induction false} ConcatAppend(a: seq<string>, b: seq<string>)
    ensures Concat(a + b) == Concat(a) + Concat(b)
    decreases |b|
  {
    if b == [] {
      assert a + b == a;
    } else {
      var b' := b[..|b| - 1];
      var last := b[|b| - 1];
      assert (a + b)[..|a + b| - 1] == a + b' && (a + b)[|a + b| - 1] == last;
      ConcatAppend(a, b');
      assert (Concat(a) + Concat(b')) + last == Concat(a) + (Concat(b') + last);
    }
  }

  /** Every chunk lands in the response in stream order: the response is the
      text of the chunks before it, the chunk itself, then the text of the
      chunks after it. */
  lemma ConcatInOrder(chunks: seq<string>, i: nat)
    requires i < |chunks|
    ensures Concat(chunks) == Concat(chunks[..i]) + chunks[i] + Concat(chunks[i + 1..])
  {
    var front := chunks[..i + 1];
    assert chunks == front + chunks[i + 1..];
    ConcatAppend(front, chunks[i + 1..]);
    assert front[..|front| - 1] == chunks[..i];
    assert Concat(front) == Concat(chunks[..i]) + chunks[i];
  }

  /** The length of the response is the total length of the chunks. */
  function TotalLength(chunks: seq<string>): nat
  {
    if chunks == [] then 0 else TotalLength(chunks[..|chunks| - 1]) + |chunks[|chunks| - 1]|
  }

  /** The stream loop `for chunk in stream: response += chunk["message"]["content"]`. */
  method CollectStream(chunks: seq<string>) returns (response: string)
    ensures response == Concat(chunks)
    ensures |response| == TotalLength(chunks)
  {
    response := "";
    var i := 0;
    while i < |chunks|
      invariant 0 <= i <= |chunks|
      invariant response == Concat(chunks[..i])
      invariant |response| == TotalLength(chunks[..i])
    {
      assert chunks[..i + 1][..i] == chunks[..i];
      response := response + chunks[i];
      i := i + 1;
    }
    assert chunks[..i] == chunks;
  }
}
