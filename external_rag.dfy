/** external_rag_module.py: the Twitch chat reference corpus. Its messages are
    cleaned and truncated once, each is embedded into a FAISS flat index, and
    `retrieve` maps the index's nearest positions back to messages. */
module ExternalRag {
  import opened Wrappers
  import opened Text
  import opened Oracles

  /** The arguments vera_core.py and vera_cli.py construct the corpus with. */
  const DefaultMaxMessages := 10000

  /** The comprehension's filter `m and not m.startswith(("!", "%", "["))`,
      applied to the raw message before any normalisation. */
  predicate Keep(m: Option<string>)
  {
    && m.Some?
    && m.value != ""
    && !StartsWith(m.value, "!") && !StartsWith(m.value, "%") && !StartsWith(m.value, "[")
  }

  /** `m.lower().strip()`. */
  function Clean(m: string): string
  {
    Strip(Lower(m))
  }

  /** The comprehension before the slice, in source order. */
  function Filtered(raw: seq<Option<string>>): seq<string>
  {
    if raw == [] then []
    else
      var last := raw[|raw| - 1];
      Filtered(raw[..|raw| - 1]) + (if Keep(last) then [Clean(last.value)] else [])
  }

  /** Positions of the kept raw messages, in increasing order. */
  function KeptPositions(raw: seq<Option<string>>): (idx: seq<nat>)
    ensures forall i :: 0 <= i < |idx| ==> idx[i] < |raw|
  {
    if raw == [] then []
    else
      var n := |raw| - 1;
      KeptPositions(raw[..n]) + (if Keep(raw[n]) then [n] else [])
  }

  predicate Increasing(xs: seq<nat>)
  {
    forall i, j :: 0 <= i < j < |xs| ==> xs[i] < xs[j]
  }

  lemma {:induction false} KeptPositionsIncrease(raw: seq<Option<string>>)
    ensures Increasing(KeptPositions(raw))
  {
    if raw != [] {
      var n := |raw| - 1;
      KeptPositionsIncrease(raw[..n]);
      var before := KeptPositions(raw[..n]);
      var idx := KeptPositions(raw);
      forall i, j | 0 <= i < j < |idx|
        ensures idx[i] < idx[j]
      {
        assert idx[i] == before[i] && before[i] < |raw[..n]|;
        if j == |before| {
          assert idx[j] == n;
        } else {
          assert idx[j] == before[j];
          assert before[i] < before[j];
        }
      }
    }
  }

  lemma {:induction false} KeptPositionsMembership(raw: seq<Option<string>>)
    ensures forall p :: 0 <= p < |raw| ==> (Keep(raw[p]) <==> p in KeptPositions(raw))
  {
    if raw != [] {
      var n := |raw| - 1;
      KeptPositionsMembership(raw[..n]);
      forall p | 0 <= p < n
        ensures Keep(raw[p]) <==> p in KeptPositions(raw)
      {
        assert raw[..n][p] == raw[p];
      }
    }
  }

  lemma {:induction false} KeptPositionsPointwise(raw: seq<Option<string>>)
    ensures |KeptPositions(raw)| == |Filtered(raw)|
    ensures var idx := KeptPositions(raw);
      forall i :: 0 <= i < |idx| ==> Keep(raw[idx[i]]) && Filtered(raw)[i] == Clean(raw[idx[i]].value)
  {
    if raw != [] {
      var n := |raw| - 1;
      KeptPositionsPointwise(raw[..n]);
      var before := KeptPositions(raw[..n]);
      var idx := KeptPositions(raw);
      forall i | 0 <= i < |before|
        ensures Keep(raw[idx[i]]) && Filtered(raw)[i] == Clean(raw[idx[i]].value)
      {
        assert idx[i] == before[i];
        assert raw[..n][before[i]] == raw[idx[i]];
        assert Filtered(raw)[i] == Filtered(raw[..n])[i];
      }
    }
  }

  /** The filtered list is exactly the kept raw messages, cleaned, in source
      order: the kept positions increase, cover every kept message and
      nothing else, and the i-th cleaned message comes from the i-th of them. */
  lemma FilteredIsKeptSubsequence(raw: seq<Option<string>>)
    ensures var idx := KeptPositions(raw);
      && |Filtered(raw)| == |idx|
      && Increasing(idx)
      && (forall p :: 0 <= p < |raw| ==> (Keep(raw[p]) <==> p in idx))
      && (forall i :: 0 <= i < |idx| ==> Keep(raw[idx[i]]) && Filtered(raw)[i] == Clean(raw[idx[i]].value))
  {
    KeptPositionsIncrease(raw);
    KeptPositionsMembership(raw);
    KeptPositionsPointwise(raw);
  }

  /** Python's `xs[:n]`, including a negative `n` counted from the end. */
  function SliceTo<T>(xs: seq<T>, n: int): (r: seq<T>)
    ensures |r| <= |xs| && r == xs[..|r|]
    ensures |r| == if n >= 0 then (if n < |xs| then n else |xs|) else (if |xs| + n > 0 then |xs| + n else 0)
  {
    if n >= 0 then (if n < |xs| then xs[..n] else xs)
    else (if |xs| + n > 0 then xs[..|xs| + n] else [])
  }

  /** The cleaned corpus of `TwitchChatRAG.__init__`: the first `max_messages`
      of the filtered list. */
  function CleanMessages(raw: seq<Option<string>>, maxMessages: int): seq<string>
  {
    SliceTo(Filtered(raw), maxMessages)
  }

  /** `m` is the cleaned form of a kept raw message. */
  ghost predicate CleanedFromKept(raw: seq<Option<string>>, m: string)
  {
    exists p :: 0 <= p < |raw| && Keep(raw[p]) && m == Clean(raw[p].value)
  }

  /** Every cleaned message is `m.lower().strip()` of a raw message that is
      present, non-empty and does not start with `!`, `%` or `[`; the cleaned
      list keeps source order and is a prefix of the whole filtered list, of
      at most `max_messages` messages. */
  lemma CleanMessagesFromSource(raw: seq<Option<string>>, maxMessages: int)
    requires maxMessages >= 0
    ensures var r := CleanMessages(raw, maxMessages);
      && |r| <= maxMessages
      && r == Filtered(raw)[..|r|]
      && (|Filtered(raw)| <= maxMessages ==> r == Filtered(raw))
      && forall i :: 0 <= i < |r| ==> CleanedFromKept(raw, r[i])
  {
    FilteredIsKeptSubsequence(raw);
    var idx := KeptPositions(raw);
    var r := CleanMessages(raw, maxMessages);
    forall i | 0 <= i < |r|
      ensures CleanedFromKept(raw, r[i])
    {
      assert r[i] == Filtered(raw)[i];
      assert i < |idx|;
      var p := idx[i];
      assert 0 <= p < |raw| && Keep(raw[p]) && r[i] == Clean(raw[p].value);
    }
  }

  /** `"  !x".lower().strip()` is `"!x"`. */
  lemma CleanSample()
    ensures Clean("  !x") == "!x"
  {
    var m := "  !x";
    assert Lower(m) == m by {
      assert forall k :: 0 <= k < |m| ==> LowerChar(m[k]) == m[k];
    }
    assert IsSpace(' ') && !IsSpace('!') && !IsSpace('x');
    assert LeadingSpace(m) == 2 by {
      assert m[1..] == " !x" && m[1..][1..] == "!x";
    }
    var t := StripStart(m);
    assert t == "!x";
    assert TrailingSpace(t) == 0;
  }

  /** The prefix test looks at the raw message: leading blanks hide a `!`
      from it, so `"  !x"` is kept and cleaned to `"!x"`. */
  lemma PrefixCheckedBeforeStrip()
    ensures CleanMessages([Some("  !x")], DefaultMaxMessages) == ["!x"]
  {
    var m := "  !x";
    assert m[..1] == " ";
    assert Keep(Some(m));
    CleanSample();
    assert [Some(m)][..0] == [];
    assert Filtered([Some(m)]) == ["!x"];
  }

  /** Whether Python's `xs[i]` is defined for a list of length `n`. */
  predicate InPyRange(i: int, n: nat)
  {
    -(n as int) <= i < n
  }

  /** The position Python's `xs[i]` reads: negative indices count from the end. */
  function PyPos(i: int, n: nat): (p: nat)
    requires InPyRange(i, n)
    ensures p < n
  {
    if i < 0 then n + i else i
  }

  /** `[messages[i] for i in ids]`; an out-of-range index raises IndexError. */
  function Lookup(messages: seq<string>, ids: seq<int>): (r: Result<seq<string>, Failure>)
    ensures r.Ok? <==> forall j :: 0 <= j < |ids| ==> InPyRange(ids[j], |messages|)
    ensures r.Ok? ==>
              && |r.value| == |ids|
              && forall j :: 0 <= j < |ids| ==> r.value[j] == messages[PyPos(ids[j], |messages|)]
    ensures r.Err? ==> r.error == IndexOutOfRange
  {
    if ids == [] then Ok([])
    else if !InPyRange(ids[0], |messages|) then Err(IndexOutOfRange)
    else
      match Lookup(messages, ids[1..])
      case Err(e) => Err(e)
      case Ok(rest) => Ok([messages[PyPos(ids[0], |messages|)]] + rest)
  }

  /** FAISS pads a short result with -1; Python reads `messages[-1]`, the
      last message, instead of failing. */
  lemma PaddingReadsLastMessage(messages: seq<string>)
    requires messages != []
    ensures Lookup(messages, [-1]) == Ok([messages[|messages| - 1]])
  {
    assert [-1][1..] == [];
    var ids: seq<int> := [-1];
    assert InPyRange(ids[0], |messages|);
    assert Lookup(messages, ids[1..]) == Ok([]);
    assert PyPos(ids[0], |messages|) == |messages| - 1;
    assert Lookup(messages, ids) == Ok([messages[|messages| - 1]] + []);
    assert [messages[|messages| - 1]] + [] == [messages[|messages| - 1]];
    assert ids == [-1];
  }

  /** The corpus and its FAISS index, built once. */
  class TwitchChatRAG {
    const k: int
    const messages: seq<string>
    /** The vectors of the `IndexFlatL2`, one per message, in message order. */
    const index: seq<Embedding>

    constructor (k: int, messages: seq<string>, index: seq<Embedding>)
      ensures this.k == k && this.messages == messages && this.index == index
    {
      this.k := k;
      this.messages := messages;
      this.index := index;
    }

    /** The build path of `TwitchChatRAG.__init__` from the dataset's
        "Message" column: clean and truncate, raise ValueError on an empty
        result before embedding anything, then embed every message in order
        (an embedding call that raises ends the construction). */
    static method Create(raw: seq<Option<string>>, k: int, maxMessages: int, b: Backend) returns (r: Result<TwitchChatRAG, Failure>)
      ensures CleanMessages(raw, maxMessages) == [] ==> r.Err? && r.error == NoMessagesAfterCleaning
      ensures r.Ok? <==> CleanMessages(raw, maxMessages) != [] && forall i :: 0 <= i < |CleanMessages(raw, maxMessages)| ==> b.embed(CleanMessages(raw, maxMessages)[i]).Some?
      ensures r.Ok? ==>
                && fresh(r.value)
                && r.value.k == k
                && r.value.messages == CleanMessages(raw, maxMessages)
                && |r.value.index| == |r.value.messages|
                && forall i :: 0 <= i < |r.value.index| ==> b.embed(r.value.messages[i]) == Some(r.value.index[i])
    {
      var messages := CleanMessages(raw, maxMessages);
      if |messages| == 0 {
        return Err(NoMessagesAfterCleaning);
      }
      var embeddings: seq<Embedding> := [];
      var i := 0;
      while i < |messages|
        invariant 0 <= i <= |messages|
        invariant |embeddings| == i
        invariant forall j :: 0 <= j < i ==> b.embed(messages[j]) == Some(embeddings[j])
      {
        var v := b.embed(messages[i]);
        if v.None? {
          return Err(OllamaUnavailable);
        }
        embeddings := embeddings + [v.value];
        i := i + 1;
      }
      var rag := new TwitchChatRAG(k, messages, embeddings);
      r := Ok(rag);
    }

    /** `retrieve(prompt)`: embed the prompt, search the `k` nearest vectors,
        and return the message at each returned index, in index order. */
    function Retrieve(prompt: string, b: Backend): (r: Result<seq<string>, Failure>)
      ensures b.embed(prompt).None? ==> r == Err(OllamaUnavailable)
      ensures b.embed(prompt).Some? ==>
                var ids := b.search(index, b.embed(prompt).value, k);
                && (r.Ok? <==> forall j :: 0 <= j < |ids| ==> InPyRange(ids[j], |messages|))
                && (r.Ok? ==> |r.value| == |ids|)
                && (r.Ok? ==> forall j :: 0 <= j < |ids| ==> r.value[j] == messages[PyPos(ids[j], |messages|)])
    {
      match b.embed(prompt)
      case None => Err(OllamaUnavailable)
      case Some(v) => Lookup(messages, b.search(index, v, k))
    }
  }
}
