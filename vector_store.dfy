/** vector_store.py: the Chroma collection of serialised conversations, the
    yes/no relevance classifier, and the retrieval loop that keeps the
    accepted search results of every query. */
module VectorStore {
  import opened Wrappers
  import opened Text
  import opened Messages
  import opened Oracles
  import opened Db

  /** The default `results_per_query`. */
  const ResultsPerQuery: nat := 2

  /** One stored record: its id, its document text and its embedding. */
  datatype Entry = Entry(id: string, document: string, embedding: Embedding)

  /** The document stored for a conversation row. */
  function Serialize(c: Conversation): string
  {
    "prompt: " + c.prompt + " response: " + c.response
  }

  predicate HasId(entries: seq<Entry>, id: string)
  {
    exists i :: 0 <= i < |entries| && entries[i].id == id
  }

  predicate DistinctIds(entries: seq<Entry>)
  {
    forall i, j :: 0 <= i < j < |entries| ==> entries[i].id != entries[j].id
  }

  /** `collection.add` of one record: a new id is appended, a record whose id
      is already stored is ignored (Chroma keeps the first one). */
  function Add(entries: seq<Entry>, e: Entry): seq<Entry>
  {
    if HasId(entries, e.id) then entries else entries + [e]
  }

  /** `add` keeps the ids distinct and leaves the id present, keeping the
      first record stored under it. */
  lemma AddKeepsIds(entries: seq<Entry>, e: Entry)
    ensures DistinctIds(entries) ==> DistinctIds(Add(entries, e))
    ensures HasId(Add(entries, e), e.id)
    ensures HasId(entries, e.id) ==> Add(entries, e) == entries
    ensures !HasId(entries, e.id) ==> Add(entries, e)[..|entries|] == entries && Add(entries, e)[|entries|] == e
  {
    if !HasId(entries, e.id) {
      var r := entries + [e];
      assert r[|entries|] == e;
      assert r[..|entries|] == entries;
    }
  }

  /** The collection after the add loop, and whether every embedding call
      succeeded (the loop stops at the first one that raises). */
  datatype Build = Build(entries: seq<Entry>, complete: bool)

  /** The add loop of `create_vector_store` over `convs`, starting from `entries`. */
  function Fill(entries: seq<Entry>, convs: seq<Conversation>, b: Backend): Build
    decreases |convs|
  {
    if convs == [] then Build(entries, true)
    else
      var doc := Serialize(convs[0]);
      match b.embed(doc)
      case None => Build(entries, false)
      case Some(v) => Fill(Add(entries, Entry(IntToString(convs[0].id), doc, v)), convs[1..], b)
  }

  /** With distinct row ids and every embedding available, the collection
      holds exactly one record per row, in order: id `str(id)`, document
      `"prompt: P response: R"`, and that document's embedding. */
  lemma {:induction false} FillExact(acc: seq<Entry>, convs: seq<Conversation>, b: Backend)
    requires forall i, j :: 0 <= i < j < |convs| ==> convs[i].id != convs[j].id
    requires forall i, k :: 0 <= i < |convs| && 0 <= k < |acc| ==> acc[k].id != IntToString(convs[i].id)
    requires Fill(acc, convs, b).complete
    ensures var r := Fill(acc, convs, b).entries;
      && |r| == |acc| + |convs|
      && r[..|acc|] == acc
      && forall i :: 0 <= i < |convs| ==>
           && r[|acc| + i].id == IntToString(convs[i].id)
           && r[|acc| + i].document == "prompt: " + convs[i].prompt + " response: " + convs[i].response
           && b.embed(r[|acc| + i].document) == Some(r[|acc| + i].embedding)
    decreases |convs|
  {
    if convs != [] {
      var doc := Serialize(convs[0]);
      var e := Entry(IntToString(convs[0].id), doc, b.embed(doc).value);
      assert !HasId(acc, e.id);
      var acc' := acc + [e];
      forall i, k | 0 <= i < |convs[1..]| && 0 <= k < |acc'|
        ensures acc'[k].id != IntToString(convs[1..][i].id)
      {
        if k == |acc| {
          if IntToString(convs[0].id) == IntToString(convs[i + 1].id) {
            IntToStringInjective(convs[0].id, convs[i + 1].id);
          }
        }
      }
      FillExact(acc', convs[1..], b);
      var r := Fill(acc, convs, b).entries;
      assert r == Fill(acc', convs[1..], b).entries;
      assert r[..|acc'|] == acc';
      forall i | 0 <= i < |convs|
        ensures r[|acc| + i].id == IntToString(convs[i].id)
        ensures r[|acc| + i].document == Serialize(convs[i])
        ensures b.embed(r[|acc| + i].document) == Some(r[|acc| + i].embedding)
      {
        if i > 0 {
          assert r[|acc'| + (i - 1)] == r[|acc| + i];
          assert convs[1..][i - 1] == convs[i];
        } else {
          assert r[|acc|] == acc'[|acc|] == e;
        }
      }
    }
  }

  /** One embedded row moves from the input to the collection, whatever
      rows follow it. */
  lemma FillHead(acc: seq<Entry>, c: Conversation, b: Backend) returns (acc': seq<Entry>)
    requires b.embed(Serialize(c)).Some?
    ensures forall convs {:trigger Fill(acc, convs, b)} :: convs != [] && convs[0] == c ==> Fill(acc, convs, b) == Fill(acc', convs[1..], b)
  {
    acc' := Add(acc, Entry(IntToString(c.id), Serialize(c), b.embed(Serialize(c)).value));
  }

  lemma PrefixTail<T>(s: seq<T>, n: nat)
    requires 1 <= n <= |s|
    ensures s[..n][1..] == s[1..][..n - 1]
  {
  }

  /** When an embedding call raises, the collection keeps the records of the
      rows before the first failing one: the index is partial, not empty.
      `n` is the position of that row. */
  lemma {:induction false} FillStopsAtFirstFailure(acc: seq<Entry>, convs: seq<Conversation>, b: Backend)
    returns (n: nat)
    requires !Fill(acc, convs, b).complete
    ensures n < |convs| && b.embed(Serialize(convs[n])).None?
    ensures Fill(acc, convs[..n], b) == Build(Fill(acc, convs, b).entries, true)
    decreases |convs|
  {
    if b.embed(Serialize(convs[0])).None? {
      n := 0;
      assert convs[..0] == [];
    } else {
      var rest := convs[1..];
      var acc' := FillHead(acc, convs[0], b);
      assert Fill(acc, convs, b) == Fill(acc', rest, b);
      var m := FillStopsAtFirstFailure(acc', rest, b);
      n := m + 1;
      PrefixTail(convs, n);
      assert Fill(acc, convs[..n], b) == Fill(acc', rest[..m], b);
      assert rest[m] == convs[n];
    }
  }

  /** The stored records never share an id. */
  lemma {:induction false} FillDistinct(acc: seq<Entry>, convs: seq<Conversation>, b: Backend)
    requires DistinctIds(acc)
    ensures DistinctIds(Fill(acc, convs, b).entries)
    decreases |convs|
  {
    if convs != [] {
      var doc := Serialize(convs[0]);
      if b.embed(doc).Some? {
        var e := Entry(IntToString(convs[0].id), doc, b.embed(doc).value);
        AddKeepsIds(acc, e);
        FillDistinct(Add(acc, e), convs[1..], b);
      }
    }
  }

  const ClassifyInstruction :=
      "You are an embedding classification "
      + "AI agent. Your input will be a prompt "
      + "and one embedded chunk of text. You "
      + "will not respond as an AI assistant. "
      + "You only respond \"yes\" or \"no\". "
      + "Determine whether the context contains "
      + "data that directly is related to the "
      + "search query. If the context is seemingly "
      + "exactly what the search query needs, "
      + "respond \"yes\" if it is anything but "
      + "directly related respond \"no\". Do "
      + "not respond \"yes\" unless the context "
      + "is highly relevant to the search query."

  /** The fixed part of `classify_convo`: the instruction and two worked
      examples, one answered "yes" and one "no". */
  const ClassifyFewShot: seq<Message> :=
    [ Message(System, ClassifyInstruction),
      Message(User, "SEARCH QUERY: What is the users "
          + "name?\n\nEMBEDDED CONTEXT: You are Hoang. "
          + "How can I help you today?"),
      Message(Assistant, "yes"),
      Message(User, "SEARCH QUERY: Llama3 Python Voice Assistant "
          + "\n\nEMBEDDED CONTEXT: Siri is a voice "
          + "assistant developed by Apple Inc."),
      Message(Assistant, "no") ]

  /** `classify_convo`: the few-shot messages, then the query and the
      candidate in one user message. */
  function ClassifyConvo(query: string, context: string): seq<Message>
  {
    ClassifyFewShot + [Message(User, "SEARCH QUERY: " + query + " \n\nEMBEDDED CONTEXT: " + context)]
  }

  /** `classify_convo` is six messages, the instruction, then user/assistant
      turns alternating; only the last one depends on the query and the
      candidate. */
  lemma ClassifyConvoShape(query: string, context: string)
    ensures var convo := ClassifyConvo(query, context);
      && |convo| == 6
      && convo[0] == Message(System, ClassifyInstruction)
      && (forall i :: 1 <= i < |convo| ==> convo[i].role == if i % 2 == 1 then User else Assistant)
      && convo[..5] == ClassifyFewShot
      && convo[5] == Message(User, "SEARCH QUERY: " + query + " \n\nEMBEDDED CONTEXT: " + context)
  {
  }

  /** `.strip().lower()` of the classifier's reply. */
  function Normalize(reply: string): string
  {
    Lower(Strip(reply))
  }

  /** The normalised reply has no surrounding whitespace and no upper-case
      ASCII letter, and normalising it again changes nothing. */
  lemma NormalizeIdempotent(reply: string)
    ensures Normalize(Normalize(reply)) == Normalize(reply)
    ensures var r := Normalize(reply);
      && (r == [] || (!IsSpace(r[0]) && !IsSpace(r[|r| - 1])))
      && forall i :: 0 <= i < |r| ==> !('A' <= r[i] <= 'Z')
  {
    var u := Strip(reply);
    StripIsTrim(reply);
    LowerFacts(u);
    var t := Lower(u);
    StripTrimmed(t);
  }

  /** `classify_embedding(query, context)`: the normalised reply of one chat call. */
  function ClassifyEmbedding(query: string, context: string, b: Backend): (r: Result<string, Failure>)
    ensures r.Err? <==> b.chat(ClassifyConvo(query, context)).None?
  {
    match b.chat(ClassifyConvo(query, context))
    case None => Err(OllamaUnavailable)
    case Some(reply) => Ok(Normalize(reply))
  }

  /** What the classifier returns is already normalised: stripping and
      lower-casing it again changes nothing. */
  lemma ClassifierReplyNormalized(query: string, context: string, b: Backend)
    requires ClassifyEmbedding(query, context, b).Ok?
    ensures Normalize(ClassifyEmbedding(query, context, b).value) == ClassifyEmbedding(query, context, b).value
  {
    var reply := b.chat(ClassifyConvo(query, context)).value;
    assert ClassifyEmbedding(query, context, b).value == Normalize(reply);
    NormalizeIdempotent(reply);
  }

  /** What the scan asks of a candidate: the normalised classifier reply for
      a query and a candidate, or the failure the call raised. */
  type Classifier = (string, string) -> Result<string, Failure>

  /** The classifier `retrieve_embedding` uses: `classify_embedding` against
      the backend. */
  function Classify(b: Backend): Classifier
  {
    (query, context) => ClassifyEmbedding(query, context, b)
  }

  /** The candidate is accepted for the query: its classifier reply contains "yes". */
  predicate Accepted(query: string, doc: string, classify: Classifier)
  {
    var r := classify(query, doc);
    r.Ok? && Contains(r.value, "yes")
  }

  predicate Stored(entries: seq<Entry>, doc: string)
  {
    exists j :: 0 <= j < |entries| && entries[j].document == doc
  }

  /** The vectors of the collection, in storage order. */
  function Vectors(entries: seq<Entry>): seq<Embedding>
  {
    seq(|entries|, i requires 0 <= i < |entries| => entries[i].embedding)
  }

  /** `query(..., n_results=k)["documents"][0]`: the documents at the first
      `k` positions of the ranking that exist in the collection. */
  function TopDocuments(entries: seq<Entry>, ranked: seq<nat>, k: nat): (docs: seq<string>)
    ensures |docs| <= k
    ensures forall d :: d in docs ==> Stored(entries, d)
  {
    if k == 0 || ranked == [] then []
    else if ranked[0] < |entries| then [entries[ranked[0]].document] + TopDocuments(entries, ranked[1..], k - 1)
    else TopDocuments(entries, ranked[1..], k)
  }

  /** The documents a query retrieves, given its embedding. */
  function Candidates(entries: seq<Entry>, v: Embedding, k: nat, b: Backend): seq<string>
  {
    TopDocuments(entries, b.nearest(Vectors(entries), v), k)
  }

  /** The inner loop of `retrieve_embedding` for one query: a candidate already
      in the set is skipped, any other is classified and added on "yes". */
  function ScanCandidates(query: string, cands: seq<string>, found: set<string>, classify: Classifier): Result<set<string>, Failure>
    decreases |cands|
  {
    if cands == [] then Ok(found)
    else if cands[0] in found then ScanCandidates(query, cands[1..], found, classify)
    else
      match classify(query, cands[0])
      case Err(e) => Err(e)
      case Ok(reply) =>
        ScanCandidates(query, cands[1..], if Contains(reply, "yes") then found + {cands[0]} else found, classify)
  }

  /** The scan of one query keeps what was found and adds at most one
      document per candidate. */
  lemma {:induction false} ScanGrows(query: string, cands: seq<string>, found: set<string>, classify: Classifier)
    ensures var r := ScanCandidates(query, cands, found, classify);
      r.Ok? ==> found <= r.value && |r.value| <= |found| + |cands|
    decreases |cands|
  {
    if cands != [] {
      var c := cands[0];
      if c in found {
        ScanGrows(query, cands[1..], found, classify);
      } else if classify(query, c).Ok? {
        var found' := if Accepted(query, c, classify) then found + {c} else found;
        ScanGrows(query, cands[1..], found', classify);
      }
    }
  }

  /** The scan of one query adds only candidates the classifier accepts. */
  lemma {:induction false} ScanSound(query: string, cands: seq<string>, found: set<string>, classify: Classifier, d: string)
    requires ScanCandidates(query, cands, found, classify).Ok?
    requires d in ScanCandidates(query, cands, found, classify).value
    ensures d in found || (d in cands && Accepted(query, d, classify))
    decreases |cands|
  {
    if cands != [] {
      var c := cands[0];
      if c in found {
        ScanSound(query, cands[1..], found, classify, d);
      } else {
        var found' := if Accepted(query, c, classify) then found + {c} else found;
        ScanSound(query, cands[1..], found', classify, d);
      }
    }
  }

  /** The scan of one query adds every candidate the classifier accepts. */
  lemma {:induction false} ScanComplete(query: string, cands: seq<string>, found: set<string>, classify: Classifier, d: string)
    requires ScanCandidates(query, cands, found, classify).Ok?
    requires d in cands && Accepted(query, d, classify)
    ensures d in ScanCandidates(query, cands, found, classify).value
    decreases |cands|
  {
    var c := cands[0];
    var rest := cands[1..];
    var found': set<string>;
    if c in found {
      found' := found;
      assert ScanCandidates(query, cands, found, classify) == ScanCandidates(query, rest, found', classify);
    } else {
      var reply := classify(query, c);
      assert reply.Ok?;
      found' := if Contains(reply.value, "yes") then found + {c} else found;
      assert ScanCandidates(query, cands, found, classify) == ScanCandidates(query, rest, found', classify);
    }
    ScanGrows(query, rest, found', classify);
    if d == c {
      assert d in found';
    } else {
      assert d in rest;
      ScanComplete(query, rest, found', classify, d);
    }
  }

  /** A document is retrievable for a query: the query embeds, the document is
      among its search results, and the classifier accepts it. */
  predicate Retrievable(query: string, doc: string, entries: seq<Entry>, k: nat, b: Backend, classify: Classifier)
  {
    b.embed(query).Some? && doc in Candidates(entries, b.embed(query).value, k, b) && Accepted(query, doc, classify)
  }

  /** The outer loop of `retrieve_embedding` over the remaining `queries`,
      with `found` accepted so far. Per query it embeds the query, fetches the
      collection (which raises when absent) and scans the search results. */
  function Retrieval(queries: seq<string>, collection: Option<seq<Entry>>, k: nat, b: Backend, classify: Classifier, found: set<string>): (r: Result<set<string>, Failure>)
    ensures queries == [] ==> r == Ok(found)
    ensures queries != [] && collection.None? ==> r.Err?
    decreases |queries|
  {
    if queries == [] then Ok(found)
    else
      match b.embed(queries[0])
      case None => Err(OllamaUnavailable)
      case Some(v) =>
        if collection.None? then Err(CollectionNotFound)
        else
          var cands := Candidates(collection.value, v, k, b);
          match ScanCandidates(queries[0], cands, found, classify)
          case Err(e) => Err(e)
          case Ok(found') =>
            Retrieval(queries[1..], collection, k, b, classify, found')
  }

  /** `n * k` spelled out as `n` additions of `k`, which keeps the induction
      below in linear arithmetic. */
  function Budget(n: nat, k: nat): nat
  {
    if n == 0 then 0 else Budget(n - 1, k) + k
  }

  lemma {:induction false} BudgetIsProduct(n: nat, k: nat)
    ensures Budget(n, k) == n * k
  {
    if n > 0 {
      BudgetIsProduct(n - 1, k);
      assert (n - 1) * k + k == n * k;
    }
  }

  /** One query of a successful retrieval: its scan succeeds, keeps what was
      found, adds at most `k` documents, and the remaining queries continue
      from what it returns. */
  lemma RetrievalStep(queries: seq<string>, entries: seq<Entry>, k: nat, b: Backend, classify: Classifier, found: set<string>) returns (next: set<string>)
    requires queries != [] && Retrieval(queries, Some(entries), k, b, classify, found).Ok?
    ensures found <= next && |next| <= |found| + k
    ensures Retrieval(queries, Some(entries), k, b, classify, found) == Retrieval(queries[1..], Some(entries), k, b, classify, next)
  {
    var v := b.embed(queries[0]);
    assert v.Some?;
    var scan := ScanCandidates(queries[0], Candidates(entries, v.value, k, b), found, classify);
    assert Retrieval(queries, Some(entries), k, b, classify, found) == Retrieval(queries[1..], Some(entries), k, b, classify, scan.value);
    ScanBound(queries[0], entries, v.value, k, b, classify, found);
    next := scan.value;
  }

  /** The scans of the remaining queries keep what was found. */
  lemma {:induction false} RetrievalKeeps(queries: seq<string>, entries: seq<Entry>, k: nat, b: Backend, classify: Classifier, found: set<string>)
    requires Retrieval(queries, Some(entries), k, b, classify, found).Ok?
    ensures found <= Retrieval(queries, Some(entries), k, b, classify, found).value
    decreases |queries|
  {
    if queries != [] {
      var next := RetrievalStep(queries, entries, k, b, classify, found);
      RetrievalKeeps(queries[1..], entries, k, b, classify, next);
    }
  }

  /** The scans of the remaining queries add at most `k` documents each. */
  lemma {:induction false} RetrievalGrows(queries: seq<string>, entries: seq<Entry>, k: nat, b: Backend, classify: Classifier, found: set<string>, r: set<string>)
    requires Retrieval(queries, Some(entries), k, b, classify, found) == Ok(r)
    ensures |r| <= |found| + Budget(|queries|, k)
    decreases |queries|
  {
    if queries != [] {
      var next := RetrievalStep(queries, entries, k, b, classify, found);
      RetrievalGrows(queries[1..], entries, k, b, classify, next, r);
      BudgetStep(|r|, |next|, |found|, |queries[1..]|, k);
    }
  }

  lemma BudgetStep(r: nat, next: nat, found: nat, n: nat, k: nat)
    requires r <= next + Budget(n, k) && next <= found + k
    ensures r <= found + Budget(n + 1, k)
  {
  }

  /** The scan of one query adds at most `k` documents. */
  lemma ScanBound(query: string, entries: seq<Entry>, v: Embedding, k: nat, b: Backend, classify: Classifier, found: set<string>)
    requires ScanCandidates(query, Candidates(entries, v, k, b), found, classify).Ok?
    ensures var r := ScanCandidates(query, Candidates(entries, v, k, b), found, classify).value;
      found <= r && |r| <= |found| + k
  {
    ScanGrows(query, Candidates(entries, v, k, b), found, classify);
  }

  /** `retrieve_embedding` keeps what was found and returns at most
      `results_per_query` new documents per query. */
  lemma RetrievalBound(queries: seq<string>, entries: seq<Entry>, k: nat, b: Backend, classify: Classifier, found: set<string>)
    requires Retrieval(queries, Some(entries), k, b, classify, found).Ok?
    ensures found <= Retrieval(queries, Some(entries), k, b, classify, found).value
    ensures |Retrieval(queries, Some(entries), k, b, classify, found).value| <= |found| + |queries| * k
  {
    RetrievalKeeps(queries, entries, k, b, classify, found);
    RetrievalGrows(queries, entries, k, b, classify, found, Retrieval(queries, Some(entries), k, b, classify, found).value);
    BudgetIsProduct(|queries|, k);
  }

  /** Every document `retrieve_embedding` returns was found by some query's
      search and accepted by the classifier for that query. */
  lemma {:induction false} RetrievalSound(queries: seq<string>, entries: seq<Entry>, k: nat, b: Backend, classify: Classifier, found: set<string>, d: string)
    requires Retrieval(queries, Some(entries), k, b, classify, found).Ok?
    requires d in Retrieval(queries, Some(entries), k, b, classify, found).value
    ensures d in found || exists q :: q in queries && Retrievable(q, d, entries, k, b, classify)
    decreases |queries|
  {
    if queries != [] {
      var q0 := queries[0];
      var cands := Candidates(entries, b.embed(q0).value, k, b);
      var found' := ScanCandidates(q0, cands, found, classify).value;
      RetrievalSound(queries[1..], entries, k, b, classify, found', d);
      if d in found' {
        ScanSound(q0, cands, found, classify, d);
        if d !in found {
          assert Retrievable(q0, d, entries, k, b, classify);
        }
      } else {
        var q :| q in queries[1..] && Retrievable(q, d, entries, k, b, classify);
        assert q in queries;
      }
    }
  }

  /** Every document some query's search finds and the classifier accepts
      for that query is in the set `retrieve_embedding` returns. */
  lemma {:induction false} RetrievalComplete(queries: seq<string>, entries: seq<Entry>, k: nat, b: Backend, classify: Classifier, found: set<string>, q: string, d: string)
    requires Retrieval(queries, Some(entries), k, b, classify, found).Ok?
    requires q in queries && Retrievable(q, d, entries, k, b, classify)
    ensures d in Retrieval(queries, Some(entries), k, b, classify, found).value
    decreases |queries|
  {
    var q0 := queries[0];
    var cands := Candidates(entries, b.embed(q0).value, k, b);
    var found' := ScanCandidates(q0, cands, found, classify).value;
    assert Retrieval(queries, Some(entries), k, b, classify, found) == Retrieval(queries[1..], Some(entries), k, b, classify, found');
    RetrievalBound(queries[1..], entries, k, b, classify, found');
    if q == q0 {
      ScanComplete(q0, cands, found, classify, d);
    } else {
      assert q in queries[1..];
      RetrievalComplete(queries[1..], entries, k, b, classify, found', q, d);
    }
  }

  /** An already accepted document is never classified again: for one query
      the scan gives the same set under any classifier that answers the same
      for the documents not yet found, however it answers (or fails) for
      those already found. */
  lemma {:induction false} FoundNeverReclassified(query: string, cands: seq<string>, found: set<string>, c1: Classifier, c2: Classifier)
    requires forall d :: d !in found ==> c1(query, d) == c2(query, d)
    ensures ScanCandidates(query, cands, found, c1) == ScanCandidates(query, cands, found, c2)
    decreases |cands|
  {
    if cands != [] {
      if cands[0] in found {
        FoundNeverReclassified(query, cands[1..], found, c1, c2);
      } else if c1(query, cands[0]).Ok? {
        var reply := c1(query, cands[0]).value;
        var found' := if Contains(reply, "yes") then found + {cands[0]} else found;
        FoundNeverReclassified(query, cands[1..], found', c1, c2);
      }
    }
  }

  /** The process-wide `chromadb.Client()`, holding at most the
      "vera_conversations" collection. */
  class ChromaClient {
    var collection: Option<seq<Entry>>

    /** A new in-memory client has no collection. */
    constructor ()
      ensures collection == None
    {
      collection := None;
    }

    /** `create_vector_store(conversations)`: drop the collection, create it
        empty, then embed and add one serialised row at a time. The previous
        contents never survive; an embedding call that raises leaves the
        records added so far. */
    method CreateVectorStore(conversations: seq<Conversation>, b: Backend) returns (r: Result<(), Failure>)
      modifies this
      ensures collection == Some(Fill([], conversations, b).entries)
      ensures r.Ok? <==> Fill([], conversations, b).complete
      ensures r.Err? ==> r.error == OllamaUnavailable
    {
      collection := None;
      collection := Some([]);
      var i := 0;
      while i < |conversations|
        invariant 0 <= i <= |conversations|
        invariant collection.Some?
        invariant Fill([], conversations, b) == Fill(collection.value, conversations[i..], b)
      {
        var c := conversations[i];
        var doc := "prompt: " + c.prompt + " response: " + c.response;
        var v := b.embed(doc);
        if v.None? {
          return Err(OllamaUnavailable);
        }
        collection := Some(Add(collection.value, Entry(IntToString(c.id), doc, v.value)));
        assert conversations[i..][1..] == conversations[i + 1..];
        i := i + 1;
      }
      r := Ok(());
    }

    /** `retrieve_embedding(queries, results_per_query)`. */
    method RetrieveEmbedding(queries: seq<string>, resultsPerQuery: nat, b: Backend) returns (r: Result<set<string>, Failure>)
      ensures r == Retrieval(queries, collection, resultsPerQuery, b, Classify(b), {})
    {
      var embeddings: set<string> := {};
      var i := 0;
      while i < |queries|
        invariant 0 <= i <= |queries|
        invariant Retrieval(queries, collection, resultsPerQuery, b, Classify(b), {}) == Retrieval(queries[i..], collection, resultsPerQuery, b, Classify(b), embeddings)
      {
        var query := queries[i];
        var v := b.embed(query);
        if v.None? {
          return Err(OllamaUnavailable);
        }
        if collection.None? {
          return Err(CollectionNotFound);
        }
        var best := Candidates(collection.value, v.value, resultsPerQuery, b);
        ghost var before := embeddings;
        var j := 0;
        while j < |best|
          invariant 0 <= j <= |best|
          invariant ScanCandidates(query, best, before, Classify(b)) == ScanCandidates(query, best[j..], embeddings, Classify(b))
        {
          if best[j] !in embeddings {
            var reply := ClassifyEmbedding(query, best[j], b);
            if reply.Err? {
              return Err(reply.error);
            }
            if Contains(reply.value, "yes") {
              embeddings := embeddings + {best[j]};
            }
          }
          assert best[j..][1..] == best[j + 1..];
          j := j + 1;
        }
        assert queries[i..][1..] == queries[i + 1..];
        i := i + 1;
      }
      r := Ok(embeddings);
    }
  }
}
