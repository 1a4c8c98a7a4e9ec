/** The collaborators the answering pipeline and the comparison tooling talk to, as scripted
    oracles: the text-generation service (OpenAI behind `generate_text`), the passage retriever
    (FAISS behind `retrieve`), the HTTP client of the comparison tooling (`RAGClient.query` and
    `RAGClient.get_openai_completion`) and the set of answering variants.

    An oracle holds the queue of replies it will give, each either a value or the message of
    the exception the call raises, and it records every call it receives. A call past the end of
    the queue raises. With the queue fixed in advance, a contract can say exactly which calls a
    pipeline makes, with which arguments, and what it returns. */
module Oracles {
  import opened Wrappers

  /** What one call gives back: the value, or the `str(e)` of the exception it raised. */
  type Reply<R> = Result<R, string>

  const Exhausted: string := "no scripted reply"

  /** The reply to call number `n` (from 0) on a queue. */
  function Nth<R>(script: seq<Reply<R>>, n: nat): Reply<R> {
    if n < |script| then script[n] else Err(Exhausted)
  }

  /** The queue left after `n` calls. */
  function Drop<R>(script: seq<Reply<R>>, n: nat): (rest: seq<Reply<R>>)
    ensures forall k: nat :: Nth(rest, k) == Nth(script, n + k)
  {
    if n <= |script| then script[n..] else []
  }

  lemma DropDrop<R>(script: seq<Reply<R>>, m: nat, n: nat)
    ensures Drop(Drop(script, m), n) == Drop(script, m + n)
  {
  }

  /** Where a log stands after two stretches of calls. */
  lemma Appended<T>(log: seq<T>, first: seq<T>, rest: seq<T>)
    ensures log + first + rest == log + (first + rest)
  {
  }

  /** The calls up to and including call `k`. */
  lemma PrefixSnoc<T>(calls: seq<T>, k: nat)
    requires k < |calls|
    ensures calls[..k + 1] == calls[..k] + [calls[k]]
  {
  }

  /** The index of the first failing reply among the first `n`, or `n` if none fails. */
  function FirstErr<R>(replies: seq<Reply<R>>, n: nat): (f: nat)
    ensures f <= n
    ensures forall j :: 0 <= j < f ==> Nth(replies, j).Ok?
    ensures f < n ==> Nth(replies, f).Err?
  {
    if n == 0 then 0
    else
      var f := FirstErr(replies, n - 1);
      if f < n - 1 then f
      else if Nth(replies, n - 1).Err? then n - 1
      else n
  }

  /** How many calls a loop over `n` items makes when it stops at the first failure: up to and including the first that raises. */
  function Made<R>(replies: seq<Reply<R>>, n: nat): (m: nat)
    ensures m <= n
  {
    var f := FirstErr(replies, n);
    if f < n then f + 1 else n
  }

  class Oracle<C, R> {
    /** The replies still to be given, in order. */
    var script: seq<Reply<R>>
    /** Every call received so far, in order. */
    var log: seq<C>

    constructor (script: seq<Reply<R>>)
      ensures this.script == script && log == []
    {
      this.script := script;
      log := [];
    }

    method Call(c: C) returns (r: Reply<R>)
      modifies this
      ensures r == Nth(old(script), 0)
      ensures script == Drop(old(script), 1)
      ensures log == old(log) + [c]
    {
      r := Nth(script, 0);
      script := Drop(script, 1);
      log := log + [c];
    }
  }

  // ---------------------------------------------------------------------------
  // The text-generation service: models/openai_service.py `generate_text`

  /** One `generate_text(system_prompt, user_prompt, temperature, max_tokens)` call; an absent
      temperature or token budget means the service's own default is used. */
  datatype Prompt = Prompt(system: string, user: string, temperature: Option<real>, maxTokens: Option<nat>)

  const ServiceTemperature: real := 0.7
  const ServiceMaxTokens: nat := 1000

  /** The parameters the service actually sends: explicit values override the defaults. */
  function EffectiveTemperature(p: Prompt): (t: real)
    ensures p.temperature.Some? ==> t == p.temperature.value
    ensures p.temperature.None? ==> t == ServiceTemperature
  {
    p.temperature.GetOr(ServiceTemperature)
  }

  function EffectiveMaxTokens(p: Prompt): (n: nat)
    ensures p.maxTokens.Some? ==> n == p.maxTokens.value
    ensures p.maxTokens.None? ==> n == ServiceMaxTokens
  {
    p.maxTokens.GetOr(ServiceMaxTokens)
  }

  type Llm = Oracle<Prompt, string>

  // ---------------------------------------------------------------------------
  // The passage retriever: rag/retriever.py `retrieve(query, k=4)`

  /** A retrieved passage (a LangChain `Document`; only its text matters here). */
  datatype Document = Document(pageContent: string)

  datatype Retrieval = Retrieval(query: string, k: nat)

  const DefaultK: nat := 4

  type Retriever = Oracle<Retrieval, seq<Document>>

  // ---------------------------------------------------------------------------
  // The comparison tooling's HTTP client: enhancements/rag_client.py

  /** `query(question)` asks the answering service; `get_openai_completion(...)` asks the
      text-generation endpoint with explicit parameters. */
  datatype ClientCall =
    | AskBaseline(question: string)
    | Completion(system: string, user: string, temperature: real, maxTokens: nat)

  type Client = Oracle<ClientCall, string>

  /** The calls a run made to the client, in order, and what it returned or raised. */
  datatype ClientRun<T> = ClientRun(calls: seq<ClientCall>, result: Reply<T>)

  /** `if context is None: context = client.query(question)`: the one call this makes, if any. */
  function ContextCalls(question: string, context: Option<string>): (calls: seq<ClientCall>)
    ensures context.Some? ==> calls == []
    ensures context.None? ==> calls == [AskBaseline(question)]
  {
    if context.None? then [AskBaseline(question)] else []
  }

  /** The context that results: the one given, or the reply to the query. */
  function ResolvedContext(context: Option<string>, replies: seq<Reply<string>>): Reply<string> {
    match context
    case Some(c) => Ok(c)
    case None => Nth(replies, 0)
  }

  method ResolveContext(client: Client, question: string, context: Option<string>) returns (c: Reply<string>)
    modifies client
    ensures client.log == old(client.log) + ContextCalls(question, context)
    ensures client.script == Drop(old(client.script), |ContextCalls(question, context)|)
    ensures c == ResolvedContext(context, old(client.script))
  {
    if context.None? {
      c := client.Call(AskBaseline(question));
    } else {
      c := Ok(context.value);
      assert Drop(client.script, 0) == client.script;
    }
  }
}
