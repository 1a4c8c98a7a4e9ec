/** The "Query Expansion + Reranking" variant (enhancements/rag_variants/query_expansion.py):
    rewrite the question into several queries, ask the baseline service each of them, and
    have the text-generation endpoint synthesize one answer from all the replies. */
module QueryExpansion {
  import opened Wrappers
  import opened PyStr
  import opened Oracles
  import opened Numbered
  import opened Variants

  const Name: string := "Query Expansion + Reranking"

  const ExpansionTemperature: real := 0.3
  const ExpansionMaxTokens: nat := 150
  const RerankTemperature: real := 0.5
  const RerankMaxTokens: nat := 800

  /** The fixed prompt texts, which the variant receives at construction. */
  datatype Texts = Texts(expansionSystem: string, rerankSystem: string, rerankClosing: string)

  const Fixed: Texts := Texts(
    "Generate 3 different versions of the following query about security policies. Each version should rephrase the question to improve document retrieval by using different terminology, specific security policy terms, or focusing on different aspects of the question.\n\nReturn ONLY the rewritten queries, one per line, without numbering or explanation.",
    "You are a security policy expert answering questions about company security policies. Below are several answers to variations of the same question about security policies. \n\nYour task is to:\n1. Analyze all answers to identify the most accurate and relevant information\n2. Rerank the information from most to least relevant to the original question\n3. Synthesize a single comprehensive response that addresses all aspects of the question\n4. Ensure you cite specific security policy details\n5. Structure your answer clearly with the most important information first\n\nYour synthesized answer should be more thorough and accurate than any individual answer.",
    "Please synthesize these into a single comprehensive answer to the original question.")

  /** `expand_query`'s completion request. */
  function ExpansionCall(system: string, question: string): ClientCall {
    Completion(system, "Original query: " + question, ExpansionTemperature, ExpansionMaxTokens)
  }

  /** One result in the reranking prompt. */
  function Variation(i: nat, result: string): string {
    "Answer variation " + NatToString(i) + ":\n" + result + "\n\n"
  }

  /** `rerank_results`' user prompt. */
  function RerankHead(question: string): string {
    "Original question: " + question + "\n\n"
  }

  function RerankUser(closing: string, question: string, results: seq<string>): string {
    RerankHead(question) + Blocks(Variation, results) + closing
  }

  function RerankCall(t: Texts, question: string, results: seq<string>): ClientCall {
    Completion(t.rerankSystem, RerankUser(t.rerankClosing, question, results), RerankTemperature, RerankMaxTokens)
  }

  /** The reranking prompt opens with the question, then shows every result under
      "Answer variation i:", numbered from 1 in the order of the results, then the closing
      request. */
  lemma RerankUserSpec(closing: string, question: string, results: seq<string>)
    ensures var user := RerankUser(closing, question, results);
            var head := RerankHead(question);
            && head <= user
            && BlocksAt(user, |head|, Variation, results)
            && OccursAt(user, closing, |user| - |closing|)
  {
    Framed(RerankHead(question), Variation, results, closing);
  }

  /** The `try` block of `query`: expand, ask each expanded query, rerank. */
  function Attempt(t: Texts, question: string, replies: seq<Reply<string>>): ClientRun<string>
  {
    AskAround(ExpansionCall(t.expansionSystem, question), reply => ReplyQueries(question, reply),
              results => RerankCall(t, question, results), replies)
  }

  /** `query(question)`. */
  function Run(t: Texts, question: string, replies: seq<Reply<string>>)
    : ClientRun<string>
  {
    WithFallback(question, Attempt(t, question, replies), replies)
  }

  /** The attempt, when nothing raises: the expansion request, one `client.query` per
      expanded query, then the reranking request. */
  lemma AttemptSucceeds(t: Texts, question: string, replies: seq<Reply<string>>)
    requires Attempt(t, question, replies).result.Ok?
    ensures var run := Attempt(t, question, replies);
            var queries := ReplyQueries(question, Nth(replies, 0).value);
            var n := |queries|;
            && Nth(replies, 0).Ok?
            && |run.calls| == n + 2
            && run.calls[0] == ExpansionCall(t.expansionSystem, question)
            && (forall j :: 0 <= j < n ==> run.calls[j + 1] == AskBaseline(queries[j]) && Nth(replies, j + 1).Ok?)
            && run.calls[n + 1] == RerankCall(t, question, Answers(Drop(replies, 1), n))
            && run.result == Nth(replies, n + 1)
  {
    AskAroundSucceeds(ExpansionCall(t.expansionSystem, question), reply => ReplyQueries(question, reply),
                      results => RerankCall(t, question, results), replies);
  }

  /** When nothing raises, `query` asks for the expansion (at temperature 0.3 with 150 tokens),
      then makes exactly one `client.query` per expanded query in order, collecting one result
      per query, then asks for the synthesis, which it returns unchanged. */
  lemma RunSucceeds(t: Texts, question: string, replies: seq<Reply<string>>)
    requires Attempt(t, question, replies).result.Ok?
    ensures var run := Run(t, question, replies);
            var queries := ReplyQueries(question, Nth(replies, 0).value);
            var n := |queries|;
            && Nth(replies, 0).Ok?
            && |run.calls| == n + 2
            && run.calls[0] == Completion(t.expansionSystem, "Original query: " + question, 0.3, 150)
            && (forall j :: 0 <= j < n ==> run.calls[j + 1] == AskBaseline(queries[j]) && Nth(replies, j + 1).Ok?)
            && run.calls[n + 1] == RerankCall(t, question, Answers(Drop(replies, 1), n))
            && run.result == Nth(replies, n + 1)
  {
    AttemptSucceeds(t, question, replies);
    assert Run(t, question, replies) == Attempt(t, question, replies);
    assert ExpansionCall(t.expansionSystem, question) ==
           Completion(t.expansionSystem, "Original query: " + question, 0.3, 150);
  }

  /** When any step raises, `query` ends with one `client.query(question)` and answers with its
      reply: the calls made before it are the expansion request and the baseline queries up to
      the one that raised. */
  lemma RunFallsBack(t: Texts, question: string, replies: seq<Reply<string>>)
    requires Attempt(t, question, replies).result.Err?
    ensures var attempt := Attempt(t, question, replies);
            var run := Run(t, question, replies);
            && attempt.calls != [] && attempt.calls[0] == ExpansionCall(t.expansionSystem, question)
            && run.calls == attempt.calls + [AskBaseline(question)]
            && run.result == Nth(replies, |attempt.calls|)
  {
    AskAroundFails(ExpansionCall(t.expansionSystem, question), reply => ReplyQueries(question, reply),
                   results => RerankCall(t, question, results), replies);
  }

  /** `QueryExpansionRAG`. */
  class QueryExpansionRag {
    const client: Client
    const name: string
    const t: Texts

    /** The variant's texts are the fixed ones, `Fixed`. */
    constructor (client: Client)
      ensures this.client == client && name == Name && t == Fixed
    {
      this.client := client;
      name := Name;
      t := Fixed;
    }

    method ExpandQuery(question: string) returns (r: Reply<seq<string>>)
      modifies client
      ensures client.log == old(client.log) + [ExpansionCall(t.expansionSystem, question)]
      ensures client.script == Drop(old(client.script), 1)
      ensures match Nth(old(client.script), 0)
              case Ok(reply) => r == Ok(ReplyQueries(question, reply))
              case Err(e) => r == Err(e)
    {
      var reply := client.Call(ExpansionCall(t.expansionSystem, question));
      match reply
      case Err(e) => r := Err(e);
      case Ok(text) => r := Ok(NonBlankLines(text) + [question]);
    }

    method RerankResults(question: string, results: seq<string>) returns (r: Reply<string>)
      modifies client
      ensures client.log == old(client.log) + [RerankCall(t, question, results)]
      ensures client.script == Drop(old(client.script), 1)
      ensures r == Nth(old(client.script), 0)
    {
      var blocks := BuildBlocks(Variation, results);
      var user := "Original question: " + question + "\n\n" + blocks + t.rerankClosing;
      r := client.Call(Completion(t.rerankSystem, user, RerankTemperature, RerankMaxTokens));
    }

    /** The `try` block. */
    method TryQuery(question: string) returns (r: Reply<string>)
      modifies client
      ensures var run := Attempt(t, question, old(client.script));
              && r == run.result
              && client.log == old(client.log) + run.calls
              && client.script == Drop(old(client.script), |run.calls|)
    {
      ghost var script0, log0 := client.script, client.log;
      var expanded := ExpandQuery(question);
      if expanded.Err? {
        return Err(expanded.error);
      }
      var results := QueryEach(client, expanded.value);
      ghost var asked := AskEach(expanded.value, Drop(script0, 1));
      DropDrop(script0, 1, |asked.calls|);
      Appended(log0, [ExpansionCall(t.expansionSystem, question)], asked.calls);
      if results.Err? {
        return Err(results.error);
      }
      r := RerankResults(question, results.value);
      DropDrop(script0, 1 + |asked.calls|, 1);
      Appended(log0, [ExpansionCall(t.expansionSystem, question)] + asked.calls,
               [RerankCall(t, question, results.value)]);
    }

    method Query(question: string) returns (r: Reply<string>)
      modifies client
      ensures var run := Run(t, question, old(client.script));
              && r == run.result
              && client.log == old(client.log) + run.calls
              && client.script == Drop(old(client.script), |run.calls|)
    {
      ghost var script0, log0 := client.script, client.log;
      r := TryQuery(question);
      ghost var attempt := Attempt(t, question, script0);
      if r.Err? {
        r := client.Call(AskBaseline(question));
        DropDrop(script0, |attempt.calls|, 1);
        Appended(log0, attempt.calls, [AskBaseline(question)]);
      }
    }
  }
}
