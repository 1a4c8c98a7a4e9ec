/** The "Hybrid Search + Contextual Compression" variant
    (enhancements/rag_variants/hybrid_search.py): take the baseline answer, extract the
    question's keywords, compress the baseline answer to what the question needs, and have
    the text-generation endpoint write the final answer from the compressed text and the
    keywords. */
module HybridSearch {
  import opened Wrappers
  import opened PyStr
  import opened Oracles
  import opened Variants

  const Name: string := "Hybrid Search + Contextual Compression"

  const KeywordTemperature: real := 0.1
  const KeywordMaxTokens: nat := 100
  const CompressTemperature: real := 0.2
  const CompressMaxTokens: nat := 600
  const EnhanceTemperature: real := 0.5
  const EnhanceMaxTokens: nat := 800

  /** The fixed system prompts, which the variant receives at construction. */
  datatype Texts = Texts(keywordSystem: string, compressSystem: string, enhanceSystem: string)

  const Fixed: Texts := Texts(
    "Extract the 3-5 most important keywords or phrases from this security policy question. Focus on technical terms, specific security concepts, policy elements, or named entities. Return ONLY the keywords, one per line, without numbering or explanation.",
    "You are an expert at contextual compression for security policy information. Given a question and a response that may contain some irrelevant information, your task is to:\n\n1. Identify the most relevant parts of the response that directly answer the question\n2. Remove any irrelevant sections, tangential information, or redundancies\n3. Preserve all factual details, specific policy references, and security requirements\n4. Maintain the accuracy of the information\n\nReturn a compressed version that contains only the information needed to comprehensively answer the question.",
    "You are a security policy expert answering questions about security policies. Given a question, some context information, and important keywords, your task is to create a comprehensive answer that:\n\n1. Addresses the original question completely\n2. Uses the provided context information as the primary source\n3. Emphasizes information related to the identified keywords\n4. Organizes the response in a clear, structured format\n5. Cites specific security policy details and sections when relevant\n\nFocus particularly on the key security concepts identified in the keywords list, and ensure these aspects are thoroughly explained in your answer.")

  function KeywordUser(question: string): string {
    "Question: " + question
  }

  function KeywordCall(t: Texts, question: string): ClientCall {
    Completion(t.keywordSystem, KeywordUser(question), KeywordTemperature, KeywordMaxTokens)
  }

  /** `extract_keywords`' parse of the reply: its stripped non-blank lines. */
  function Keywords(reply: string): seq<string> {
    NonBlankLines(reply)
  }

  /** Every keyword is a non-blank stripped line, and nothing is added to what the reply
      holds: a blank reply gives no keywords at all. */
  lemma KeywordsSpec(reply: string)
    ensures forall k :: 0 <= k < |Keywords(reply)| ==>
              var w := Keywords(reply)[k];
              w != "" && Strip(w) == w && !Contains(w, "\n")
    ensures Keywords(reply) == [] <==> AllSpace(reply)
  {
    NonBlankLinesClean(reply);
    NonBlankLinesEmptyIffBlank(reply);
  }

  function CompressUser(question: string, original: string): string {
    KeywordUser(question) + "\n\nOriginal Response: " + original + CompressTail()
  }

  function CompressTail(): string {
    "\n\nCompressed Context:"
  }

  function CompressCall(t: Texts, question: string, original: string): ClientCall {
    Completion(t.compressSystem, CompressUser(question, original), CompressTemperature, CompressMaxTokens)
  }

  function EnhanceUser(question: string, compressed: string, keywords: seq<string>): string {
    EnhanceHead(question) + compressed + EnhanceKeywords(keywords) + EnhanceTail()
  }

  function EnhanceHead(question: string): string {
    KeywordUser(question) + "\n\nContext Information: "
  }

  function EnhanceKeywords(keywords: seq<string>): string {
    "\n\nImportant Keywords: " + Join(", ", keywords)
  }

  function EnhanceTail(): string {
    "\n\nComprehensive Answer:"
  }

  function EnhanceCall(t: Texts, question: string, compressed: string, keywords: seq<string>): ClientCall {
    Completion(t.enhanceSystem, EnhanceUser(question, compressed, keywords), EnhanceTemperature, EnhanceMaxTokens)
  }

  /** The compression prompt shows the baseline answer. */
  lemma CompressShowsOriginal(question: string, original: string)
    ensures Contains(CompressUser(question, original), original)
  {
    ContainsConcat(KeywordUser(question) + "\n\nOriginal Response: ", original, CompressTail());
  }

  /** The enhancement prompt shows the compressed text. */
  lemma EnhanceShowsContext(question: string, compressed: string, keywords: seq<string>)
    ensures Contains(EnhanceUser(question, compressed, keywords), compressed)
  {
    var head, list, tail := EnhanceHead(question), EnhanceKeywords(keywords), EnhanceTail();
    assert EnhanceUser(question, compressed, keywords) == head + compressed + (list + tail);
    ContainsConcat(head, compressed, list + tail);
  }

  /** The enhancement prompt shows the keywords joined by ", ", hence every keyword. */
  lemma EnhanceShowsKeywords(question: string, compressed: string, keywords: seq<string>)
    ensures Contains(EnhanceUser(question, compressed, keywords), Join(", ", keywords))
    ensures forall k :: 0 <= k < |keywords| ==> Contains(EnhanceUser(question, compressed, keywords), keywords[k])
  {
    var user := EnhanceUser(question, compressed, keywords);
    var list, joined := EnhanceKeywords(keywords), Join(", ", keywords);
    ContainsConcat(EnhanceHead(question) + compressed, list, EnhanceTail());
    ContainsParts("\n\nImportant Keywords: ", joined);
    ContainsTransitive(user, list, joined);
    forall k | 0 <= k < |keywords|
      ensures Contains(user, keywords[k])
    {
      JoinContainsPart(", ", keywords, k);
      ContainsTransitive(user, joined, keywords[k]);
    }
  }

  /** The `try` block of `query`: baseline answer, then keywords, compression and
      enhancement. */
  function Attempt(t: Texts, question: string, replies: seq<Reply<string>>): ClientRun<string> {
    match Nth(replies, 0)
    case Err(e) => ClientRun([AskBaseline(question)], Err(e))
    case Ok(baseline) =>
      var rest := AfterBaseline(t, question, baseline, Drop(replies, 1));
      ClientRun([AskBaseline(question)] + rest.calls, rest.result)
  }

  /** Extract the keywords, then compress and enhance. */
  function AfterBaseline(t: Texts, question: string, baseline: string, replies: seq<Reply<string>>)
    : ClientRun<string>
  {
    match Nth(replies, 0)
    case Err(e) => ClientRun([KeywordCall(t, question)], Err(e))
    case Ok(keywordReply) =>
      var rest := Refine(t, question, baseline, Keywords(keywordReply), Drop(replies, 1));
      ClientRun([KeywordCall(t, question)] + rest.calls, rest.result)
  }

  /** Compress the baseline answer, then enhance the compressed text with the keywords. */
  function Refine(t: Texts, question: string, baseline: string, keywords: seq<string>,
                  replies: seq<Reply<string>>): ClientRun<string>
  {
    var c := [CompressCall(t, question, baseline)];
    match Nth(replies, 0)
    case Err(e) => ClientRun(c, Err(e))
    case Ok(compressed) => ClientRun(c + [EnhanceCall(t, question, compressed, keywords)], Nth(replies, 1))
  }

  /** `query(question)`. */
  function Run(t: Texts, question: string, replies: seq<Reply<string>>): ClientRun<string> {
    WithFallback(question, Attempt(t, question, replies), replies)
  }

  /** The data flow when nothing raises: the baseline answer goes to the compression, the
      compressed text and the keywords to the enhancement, and the enhancement's reply is the
      answer. */
  lemma RunSucceeds(t: Texts, question: string, replies: seq<Reply<string>>)
    requires Attempt(t, question, replies).result.Ok?
    ensures var run := Run(t, question, replies);
            && Nth(replies, 0).Ok? && Nth(replies, 1).Ok? && Nth(replies, 2).Ok?
            && run.calls == [AskBaseline(question), KeywordCall(t, question),
                             CompressCall(t, question, Nth(replies, 0).value),
                             EnhanceCall(t, question, Nth(replies, 2).value, Keywords(Nth(replies, 1).value))]
            && run.result == Nth(replies, 3)
  {
  }

  /** When any step raises, `query` ends with one `client.query(question)` and answers with its
      reply. */
  lemma RunFallsBack(t: Texts, question: string, replies: seq<Reply<string>>)
    requires Attempt(t, question, replies).result.Err?
    ensures var attempt := Attempt(t, question, replies);
            var run := Run(t, question, replies);
            && 1 <= |attempt.calls| <= 4 && attempt.calls[0] == AskBaseline(question)
            && run.calls == attempt.calls + [AskBaseline(question)]
            && run.result == Nth(replies, |attempt.calls|)
  {
  }

  /** `HybridSearchRAG`. */
  class HybridSearchRag {
    const client: Client
    const name: string
    const t: Texts

    /** The variant's texts are the fixed ones, `Fixed`. */
    constructor (client: Client)
      ensures this.client == client && name == Name && t == Fixed
    {
      this.client := client;
      name := Name;
      t := Fixed;
    }

    method ExtractKeywords(question: string) returns (r: Reply<seq<string>>)
      modifies client
      ensures client.log == old(client.log) + [KeywordCall(t, question)]
      ensures client.script == Drop(old(client.script), 1)
      ensures match Nth(old(client.script), 0)
              case Ok(reply) => r == Ok(Keywords(reply))
              case Err(e) => r == Err(e)
    {
      var reply := client.Call(KeywordCall(t, question));
      match reply
      case Err(e) => r := Err(e);
      case Ok(text) => r := Ok(NonBlankLines(text));
    }

    method CompressContext(question: string, original: string) returns (r: Reply<string>)
      modifies client
      ensures client.log == old(client.log) + [CompressCall(t, question, original)]
      ensures client.script == Drop(old(client.script), 1)
      ensures r == Nth(old(client.script), 0)
    {
      r := client.Call(CompressCall(t, question, original));
    }

    method EnhanceWithKeywords(question: string, compressed: string, keywords: seq<string>) returns (r: Reply<string>)
      modifies client
      ensures client.log == old(client.log) + [EnhanceCall(t, question, compressed, keywords)]
      ensures client.script == Drop(old(client.script), 1)
      ensures r == Nth(old(client.script), 0)
    {
      r := client.Call(EnhanceCall(t, question, compressed, keywords));
    }

    /** The `try` block. */
    method TryQuery(question: string) returns (r: Reply<string>)
      modifies client
      ensures var run := Attempt(t, question, old(client.script));
              && r == run.result
              && client.log == old(client.log) + run.calls
              && client.script == Drop(old(client.script), |run.calls|)
    {
      ghost var script0, log0 := client.script, client.log;
      var baseline := client.Call(AskBaseline(question));
      if baseline.Err? {
        return Err(baseline.error);
      }
      r := KeywordsAndRefine(question, baseline.value);
      ghost var rest := AfterBaseline(t, question, baseline.value, Drop(script0, 1));
      DropDrop(script0, 1, |rest.calls|);
      Appended(log0, [AskBaseline(question)], rest.calls);
    }

    /** The rest of the `try` block once the baseline answered. */
    method KeywordsAndRefine(question: string, baseline: string) returns (r: Reply<string>)
      modifies client
      ensures var run := AfterBaseline(t, question, baseline, old(client.script));
              && r == run.result
              && client.log == old(client.log) + run.calls
              && client.script == Drop(old(client.script), |run.calls|)
    {
      ghost var script0, log0 := client.script, client.log;
      var keywords := ExtractKeywords(question);
      if keywords.Err? {
        return Err(keywords.error);
      }
      r := CompressAndEnhance(question, baseline, keywords.value);
      ghost var rest := Refine(t, question, baseline, keywords.value, Drop(script0, 1));
      DropDrop(script0, 1, |rest.calls|);
      Appended(log0, [KeywordCall(t, question)], rest.calls);
    }

    /** The compression and the enhancement. */
    method CompressAndEnhance(question: string, baseline: string, keywords: seq<string>) returns (r: Reply<string>)
      modifies client
      ensures var run := Refine(t, question, baseline, keywords, old(client.script));
              && r == run.result
              && client.log == old(client.log) + run.calls
              && client.script == Drop(old(client.script), |run.calls|)
    {
      ghost var script0 := client.script;
      var compressed := CompressContext(question, baseline);
      if compressed.Err? {
        return Err(compressed.error);
      }
      r := EnhanceWithKeywords(question, compressed.value, keywords);
      DropDrop(script0, 1, 1);
    }

    method Query(question: string) returns (r: Reply<string>)
      modifies client
      ensures var run := Run(t, question, old(client.script));
              && r == run.result
              && client.log == old(client.log) + run.calls
              && client.script == Drop(old(client.script), |run.calls|)
    {
      ghost var script0, log0 := client.script, client.log;
      r := TryQuery(question);
      ghost var attempt := Attempt(t, question, script0);
      if r.Err? {
        r := client.Call(AskBaseline(question));
        DropDrop(script0, |attempt.calls|, 1);
        Appended(log0, attempt.calls, [AskBaseline(question)]);
      }
    }
  }
}
