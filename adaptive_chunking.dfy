/** The "Adaptive Chunking + Self-Query" variant (enhancements/rag_variants/adaptive_chunking.py):
    have the text-generation endpoint analyse the question's topic structure, parse that
    analysis into a dictionary, generate refined queries from it, ask the baseline service each
    of them, and synthesise the answers in the style the analysed level of detail calls for. */
module AdaptiveChunking {
  import opened Wrappers
  import opened PyStr
  import opened Scoring
  import opened Oracles
  import opened Numbered
  import opened Variants

  const Name: string := "Adaptive Chunking + Self-Query"

  const IdentifyTemperature: real := 0.2
  const IdentifyMaxTokens: nat := 250
  const SelfQueryTemperature: real := 0.3
  const SelfQueryMaxTokens: nat := 200
  const SynthesisTemperature: real := 0.4
  const SynthesisMaxTokens: nat := 800

  /** The fixed texts, which the variant receives at construction: two system prompts, the
      synthesis system prompt around its style sentence, the three style sentences, the
      request that ends the self-query prompt, and the request that ends the synthesis prompt
      around the detail level. */
  datatype Texts = Texts(identifySystem: string, selfQuerySystem: string,
                         synthesisOpening: string, synthesisClosing: string,
                         concise: string, detailed: string, balanced: string,
                         selfQueryRequest: string, synthesisLead: string, synthesisEnd: string)

  const Fixed: Texts := Texts(
    "Analyze this question about security policies to determine the optimal information structure for answering it. Identify the main topic, any subtopics, and the appropriate level of detail needed.\n\nReturn your analysis in the following format:\nMain Topic: [The primary security policy area being asked about]\nSubtopics: [List of 2-3 related subtopics that should be addressed]\nDetail Level: [Brief/Moderate/Comprehensive]\nDocument Sections: [Likely sections of a security policy document that would contain relevant information]\nKey Terms: [Important technical or policy terms related to this question]",
    "You are an expert at breaking down complex security policy questions into more specific queries. Based on the original question and topic analysis, generate 3 more specific queries that will help retrieve the most relevant information from a security policy document.\n\nThe queries should:\n1. Target specific aspects of the main topic\n2. Use precise security policy terminology\n3. Focus on retrieving concrete policy details, not general information\n4. Be directly answerable from a security policy document\n\nReturn ONLY the 3 refined queries, one per line, without numbering or explanation.",
    "You are a security policy expert tasked with synthesizing information from multiple sources to answer a question about security policies.\n\nBased on the topic analysis, you should: ",
    "\n\nYour synthesis should:\n1. Organize information according to the identified topic structure\n2. Emphasize the main topic while covering all relevant subtopics\n3. Include specific security policy details, requirements, and procedures\n4. Cite relevant sections of the security policy where appropriate\n5. Use consistent terminology from the security domain\n\nThe final answer should be well-structured, authoritative, and directly address the original question.",
    "Provide a concise summary focusing only on the most essential points.",
    "Provide a detailed, comprehensive answer covering all aspects in depth.",
    "Provide a balanced response with moderate detail on all relevant aspects.",
    "Generate 3 specific queries to find the most relevant information:",
    "\nPlease synthesize this information into a ",
    " response to the original question.")

  // ---------------------------------------------------------------------------
  // `identify_topic_structure`

  function IdentifyUser(question: string): string {
    "Security Policy Question: " + question
  }

  function IdentifyCall(t: Texts, question: string): ClientCall {
    Completion(t.identifySystem, IdentifyUser(question), IdentifyTemperature, IdentifyMaxTokens)
  }

  /** A line of the analysis that names `key`: it holds a colon, and `key` is the stripped
      text before the first one. */
  predicate Names(line: string, key: string) {
    Contains(line, ":") && Strip(SplitOnce(line, ":").0) == key
  }

  /** The value such a line gives its key: the stripped text after its first colon. */
  function ValueOf(line: string): string
    requires Contains(line, ":")
  {
    Strip(SplitOnce(line, ":").1)
  }

  /** `analysis[key.strip()] = value.strip()` for each line holding a colon, in order. */
  function TopicEntries(lines: seq<string>): Dict<string>
    decreases |lines|
  {
    if lines == [] then []
    else
      var entries := TopicEntries(lines[..|lines| - 1]);
      var line := lines[|lines| - 1];
      if Contains(line, ":") then Put(entries, Strip(SplitOnce(line, ":").0), ValueOf(line))
      else entries
  }

  /** The lines of the stripped reply. */
  function ReplyLines(reply: string): seq<string> {
    Split(Strip(reply), "\n")
  }

  /** The parsed topic structure of a reply. */
  function Analysis(reply: string): Dict<string> {
    TopicEntries(ReplyLines(reply))
  }

  /** Looking a key up after one more line: that line's value if it names the key, otherwise
      what the earlier lines gave. */
  lemma LookupAfterLine(lines: seq<string>, key: string, default: string)
    requires lines != []
    ensures var init, line := lines[..|lines| - 1], lines[|lines| - 1];
            Get(TopicEntries(lines), key, default) ==
              if Names(line, key) then ValueOf(line) else Get(TopicEntries(init), key, default)
  {
    var init, line := lines[..|lines| - 1], lines[|lines| - 1];
    if Contains(line, ":") {
      GetPut(TopicEntries(init), Strip(SplitOnce(line, ":").0), ValueOf(line), key, default);
    }
  }

  /** A key that no line names is absent, so looking it up gives the default. */
  lemma {:induction false} AbsentKey(lines: seq<string>, key: string, default: string)
    requires forall i :: 0 <= i < |lines| ==> !Names(lines[i], key)
    ensures Get(TopicEntries(lines), key, default) == default
    decreases |lines|
  {
    if lines != [] {
      var init := lines[..|lines| - 1];
      forall i | 0 <= i < |init|
        ensures !Names(init[i], key)
      {
        assert init[i] == lines[i];
      }
      AbsentKey(init, key, default);
      LookupAfterLine(lines, key, default);
    }
  }

  /** A key's value is the value of the last line that names it. */
  lemma {:induction false} LastNamingLine(lines: seq<string>, key: string, default: string, i: nat)
    requires i < |lines| && Names(lines[i], key)
    requires forall j :: i < j < |lines| ==> !Names(lines[j], key)
    ensures Get(TopicEntries(lines), key, default) == ValueOf(lines[i])
    decreases |lines|
  {
    LookupAfterLine(lines, key, default);
    if i < |lines| - 1 {
      var init := lines[..|lines| - 1];
      assert init[i] == lines[i];
      forall j | i < j < |init|
        ensures !Names(init[j], key)
      {
        assert init[j] == lines[j];
      }
      LastNamingLine(init, key, default, i);
    }
  }

  /** The line `key:value`, when no later line names the same key, gives the analysis the entry
      `key: value.strip()`. */
  lemma LastLineValue(lines: seq<string>, i: nat, key: string, value: string, default: string)
    requires !Contains(key, ":") && Strip(key) == key
    requires i < |lines| && lines[i] == key + ":" + value
    requires forall j :: i < j < |lines| ==> !Names(lines[j], key)
    ensures Get(TopicEntries(lines), key, default) == Strip(value)
  {
    LineEntry(key, value);
    LastNamingLine(lines, key, default, i);
  }

  /** A line without a colon leaves the analysis as it was, order included. */
  lemma LineWithoutColon(lines: seq<string>, line: string)
    requires !Contains(line, ":")
    ensures TopicEntries(lines + [line]) == TopicEntries(lines)
  {
    assert (lines + [line])[..|lines|] == lines;
  }

  /** The line `key:value` names its stripped key and gives it the stripped value, however
      many colons the value holds. */
  lemma LineEntry(key: string, value: string)
    requires !Contains(key, ":")
    ensures Names(key + ":" + value, Strip(key))
    ensures ValueOf(key + ":" + value) == Strip(value)
  {
    SplitOnceAt(key, ":", value);
  }

  /** The loop that parses the reply. */
  method ParseTopicStructure(response: string) returns (analysis: Dict<string>)
    ensures analysis == Analysis(response)
  {
    var lines := Split(Strip(response), "\n");
    analysis := [];
    var i := 0;
    while i < |lines|
      invariant i <= |lines|
      invariant analysis == TopicEntries(lines[..i])
    {
      assert lines[..i + 1][..i] == lines[..i];
      var line := lines[i];
      if Contains(line, ":") {
        var parts := SplitOnce(line, ":");
        analysis := Put(analysis, Strip(parts.0), Strip(parts.1));
      }
      i := i + 1;
    }
    assert lines[..|lines|] == lines;
  }

  // ---------------------------------------------------------------------------
  // `generate_self_queries`

  /** One line of the analysis as the prompts show it. */
  function EntryLine(entry: (string, string)): string {
    entry.0 + ": " + entry.1
  }

  function EntryLines(analysis: Dict<string>): (lines: seq<string>)
    ensures |lines| == |analysis|
    ensures forall i :: 0 <= i < |analysis| ==> lines[i] == EntryLine(analysis[i])
  {
    seq(|analysis|, i requires 0 <= i < |analysis| => EntryLine(analysis[i]))
  }

  /** `structure_text`: one `key: value` line per entry, in the dictionary's order. */
  function StructureText(analysis: Dict<string>): string {
    Join("\n", EntryLines(analysis))
  }

  /** The structure text shows every entry of the analysis. */
  lemma StructureShowsEntries(analysis: Dict<string>)
    ensures forall i :: 0 <= i < |analysis| ==>
              Contains(StructureText(analysis), analysis[i].0 + ": " + analysis[i].1)
  {
    forall i | 0 <= i < |analysis|
      ensures Contains(StructureText(analysis), analysis[i].0 + ": " + analysis[i].1)
    {
      JoinContainsPart("\n", EntryLines(analysis), i);
    }
  }

  /** The opening both later prompts share: the question, then the topic analysis. */
  function QuestionHead(question: string): string {
    "Original Question: " + question + "\n\nTopic Analysis:\n"
  }

  function TopicHead(question: string, structure: string): string {
    QuestionHead(question) + structure + "\n\n"
  }

  function SelfQueryUser(t: Texts, question: string, analysis: Dict<string>): string {
    TopicHead(question, StructureText(analysis)) + t.selfQueryRequest
  }

  function SelfQueryCall(t: Texts, question: string, analysis: Dict<string>): ClientCall {
    Completion(t.selfQuerySystem, SelfQueryUser(t, question, analysis), SelfQueryTemperature, SelfQueryMaxTokens)
  }

  /** The self-query prompt opens with the question and shows the whole structure text. */
  lemma SelfQueryShowsAnalysis(t: Texts, question: string, analysis: Dict<string>)
    ensures QuestionHead(question) <= SelfQueryUser(t, question, analysis)
    ensures Contains(SelfQueryUser(t, question, analysis), StructureText(analysis))
  {
    var head, structure, tail := QuestionHead(question), StructureText(analysis), "\n\n" + t.selfQueryRequest;
    assert SelfQueryUser(t, question, analysis) == head + structure + tail;
    StartsWith(head, structure + tail);
    ContainsConcat(head, structure, tail);
  }

  // ---------------------------------------------------------------------------
  // `adaptive_chunk_synthesis`

  const DetailKey: string := "Detail Level"

  /** The key is a clean key: no colon, nothing to strip. */
  lemma DetailKeyClean()
    ensures !Contains(DetailKey, ":") && Strip(DetailKey) == DetailKey
  {
    var key := DetailKey;
    assert key[0] != ':' && key[1] != ':' && key[2] != ':' && key[3] != ':' && key[4] != ':' && key[5] != ':';
    assert key[6] != ':' && key[7] != ':' && key[8] != ':' && key[9] != ':' && key[10] != ':' && key[11] != ':';
    WithoutChar(key, ':');
    StripOfClean(key);
  }

  /** `topic_structure.get("Detail Level", "Moderate").strip().lower()`. */
  function DetailLevel(analysis: Dict<string>): string {
    Lower(Strip(Get(analysis, DetailKey, "Moderate")))
  }

  datatype Style = Concise | Detailed | Balanced

  /** "brief" is checked before "comprehensive"; anything else is balanced. */
  function StyleOf(detail: string): Style {
    if Contains(detail, "brief") then Concise
    else if Contains(detail, "comprehensive") then Detailed
    else Balanced
  }

  function StyleText(t: Texts, style: Style): string {
    match style
    case Concise => t.concise
    case Detailed => t.detailed
    case Balanced => t.balanced
  }

  function SynthesisSystem(t: Texts, detail: string): string {
    t.synthesisOpening + StyleText(t, StyleOf(detail)) + t.synthesisClosing
  }

  /** One answer in the synthesis prompt. */
  function Source(i: nat, response: string): string {
    "Information Source " + NatToString(i) + ":\n" + response + "\n\n"
  }

  function SynthesisTail(t: Texts, detail: string): string {
    t.synthesisLead + Lower(detail) + t.synthesisEnd
  }

  function SynthesisUser(t: Texts, question: string, structure: string, responses: seq<string>, detail: string): string {
    TopicHead(question, structure) + Blocks(Source, responses) + SynthesisTail(t, detail)
  }

  function SynthesisCall(t: Texts, question: string, responses: seq<string>, analysis: Dict<string>): ClientCall {
    var detail := DetailLevel(analysis);
    Completion(SynthesisSystem(t, detail), SynthesisUser(t, question, StructureText(analysis), responses, detail),
               SynthesisTemperature, SynthesisMaxTokens)
  }

  /** An analysis without a "Detail Level" entry is read as moderate, which asks for the
      balanced style. */
  lemma DefaultIsModerate(analysis: Dict<string>)
    requires !HasKey(analysis, DetailKey)
    ensures DetailLevel(analysis) == "moderate"
    ensures StyleOf(DetailLevel(analysis)) == Balanced
  {
    StripOfClean("Moderate");
    var d := Lower("Moderate");
    assert d[0] == 'm' && d[1] == 'o' && d[2] == 'd' && d[3] == 'e' && d[4] == 'r' && d[5] == 'a' && d[6] == 't' && d[7] == 'e';
    assert d == "moderate";
    forall k | 0 <= k <= 3
      ensures !OccursAt(d, "brief", k)
    {
      assert d[k] != 'b';
    }
  }

  /** The three levels the analysis prompt offers pick the three styles, in any case. */
  lemma LevelStyles()
    ensures StyleOf(Lower("Brief")) == Concise
    ensures StyleOf(Lower("Comprehensive")) == Detailed
  {
    var b := Lower("Brief");
    assert b[0] == 'b' && b[1] == 'r' && b[2] == 'i' && b[3] == 'e' && b[4] == 'f';
    assert OccursAt(b, "brief", 0);
    var c := Lower("Comprehensive");
    assert c[0] == 'c' && c[1] == 'o' && c[2] == 'm' && c[3] == 'p' && c[4] == 'r' && c[5] == 'e' && c[6] == 'h';
    assert c[7] == 'e' && c[8] == 'n' && c[9] == 's' && c[10] == 'i' && c[11] == 'v' && c[12] == 'e';
    assert OccursAt(c, "comprehensive", 0);
    forall k | 0 <= k <= 8
      ensures !OccursAt(c, "brief", k)
    {
      assert c[k] != 'b';
    }
  }

  /** "brief" anywhere in the level wins, even beside "comprehensive"; "comprehensive" comes
      second; every other level is balanced. */
  lemma StyleChoice(detail: string)
    ensures StyleOf(detail) == Concise <==> Contains(detail, "brief")
    ensures StyleOf(detail) == Detailed <==> !Contains(detail, "brief") && Contains(detail, "comprehensive")
    ensures StyleOf(detail) == Balanced <==> !Contains(detail, "brief") && !Contains(detail, "comprehensive")
  {
  }

  /** Where the detail level comes from: the value of the last "Detail Level:" line of the
      reply, stripped and lower-cased. */
  lemma DetailFromLine(lines: seq<string>, i: nat, value: string)
    requires i < |lines| && lines[i] == DetailKey + ":" + value
    requires forall j :: i < j < |lines| ==> !Names(lines[j], DetailKey)
    ensures DetailLevel(TopicEntries(lines)) == Lower(Strip(value))
  {
    DetailKeyClean();
    LastLineValue(lines, i, DetailKey, value, "Moderate");
    StripIdempotent(value);
  }

  /** The synthesis system prompt holds the style sentence that the detail level picks. */
  lemma SynthesisSystemSpec(t: Texts, detail: string)
    ensures t.synthesisOpening <= SynthesisSystem(t, detail)
    ensures Contains(SynthesisSystem(t, detail), StyleText(t, StyleOf(detail)))
  {
    StartsWith(t.synthesisOpening, StyleText(t, StyleOf(detail)) + t.synthesisClosing);
    ContainsConcat(t.synthesisOpening, StyleText(t, StyleOf(detail)), t.synthesisClosing);
  }

  /** The synthesis prompt opens with the question and the topic analysis; then comes every
      answer under "Information Source i:", numbered from 1 in the order of the answers; then
      the request, which names the detail level. */
  lemma SynthesisUserSpec(t: Texts, question: string, structure: string, responses: seq<string>, detail: string)
    ensures var user := SynthesisUser(t, question, structure, responses, detail);
            var head := TopicHead(question, structure);
            && head <= user
            && BlocksAt(user, |head|, Source, responses)
            && OccursAt(user, SynthesisTail(t, detail), |user| - |SynthesisTail(t, detail)|)
  {
    Framed(TopicHead(question, structure), Source, responses, SynthesisTail(t, detail));
  }

  // ---------------------------------------------------------------------------
  // `query`

  /** The `try` block of `query`: the topic analysis, then the rest. */
  function Attempt(t: Texts, question: string, replies: seq<Reply<string>>): ClientRun<string> {
    var identify := IdentifyCall(t, question);
    match Nth(replies, 0)
    case Err(e) => ClientRun([identify], Err(e))
    case Ok(reply) =>
      var rest := AfterAnalysis(t, question, Analysis(reply), Drop(replies, 1));
      ClientRun([identify] + rest.calls, rest.result)
  }

  /** The self-queries, one baseline query per self-query, and the synthesis. */
  function AfterAnalysis(t: Texts, question: string, analysis: Dict<string>, replies: seq<Reply<string>>)
    : ClientRun<string>
  {
    var selfQuery := SelfQueryCall(t, question, analysis);
    match Nth(replies, 0)
    case Err(e) => ClientRun([selfQuery], Err(e))
    case Ok(reply) =>
      var asked := AskEach(ReplyQueries(question, reply), Drop(replies, 1));
      var calls := [selfQuery] + asked.calls;
      match asked.result
      case Err(e) => ClientRun(calls, Err(e))
      case Ok(responses) =>
        ClientRun(calls + [SynthesisCall(t, question, responses, analysis)], Nth(replies, |calls|))
  }

  /** The steps after the analysis have the shape of `AskAround`. */
  lemma AfterAnalysisAround(t: Texts, question: string, analysis: Dict<string>, replies: seq<Reply<string>>)
    ensures AfterAnalysis(t, question, analysis, replies) ==
            AskAround(SelfQueryCall(t, question, analysis), reply => ReplyQueries(question, reply),
                      responses => SynthesisCall(t, question, responses, analysis), replies)
  {
  }

  /** `query(question)`. */
  function Run(t: Texts, question: string, replies: seq<Reply<string>>): ClientRun<string> {
    WithFallback(question, Attempt(t, question, replies), replies)
  }

  /** After the analysis, when nothing raises: the self-query request shows the analysis,
      then exactly one `client.query` per refined query, in order, then the synthesis of their
      replies, whose reply is the result. */
  lemma AfterAnalysisSucceeds(t: Texts, question: string, analysis: Dict<string>, replies: seq<Reply<string>>)
    requires AfterAnalysis(t, question, analysis, replies).result.Ok?
    ensures var run := AfterAnalysis(t, question, analysis, replies);
            var queries := ReplyQueries(question, Nth(replies, 0).value);
            var n := |queries|;
            && Nth(replies, 0).Ok?
            && |run.calls| == n + 2
            && run.calls[0] == SelfQueryCall(t, question, analysis)
            && (forall j :: 0 <= j < n ==> run.calls[j + 1] == AskBaseline(queries[j]) && Nth(replies, j + 1).Ok?)
            && run.calls[n + 1] == SynthesisCall(t, question, Answers(Drop(replies, 1), n), analysis)
            && run.result == Nth(replies, n + 1)
  {
    AfterAnalysisAround(t, question, analysis, replies);
    AskAroundSucceeds(SelfQueryCall(t, question, analysis), reply => ReplyQueries(question, reply),
                      responses => SynthesisCall(t, question, responses, analysis), replies);
  }

  /** When nothing raises, `query` first asks for the topic analysis, and everything after it
      works from that analysis; its result is the synthesis. */
  lemma RunSucceeds(t: Texts, question: string, replies: seq<Reply<string>>)
    requires Attempt(t, question, replies).result.Ok?
    ensures var run := Run(t, question, replies);
            var rest := AfterAnalysis(t, question, Analysis(Nth(replies, 0).value), Drop(replies, 1));
            && Nth(replies, 0).Ok?
            && run.calls == [IdentifyCall(t, question)] + rest.calls
            && rest.result.Ok?
            && run.result == rest.result
  {
  }

  /** When any step raises, `query` ends with one `client.query(question)` and answers with its
      reply. */
  lemma RunFallsBack(t: Texts, question: string, replies: seq<Reply<string>>)
    requires Attempt(t, question, replies).result.Err?
    ensures var attempt := Attempt(t, question, replies);
            var run := Run(t, question, replies);
            && attempt.calls != [] && attempt.calls[0] == IdentifyCall(t, question)
            && run.calls == attempt.calls + [AskBaseline(question)]
            && run.result == Nth(replies, |attempt.calls|)
  {
    var attempt := Attempt(t, question, replies);
    FallbackSpec(question, attempt, replies);
    match Nth(replies, 0)
    case Err(e) =>
      assert attempt.calls == [IdentifyCall(t, question)];
    case Ok(reply) =>
      var rest := AfterAnalysis(t, question, Analysis(reply), Drop(replies, 1));
      assert attempt.calls == [IdentifyCall(t, question)] + rest.calls;
  }

  /** `AdaptiveChunkingRAG`. */
  class AdaptiveChunkingRag {
    const client: Client
    const name: string
    const t: Texts

    /** The variant's texts are the fixed ones, `Fixed`. */
    constructor (client: Client)
      ensures this.client == client && name == Name && t == Fixed
    {
      this.client := client;
      name := Name;
      t := Fixed;
    }

    method IdentifyTopicStructure(question: string) returns (r: Reply<Dict<string>>)
      modifies client
      ensures client.log == old(client.log) + [IdentifyCall(t, question)]
      ensures client.script == Drop(old(client.script), 1)
      ensures match Nth(old(client.script), 0)
              case Ok(reply) => r == Ok(Analysis(reply))
              case Err(e) => r == Err(e)
    {
      var response := client.Call(IdentifyCall(t, question));
      match response
      case Err(e) => r := Err(e);
      case Ok(text) =>
        var analysis := ParseTopicStructure(text);
        r := Ok(analysis);
    }

    method GenerateSelfQueries(question: string, structure: Dict<string>) returns (r: Reply<seq<string>>)
      modifies client
      ensures client.log == old(client.log) + [SelfQueryCall(t, question, structure)]
      ensures client.script == Drop(old(client.script), 1)
      ensures match Nth(old(client.script), 0)
              case Ok(reply) => r == Ok(ReplyQueries(question, reply))
              case Err(e) => r == Err(e)
    {
      var user := TopicHead(question, StructureText(structure)) + t.selfQueryRequest;
      var response := client.Call(Completion(t.selfQuerySystem, user, SelfQueryTemperature, SelfQueryMaxTokens));
      match response
      case Err(e) => r := Err(e);
      case Ok(text) => r := Ok(NonBlankLines(text) + [question]);
    }

    method AdaptiveChunkSynthesis(question: string, responses: seq<string>, structure: Dict<string>)
      returns (r: Reply<string>)
      modifies client
      ensures client.log == old(client.log) + [SynthesisCall(t, question, responses, structure)]
      ensures client.script == Drop(old(client.script), 1)
      ensures r == Nth(old(client.script), 0)
    {
      var detail := Lower(Strip(Get(structure, DetailKey, "Moderate")));
      assert detail == DetailLevel(structure);
      var style := SynthesisStyle(detail);
      var system := t.synthesisOpening + style + t.synthesisClosing;
      var blocks := BuildBlocks(Source, responses);
      var user := TopicHead(question, StructureText(structure)) + blocks + SynthesisTail(t, detail);
      assert user == SynthesisUser(t, question, StructureText(structure), responses, detail);
      r := client.Call(Completion(system, user, SynthesisTemperature, SynthesisMaxTokens));
    }

    /** The chain of `if "brief" in detail_level` tests. */
    method SynthesisStyle(detail: string) returns (style: string)
      ensures style == StyleText(t, StyleOf(detail))
    {
      if Contains(detail, "brief") {
        style := t.concise;
      } else if Contains(detail, "comprehensive") {
        style := t.detailed;
      } else {
        style := t.balanced;
      }
    }

    /** The `try` block. */
    method TryQuery(question: string) returns (r: Reply<string>)
      modifies client
      ensures var run := Attempt(t, question, old(client.script));
              && r == run.result
              && client.log == old(client.log) + run.calls
              && client.script == Drop(old(client.script), |run.calls|)
    {
      ghost var script0, log0 := client.script, client.log;
      var structure := IdentifyTopicStructure(question);
      if structure.Err? {
        return Err(structure.error);
      }
      r := Refine(question, structure.value);
      ghost var rest := AfterAnalysis(t, question, structure.value, Drop(script0, 1));
      DropDrop(script0, 1, |rest.calls|);
      Appended(log0, [IdentifyCall(t, question)], rest.calls);
    }

    /** Steps 2 to 4 of the `try` block. */
    method Refine(question: string, structure: Dict<string>) returns (r: Reply<string>)
      modifies client
      ensures var run := AfterAnalysis(t, question, structure, old(client.script));
              && r == run.result
              && client.log == old(client.log) + run.calls
              && client.script == Drop(old(client.script), |run.calls|)
    {
      ghost var script0, log0 := client.script, client.log;
      var queries := GenerateSelfQueries(question, structure);
      if queries.Err? {
        return Err(queries.error);
      }
      var responses := QueryEach(client, queries.value);
      ghost var asked := AskEach(queries.value, Drop(script0, 1));
      DropDrop(script0, 1, |asked.calls|);
      Appended(log0, [SelfQueryCall(t, question, structure)], asked.calls);
      if responses.Err? {
        return Err(responses.error);
      }
      r := AdaptiveChunkSynthesis(question, responses.value, structure);
      DropDrop(script0, 1 + |asked.calls|, 1);
      Appended(log0, [SelfQueryCall(t, question, structure)] + asked.calls,
               [SynthesisCall(t, question, responses.value, structure)]);
    }

    method Query(question: string) returns (r: Reply<string>)
      modifies client
      ensures var run := Run(t, question, old(client.script));
              && r == run.result
              && client.log == old(client.log) + run.calls
              && client.script == Drop(old(client.script), |run.calls|)
    {
      ghost var script0, log0 := client.script, client.log;
      r := TryQuery(question);
      ghost var attempt := Attempt(t, question, script0);
      if r.Err? {
        r := client.Call(AskBaseline(question));
        DropDrop(script0, |attempt.calls|, 1);
        Appended(log0, attempt.calls, [AskBaseline(question)]);
      }
    }
  }
}
