/** The answering pipeline of rag/query_engine.py: retrieve passages, ask the language model
    whether they would enhance the answer, build the context (numbered extracts or a fixed
    sentence), fill the system-prompt template and generate; any exception on the way leads to
    exactly one context-free fallback generation. */
module QueryEngine {
  import opened Wrappers
  import opened PyStr
  import opened PyFormat
  import opened Oracles

  // ---------------------------------------------------------------------------
  // Fixed texts

  /** The fixed prompts of the engine: the default system-prompt template, the context used
      when the passages are not judged helpful, the fallback system prompt, and the two judge
      prompts around the query and the passages. */
  datatype Texts = Texts(defaultTemplate: string, noContext: string, fallbackSystem: string,
                         relevanceHead: string, relevanceTail: string, relevanceUser: string,
                         analysisHead: string, analysisTail: string, analysisUser: string)

  const NoDocuments: string := "No relevant documents found."

  /** The texts rag/query_engine.py writes out. */
  const Fixed: Texts := Texts(
    // defaultTemplate
    "You are a helpful assistant that provides informative answers about all topics, with special "
    + "expertise on NovaTech Dynamics' security policies. Always give a helpful response based on your "
    + "general knowledge. When information from NovaTech's security documents is relevant, incorporate "
    + "and highlight that specific information to enhance your answer.\n\n"
    + "If the provided document extracts contain relevant information, integrate it into your response "
    + "and clearly indicate where you're referencing NovaTech's specific policies by using phrases like "
    + "'According to NovaTech's security policy...' or 'NovaTech's documents specify that...'\n\n"
    + "Document information (if relevant):\n{context}\n\n"
    + "Question: {question}\n"
    + "Answer:",
    // noContext
    "No specific information about this topic was found in NovaTech's security policy documents.",
    // fallbackSystem
    "You are a helpful assistant. Please answer the following question based on your general knowledge.",
    // relevanceHead
    "Your task is to determine if the retrieved documents contain information that directly answers "
    + "a question about NovaTech Dynamics' security policies, procedures, or practices. "
    + "\n\n"
    + "Examples of RELEVANT queries (these would be relevant to security policy documents):\n"
    + "- What is NovaTech's password policy?\n"
    + "- How does NovaTech protect confidential data?\n"
    + "- What happens during employee termination at NovaTech?\n"
    + "- What are NovaTech's backup procedures?\n"
    + "\n"
    + "Examples of NOT_RELEVANT queries (these would NOT be relevant to security policy documents):\n"
    + "- Where is Poland located?\n"
    + "- What is the capital of France?\n"
    + "- How do I cook pasta?\n"
    + "- Who won the World Cup in 2022?\n"
    + "- What is a transformer in machine learning?\n"
    + "\n\n",
    // relevanceTail
    "First, analyze whether the query is asking specifically about NovaTech Dynamics' security policies, "
    + "procedures, or practices. Then check if the retrieved documents contain information that directly "
    + "addresses this query.\n\n"
    + "Respond with ONLY ONE WORD: either 'RELEVANT' or 'NOT_RELEVANT'.",
    // relevanceUser
    "Determine RELEVANT or NOT_RELEVANT based on the criteria above.",
    // analysisHead
    "Your task is to determine if the retrieved documents contain information that would meaningfully "
    + "enhance a response about NovaTech Dynamics' security policies.\n\n"
    + "SECURITY POLICY TOPICS (examples where documents WOULD enhance the response):\n"
    + "- Password requirements and management\n"
    + "- Data classification systems\n"
    + "- Access control procedures\n"
    + "- Security monitoring\n"
    + "- Incident response\n"
    + "- Employee termination processes\n"
    + "- Backup procedures\n"
    + "- Device security\n"
    + "- Physical security measures\n"
    + "- Security questions\n"
    + "- Security roles and contacts\n\n"
    + "NON-POLICY TOPICS (examples where documents would NOT enhance the response):\n"
    + "- General geography or locations\n"
    + "- General technology concepts (e.g., what are transformers)\n"
    + "- Topics unrelated to security\n"
    + "- General knowledge questions\n"
    + "- Questions about other companies\n\n",
    // analysisTail
    "First, determine if the query is asking about NovaTech's security policies or practices. "
    + "Second, examine if the document extracts contain specific, relevant information that addresses the query. "
    + "Third, decide if incorporating this document information would make the response more accurate and helpful.\n\n"
    + "Respond with one of these options:\n"
    + "ENHANCE - If the documents contain relevant information that would improve the response to this security policy question\n"
    + "NO_ENHANCEMENT - If the documents don't contain relevant information or if the query isn't about security policies",
    // analysisUser
    "Analyze whether these documents would enhance a response about NovaTech's security policies.")

  // ---------------------------------------------------------------------------
  // Formatting the passages

  /** The block for the `i`-th passage (from 0): numbered from 1, content stripped. */
  function Extract(i: nat, d: Document): string {
    "Extract " + NatToString(i + 1) + ":\n" + Strip(d.pageContent)
  }

  function Extracts(docs: seq<Document>): (r: seq<string>)
    ensures |r| == |docs|
    ensures forall i :: 0 <= i < |docs| ==> r[i] == Extract(i, docs[i])
  {
    seq(|docs|, i requires 0 <= i < |docs| => Extract(i, docs[i]))
  }

  /** What `format_documents` returns. */
  function FormattedDocuments(docs: seq<Document>): string {
    if docs == [] then NoDocuments else Join("\n\n", Extracts(docs))
  }

  /** One more passage adds one blank-line-separated block at the end, numbered after the rest. */
  lemma FormattedDocumentsSnoc(docs: seq<Document>, d: Document)
    requires docs != []
    ensures FormattedDocuments(docs + [d]) == FormattedDocuments(docs) + "\n\n" + Extract(|docs|, d)
  {
    assert Extracts(docs + [d]) == Extracts(docs) + [Extract(|docs|, d)];
    JoinSnoc("\n\n", Extracts(docs), Extract(|docs|, d));
  }

  /** The formatted text holds the stripped content of every passage. */
  lemma FormattedDocumentsHoldPassages(docs: seq<Document>, k: nat)
    requires k < |docs|
    ensures Contains(FormattedDocuments(docs), Strip(docs[k].pageContent))
  {
    var block := Extract(k, docs[k]);
    var heading := "Extract " + NatToString(k + 1) + ":\n";
    ContainsConcat(heading, Strip(docs[k].pageContent), "");
    assert heading + Strip(docs[k].pageContent) + "" == block;
    JoinContainsPart("\n\n", Extracts(docs), k);
    ContainsTransitive(FormattedDocuments(docs), block, Strip(docs[k].pageContent));
  }

  // ---------------------------------------------------------------------------
  // Parsing the judge's verdicts

  /** `positive in reply.upper() and negative not in reply.upper()`. */
  predicate LabelVerdict(reply: string, positive: string, negative: string) {
    Contains(Upper(reply), positive) && !Contains(Upper(reply), negative)
  }

  predicate IsEnhance(analysis: string) {
    LabelVerdict(analysis, "ENHANCE", "NO_ENHANCEMENT")
  }

  predicate IsRelevant(reply: string) {
    LabelVerdict(reply, "RELEVANT", "NOT_RELEVANT")
  }

  /** The verdicts ignore letter case. */
  lemma VerdictIgnoresCase(reply: string, positive: string, negative: string)
    ensures LabelVerdict(Lower(reply), positive, negative) == LabelVerdict(reply, positive, negative)
    ensures LabelVerdict(Upper(reply), positive, negative) == LabelVerdict(reply, positive, negative)
  {
    assert Upper(Lower(reply)) == Upper(reply);
    UpperIdempotent(reply);
  }

  lemma NegativeEnhanceHoldsPositive()
    ensures Contains("NO_ENHANCEMENT", "ENHANCE")
  {
    assert OccursAt("NO_ENHANCEMENT", "ENHANCE", 3);
  }

  lemma NegativeRelevantHoldsPositive()
    ensures Contains("NOT_RELEVANT", "RELEVANT")
  {
    assert OccursAt("NOT_RELEVANT", "RELEVANT", 4);
  }

  /** A reply carrying the negative label always carries the positive one too, so the
      positive test alone would accept it; the second test is what rejects it. */
  lemma NegativeLabelWins(analysis: string)
    requires Contains(Upper(analysis), "NO_ENHANCEMENT")
    ensures Contains(Upper(analysis), "ENHANCE") && !IsEnhance(analysis)
  {
    NegativeEnhanceHoldsPositive();
    ContainsTransitive(Upper(analysis), "NO_ENHANCEMENT", "ENHANCE");
  }

  lemma NegativeRelevanceWins(reply: string)
    requires Contains(Upper(reply), "NOT_RELEVANT")
    ensures Contains(Upper(reply), "RELEVANT") && !IsRelevant(reply)
  {
    NegativeRelevantHoldsPositive();
    ContainsTransitive(Upper(reply), "NOT_RELEVANT", "RELEVANT");
  }

  /** A reply that is an assessment label on its own, in either case, is read as that label. */
  lemma BareEnhanceLabels()
    ensures IsEnhance("ENHANCE") && IsEnhance("enhance")
    ensures !IsEnhance("NO_ENHANCEMENT") && !IsEnhance("no_enhancement")
  {
    UpperOfUpper("ENHANCE");
    assert Upper("enhance") == "ENHANCE";
    assert OccursAt("ENHANCE", "ENHANCE", 0);
    assert !Contains("ENHANCE", "NO_ENHANCEMENT");
    UpperOfUpper("NO_ENHANCEMENT");
    assert Upper("no_enhancement") == "NO_ENHANCEMENT";
    assert OccursAt("NO_ENHANCEMENT", "NO_ENHANCEMENT", 0);
    NegativeLabelWins("NO_ENHANCEMENT");
    NegativeLabelWins("no_enhancement");
  }

  /** The same for the relevance labels. */
  lemma BareRelevanceLabels()
    ensures IsRelevant("RELEVANT") && IsRelevant("relevant")
    ensures !IsRelevant("NOT_RELEVANT") && !IsRelevant("not_relevant")
  {
    UpperOfUpper("RELEVANT");
    assert Upper("relevant") == "RELEVANT";
    assert OccursAt("RELEVANT", "RELEVANT", 0);
    assert !Contains("RELEVANT", "NOT_RELEVANT");
    UpperOfUpper("NOT_RELEVANT");
    assert Upper("not_relevant") == "NOT_RELEVANT";
    assert OccursAt("NOT_RELEVANT", "NOT_RELEVANT", 0);
    NegativeRelevanceWins("NOT_RELEVANT");
    NegativeRelevanceWins("not_relevant");
  }

  /** The tests are substring tests: a reply "IRRELEVANT" holds "RELEVANT" but not
      "NOT_RELEVANT", so it is read as relevant. */
  lemma IrrelevantReadAsRelevant()
    ensures IsRelevant("IRRELEVANT")
  {
    UpperOfUpper("IRRELEVANT");
    assert OccursAt("IRRELEVANT", "RELEVANT", 2);
    assert !Contains("IRRELEVANT", "NOT_RELEVANT");
  }

  // ---------------------------------------------------------------------------
  // The prompts

  /** The relevance prompt up to the documents line, and after it. */
  function RelevancePre(t: Texts, queryText: string): string {
    t.relevanceHead + "Query: " + queryText + "\n\n" + "Retrieved documents:\n"
  }

  function RelevancePost(t: Texts): string {
    "\n\n" + t.relevanceTail
  }

  /** The relevance prompt as written: the documents line is a plain string, so it carries the
      literal text `{context}` and the formatted passages never reach the model. */
  function RelevanceSystemAsWritten(t: Texts, queryText: string, context: string): string {
    RelevancePre(t, queryText) + "{context}" + RelevancePost(t)
  }

  /** The relevance prompt with the documents line interpolated, as the surrounding f-strings
      intend. */
  function RelevanceSystem(t: Texts, queryText: string, context: string): string {
    RelevancePre(t, queryText) + context + RelevancePost(t)
  }

  /** As written, the prompt is the same whatever the passages are, and it shows the
      placeholder instead of them. */
  lemma RelevancePromptIgnoresPassages(t: Texts, queryText: string, c1: string, c2: string)
    ensures RelevanceSystemAsWritten(t, queryText, c1) == RelevanceSystemAsWritten(t, queryText, c2)
    ensures Contains(RelevanceSystemAsWritten(t, queryText, c1), "{context}")
  {
    ContainsConcat(RelevancePre(t, queryText), "{context}", RelevancePost(t));
  }

  /** With the interpolation in place the prompt shows the passages. */
  lemma RelevancePromptShowsPassages(t: Texts, queryText: string, context: string)
    ensures Contains(RelevanceSystem(t, queryText, context), context)
  {
    ContainsConcat(RelevancePre(t, queryText), context, RelevancePost(t));
  }

  /** The judge call `check_relevance` makes, with the prompt as written. */
  function RelevancePrompt(t: Texts, queryText: string, context: string): Prompt {
    Prompt(RelevanceSystemAsWritten(t, queryText, context), t.relevanceUser, Some(0.1), Some(10))
  }

  function AnalysisSystem(t: Texts, queryText: string, docsText: string): string {
    t.analysisHead + "Query: " + queryText + "\n\n" + "Document Extracts:\n" + docsText + "\n\n" + t.analysisTail
  }

  function AssessmentPrompt(t: Texts, queryText: string, docsText: string): Prompt {
    Prompt(AnalysisSystem(t, queryText, docsText), t.analysisUser, Some(0.2), Some(50))
  }

  /** The main generation: the filled template, the question itself, temperature 0.7 and the
      service's default token budget. */
  function MainPrompt(system: string, queryText: string): Prompt {
    Prompt(system, queryText, Some(0.7), None)
  }

  /** The fallback generation: fixed prompt, the question, all service defaults. */
  function FallbackPrompt(t: Texts, queryText: string): Prompt {
    Prompt(t.fallbackSystem, queryText, None, None)
  }

  function Fields(context: string, queryText: string): map<string, string> {
    map["context" := context, "question" := queryText]
  }

  /** The three kinds of call are told apart by their temperature. */
  lemma PromptsAreDistinct(t: Texts, q: string, q2: string, s: string, d: string)
    ensures AssessmentPrompt(t, q, d) != MainPrompt(s, q2)
    ensures AssessmentPrompt(t, q, d) != FallbackPrompt(t, q2)
    ensures MainPrompt(s, q) != FallbackPrompt(t, q2)
  {
  }

  // ---------------------------------------------------------------------------
  // The context choice and the whole `query`, as data

  /** Line 213: the passages are used when the judge says they enhance the answer and there
      are any. */
  function ChooseContext(t: Texts, enhance: bool, relevantDocs: seq<Document>): string {
    if enhance && relevantDocs != [] then FormattedDocuments(relevantDocs) else t.noContext
  }

  /** The calls a run made to the language model, in order, and what it returned or raised. */
  datatype EngineRun = EngineRun(prompts: seq<Prompt>, answer: Reply<string>)

  /** Fill the template and make the main call, after the calls in `before`. */
  function Generate(template: string, queryText: string, context: string,
                    replies: seq<Reply<string>>, before: seq<Prompt>): EngineRun
  {
    match Format(template, Fields(context, queryText))
    case Err(e) => EngineRun(before, Err(e))
    case Ok(system) => EngineRun(before + [MainPrompt(system, queryText)], Nth(replies, |before|))
  }

  /** The `try` block of `query`, given what retrieval returned and how the model replies. */
  function Attempt(t: Texts, template: string, queryText: string, retrieved: Reply<seq<Document>>,
                   replies: seq<Reply<string>>): EngineRun
  {
    match retrieved
    case Err(e) => EngineRun([], Err(e))
    case Ok(docs) =>
      if docs == [] then Generate(template, queryText, ChooseContext(t, false, []), replies, [])
      else
        var assessment := AssessmentPrompt(t, queryText, FormattedDocuments(docs));
        match Nth(replies, 0)
        case Err(e) => EngineRun([assessment], Err(e))
        case Ok(analysis) => Generate(template, queryText, ChooseContext(t, IsEnhance(analysis), docs), replies, [assessment])
  }

  /** `query`: the attempt, and when it raised, one fallback call whose outcome is final. */
  function QueryRun(t: Texts, template: string, queryText: string, retrieved: Reply<seq<Document>>,
                    replies: seq<Reply<string>>): EngineRun
  {
    var attempt := Attempt(t, template, queryText, retrieved, replies);
    if attempt.answer.Ok? then attempt
    else EngineRun(attempt.prompts + [FallbackPrompt(t, queryText)], Nth(replies, |attempt.prompts|))
  }

  /** The main call comes after the calls before it, and only when the template formats;
      its reply is the answer. */
  lemma GenerateShape(template: string, queryText: string, context: string,
                      replies: seq<Reply<string>>, before: seq<Prompt>)
    ensures var g := Generate(template, queryText, context, replies, before);
            && |before| <= |g.prompts| <= |before| + 1
            && (g.answer.Ok? ==> |g.prompts| == |before| + 1 && g.answer == Nth(replies, |before|))
  {
  }

  /** Every run makes one to three calls and returns (or raises) exactly what the last call
      returned (or raised): the answer is passed on verbatim. */
  lemma QueryAnswersWithLastCall(t: Texts, template: string, queryText: string, retrieved: Reply<seq<Document>>,
                                 replies: seq<Reply<string>>)
    ensures var run := QueryRun(t, template, queryText, retrieved, replies);
            1 <= |run.prompts| <= 3 && run.answer == Nth(replies, |run.prompts| - 1)
  {
    var attempt := Attempt(t, template, queryText, retrieved, replies);
    assert |attempt.prompts| <= 2 && (attempt.answer.Ok? ==>
             1 <= |attempt.prompts| && attempt.answer == Nth(replies, |attempt.prompts| - 1)) by {
      match retrieved
      case Err(_) =>
      case Ok(docs) =>
        if docs == [] {
          GenerateShape(template, queryText, ChooseContext(t, false, []), replies, []);
        } else {
          match Nth(replies, 0)
          case Err(_) =>
          case Ok(analysis) =>
            GenerateShape(template, queryText, ChooseContext(t, IsEnhance(analysis), docs), replies,
                          [AssessmentPrompt(t, queryText, FormattedDocuments(docs))]);
        }
    }
  }

  /** The fallback is made exactly when the attempt raised, it is the last call, and no other
      call is a fallback. */
  lemma QueryFallsBackOnce(t: Texts, template: string, queryText: string, retrieved: Reply<seq<Document>>,
                           replies: seq<Reply<string>>)
    ensures var run := QueryRun(t, template, queryText, retrieved, replies);
            var attempt := Attempt(t, template, queryText, retrieved, replies);
            && (run.prompts[|run.prompts| - 1] == FallbackPrompt(t, queryText) <==> attempt.answer.Err?)
            && (forall k :: 0 <= k < |run.prompts| - 1 ==> run.prompts[k] != FallbackPrompt(t, queryText))
  {
  }

  /** What makes the attempt raise: a retrieval failure, a failed assessment call (it is not
      guarded), a template that does not format, or a failed main call. */
  lemma QueryFallbackCauses(t: Texts, template: string, queryText: string, retrieved: Reply<seq<Document>>,
                            replies: seq<Reply<string>>)
    ensures Attempt(t, template, queryText, retrieved, replies).answer.Err? <==>
      || retrieved.Err?
      || (retrieved.value != [] && Nth(replies, 0).Err?)
      || Format(template, Fields(ChooseContext(t, retrieved.value != [] && IsEnhance(Nth(replies, 0).value),
                                               retrieved.value), queryText)).Err?
      || Nth(replies, if retrieved.value == [] then 0 else 1).Err?
  {
  }

  /** Nothing retrieved: no assessment call. The first call is the main one, stating that
      nothing was found, and the only other call possible is the fallback. */
  lemma QueryWithoutPassages(t: Texts, template: string, queryText: string, replies: seq<Reply<string>>)
    requires Format(template, Fields(t.noContext, queryText)).Ok?
    ensures var run := QueryRun(t, template, queryText, Ok([]), replies);
            && run.prompts[0] == MainPrompt(Format(template, Fields(t.noContext, queryText)).value, queryText)
            && |run.prompts| <= 2
            && (|run.prompts| == 2 ==> run.prompts[1] == FallbackPrompt(t, queryText))
  {
  }

  /** Passages retrieved: the first call is the assessment over the formatted passages. */
  lemma QueryAssessesFirst(t: Texts, template: string, queryText: string, docs: seq<Document>,
                           replies: seq<Reply<string>>)
    requires docs != []
    ensures QueryRun(t, template, queryText, Ok(docs), replies).prompts[0]
         == AssessmentPrompt(t, queryText, FormattedDocuments(docs))
  {
    var attempt := Attempt(t, template, queryText, Ok(docs), replies);
    assert attempt.prompts[0] == AssessmentPrompt(t, queryText, FormattedDocuments(docs));
  }

  /** Passages retrieved and the assessment answered: the main call's system prompt is the
      template filled with the passages if the verdict is to enhance, and with the fixed
      sentence otherwise. */
  lemma QueryWithPassages(t: Texts, template: string, queryText: string, docs: seq<Document>,
                          replies: seq<Reply<string>>)
    requires docs != [] && Nth(replies, 0).Ok?
    ensures var context := if IsEnhance(Nth(replies, 0).value) then FormattedDocuments(docs) else t.noContext;
            Format(template, Fields(context, queryText)).Ok? ==>
              QueryRun(t, template, queryText, Ok(docs), replies).prompts[1]
              == MainPrompt(Format(template, Fields(context, queryText)).value, queryText)
  {
    var context := ChooseContext(t, IsEnhance(Nth(replies, 0).value), docs);
    var attempt := Attempt(t, template, queryText, Ok(docs), replies);
    assert attempt == Generate(template, queryText, context, replies, [AssessmentPrompt(t, queryText, FormattedDocuments(docs))]);
  }

  /** A template whose only braces are one `{context}` and one `{question}` field never makes
      the attempt raise on its own, and the main prompt is the template with the context and the
      question put in their places. */
  lemma QueryFillsTemplate(a: string, b: string, c: string, queryText: string, context: string)
    requires BraceFree(a) && BraceFree(b) && BraceFree(c)
    ensures Format(a + "{context}" + b + "{question}" + c, Fields(context, queryText))
         == Ok(a + context + b + queryText + c)
  {
    FormatTwoFields(a, b, c, context, queryText);
  }

  // ---------------------------------------------------------------------------
  // The engine

  /** `system_prompt_template or default`. */
  function TemplateOrDefault(t: Texts, template: Option<string>): (r: string)
    ensures template.Some? && template.value != "" ==> r == template.value
    ensures template.None? || template.value == "" ==> r == t.defaultTemplate
  {
    match template
    case Some(given) => if given != "" then given else t.defaultTemplate
    case None => t.defaultTemplate
  }

  class RAGQueryEngine {
    const retriever: Retriever
    const llm: Llm
    const t: Texts
    const template: string

    /** The engine's prompts are the module's fixed ones, `Fixed`. */
    constructor (retriever: Retriever, llm: Llm, systemPromptTemplate: Option<string>)
      ensures this.retriever == retriever && this.llm == llm && t == Fixed
      ensures template == TemplateOrDefault(Fixed, systemPromptTemplate)
    {
      this.retriever := retriever;
      this.llm := llm;
      t := Fixed;
      template := TemplateOrDefault(Fixed, systemPromptTemplate);
    }

    method FormatDocuments(documents: seq<Document>) returns (text: string)
      ensures text == FormattedDocuments(documents)
    {
      if documents == [] {
        return NoDocuments;
      }
      var formatted: seq<string> := [];
      for i := 0 to |documents|
        invariant formatted == Extracts(documents[..i])
      {
        assert documents[..i + 1] == documents[..i] + [documents[i]];
        formatted := formatted + [Extract(i, documents[i])];
      }
      assert documents[..|documents|] == documents;
      text := Join("\n\n", formatted);
    }

    /** `check_relevance`: one judge call whose prompt, as written, carries the placeholder
        `{context}` and is the same as for no passages at all; any exception means "not
        relevant". */
    method CheckRelevance(queryText: string, retrievedDocs: seq<Document>) returns (relevant: bool)
      modifies llm
      ensures llm.log == old(llm.log) + [RelevancePrompt(t, queryText, FormattedDocuments(retrievedDocs))]
      ensures RelevancePrompt(t, queryText, FormattedDocuments(retrievedDocs)) == RelevancePrompt(t, queryText, FormattedDocuments([]))
      ensures Contains(llm.log[|llm.log| - 1].system, "{context}")
      ensures llm.script == Drop(old(llm.script), 1)
      ensures relevant <==> Nth(old(llm.script), 0).Ok? && IsRelevant(Nth(old(llm.script), 0).value)
    {
      var context := FormatDocuments(retrievedDocs);
      var response := llm.Call(RelevancePrompt(t, queryText, context));
      relevant := response.Ok? && IsRelevant(response.value);
      RelevancePromptIgnoresPassages(t, queryText, context, FormattedDocuments([]));
    }

    /** `assess_document_relevance`: no call at all for no passages; otherwise one judge call,
        whose failure propagates, and the passages are handed back unchanged. */
    method AssessDocumentRelevance(queryText: string, retrievedDocs: seq<Document>)
      returns (r: Reply<(bool, seq<Document>)>)
      modifies llm
      ensures retrievedDocs == [] ==> r == Ok((false, [])) && llm.log == old(llm.log) && llm.script == old(llm.script)
      ensures retrievedDocs != [] ==>
        && llm.log == old(llm.log) + [AssessmentPrompt(t, queryText, FormattedDocuments(retrievedDocs))]
        && llm.script == Drop(old(llm.script), 1)
        && r == match Nth(old(llm.script), 0)
                case Ok(analysis) => Ok((IsEnhance(analysis), retrievedDocs))
                case Err(e) => Err(e)
    {
      if retrievedDocs == [] {
        return Ok((false, []));
      }
      var docsText := FormatDocuments(retrievedDocs);
      var analysis := llm.Call(AssessmentPrompt(t, queryText, docsText));
      match analysis
      case Ok(a) => r := Ok((IsEnhance(a), retrievedDocs));
      case Err(e) => r := Err(e);
    }

    /** The `try` block of `query`: one retrieval of the default size, the assessment, the
        context choice, the template and the main call, as `Attempt` describes them. */
    method TryAnswer(queryText: string) returns (answer: Reply<string>)
      modifies retriever, llm
      ensures var run := Attempt(t, template, queryText, Nth(old(retriever.script), 0), old(llm.script));
              && answer == run.answer
              && llm.log == old(llm.log) + run.prompts
              && llm.script == Drop(old(llm.script), |run.prompts|)
      ensures retriever.log == old(retriever.log) + [Retrieval(queryText, DefaultK)]
      ensures retriever.script == Drop(old(retriever.script), 1)
    {
      var retrieved := retriever.Call(Retrieval(queryText, DefaultK));
      if retrieved.Err? {
        assert llm.script == Drop(llm.script, 0);
        return Err(retrieved.error);
      }
      var assessed := AssessDocumentRelevance(queryText, retrieved.value);
      if assessed.Err? {
        return Err(assessed.error);
      }
      var (canEnhance, relevantDocs) := assessed.value;
      var context;
      if canEnhance && relevantDocs != [] {
        context := FormatDocuments(relevantDocs);
      } else {
        context := t.noContext;
      }
      var prompt := Format(template, Fields(context, queryText));
      if prompt.Err? {
        return Err(prompt.error);
      }
      ghost var script0, asked := old(llm.script), if relevantDocs == [] then 0 else 1;
      answer := llm.Call(MainPrompt(prompt.value, queryText));
      DropDrop(script0, asked, 1);
    }

    /** `query`: the run described by `QueryRun`; when the attempt raised, exactly one
        context-free fallback call, whose outcome (answer or exception) is final. */
    method Query(queryText: string) returns (answer: Reply<string>)
      modifies retriever, llm
      ensures var run := QueryRun(t, template, queryText, Nth(old(retriever.script), 0), old(llm.script));
              && answer == run.answer
              && llm.log == old(llm.log) + run.prompts
              && llm.script == Drop(old(llm.script), |run.prompts|)
      ensures retriever.log == old(retriever.log) + [Retrieval(queryText, DefaultK)]
      ensures retriever.script == Drop(old(retriever.script), 1)
    {
      ghost var script0 := llm.script;
      ghost var attempt := Attempt(t, template, queryText, Nth(retriever.script, 0), script0);
      answer := TryAnswer(queryText);
      if answer.Err? {
        answer := llm.Call(FallbackPrompt(t, queryText));
        DropDrop(script0, |attempt.prompts|, 1);
      }
    }
  }

  // ---------------------------------------------------------------------------
  // The factory

  /** The only keyword argument `RAGQueryEngine.__init__` takes besides its collaborators. */
  const TemplateKeyword: string := "system_prompt_template"

  /** The first keyword argument the constructor does not take, if any. */
  function UnexpectedKeyword(kwargs: seq<(string, Option<string>)>): (r: Option<string>)
    ensures r.None? <==> forall i :: 0 <= i < |kwargs| ==> kwargs[i].0 == TemplateKeyword
    ensures r.Some? ==> exists i :: 0 <= i < |kwargs| && kwargs[i].0 == r.value && r.value != TemplateKeyword
  {
    if kwargs == [] then None
    else if kwargs[0].0 != TemplateKeyword then Some(kwargs[0].0)
    else UnexpectedKeyword(kwargs[1..])
  }

  /** The template passed by keyword (the last binding wins; Python allows only one). */
  function TemplateArgument(kwargs: seq<(string, Option<string>)>): Option<string> {
    if kwargs == [] then None
    else if kwargs[|kwargs| - 1].0 == TemplateKeyword then kwargs[|kwargs| - 1].1
    else TemplateArgument(kwargs[..|kwargs| - 1])
  }

  /** `QueryEngineFactory.get_query_engine`: the template of the engine it builds, or the
      exception it raises. */
  function FactoryOutcome(t: Texts, engineType: string, hasRetriever: bool, hasLlm: bool,
                          kwargs: seq<(string, Option<string>)>): Result<string, Exc>
  {
    if engineType == "rag" then
      if !hasRetriever || !hasLlm then
        Err(ValueError("Retriever and LLM service are required for RAG query engine"))
      else match UnexpectedKeyword(kwargs)
        case Some(k) => Err(TypeError("RAGQueryEngine.__init__() got an unexpected keyword argument '" + k + "'"))
        case None => Ok(TemplateOrDefault(t, TemplateArgument(kwargs)))
    else Err(ValueError("Unsupported query engine type: " + engineType))
  }

  /** `get_query_engine`: a `ValueError` passes through, any other exception becomes one. */
  function GetQueryEngineOutcome(t: Texts, engineType: string, hasRetriever: bool, hasLlm: bool,
                                 kwargs: seq<(string, Option<string>)>): Result<string, Exc>
  {
    match FactoryOutcome(t, engineType, hasRetriever, hasLlm, kwargs)
    case Err(ValueError(m)) => Err(ValueError(m))
    case Err(other) => Err(ValueError("Failed to get query engine: " + other.message))
    case Ok(t) => Ok(t)
  }

  /** An engine is built exactly for "rag" with both collaborators and no keyword other than
      the template; everything else raises `ValueError`. */
  lemma GetQueryEngineRules(t: Texts, engineType: string, hasRetriever: bool, hasLlm: bool,
                            kwargs: seq<(string, Option<string>)>)
    ensures var r := GetQueryEngineOutcome(t, engineType, hasRetriever, hasLlm, kwargs);
            && (r.Ok? <==> engineType == "rag" && hasRetriever && hasLlm
                           && forall i :: 0 <= i < |kwargs| ==> kwargs[i].0 == TemplateKeyword)
            && (r.Err? ==> r.error.ValueError?)
  {
  }

  /** The messages of the two `ValueError`s the factory raises itself. */
  lemma GetQueryEngineMessages(t: Texts, engineType: string, hasRetriever: bool, hasLlm: bool,
                               kwargs: seq<(string, Option<string>)>)
    ensures var r := GetQueryEngineOutcome(t, engineType, hasRetriever, hasLlm, kwargs);
            && (engineType != "rag" ==> r == Err(ValueError("Unsupported query engine type: " + engineType)))
            && (engineType == "rag" && !(hasRetriever && hasLlm) ==>
                  r == Err(ValueError("Retriever and LLM service are required for RAG query engine")))
  {
  }

  /** The built engine uses the given template unless it is absent or empty. */
  lemma GetQueryEngineTemplate(t: Texts, engineType: string, hasRetriever: bool, hasLlm: bool, template: string)
    requires engineType == "rag" && hasRetriever && hasLlm
    ensures GetQueryEngineOutcome(t, engineType, hasRetriever, hasLlm, [(TemplateKeyword, Some(template))])
         == Ok(if template == "" then t.defaultTemplate else template)
    ensures GetQueryEngineOutcome(t, engineType, hasRetriever, hasLlm, []) == Ok(t.defaultTemplate)
  {
  }

  /** `get_query_engine` as a constructor call. */
  method GetQueryEngine(engineType: string, retriever: Option<Retriever>, llm: Option<Llm>,
                        kwargs: seq<(string, Option<string>)>)
    returns (r: Result<RAGQueryEngine, Exc>)
    ensures var outcome := GetQueryEngineOutcome(Fixed, engineType, retriever.Some?, llm.Some?, kwargs);
            && (r.Ok? <==> outcome.Ok?)
            && (r.Err? ==> r == Err(outcome.error))
            && (r.Ok? ==> r.value.retriever == retriever.value && r.value.llm == llm.value
                          && r.value.t == Fixed && r.value.template == outcome.value && fresh(r.value))
  {
    var outcome := GetQueryEngineOutcome(Fixed, engineType, retriever.Some?, llm.Some?, kwargs);
    if outcome.Err? {
      return Err(outcome.error);
    }
    var engine := new RAGQueryEngine(retriever.value, llm.value, TemplateArgument(kwargs));
    r := Ok(engine);
  }
}
