# A verified model of the NovaTech RAG service and its comparison tooling

This project models, in Dafny, the decision logic of a retrieval-augmented question-answering
service for company security policies, and the tooling that compares seven answering variants
of it.

- **The answering engine** (`QueryEngine`): retrieve passages, ask a judge whether they
  would improve the answer, read the verdict, choose the context, fill the prompt template
  and generate. Any failure in those steps leads to exactly one generation without context.
  The module also models the factory that builds the engine.
- **Evaluation** (`Discriminator`, `Metrics`): the judge that scores one response and ranks
  several, and the six scored metrics with their average.
- **Comparison** (`ComparisonEngine`, `Report`): asking every variant, building the result
  rows, the benchmark over many questions, and the comparison report text.
- **Answering variants** (`QueryExpansion`, `HybridSearch`, `AdaptiveChunking`, `FewShot`,
  with the shared shapes in `Variants` and `Numbered`): each variant's calls, its reply
  parsers and its fall-back to the baseline service.
- **The benchmark stepper of the comparison app** (`BenchmarkApp`): a two-phase state machine
  that advances one step per run of the script.
- **The HTTP API** (`Routes`, `ErrorHandler`): the guard order of `POST /query` and
  `POST /config`, and how errors become status codes.
- **Document loading** (`DocumentLoader`): choosing a loader by suffix, and how exceptions are
  translated.

## How the model is built

Every external service is a scripted oracle, `Oracles.Oracle<C, R>`. This covers the
text-generation service, the retriever, the HTTP client of the tooling and the variant runner.
The benchmark stepper of the app sees the comparison engine as two more oracles:
`BenchmarkApp.VariantsEngine` for `query_all_variants` and `BenchmarkApp.Evaluator` for the
metrics of `evaluate_response`.
The oracle holds a queue of replies (`Ok(value)` or `Err(message)`) and a log of the calls made
to it. A Python exception raised by a call is an `Err` reply.

Each stateful operation is a `method` over these oracles. Its `ensures` ties the returned
value, the new log and the rest of the queue to a pure run function of the scripted replies,
such as `QueryEngine.QueryRun` or `Metrics.SummaryRun`. The lemmas prove the properties about
those run functions.

A Python `dict` is modelled as `Dict<V>`, an insertion-ordered sequence of key/value pairs
(`Scoring.Get`, `Scoring.Put`). Python strings are `seq<char>`. `PyStr` models `strip`,
`split`, `upper`/`lower`, `capitalize`, `in` and `join`. `PyFormat` models
`str.format` with named fields.

The long fixed texts are held in `Texts` values, `Fixed` in each module, which the
constructors store in a field, as the source's constructors set their prompts. These texts are
the prompts, the default template, the no-context sentence and the few-shot examples. The
operations are stated over the field, so their proofs never look inside the texts.

The model follows the code where the code and its documentation differ:

- the engine does not reject an empty question;
- a retrieval failure or an assessment-call failure leads to the context-free fallback, not
  to "no passages";
- the relevance check shows the judge the literal text `{context}`, not the passages;
- the ranking of a comparison, and of the report built on it, is the response names in their
  own order, whatever the judge ranks, and a mixed-case `Final Ranking:` heading raises
  `IndexError`; the corrected ranking is modelled only beside it, under "Findings";
- a benchmark of no questions raises the `ValueError` of `pd.concat`.

## Model

| member | source | states |
|---|---|---|
| QueryEngine.QueryRun | rag/query_engine.py:193-243 | the run of `query`: the `try` attempt (retrieval, the assessment call when there are passages, the template, the main call), and when it raised, one fallback call whose reply or exception is the outcome |
| QueryEngine.Extracts | rag/query_engine.py:75-78 | one `Extract i:` block per passage, numbered from 1 in input order, each holding the stripped passage text |
| QueryEngine.FormattedDocumentsSnoc | rag/query_engine.py:74-80 | one more passage appends a `"\n\n"` separator and that passage's block, so the blocks are the `"\n\n"`-join in input order |
| QueryEngine.FormattedDocumentsHoldPassages | rag/query_engine.py:74-80 | every passage's stripped text appears in the formatted context |
| QueryEngine.RAGQueryEngine.FormatDocuments | rag/query_engine.py:61-80 | the loop gives `"No relevant documents found."` for no passages and the joined numbered blocks otherwise |
| QueryEngine.VerdictIgnoresCase | rag/query_engine.py:125-188 | both verdicts depend only on the upper-cased reply: lower- or upper-casing the reply first changes nothing |
| QueryEngine.NegativeEnhanceHoldsPositive | rag/query_engine.py:188 | the negative label `NO_ENHANCEMENT` contains the positive label `ENHANCE` |
| QueryEngine.NegativeRelevantHoldsPositive | rag/query_engine.py:125 | `NOT_RELEVANT` contains `RELEVANT` |
| QueryEngine.NegativeLabelWins | rag/query_engine.py:188 | a reply holding `NO_ENHANCEMENT` in any case is not an enhance verdict, though it holds `ENHANCE` |
| QueryEngine.NegativeRelevanceWins | rag/query_engine.py:125 | a reply holding `NOT_RELEVANT` is not relevant, though it holds `RELEVANT` |
| QueryEngine.BareEnhanceLabels | rag/query_engine.py:188 | the bare labels in either case: `ENHANCE` is read as enhance and `NO_ENHANCEMENT` is not |
| QueryEngine.BareRelevanceLabels | rag/query_engine.py:125 | `RELEVANT` is read as relevant and `NOT_RELEVANT` is not, in either case |
| QueryEngine.IrrelevantReadAsRelevant | rag/query_engine.py:125 | the substring test reads the reply `IRRELEVANT` as relevant |
| QueryEngine.RelevancePromptIgnoresPassages | rag/query_engine.py:91-114 | as written, the relevance prompt is the same whatever the passages are, and it carries the literal text `{context}` |
| QueryEngine.RelevancePromptShowsPassages | rag/query_engine.py:91-114 | with the field interpolated, the relevance prompt shows the formatted passages |
| QueryEngine.RAGQueryEngine.CheckRelevance | rag/query_engine.py:82-132 | one judge call with the relevance prompt as written, which holds the literal `{context}` and is the same for any passages; the result is true iff the call answered and its reply is read as relevant, and a failed call gives false |
| QueryEngine.RAGQueryEngine.AssessDocumentRelevance | rag/query_engine.py:134-191 | no passages: `(false, [])` and no call at all; otherwise one assessment call, whose reply gives the enhance verdict with the passages returned unchanged, and whose failure propagates |
| QueryEngine.PromptsAreDistinct | rag/query_engine.py:117-242 | the assessment, main and fallback calls can always be told apart in the call log |
| QueryEngine.GenerateShape | rag/query_engine.py:221-231 | the main generation makes at most one call, and a successful answer is that call's reply |
| QueryEngine.QueryAnswersWithLastCall | rag/query_engine.py:203-243 | a query makes one to three judge/generation calls, and its answer or exception is always the last call's |
| QueryEngine.QueryFallsBackOnce | rag/query_engine.py:236-243 | the last call is the fallback exactly when the attempt failed, and no earlier call is a fallback |
| QueryEngine.QueryFallbackCauses | rag/query_engine.py:203-236 | the attempt fails iff retrieval failed, or the assessment call failed on non-empty passages, or the template could not be filled, or the main call failed |
| QueryEngine.QueryWithoutPassages | rag/query_engine.py:136-231 | with no passages, the first call is the main call with the no-context sentence filled in, followed at most by the fallback |
| QueryEngine.QueryAssessesFirst | rag/query_engine.py:140-185 | with passages, the first call is the assessment of the formatted passages |
| QueryEngine.QueryWithPassages | rag/query_engine.py:210-231 | with passages and an assessment reply, the main call carries the formatted passages when the verdict enhances and the no-context sentence otherwise |
| QueryEngine.QueryFillsTemplate | rag/query_engine.py:221-224 | a template with one `{context}` and one `{question}` field and no other braces formats to the template with both values in place |
| QueryEngine.RAGQueryEngine.TryAnswer | rag/query_engine.py:203-234 | the `try` block: one retrieval with k = 4, then the calls and the answer of the attempt run |
| QueryEngine.RAGQueryEngine.Query | rag/query_engine.py:193-243 | one retrieval with k = 4, then the calls and the answer of the whole query run, fallback included |
| QueryEngine.TemplateOrDefault | rag/query_engine.py:48-59 | a given non-empty template is used as it is; a missing or empty one is replaced by the default |
| QueryEngine.RAGQueryEngine.constructor | rag/query_engine.py:39-59 | the engine keeps its collaborators, holds the fixed prompts `Fixed`, and uses the template that `TemplateOrDefault` chooses |
| QueryEngine.UnexpectedKeyword | rag/query_engine.py:272 | there is no unexpected keyword iff every keyword is `system_prompt_template`, and a reported one was really passed |
| QueryEngine.GetQueryEngineRules | rag/query_engine.py:269-309 | the factory succeeds iff the type is `"rag"`, both collaborators are given and no other keyword is passed; every failure is a `ValueError` |
| QueryEngine.GetQueryEngineMessages | rag/query_engine.py:269-275 | an unknown type and a missing collaborator each raise their own `ValueError` message |
| QueryEngine.GetQueryEngineTemplate | rag/query_engine.py:272 | the engine built uses the given template, or the default one when none or `""` is given |
| QueryEngine.GetQueryEngine | rag/query_engine.py:278-309 | the method succeeds exactly when the factory rules allow, returns a fresh engine over the given collaborators with the fixed prompts, and otherwise raises the rules' `ValueError` |
| Discriminator.ExtractedScores | enhancements/evaluation/discriminator.py:91-132 | what `_extract_scores` returns: the matched metric scores in pattern order, `overall` added as their mean when it is absent and something matched, every score clamped to [0, 10] |
| Discriminator.EvaluateRun | enhancements/evaluation/discriminator.py:28-89 | the run of `evaluate`: a baseline query for the context only when none is given, then one evaluation call; its reply gives the text, the extracted scores and `overall` (0.0 when absent); any exception propagates |
| Discriminator.RankingSection | enhancements/evaluation/discriminator.py:213-220 | the section selection of `_extract_ranking` as written: after `FINAL RANKING:`, else after `final ranking:` when the lower-cased text holds it (an `IndexError` when the text itself does not), else after `Ranking:`, else empty |
| Discriminator.IntendedRanking | enhancements/evaluation/discriminator.py:202-256 | the corrected ranking: the variants in order of first mention in the section, or their input order when the section is missing or misses one |
| Discriminator.ComparisonOf | enhancements/evaluation/discriminator.py:190-200 | the result of a comparison reply: the reply text with the ranking `_extract_ranking` returns, the response names in their own order, or its `IndexError` |
| Discriminator.ComparisonRun | enhancements/evaluation/discriminator.py:134-200 | the run of `get_comparison_ranking`: the given context, else the baseline response, else one baseline query; then one comparison call, whose reply is read by `ComparisonOf`; any exception propagates |
| Discriminator.ScoreMetricsDistinct | enhancements/evaluation/discriminator.py:104-111 | the six score names are distinct |
| Discriminator.MatchedFrom | enhancements/evaluation/discriminator.py:114-122 | every extracted score comes from a pattern that matched, with that pattern's first match |
| Discriminator.Matched | enhancements/evaluation/discriminator.py:114-122 | at most one score per pattern, in pattern order |
| Discriminator.MatchedHas | enhancements/evaluation/discriminator.py:114-122 | every pattern that matched contributes its first match |
| Discriminator.MatchedKeysDistinct | enhancements/evaluation/discriminator.py:114-122 | the extracted dictionary has no repeated key |
| Discriminator.MatchedSpec | enhancements/evaluation/discriminator.py:114-122 | a metric is present iff its pattern matched, and then it holds that first match |
| Discriminator.MatchedEmpty | enhancements/evaluation/discriminator.py:114-122 | nothing is extracted iff no pattern matched |
| Discriminator.ClampAll | enhancements/evaluation/discriminator.py:128-130 | the same keys in the same order, each score clamped to [0, 10] |
| Discriminator.ClampAllGet | enhancements/evaluation/discriminator.py:128-130 | clamping keeps the set of keys, and each score read back is the clamped original |
| Discriminator.ScoresInRange | enhancements/evaluation/discriminator.py:128-130 | every score `_extract_scores` returns lies in [0, 10] |
| Discriminator.WithOverallGet | enhancements/evaluation/discriminator.py:124-126 | adding the mean `overall` leaves every other metric as it was |
| Discriminator.ScoresOfMatchedMetrics | enhancements/evaluation/discriminator.py:114-130 | each of the five named metrics is present iff its pattern matched, and it holds the clamped first match |
| Discriminator.ScoresEmpty | enhancements/evaluation/discriminator.py:101-132 | the result is empty iff no pattern matched |
| Discriminator.OverallFallsBackToMean | enhancements/evaluation/discriminator.py:124-130 | with no `overall` match but some other match, `overall` is the clamped mean of the unclamped matched scores |
| Discriminator.LLMDiscriminator.ExtractScores | enhancements/evaluation/discriminator.py:91-132 | the two loops compute the extracted scores of the scanned evaluation |
| Discriminator.RankingSectionRaises | enhancements/evaluation/discriminator.py:214-220 | section selection raises iff the text has no `FINAL RANKING:`, has `final ranking:` in some other case mix, and lacks the lower-case heading |
| Discriminator.MixedCaseHeadingRaises | enhancements/evaluation/discriminator.py:217-218 | `"Final Ranking:"` raises `IndexError` |
| Discriminator.IndexOf | enhancements/evaluation/discriminator.py:235 | `list.index`: the first position of the name |
| Discriminator.ExtractRanking | enhancements/evaluation/discriminator.py:202-256 | as written, the result is always the input list of variant names, or the `IndexError` of section selection |
| Discriminator.FirstMention | enhancements/evaluation/discriminator.py:227-247 | the earliest position at which any of a variant's names or response patterns occurs, or none when none occurs |
| Discriminator.Mentions | enhancements/evaluation/discriminator.py:227-247 | one first mention per variant, searched under its own name and its `Response i`, `#i`, `(i)` and `[i]` patterns |
| Discriminator.MentionEntries | enhancements/evaluation/discriminator.py:227-247 | pairs each variant with its mention position |
| Discriminator.IntendedRankingSpec | enhancements/evaluation/discriminator.py:202-256 | the intended ranking is always a permutation of the variant names; when every variant is mentioned, it lists them by first mention |
| Discriminator.IntendedRankingFollowsMentions | enhancements/evaluation/discriminator.py:202-256 | variants mentioned in input order keep that order |
| Discriminator.ReversedMentionsReorder | enhancements/evaluation/discriminator.py:202-256 | two variants mentioned in reverse order are ranked reversed, unlike what `ExtractRanking` returns |
| Discriminator.EvaluateSpec | enhancements/evaluation/discriminator.py:28-89 | the service is asked for a context only when none is given; the raw scores are the extracted ones; `overall_score` lies in [0, 10] and is 0.0 when nothing matched |
| Discriminator.LLMDiscriminator.Evaluate | enhancements/evaluation/discriminator.py:28-89 | the calls and the result of the evaluation run |
| Discriminator.LLMDiscriminator.EvaluateWith | enhancements/evaluation/discriminator.py:64-89 | one evaluation call at temperature 0.3; its reply gives the evaluation and its scores, and its failure propagates |
| Discriminator.FormattedResponsesHoldBlocks | enhancements/evaluation/discriminator.py:153-156 | each response appears as `Response i (name):` followed by its text, numbered from 1 in dictionary order |
| Discriminator.LLMDiscriminator.FormatResponses | enhancements/evaluation/discriminator.py:153-156 | the loop builds the formatted responses |
| Discriminator.ComparisonSpec | enhancements/evaluation/discriminator.py:134-200 | the service is asked for a context iff none is given and there is no baseline response; with a baseline response, that response is the context; with a context, the run succeeds iff the call answers with a text whose ranking section can be selected, otherwise it raises that `IndexError` or the call's exception; a ranking is the response names in their own order |
| Discriminator.LLMDiscriminator.GetComparisonRanking | enhancements/evaluation/discriminator.py:134-200 | the calls and the result of the comparison run, with the ranking as `_extract_ranking` returns it |
| Discriminator.LLMDiscriminator.CompareWith | enhancements/evaluation/discriminator.py:153-200 | one comparison call; its reply gives the detailed comparison and the ranking `_extract_ranking` returns: the response names in their own order, or its `IndexError` |
| Discriminator.LLMDiscriminator.constructor | enhancements/evaluation/discriminator.py:18-25 | keeps the client, and holds the fixed prompts `EvaluationSystem` and `ComparisonSystem` |
| Metrics.ReplyScore | enhancements/evaluation/metrics.py:76-82 | a judge reply as a score: the stripped reply parsed and clamped to [0, 10], 0.0 when it does not parse |
| Metrics.JudgeFrom | enhancements/evaluation/metrics.py:359-368 | the metric calls in order: each reply that returns adds its score under the metric key, the first exception ends the run |
| Metrics.SummaryRun | enhancements/evaluation/metrics.py:341-373 | the run of `evaluate_all_metrics`: a baseline query for the context only when none is given, the six metric calls, then the average added |
| Metrics.ReplyScoreSpec | enhancements/evaluation/metrics.py:76-82 | a judge reply always scores in [0, 10], an unparseable one scores 0.0, and an in-range number is kept as it is |
| Metrics.SummaryCalls | enhancements/evaluation/metrics.py:361-368 | six judge calls, each at temperature 0.1 with at most 10 tokens |
| Metrics.SummaryScores | enhancements/evaluation/metrics.py:361-368 | the six metrics in the order `evaluate_all_metrics` sets them, each with its reply's score |
| Metrics.JudgeFromOk | enhancements/evaluation/metrics.py:361-368 | when every judge call answers, each metric holds its own reply's score, in order after the ones before it |
| Metrics.JudgeFromErr | enhancements/evaluation/metrics.py:361-368 | the first judge call that fails ends the summary with its exception, after the calls before it |
| Metrics.SummaryScoresKeys | enhancements/evaluation/metrics.py:358-371 | the keys are exactly faithfulness, completeness, citation, context_relevance, answer_relevance, coherence and average |
| Metrics.SummaryScoresRange | enhancements/evaluation/metrics.py:370-371 | every score, the average included, lies in [0, 10], and the average is the sum of the six over 6 |
| Metrics.AverageOfSix | enhancements/evaluation/metrics.py:371 | the average is computed over the six metrics before it is added |
| Metrics.SummarySpec | enhancements/evaluation/metrics.py:341-373 | a finished summary has the seven keys, scores in [0, 10] and the average of the six; its calls are the context query when no context is given, then the six judge calls |
| Metrics.SummaryRaises | enhancements/evaluation/metrics.py:361-368 | a failed summary stopped at the first judge call that failed and raises its exception |
| Metrics.SummaryCallsSpec | enhancements/evaluation/metrics.py:353-368 | the service is asked for a context only when none is given, even `""` counts as given, and every judge call uses 0.1 and 10 tokens |
| Metrics.JudgeCallsArePrefix | enhancements/evaluation/metrics.py:361-368 | the judge calls made are a prefix of the six planned |
| Metrics.RAGEvaluator.constructor | enhancements/evaluation/metrics.py:17-25 | keeps the client, holds the fixed prompt table `MetricSystem`, and reads scores with `ScoreWith(parse)` |
| Metrics.RAGEvaluator.Judge | enhancements/evaluation/metrics.py:68-82 | one judge call; its reply's score, or its exception |
| Metrics.RAGEvaluator.EvaluateFaithfulness | enhancements/evaluation/metrics.py:27-82 | one faithfulness judge call showing question, context and response; its score or exception |
| Metrics.RAGEvaluator.EvaluateContextRelevance | enhancements/evaluation/metrics.py:84-134 | one context-relevance call showing question and context |
| Metrics.RAGEvaluator.EvaluateAnswerRelevance | enhancements/evaluation/metrics.py:136-186 | one answer-relevance call showing question and response |
| Metrics.RAGEvaluator.EvaluateCompleteness | enhancements/evaluation/metrics.py:188-238 | one completeness call showing question and response |
| Metrics.RAGEvaluator.EvaluateCitationAccuracy | enhancements/evaluation/metrics.py:240-289 | one citation call showing the response |
| Metrics.RAGEvaluator.EvaluateCoherence | enhancements/evaluation/metrics.py:291-339 | one coherence call showing the response |
| Metrics.RAGEvaluator.EvaluateMetric | enhancements/evaluation/metrics.py:359-368 | the call `evaluate_all_metrics` makes for one metric |
| Metrics.RAGEvaluator.ScoreFrom | enhancements/evaluation/metrics.py:359-368 | the remaining judge calls from metric `n` on, with their scores appended in order |
| Metrics.RAGEvaluator.Summarize | enhancements/evaluation/metrics.py:357-371 | the six judge calls and the average added to their scores |
| Metrics.RAGEvaluator.EvaluateAllMetrics | enhancements/evaluation/metrics.py:341-373 | the calls and the result of the summary run |
| Oracles.EffectiveTemperature | models/openai_service.py:87 | an explicit temperature overrides the default 0.7 |
| Oracles.EffectiveMaxTokens | models/openai_service.py:86 | an explicit token budget overrides the default 1000 |
| Oracles.ContextCalls | enhancements/evaluation/discriminator.py:41-42 | the context query is made iff no context is given |
| Oracles.ResolveContext | enhancements/evaluation/metrics.py:354-355 | the given context is used without a call; otherwise one query, whose reply is the context |
| ComparisonEngine.Target | enhancements/comparison_engine.py:84-90 | the variant `query_with_variant` runs: the first one with the name, else the baseline at index 0 |
| ComparisonEngine.Responses | enhancements/comparison_engine.py:102-119 | the dictionary of `query_all_variants`: each variant name with its answer, or `"Error: <message>"` when it raised |
| ComparisonEngine.AssessRun | enhancements/comparison_engine.py:121-143 | the run of `evaluate_response`: the metric summary, then the discriminator evaluation; the first exception propagates |
| ComparisonEngine.RowOf | enhancements/comparison_engine.py:169-188 | the row of one response: question, variant and response, then `metric_<k>` per metric, `discriminator_<k>` per score, the overall score and the evaluation text |
| ComparisonEngine.VariantRowsRun | enhancements/comparison_engine.py:145-197 | the run of `evaluate_all_variants`: the responses, each assessed with the baseline response as context, as rows; the first exception ends it |
| ComparisonEngine.BenchmarkRun | enhancements/comparison_engine.py:199-233 | the run of `run_benchmark`: the question loop, and `pd.concat`'s `ValueError` when there were no questions |
| ComparisonEngine.ReportRun | enhancements/comparison_engine.py:258-321 | the run of `generate_comparison_report` on responses at hand: every response assessed, then the rest of the report |
| ComparisonEngine.Compose | enhancements/comparison_engine.py:280-321 | the report after the assessments: their exception, or the comparison and the text |
| ComparisonEngine.Finish | enhancements/comparison_engine.py:296-321 | one comparison with the baseline response as context, then the report text around the table, the comparison and the ranking it returned; or the comparison's exception |
| ComparisonEngine.VariantNamesSpec | enhancements/comparison_engine.py:44-70 | seven distinct names, the baseline first |
| ComparisonEngine.RAGComparisonEngine.GetVariantNames | enhancements/comparison_engine.py:63-70 | the seven names in list order |
| ComparisonEngine.RAGComparisonEngine.constructor | enhancements/comparison_engine.py:40-56 | the engine keeps the client, the variants, the evaluator and the discriminator, which share the client |
| ComparisonEngine.FindName | enhancements/comparison_engine.py:84-86 | the first position holding the name, or none |
| ComparisonEngine.TargetSpec | enhancements/comparison_engine.py:84-90 | the variant asked is the one named, and an unknown name asks the baseline |
| ComparisonEngine.FindNameAt | enhancements/comparison_engine.py:84-86 | the name at the first matching position is found there |
| ComparisonEngine.RAGComparisonEngine.QueryWithVariant | enhancements/comparison_engine.py:72-90 | one query to the chosen variant, whose reply or exception is the result |
| ComparisonEngine.ResponsesSpec | enhancements/comparison_engine.py:102-119 | one entry per variant, in order, with its answer or `"Error: <message>"` |
| ComparisonEngine.ResponsesNext | enhancements/comparison_engine.py:104-117 | each variant's entry is stored after the ones before it |
| ComparisonEngine.VariantKeys | enhancements/comparison_engine.py:102-119 | the response keys are exactly the variant names |
| ComparisonEngine.Queries | enhancements/comparison_engine.py:104-108 | one query per variant, in order |
| ComparisonEngine.QueriesNext | enhancements/comparison_engine.py:104-108 | the query to variant i follows the queries to the variants before it |
| ComparisonEngine.RAGComparisonEngine.QueryAllVariants | enhancements/comparison_engine.py:92-119 | every variant is asked once in order, and a variant that raises does not stop the others |
| ComparisonEngine.BaselineContext | enhancements/comparison_engine.py:161 | the context is the baseline's entry |
| ComparisonEngine.AssessCalls | enhancements/comparison_engine.py:121-143 | judging one response with a context never asks for a context and makes one to seven calls |
| ComparisonEngine.AssessSummarized | enhancements/comparison_engine.py:121-143 | a finished judgement made seven calls and holds the seven summary keys |
| ComparisonEngine.SummaryKeysOf | enhancements/comparison_engine.py:134 | with a context, a finished summary has the summary keys after six calls |
| ComparisonEngine.RAGComparisonEngine.EvaluateResponse | enhancements/comparison_engine.py:121-143 | the metrics, then the discriminator's evaluation, with the same context |
| ComparisonEngine.RAGComparisonEngine.JudgeOne | enhancements/comparison_engine.py:166 | the calls and the result of judging one response against the baseline context |
| ComparisonEngine.PutScoresElsewhere | enhancements/comparison_engine.py:176-182 | adding prefixed scores leaves the other cells as they are |
| ComparisonEngine.PutKeepsHeads | enhancements/comparison_engine.py:169-182 | adding a score cell keeps the row's question, variant and response |
| ComparisonEngine.PutScoresKeepsHeads | enhancements/comparison_engine.py:176-182 | adding a whole prefixed score dictionary keeps them too |
| ComparisonEngine.PutScoresGet | enhancements/comparison_engine.py:176-177 | each score can be read back under its prefixed key |
| ComparisonEngine.RowStarts | enhancements/comparison_engine.py:169-173 | a row starts with the question, the variant and the response |
| ComparisonEngine.RowHolds | enhancements/comparison_engine.py:169-188 | a row holds `metric_<k>` for every metric score, `discriminator_overall` and `evaluation_details` |
| ComparisonEngine.RAGComparisonEngine.MakeRow | enhancements/comparison_engine.py:169-188 | the loops build that row |
| ComparisonEngine.Rows | enhancements/comparison_engine.py:164-190 | one row per response, in order |
| ComparisonEngine.RAGComparisonEngine.MakeRows | enhancements/comparison_engine.py:164-190 | the loop builds those rows |
| ComparisonEngine.AssessFromSteady | enhancements/comparison_engine.py:164-190 | judging the responses in turn never asks for a context; when it finishes, it made seven calls per response |
| ComparisonEngine.TabulateSteady | enhancements/comparison_engine.py:164-190 | finished rows: one per response, in order, each with its question, variant and response |
| ComparisonEngine.TabulateScores | enhancements/comparison_engine.py:176-185 | every finished row has a score for each summary key and for `discriminator_overall` |
| ComparisonEngine.VariantRowsSpec | enhancements/comparison_engine.py:145-197 | evaluating all variants never asks for a context; a finished run made 49 calls and gives seven rows, one per variant |
| ComparisonEngine.VariantRowsScores | enhancements/comparison_engine.py:169-188 | every row of a finished run has all its scores |
| ComparisonEngine.RAGComparisonEngine.AssessAll | enhancements/comparison_engine.py:164-166 | the judging loop: the calls and the results of judging each response in turn |
| ComparisonEngine.RAGComparisonEngine.EvaluateAllVariants | enhancements/comparison_engine.py:145-197 | asks the variants once each, then the calls and the rows of the run |
| ComparisonEngine.RAGComparisonEngine.EvaluateRound | enhancements/comparison_engine.py:216 | one benchmark question: seven variant queries, then the calls and the rows of the run |
| ComparisonEngine.BenchFromRegular | enhancements/comparison_engine.py:212-227 | every question's rows follow the rows of the questions before it |
| ComparisonEngine.BenchFrom | enhancements/comparison_engine.py:212-227 | from question k on, the benchmark asks at most the remaining questions, and all of them when nothing fails |
| ComparisonEngine.BenchmarkSpec | enhancements/comparison_engine.py:199-233 | no questions raises `pd.concat`'s `ValueError` without a call; the benchmark never asks for a context; a finished one asked every question, made 49 calls per question, and row n belongs to question n / 7 and variant n % 7 |
| ComparisonEngine.RAGComparisonEngine.RunBenchmark | enhancements/comparison_engine.py:199-233 | the calls, the variant queries and the rows of the benchmark run, and the `ValueError` for no questions |
| ComparisonEngine.RAGComparisonEngine.BenchmarkAll | enhancements/comparison_engine.py:212-227 | the question loop, stopping at the first failure |
| ComparisonEngine.EngineComparison | enhancements/comparison_engine.py:251-254 | the comparison uses the baseline response as context and makes one call; it fails with that call's exception, or with `IndexError` when the ranking section cannot be selected, and succeeds otherwise with the reply text and the response names in their own order as ranking |
| ComparisonEngine.RAGComparisonEngine.RunDiscriminatorComparison | enhancements/comparison_engine.py:235-256 | queries the variants only when no responses are given, then runs that comparison, with the ranking as `_extract_ranking` returns it |
| ComparisonEngine.Headed | enhancements/comparison_engine.py:289-290 | one cell per metric |
| ComparisonEngine.ReportRowSpec | enhancements/comparison_engine.py:284-290 | a report row is `Variant`, then each metric under its capitalized name |
| ComparisonEngine.HeadedSnoc | enhancements/comparison_engine.py:289-290 | one more metric appends its capitalized heading and score to the row |
| ComparisonEngine.SummaryHeadings | enhancements/comparison_engine.py:290 | the capitalized summary keys are distinct and differ from `Variant` |
| ComparisonEngine.ReportRows | enhancements/comparison_engine.py:280-293 | one report row per response, in order |
| ComparisonEngine.RAGComparisonEngine.MakeReportRow | enhancements/comparison_engine.py:284-290 | the loop builds one report row |
| ComparisonEngine.RAGComparisonEngine.MakeReportRows | enhancements/comparison_engine.py:280-293 | the loop builds the report rows |
| ComparisonEngine.ComposeSteady | enhancements/comparison_engine.py:280-321 | the report never asks for a context; a finished one made seven calls per response, then the comparison call, whose reply has a selectable ranking section; it shows every response and ends with the ranking lines of the response names in their own order |
| ComparisonEngine.ReportSpec | enhancements/comparison_engine.py:258-321 | the same for the whole report run: seven calls per response, then the comparison; a finished report shows every response and ends with the response names, in their own order, as ranking |
| ComparisonEngine.ReportRowsSpec | enhancements/comparison_engine.py:280-293 | each report row holds the summary keys under their capitalized names |
| ComparisonEngine.RAGComparisonEngine.GenerateComparisonReport | enhancements/comparison_engine.py:258-321 | queries the variants only when no responses are given, then the calls and the text of the report run, whose ranking is the response names in their own order |
| ComparisonEngine.RAGComparisonEngine.ReportOn | enhancements/comparison_engine.py:280-321 | on responses at hand: the calls and the text of the report run, whose ranking is the response names in their own order |
| ComparisonEngine.RAGComparisonEngine.FinishReport | enhancements/comparison_engine.py:296-321 | after the judging: one comparison call, then the report text with the ranking `_extract_ranking` returns, or that call's exception or `IndexError` |
| Report.BlockAt | enhancements/comparison_engine.py:305-306 | each response's `### name` block follows the blocks of the responses before it |
| Report.BlocksPrefix | enhancements/comparison_engine.py:305-306 | the blocks of the first j responses begin the blocks of them all |
| Report.RankingLineAt | enhancements/comparison_engine.py:318-319 | ranking line i is `i. name`, numbered from 1, after the lines before it |
| Report.RankingLinesPrefix | enhancements/comparison_engine.py:318-319 | the lines of the first j ranked names begin all the ranking lines |
| Report.RankedLines | enhancements/comparison_engine.py:318-319 | when the ranking reorders the names, every name is on a line numbered 1 to their count |
| Report.LineNumber | enhancements/comparison_engine.py:319 | a ranking line starts with its number, which reads back as that number, then `. ` |
| Report.ReportContents | enhancements/comparison_engine.py:299-321 | the report starts with the title, shows every response block and every ranking line, and ends with the ranking lines |
| Report.ReportShows | enhancements/comparison_engine.py:299-321 | when the ranking is a permutation of the response names, the report shows every response and ranks every name |
| Report.AppendBlocks | enhancements/comparison_engine.py:305-306 | the loop appends the response blocks |
| Report.AppendRankingLines | enhancements/comparison_engine.py:318-319 | the loop appends the ranking lines |
| Report.FormatReport | enhancements/comparison_engine.py:299-321 | builds the report text |
| Variants.AskEachSpec | enhancements/rag_variants/query_expansion.py:121-124 | one query per proposed query, in order, and one answer per query; the first failure stops the loop |
| Variants.QueryEach | enhancements/rag_variants/query_expansion.py:121-124 | the loop, against the client |
| Variants.ReplyQueriesSpec | enhancements/rag_variants/query_expansion.py:56-57 | the queries are never empty and end with the question; the others are the reply's stripped non-blank lines |
| Variants.AskAroundSucceeds | enhancements/rag_variants/query_expansion.py:118-127 | when nothing fails: the first request, one query per proposed query, then the last request made from their answers, whose reply is the result |
| Variants.AskAroundFails | enhancements/rag_variants/query_expansion.py:118-127 | a failed run made the first request, and at most one query per proposed query |
| Variants.FallbackSpec | enhancements/rag_variants/query_expansion.py:132-135 | a successful attempt is returned unchanged; a failed one is followed by exactly one baseline query with the question, whose reply is the answer |
| QueryExpansion.Attempt | enhancements/rag_variants/query_expansion.py:114-130 | the `try` block: the expansion call, one baseline query per expanded query, then the rerank call; the first exception ends it |
| QueryExpansion.Run | enhancements/rag_variants/query_expansion.py:104-135 | `query`: the attempt, and when it raised, one baseline query whose outcome is final |
| QueryExpansion.RerankUserSpec | enhancements/rag_variants/query_expansion.py:89-92 | the prompt starts with the question, then the `Answer variation i:` blocks numbered from 1 in order, and ends with the closing request |
| QueryExpansion.AttemptSucceeds | enhancements/rag_variants/query_expansion.py:114-130 | a successful attempt: the expansion call, one query per expanded query, then the rerank call, whose reply is the answer |
| QueryExpansion.RunSucceeds | enhancements/rag_variants/query_expansion.py:45-130 | the same for `query`, with the expansion call at temperature 0.3 and 150 tokens |
| QueryExpansion.RunFallsBack | enhancements/rag_variants/query_expansion.py:132-135 | a failed attempt was followed by one baseline query, whose reply is the answer |
| QueryExpansion.QueryExpansionRag.constructor | enhancements/rag_variants/query_expansion.py:18-25 | the variant's name, its client and the fixed texts `Fixed` |
| QueryExpansion.QueryExpansionRag.ExpandQuery | enhancements/rag_variants/query_expansion.py:27-60 | one expansion call; its reply read as the expanded queries |
| QueryExpansion.QueryExpansionRag.RerankResults | enhancements/rag_variants/query_expansion.py:62-102 | one rerank call over the numbered answers, whose reply is the result |
| QueryExpansion.QueryExpansionRag.TryQuery | enhancements/rag_variants/query_expansion.py:114-130 | the calls and the result of the attempt |
| QueryExpansion.QueryExpansionRag.Query | enhancements/rag_variants/query_expansion.py:104-135 | the calls and the result of the attempt with its fallback |
| HybridSearch.Attempt | enhancements/rag_variants/hybrid_search.py:152-168 | the `try` block: the baseline query, the keyword call, the compression of the baseline answer, then the enhancement with the keywords; the first exception ends it |
| HybridSearch.Run | enhancements/rag_variants/hybrid_search.py:142-173 | `query`: the attempt, and when it raised, one baseline query whose outcome is final |
| HybridSearch.KeywordsSpec | enhancements/rag_variants/hybrid_search.py:54 | the keywords are the reply's stripped non-blank lines, nothing appended; there are none iff the reply is blank |
| HybridSearch.CompressShowsOriginal | enhancements/rag_variants/hybrid_search.py:82-86 | the compression prompt shows the baseline response |
| HybridSearch.EnhanceShowsContext | enhancements/rag_variants/hybrid_search.py:125-130 | the enhancement prompt shows the compressed context |
| HybridSearch.EnhanceShowsKeywords | enhancements/rag_variants/hybrid_search.py:128 | the enhancement prompt shows the keywords joined by `", "`, and so each keyword |
| HybridSearch.RunSucceeds | enhancements/rag_variants/hybrid_search.py:152-168 | the baseline query, the keyword call, the compression of the baseline answer, the enhancement of the compressed text with the keywords, whose reply is the answer |
| HybridSearch.RunFallsBack | enhancements/rag_variants/hybrid_search.py:170-173 | a failed attempt made one to four calls, starting with the baseline query, and is followed by one baseline query whose reply is the answer |
| HybridSearch.HybridSearchRag.constructor | enhancements/rag_variants/hybrid_search.py:18-25 | the variant's name, its client and the fixed texts `Fixed` |
| HybridSearch.HybridSearchRag.ExtractKeywords | enhancements/rag_variants/hybrid_search.py:27-57 | one keyword call; its reply read as the keywords |
| HybridSearch.HybridSearchRag.CompressContext | enhancements/rag_variants/hybrid_search.py:59-96 | one compression call, whose reply is the result |
| HybridSearch.HybridSearchRag.EnhanceWithKeywords | enhancements/rag_variants/hybrid_search.py:98-140 | one enhancement call, whose reply is the result |
| HybridSearch.HybridSearchRag.TryQuery | enhancements/rag_variants/hybrid_search.py:152-168 | the calls and the result of the attempt |
| HybridSearch.HybridSearchRag.KeywordsAndRefine | enhancements/rag_variants/hybrid_search.py:159-165 | the steps after the baseline query |
| HybridSearch.HybridSearchRag.CompressAndEnhance | enhancements/rag_variants/hybrid_search.py:162-165 | the steps after the keywords |
| HybridSearch.HybridSearchRag.Query | enhancements/rag_variants/hybrid_search.py:142-173 | the calls and the result of the attempt with its fallback |
| AdaptiveChunking.TopicEntries | enhancements/rag_variants/adaptive_chunking.py:58-64 | each line holding a colon sets the stripped key before its first colon to the stripped rest, later lines overwriting earlier ones |
| AdaptiveChunking.Attempt | enhancements/rag_variants/adaptive_chunking.py:187-206 | the `try` block: the topic analysis, the self-queries, one baseline query per self-query, then the synthesis; the first exception ends it |
| AdaptiveChunking.Run | enhancements/rag_variants/adaptive_chunking.py:177-211 | `query`: the attempt, and when it raised, one baseline query whose outcome is final |
| AdaptiveChunking.LookupAfterLine | enhancements/rag_variants/adaptive_chunking.py:61-64 | a line naming the key overwrites what the lines before it stored |
| AdaptiveChunking.AbsentKey | enhancements/rag_variants/adaptive_chunking.py:61-64 | a key no line names is absent |
| AdaptiveChunking.LastNamingLine | enhancements/rag_variants/adaptive_chunking.py:61-64 | the value of a key is the one from the last line naming it |
| AdaptiveChunking.LastLineValue | enhancements/rag_variants/adaptive_chunking.py:61-64 | that value is the stripped text after the first colon, colons included |
| AdaptiveChunking.LineWithoutColon | enhancements/rag_variants/adaptive_chunking.py:62 | a line without a colon contributes nothing |
| AdaptiveChunking.LineEntry | enhancements/rag_variants/adaptive_chunking.py:63-64 | `key: value` names the stripped key and gives the stripped value |
| AdaptiveChunking.ParseTopicStructure | enhancements/rag_variants/adaptive_chunking.py:58-67 | the loop computes the analysis of the reply |
| AdaptiveChunking.EntryLines | enhancements/rag_variants/adaptive_chunking.py:94 | one `key: value` line per entry, in order |
| AdaptiveChunking.StructureShowsEntries | enhancements/rag_variants/adaptive_chunking.py:94 | the structure text shows every entry |
| AdaptiveChunking.SelfQueryShowsAnalysis | enhancements/rag_variants/adaptive_chunking.py:96-100 | the self-query prompt starts with the question and shows the structure text |
| AdaptiveChunking.DefaultIsModerate | enhancements/rag_variants/adaptive_chunking.py:130-137 | with no `Detail Level` entry, the level is `moderate` and the style balanced |
| AdaptiveChunking.LevelStyles | enhancements/rag_variants/adaptive_chunking.py:130-135 | `Brief` selects the concise style and `Comprehensive` the detailed one |
| AdaptiveChunking.StyleChoice | enhancements/rag_variants/adaptive_chunking.py:132-137 | `brief` anywhere wins, even beside `comprehensive`; then `comprehensive`; else balanced |
| AdaptiveChunking.DetailFromLine | enhancements/rag_variants/adaptive_chunking.py:130 | the level is the last `Detail Level:` line's value, stripped and lower-cased |
| AdaptiveChunking.SynthesisSystemSpec | enhancements/rag_variants/adaptive_chunking.py:140-151 | the synthesis prompt shows the chosen style |
| AdaptiveChunking.SynthesisUserSpec | enhancements/rag_variants/adaptive_chunking.py:154-165 | the user prompt starts with question and structure, then the `Information Source i:` blocks numbered from 1 in order, then the request naming the level |
| AdaptiveChunking.AfterAnalysisAround | enhancements/rag_variants/adaptive_chunking.py:194-203 | after the analysis: the self-query call, one query per refined query, then the synthesis |
| AdaptiveChunking.AfterAnalysisSucceeds | enhancements/rag_variants/adaptive_chunking.py:194-206 | when nothing fails, one query per refined query in order, and the synthesis reply is the answer |
| AdaptiveChunking.RunSucceeds | enhancements/rag_variants/adaptive_chunking.py:187-206 | a successful query starts with the analysis call and continues with the steps above |
| AdaptiveChunking.RunFallsBack | enhancements/rag_variants/adaptive_chunking.py:208-211 | a failed attempt is followed by one baseline query, whose reply is the answer |
| AdaptiveChunking.AdaptiveChunkingRag.constructor | enhancements/rag_variants/adaptive_chunking.py:18-25 | the variant's name, its client and the fixed texts `Fixed` |
| AdaptiveChunking.AdaptiveChunkingRag.IdentifyTopicStructure | enhancements/rag_variants/adaptive_chunking.py:27-67 | one analysis call; its reply parsed into the analysis |
| AdaptiveChunking.AdaptiveChunkingRag.GenerateSelfQueries | enhancements/rag_variants/adaptive_chunking.py:69-115 | one self-query call; its reply read as the refined queries |
| AdaptiveChunking.AdaptiveChunkingRag.AdaptiveChunkSynthesis | enhancements/rag_variants/adaptive_chunking.py:117-175 | one synthesis call, whose reply is the result |
| AdaptiveChunking.AdaptiveChunkingRag.SynthesisStyle | enhancements/rag_variants/adaptive_chunking.py:132-137 | the style text the level selects |
| AdaptiveChunking.AdaptiveChunkingRag.TryQuery | enhancements/rag_variants/adaptive_chunking.py:187-206 | the calls and the result of the attempt |
| AdaptiveChunking.AdaptiveChunkingRag.Refine | enhancements/rag_variants/adaptive_chunking.py:194-203 | the steps after the analysis |
| AdaptiveChunking.AdaptiveChunkingRag.Query | enhancements/rag_variants/adaptive_chunking.py:177-211 | the calls and the result of the attempt with its fallback |
| FewShot.Attempt | enhancements/rag_variants/prompting/few_shot.py:148-158 | the `try` block: the baseline query, then the few-shot completion on its reply |
| FewShot.Run | enhancements/rag_variants/prompting/few_shot.py:138-163 | `query`: the attempt, and when it raised, one baseline query whose outcome is final |
| FewShot.ExampleBlockSpec | enhancements/rag_variants/prompting/few_shot.py:108-109 | each example shows its question, then its answer, both under its number |
| FewShot.FewShotSystemSpec | enhancements/rag_variants/prompting/few_shot.py:100-119 | the system prompt is the opening, every example's block numbered from 1 in order, then the closing |
| FewShot.FewShotUserSpec | enhancements/rag_variants/prompting/few_shot.py:122-126 | the user prompt shows the new question, then the baseline answer as context |
| FewShot.RunSucceeds | enhancements/rag_variants/prompting/few_shot.py:148-158 | one baseline query, then the few-shot call on its answer, whose reply is the answer |
| FewShot.RunFallsBack | enhancements/rag_variants/prompting/few_shot.py:160-163 | a failed attempt is followed by one baseline query, whose reply is the answer |
| FewShot.FewShotRag.constructor | enhancements/rag_variants/prompting/few_shot.py:17-86 | the variant's name, its client and the fixed texts `Fixed`, with their three examples |
| FewShot.ThreeExamples | enhancements/rag_variants/prompting/few_shot.py:27-86 | the fixed examples are exactly three: the password policy, data classification and employee termination questions, in that order |
| FewShot.FewShotRag.GenerateFewShotPrompt | enhancements/rag_variants/prompting/few_shot.py:88-136 | the loop builds the examples; then one call at temperature 0.4, whose reply is the result |
| FewShot.FewShotRag.TryQuery | enhancements/rag_variants/prompting/few_shot.py:148-158 | the calls and the result of the attempt |
| FewShot.FewShotRag.Query | enhancements/rag_variants/prompting/few_shot.py:138-163 | the calls and the result of the attempt with its fallback |
| Numbered.BuildBlocks | enhancements/rag_variants/prompting/few_shot.py:107-109 | the numbering loop builds the blocks of the items in order |
| Numbered.Framed | enhancements/rag_variants/query_expansion.py:89-92 | a prompt framed by a head and a tail shows every item's block, numbered from 1, after the blocks before it |
| Numbered.BlocksInOrder | enhancements/rag_variants/adaptive_chunking.py:155-156 | block i ends before block j starts when i < j |
| BenchmarkApp.Started | enhancements/comparison_app.py:313-327 | pressing "Run Full Benchmark" with a question list that parses to at least one question starts a fresh benchmark; anything else leaves the state as it was |
| BenchmarkApp.Advance | enhancements/comparison_app.py:330-478 | one run of the script: nothing when stopped, stop after the last question, else the fetch phase or the evaluation phase |
| BenchmarkApp.Fetch | enhancements/comparison_app.py:384-400 | the fetch phase: one `query_all_variants` call, whose responses are held in phase 1; a failure stops the benchmark |
| BenchmarkApp.Evaluated | enhancements/comparison_app.py:407-428 | the rows of a question once every evaluation is back, or the first failure |
| BenchmarkApp.EvaluatePending | enhancements/comparison_app.py:401-448 | the evaluation phase: one evaluation per held response against the baseline response, then the rows appended and the next question; a failure stops the benchmark |
| BenchmarkApp.TabLabel | enhancements/comparison_app.py:792 | the tab label `Q<i+1>: ` followed by the question, cut to 50 characters and `...` when longer |
| BenchmarkApp.ParseQuestions | enhancements/comparison_app.py:315 | the questions are non-blank, stripped and on one line each |
| BenchmarkApp.InitialConsistent | enhancements/comparison_app.py:301-310 | the first state is consistent |
| BenchmarkApp.BenchmarkState.constructor | enhancements/comparison_app.py:301-310 | the state the app creates on its first run |
| BenchmarkApp.StartedSpec | enhancements/comparison_app.py:313-327 | only a non-empty parse of the pressed text starts a run, with index 0, phase 0, no results and progress 0.0; otherwise nothing changes |
| BenchmarkApp.BenchmarkState.Start | enhancements/comparison_app.py:313-327 | the form step |
| BenchmarkApp.ProgressBounds | enhancements/comparison_app.py:397-436 | progress stays in [0, 1] |
| BenchmarkApp.AdvanceConsistent | enhancements/comparison_app.py:330-478 | a step keeps the index within the questions and the state consistent |
| BenchmarkApp.AdvanceProgresses | enhancements/comparison_app.py:384-437 | a step that keeps the run going strictly increases progress: phase 0 moves to phase 1 at (i + 0.5) / n, phase 1 to question i + 1 at (i + 1) / n |
| BenchmarkApp.AdvanceResults | enhancements/comparison_app.py:407-437 | rows are added only when every evaluation of the question succeeded, and then one per response |
| BenchmarkApp.AdvanceFailure | enhancements/comparison_app.py:445-448 | a failed call stops the run and changes nothing else |
| BenchmarkApp.AdvanceEnd | enhancements/comparison_app.py:449-478 | past the last question the step stops the run and calls nothing |
| BenchmarkApp.AdvanceCalls | enhancements/comparison_app.py:384-414 | phase 0 asks for the question's responses once; phase 1 evaluates each held response against the baseline response |
| BenchmarkApp.EvalCalls | enhancements/comparison_app.py:406-414 | one evaluation per response, against the baseline response or `""` |
| BenchmarkApp.QuestionRows | enhancements/comparison_app.py:409-428 | one row per response, in order |
| BenchmarkApp.EvaluatedNext | enhancements/comparison_app.py:431-441 | after a question: results extended, next question, phase 0, its progress and status, held responses dropped |
| BenchmarkApp.BenchRowSpec | enhancements/comparison_app.py:417-425 | a row starts with question, variant and response and holds `metric_<k>` for every metric |
| BenchmarkApp.BenchmarkState.EvaluateQuestion | enhancements/comparison_app.py:407-428 | the evaluation loop; the first failure drops the rows built so far |
| BenchmarkApp.BenchmarkState.FetchPhase | enhancements/comparison_app.py:384-400 | the phase-0 branch |
| BenchmarkApp.BenchmarkState.EvaluatePhase | enhancements/comparison_app.py:401-444 | the phase-1 branch |
| BenchmarkApp.BenchmarkState.Step | enhancements/comparison_app.py:330-478 | one step of the running benchmark, against both oracles |
| BenchmarkApp.BenchmarkState.ScriptRun | enhancements/comparison_app.py:298-478 | one run of the script: the form, then the step; the new state, both logs and what is left of both scripts are those of `Advance` after `Started`, so runs chain |
| BenchmarkApp.Shorten | enhancements/comparison_app.py:792 | questions of at most 50 characters are kept; longer ones become their first 50 characters and `...` |
| BenchmarkApp.TabLabelSpec | enhancements/comparison_app.py:792 | a tab label is `Q`, the number from 1, `: `, then at most 53 characters of the question |
| ErrorHandler.NewApiError | utils/error_handler.py:19-31 | status 500 unless given, and details `{}` unless given |
| ErrorHandler.Subclass | utils/error_handler.py:37-73 | a subclass fixes its status, defaults its message and keeps given details |
| ErrorHandler.SubclassDefaults | utils/error_handler.py:37-73 | 400 `Bad request`, 404 `Resource not found`, 500 `Internal server error` |
| ErrorHandler.HandleApiError | utils/error_handler.py:76-95 | the body is `{error, details}` from the error, with the error's own status |
| ErrorHandler.ApiErrorHandler | utils/error_handler.py:108-117 | a result passes unchanged; an `APIError` answers with its own status; any other exception becomes 500 with its message and empty details |
| ErrorHandler.HandlerStatus | utils/error_handler.py:108-117 | a raising view's status is its class's status, or 500 |
| Routes.ProcessQuery | api/routes.py:35-65 | the body of `process_query`: the body's `query` (default `""`) read, then the answer |
| Routes.Answer | api/routes.py:49-65 | a falsy query is a bad request, a missing engine not found, an engine failure a bad request with its message; otherwise `{"response": ...}` |
| Routes.ConfigureApi | api/routes.py:70-115 | the body of `configure_api`: a truthy `use_default` restores the default key, otherwise `api_key` is installed |
| Routes.RestoreDefault | api/routes.py:83-95 | no service or no default key is not found; otherwise the default key is installed, and a failure is a bad request |
| Routes.InstallKey | api/routes.py:98-115 | a falsy key is a bad request, a missing service not found, a failure of the service a bad request; otherwise success |
| Routes.BodyGet | api/routes.py:47 | `data.get` works only on a JSON object |
| ErrorHandler.Field | api/routes.py:47 | a value is found only in a JSON object that has the key |
| Routes.Rejects | api/routes.py:34 | a raised `APIError` answers with its own status and message |
| Routes.QueryDispatch | api/routes.py:46-47 | the body's `query` is read, `""` when absent |
| Routes.AnswerGuards | api/routes.py:47-65 | a falsy query is 400 before the engine is looked up; a missing engine is 404; an engine failure is 400 with its message; otherwise `{response}` verbatim |
| Routes.QueryMalformedBody | api/routes.py:46-47 | a body that is not a JSON object is a 500, and the engine is not asked |
| Routes.BlankQueryPasses | api/routes.py:49 | a query of spaces reaches the engine |
| Routes.ConfigDispatch | api/routes.py:83-98 | a truthy `use_default` takes the restore path whatever `api_key` holds |
| Routes.RestoreGuards | api/routes.py:83-95 | a missing service or a missing or empty default key is 404; otherwise the default key is installed, and a failure is 400 with its message |
| Routes.InstallKeyGuards | api/routes.py:98-115 | a missing key is 400 before the service lookup; a missing service is 404; a rejected key is 400 `Invalid API key` |
| DocumentLoader.PathName | rag/document_loader.py:118 | `Path(p).name`: the last path component that is neither empty nor `.` |
| DocumentLoader.Extension | rag/document_loader.py:118 | `Path(p).suffix.lower()`: the lower-cased suffix of the name |
| DocumentLoader.GetLoader | rag/document_loader.py:105-126 | `get_loader`: the PDF loader for `.pdf`, the text loader for `.txt`, else `ValueError("Unsupported file type: ...")` |
| DocumentLoader.Load | rag/document_loader.py:42-98 | a loader's `load`: a missing file raises `FileNotFoundError` inside the `try`, and every exception leaves as `ValueError("Failed to load ... document: ...")` |
| DocumentLoader.LoadDocument | rag/document_loader.py:129-151 | `load_document`: the loader chosen, then its `load`; `FileNotFoundError` and `ValueError` propagate, any other exception becomes `ValueError` |
| DocumentLoader.GetLoaderSpec | rag/document_loader.py:118-126 | `.pdf` and `.txt` in any case pick their loaders; every other suffix raises `Unsupported file type: <suffix>` |
| DocumentLoader.Suffix | rag/document_loader.py:118 | the suffix is empty or a final dot-segment of the name |
| DocumentLoader.LastIndexOf | rag/document_loader.py:118 | the last index of a character, or -1 |
| DocumentLoader.ExtensionOf | rag/document_loader.py:118 | the extension of `dir/stem.ext` is `.ext` lower-cased, whatever dots the stem holds |
| DocumentLoader.UpperCaseSuffix | rag/document_loader.py:118-121 | `X.PDF` picks the PDF loader |
| DocumentLoader.UpperCaseExtension | rag/document_loader.py:118 | the extension of `X.PDF` is `.pdf` |
| DocumentLoader.LastSuffixExtension | rag/document_loader.py:118 | the extension of `a.pdf.txt` is `.txt` |
| DocumentLoader.SuffixOfExtended | rag/document_loader.py:118 | `stem.ext` with a non-empty stem has suffix `.ext` whatever dots the stem holds |
| DocumentLoader.LastSuffixCounts | rag/document_loader.py:118-123 | `a.pdf.txt` picks the text loader |
| DocumentLoader.NoDotUnsupported | rag/document_loader.py:124-126 | a name without a dot is unsupported, with an empty suffix |
| DocumentLoader.HiddenFileUnsupported | rag/document_loader.py:124-126 | a hidden file such as `.pdf` has no suffix, so it is unsupported |
| DocumentLoader.Reraise | rag/document_loader.py:146-151 | `FileNotFoundError` and `ValueError` pass unchanged; anything else becomes `ValueError("Failed to load document: ...")` |
| DocumentLoader.LoadDocumentSpec | rag/document_loader.py:56-151 | callers only ever see `ValueError`: a missing file and a library failure are wrapped by the loader, and an unsupported suffix raises the factory's error |
| Scoring.Clamp | enhancements/evaluation/discriminator.py:130 | `min(max(x, 0), 10)`: within [0, 10], the identity inside it |
| Scoring.MeanInRange | enhancements/evaluation/discriminator.py:124-126 | the mean of scores in [0, 10] lies in [0, 10] |
| Ranking.SortSpec | enhancements/evaluation/discriminator.py:202-256 | sorting by mention position gives a sorted permutation of the entries and of their names |
| Ranking.SortOfSorted | enhancements/evaluation/discriminator.py:202-256 | entries already in order stay in order |
| PyStr.Strip | rag/query_engine.py:77 | `str.strip`: the text with leading and trailing whitespace removed |
| PyStr.StripIdempotent | rag/query_engine.py:77 | stripping twice is stripping once |
| PyStr.NonBlankLinesClean | enhancements/rag_variants/query_expansion.py:56 | each line of `[q.strip() for q in s.strip().split("\n") if q.strip()]` is non-empty, stripped and on one line |
| PyStr.NonBlankLinesEmptyIffBlank | enhancements/rag_variants/hybrid_search.py:54 | there are no such lines iff the text is blank |
| PyStr.JoinSplit | enhancements/rag_variants/adaptive_chunking.py:61 | joining the pieces of a split with the separator gives back the text |
| PyStr.SplitOnceAt | enhancements/rag_variants/adaptive_chunking.py:63 | `split(":", 1)` of `a:b` with no colon in `a` gives `a` and `b` |
| PyStr.Capitalize | enhancements/comparison_engine.py:290 | `str.capitalize`: first letter upper-case, the rest lower-case |
| PyStr.NatToStringRoundTrip | enhancements/comparison_engine.py:318-319 | the decimal digits of a number read back as that number |
| PyFormat.FormatTwoFields | rag/query_engine.py:221-224 | `str.format` with two named fields puts each value in its place |

## Left out

- Transports: the RAG client's HTTP calls, the text-generation service and the vector-store
  retriever. Each is a scripted oracle. The client turning request errors into `"Error: ..."`
  strings is one more reply the script can hold.
- Chain-of-thought, role-based and base variants, and the variant registries. The comparison
  engine asks them through the abstract `Runner` oracle.
  `ComparisonEngine.RAGComparisonEngine.QueryWithVariant`: the reply is the runner's, not
  derived from the variant models of this project.
- Wiring (`app.py`, `config.py`, package initialisers), the index endpoint and
  `functools.wraps`. None of these holds decision logic.
- Flask request parsing and `jsonify`. The parsed body is a parameter, and a response is the
  body and the status.
- UI of the comparison app outside the benchmark stepper: rendering, the animation, charts,
  `st.error` text, `st.rerun`, data frames, CSV export and the download button.
- Logging, `time.sleep` between calls, and saving intermediate and final results to files.
- Floating point. Scores and JSON numbers with a fraction are `real`; rounding, NaN and
  infinities are not modelled.
  `Metrics.ReplyScoreSpec`: `float(text)` is a parameter `parse`, so the contract says what
  happens for each parse outcome, not which texts parse.
- `Discriminator.LLMDiscriminator.ExtractScores`: the six regular expressions are abstracted
  as a `Scan`, which gives the first match of each pattern (or none). The numbers found are
  taken as they come.
- The markdown rendering of the metrics table (`DataFrame.to_markdown`) is a parameter
  `markdown` of the report.
- `str.format` conversions and format specifications (`{x!r}`, `{x:>5}`), positional fields
  and attribute or index access in fields are not modelled. They are treated as errors.
- Case mapping is ASCII only, and `str.isspace` is the ASCII whitespace set plus the
  separators Python counts. Unicode case folding and other scripts are left out.
- Paths are POSIX strings. `Path.exists` is a parameter `present`, and the document library
  is a parameter `library`.
- `BenchmarkApp.BenchmarkState.FetchPhase`: the stepper reads `query_all_variants` through
  its own oracle, not through `ComparisonEngine`'s model. That oracle may fail or return any
  dictionary, although `query_all_variants` catches each variant's exception and always
  returns the seven names. The stepper's failure branch is therefore more permissive than
  the engine it calls.
- The interactive comparison path of the app (a callback that `query_all_variants` does not
  accept) and the live API-key probe script.

## Findings

| source | as written | input that shows it | evidently intended | confidence | as-written member | corrected member |
|---|---|---|---|---|---|---|
| rag/query_engine.py:109 | the line holding `{context}` lacks the `f` prefix, so the relevance prompt shows the literal text `{context}` and never the passages | any passages: the prompts for two different passage lists are equal | the formatted passages appear in the prompt | high; not executed | QueryEngine.RelevancePromptIgnoresPassages | QueryEngine.RelevancePromptShowsPassages |
| enhancements/evaluation/discriminator.py:224-256 | `ordered_variants` is built by scanning `variant_names` in order, so the returned ranking is always the input order | variants `[A, B]` and the comparison `FINAL RANKING: B, A` give `[A, B]` | the variants ordered by where the ranking section first mentions them | high; not executed | Discriminator.ExtractRanking | Discriminator.IntendedRankingSpec |
| enhancements/evaluation/discriminator.py:217-218 | the lower-case test passes on `comparison.lower()`, but the split is on the original text, which then has one piece, so `[1]` raises `IndexError` | `"Final Ranking:"` | the section after the heading, found in any case | high; not executed | Discriminator.MixedCaseHeadingRaises | Discriminator.IntendedRankingSpec |
