/** The six judge-scored metrics of enhancements/evaluation/metrics.py and their summary:
    each metric is one judge call whose reply is read as a number and clamped to [0, 10]. */
module Metrics {
  import opened Wrappers
  import opened PyStr
  import opened Oracles
  import opened Scoring

  const FaithfulnessSystem: string :=
    "You are an expert evaluator assessing the faithfulness of responses to security policy questions. "
    + "Faithfulness measures how well the response is grounded in the provided context, without adding "
    + "information not present in the context or contradicting it.\n\n"
    + "Guidelines for evaluation:\n"
    + "- A faithful response only includes information that can be directly supported by the context\n"
    + "- A response with hallucinations (statements not backed by the context) has low faithfulness\n"
    + "- Contradictions to information in the context severely reduce faithfulness\n"
    + "- Inferences that reasonably follow from the context don't reduce faithfulness\n\n"
    + "Rate the faithfulness of the response on a scale from 0 to 10, where:\n"
    + "- 0: Completely unfaithful, containing many statements not supported by the context or contradicting it\n"
    + "- 5: Partially faithful, with some statements supported by the context and some not\n"
    + "- 10: Completely faithful, with all statements directly supported by the context\n\n"
    + "Return ONLY a number from 0 to 10 without any explanation."

  const ContextRelevanceSystem: string :=
    "You are an expert evaluator assessing the relevance of context information to security policy questions. "
    + "Context relevance measures how well the retrieved information relates to and helps answer the query.\n\n"
    + "Guidelines for evaluation:\n"
    + "- Highly relevant context directly addresses the specific security policy aspects mentioned in the question\n"
    + "- Somewhat relevant context relates to the general topic but may not address the specific question\n"
    + "- Irrelevant context contains information unrelated to the security policy topic in the question\n\n"
    + "Rate the context relevance on a scale from 0 to 10, where:\n"
    + "- 0: Completely irrelevant, containing no information related to the question\n"
    + "- 5: Somewhat relevant, containing general information about the topic but missing specific details\n"
    + "- 10: Highly relevant, containing specific information that directly answers the question\n\n"
    + "Return ONLY a number from 0 to 10 without any explanation."

  const AnswerRelevanceSystem: string :=
    "You are an expert evaluator assessing the relevance of responses to security policy questions. "
    + "Answer relevance measures how well the response addresses the specific question asked.\n\n"
    + "Guidelines for evaluation:\n"
    + "- A highly relevant answer directly addresses all aspects of the question\n"
    + "- A somewhat relevant answer addresses the general topic but may miss specific aspects\n"
    + "- An irrelevant answer does not address the question asked\n\n"
    + "Rate the answer relevance on a scale from 0 to 10, where:\n"
    + "- 0: Completely irrelevant, not addressing the question at all\n"
    + "- 5: Somewhat relevant, addressing the general topic but missing key aspects\n"
    + "- 10: Highly relevant, directly addressing all aspects of the question\n\n"
    + "Return ONLY a number from 0 to 10 without any explanation."

  const CompletenessSystem: string :=
    "You are an expert evaluator assessing the completeness of responses to security policy questions. "
    + "Completeness measures how thoroughly the response addresses all aspects of the question.\n\n"
    + "Guidelines for evaluation:\n"
    + "- A complete response answers all parts of the question without missing any key elements\n"
    + "- An incomplete response addresses only some aspects of the question\n"
    + "- Even if an aspect can't be answered, a complete response acknowledges this limitation\n\n"
    + "Rate the completeness of the response on a scale from 0 to 10, where:\n"
    + "- 0: Completely incomplete, addressing none of the question's aspects\n"
    + "- 5: Partially complete, addressing some aspects but missing others\n"
    + "- 10: Completely complete, thoroughly addressing all aspects of the question\n\n"
    + "Return ONLY a number from 0 to 10 without any explanation."

  const CitationSystem: string :=
    "You are an expert evaluator assessing the citation accuracy in responses about security policies. "
    + "Citation accuracy measures how well the response references specific policy sections, documents, "
    + "or guidelines when making statements about security policies.\n\n"
    + "Guidelines for evaluation:\n"
    + "- High citation accuracy includes specific references to policy sections (e.g., 'According to the Password Policy section...')\n"
    + "- Medium citation accuracy includes general references without specifics (e.g., 'The security policy states...')\n"
    + "- Low citation accuracy makes claims without indicating their source in the policy\n\n"
    + "Rate the citation accuracy of the response on a scale from 0 to 10, where:\n"
    + "- 0: No citations or references to specific policy sections\n"
    + "- 5: Some references to policy but lacking specificity\n"
    + "- 10: Excellent, specific citations to relevant policy sections\n\n"
    + "Return ONLY a number from 0 to 10 without any explanation."

  const CoherenceSystem: string :=
    "You are an expert evaluator assessing the coherence of responses about security policies. "
    + "Coherence measures the logical flow, structure, and readability of the response.\n\n"
    + "Guidelines for evaluation:\n"
    + "- A highly coherent response has clear organization, logical progression, and consistent terminology\n"
    + "- A somewhat coherent response may have some logical jumps or inconsistent structure\n"
    + "- An incoherent response is disorganized, confusing, or contradictory\n\n"
    + "Rate the coherence of the response on a scale from 0 to 10, where:\n"
    + "- 0: Completely incoherent, disorganized, and difficult to follow\n"
    + "- 5: Somewhat coherent, but with some organizational or clarity issues\n"
    + "- 10: Highly coherent, well-structured, and easy to understand\n\n"
    + "Return ONLY a number from 0 to 10 without any explanation."

  datatype Metric = Faithfulness | Completeness | Citation | ContextRelevance | AnswerRelevance | Coherence

  /** The order in which `evaluate_all_metrics` fills its dictionary. */
  const MetricOrder: seq<Metric> :=
    [Faithfulness, Completeness, Citation, ContextRelevance, AnswerRelevance, Coherence]

  function MetricKey(m: Metric): string {
    match m
    case Faithfulness => "faithfulness"
    case Completeness => "completeness"
    case Citation => "citation"
    case ContextRelevance => "context_relevance"
    case AnswerRelevance => "answer_relevance"
    case Coherence => "coherence"
  }

  /** The system prompt of each metric. The evaluator holds this table, `MetricSystem`, as a
      field, so that proofs about the calls need not look at the texts. */
  type Rubric = Metric -> string

  function MetricSystem(m: Metric): string {
    match m
    case Faithfulness => FaithfulnessSystem
    case Completeness => CompletenessSystem
    case Citation => CitationSystem
    case ContextRelevance => ContextRelevanceSystem
    case AnswerRelevance => AnswerRelevanceSystem
    case Coherence => CoherenceSystem
  }

  /** The user prompt of each metric: what it shows the judge. */
  function MetricUser(m: Metric, question: string, response: string, context: string): string {
    match m
    case Faithfulness =>
      "Question: " + question + "\n\n" + "Context: " + context + "\n\n" + "Response: " + response + "\n\n"
      + "Faithfulness score (0-10):"
    case Completeness =>
      "Question: " + question + "\n\n" + "Response: " + response + "\n\n" + "Completeness score (0-10):"
    case Citation =>
      "Response: " + response + "\n\n" + "Citation accuracy score (0-10):"
    case ContextRelevance =>
      "Question: " + question + "\n\n" + "Retrieved Context: " + context + "\n\n" + "Context relevance score (0-10):"
    case AnswerRelevance =>
      "Question: " + question + "\n\n" + "Response: " + response + "\n\n" + "Answer relevance score (0-10):"
    case Coherence =>
      "Response: " + response + "\n\n" + "Coherence score (0-10):"
  }

  /** Every judge call is deterministic-leaning and short: temperature 0.1, ten tokens. */
  function MetricCall(rubric: Rubric, m: Metric, question: string, response: string, context: string): ClientCall {
    Completion(rubric(m), MetricUser(m, question, response, context), 0.1, 10)
  }

  /** `float(text)` for the stripped reply: the number, or None where it raises `ValueError`. */
  type Parse = string -> Option<real>

  /** The score read from a judge reply: parsed and clamped, 0.0 when it does not parse. */
  function ReplyScore(reply: string, parse: Parse): real {
    match parse(Strip(reply))
    case Some(x) => Clamp(x)
    case None => 0.0
  }

  /** How a reply is turned into a score. */
  type Scorer = string -> real

  function ScoreWith(parse: Parse): Scorer {
    t => ReplyScore(t, parse)
  }

  /** A judge reply always gives a score in [0, 10]; one that does not parse gives 0.0, and
      one that parses to a number already in range gives that number. */
  lemma ReplyScoreSpec(reply: string, parse: Parse)
    ensures 0.0 <= ReplyScore(reply, parse) <= 10.0
    ensures parse(Strip(reply)).None? ==> ReplyScore(reply, parse) == 0.0
    ensures parse(Strip(reply)).Some? && 0.0 <= parse(Strip(reply)).value <= 10.0 ==>
              ReplyScore(reply, parse) == parse(Strip(reply)).value
  {
  }

  /** The judge call the summary makes for metric `m`: each metric is shown only what its own
      method takes (completeness, say, sees no context). */
  function SummaryCall(rubric: Rubric, m: Metric, question: string, response: string, context: string): ClientCall {
    match m
    case Faithfulness => MetricCall(rubric, Faithfulness, question, response, context)
    case Completeness => MetricCall(rubric, Completeness, question, response, "")
    case Citation => MetricCall(rubric, Citation, "", response, "")
    case ContextRelevance => MetricCall(rubric, ContextRelevance, question, "", context)
    case AnswerRelevance => MetricCall(rubric, AnswerRelevance, question, response, "")
    case Coherence => MetricCall(rubric, Coherence, "", response, "")
  }

  /** The six judge calls of the summary, in metric order. */
  function SummaryCalls(rubric: Rubric, question: string, response: string, context: string): (calls: seq<ClientCall>)
    ensures |calls| == 6
    ensures forall i :: 0 <= i < 6 ==> calls[i].Completion? && calls[i].temperature == 0.1 && calls[i].maxTokens == 10
  {
    seq(6, i requires 0 <= i < 6 => SummaryCall(rubric, MetricOrder[i], question, response, context))
  }

  /** The six metric scores under their keys, in order, for six judge replies that returned. */
  function SummaryScores(replies: seq<Reply<string>>, score: Scorer): (d: Dict<real>)
    requires forall i :: 0 <= i < 6 ==> Nth(replies, i).Ok?
    ensures |d| == 6
    ensures forall i :: 0 <= i < 6 ==> d[i] == (MetricKey(MetricOrder[i]), score(Nth(replies, i).value))
  {
    seq(6, i requires 0 <= i < 6 => (MetricKey(MetricOrder[i]), score(Nth(replies, i).value)))
  }

  /** `metrics["average"] = sum(metrics.values()) / len(metrics)`, computed over the six. */
  function WithAverage(d: Dict<real>): Dict<real> {
    d + [("average", if d == [] then 0.0 else Sum(Values(d)) / |d| as real)]
  }

  /** The judge calls from the `n`-th on, with `replies` the replies still queued and `acc`
      the scores so far: each call that returns adds its score under its key, the first that
      raises ends the run with its exception. */
  function JudgeFrom(calls: seq<ClientCall>, replies: seq<Reply<string>>, score: Scorer, n: nat, acc: Dict<real>)
    : ClientRun<Dict<real>>
    requires n <= |calls| <= 6
    decreases |calls| - n
  {
    if n == |calls| then ClientRun([], Ok(acc))
    else match Nth(replies, 0)
      case Err(e) => ClientRun([calls[n]], Err(e))
      case Ok(t) =>
        var rest := JudgeFrom(calls, Drop(replies, 1), score, n + 1,
                              acc + [(MetricKey(MetricOrder[n]), score(t))]);
        ClientRun([calls[n]] + rest.calls, rest.result)
  }

  function AverageAdded(r: Reply<Dict<real>>): Reply<Dict<real>> {
    match r
    case Ok(d) => Ok(WithAverage(d))
    case Err(e) => Err(e)
  }

  /** `evaluate_all_metrics`: fetch a context if none was given, then the six judge calls in
      order, then the average. */
  function SummaryRun(rubric: Rubric, question: string, response: string, context: Option<string>,
                      replies: seq<Reply<string>>, score: Scorer): ClientRun<Dict<real>>
  {
    var pre := ContextCalls(question, context);
    match ResolvedContext(context, replies)
    case Err(e) => ClientRun(pre, Err(e))
    case Ok(c) =>
      var judged := JudgeFrom(SummaryCalls(rubric, question, response, c), Drop(replies, |pre|), score, 0, []);
      ClientRun(pre + judged.calls, AverageAdded(judged.result))
  }

  /** When every call from the `n`-th on returns, all of them are made and each adds its score. */
  lemma {:induction false} JudgeFromOk(calls: seq<ClientCall>, replies: seq<Reply<string>>, score: Scorer,
                                       n: nat, acc: Dict<real>)
    requires n <= |calls| <= 6
    ensures var j := JudgeFrom(calls, replies, score, n, acc);
            j.result.Ok? ==>
              && j.calls == calls[n..]
              && |j.result.value| == |acc| + |calls| - n
              && j.result.value[..|acc|] == acc
              && forall i :: 0 <= i < |calls| - n ==>
                   && Nth(replies, i).Ok?
                   && j.result.value[|acc| + i] == (MetricKey(MetricOrder[n + i]), score(Nth(replies, i).value))
    decreases |calls| - n
  {
    if n < |calls| && Nth(replies, 0).Ok? {
      var acc' := acc + [(MetricKey(MetricOrder[n]), score(Nth(replies, 0).value))];
      JudgeFromOk(calls, Drop(replies, 1), score, n + 1, acc');
      var j := JudgeFrom(calls, replies, score, n, acc);
      if j.result.Ok? {
        var d := j.result.value;
        assert d[..|acc'|] == acc';
        assert d[..|acc|] == acc'[..|acc|];
        assert calls[n..] == [calls[n]] + calls[n + 1..];
        forall i | 0 <= i < |calls| - n
          ensures Nth(replies, i).Ok?
          ensures d[|acc| + i] == (MetricKey(MetricOrder[n + i]), score(Nth(replies, i).value))
        {
          if i == 0 {
            assert d[|acc|] == acc'[|acc|];
          } else {
            assert Nth(Drop(replies, 1), i - 1) == Nth(replies, i);
            assert d[|acc'| + (i - 1)] == d[|acc| + i];
          }
        }
      }
    }
  }

  /** When a call from the `n`-th on raises, the calls made are those up to and including the
      first that raises, and its exception is the result; every call before it returned. */
  lemma {:induction false} JudgeFromErr(calls: seq<ClientCall>, replies: seq<Reply<string>>, score: Scorer,
                                        n: nat, acc: Dict<real>)
    requires n <= |calls| <= 6
    ensures var j := JudgeFrom(calls, replies, score, n, acc);
            j.result.Err? ==>
              var k := |j.calls| - 1;
              && 0 <= k < |calls| - n
              && j.calls == calls[n..n + k + 1]
              && (forall i :: 0 <= i < k ==> Nth(replies, i).Ok?)
              && Nth(replies, k).Err?
              && j.result.error == Nth(replies, k).error
    decreases |calls| - n
  {
    if n < |calls| && Nth(replies, 0).Ok? {
      var acc' := acc + [(MetricKey(MetricOrder[n]), score(Nth(replies, 0).value))];
      JudgeFromErr(calls, Drop(replies, 1), score, n + 1, acc');
      var j := JudgeFrom(calls, replies, score, n, acc);
      if j.result.Err? {
        var k := |j.calls| - 1;
        assert calls[n..n + k + 1] == [calls[n]] + calls[n + 1..n + 1 + (k - 1) + 1];
        forall i | 0 <= i < k
          ensures Nth(replies, i).Ok?
        {
          if i > 0 {
            assert Nth(Drop(replies, 1), i - 1) == Nth(replies, i);
          }
        }
        assert Nth(Drop(replies, 1), k - 1) == Nth(replies, k);
      }
    }
  }

  const SummaryKeys: seq<string> :=
    ["faithfulness", "completeness", "citation", "context_relevance", "answer_relevance", "coherence", "average"]

  /** The six keys in summary order. */
  lemma {:induction false} SummaryScoresKeys(replies: seq<Reply<string>>, score: Scorer)
    requires forall i :: 0 <= i < 6 ==> Nth(replies, i).Ok?
    ensures Keys(WithAverage(SummaryScores(replies, score))) == SummaryKeys
  {
    var d := WithAverage(SummaryScores(replies, score));
    assert |d| == 7;
    forall i | 0 <= i < 7
      ensures Keys(d)[i] == SummaryKeys[i]
    {
      if i < 6 {
        assert d[i] == SummaryScores(replies, score)[i];
      }
    }
  }

  lemma SumSix(xs: seq<real>)
    requires |xs| == 6
    ensures Sum(xs) == xs[0] + xs[1] + xs[2] + xs[3] + xs[4] + xs[5]
  {
    assert xs[..5][..4] == xs[..4];
    assert xs[..4][..3] == xs[..3];
    assert xs[..3][..2] == xs[..2];
    assert xs[..2][..1] == xs[..1];
    assert xs[..1][..0] == [];
    assert Sum(xs[..1]) == xs[0];
    assert Sum(xs[..2]) == xs[0] + xs[1];
    assert Sum(xs[..3]) == xs[0] + xs[1] + xs[2];
    assert Sum(xs[..4]) == xs[0] + xs[1] + xs[2] + xs[3];
    assert Sum(xs[..5]) == xs[0] + xs[1] + xs[2] + xs[3] + xs[4];
  }

  /** Each of the six scores and their average lies in [0, 10]; the average is their sum
      over six. */
  lemma SummaryScoresRange(replies: seq<Reply<string>>, parse: Parse)
    requires forall i :: 0 <= i < 6 ==> Nth(replies, i).Ok?
    ensures var d := WithAverage(SummaryScores(replies, ScoreWith(parse)));
            && (forall i :: 0 <= i < |d| ==> 0.0 <= d[i].1 <= 10.0)
            && d[6].1 == (d[0].1 + d[1].1 + d[2].1 + d[3].1 + d[4].1 + d[5].1) / 6.0
  {
    var scores := SummaryScores(replies, ScoreWith(parse));
    forall i | 0 <= i < 6
      ensures 0.0 <= scores[i].1 <= 10.0
    {
      ReplyScoreSpec(Nth(replies, i).value, parse);
    }
    MeanInRange(Values(scores));
    AverageOfSix(scores);
  }

  lemma AverageOfSix(d: Dict<real>)
    requires |d| == 6
    ensures var a := WithAverage(d);
            && |a| == 7 && a[..6] == d && a[6].0 == "average"
            && a[6].1 == Sum(Values(d)) / 6.0
            && a[6].1 == (d[0].1 + d[1].1 + d[2].1 + d[3].1 + d[4].1 + d[5].1) / 6.0
  {
    SumSix(Values(d));
  }

  /** The summary has exactly the six metric keys and `average`, in that order; every value
      is in [0, 10]; the average is the sum of the six scores over six; and every judge call
      was made once, in order. */
  lemma SummarySpec(rubric: Rubric, question: string, response: string, context: Option<string>,
                    replies: seq<Reply<string>>, parse: Parse)
    ensures var run := SummaryRun(rubric, question, response, context, replies, ScoreWith(parse));
            run.result.Ok? ==>
              var d := run.result.value;
              && Keys(d) == SummaryKeys
              && (forall i :: 0 <= i < |d| ==> 0.0 <= d[i].1 <= 10.0)
              && d[6].1 == (d[0].1 + d[1].1 + d[2].1 + d[3].1 + d[4].1 + d[5].1) / 6.0
              && run.calls == ContextCalls(question, context)
                              + SummaryCalls(rubric, question, response, ResolvedContext(context, replies).value)
  {
    var run := SummaryRun(rubric, question, response, context, replies, ScoreWith(parse));
    var pre := ContextCalls(question, context);
    if run.result.Ok? {
      var calls := SummaryCalls(rubric, question, response, ResolvedContext(context, replies).value);
      var judged := Drop(replies, |pre|);
      var j := JudgeFrom(calls, judged, ScoreWith(parse), 0, []);
      JudgeFromOk(calls, judged, ScoreWith(parse), 0, []);
      var d := j.result.value;
      assert d == SummaryScores(judged, ScoreWith(parse)) by {
        forall i | 0 <= i < 6
          ensures d[i] == SummaryScores(judged, ScoreWith(parse))[i]
        {
          assert d[0 + i] == d[i];
        }
      }
      SummaryScoresKeys(judged, ScoreWith(parse));
      SummaryScoresRange(judged, parse);
    }
  }

  /** A judge call that raises ends the summary with its exception: the calls made are the
      context call if any, then the judge calls up to and including the one that raised, and
      every judge call before it returned. */
  lemma SummaryRaises(rubric: Rubric, question: string, response: string, context: Option<string>,
                      replies: seq<Reply<string>>, score: Scorer)
    requires ResolvedContext(context, replies).Ok?
    ensures var run := SummaryRun(rubric, question, response, context, replies, score);
            var pre := ContextCalls(question, context);
            var judged := Drop(replies, |pre|);
            run.result.Err? ==>
              var k := |run.calls| - |pre| - 1;
              && 0 <= k < 6
              && run.calls == pre + SummaryCalls(rubric, question, response, ResolvedContext(context, replies).value)[..k + 1]
              && (forall i :: 0 <= i < k ==> Nth(judged, i).Ok?)
              && Nth(judged, k).Err?
              && run.result.error == Nth(judged, k).error
  {
    var pre := ContextCalls(question, context);
    var calls := SummaryCalls(rubric, question, response, ResolvedContext(context, replies).value);
    var judged := Drop(replies, |pre|);
    JudgeFromErr(calls, judged, score, 0, []);
    var j := JudgeFrom(calls, judged, score, 0, []);
    if j.result.Err? {
      assert calls[0..|j.calls|] == calls[..|j.calls|];
    }
  }

  /** The service is asked for a context only when none is given (an empty string counts as
      given); every judge call uses temperature 0.1 and ten tokens; at most seven calls. */
  lemma SummaryCallsSpec(rubric: Rubric, question: string, response: string, context: Option<string>,
                         replies: seq<Reply<string>>, score: Scorer)
    ensures var run := SummaryRun(rubric, question, response, context, replies, score);
            && (context.Some? ==> forall i :: 0 <= i < |run.calls| ==> !run.calls[i].AskBaseline?)
            && (context.None? ==> run.calls[0] == AskBaseline(question))
            && (forall i :: 0 <= i < |run.calls| && run.calls[i].Completion? ==>
                  run.calls[i].temperature == 0.1 && run.calls[i].maxTokens == 10)
            && |run.calls| <= 7
  {
    var pre := ContextCalls(question, context);
    if ResolvedContext(context, replies).Ok? {
      var calls := SummaryCalls(rubric, question, response, ResolvedContext(context, replies).value);
      var j := JudgeFrom(calls, Drop(replies, |pre|), score, 0, []);
      JudgeCallsArePrefix(calls, Drop(replies, |pre|), score);
      var all := pre + j.calls;
      assert forall i :: |pre| <= i < |all| ==> all[i] == j.calls[i - |pre|];
    }
  }

  /** The judge calls made are a prefix of the planned ones. */
  lemma JudgeCallsArePrefix(calls: seq<ClientCall>, replies: seq<Reply<string>>, score: Scorer)
    requires |calls| <= 6
    ensures var j := JudgeFrom(calls, replies, score, 0, []);
            |j.calls| <= |calls| && forall i :: 0 <= i < |j.calls| ==> j.calls[i] == calls[i]
  {
    JudgeFromErr(calls, replies, score, 0, []);
    JudgeFromOk(calls, replies, score, 0, []);
  }

  class RAGEvaluator {
    const client: Client
    const rubric: Rubric
    const scorer: Scorer

    /** The rubric is the fixed table, `MetricSystem`. */
    constructor (client: Client, parse: Parse)
      ensures this.client == client && rubric == MetricSystem && scorer == ScoreWith(parse)
    {
      this.client := client;
      rubric := MetricSystem;
      scorer := ScoreWith(parse);
    }

    /** One judge call and its score; an exception from the call propagates. */
    method Judge(m: Metric, question: string, response: string, context: string) returns (score: Reply<real>)
      modifies client
      ensures client.log == old(client.log) + [MetricCall(rubric, m, question, response, context)]
      ensures client.script == Drop(old(client.script), 1)
      ensures score.Ok? == Nth(old(client.script), 0).Ok?
      ensures score.Ok? ==> score.value == scorer(Nth(old(client.script), 0).value)
      ensures score.Err? ==> score.error == Nth(old(client.script), 0).error
    {
      var result := client.Call(MetricCall(rubric, m, question, response, context));
      match result
      case Ok(t) => score := Ok(scorer(t));
      case Err(e) => score := Err(e);
    }

    method EvaluateFaithfulness(question: string, response: string, context: string) returns (score: Reply<real>)
      modifies client
      ensures client.log == old(client.log) + [MetricCall(rubric, Faithfulness, question, response, context)]
      ensures client.script == Drop(old(client.script), 1)
      ensures score.Ok? == Nth(old(client.script), 0).Ok?
      ensures score.Ok? ==> score.value == scorer(Nth(old(client.script), 0).value)
      ensures score.Err? ==> score.error == Nth(old(client.script), 0).error
    {
      score := Judge(Faithfulness, question, response, context);
    }

    method EvaluateContextRelevance(question: string, context: string) returns (score: Reply<real>)
      modifies client
      ensures client.log == old(client.log) + [MetricCall(rubric, ContextRelevance, question, "", context)]
      ensures client.script == Drop(old(client.script), 1)
      ensures score.Ok? == Nth(old(client.script), 0).Ok?
      ensures score.Ok? ==> score.value == scorer(Nth(old(client.script), 0).value)
      ensures score.Err? ==> score.error == Nth(old(client.script), 0).error
    {
      score := Judge(ContextRelevance, question, "", context);
    }

    method EvaluateAnswerRelevance(question: string, response: string) returns (score: Reply<real>)
      modifies client
      ensures client.log == old(client.log) + [MetricCall(rubric, AnswerRelevance, question, response, "")]
      ensures client.script == Drop(old(client.script), 1)
      ensures score.Ok? == Nth(old(client.script), 0).Ok?
      ensures score.Ok? ==> score.value == scorer(Nth(old(client.script), 0).value)
      ensures score.Err? ==> score.error == Nth(old(client.script), 0).error
    {
      score := Judge(AnswerRelevance, question, response, "");
    }

    method EvaluateCompleteness(question: string, response: string) returns (score: Reply<real>)
      modifies client
      ensures client.log == old(client.log) + [MetricCall(rubric, Completeness, question, response, "")]
      ensures client.script == Drop(old(client.script), 1)
      ensures score.Ok? == Nth(old(client.script), 0).Ok?
      ensures score.Ok? ==> score.value == scorer(Nth(old(client.script), 0).value)
      ensures score.Err? ==> score.error == Nth(old(client.script), 0).error
    {
      score := Judge(Completeness, question, response, "");
    }

    method EvaluateCitationAccuracy(response: string) returns (score: Reply<real>)
      modifies client
      ensures client.log == old(client.log) + [MetricCall(rubric, Citation, "", response, "")]
      ensures client.script == Drop(old(client.script), 1)
      ensures score.Ok? == Nth(old(client.script), 0).Ok?
      ensures score.Ok? ==> score.value == scorer(Nth(old(client.script), 0).value)
      ensures score.Err? ==> score.error == Nth(old(client.script), 0).error
    {
      score := Judge(Citation, "", response, "");
    }

    method EvaluateCoherence(response: string) returns (score: Reply<real>)
      modifies client
      ensures client.log == old(client.log) + [MetricCall(rubric, Coherence, "", response, "")]
      ensures client.script == Drop(old(client.script), 1)
      ensures score.Ok? == Nth(old(client.script), 0).Ok?
      ensures score.Ok? ==> score.value == scorer(Nth(old(client.script), 0).value)
      ensures score.Err? ==> score.error == Nth(old(client.script), 0).error
    {
      score := Judge(Coherence, "", response, "");
    }

    /** The judge call of one metric, through that metric's own method and with the arguments
        the summary passes it. */
    method EvaluateMetric(m: Metric, question: string, response: string, context: string) returns (score: Reply<real>)
      modifies client
      ensures client.log == old(client.log) + [SummaryCall(rubric, m, question, response, context)]
      ensures client.script == Drop(old(client.script), 1)
      ensures score.Ok? == Nth(old(client.script), 0).Ok?
      ensures score.Ok? ==> score.value == scorer(Nth(old(client.script), 0).value)
      ensures score.Err? ==> score.error == Nth(old(client.script), 0).error
    {
      match m {
        case Faithfulness => score := EvaluateFaithfulness(question, response, context);
        case Completeness => score := EvaluateCompleteness(question, response);
        case Citation => score := EvaluateCitationAccuracy(response);
        case ContextRelevance => score := EvaluateContextRelevance(question, context);
        case AnswerRelevance => score := EvaluateAnswerRelevance(question, response);
        case Coherence => score := EvaluateCoherence(response);
      }
    }

    /** The metrics of the summary from the `n`-th on, in order, each score added under its key
        to `metrics`; the first judge call that raises ends the summary with its exception. */
    method ScoreFrom(n: nat, question: string, response: string, context: string, metrics: Dict<real>)
      returns (r: Reply<Dict<real>>)
      requires n <= 6
      modifies client
      ensures var run := JudgeFrom(SummaryCalls(rubric, question, response, context), old(client.script), scorer, n, metrics);
              && r == run.result
              && client.log == old(client.log) + run.calls
              && client.script == Drop(old(client.script), |run.calls|)
      ensures r.Ok? ==> |r.value| == |metrics| + 6 - n
      decreases 6 - n
    {
      ghost var calls := SummaryCalls(rubric, question, response, context);
      ghost var log0, script0 := client.log, client.script;
      if n == 6 {
        assert client.log + [] == client.log;
        assert Drop(client.script, 0) == client.script;
        return Ok(metrics);
      }
      var m := MetricOrder[n];
      var score := EvaluateMetric(m, question, response, context);
      assert calls[n] == SummaryCall(rubric, m, question, response, context);
      if score.Err? {
        return Err(score.error);
      }
      ghost var log1, script1 := client.log, client.script;
      r := ScoreFrom(n + 1, question, response, context, metrics + [(MetricKey(m), score.value)]);
      ghost var rest := JudgeFrom(calls, script1, scorer, n + 1, metrics + [(MetricKey(m), score.value)]);
      Appended(log0, [calls[n]], rest.calls);
      DropDrop(script0, 1, |rest.calls|);
    }

    /** The six judge calls and the average, for a context in hand. */
    method Summarize(question: string, response: string, context: string) returns (r: Reply<Dict<real>>)
      modifies client
      ensures var judged := JudgeFrom(SummaryCalls(rubric, question, response, context), old(client.script), scorer, 0, []);
              && r == AverageAdded(judged.result)
              && client.log == old(client.log) + judged.calls
              && client.script == Drop(old(client.script), |judged.calls|)
    {
      var metrics := ScoreFrom(0, question, response, context, []);
      if metrics.Err? {
        return Err(metrics.error);
      }
      var scores := metrics.value;
      r := Ok(scores + [("average", Sum(Values(scores)) / |scores| as real)]);
    }

    method EvaluateAllMetrics(question: string, response: string, context: Option<string>)
      returns (r: Reply<Dict<real>>)
      modifies client
      ensures var run := SummaryRun(rubric, question, response, context, old(client.script), scorer);
              && r == run.result
              && client.log == old(client.log) + run.calls
              && client.script == Drop(old(client.script), |run.calls|)
    {
      ghost var log0, script0 := client.log, client.script;
      var resolved := ResolveContext(client, question, context);
      if resolved.Err? {
        return Err(resolved.error);
      }
      ghost var pre := ContextCalls(question, context);
      ghost var judged := JudgeFrom(SummaryCalls(rubric, question, response, resolved.value), client.script, scorer, 0, []);
      r := Summarize(question, response, resolved.value);
      Appended(log0, pre, judged.calls);
      DropDrop(script0, |pre|, |judged.calls|);
    }
  }
}
