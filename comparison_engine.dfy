/** The comparison engine of enhancements/comparison_engine.py: it asks every variant for an
    answer, has each answer judged by the metric evaluator and the discriminator, and assembles
    the judgements into table rows, benchmark results and a markdown report. The variants
    themselves are seen through one scripted oracle (`variant.query(question)` on the variant
    at a given position); the evaluator and the discriminator are the models of their own
    modules, sharing one RAG client. */
module ComparisonEngine {
  import opened Wrappers
  import opened PyStr
  import opened Oracles
  import opened Scoring
  import opened Metrics
  import opened Discriminator
  import opened Report

  // ---------------------------------------------------------------------------
  // The variants

  /** The names of the seven variants, in the order the engine holds them: the baseline, the
      three module pairs and the three prompting techniques. */
  const VariantNames: seq<string> := [
    BaselineName,
    "Query Expansion + Reranking",
    "Hybrid Search + Contextual Compression",
    "Adaptive Chunking + Self-Query",
    "Chain-of-Thought RAG",
    "Few-Shot RAG",
    "Role-Based + Self-Verification RAG"
  ]

  /** Seven names, the baseline first, no two alike. */
  lemma VariantNamesSpec()
    ensures |VariantNames| == 7 && VariantNames[0] == BaselineName && Distinct(VariantNames)
  {
    forall i, j | 0 <= i < j < 7
      ensures VariantNames[i] != VariantNames[j]
    {
      assert VariantNames[i][0] != VariantNames[j][0];
    }
  }

  /** `variant.query(question)` on the variant at position `variant`. */
  datatype VariantQuery = VariantQuery(variant: nat, question: string)

  type Runner = Oracle<VariantQuery, string>

  /** The position of the first variant with the given name. */
  function FindName(names: seq<string>, name: string): (r: Option<nat>)
    ensures r.Some? ==> r.value < |names| && names[r.value] == name
                        && forall j :: 0 <= j < r.value ==> names[j] != name
    ensures r.None? ==> forall j :: 0 <= j < |names| ==> names[j] != name
    decreases |names|
  {
    if names == [] then None
    else if names[0] == name then Some(0)
    else match FindName(names[1..], name)
      case None => None
      case Some(i) => Some(i + 1)
  }

  /** The variant `query_with_variant` runs: the first one with the name, else the baseline,
      which is the first variant. */
  function Target(names: seq<string>, name: string): nat {
    match FindName(names, name)
    case Some(i) => i
    case None => 0
  }

  /** With distinct names, the variant run is the one with the name, or the baseline when no
      variant has it. */
  lemma TargetSpec(names: seq<string>, name: string)
    requires names != [] && Distinct(names)
    ensures Target(names, name) < |names|
    ensures forall i :: 0 <= i < |names| ==>
              (Target(names, name) == i <==> names[i] == name || (i == 0 && name !in names))
  {
  }

  /** The text stored for a variant: its answer, or `"Error: <message>"` when it raised. */
  function ResponseText(r: Reply<string>): string {
    match r
    case Ok(text) => text
    case Err(e) => "Error: " + e
  }

  /** The responses of `query_all_variants`, given the variants' outcomes in order. */
  function Responses(names: seq<string>, answers: seq<Reply<string>>): Dict<string>
    decreases |names|
  {
    if names == [] then []
    else
      var n := |names| - 1;
      Put(Responses(names[..n], answers), names[n], ResponseText(Nth(answers, n)))
  }

  /** One more variant's outcome adds its entry. */
  lemma ResponsesNext(names: seq<string>, answers: seq<Reply<string>>, i: nat)
    requires i < |names|
    ensures Responses(names[..i + 1], answers)
            == Put(Responses(names[..i], answers), names[i], ResponseText(Nth(answers, i)))
  {
    assert names[..i + 1][..i] == names[..i];
  }

  /** The calls of `query_all_variants`: every variant once, in order. */
  function Queries(n: nat, question: string): (qs: seq<VariantQuery>)
    ensures |qs| == n && forall i :: 0 <= i < n ==> qs[i] == VariantQuery(i, question)
  {
    seq(n, i requires 0 <= i < n => VariantQuery(i, question))
  }

  lemma QueriesNext(i: nat, question: string)
    ensures Queries(i + 1, question) == Queries(i, question) + [VariantQuery(i, question)]
  {
  }

  /** The responses are keyed by exactly the variant names, in order, and each holds that
      variant's answer or its error text: a variant that raises does not stop the others. */
  lemma {:induction false} ResponsesSpec(names: seq<string>, answers: seq<Reply<string>>)
    requires Distinct(names)
    ensures |Responses(names, answers)| == |names|
    ensures forall i :: 0 <= i < |names| ==>
              Responses(names, answers)[i] == (names[i], ResponseText(Nth(answers, i)))
    decreases |names|
  {
    if names != [] {
      var n := |names| - 1;
      var init := Responses(names[..n], answers);
      ResponsesSpec(names[..n], answers);
      assert !HasKey(init, names[n]) by {
        forall k | 0 <= k < |init|
          ensures init[k].0 != names[n]
        {
          assert init[k].0 == names[k];
        }
      }
      PutNew(init, names[n], ResponseText(Nth(answers, n)));
    }
  }

  /** The baseline's entry is always present, so the context the engine passes on is the
      baseline's answer or its error text (never the `""` default). */
  lemma BaselineContext(answers: seq<Reply<string>>)
    ensures Get(Responses(VariantNames, answers), BaselineName, "") == ResponseText(Nth(answers, 0))
  {
    VariantNamesSpec();
    ResponsesSpec(VariantNames, answers);
    GetAt(Responses(VariantNames, answers), 0, "");
  }

  // ---------------------------------------------------------------------------
  // Judging one response

  /** The two judges, as the engine's evaluator and discriminator hold them. */
  datatype Judges = Judges(rubric: Rubric, scorer: Scorer, evaluation: string, scan: string -> Scan)

  /** What `evaluate_response` returns: the metric scores and the discriminator's verdict. */
  datatype Assessment = Assessment(metrics: Dict<real>, discriminator: Evaluation)

  /** `evaluate_response`: all metrics, then the discriminator; an exception from either
      propagates. */
  function AssessRun(judges: Judges, question: string, response: string, context: Option<string>,
                     replies: seq<Reply<string>>): ClientRun<Assessment>
  {
    var m := SummaryRun(judges.rubric, question, response, context, replies, judges.scorer);
    match m.result
    case Err(e) => ClientRun(m.calls, Err(e))
    case Ok(metrics) =>
      var d := EvaluateRun(judges.evaluation, question, response, context, Drop(replies, |m.calls|), judges.scan);
      match d.result
      case Err(e) => ClientRun(m.calls + d.calls, Err(e))
      case Ok(ev) => ClientRun(m.calls + d.calls, Ok(Assessment(metrics, ev)))
  }

  /** The metrics are the six metric scores and their average, under the summary keys. */
  predicate Summarized(a: Assessment) {
    Keys(a.metrics) == SummaryKeys
  }

  /** None of the calls asks the service for a context. */
  predicate NoContextCalls(calls: seq<ClientCall>) {
    forall i :: 0 <= i < |calls| ==> !calls[i].AskBaseline?
  }

  lemma NoContextCallsJoin(a: seq<ClientCall>, b: seq<ClientCall>)
    requires NoContextCalls(a) && NoContextCalls(b)
    ensures NoContextCalls(a + b)
  {
    assert forall i :: |a| <= i < |a + b| ==> (a + b)[i] == b[i - |a|];
  }

  /** With a context given, judging a response never asks the service for one; it makes the
      six metric calls and the discriminator call, or stops at the first that raises. */
  lemma AssessCalls(judges: Judges, question: string, response: string, context: string,
                    replies: seq<Reply<string>>)
    ensures var run := AssessRun(judges, question, response, Some(context), replies);
            && 1 <= |run.calls| <= 7
            && NoContextCalls(run.calls)
  {
    var m := SummaryRun(judges.rubric, question, response, Some(context), replies, judges.scorer);
    SummaryCallsSpec(judges.rubric, question, response, Some(context), replies, judges.scorer);
    JudgeFromErr(SummaryCalls(judges.rubric, question, response, context), replies, judges.scorer, 0, []);
    if m.result.Ok? {
      SummaryKeysOf(judges.rubric, question, response, context, replies, judges.scorer);
      var d := EvaluateRun(judges.evaluation, question, response, Some(context), Drop(replies, |m.calls|), judges.scan);
      EvaluateSpec(judges.evaluation, question, response, Some(context), Drop(replies, |m.calls|), judges.scan);
      NoContextCallsJoin(m.calls, d.calls);
    }
  }

  /** A judgement that completes made all seven calls, and its metrics are the summary. */
  lemma AssessSummarized(judges: Judges, question: string, response: string, context: string,
                         replies: seq<Reply<string>>)
    ensures var run := AssessRun(judges, question, response, Some(context), replies);
            run.result.Ok? ==> |run.calls| == 7 && Summarized(run.result.value)
  {
    var m := SummaryRun(judges.rubric, question, response, Some(context), replies, judges.scorer);
    if m.result.Ok? {
      SummaryKeysOf(judges.rubric, question, response, context, replies, judges.scorer);
    }
  }

  /** The keys of a summary that completed. */
  lemma SummaryKeysOf(rubric: Rubric, question: string, response: string, context: string,
                      replies: seq<Reply<string>>, score: Scorer)
    ensures var run := SummaryRun(rubric, question, response, Some(context), replies, score);
            run.result.Ok? ==> Keys(run.result.value) == SummaryKeys && |run.calls| == 6
  {
    var calls := SummaryCalls(rubric, question, response, context);
    var j := JudgeFrom(calls, replies, score, 0, []);
    JudgeFromOk(calls, replies, score, 0, []);
    if j.result.Ok? {
      var d := j.result.value;
      assert d == SummaryScores(replies, score) by {
        forall i | 0 <= i < 6
          ensures d[i] == SummaryScores(replies, score)[i]
        {
          assert d[0 + i] == d[i];
        }
      }
      SummaryScoresKeys(replies, score);
    }
  }

  // ---------------------------------------------------------------------------
  // Rows

  /** A cell of a result row: text or a score. */
  datatype Cell = Text(text: string) | Score(score: real)

  type Row = Dict<Cell>

  /** `for metric, score in scores.items(): row[label(metric)] = score`. */
  function PutScores(row: Row, prefix: string, scores: Dict<real>): (r: Row)
    decreases |scores|
  {
    if scores == [] then row
    else
      var n := |scores| - 1;
      Put(PutScores(row, prefix, scores[..n]), prefix + scores[n].0, Score(scores[n].1))
  }

  /** The row of one response in `evaluate_all_variants`. */
  function RowOf(question: string, name: string, response: string, a: Assessment): Row {
    var row := [("question", Text(question)), ("variant", Text(name)), ("response", Text(response))];
    var row := PutScores(row, "metric_", a.metrics);
    var row := PutScores(row, "discriminator_", a.discriminator.rawMetrics);
    var row := Put(row, "discriminator_overall", Score(a.discriminator.overallScore));
    Put(row, "evaluation_details", Text(a.discriminator.detailedEvaluation))
  }

  /** Writing keys that begin with the prefix leaves the entries under other keys in place,
      and lookups of other keys unchanged. */
  lemma {:induction false} PutScoresElsewhere(row: Row, prefix: string, scores: Dict<real>, key: string)
    requires prefix != [] && (key == [] || key[0] != prefix[0])
    ensures |PutScores(row, prefix, scores)| >= |row|
    ensures forall i :: 0 <= i < |row| && (row[i].0 == [] || row[i].0[0] != prefix[0]) ==>
              PutScores(row, prefix, scores)[i] == row[i]
    ensures Get(PutScores(row, prefix, scores), key, Text("")) == Get(row, key, Text(""))
    decreases |scores|
  {
    if scores != [] {
      var n := |scores| - 1;
      var init := PutScores(row, prefix, scores[..n]);
      var k := prefix + scores[n].0;
      PutScoresElsewhere(row, prefix, scores[..n], key);
      PutKeepsOthers(init, k, Score(scores[n].1));
      GetPut(init, k, Score(scores[n].1), key, Text(""));
      assert k[0] == prefix[0];
    }
  }

  /** A score written under a distinct key is found under that key afterwards. */
  lemma {:induction false} PutScoresGet(row: Row, prefix: string, scores: Dict<real>, i: nat)
    requires i < |scores|
    requires Distinct(Keys(scores))
    ensures Get(PutScores(row, prefix, scores), prefix + scores[i].0, Text("")) == Score(scores[i].1)
    decreases |scores|
  {
    var n := |scores| - 1;
    var init := PutScores(row, prefix, scores[..n]);
    var k := prefix + scores[n].0;
    GetPut(init, k, Score(scores[n].1), prefix + scores[i].0, Text(""));
    if i < n {
      assert Keys(scores[..n]) == Keys(scores)[..n];
      PutScoresGet(row, prefix, scores[..n], i);
      assert scores[i].0 != scores[n].0 by { assert Keys(scores)[i] != Keys(scores)[n]; }
      assert prefix + scores[i].0 != k by {
        assert (prefix + scores[i].0)[|prefix|..] == scores[i].0;
        assert k[|prefix|..] == scores[n].0;
      }
    }
  }

  /** The row begins with the question, the variant and the response. */
  predicate Heads(row: Row, question: string, name: string, response: string) {
    && |row| >= 3
    && row[0] == ("question", Text(question))
    && row[1] == ("variant", Text(name))
    && row[2] == ("response", Text(response))
  }

  /** Writing a key that begins with none of the three leading keys' first letters leaves the
      leading entries in place. */
  lemma PutKeepsHeads(row: Row, k: string, c: Cell, question: string, name: string, response: string)
    requires Heads(row, question, name, response)
    requires k != [] && k[0] != 'q' && k[0] != 'v' && k[0] != 'r'
    ensures Heads(Put(row, k, c), question, name, response)
  {
    PutKeepsOthers(row, k, c);
    assert k != "question" && k != "variant" && k != "response" by {
      assert "question"[0] == 'q' && "variant"[0] == 'v' && "response"[0] == 'r';
    }
  }

  lemma {:induction false} PutScoresKeepsHeads(row: Row, prefix: string, scores: Dict<real>,
                                               question: string, name: string, response: string)
    requires Heads(row, question, name, response)
    requires prefix != [] && prefix[0] != 'q' && prefix[0] != 'v' && prefix[0] != 'r'
    ensures Heads(PutScores(row, prefix, scores), question, name, response)
    decreases |scores|
  {
    if scores != [] {
      var n := |scores| - 1;
      PutScoresKeepsHeads(row, prefix, scores[..n], question, name, response);
      PutKeepsHeads(PutScores(row, prefix, scores[..n]), prefix + scores[n].0, Score(scores[n].1),
                    question, name, response);
    }
  }

  /** A row starts with the question, the variant and the response. */
  lemma RowStarts(question: string, name: string, response: string, a: Assessment)
    ensures Heads(RowOf(question, name, response, a), question, name, response)
  {
    var row0 := [("question", Text(question)), ("variant", Text(name)), ("response", Text(response))];
    var row1 := PutScores(row0, "metric_", a.metrics);
    var row2 := PutScores(row1, "discriminator_", a.discriminator.rawMetrics);
    var row3 := Put(row2, "discriminator_overall", Score(a.discriminator.overallScore));
    PutScoresKeepsHeads(row0, "metric_", a.metrics, question, name, response);
    PutScoresKeepsHeads(row1, "discriminator_", a.discriminator.rawMetrics, question, name, response);
    PutKeepsHeads(row2, "discriminator_overall", Score(a.discriminator.overallScore), question, name, response);
    PutKeepsHeads(row3, "evaluation_details", Text(a.discriminator.detailedEvaluation), question, name, response);
  }

  /** A row holds every metric under `metric_<key>`, the overall discriminator score and the
      evaluation text. */
  lemma RowHolds(question: string, name: string, response: string, a: Assessment)
    requires Distinct(Keys(a.metrics))
    ensures var row := RowOf(question, name, response, a);
            && (forall i :: 0 <= i < |a.metrics| ==>
                  Get(row, "metric_" + a.metrics[i].0, Text("")) == Score(a.metrics[i].1))
            && Get(row, "discriminator_overall", Text("")) == Score(a.discriminator.overallScore)
            && Get(row, "evaluation_details", Text("")) == Text(a.discriminator.detailedEvaluation)
  {
    var row0 := [("question", Text(question)), ("variant", Text(name)), ("response", Text(response))];
    var row1 := PutScores(row0, "metric_", a.metrics);
    var row2 := PutScores(row1, "discriminator_", a.discriminator.rawMetrics);
    var row3 := Put(row2, "discriminator_overall", Score(a.discriminator.overallScore));
    GetPut(row2, "discriminator_overall", Score(a.discriminator.overallScore), "discriminator_overall", Text(""));
    GetPut(row3, "evaluation_details", Text(a.discriminator.detailedEvaluation), "discriminator_overall", Text(""));
    GetPut(row3, "evaluation_details", Text(a.discriminator.detailedEvaluation), "evaluation_details", Text(""));
    forall i | 0 <= i < |a.metrics|
      ensures Get(RowOf(question, name, response, a), "metric_" + a.metrics[i].0, Text("")) == Score(a.metrics[i].1)
    {
      var key := "metric_" + a.metrics[i].0;
      PutScoresGet(row0, "metric_", a.metrics, i);
      PutScoresElsewhere(row1, "discriminator_", a.discriminator.rawMetrics, key);
      GetPut(row2, "discriminator_overall", Score(a.discriminator.overallScore), key, Text(""));
      GetPut(row3, "evaluation_details", Text(a.discriminator.detailedEvaluation), key, Text(""));
    }
  }

  /** The rows of the responses, one per response and in their order. */
  function Rows(question: string, responses: Dict<string>, assessed: seq<Assessment>): (rows: seq<Row>)
    requires |assessed| == |responses|
    ensures |rows| == |responses|
    ensures forall k :: 0 <= k < |rows| ==> rows[k] == RowOf(question, responses[k].0, responses[k].1, assessed[k])
  {
    seq(|responses|, k requires 0 <= k < |responses| => RowOf(question, responses[k].0, responses[k].1, assessed[k]))
  }

  // ---------------------------------------------------------------------------
  // Judging every response

  /** Judging one response: the response and the client's remaining replies in, the calls made
      and the assessment out. */
  type Step = (string, seq<Reply<string>>) -> ClientRun<Assessment>

  /** `evaluate_response(question, response, context)` as a step. */
  function Judging(judges: Judges, question: string, context: string): Step {
    (response: string, replies: seq<Reply<string>>) => AssessRun(judges, question, response, Some(context), replies)
  }

  /** The step judges a response exactly as `AssessRun` does. */
  lemma JudgingAssesses(judges: Judges, question: string, context: string)
    ensures forall response, replies {:trigger AssessRun(judges, question, response, Some(context), replies)} ::
              Judging(judges, question, context)(response, replies)
              == AssessRun(judges, question, response, Some(context), replies)
  {
  }

  /** A step that never asks for a context and, when it completes, made seven calls and
      produced a summary. */
  ghost predicate Steady(step: Step) {
    forall response, replies ::
      && NoContextCalls(step(response, replies).calls)
      && (step(response, replies).result.Ok? ==>
            |step(response, replies).calls| == 7 && Summarized(step(response, replies).result.value))
  }

  lemma JudgingSteady(judges: Judges, question: string, context: string)
    ensures Steady(Judging(judges, question, context))
  {
    forall response, replies
      ensures && NoContextCalls(Judging(judges, question, context)(response, replies).calls)
              && (Judging(judges, question, context)(response, replies).result.Ok? ==>
                    |Judging(judges, question, context)(response, replies).calls| == 7
                    && Summarized(Judging(judges, question, context)(response, replies).result.value))
    {
      AssessCalls(judges, question, response, context, replies);
      AssessSummarized(judges, question, response, context, replies);
    }
  }

  /** The responses from the `k`-th on, each judged in turn; the first exception ends the
      run. */
  function AssessFrom(step: Step, responses: Dict<string>, k: nat, replies: seq<Reply<string>>)
    : (run: ClientRun<seq<Assessment>>)
    requires k <= |responses|
    ensures run.result.Ok? ==> |run.result.value| == |responses| - k
    decreases |responses| - k
  {
    if k == |responses| then ClientRun([], Ok([]))
    else
      var a := step(responses[k].1, replies);
      match a.result
      case Err(e) => ClientRun(a.calls, Err(e))
      case Ok(_) => Then(a, AssessFrom(step, responses, k + 1, Drop(replies, |a.calls|)))
  }

  /** One judged response followed by the rest of the run. */
  function Then(a: ClientRun<Assessment>, rest: ClientRun<seq<Assessment>>): (run: ClientRun<seq<Assessment>>)
    requires a.result.Ok?
    ensures run.result.Ok? <==> rest.result.Ok?
    ensures run.result.Ok? ==> |run.result.value| == |rest.result.value| + 1
  {
    ClientRun(a.calls + rest.calls, match rest.result
                                    case Err(e) => Err(e)
                                    case Ok(more) => Ok([a.result.value] + more))
  }

  /** The step's assessment comes first, then the rest's. */
  lemma ThenValues(a: ClientRun<Assessment>, rest: ClientRun<seq<Assessment>>)
    requires a.result.Ok? && rest.result.Ok?
    ensures Then(a, rest).result.value[0] == a.result.value
    ensures forall i :: 1 <= i < |Then(a, rest).result.value| ==>
              Then(a, rest).result.value[i] == rest.result.value[i - 1]
  {
  }

  /** Judging every response with a steady step never asks for a context; when it completes,
      it made seven calls per response and every assessment holds a summary. */
  lemma {:induction false} AssessFromSteady(step: Step, responses: Dict<string>, k: nat, replies: seq<Reply<string>>)
    requires k <= |responses|
    requires Steady(step)
    ensures var run := AssessFrom(step, responses, k, replies);
            && NoContextCalls(run.calls)
            && (run.result.Ok? ==> |run.calls| == 7 * (|responses| - k))
            && (run.result.Ok? ==> forall i :: 0 <= i < |run.result.value| ==> Summarized(run.result.value[i]))
    decreases |responses| - k
  {
    if k < |responses| {
      var a := step(responses[k].1, replies);
      if a.result.Ok? {
        var rest := AssessFrom(step, responses, k + 1, Drop(replies, |a.calls|));
        AssessFromSteady(step, responses, k + 1, Drop(replies, |a.calls|));
        NoContextCallsJoin(a.calls, rest.calls);
        if rest.result.Ok? {
          ThenValues(a, rest);
        }
      }
    }
  }

  /** `evaluate_all_variants`: the variants' responses, each judged against the baseline's
      response, as rows. */
  function VariantRowsRun(judges: Judges, question: string, answers: seq<Reply<string>>,
                          replies: seq<Reply<string>>): ClientRun<seq<Row>>
  {
    var responses := Responses(VariantNames, answers);
    Tabulate(question, responses, AssessFrom(Judging(judges, question, Get(responses, BaselineName, "")), responses, 0, replies))
  }

  /** The assessments, once all are made, as rows; the first exception otherwise. */
  function Tabulate(question: string, responses: Dict<string>, run: ClientRun<seq<Assessment>>): ClientRun<seq<Row>>
    requires run.result.Ok? ==> |run.result.value| == |responses|
  {
    match run.result
    case Err(e) => ClientRun(run.calls, Err(e))
    case Ok(assessed) => ClientRun(run.calls, Ok(Rows(question, responses, assessed)))
  }

  /** Judging with a steady step gives one row per response, in order, each naming the
      question, the response's name and its text, after seven calls per response, none of
      them for a context. */
  lemma TabulateSteady(step: Step, question: string, responses: Dict<string>, replies: seq<Reply<string>>)
    requires Steady(step)
    ensures var run := Tabulate(question, responses, AssessFrom(step, responses, 0, replies));
            && NoContextCalls(run.calls)
            && (run.result.Ok? ==>
                  && |run.calls| == 7 * |responses|
                  && |run.result.value| == |responses|
                  && forall k :: 0 <= k < |responses| ==>
                       Heads(run.result.value[k], question, responses[k].0, responses[k].1))
  {
    var run := AssessFrom(step, responses, 0, replies);
    AssessFromSteady(step, responses, 0, replies);
    if run.result.Ok? {
      var assessed := run.result.value;
      forall k | 0 <= k < |responses|
        ensures Heads(Rows(question, responses, assessed)[k], question, responses[k].0, responses[k].1)
      {
        RowStarts(question, responses[k].0, responses[k].1, assessed[k]);
      }
    }
  }

  /** With a steady step every row holds a score under `metric_<key>` for each summary key,
      and the discriminator's overall score. */
  lemma TabulateScores(step: Step, question: string, responses: Dict<string>, replies: seq<Reply<string>>)
    requires Steady(step)
    ensures var run := Tabulate(question, responses, AssessFrom(step, responses, 0, replies));
            run.result.Ok? ==>
              forall k, j :: 0 <= k < |run.result.value| && 0 <= j < 7 ==>
                && Get(run.result.value[k], "metric_" + SummaryKeys[j], Text("")).Score?
                && Get(run.result.value[k], "discriminator_overall", Text("")).Score?
  {
    var run := AssessFrom(step, responses, 0, replies);
    AssessFromSteady(step, responses, 0, replies);
    if run.result.Ok? {
      var assessed := run.result.value;
      SummaryKeysDistinct();
      forall k, j | 0 <= k < |assessed| && 0 <= j < 7
        ensures && Get(Rows(question, responses, assessed)[k], "metric_" + SummaryKeys[j], Text("")).Score?
                && Get(Rows(question, responses, assessed)[k], "discriminator_overall", Text("")).Score?
      {
        assert Summarized(assessed[k]);
        assert Keys(assessed[k].metrics)[j] == SummaryKeys[j];
        RowHolds(question, responses[k].0, responses[k].1, assessed[k]);
      }
    }
  }

  /** One row per variant, in variant order, each naming the question, the variant and its
      response; the metrics are judged against the baseline's response, so the service is
      never asked for a context. */
  lemma VariantRowsSpec(judges: Judges, question: string, answers: seq<Reply<string>>,
                        replies: seq<Reply<string>>)
    ensures NoContextCalls(VariantRowsRun(judges, question, answers, replies).calls)
    ensures var run := VariantRowsRun(judges, question, answers, replies);
            run.result.Ok? ==>
              && |run.calls| == 49
              && |run.result.value| == 7
              && forall k :: 0 <= k < 7 ==>
                   Heads(run.result.value[k], question, VariantNames[k], ResponseText(Nth(answers, k)))
  {
    var responses := Responses(VariantNames, answers);
    VariantNamesSpec();
    ResponsesSpec(VariantNames, answers);
    var step := Judging(judges, question, Get(responses, BaselineName, ""));
    JudgingSteady(judges, question, Get(responses, BaselineName, ""));
    TabulateSteady(step, question, responses, replies);
  }

  /** Every variant's row holds a score under `metric_<key>` for each of the summary keys, and
      the discriminator's overall score. */
  lemma VariantRowsScores(judges: Judges, question: string, answers: seq<Reply<string>>,
                          replies: seq<Reply<string>>)
    ensures var run := VariantRowsRun(judges, question, answers, replies);
            run.result.Ok? ==>
              forall k, j :: 0 <= k < |run.result.value| && 0 <= j < 7 ==>
                && Get(run.result.value[k], "metric_" + SummaryKeys[j], Text("")).Score?
                && Get(run.result.value[k], "discriminator_overall", Text("")).Score?
  {
    var responses := Responses(VariantNames, answers);
    var step := Judging(judges, question, Get(responses, BaselineName, ""));
    JudgingSteady(judges, question, Get(responses, BaselineName, ""));
    TabulateScores(step, question, responses, replies);
  }

  lemma SummaryKeysDistinct()
    ensures Distinct(SummaryKeys)
  {
    forall i, j | 0 <= i < j < 7
      ensures SummaryKeys[i] != SummaryKeys[j]
    {
      assert |SummaryKeys[i]| != |SummaryKeys[j]| || SummaryKeys[i][0] != SummaryKeys[j][0];
    }
  }

  /** What judging the responses from the `k`-th on adds to what was judged before it: the
      assessments so far, then the rest's, and the calls so far, then the rest's. */
  function Resume(done: seq<Assessment>, calls: seq<ClientCall>, rest: ClientRun<seq<Assessment>>)
    : ClientRun<seq<Assessment>>
  {
    ClientRun(calls + rest.calls, match rest.result
                                  case Err(e) => Err(e)
                                  case Ok(more) => Ok(done + more))
  }

  /** Resuming after one more judged response. */
  lemma ResumeThen(done: seq<Assessment>, calls: seq<ClientCall>, a: ClientRun<Assessment>,
                   rest: ClientRun<seq<Assessment>>)
    requires a.result.Ok?
    ensures Resume(done, calls, Then(a, rest)) == Resume(done + [a.result.value], calls + a.calls, rest)
  {
    Appended(calls, a.calls, rest.calls);
    if rest.result.Ok? {
      Appended(done, [a.result.value], rest.result.value);
    }
  }

  lemma ResumeStart(run: ClientRun<seq<Assessment>>)
    ensures Resume([], [], run) == run
  {
    assert [] + run.calls == run.calls;
    if run.result.Ok? {
      assert [] + run.result.value == run.result.value;
    }
  }

  /** One step of judging: an exception ends the run, else the rest follows. */
  lemma AssessFromStep(step: Step, responses: Dict<string>, k: nat, replies: seq<Reply<string>>)
    requires k < |responses|
    ensures var a := step(responses[k].1, replies);
            && (a.result.Err? ==> AssessFrom(step, responses, k, replies) == ClientRun(a.calls, Err(a.result.error)))
            && (a.result.Ok? ==>
                  AssessFrom(step, responses, k, replies) == Then(a, AssessFrom(step, responses, k + 1, Drop(replies, |a.calls|))))
  {
  }

  /** Where the run stands after judging the `k`-th response. */
  lemma ResumeStep(step: Step, responses: Dict<string>, k: nat, replies: seq<Reply<string>>,
                   done: seq<Assessment>, calls: seq<ClientCall>)
    requires k < |responses|
    ensures var a := step(responses[k].1, replies);
            var run := Resume(done, calls, AssessFrom(step, responses, k, replies));
            && (a.result.Err? ==> run == ClientRun(calls + a.calls, Err(a.result.error)))
            && (a.result.Ok? ==>
                  run == Resume(done + [a.result.value], calls + a.calls,
                                AssessFrom(step, responses, k + 1, Drop(replies, |a.calls|))))
  {
    var a := step(responses[k].1, replies);
    AssessFromStep(step, responses, k, replies);
    if a.result.Ok? {
      ResumeThen(done, calls, a, AssessFrom(step, responses, k + 1, Drop(replies, |a.calls|)));
    }
  }

  lemma ResumeEnd(done: seq<Assessment>, calls: seq<ClientCall>)
    ensures Resume(done, calls, ClientRun([], Ok([]))) == ClientRun(calls, Ok(done))
  {
    assert calls + [] == calls;
    assert done + [] == done;
  }

  // ---------------------------------------------------------------------------
  // The comparison and the report

  /** The responses a comparison or a report works on: the ones given, else every variant's
      answer. */
  function Supplied(given: Option<Dict<string>>, answers: seq<Reply<string>>): Dict<string> {
    match given
    case Some(responses) => responses
    case None => Responses(VariantNames, answers)
  }

  /** The variants' responses are keyed by the variant names, in order. */
  lemma VariantKeys(answers: seq<Reply<string>>)
    ensures Keys(Responses(VariantNames, answers)) == VariantNames
  {
    VariantNamesSpec();
    ResponsesSpec(VariantNames, answers);
  }

  /** With the baseline's response passed as the context, the comparison makes exactly one
      call and never asks the service for a context. It fails when that call raises, and with
      `IndexError` when the reply's ranking heading is "final ranking:" in a mixed case; otherwise
      its ranking is the response names in their own order. */
  lemma EngineComparison(system: string, question: string, responses: Dict<string>, replies: seq<Reply<string>>)
    ensures var run := ComparisonRun(system, question, responses, Some(Get(responses, BaselineName, "")), replies);
            && run.calls == [ComparisonCall(system, question, Get(responses, BaselineName, ""), responses)]
            && (Nth(replies, 0).Err? ==> run.result == Err(Nth(replies, 0).error))
            && (Nth(replies, 0).Ok? && RankingSection(Nth(replies, 0).value).Err? ==> run.result == Err(IndexErrorMessage))
            && (run.result.Ok? <==> Nth(replies, 0).Ok? && RankingSection(Nth(replies, 0).value).Ok?)
            && (run.result.Ok? ==>
                  && run.result.value.detailedComparison == Nth(replies, 0).value
                  && run.result.value.ranking == Keys(responses))
  {
    ComparisonSpec(system, question, responses, Some(Get(responses, BaselineName, "")), replies);
  }

  /** `for metric, score in metrics.items(): row[metric.capitalize()] = score`. */
  function PutCapitalized(row: Row, metrics: Dict<real>): Row
    decreases |metrics|
  {
    if metrics == [] then row
    else
      var n := |metrics| - 1;
      Put(PutCapitalized(row, metrics[..n]), Capitalize(metrics[n].0), Score(metrics[n].1))
  }

  /** A row of the report's metrics table: the variant's name, then its metric scores. */
  function ReportRow(name: string, metrics: Dict<real>): Row {
    PutCapitalized([("Variant", Text(name))], metrics)
  }

  /** The metric scores as cells under their capitalised names, in order. */
  function Headed(metrics: Dict<real>): (cells: Row)
    ensures |cells| == |metrics|
  {
    seq(|metrics|, i requires 0 <= i < |metrics| => (Capitalize(metrics[i].0), Score(metrics[i].1)))
  }

  /** Capitalised, the metric names stay apart from each other and from `Variant`. */
  predicate FreshHeadings(metrics: Dict<real>) {
    && (forall i, j :: 0 <= i < j < |metrics| ==> Capitalize(metrics[i].0) != Capitalize(metrics[j].0))
    && (forall i :: 0 <= i < |metrics| ==> Capitalize(metrics[i].0) != "Variant")
  }

  /** When no two headings collide, the row is the variant's name followed by every metric's
      score under its heading, in the metrics' order. */
  lemma {:induction false} ReportRowSpec(name: string, metrics: Dict<real>)
    requires FreshHeadings(metrics)
    ensures ReportRow(name, metrics) == [("Variant", Text(name))] + Headed(metrics)
    decreases |metrics|
  {
    if metrics != [] {
      var n := |metrics| - 1;
      var init := metrics[..n];
      FreshInit(metrics);
      ReportRowSpec(name, init);
      var head, h, v := [("Variant", Text(name))], Capitalize(metrics[n].0), Score(metrics[n].1);
      FreshLast(name, metrics);
      PutNew(head + Headed(init), h, v);
      HeadedSnoc(metrics);
    }
  }

  lemma FreshInit(metrics: Dict<real>)
    requires metrics != [] && FreshHeadings(metrics)
    ensures FreshHeadings(metrics[..|metrics| - 1])
  {
    var init := metrics[..|metrics| - 1];
    forall i | 0 <= i < |init|
      ensures init[i] == metrics[i]
    {
    }
  }

  /** The last metric's heading is not among the headings before it. */
  lemma FreshLast(name: string, metrics: Dict<real>)
    requires metrics != [] && FreshHeadings(metrics)
    ensures var n := |metrics| - 1;
            !HasKey([("Variant", Text(name))] + Headed(metrics[..n]), Capitalize(metrics[n].0))
  {
    var n := |metrics| - 1;
    var cells := Headed(metrics[..n]);
    var before := [("Variant", Text(name))] + cells;
    forall k | 0 <= k < |before|
      ensures before[k].0 != Capitalize(metrics[n].0)
    {
      if k > 0 {
        assert before[k] == cells[k - 1];
        assert metrics[..n][k - 1] == metrics[k - 1];
        assert cells[k - 1].0 == Capitalize(metrics[k - 1].0);
      }
    }
  }

  lemma HeadedSnoc(metrics: Dict<real>)
    requires metrics != []
    ensures var n := |metrics| - 1;
            Headed(metrics) == Headed(metrics[..n]) + [(Capitalize(metrics[n].0), Score(metrics[n].1))]
  {
  }

  /** The summary's headings, `Faithfulness` to `Average`, collide with nothing. */
  lemma SummaryHeadings(metrics: Dict<real>)
    requires Keys(metrics) == SummaryKeys
    ensures FreshHeadings(metrics)
  {
    forall i, j | 0 <= i < j < |metrics|
      ensures Capitalize(metrics[i].0) != Capitalize(metrics[j].0)
    {
      assert metrics[i].0 == SummaryKeys[i] && metrics[j].0 == SummaryKeys[j];
      assert |SummaryKeys[i]| != |SummaryKeys[j]| || UpperChar(SummaryKeys[i][0]) != UpperChar(SummaryKeys[j][0]);
    }
    forall i | 0 <= i < |metrics|
      ensures Capitalize(metrics[i].0) != "Variant"
    {
      assert metrics[i].0 == SummaryKeys[i];
      assert |SummaryKeys[i]| != 7 || UpperChar(SummaryKeys[i][0]) != 'V';
    }
  }

  /** The metrics table's rows, one per judged response, in order. */
  function ReportRows(responses: Dict<string>, assessed: seq<Assessment>): (rows: seq<Row>)
    requires |assessed| == |responses|
    ensures |rows| == |responses|
    ensures forall k :: 0 <= k < |rows| ==> rows[k] == ReportRow(responses[k].0, assessed[k].metrics)
  {
    seq(|responses|, k requires 0 <= k < |responses| => ReportRow(responses[k].0, assessed[k].metrics))
  }

  /** One more response adds its row. */
  lemma ReportRowsStep(responses: Dict<string>, assessed: seq<Assessment>, k: nat)
    requires |assessed| == |responses| && k < |responses|
    ensures ReportRows(responses[..k + 1], assessed[..k + 1]) ==
            ReportRows(responses[..k], assessed[..k]) + [ReportRow(responses[k].0, assessed[k].metrics)]
  {
    var longer, shorter := ReportRows(responses[..k + 1], assessed[..k + 1]), ReportRows(responses[..k], assessed[..k]);
    assert forall j :: 0 <= j < k ==> longer[j] == shorter[j];
  }

  /** `generate_comparison_report` once the responses are known: every response judged with
      the baseline's response as context, then the comparison with the same context, then
      the text around the rendered metrics table. The first exception ends it. */
  function ReportRun(judges: Judges, system: string, markdown: seq<Row> -> string, question: string,
                     responses: Dict<string>, replies: seq<Reply<string>>): ClientRun<string>
  {
    var baseline := Get(responses, BaselineName, "");
    Compose(system, markdown, question, responses, AssessFrom(Judging(judges, question, baseline), responses, 0, replies), replies)
  }

  /** The report once the responses are judged. */
  function Compose(system: string, markdown: seq<Row> -> string, question: string, responses: Dict<string>,
                   run: ClientRun<seq<Assessment>>, replies: seq<Reply<string>>): ClientRun<string>
    requires run.result.Ok? ==> |run.result.value| == |responses|
  {
    match run.result
    case Err(e) => ClientRun(run.calls, Err(e))
    case Ok(assessed) =>
      var f := Finish(system, markdown, question, responses, assessed, Drop(replies, |run.calls|));
      ClientRun(run.calls + f.calls, f.result)
  }

  /** The comparison, with the baseline's response as context, and the text around the table
      of the judged responses. */
  function Finish(system: string, markdown: seq<Row> -> string, question: string, responses: Dict<string>,
                  assessed: seq<Assessment>, replies: seq<Reply<string>>): ClientRun<string>
    requires |assessed| == |responses|
  {
    var c := ComparisonRun(system, question, responses, Some(Get(responses, BaselineName, "")), replies);
    match c.result
    case Err(e) => ClientRun(c.calls, Err(e))
    case Ok(comparison) =>
      var table := markdown(ReportRows(responses, assessed));
      ClientRun(c.calls, Ok(ReportText(question, responses, table, comparison.detailedComparison, comparison.ranking)))
  }

  /** With a steady step, the report never asks the service for a context. A finished report
      made seven calls per response and then the comparison, whose reply had a ranking section
      that could be selected; it shows every response, and it ends with the ranking lines of the
      response names in their own order. */
  lemma ComposeSteady(step: Step, system: string, markdown: seq<Row> -> string, question: string,
                      responses: Dict<string>, replies: seq<Reply<string>>)
    requires Steady(step)
    ensures var run := Compose(system, markdown, question, responses, AssessFrom(step, responses, 0, replies), replies);
            && NoContextCalls(run.calls)
            && (run.result.Ok? ==>
                  var report := run.result.value;
                  && |run.calls| == 7 * |responses| + 1
                  && run.calls[7 * |responses|] == ComparisonCall(system, question, Get(responses, BaselineName, ""), responses)
                  && Nth(replies, 7 * |responses|).Ok?
                  && RankingSection(Nth(replies, 7 * |responses|).value).Ok?
                  && Shows(report, question, responses)
                  && |RankingLines(Keys(responses))| <= |report|
                  && report[|report| - |RankingLines(Keys(responses))|..] == RankingLines(Keys(responses)))
  {
    var a := AssessFrom(step, responses, 0, replies);
    AssessFromSteady(step, responses, 0, replies);
    if a.result.Ok? {
      var rest := Drop(replies, |a.calls|);
      var c := ComparisonRun(system, question, responses, Some(Get(responses, BaselineName, "")), rest);
      EngineComparison(system, question, responses, rest);
      NoContextCallsJoin(a.calls, c.calls);
      if c.result.Ok? {
        var comparison := c.result.value;
        var table := markdown(ReportRows(responses, a.result.value));
        ReportShows(question, responses, table, comparison.detailedComparison, comparison.ranking);
        ReportContents(question, responses, table, comparison.detailedComparison, comparison.ranking);
        assert Nth(rest, 0) == Nth(replies, |a.calls|);
      }
    }
  }

  /** What the engine's report does: judged against the baseline's response, never asking
      for a context; a finished one shows every response and ends with the response names,
      numbered in their own order. */
  lemma ReportSpec(judges: Judges, system: string, markdown: seq<Row> -> string, question: string,
                   responses: Dict<string>, replies: seq<Reply<string>>)
    ensures var run := ReportRun(judges, system, markdown, question, responses, replies);
            && NoContextCalls(run.calls)
            && (run.result.Ok? ==>
                  var report := run.result.value;
                  && |run.calls| == 7 * |responses| + 1
                  && run.calls[7 * |responses|] == ComparisonCall(system, question, Get(responses, BaselineName, ""), responses)
                  && Nth(replies, 7 * |responses|).Ok?
                  && RankingSection(Nth(replies, 7 * |responses|).value).Ok?
                  && Shows(report, question, responses)
                  && |RankingLines(Keys(responses))| <= |report|
                  && report[|report| - |RankingLines(Keys(responses))|..] == RankingLines(Keys(responses)))
  {
    var baseline := Get(responses, BaselineName, "");
    JudgingSteady(judges, question, baseline);
    ComposeSteady(Judging(judges, question, baseline), system, markdown, question, responses, replies);
  }

  /** Every row of the report's table is the variant's name followed by the capitalised summary
      scores, in summary order. */
  lemma ReportRowsSpec(step: Step, responses: Dict<string>, replies: seq<Reply<string>>)
    requires Steady(step)
    ensures var run := AssessFrom(step, responses, 0, replies);
            run.result.Ok? ==>
              forall k :: 0 <= k < |responses| ==>
                && Keys(run.result.value[k].metrics) == SummaryKeys
                && ReportRows(responses, run.result.value)[k]
                   == [("Variant", Text(responses[k].0))] + Headed(run.result.value[k].metrics)
  {
    var run := AssessFrom(step, responses, 0, replies);
    AssessFromSteady(step, responses, 0, replies);
    if run.result.Ok? {
      forall k | 0 <= k < |responses|
        ensures && Keys(run.result.value[k].metrics) == SummaryKeys
                && ReportRows(responses, run.result.value)[k]
                   == [("Variant", Text(responses[k].0))] + Headed(run.result.value[k].metrics)
      {
        assert Summarized(run.result.value[k]);
        SummaryHeadings(run.result.value[k].metrics);
        ReportRowSpec(responses[k].0, run.result.value[k].metrics);
      }
    }
  }

  // ---------------------------------------------------------------------------
  // The engine

  // ---------------------------------------------------------------------------
  // Running a benchmark: `run_benchmark`

  /** Judging every variant on one question, given the variants' outcomes and the service's
      replies. */
  type Round = (string, seq<Reply<string>>, seq<Reply<string>>) -> ClientRun<seq<Row>>

  function Rounds(judges: Judges): Round {
    (question: string, answers: seq<Reply<string>>, replies: seq<Reply<string>>) =>
      VariantRowsRun(judges, question, answers, replies)
  }

  /** `round` judges a question as `VariantRowsRun` does with the judges. */
  ghost predicate RoundOf(round: Round, judges: Judges) {
    forall question, answers, replies {:trigger VariantRowsRun(judges, question, answers, replies)} ::
      round(question, answers, replies) == VariantRowsRun(judges, question, answers, replies)
  }

  lemma RoundsAreRows(judges: Judges)
    ensures RoundOf(Rounds(judges), judges)
  {
  }

  /** A benchmark's calls to the service, the number of questions whose variants were
      queried, and the rows of every question in order, or the first exception. */
  datatype Bench = Bench(calls: seq<ClientCall>, asked: nat, result: Reply<seq<Row>>)

  /** The questions from the `k`-th on, one round each; the variants answer seven times per
      question. */
  function BenchFrom(round: Round, questions: seq<string>, k: nat, answers: seq<Reply<string>>,
                     replies: seq<Reply<string>>): (b: Bench)
    requires k <= |questions|
    ensures 0 < b.asked || k == |questions|
    ensures b.asked <= |questions| - k
    ensures b.result.Ok? ==> b.asked == |questions| - k
    decreases |questions| - k
  {
    if k == |questions| then Bench([], 0, Ok([]))
    else
      var v := round(questions[k], answers, replies);
      match v.result
      case Err(e) => Bench(v.calls, 1, Err(e))
      case Ok(rows) =>
        var rest := BenchFrom(round, questions, k + 1, Drop(answers, 7), Drop(replies, |v.calls|));
        Bench(v.calls + rest.calls, rest.asked + 1, if rest.result.Err? then rest.result else Ok(rows + rest.result.value))
  }

  /** The variant queries of a benchmark that reached the `n`-th question: seven per
      question, in order. */
  function Asked(questions: seq<string>, n: nat): (qs: seq<VariantQuery>)
    requires n <= |questions|
    ensures |qs| == 7 * n
  {
    if n == 0 then [] else Asked(questions, n - 1) + Queries(7, questions[n - 1])
  }

  /** What the questions from the `k`-th on add to the rows, calls and questions so far. */
  function Resumed(done: seq<Row>, calls: seq<ClientCall>, asked: nat, rest: Bench): Bench {
    Bench(calls + rest.calls, asked + rest.asked,
          if rest.result.Err? then rest.result else Ok(done + rest.result.value))
  }

  lemma ResumedStart(b: Bench)
    ensures b == Resumed([], [], 0, b)
  {
    assert [] + b.calls == b.calls;
    if b.result.Ok? {
      assert [] + b.result.value == b.result.value;
    }
  }

  /** One more question: its exception ends the benchmark, or its rows join the others. */
  lemma BenchStep(round: Round, questions: seq<string>, k: nat, answers: seq<Reply<string>>,
                  replies: seq<Reply<string>>, done: seq<Row>, calls: seq<ClientCall>, asked: nat)
    requires k < |questions|
    ensures var v := round(questions[k], answers, replies);
            var b := Resumed(done, calls, asked, BenchFrom(round, questions, k, answers, replies));
            && (v.result.Err? ==> b == Bench(calls + v.calls, asked + 1, Err(v.result.error)))
            && (v.result.Ok? ==>
                  b == Resumed(done + v.result.value, calls + v.calls, asked + 1,
                               BenchFrom(round, questions, k + 1, Drop(answers, 7), Drop(replies, |v.calls|))))
  {
    var v := round(questions[k], answers, replies);
    if v.result.Ok? {
      var rest := BenchFrom(round, questions, k + 1, Drop(answers, 7), Drop(replies, |v.calls|));
      assert calls + (v.calls + rest.calls) == calls + v.calls + rest.calls;
      if rest.result.Ok? {
        assert done + (v.result.value + rest.result.value) == done + v.result.value + rest.result.value;
      }
    }
  }

  /** One turn of the benchmark loop: where the benchmark stands after the `k`-th question. */
  lemma BenchAdvance(round: Round, questions: seq<string>, k: nat, answers0: seq<Reply<string>>,
                     replies0: seq<Reply<string>>, done: seq<Row>, calls: seq<ClientCall>)
    requires k < |questions|
    requires BenchFrom(round, questions, 0, answers0, replies0)
             == Resumed(done, calls, k, BenchFrom(round, questions, k, Drop(answers0, 7 * k), Drop(replies0, |calls|)))
    ensures var v := round(questions[k], Drop(answers0, 7 * k), Drop(replies0, |calls|));
            && Drop(Drop(answers0, 7 * k), 7) == Drop(answers0, 7 * (k + 1))
            && Drop(Drop(replies0, |calls|), |v.calls|) == Drop(replies0, |calls + v.calls|)
            && (v.result.Err? ==>
                  BenchFrom(round, questions, 0, answers0, replies0) == Bench(calls + v.calls, k + 1, Err(v.result.error)))
            && (v.result.Ok? ==>
                  BenchFrom(round, questions, 0, answers0, replies0)
                  == Resumed(done + v.result.value, calls + v.calls, k + 1,
                             BenchFrom(round, questions, k + 1, Drop(answers0, 7 * (k + 1)),
                                       Drop(replies0, |calls + v.calls|))))
  {
    var answers, replies := Drop(answers0, 7 * k), Drop(replies0, |calls|);
    var v := round(questions[k], answers, replies);
    BenchStep(round, questions, k, answers, replies, done, calls, k);
    DropDrop(answers0, 7 * k, 7);
    DropDrop(replies0, |calls|, |v.calls|);
    assert 7 * k + 7 == 7 * (k + 1);
  }

  /** Where the benchmark loop stands after `k` questions: `done` and `calls` are the rows and
      the calls so far, and `failure` the exception that ended it, if one did. */
  ghost predicate Progress(round: Round, questions: seq<string>, answers0: seq<Reply<string>>,
                           replies0: seq<Reply<string>>, done: seq<Row>, calls: seq<ClientCall>,
                           k: nat, failure: Option<string>)
    requires k <= |questions|
  {
    match failure
    case None =>
      BenchFrom(round, questions, 0, answers0, replies0)
      == Resumed(done, calls, k, BenchFrom(round, questions, k, Drop(answers0, 7 * k), Drop(replies0, |calls|)))
    case Some(e) => BenchFrom(round, questions, 0, answers0, replies0) == Bench(calls, k, Err(e))
  }

  /** One turn of the benchmark loop, given what the `k`-th round did. */
  lemma BenchTurn(round: Round, questions: seq<string>, k: nat, answers0: seq<Reply<string>>,
                  replies0: seq<Reply<string>>, done: seq<Row>, calls: seq<ClientCall>,
                  vcalls: seq<ClientCall>, result: Reply<seq<Row>>)
    requires k < |questions|
    requires Progress(round, questions, answers0, replies0, done, calls, k, None)
    requires round(questions[k], Drop(answers0, 7 * k), Drop(replies0, |calls|)) == ClientRun(vcalls, result)
    ensures Drop(Drop(answers0, 7 * k), 7) == Drop(answers0, 7 * (k + 1))
    ensures Drop(Drop(replies0, |calls|), |vcalls|) == Drop(replies0, |calls + vcalls|)
    ensures result.Err? ==>
              Progress(round, questions, answers0, replies0, done, calls + vcalls, k + 1, Some(result.error))
    ensures result.Ok? ==>
              Progress(round, questions, answers0, replies0, done + result.value, calls + vcalls, k + 1, None)
  {
    BenchAdvance(round, questions, k, answers0, replies0, done, calls);
  }

  lemma ResumedEnd(done: seq<Row>, calls: seq<ClientCall>, asked: nat)
    ensures Resumed(done, calls, asked, Bench([], 0, Ok([]))) == Bench(calls, asked, Ok(done))
  {
    assert calls + [] == calls;
    assert done + [] == done;
  }

  /** When the loop stops, the benchmark is the calls made, the questions asked and either
      the rows gathered or the failure. */
  lemma BenchDone(round: Round, questions: seq<string>, answers0: seq<Reply<string>>,
                  replies0: seq<Reply<string>>, done: seq<Row>, calls: seq<ClientCall>,
                  k: nat, failure: Option<string>)
    requires k <= |questions| && (failure.None? ==> k == |questions|)
    requires Progress(round, questions, answers0, replies0, done, calls, k, failure)
    ensures BenchFrom(round, questions, 0, answers0, replies0)
         == Bench(calls, k, if failure.Some? then Err(failure.value) else Ok(done))
  {
    if failure.None? {
      ResumedEnd(done, calls, k);
    }
  }

  /** A round that never asks for a context and, when it completes, made 49 calls and gave
      the seven variants' rows in order. */
  ghost predicate Regular(round: Round, names: seq<string>)
    requires |names| == 7
  {
    forall question, answers, replies ::
      && NoContextCalls(round(question, answers, replies).calls)
      && (round(question, answers, replies).result.Ok? ==>
            && |round(question, answers, replies).calls| == 49
            && |round(question, answers, replies).result.value| == 7
            && forall j :: 0 <= j < 7 ==>
                 Heads(round(question, answers, replies).result.value[j], question, names[j],
                       ResponseText(Nth(answers, j))))
  }

  lemma RoundsRegular(judges: Judges)
    ensures Regular(Rounds(judges), VariantNames)
  {
    forall question, answers, replies {
      VariantRowsSpec(judges, question, answers, replies);
    }
  }

  lemma {:induction false} BenchFromRegular(round: Round, questions: seq<string>, k: nat,
                                            answers: seq<Reply<string>>, replies: seq<Reply<string>>,
                                            names: seq<string>)
    requires k <= |questions|
    requires |names| == 7 && Regular(round, names)
    ensures var b := BenchFrom(round, questions, k, answers, replies);
            && NoContextCalls(b.calls)
            && (b.result.Ok? ==>
                  && |b.calls| == 49 * (|questions| - k)
                  && |b.result.value| == 7 * (|questions| - k)
                  && HeadsFrom(b.result.value, questions, k, names, answers))
    decreases |questions| - k
  {
    if k < |questions| {
      var v := round(questions[k], answers, replies);
      if v.result.Ok? {
        var rest := BenchFrom(round, questions, k + 1, Drop(answers, 7), Drop(replies, |v.calls|));
        BenchFromRegular(round, questions, k + 1, Drop(answers, 7), Drop(replies, |v.calls|), names);
        NoContextCallsJoin(v.calls, rest.calls);
        if rest.result.Ok? {
          var first, more := v.result.value, rest.result.value;
          assert |v.calls| == 49 && |first| == 7 && forall j :: 0 <= j < 7 ==>
                   Heads(first[j], questions[k], names[j], ResponseText(Nth(answers, j)));
          assert BenchFrom(round, questions, k, answers, replies) == Bench(v.calls + rest.calls, rest.asked + 1, Ok(first + more));
          assert |rest.calls| == 49 * (|questions| - (k + 1));
          assert |v.calls + rest.calls| == 49 * (|questions| - k);
          assert |more| == 7 * (|questions| - (k + 1));
          assert |first + more| == 7 * (|questions| - k);
          ConcatHeads(first, more, questions, k, names, answers);
        }
      }
    }
  }

  /** Row `n` heads with the question `k + n / 7`, the variant `n % 7` and its answer. */
  ghost predicate HeadsAt(rows: seq<Row>, questions: seq<string>, k: nat, names: seq<string>,
                          answers: seq<Reply<string>>, n: nat)
    requires |names| == 7 && n < |rows|
  {
    && k + n / 7 < |questions|
    && Heads(rows[n], questions[k + n / 7], names[n % 7], ResponseText(Nth(answers, n)))
  }

  /** Every row heads as `HeadsAt` says. */
  ghost predicate HeadsFrom(rows: seq<Row>, questions: seq<string>, k: nat, names: seq<string>,
                            answers: seq<Reply<string>>)
    requires |names| == 7
  {
    forall n: nat :: n < |rows| ==> HeadsAt(rows, questions, k, names, answers, n)
  }

  /** The seven rows of the `k`-th question, then the rows of the questions after it. */
  lemma ConcatHeads(first: seq<Row>, more: seq<Row>, questions: seq<string>, k: nat, names: seq<string>,
                    answers: seq<Reply<string>>)
    requires |first| == 7 && |names| == 7 && k < |questions|
    requires forall j :: 0 <= j < 7 ==> Heads(first[j], questions[k], names[j], ResponseText(Nth(answers, j)))
    requires HeadsFrom(more, questions, k + 1, names, Drop(answers, 7))
    ensures HeadsFrom(first + more, questions, k, names, answers)
  {
    forall n: nat | n < |first + more|
      ensures HeadsAt(first + more, questions, k, names, answers, n)
    {
      if n < 7 {
        assert n / 7 == 0 && n % 7 == n;
        assert (first + more)[n] == first[n];
      } else {
        LaterHeads(first, more, questions, k, names, answers, n);
      }
    }
  }

  lemma ShiftBySeven(n: nat)
    requires 7 <= n
    ensures (n - 7) / 7 + 1 == n / 7 && (n - 7) % 7 == n % 7
  {
  }

  /** A row after the first seven heads as the row seven places earlier in the rest. */
  lemma LaterHeads(first: seq<Row>, more: seq<Row>, questions: seq<string>, k: nat, names: seq<string>,
                   answers: seq<Reply<string>>, n: nat)
    requires |first| == 7 && |names| == 7 && 7 <= n < 7 + |more|
    requires HeadsFrom(more, questions, k + 1, names, Drop(answers, 7))
    ensures HeadsAt(first + more, questions, k, names, answers, n)
  {
    var m: nat := n - 7;
    assert HeadsAt(more, questions, k + 1, names, Drop(answers, 7), m);
    ShiftBySeven(n);
    var q := k + 1 + m / 7;
    assert q == k + n / 7;
    assert (first + more)[n] == more[m];
    assert Nth(Drop(answers, 7), m) == Nth(answers, n);
  }

  /** The `ValueError` of `pd.concat` on an empty list. */
  const NoObjectsMessage: string := "No objects to concatenate"

  /** `run_benchmark`: the question loop, then `pd.concat(all_results)`, which raises when no
      question was asked. */
  function BenchmarkRun(round: Round, questions: seq<string>, answers: seq<Reply<string>>,
                        replies: seq<Reply<string>>): Bench
  {
    var b := BenchFrom(round, questions, 0, answers, replies);
    if questions == [] then Bench(b.calls, b.asked, Err(NoObjectsMessage)) else b
  }

  /** A benchmark of no questions raises the `ValueError` of `pd.concat` without a call. A
      benchmark that completes gives seven rows per question, the question's in order of the
      questions and the variants' in order of the variants, after 49 calls per question, none
      of them for a context; every question was put to the variants. */
  lemma BenchmarkSpec(judges: Judges, questions: seq<string>, answers: seq<Reply<string>>,
                      replies: seq<Reply<string>>)
    ensures var b := BenchmarkRun(Rounds(judges), questions, answers, replies);
            && NoContextCalls(b.calls)
            && (questions == [] ==> b.calls == [] && b.asked == 0 && b.result == Err(NoObjectsMessage))
            && (b.result.Ok? ==>
                  && questions != []
                  && b.asked == |questions|
                  && |b.calls| == 49 * |questions|
                  && |b.result.value| == 7 * |questions|
                  && forall n :: 0 <= n < |b.result.value| ==>
                       Heads(b.result.value[n], questions[n / 7], VariantNames[n % 7],
                             ResponseText(Nth(answers, n))))
  {
    RoundsRegular(judges);
    VariantNamesSpec();
    BenchFromRegular(Rounds(judges), questions, 0, answers, replies, VariantNames);
    var b := BenchmarkRun(Rounds(judges), questions, answers, replies);
    if b.result.Ok? {
      forall n | 0 <= n < |b.result.value|
        ensures Heads(b.result.value[n], questions[n / 7], VariantNames[n % 7], ResponseText(Nth(answers, n)))
      {
        assert HeadsAt(b.result.value, questions, 0, VariantNames, answers, n);
      }
    }
  }

  class RAGComparisonEngine {
    /** The HTTP client shared by the evaluator and the discriminator. */
    const client: Client
    /** The seven variants, in the order of `VariantNames`. */
    const runner: Runner
    const evaluator: RAGEvaluator
    const discriminator: LLMDiscriminator

    /** The evaluator and the discriminator are the ones built on the engine's client. */
    constructor (client: Client, runner: Runner, evaluator: RAGEvaluator, discriminator: LLMDiscriminator)
      requires evaluator.client == client && discriminator.client == client
      ensures this.client == client && this.runner == runner
      ensures this.evaluator == evaluator && this.discriminator == discriminator
      ensures Valid()
    {
      this.client := client;
      this.runner := runner;
      this.evaluator := evaluator;
      this.discriminator := discriminator;
    }

    predicate Valid() {
      evaluator.client == client && discriminator.client == client
    }

    /** The judges as the evaluator and the discriminator hold them. */
    function JudgesOf(): Judges {
      Judges(evaluator.rubric, evaluator.scorer, discriminator.evaluationSystem, discriminator.scan)
    }

    method GetVariantNames() returns (names: seq<string>)
      ensures names == VariantNames
      ensures |names| == 7 && names[0] == BaselineName && Distinct(names)
    {
      names := VariantNames;
      VariantNamesSpec();
    }

    /** `query_with_variant`: the first variant with the name answers; with no such variant,
        the baseline does. An exception from the variant propagates. */
    method QueryWithVariant(question: string, variantName: string) returns (r: Reply<string>)
      modifies runner
      ensures runner.log == old(runner.log) + [VariantQuery(Target(VariantNames, variantName), question)]
      ensures runner.script == Drop(old(runner.script), 1)
      ensures r == Nth(old(runner.script), 0)
    {
      var i := 0;
      while i < |VariantNames|
        invariant 0 <= i <= |VariantNames|
        invariant forall j :: 0 <= j < i ==> VariantNames[j] != variantName
        invariant runner.log == old(runner.log) && runner.script == old(runner.script)
      {
        if VariantNames[i] == variantName {
          assert FindName(VariantNames, variantName) == Some(i) by {
            FindNameAt(VariantNames, variantName, i);
          }
          r := runner.Call(VariantQuery(i, question));
          return;
        }
        i := i + 1;
      }
      r := runner.Call(VariantQuery(0, question));
    }

    /** `query_all_variants`: every variant once, in order; an exception is recorded as the
        variant's error text and the next variant still runs. */
    method QueryAllVariants(question: string) returns (results: Dict<string>)
      modifies runner
      ensures results == Responses(VariantNames, old(runner.script))
      ensures runner.log == old(runner.log) + Queries(|VariantNames|, question)
      ensures runner.script == Drop(old(runner.script), |VariantNames|)
    {
      ghost var script0 := runner.script;
      results := [];
      for i := 0 to |VariantNames|
        invariant results == Responses(VariantNames[..i], script0)
        invariant runner.log == old(runner.log) + Queries(i, question)
        invariant runner.script == Drop(script0, i)
      {
        var response := runner.Call(VariantQuery(i, question));
        ResponsesNext(VariantNames, script0, i);
        QueriesNext(i, question);
        Appended(old(runner.log), Queries(i, question), [VariantQuery(i, question)]);
        DropDrop(script0, i, 1);
        assert response == Nth(script0, i);
        match response {
          case Ok(text) => results := Put(results, VariantNames[i], text);
          case Err(e) => results := Put(results, VariantNames[i], "Error: " + e);
        }
      }
      assert VariantNames[..|VariantNames|] == VariantNames;
    }

    /** `evaluate_response`: the metrics, then the discriminator's verdict. */
    method EvaluateResponse(question: string, response: string, context: Option<string>)
      returns (r: Reply<Assessment>)
      requires Valid()
      modifies client
      ensures var run := AssessRun(JudgesOf(), question, response, context, old(client.script));
              && r == run.result
              && client.log == old(client.log) + run.calls
              && client.script == Drop(old(client.script), |run.calls|)
    {
      ghost var log0, script0 := client.log, client.script;
      ghost var m := SummaryRun(evaluator.rubric, question, response, context, script0, evaluator.scorer);
      var metrics := evaluator.EvaluateAllMetrics(question, response, context);
      if metrics.Err? {
        return Err(metrics.error);
      }
      ghost var d := EvaluateRun(discriminator.evaluationSystem, question, response, context, client.script, discriminator.scan);
      var verdict := discriminator.Evaluate(question, response, context);
      Appended(log0, m.calls, d.calls);
      DropDrop(script0, |m.calls|, |d.calls|);
      if verdict.Err? {
        return Err(verdict.error);
      }
      r := Ok(Assessment(metrics.value, verdict.value));
    }

    /** The row of one judged response, built key by key. */
    method MakeRow(question: string, name: string, response: string, a: Assessment) returns (row: Row)
      ensures row == RowOf(question, name, response, a)
    {
      var row0 := [("question", Text(question)), ("variant", Text(name)), ("response", Text(response))];
      row := row0;
      for i := 0 to |a.metrics|
        invariant row == PutScores(row0, "metric_", a.metrics[..i])
      {
        assert a.metrics[..i + 1][..i] == a.metrics[..i];
        row := Put(row, "metric_" + a.metrics[i].0, Score(a.metrics[i].1));
      }
      assert a.metrics[..|a.metrics|] == a.metrics;
      ghost var row1 := row;
      var raw := a.discriminator.rawMetrics;
      for i := 0 to |raw|
        invariant row == PutScores(row1, "discriminator_", raw[..i])
      {
        assert raw[..i + 1][..i] == raw[..i];
        row := Put(row, "discriminator_" + raw[i].0, Score(raw[i].1));
      }
      assert raw[..|raw|] == raw;
      row := Put(row, "discriminator_overall", Score(a.discriminator.overallScore));
      row := Put(row, "evaluation_details", Text(a.discriminator.detailedEvaluation));
    }

    /** The rows of the judged responses, one per response, in order. */
    method MakeRows(question: string, responses: Dict<string>, assessed: seq<Assessment>) returns (rows: seq<Row>)
      requires |assessed| == |responses|
      ensures rows == Rows(question, responses, assessed)
    {
      rows := [];
      for k := 0 to |responses|
        invariant |rows| == k
        invariant forall j :: 0 <= j < k ==>
                    rows[j] == RowOf(question, responses[j].0, responses[j].1, assessed[j])
      {
        var row := MakeRow(question, responses[k].0, responses[k].1, assessed[k]);
        rows := rows + [row];
      }
    }

    /** `run_discriminator_comparison`: the comparison of the given responses (or of every
        variant's answer), with the baseline's response, or `""`, as the context. */
    method RunDiscriminatorComparison(question: string, given: Option<Dict<string>>) returns (r: Reply<Comparison>)
      requires Valid()
      modifies client, runner
      ensures var responses := Supplied(given, old(runner.script));
              var run := ComparisonRun(discriminator.comparisonSystem, question, responses,
                                       Some(Get(responses, BaselineName, "")), old(client.script));
              && r == run.result
              && client.log == old(client.log) + run.calls
              && client.script == Drop(old(client.script), |run.calls|)
      ensures given.None? ==> runner.log == old(runner.log) + Queries(|VariantNames|, question)
                              && runner.script == Drop(old(runner.script), |VariantNames|)
      ensures given.Some? ==> runner.log == old(runner.log) && runner.script == old(runner.script)
    {
      var responses: Dict<string>;
      if given.None? {
        responses := QueryAllVariants(question);
      } else {
        responses := given.value;
      }
      var baseline := Get(responses, BaselineName, "");
      r := discriminator.GetComparisonRanking(question, responses, Some(baseline));
    }

    /** One row of the report's metrics table. */
    method MakeReportRow(name: string, metrics: Dict<real>) returns (row: Row)
      ensures row == ReportRow(name, metrics)
    {
      row := [("Variant", Text(name))];
      for i := 0 to |metrics|
        invariant row == PutCapitalized([("Variant", Text(name))], metrics[..i])
      {
        assert metrics[..i + 1][..i] == metrics[..i];
        row := Put(row, Capitalize(metrics[i].0), Score(metrics[i].1));
      }
      assert metrics[..|metrics|] == metrics;
    }

    /** The report's metrics table, one row per judged response, in order. */
    method MakeReportRows(responses: Dict<string>, assessed: seq<Assessment>) returns (rows: seq<Row>)
      requires |assessed| == |responses|
      ensures rows == ReportRows(responses, assessed)
    {
      rows := [];
      for k := 0 to |responses|
        invariant rows == ReportRows(responses[..k], assessed[..k])
      {
        var row := MakeReportRow(responses[k].0, assessed[k].metrics);
        ReportRowsStep(responses, assessed, k);
        rows := rows + [row];
      }
      assert responses[..|responses|] == responses && assessed[..|assessed|] == assessed;
    }

    /** `generate_comparison_report`: every response judged with the baseline's response as
        context, the comparison with the same context, then the report text around the
        rendered table. `markdown` stands for the table's rendering. */
    method GenerateComparisonReport(question: string, given: Option<Dict<string>>, markdown: seq<Row> -> string)
      returns (r: Reply<string>)
      requires Valid()
      modifies client, runner
      ensures var responses := Supplied(given, old(runner.script));
              var run := ReportRun(JudgesOf(), discriminator.comparisonSystem, markdown, question, responses,
                                   old(client.script));
              && r == run.result
              && client.log == old(client.log) + run.calls
              && client.script == Drop(old(client.script), |run.calls|)
      ensures given.None? ==> runner.log == old(runner.log) + Queries(|VariantNames|, question)
                              && runner.script == Drop(old(runner.script), |VariantNames|)
      ensures given.Some? ==> runner.log == old(runner.log) && runner.script == old(runner.script)
    {
      var responses: Dict<string>;
      if given.None? {
        responses := QueryAllVariants(question);
      } else {
        responses := given.value;
      }
      var baseline := Get(responses, BaselineName, "");
      ghost var step := Judging(JudgesOf(), question, baseline);
      JudgingAssesses(JudgesOf(), question, baseline);
      ghost var script0 := client.script;
      assert ReportRun(JudgesOf(), discriminator.comparisonSystem, markdown, question, responses, script0)
             == Compose(discriminator.comparisonSystem, markdown, question, responses,
                        AssessFrom(step, responses, 0, script0), script0);
      r := ReportOn(question, responses, markdown, step);
    }

    /** The report on responses already at hand, judged by `step`. */
    method ReportOn(question: string, responses: Dict<string>, markdown: seq<Row> -> string, ghost step: Step)
      returns (r: Reply<string>)
      requires Valid()
      requires forall response, replies
                 {:trigger AssessRun(JudgesOf(), question, response, Some(Get(responses, BaselineName, "")), replies)} ::
                 step(response, replies)
                 == AssessRun(JudgesOf(), question, response, Some(Get(responses, BaselineName, "")), replies)
      modifies client
      ensures var run := Compose(discriminator.comparisonSystem, markdown, question, responses,
                                 AssessFrom(step, responses, 0, old(client.script)), old(client.script));
              && r == run.result
              && client.log == old(client.log) + run.calls
              && client.script == Drop(old(client.script), |run.calls|)
    {
      ghost var log0, script0 := client.log, client.script;
      var baseline := Get(responses, BaselineName, "");
      var assessed := AssessAll(question, responses, baseline, step);
      ghost var run := AssessFrom(step, responses, 0, script0);
      if assessed.Err? {
        return Err(assessed.error);
      }
      ghost var mid := client.script;
      r := FinishReport(question, responses, markdown, assessed.value);
      ghost var f := Finish(discriminator.comparisonSystem, markdown, question, responses, assessed.value, mid);
      Appended(log0, run.calls, f.calls);
      DropDrop(script0, |run.calls|, |f.calls|);
      assert Compose(discriminator.comparisonSystem, markdown, question, responses, run, script0)
             == ClientRun(run.calls + f.calls, f.result);
    }

    /** The comparison and the report text, once every response is judged. */
    method FinishReport(question: string, responses: Dict<string>, markdown: seq<Row> -> string,
                        assessed: seq<Assessment>) returns (r: Reply<string>)
      requires Valid()
      requires |assessed| == |responses|
      modifies client
      ensures var f := Finish(discriminator.comparisonSystem, markdown, question, responses, assessed,
                              old(client.script));
              && r == f.result
              && client.log == old(client.log) + f.calls
              && client.script == Drop(old(client.script), |f.calls|)
    {
      var rows := MakeReportRows(responses, assessed);
      var baseline := Get(responses, BaselineName, "");
      var comparison := discriminator.GetComparisonRanking(question, responses, Some(baseline));
      if comparison.Err? {
        return Err(comparison.error);
      }
      var report := FormatReport(question, responses, markdown(rows), comparison.value.detailedComparison,
                                 comparison.value.ranking);
      r := Ok(report);
    }

    /** `evaluate_response` against a given context, seen through the step that models it. */
    method JudgeOne(question: string, response: string, context: string, ghost step: Step)
      returns (e: Reply<Assessment>)
      requires Valid()
      requires forall response, replies {:trigger AssessRun(JudgesOf(), question, response, Some(context), replies)} ::
                 step(response, replies) == AssessRun(JudgesOf(), question, response, Some(context), replies)
      modifies client
      ensures var a := step(response, old(client.script));
              && e == a.result
              && client.log == old(client.log) + a.calls
              && client.script == Drop(old(client.script), |a.calls|)
    {
      e := EvaluateResponse(question, response, Some(context));
    }

    /** Every response judged in turn against the same context; the first exception ends the
        loop. The run is stated over `step`, which judges one response as `evaluate_response`
        does. */
    method AssessAll(question: string, responses: Dict<string>, context: string, ghost step: Step)
      returns (r: Reply<seq<Assessment>>)
      requires Valid()
      requires forall response, replies {:trigger AssessRun(JudgesOf(), question, response, Some(context), replies)} ::
                 step(response, replies) == AssessRun(JudgesOf(), question, response, Some(context), replies)
      modifies client
      ensures var run := AssessFrom(step, responses, 0, old(client.script));
              && r == run.result
              && client.log == old(client.log) + run.calls
              && client.script == Drop(old(client.script), |run.calls|)
    {
      ghost var log0, script0 := client.log, client.script;
      ghost var calls: seq<ClientCall> := [];
      var done: seq<Assessment> := [];
      ResumeStart(AssessFrom(step, responses, 0, script0));
      for k := 0 to |responses|
        invariant client.log == log0 + calls
        invariant client.script == Drop(script0, |calls|)
        invariant AssessFrom(step, responses, 0, script0)
                  == Resume(done, calls, AssessFrom(step, responses, k, client.script))
      {
        ghost var script1 := client.script;
        var e := JudgeOne(question, responses[k].1, context, step);
        ghost var a := step(responses[k].1, script1);
        DropDrop(script0, |calls|, |a.calls|);
        Appended(log0, calls, a.calls);
        ResumeStep(step, responses, k, script1, done, calls);
        if e.Err? {
          return Err(e.error);
        }
        done := done + [e.value];
        calls := calls + a.calls;
      }
      assert AssessFrom(step, responses, |responses|, client.script) == ClientRun([], Ok([]));
      ResumeEnd(done, calls);
      r := Ok(done);
    }

    /** `evaluate_all_variants`: every variant's response, judged against the baseline's, as a
        row. */
    method EvaluateAllVariants(question: string) returns (r: Reply<seq<Row>>)
      requires Valid()
      modifies client, runner
      ensures var run := VariantRowsRun(JudgesOf(), question, old(runner.script), old(client.script));
              && r == run.result
              && client.log == old(client.log) + run.calls
              && client.script == Drop(old(client.script), |run.calls|)
      ensures runner.log == old(runner.log) + Queries(|VariantNames|, question)
      ensures runner.script == Drop(old(runner.script), |VariantNames|)
    {
      var responses := QueryAllVariants(question);
      var baseline := Get(responses, BaselineName, "");
      ghost var step := Judging(JudgesOf(), question, baseline);
      JudgingAssesses(JudgesOf(), question, baseline);
      var assessed := AssessAll(question, responses, baseline, step);
      ghost var run := AssessFrom(step, responses, 0, old(client.script));
      assert VariantRowsRun(JudgesOf(), question, old(runner.script), old(client.script))
             == Tabulate(question, responses, run);
      if assessed.Err? {
        return Err(assessed.error);
      }
      var rows := MakeRows(question, responses, assessed.value);
      r := Ok(rows);
    }

    /** `evaluate_all_variants`, seen through the round that models it. */
    method EvaluateRound(question: string, ghost round: Round) returns (e: Reply<seq<Row>>)
      requires Valid()
      requires RoundOf(round, JudgesOf())
      modifies client, runner
      ensures var v := round(question, old(runner.script), old(client.script));
              && e == v.result
              && client.log == old(client.log) + v.calls
              && client.script == Drop(old(client.script), |v.calls|)
      ensures runner.log == old(runner.log) + Queries(7, question)
      ensures runner.script == Drop(old(runner.script), 7)
    {
      e := EvaluateAllVariants(question);
    }

    /** `run_benchmark`: every question in turn, its rows after the rows of the questions
        before it; an exception ends the benchmark, and `pd.concat` raises when there were no
        questions. */
    method RunBenchmark(questions: seq<string>) returns (r: Reply<seq<Row>>)
      requires Valid()
      modifies client, runner
      ensures var b := BenchmarkRun(Rounds(JudgesOf()), questions, old(runner.script), old(client.script));
              && r == b.result
              && client.log == old(client.log) + b.calls
              && client.script == Drop(old(client.script), |b.calls|)
              && runner.log == old(runner.log) + Asked(questions, b.asked)
              && runner.script == Drop(old(runner.script), 7 * b.asked)
    {
      RoundsAreRows(JudgesOf());
      r := BenchmarkAll(questions, Rounds(JudgesOf()));
      if questions == [] {
        r := Err(NoObjectsMessage);
      }
    }

    /** The loop of `run_benchmark`, stated over `round`, which judges one question as
        `evaluate_all_variants` does. */
    method BenchmarkAll(questions: seq<string>, ghost round: Round) returns (r: Reply<seq<Row>>)
      requires Valid()
      requires RoundOf(round, JudgesOf())
      modifies client, runner
      ensures var b := BenchFrom(round, questions, 0, old(runner.script), old(client.script));
              && r == b.result
              && client.log == old(client.log) + b.calls
              && client.script == Drop(old(client.script), |b.calls|)
              && runner.log == old(runner.log) + Asked(questions, b.asked)
              && runner.script == Drop(old(runner.script), 7 * b.asked)
    {
      ghost var clog0, cscript0, rlog0, rscript0 := client.log, client.script, runner.log, runner.script;
      ghost var calls: seq<ClientCall> := [];
      var all: seq<Row> := [];
      var failure: Option<string> := None;
      var k := 0;
      ResumedStart(BenchFrom(round, questions, 0, rscript0, cscript0));
      assert Drop(rscript0, 0) == rscript0;
      while k < |questions| && failure.None?
        invariant k <= |questions|
        invariant client.log == clog0 + calls
        invariant client.script == Drop(cscript0, |calls|)
        invariant runner.log == rlog0 + Asked(questions, k)
        invariant runner.script == Drop(rscript0, 7 * k)
        invariant Progress(round, questions, rscript0, cscript0, all, calls, k, failure)
        decreases |questions| - k
      {
        ghost var v := round(questions[k], runner.script, client.script);
        var results := EvaluateRound(questions[k], round);
        BenchTurn(round, questions, k, rscript0, cscript0, all, calls, v.calls, results);
        Appended(clog0, calls, v.calls);
        Appended(rlog0, Asked(questions, k), Queries(7, questions[k]));
        if results.Err? {
          failure := Some(results.error);
        } else {
          all := all + results.value;
        }
        calls := calls + v.calls;
        k := k + 1;
      }
      BenchDone(round, questions, rscript0, cscript0, all, calls, k, failure);
      if failure.Some? {
        r := Err(failure.value);
      } else {
        r := Ok(all);
      }
    }
  }

  /** The position `FindName` reports is the first with the name. */
  lemma FindNameAt(names: seq<string>, name: string, i: nat)
    requires i < |names| && names[i] == name
    requires forall j :: 0 <= j < i ==> names[j] != name
    ensures FindName(names, name) == Some(i)
  {
  }
}
