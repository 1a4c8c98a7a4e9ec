/** The benchmark stepper of the comparison app (enhancements/comparison_app.py). The app
    keeps a `benchmark_state` dictionary in the session and advances it by one step on every
    run of the script: a step either fetches every variant's response to the current question
    (phase 0) or evaluates those responses and appends one result row per response (phase 1).
    `st.rerun()` ends a run; it is not an `Exception`, so the `except` does not catch it.

    The comparison engine behind the app is two scripted oracles: `query_all_variants` and
    the metrics of `evaluate_response`. */
module BenchmarkApp {
  import opened Wrappers
  import opened PyStr
  import opened Oracles
  import opened Scoring
  import opened Discriminator
  import opened ComparisonEngine

  /** One `engine.evaluate_response(question, response, baseline_response)` call. */
  datatype EvalCall = EvalCall(question: string, response: string, baseline: string)

  type VariantsEngine = Oracle<string, Dict<string>>
  type Evaluator = Oracle<EvalCall, Dict<real>>

  // ---------------------------------------------------------------------------
  // Parsing the questions and the texts shown

  /** `[q.strip() for q in text.split("\n") if q.strip()]`. */
  function ParseQuestions(text: string): (qs: seq<string>)
    ensures forall k :: 0 <= k < |qs| ==> qs[k] != "" && Strip(qs[k]) == qs[k] && !Contains(qs[k], "\n")
  {
    SplitPiecesAvoidSeparator(text, "\n");
    StrippedNonBlankClean(Split(text, "\n"));
    StrippedNonBlank(Split(text, "\n"))
  }

  /** "`i`/`n`" with `i` counted from 1. */
  function Position(i: nat, n: nat): string {
    NatToString(i) + "/" + NatToString(n)
  }

  const StartingStatus: string := "Starting benchmark..."

  function EvaluatingStatus(i: nat, n: nat): string {
    "Processing question " + Position(i + 1, n) + ": Evaluating responses"
  }

  function CompletedStatus(done: nat, n: nat): string {
    "Completed question " + Position(done, n)
  }

  /** `(i + 0.5) / n` while the responses to question `i` await evaluation, `i / n` otherwise. */
  function Fraction(i: nat, phase: nat, n: nat): real
    requires n > 0
  {
    ((i as real) + (if phase == 0 then 0.0 else 0.5)) / (n as real)
  }

  // ---------------------------------------------------------------------------
  // The state and one step of it, as values

  /** `benchmark_state` together with `temp_responses`, the responses kept between the two
      phases. */
  datatype Snapshot = Snapshot(
    running: bool,
    questions: seq<string>,
    questionIndex: nat,
    variantIndex: nat,
    results: seq<Row>,
    status: string,
    progress: real,
    pending: Option<Dict<string>>)

  const Initial: Snapshot := Snapshot(false, [], 0, 0, [], "", 0.0, None)

  /** What pressing "Run Full Benchmark" with `text` in the box does before the step: a
      question list that parses to something starts a fresh benchmark (the temporary
      responses of an earlier run are left where they are). */
  function Started(s: Snapshot, pressed: bool, text: string): Snapshot {
    if pressed && text != "" && ParseQuestions(text) != [] then
      Snapshot(true, ParseQuestions(text), 0, 0, [], StartingStatus, 0.0, s.pending)
    else s
  }

  /** The row of one response: question, variant, response, then `metric_<k>` per metric. */
  function BenchRow(question: string, name: string, response: string, metrics: Dict<real>): Row {
    PutScores([("question", Text(question)), ("variant", Text(name)), ("response", Text(response))],
              "metric_", metrics)
  }

  function EvalCalls(question: string, responses: Dict<string>): (calls: seq<EvalCall>)
    ensures |calls| == |responses|
    ensures forall j :: 0 <= j < |responses| ==>
              calls[j] == EvalCall(question, responses[j].1, Get(responses, BaselineName, ""))
  {
    var baseline := Get(responses, BaselineName, "");
    seq(|responses|, j requires 0 <= j < |responses| => EvalCall(question, responses[j].1, baseline))
  }

  function Scores(r: Reply<Dict<real>>): Dict<real> {
    match r
    case Ok(m) => m
    case Err(_) => []
  }

  function QuestionRows(question: string, responses: Dict<string>, replies: seq<Reply<Dict<real>>>)
    : (rows: seq<Row>)
    ensures |rows| == |responses|
    ensures forall j :: 0 <= j < |responses| ==>
              rows[j] == BenchRow(question, responses[j].0, responses[j].1, Scores(Nth(replies, j)))
  {
    seq(|responses|, j requires 0 <= j < |responses| =>
      BenchRow(question, responses[j].0, responses[j].1, Scores(Nth(replies, j))))
  }

  /** The rows of a question once every evaluation is back, or the first failure. */
  function Evaluated(question: string, responses: Dict<string>, replies: seq<Reply<Dict<real>>>)
    : Reply<seq<Row>>
  {
    var f := FirstErr(replies, |responses|);
    if f < |responses| then Err(Nth(replies, f).error)
    else Ok(QuestionRows(question, responses, replies))
  }

  /** The first `k` evaluations all succeeded and `rows` holds their rows. */
  predicate RowsSoFar(question: string, responses: Dict<string>, replies: seq<Reply<Dict<real>>>,
                      rows: seq<Row>, k: nat)
  {
    && k <= |responses|
    && |rows| == k
    && (forall j :: 0 <= j < k ==> Nth(replies, j).Ok?)
    && (forall j :: 0 <= j < k ==>
          rows[j] == BenchRow(question, responses[j].0, responses[j].1, Scores(Nth(replies, j))))
  }

  /** One more successful evaluation extends the rows by its row. */
  lemma RowsSoFarStep(question: string, responses: Dict<string>, replies: seq<Reply<Dict<real>>>,
                      rows: seq<Row>, k: nat)
    requires RowsSoFar(question, responses, replies, rows, k)
    requires k < |responses| && Nth(replies, k).Ok?
    ensures RowsSoFar(question, responses, replies,
                      rows + [BenchRow(question, responses[k].0, responses[k].1, Nth(replies, k).value)], k + 1)
  {
  }

  /** A failure after `k` successes is the question's outcome, and the loop made `k + 1` calls. */
  lemma RowsSoFarFails(question: string, responses: Dict<string>, replies: seq<Reply<Dict<real>>>,
                       rows: seq<Row>, k: nat)
    requires RowsSoFar(question, responses, replies, rows, k)
    requires k < |responses| && Nth(replies, k).Err?
    ensures Evaluated(question, responses, replies) == Err(Nth(replies, k).error)
    ensures Made(replies, |responses|) == k + 1
  {
  }

  /** All evaluations succeeded: the rows are the question's rows. */
  lemma RowsSoFarDone(question: string, responses: Dict<string>, replies: seq<Reply<Dict<real>>>,
                      rows: seq<Row>)
    requires RowsSoFar(question, responses, replies, rows, |responses|)
    ensures Evaluated(question, responses, replies) == Ok(rows)
    ensures Made(replies, |responses|) == |responses|
  {
    assert rows == QuestionRows(question, responses, replies);
  }

  /** One step: the state after it and the calls it made to each oracle. */
  datatype StepRun = StepRun(next: Snapshot, asked: seq<string>, evaluated: seq<EvalCall>)

  function Advance(s: Snapshot, answers: seq<Reply<Dict<string>>>, replies: seq<Reply<Dict<real>>>)
    : StepRun
  {
    if !s.running then StepRun(s, [], [])
    else if s.questionIndex >= |s.questions| then StepRun(s.(running := false), [], [])
    else if s.variantIndex == 0 then Fetch(s, answers)
    else EvaluatePending(s, replies)
  }

  /** Phase 0 of question `i`: ask the variants for their responses and hold them. */
  function Fetch(s: Snapshot, answers: seq<Reply<Dict<string>>>): StepRun
    requires s.questionIndex < |s.questions|
  {
    var i, n := s.questionIndex, |s.questions|;
    var question := s.questions[i];
    match Nth(answers, 0)
    case Err(_) => StepRun(s.(running := false), [question], [])
    case Ok(responses) =>
      StepRun(s.(variantIndex := 1, status := EvaluatingStatus(i, n), progress := Fraction(i, 1, n),
                 pending := Some(responses)),
              [question], [])
  }

  /** Phase 1 of question `i`: evaluate the held responses and append their rows. */
  function EvaluatePending(s: Snapshot, replies: seq<Reply<Dict<real>>>): StepRun
    requires s.questionIndex < |s.questions|
  {
    var i, n := s.questionIndex, |s.questions|;
    var question := s.questions[i];
    match s.pending
    case None => StepRun(s.(running := false), [], [])
    case Some(responses) =>
      var calls := EvalCalls(question, responses)[..Made(replies, |responses|)];
      match Evaluated(question, responses, replies)
      case Err(_) => StepRun(s.(running := false), [], calls)
      case Ok(rows) =>
        StepRun(s.(results := s.results + rows, questionIndex := i + 1, variantIndex := 0,
                   progress := Fraction(i + 1, 0, n), status := CompletedStatus(i + 1, n),
                   pending := None),
                [], calls)
  }

  /** The state after a question whose evaluations all came back. */
  lemma EvaluatedNext(s: Snapshot, replies: seq<Reply<Dict<real>>>, rows: seq<Row>)
    requires s.questionIndex < |s.questions| && s.pending.Some?
    requires Evaluated(s.questions[s.questionIndex], s.pending.value, replies) == Ok(rows)
    ensures var i, n := s.questionIndex, |s.questions|;
            EvaluatePending(s, replies).next ==
              s.(results := s.results + rows, questionIndex := i + 1, variantIndex := 0,
                 progress := Fraction(i + 1, 0, n), status := CompletedStatus(i + 1, n), pending := None)
  {
  }

  // ---------------------------------------------------------------------------
  // What the steps keep and promise

  /** The state every run of the app leaves behind: the index never passes the number of
      questions, the phase is 0 or 1, a running benchmark has questions, responses await
      evaluation exactly in phase 1, and the progress is where the index and phase put it. */
  predicate Consistent(s: Snapshot) {
    && s.questionIndex <= |s.questions|
    && s.variantIndex <= 1
    && (s.running ==> s.questions != [])
    && (s.questions == [] ==> s.questionIndex == 0 && s.variantIndex == 0 && s.progress == 0.0)
    && (s.questions != [] ==> s.progress == Fraction(s.questionIndex, s.variantIndex, |s.questions|))
    && (s.variantIndex == 1 ==> s.questionIndex < |s.questions| && s.pending.Some?)
  }

  lemma InitialConsistent()
    ensures Consistent(Initial)
  {
  }

  /** The progress of a consistent state lies in [0, 1]. */
  lemma ProgressBounds(s: Snapshot)
    requires Consistent(s)
    ensures 0.0 <= s.progress <= 1.0
  {
    if s.questions != [] {
      var n := |s.questions| as real;
      var a := (s.questionIndex as real) + (if s.variantIndex == 0 then 0.0 else 0.5);
      assert a <= n;
      FractionInUnit(a, n);
    }
  }

  lemma FractionInUnit(a: real, n: real)
    requires 0.0 <= a <= n && n > 0.0
    ensures 0.0 <= a / n <= 1.0
  {
    assert a / n * n == a;
  }

  /** Starting parses the questions as the stripped non-blank lines; only a non-empty list
      starts, at question 0, phase 0, with no results and progress 0. */
  lemma StartedSpec(s: Snapshot, pressed: bool, text: string)
    requires Consistent(s)
    ensures var t := Started(s, pressed, text);
            && Consistent(t)
            && (pressed && text != "" && ParseQuestions(text) != [] ==>
                  && t.running && t.questions == ParseQuestions(text)
                  && t.questionIndex == 0 && t.variantIndex == 0 && t.results == [] && t.progress == 0.0)
            && (!pressed || text == "" || ParseQuestions(text) == [] ==> t == s)
  {
    var qs := ParseQuestions(text);
    if pressed && text != "" && qs != [] {
      assert Fraction(0, 0, |qs|) == 0.0;
    }
  }

  /** A step keeps the state consistent. */
  lemma AdvanceConsistent(s: Snapshot, answers: seq<Reply<Dict<string>>>, replies: seq<Reply<Dict<real>>>)
    requires Consistent(s)
    ensures Consistent(Advance(s, answers, replies).next)
  {
  }

  /** A step that leaves the benchmark running has moved it on: phase 0 becomes phase 1 of
      the same question at (i + 0.5)/n, and phase 1 becomes phase 0 of the next question at
      (i + 1)/n; either way the progress strictly increases. */
  lemma AdvanceProgresses(s: Snapshot, answers: seq<Reply<Dict<string>>>, replies: seq<Reply<Dict<real>>>)
    requires Consistent(s) && s.running
    ensures var t := Advance(s, answers, replies).next;
            t.running ==>
              && t.progress > s.progress
              && (s.variantIndex == 0 ==>
                    t.questionIndex == s.questionIndex && t.variantIndex == 1 && t.results == s.results &&
                    t.progress == Fraction(s.questionIndex, 1, |s.questions|))
              && (s.variantIndex == 1 ==>
                    t.questionIndex == s.questionIndex + 1 && t.variantIndex == 0 &&
                    t.progress == Fraction(s.questionIndex + 1, 0, |s.questions|))
  {
    var t := Advance(s, answers, replies).next;
    if t.running {
      var i, n := s.questionIndex, |s.questions|;
      if s.variantIndex == 0 {
        DivMonotone(i as real + 0.0, i as real + 0.5, n as real);
      } else {
        DivMonotone(i as real + 0.5, (i + 1) as real + 0.0, n as real);
      }
    }
  }

  lemma DivMonotone(a: real, b: real, n: real)
    requires n > 0.0 && a < b
    ensures a / n < b / n
  {
  }

  /** Results grow only when every evaluation of a question succeeded, and then by exactly one
      row per response, in the responses' order. */
  lemma AdvanceResults(s: Snapshot, answers: seq<Reply<Dict<string>>>, replies: seq<Reply<Dict<real>>>)
    requires Consistent(s)
    ensures var t := Advance(s, answers, replies).next;
            || t.results == s.results
            || (&& s.running && s.variantIndex == 1
                && var responses := s.pending.value;
                   var question := s.questions[s.questionIndex];
                   && (forall j :: 0 <= j < |responses| ==> Nth(replies, j).Ok?)
                   && t.results == s.results + QuestionRows(question, responses, replies)
                   && |t.results| == |s.results| + |responses|
                   && t.questionIndex == s.questionIndex + 1)
  {
  }

  /** A step whose call raises stops the benchmark and changes nothing else. */
  lemma AdvanceFailure(s: Snapshot, answers: seq<Reply<Dict<string>>>, replies: seq<Reply<Dict<real>>>)
    requires Consistent(s) && s.running && s.questionIndex < |s.questions|
    requires s.variantIndex == 0 ==> Nth(answers, 0).Err?
    requires s.variantIndex == 1 ==> FirstErr(replies, |s.pending.value|) < |s.pending.value|
    ensures Advance(s, answers, replies).next == s.(running := false)
  {
  }

  /** Past the last question the step only stops the benchmark, and calls nothing. */
  lemma AdvanceEnd(s: Snapshot, answers: seq<Reply<Dict<string>>>, replies: seq<Reply<Dict<real>>>)
    requires s.running && s.questionIndex == |s.questions|
    ensures Advance(s, answers, replies) == StepRun(s.(running := false), [], [])
  {
  }

  /** Phase 0 asks for the current question's responses once; phase 1 evaluates the kept
      responses in order against the baseline's, stopping at the first failure. */
  lemma AdvanceCalls(s: Snapshot, answers: seq<Reply<Dict<string>>>, replies: seq<Reply<Dict<real>>>)
    requires Consistent(s) && s.running && s.questionIndex < |s.questions|
    ensures var r := Advance(s, answers, replies);
            var question := s.questions[s.questionIndex];
            && (s.variantIndex == 0 ==> r.asked == [question] && r.evaluated == [])
            && (s.variantIndex == 1 ==>
                  var responses := s.pending.value;
                  var baseline := Get(responses, BaselineName, "");
                  && r.asked == []
                  && |r.evaluated| == Made(replies, |responses|)
                  && (forall j :: 0 <= j < |r.evaluated| ==>
                        r.evaluated[j] == EvalCall(question, responses[j].1, baseline)))
  {
  }

  /** A row begins with the question, the variant and the response, and holds each metric
      under `metric_<key>`. */
  lemma BenchRowSpec(question: string, name: string, response: string, metrics: Dict<real>)
    requires Distinct(Keys(metrics))
    ensures var row := BenchRow(question, name, response, metrics);
            && Heads(row, question, name, response)
            && (forall i :: 0 <= i < |metrics| ==>
                  Get(row, "metric_" + metrics[i].0, Text("")) == Score(metrics[i].1))
  {
    var row0 := [("question", Text(question)), ("variant", Text(name)), ("response", Text(response))];
    PutScoresKeepsHeads(row0, "metric_", metrics, question, name, response);
    forall i | 0 <= i < |metrics|
      ensures Get(BenchRow(question, name, response, metrics), "metric_" + metrics[i].0, Text("")) == Score(metrics[i].1)
    {
      PutScoresGet(row0, "metric_", metrics, i);
    }
  }

  // ---------------------------------------------------------------------------
  // The tab labels of the results

  /** A question as a tab shows it: its first 50 characters and "..." when it is longer. */
  function Shorten(q: string): (r: string)
    ensures |q| <= 50 ==> r == q
    ensures |q| > 50 ==> r == q[..50] + "..." && |r| == 53
  {
    if |q| > 50 then q[..50] + "..." else q
  }

  /** `f"Q{i+1}: {q[:50] + '...' if len(q) > 50 else q}"`. */
  function TabLabel(i: nat, q: string): string {
    "Q" + NatToString(i + 1) + ": " + Shorten(q)
  }

  /** A tab's label reads back its number, then shows at most 53 characters of the question,
      every one of them the question's own up to the "...". */
  lemma TabLabelSpec(i: nat, q: string)
    ensures var tab := TabLabel(i, q);
            var digits := NatToString(i + 1);
            && tab[0] == 'Q'
            && tab[1..1 + |digits|] == digits && DigitsValue(digits) == i + 1
            && tab[1 + |digits|..3 + |digits|] == ": "
            && var shown := tab[3 + |digits|..];
               && |shown| <= 53
               && (|q| <= 50 ==> shown == q)
               && (|q| > 50 ==> shown[..50] == q[..50] && shown[50..] == "...")
  {
    NatToStringRoundTrip(i + 1);
    var digits := NatToString(i + 1);
    var tab := TabLabel(i, q);
    assert tab == "Q" + digits + ": " + Shorten(q);
    assert tab[3 + |digits|..] == Shorten(q);
  }

  // ---------------------------------------------------------------------------
  // The session state

  class BenchmarkState {
    var running: bool
    var questions: seq<string>
    var questionIndex: nat
    var variantIndex: nat
    var results: seq<Row>
    var status: string
    var progress: real
    /** `st.session_state.temp_responses`, if present. */
    var pending: Option<Dict<string>>

    function Snap(): Snapshot
      reads this
    {
      Snapshot(running, questions, questionIndex, variantIndex, results, status, progress, pending)
    }

    /** The state the app creates on its first run. */
    constructor ()
      ensures Snap() == Initial
    {
      running := false;
      questions := [];
      questionIndex := 0;
      variantIndex := 0;
      results := [];
      status := "";
      progress := 0.0;
      pending := None;
    }

    /** The form's "Run Full Benchmark" button with `text` in the questions box. */
    method Start(pressed: bool, text: string)
      modifies this
      ensures Snap() == Started(old(Snap()), pressed, text)
    {
      if pressed && text != "" {
        var qs := ParseQuestions(text);
        if qs != [] {
          running := true;
          questions := qs;
          questionIndex := 0;
          variantIndex := 0;
          results := [];
          status := StartingStatus;
          progress := 0.0;
        }
      }
    }

    /** Phase 1's loop over the responses: evaluate each against the baseline response and
        build its row; the first failure abandons the rows built so far. */
    static method EvaluateQuestion(evaluator: Evaluator, question: string, responses: Dict<string>)
      returns (r: Reply<seq<Row>>)
      modifies evaluator
      ensures r == Evaluated(question, responses, old(evaluator.script))
      ensures evaluator.log == old(evaluator.log) + EvalCalls(question, responses)[..Made(old(evaluator.script), |responses|)]
      ensures evaluator.script == Drop(old(evaluator.script), Made(old(evaluator.script), |responses|))
    {
      ghost var script0, log0 := evaluator.script, evaluator.log;
      var baseline := Get(responses, BaselineName, "");
      var rows: seq<Row> := [];
      var k := 0;
      while k < |responses|
        invariant k <= |responses|
        invariant evaluator.script == Drop(script0, k)
        invariant evaluator.log == log0 + EvalCalls(question, responses)[..k]
        invariant RowsSoFar(question, responses, script0, rows, k)
      {
        var reply := evaluator.Call(EvalCall(question, responses[k].1, baseline));
        assert reply == Nth(script0, k);
        PrefixSnoc(EvalCalls(question, responses), k);
        DropDrop(script0, k, 1);
        if reply.Err? {
          RowsSoFarFails(question, responses, script0, rows, k);
          return Err(reply.error);
        }
        RowsSoFarStep(question, responses, script0, rows, k);
        rows := rows + [BenchRow(question, responses[k].0, responses[k].1, reply.value)];
        k := k + 1;
      }
      RowsSoFarDone(question, responses, script0, rows);
      assert EvalCalls(question, responses)[..|responses|] == EvalCalls(question, responses);
      r := Ok(rows);
    }

    /** One run of the running-benchmark block. */
    method Step(variants: VariantsEngine, evaluator: Evaluator)
      modifies this, variants, evaluator
      ensures var run := Advance(old(Snap()), old(variants.script), old(evaluator.script));
              && Snap() == run.next
              && variants.log == old(variants.log) + run.asked
              && variants.script == Drop(old(variants.script), |run.asked|)
              && evaluator.log == old(evaluator.log) + run.evaluated
              && evaluator.script == Drop(old(evaluator.script), |run.evaluated|)
    {
      if !running {
        return;
      }
      if questionIndex >= |questions| {
        running := false;
        return;
      }
      if variantIndex == 0 {
        FetchPhase(variants);
      } else {
        EvaluatePhase(evaluator);
      }
    }

    /** The phase-0 branch of the block. */
    method FetchPhase(variants: VariantsEngine)
      requires questionIndex < |questions|
      modifies this, variants
      ensures var run := Fetch(old(Snap()), old(variants.script));
              && Snap() == run.next
              && variants.log == old(variants.log) + run.asked
              && variants.script == Drop(old(variants.script), |run.asked|)
    {
      var i, n := questionIndex, |questions|;
      var answer := variants.Call(questions[i]);
      match answer
      case Err(_) =>
        running := false;
      case Ok(responses) =>
        pending := Some(responses);
        variantIndex := 1;
        status := EvaluatingStatus(i, n);
        progress := Fraction(i, 1, n);
    }

    /** The phase-1 branch of the block. */
    method EvaluatePhase(evaluator: Evaluator)
      requires questionIndex < |questions|
      modifies this, evaluator
      ensures var run := EvaluatePending(old(Snap()), old(evaluator.script));
              && Snap() == run.next
              && evaluator.log == old(evaluator.log) + run.evaluated
              && evaluator.script == Drop(old(evaluator.script), |run.evaluated|)
    {
      if pending.None? {
        running := false;
        return;
      }
      var s0 := Snap();
      ghost var script0 := evaluator.script;
      var i, n := questionIndex, |questions|;
      var responses := pending.value;
      var r := EvaluateQuestion(evaluator, questions[i], responses);
      match r
      case Err(_) =>
        running := false;
      case Ok(rows) =>
        EvaluatedNext(s0, script0, rows);
        Load(s0.(results := s0.results + rows, questionIndex := i + 1, variantIndex := 0,
                 progress := Fraction(i + 1, 0, n), status := CompletedStatus(i + 1, n), pending := None));
    }

    /** Overwrites every field at once. */
    method Load(t: Snapshot)
      modifies this
      ensures Snap() == t
    {
      running, questions, questionIndex, variantIndex := t.running, t.questions, t.questionIndex, t.variantIndex;
      results, status, progress, pending := t.results, t.status, t.progress, t.pending;
    }

    /** One run of the script: the form, then the step. */
    method ScriptRun(pressed: bool, text: string, variants: VariantsEngine, evaluator: Evaluator)
      modifies this, variants, evaluator
      ensures var run := Advance(Started(old(Snap()), pressed, text), old(variants.script), old(evaluator.script));
              && Snap() == run.next
              && variants.log == old(variants.log) + run.asked
              && variants.script == Drop(old(variants.script), |run.asked|)
              && evaluator.log == old(evaluator.log) + run.evaluated
              && evaluator.script == Drop(old(evaluator.script), |run.evaluated|)
    {
      Start(pressed, text);
      Step(variants, evaluator);
    }
  }
}
